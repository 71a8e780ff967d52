/** The local store: a stored user record and a DAO that holds at most one of them. */
module LocalData {
  import opened Utils

  /** The stored representation of a user. */
  datatype UserEntity = UserEntity(id: string, name: string, email: string)

  /** An in-memory DAO whose whole state is one nullable slot. */
  class InMemoryUserDao {
    var stored: Option<UserEntity>

    /** A fresh DAO holds nothing. */
    constructor ()
      ensures stored == None
    {
      stored := None;
    }

    /** Reads the slot without changing it. */
    method GetUserEntity() returns (r: Option<UserEntity>)
      ensures r == stored
    {
      r := stored;
    }

    /** Overwrites the slot unconditionally: the last write wins, capacity is one. */
    method InsertUser(user: UserEntity)
      modifies this
      ensures stored == Some(user)
    {
      stored := Some(user);
    }
  }

  /** Writing the same record twice, whatever the DAO held, leaves exactly that record. */
  method InsertTwiceReadsBack(dao: InMemoryUserDao, user: UserEntity) returns (r: Option<UserEntity>)
    modifies dao
    ensures r == Some(user) && dao.stored == Some(user)
  {
    dao.InsertUser(user);
    dao.InsertUser(user);
    r := dao.GetUserEntity();
  }

  /** Two writes, whatever the DAO held: only the second record is there afterwards. */
  method LastWriteWins(dao: InMemoryUserDao, first: UserEntity, second: UserEntity) returns (r: Option<UserEntity>)
    modifies dao
    ensures r == Some(second) && dao.stored == Some(second)
  {
    dao.InsertUser(first);
    dao.InsertUser(second);
    r := dao.GetUserEntity();
  }
}
