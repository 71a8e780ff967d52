/** Cache-first resolution of the one user record. */
module UserRepository {
  import opened Utils
  import opened DomainModel
  import opened LocalData
  import opened RemoteData
  import opened Mapper

  /** What a repository's behaviour depends on: the DAO slot and how many
      times the remote source has been called. */
  datatype RepoState = RepoState(cached: Option<UserEntity>, fetches: nat)

  /** One `getUser` call, given the remote source's behaviour. An `Exception`
      becomes `Error`; any other throwable escapes the call. */
  function GetUserStep(s: RepoState, respond: nat -> FetchOutcome): (Completion<Result<User>>, RepoState)
  {
    match s.cached
    case Some(local) => (Returned(Success(ToDomain(local))), s)
    case None =>
      match respond(s.fetches)
      case Fetched(dto) =>
        var entity := DtoToEntity(dto);
        (Returned(Success(ToDomain(entity))), RepoState(Some(entity), s.fetches + 1))
      case Thrown(e) => (Returned(Error(e)), RepoState(None, s.fetches + 1))
      case Raised(f) => (Escaped(f), RepoState(None, s.fetches + 1))
  }

  /** The call returned a user. */
  predicate Succeeded(c: Completion<Result<User>>)
  {
    c.Returned? && c.value.Success?
  }

  /** The state machine one call keeps: a filled slot is never changed or
      emptied, the call succeeds exactly when the slot is filled afterwards,
      and then it returns that record in domain form; otherwise it was a miss
      and the slot stays empty. A fault escapes exactly when the slot was
      empty and the remote source raised one. */
  lemma StepInvariant(s: RepoState, respond: nat -> FetchOutcome)
    ensures var (r, t) := GetUserStep(s, respond);
      (s.cached.Some? ==> t == s) &&
      (Succeeded(r) <==> t.cached.Some?) &&
      (Succeeded(r) ==> r.value.data == ToDomain(t.cached.value)) &&
      (!Succeeded(r) ==> s.cached == None && t == RepoState(None, s.fetches + 1)) &&
      (r.Escaped? <==> s.cached == None && respond(s.fetches).Raised?)
  {
  }

  /** The results of `n` consecutive calls starting in state `s`. */
  function Results(s: RepoState, respond: nat -> FetchOutcome, n: nat): (rs: seq<Completion<Result<User>>>)
    ensures |rs| == n
    decreases n
  {
    if n == 0 then []
    else
      var (r, t) := GetUserStep(s, respond);
      [r] + Results(t, respond, n - 1)
  }

  /** The state after `n` consecutive calls starting in state `s`. */
  function After(s: RepoState, respond: nat -> FetchOutcome, n: nat): RepoState
    decreases n
  {
    if n == 0 then s else After(GetUserStep(s, respond).1, respond, n - 1)
  }

  /** Once the slot holds `e`, every further call returns `e` in domain form,
      calls the remote source no more and changes nothing. */
  lemma {:induction false} FilledSlotIsFinal(s: RepoState, respond: nat -> FetchOutcome, n: nat)
    requires s.cached.Some?
    ensures forall j :: 0 <= j < n ==> Results(s, respond, n)[j] == Returned(Success(ToDomain(s.cached.value)))
    ensures After(s, respond, n) == s
    decreases n
  {
    if n > 0 {
      FilledSlotIsFinal(s, respond, n - 1);
    }
  }

  /** In any sequence of calls, once one call succeeds every later call returns
      the same success, and the remote source is not called again. */
  lemma {:induction false} SuccessIsFinal(s: RepoState, respond: nat -> FetchOutcome, n: nat, i: nat)
    requires i < n && Succeeded(Results(s, respond, n)[i])
    ensures forall j :: i <= j < n ==> Results(s, respond, n)[j] == Results(s, respond, n)[i]
    ensures After(s, respond, n).fetches == After(s, respond, i + 1).fetches
    decreases i
  {
    var (r, t) := GetUserStep(s, respond);
    if i == 0 {
      StepInvariant(s, respond);
      FilledSlotIsFinal(t, respond, n - 1);
      assert Results(s, respond, n)[0] == r;
      forall j | 0 < j < n
        ensures Results(s, respond, n)[j] == r
      {
        assert Results(s, respond, n)[j] == Results(t, respond, n - 1)[j - 1];
      }
    } else {
      SuccessIsFinal(t, respond, n - 1, i - 1);
      forall j | i <= j < n
        ensures Results(s, respond, n)[j] == Results(s, respond, n)[i]
      {
        assert Results(s, respond, n)[j] == Results(t, respond, n - 1)[j - 1];
      }
    }
  }

  /** Every call calls the remote source at most once. */
  lemma {:induction false} FetchesBoundedByCalls(s: RepoState, respond: nat -> FetchOutcome, n: nat)
    ensures s.fetches <= After(s, respond, n).fetches <= s.fetches + n
    decreases n
  {
    if n > 0 {
      FetchesBoundedByCalls(GetUserStep(s, respond).1, respond, n - 1);
    }
  }

  /** With the stub and an empty slot, the first call resolves the stub's record. */
  lemma StubResolvesJaneDoe(fetches: nat)
    ensures GetUserStep(RepoState(None, fetches), StubFetchUser)
         == (Returned(Success(User("1", "Jane Doe", "jane@system.design"))),
             RepoState(Some(UserEntity("1", "Jane Doe", "jane@system.design")), fetches + 1))
  {
  }

  /** The repository: a remote source, a DAO and the (stateless) mapper. */
  class UserRepositoryImpl {
    const remote: UserRemoteSource
    const userDao: InMemoryUserDao

    constructor (remote: UserRemoteSource, userDao: InMemoryUserDao)
      ensures this.remote == remote && this.userDao == userDao
    {
      this.remote := remote;
      this.userDao := userDao;
    }

    function State(): RepoState
      reads this, userDao, remote
    {
      RepoState(userDao.stored, remote.calls)
    }

    /** Cache hit: the stored record, no fetch. Cache miss: fetch, store,
        return; a fetch throwing an `Exception` is caught as `Error`, any
        other throwable escapes, and in both cases nothing is stored. */
    method GetUser() returns (r: Completion<Result<User>>)
      modifies userDao, remote
      ensures (r, State()) == GetUserStep(old(State()), remote.respond)
      ensures old(userDao.stored).Some? ==>
        r == Returned(Success(ToDomain(old(userDao.stored).value))) &&
        userDao.stored == old(userDao.stored) && remote.calls == old(remote.calls)
      ensures old(userDao.stored).None? ==> remote.calls == old(remote.calls) + 1
      ensures old(userDao.stored).None? && remote.respond(old(remote.calls)).Fetched? ==>
        var entity := DtoToEntity(remote.respond(old(remote.calls)).dto);
        userDao.stored == Some(entity) && r == Returned(Success(ToDomain(entity)))
      ensures old(userDao.stored).None? && remote.respond(old(remote.calls)).Thrown? ==>
        r == Returned(Error(remote.respond(old(remote.calls)).cause)) && userDao.stored == None
      ensures old(userDao.stored).None? && remote.respond(old(remote.calls)).Raised? ==>
        r == Escaped(remote.respond(old(remote.calls)).fault) && userDao.stored == None
    {
      var local := userDao.GetUserEntity();
      if local.Some? {
        r := Returned(Success(ToDomain(local.value)));
      } else {
        var fetched := remote.FetchUser();
        match fetched
        case Fetched(dto) =>
          var entity := DtoToEntity(dto);
          userDao.InsertUser(entity);
          r := Returned(Success(ToDomain(entity)));
        case Thrown(e) =>
          r := Returned(Error(e));
        case Raised(f) =>
          r := Escaped(f);
      }
    }
  }
}
