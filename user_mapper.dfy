/** Stateless, field-for-field translation wire -> stored -> domain. */
module Mapper {
  import opened DomainModel
  import opened LocalData
  import opened RemoteData

  /** The three fields every representation carries. */
  function DtoFields(d: UserDto): (string, string, string) { (d.id, d.name, d.email) }
  function EntityFields(e: UserEntity): (string, string, string) { (e.id, e.name, e.email) }
  function UserFields(u: User): (string, string, string) { (u.id, u.name, u.email) }

  function DtoToEntity(dto: UserDto): (e: UserEntity)
    ensures EntityFields(e) == DtoFields(dto)
  {
    UserEntity(dto.id, dto.name, dto.email)
  }

  function ToDomain(entity: UserEntity): (u: User)
    ensures UserFields(u) == EntityFields(entity)
  {
    User(entity.id, entity.name, entity.email)
  }

  /** The two stages together keep id, name and email of the wire record. */
  lemma MappingRoundTrip(d: UserDto)
    ensures UserFields(ToDomain(DtoToEntity(d))) == DtoFields(d)
  {
  }

  /** Equal wire records map to equal entities and distinct ones to distinct entities. */
  lemma DtoToEntityInjective(a: UserDto, b: UserDto)
    ensures DtoToEntity(a) == DtoToEntity(b) <==> a == b
  {
  }

  /** Likewise for the entity-to-domain stage. */
  lemma ToDomainInjective(a: UserEntity, b: UserEntity)
    ensures ToDomain(a) == ToDomain(b) <==> a == b
  {
  }
}
