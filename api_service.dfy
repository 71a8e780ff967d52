/** The remote source: the wire record and an abstract, fallible fetch. */
module RemoteData {
  import opened Utils

  /** The wire representation of a user. */
  datatype UserDto = UserDto(id: string, name: string, email: string)

  /** What one call of `fetchUser` does: return a record, throw an `Exception`,
      or throw a throwable that is not an `Exception`. */
  datatype FetchOutcome = Fetched(dto: UserDto) | Thrown(cause: Exception) | Raised(fault: Fault)

  /** The constant record the stub returns. */
  const StubUser: UserDto := UserDto("1", "Jane Doe", "jane@system.design")

  /** The stub's `fetchUser`, as a function of the call's position: it ignores it. */
  function StubFetchUser(call: nat): (r: FetchOutcome)
    ensures r.Fetched? && r.dto.id == "1" && r.dto.name == "Jane Doe"
    ensures r.dto.email == "jane@system.design"
  {
    Fetched(StubUser)
  }

  /** The stub never throws and any two of its calls return equal records. */
  lemma StubCallsAreIndependent(i: nat, j: nat)
    ensures StubFetchUser(i) == StubFetchUser(j) == Fetched(StubUser)
  {
  }

  /** Any implementation of the remote-source interface. Its behaviour is the
      outcome `respond(n)` of its n-th call, which may be a throw of either
      kind. `calls` counts the calls made so far: it observes the calls and is
      not state that the source's classes have. */
  class UserRemoteSource {
    const respond: nat -> FetchOutcome
    var calls: nat

    constructor (respond: nat -> FetchOutcome)
      ensures this.respond == respond && calls == 0
    {
      this.respond := respond;
      calls := 0;
    }

    /** The stub implementation: every call returns the constant record. */
    constructor Stub()
      ensures respond == StubFetchUser && calls == 0
    {
      respond := StubFetchUser;
      calls := 0;
    }

    /** One call: the implementation's next outcome. */
    method FetchUser() returns (r: FetchOutcome)
      modifies this
      ensures r == respond(old(calls)) && calls == old(calls) + 1
    {
      r := respond(calls);
      calls := calls + 1;
    }
  }
}
