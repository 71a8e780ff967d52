/** The single-operation facade over the repository, and the wiring that
    builds one fresh pipeline per use case. */
module UseCase {
  import opened Utils
  import opened DomainModel
  import opened LocalData
  import opened RemoteData
  import opened UserRepository

  /** Holds nothing but the repository reference. */
  class GetUserUseCase {
    const repository: UserRepositoryImpl

    constructor (repository: UserRepositoryImpl)
      ensures this.repository == repository
    {
      this.repository := repository;
    }

    /** Forwards the repository's result, `Error` and escaping faults included,
        and has exactly the effect of one `getUser` call. */
    method Invoke() returns (r: Completion<Result<User>>)
      modifies repository.userDao, repository.remote
      ensures (r, repository.State()) == GetUserStep(old(repository.State()), repository.remote.respond)
    {
      r := repository.GetUser();
    }
  }

  /** A use case over a fresh DAO, the given remote source and a fresh repository,
      as the app's wiring builds it. */
  method NewUseCase(remote: UserRemoteSource) returns (useCase: GetUserUseCase)
    ensures fresh(useCase) && fresh(useCase.repository) && fresh(useCase.repository.userDao)
    ensures useCase.repository.remote == remote && useCase.repository.userDao.stored == None
  {
    var dao := new InMemoryUserDao();
    var repository := new UserRepositoryImpl(remote, dao);
    useCase := new GetUserUseCase(repository);
  }

  /** The stub over an empty store: the first call fetches and stores the stub's
      record, the second is served from the store; one fetch in all. */
  method StubPipelineFetchesOnce() returns (first: Completion<Result<User>>, second: Completion<Result<User>>, fetches: nat)
    ensures first == second == Returned(Success(User("1", "Jane Doe", "jane@system.design")))
    ensures fetches == 1
  {
    var remote := new UserRemoteSource.Stub();
    var useCase := NewUseCase(remote);
    first := useCase.Invoke();
    second := useCase.Invoke();
    fetches := remote.calls;
  }

  /** A pre-filled store and a remote source that always throws: the stored
      record is returned and the remote source is never called. */
  method CacheHitSkipsRemote(cached: UserEntity, failure: Exception) returns (r: Completion<Result<User>>, fetches: nat)
    ensures r == Returned(Success(User(cached.id, cached.name, cached.email)))
    ensures fetches == 0
  {
    var remote := new UserRemoteSource(_ => Thrown(failure));
    var useCase := NewUseCase(remote);
    useCase.repository.userDao.InsertUser(cached);
    r := useCase.Invoke();
    fetches := remote.calls;
  }

  /** An empty store and a throwing remote source: the exception comes back as
      `Error` and the store stays empty. */
  method FetchFailureIsError(failure: Exception) returns (r: Completion<Result<User>>, after: Option<UserEntity>)
    ensures r == Returned(Error(failure))
    ensures after == None
  {
    var remote := new UserRemoteSource(_ => Thrown(failure));
    var useCase := NewUseCase(remote);
    r := useCase.Invoke();
    after := useCase.repository.userDao.GetUserEntity();
  }

  /** An empty store and a remote source that throws something other than an
      `Exception`: it escapes the call and the store stays empty. */
  method UncaughtFaultEscapes(fault: Fault) returns (r: Completion<Result<User>>, after: Option<UserEntity>)
    ensures r == Escaped(fault)
    ensures after == None
  {
    var remote := new UserRemoteSource(_ => Raised(fault));
    var useCase := NewUseCase(remote);
    r := useCase.Invoke();
    after := useCase.repository.userDao.GetUserEntity();
  }
}
