# SystemDesign: user pipeline and onboarding pager

A model of the two pieces of sequential logic in the SystemDesign Android app.

1. The cache-first user pipeline. `InMemoryUserDao` holds at most one stored
   user record. `UserMapper` copies fields from the wire record (`UserDto`) to
   the stored record (`UserEntity`) and on to the domain record (`User`).
   `UserRepositoryImpl.getUser` returns the stored record when there is one.
   Otherwise it calls the remote source, stores the mapped record and returns
   it. An `Exception` is caught and returned as `Result.Error`. A throwable
   that is not an `Exception` (a `kotlin.Error`) is not caught and escapes
   `getUser`. `GetUserUseCase.invoke` forwards the result or the escape.
2. The onboarding screen's `currentPage` state. It starts at 0. "Previous"
   steps back unless on page 0. "Next" steps forward, or calls `onFinished` on
   the last of the three pages. The button labels follow the index.

Modules, one per source file: `Utils` (the `Result` type, nullable values,
exceptions), `DomainModel` (`User`), `LocalData` (UserDao.kt), `RemoteData`
(ApiService.kt), `Mapper` (UserMapper.kt), `UserRepository`
(UserRepositoryImpl.kt), `UseCase` (GetUserUseCase.kt, plus the wiring that
builds one fresh pipeline) and `Onboarding` (OnBoardScreen.kt).

How the model is set up:
- The remote-source interface stands for any implementation. A
  `UserRemoteSource` object is given by `respond(n)`, the outcome of its n-th
  call: a record, a thrown `Exception`, or a thrown non-`Exception` fault. Its
  `calls` field counts the calls, so contracts can say when the remote source
  was not called. The counter is an observation added by the model; the
  Kotlin classes, the stub included, have no such field.
- `Completion` says how a call ends: it returns a value, or a fault escapes it. The stub is the
  instance whose every call returns `UserDto("1", "Jane Doe", "jane@system.design")`.
- `UserRepository.GetUserStep` is the one-call state machine over the DAO slot
  and the fetch count. `GetUser` is proved equal to it, and the lemmas about
  sequences of calls (`Results`, `After`) are proved over it.
- The pager's clicks are the function `Press`. The class methods are proved
  equal to it, and `Run` folds it over a click sequence from page 0.
- The repository returns the caught exception itself inside `Error`. The
  code has no separate "fetch failed" error kind, so the model has none either.
- A mapper function is deterministic because it is a Dafny function. The
  Kotlin mapper, stub and use case hold no state apart from the references
  shown; in the model the only added state is the remote source's call
  counter.
- The mapper has no state, so the repository calls the `Mapper` functions
  directly instead of keeping a `mapper` reference.

## Model

| member | source | states |
|---|---|---|
| `Mapper.DtoToEntity` | app/src/main/java/com/system/design/data/mapper/UserMapper.kt:8 | the entity carries exactly the wire record's id, name and email |
| `Mapper.ToDomain` | app/src/main/java/com/system/design/data/mapper/UserMapper.kt:9 | the domain user carries exactly the entity's id, name and email |
| `Mapper.MappingRoundTrip` | app/src/main/java/com/system/design/data/mapper/UserMapper.kt:8-9 | wire to entity to domain keeps all three fields of the wire record |
| `Mapper.DtoToEntityInjective` | app/src/main/java/com/system/design/data/mapper/UserMapper.kt:8 | two wire records map to equal entities if and only if they are equal |
| `Mapper.ToDomainInjective` | app/src/main/java/com/system/design/data/mapper/UserMapper.kt:9 | two entities map to equal users if and only if they are equal |
| `LocalData.InMemoryUserDao.constructor` | app/src/main/java/com/system/design/data/local/UserDao.kt:18 | a fresh DAO's slot is empty (null) |
| `LocalData.InMemoryUserDao.GetUserEntity` | app/src/main/java/com/system/design/data/local/UserDao.kt:19 | returns the slot's contents and changes nothing |
| `LocalData.InMemoryUserDao.InsertUser` | app/src/main/java/com/system/design/data/local/UserDao.kt:20 | afterwards the slot holds exactly the given record, whatever it held before |
| `LocalData.InsertTwiceReadsBack` | app/src/main/java/com/system/design/data/local/UserDao.kt:19-20 | on any DAO, whatever it held, inserting the same record twice leaves exactly that record stored and readable |
| `LocalData.LastWriteWins` | app/src/main/java/com/system/design/data/local/UserDao.kt:18-20 | on any DAO, whatever it held, after two inserts only the second record is stored and readable: capacity one, last write wins |
| `RemoteData.StubFetchUser` | app/src/main/java/com/system/design/data/remote/ApiService.kt:18-21 | the stub never throws and returns the record ("1", "Jane Doe", "jane@system.design") |
| `RemoteData.StubCallsAreIndependent` | app/src/main/java/com/system/design/data/remote/ApiService.kt:17-22 | any two stub calls return the same record |
| `RemoteData.UserRemoteSource.constructor` | app/src/main/java/com/system/design/data/remote/ApiService.kt:12-14 | an arbitrary implementation, given by the outcome of each call (a record, a thrown Exception, or a thrown non-Exception fault), with no calls made yet |
| `RemoteData.UserRemoteSource.Stub` | app/src/main/java/com/system/design/data/remote/ApiService.kt:17-22 | the stub implementation: every call's outcome is the constant record |
| `RemoteData.UserRemoteSource.FetchUser` | app/src/main/java/com/system/design/data/remote/ApiService.kt:13 | one call yields the implementation's next outcome and counts one call |
| `UserRepository.StepInvariant` | app/src/main/java/com/system/design/data/repository/UserRepositoryImpl.kt:17-29 | one call never changes a filled slot; it succeeds exactly when the slot is filled afterwards, with that record in domain form; any other ending (Error or an escaping fault) happens only on a miss and leaves the slot empty; a fault escapes exactly when the slot was empty and the remote source raised one |
| `UserRepository.FilledSlotIsFinal` | app/src/main/java/com/system/design/data/repository/UserRepositoryImpl.kt:18-20 | once the slot holds a record, every later call returns it and neither fetches nor writes |
| `UserRepository.SuccessIsFinal` | app/src/main/java/com/system/design/data/repository/UserRepositoryImpl.kt:18-25 | in any sequence of calls, after the first success every call returns the same success and the remote source is not called again |
| `UserRepository.FetchesBoundedByCalls` | app/src/main/java/com/system/design/data/repository/UserRepositoryImpl.kt:19-22 | n calls make at most n remote calls |
| `UserRepository.StubResolvesJaneDoe` | app/src/main/java/com/system/design/data/repository/UserRepositoryImpl.kt:22-25 | with the stub and an empty slot, one call returns User("1", "Jane Doe", "jane@system.design") and stores the matching entity |
| `UserRepository.UserRepositoryImpl.constructor` | app/src/main/java/com/system/design/data/repository/UserRepositoryImpl.kt:11-15 | the repository keeps the given remote source and DAO |
| `UserRepository.UserRepositoryImpl.GetUser` | app/src/main/java/com/system/design/data/repository/UserRepositoryImpl.kt:16-30 | hit: returns the mapped stored record, slot unchanged, no remote call; miss: one remote call, and either the mapped record is stored and returned, or an Exception is returned as Error, or a non-Exception fault escapes, in the last two cases with the slot still empty |
| `UseCase.GetUserUseCase.constructor` | app/src/main/java/com/system/design/domain/usecase/GetUserUseCase.kt:7 | the use case holds only the repository reference |
| `UseCase.GetUserUseCase.Invoke` | app/src/main/java/com/system/design/domain/usecase/GetUserUseCase.kt:8 | ends exactly as one getUser call does, Error and escaping faults included, with exactly its effect on the DAO |
| `UseCase.NewUseCase` | app/src/main/java/com/system/design/di/AppModule.kt:10-14 | each use case gets a fresh repository over a fresh, empty DAO |
| `UseCase.StubPipelineFetchesOnce` | app/src/main/java/com/system/design/data/repository/UserRepositoryImpl.kt:18-25 | with the stub and an empty store, two calls both return Jane Doe's record and the remote source is called once |
| `UseCase.CacheHitSkipsRemote` | app/src/main/java/com/system/design/data/repository/UserRepositoryImpl.kt:18-20 | with a filled store and a remote source that always throws, the stored record is returned and the remote source is never called |
| `UseCase.FetchFailureIsError` | app/src/main/java/com/system/design/data/repository/UserRepositoryImpl.kt:22-28 | with an empty store and a throwing remote source, the result is Error carrying the exception and the store stays empty |
| `UseCase.UncaughtFaultEscapes` | app/src/main/java/com/system/design/data/repository/UserRepositoryImpl.kt:22-28 | with an empty store and a remote source that throws a non-Exception fault, the fault escapes invoke and the store stays empty |
| `Onboarding.PressKeepsInBounds` | app/src/main/java/com/system/design/ui/main/OnBoardScreen.kt:119-136 | no click takes the page index outside the three pages |
| `Onboarding.LabelsMatchEffects` | app/src/main/java/com/system/design/ui/main/OnBoardScreen.kt:119-140 | the Previous label is blank exactly when Previous does nothing; the Next label is "Get Started" exactly when Next calls onFinished |
| `Onboarding.RunInBounds` | app/src/main/java/com/system/design/ui/main/OnBoardScreen.kt:83-136 | every page index reachable from 0 can index the page list |
| `Onboarding.RunBoundedByNexts` | app/src/main/java/com/system/design/ui/main/OnBoardScreen.kt:83-135 | the page index never exceeds the number of Next clicks made |
| `Onboarding.FinishNeedsEnoughNexts` | app/src/main/java/com/system/design/ui/main/OnBoardScreen.kt:132-135 | onFinished is called only from the last page, after at least lastIndex Next clicks |
| `Onboarding.NextsReachLastPage` | app/src/main/java/com/system/design/ui/main/OnBoardScreen.kt:132-135 | k Next clicks from the start reach page k for k up to lastIndex, and further Next clicks stay on the last page |
| `Onboarding.OnboardingPager.constructor` | app/src/main/java/com/system/design/ui/main/OnBoardScreen.kt:83 | currentPage starts at 0 |
| `Onboarding.OnboardingPager.Shown` | app/src/main/java/com/system/design/ui/main/OnBoardScreen.kt:104 | the indexing of the page list is in bounds and yields one of the three pages |
| `Onboarding.OnboardingPager.Previous` | app/src/main/java/com/system/design/ui/main/OnBoardScreen.kt:117-120 | decrements currentPage when above 0, does nothing at 0, keeps the index in bounds |
| `Onboarding.OnboardingPager.Next` | app/src/main/java/com/system/design/ui/main/OnBoardScreen.kt:130-137 | below the last page: increments by one, no onFinished; on the last page: calls onFinished, page unchanged |

## Left out

- The Compose UI of the onboarding screen: layout, theming, the status-bar side effect, `OnboardingPageItem` and `GifView`. These are rendering over Android libraries. The page icon (an `ImageVector`) is also left out.
- `AppActivity.kt`: the activity and the navigation host. Its `onFinished` does nothing, so `Next` only reports that it was called.
- `AppModule.kt` is modelled only as `UseCase.NewUseCase`: each use case builds its own DAO, so separate use cases do not share a cache.
- The `mapper` constructor parameter of `UserRepositoryImpl`: `UserMapper` has no fields, so its two functions are called directly.
- The `UserDao` and `UserRepository` interfaces: only their single implementations, `InMemoryUserDao` and `UserRepositoryImpl`, are modelled. The remote-source interface is modelled by the `respond` behaviour of `UserRemoteSource`.
- `suspend` and the stub's 50 ms `delay`: a fetch is an instantaneous call that may throw.
- Concurrency: the DAO has no locking and the repository has no single-flight logic. Interleaved calls are not modelled.
- The `catch` in `getUser` also covers exceptions from the DAO and the mapper. Neither can throw in this code, so only a throwing remote source is modelled.
