# State store of the Elasticsearch-on-Mesos scheduler

The scheduler keeps its coordination state, above all its own framework identity, in a
hierarchical key/value store addressed by slash-delimited paths. Its tests replace the
ZooKeeper-backed store with `TestStateImpl`, a hash map with one guard in front of writes:
a key that ends in `/` is refused with `NotSerializableException` unless the key is the root
`/` itself. The tests also define `TestVariable`, a one-field holder of a byte array, and
assert how the `State` facade behaves over the map store: a fresh store yields an empty
framework identity, a stored identity reads back, `mkdir("/")` and `mkdir("/mesos")`
complete and `mkdir("/mesos/")` fails.

The model has five modules:

- `Paths` (`paths.dfy`): Java's `endsWith` and the trailing-slash guard (`Accepted`).
- `Store` (`store.dfy`): the map store. `Write` is the effect of one `set` on a table, and
  `Replay` is the effect of a sequence of `set` calls. The class `TestStateImpl` keeps the
  table in a `map` field, with `Get` as a reading function and `Set` as a method. Its
  invariant `Valid()` says that no stored key fails the guard.
- `Variables` (`variable.dfy`): `TestVariable` over an `array<int8>`. `value()` hands
  back the same array object and `mutate` returns the variable itself.
- `SchedulerState` (`state.dfy`): a minimal `State` facade over a
  `TestStateImpl<Payload>`. It holds the framework identity at one key, and `mkdir`
  writes a placeholder node.
- `SchedulerStateTest` (`state_test.dfy`): the JUnit tests as methods whose postconditions
  are the tests' assertions.

`set` signals a bad path with `NotSerializableException`; there is no separate
invalid-path error. The map store's `get` performs no type check: a mismatch only shows up
when the caller's cast fails, so the model reports it from `State.GetFrameworkID` as
`ClassCast`.

## Model

| member | source | states |
|---|---|---|
| Paths.EndsWith | scheduler/src/test/java/org/apache/mesos/elasticsearch/scheduler/StateTest.java:90 | `endsWith(suffix)` holds exactly when the string is some prefix followed by `suffix` |
| Paths.Accepted | scheduler/src/test/java/org/apache/mesos/elasticsearch/scheduler/StateTest.java:90 | the guard lets a key through exactly when it is `/`, empty, or its last character is not `/` |
| Paths.EndsWithSlash | scheduler/src/test/java/org/apache/mesos/elasticsearch/scheduler/StateTest.java:90 | `endsWith("/")` holds exactly when the key is non-empty and its last character is `/` |
| Paths.RootOnlySlashTerminated | scheduler/src/test/java/org/apache/mesos/elasticsearch/scheduler/StateTest.java:90 | among keys ending in `/`, only the root is accepted |
| Paths.TrailingSlashRefused | scheduler/src/test/java/org/apache/mesos/elasticsearch/scheduler/StateTest.java:90-92 | any non-empty key with a `/` appended is refused |
| Paths.TestPaths | scheduler/src/test/java/org/apache/mesos/elasticsearch/scheduler/StateTest.java:90 | `/` and `/mesos` pass the guard, `/mesos/` does not |
| Store.Read | scheduler/src/test/java/org/apache/mesos/elasticsearch/scheduler/StateTest.java:85 | `getOrDefault(key, null)`: present exactly when the key is in the table, and then the stored value |
| Store.Write | scheduler/src/test/java/org/apache/mesos/elasticsearch/scheduler/StateTest.java:89-94 | a write succeeds exactly when the key passes the guard; otherwise it fails with "Trailing slashes are not allowed"; after a successful write the key reads back the written value and every other key reads as before |
| Store.WriteKeepsKeysAccepted | scheduler/src/test/java/org/apache/mesos/elasticsearch/scheduler/StateTest.java:90-93 | a successful write keeps every stored key accepted |
| Store.WriteOverwrites | scheduler/src/test/java/org/apache/mesos/elasticsearch/scheduler/StateTest.java:93 | writing `v` and then `w` to an accepted key gives the same table as writing `w` alone |
| Store.ReplayReadsLastPut | scheduler/src/test/java/org/apache/mesos/elasticsearch/scheduler/StateTest.java:89-93 | after any sequence of `set` calls, each refused call caught and skipped, a key holds the value of its last accepted write, or its old value if no such write exists |
| Store.ReplayKeepsKeysAccepted | scheduler/src/test/java/org/apache/mesos/elasticsearch/scheduler/StateTest.java:90-93 | no sequence of `set` calls stores a key that fails the guard |
| Store.ReplayRefusedIsIdentity | scheduler/src/test/java/org/apache/mesos/elasticsearch/scheduler/StateTest.java:90-92 | a sequence of refused writes leaves the table unchanged |
| Store.TestStateImpl.constructor | scheduler/src/test/java/org/apache/mesos/elasticsearch/scheduler/StateTest.java:82 | a new store is empty and satisfies its invariant |
| Store.TestStateImpl.Get | scheduler/src/test/java/org/apache/mesos/elasticsearch/scheduler/StateTest.java:84-86 | a stored key yields its value; a key never set yields absent, not an error |
| Store.TestStateImpl.Set | scheduler/src/test/java/org/apache/mesos/elasticsearch/scheduler/StateTest.java:88-94 | the result and new table are those of `Write`: a refused key fails and leaves the table unchanged; an accepted key is inserted or overwritten; the invariant is kept |
| Variables.TestVariable.constructor | scheduler/src/test/java/org/apache/mesos/elasticsearch/scheduler/StateTest.java:48 | a new variable holds a fresh, empty byte array |
| Variables.TestVariable.Value | scheduler/src/test/java/org/apache/mesos/elasticsearch/scheduler/StateTest.java:50-53 | returns the array currently held, the same object |
| Variables.TestVariable.Mutate | scheduler/src/test/java/org/apache/mesos/elasticsearch/scheduler/StateTest.java:55-59 | the variable holds the given array afterwards and the call returns the variable itself |
| Variables.FreshValueIsEmpty | scheduler/src/test/java/org/apache/mesos/elasticsearch/scheduler/StateTest.java:48-53 | reading a fresh variable gives an empty array |
| Variables.MutateThenValue | scheduler/src/test/java/org/apache/mesos/elasticsearch/scheduler/StateTest.java:50-59 | `mutate(b)` returns the same variable, and `value()` afterwards gives `b` |
| SchedulerState.MkdirEffect | scheduler/src/test/java/org/apache/mesos/elasticsearch/scheduler/StateTest.java:62-75 | mkdir of the root changes nothing; on a store whose keys are all accepted, mkdir succeeds exactly when the path passes the guard; on success every existing entry keeps its value, nothing but the path is added, and a non-root path is present afterwards |
| SchedulerState.MkdirIdempotent | scheduler/src/test/java/org/apache/mesos/elasticsearch/scheduler/StateTest.java:72-75 | a second mkdir of the same path leaves the table as the first one did |
| SchedulerState.State.constructor | scheduler/src/test/java/org/apache/mesos/elasticsearch/scheduler/StateTest.java:26 | the facade wraps the given store and keeps its invariant |
| SchedulerState.State.GetFrameworkID | scheduler/src/test/java/org/apache/mesos/elasticsearch/scheduler/StateTest.java:34-45 | a store without an identity yields an identity with an empty value; a stored identity is returned as stored; a non-identity at the key is a cast failure |
| SchedulerState.State.SetFrameworkId | scheduler/src/test/java/org/apache/mesos/elasticsearch/scheduler/StateTest.java:39-45 | always succeeds and changes only the identity key, which then holds the identity |
| SchedulerState.State.Mkdir | scheduler/src/test/java/org/apache/mesos/elasticsearch/scheduler/StateTest.java:62-75 | result and new table are those of `MkdirEffect`; a failure carries the store's error and leaves the table unchanged |
| SchedulerStateTest.Before | scheduler/src/test/java/org/apache/mesos/elasticsearch/scheduler/StateTest.java:24-27 | each test starts from a new `State` over a new, empty store |
| SchedulerStateTest.TestInitialGetFrameworkID | scheduler/src/test/java/org/apache/mesos/elasticsearch/scheduler/StateTest.java:34-37 | on a fresh store the framework identity is returned and its value is empty |
| SchedulerStateTest.TestThatStoreFrameworkIDStores | scheduler/src/test/java/org/apache/mesos/elasticsearch/scheduler/StateTest.java:39-45 | for every value, not only "TEST_ID": storing an identity succeeds, and reading it back gives a non-null identity with the same value |
| SchedulerStateTest.TestMkDirJustSlashShouldNotCrash | scheduler/src/test/java/org/apache/mesos/elasticsearch/scheduler/StateTest.java:62-65 | `mkdir("/")` completes normally |
| SchedulerStateTest.TestMkDirTrailingSlash | scheduler/src/test/java/org/apache/mesos/elasticsearch/scheduler/StateTest.java:67-70 | `mkdir("/mesos/")` fails with the store's trailing-slash error |
| SchedulerStateTest.TestMkDirOk | scheduler/src/test/java/org/apache/mesos/elasticsearch/scheduler/StateTest.java:72-75 | `mkdir("/mesos")` completes normally, and `/mesos` is present in the store afterwards |

## Left out

- The source of `State` and `SerializableState` is not part of this model. `SchedulerState.State` is built from what the tests assert, plus these choices of its own:
  - SchedulerState.State.Mkdir: a path already present in the store is skipped rather than written again.
  - SchedulerState.State.Mkdir: a missing node is written with the `DirectoryNode` placeholder as its value.
  - SchedulerState.State.Mkdir: a refused path fails with the store's own `NotSerializable("Trailing slashes are not allowed")`; the test only expects some exception.
  - SchedulerState.State.GetFrameworkID: a `DirectoryNode` at the identity key reads as a `ClassCast` failure.
  - SchedulerStateTest.TestMkDirOk: that `/mesos` is present after `mkdir("/mesos")` follows from the placeholder write above; the test itself asserts only that the call completes.
- Store.Replay and Store.LastPut: these have no counterpart in the source. They are the model's own fold over a sequence of `set` calls, each refused call caught and skipped, and serve only to state the last-writer-wins lemmas.
- SchedulerState.State.Mkdir: writes a node only for `path` itself. It does not create the ancestors of `path` one by one, because the code that walks them is not part of this model.
- SchedulerState.FrameworkIdKey: the key `/frameworkId` is chosen here, because the real key is defined in `State`, whose source is not part of this model. Any accepted non-root key gives the same results.
- Java `null` as a stored object is not modelled. Stored values have an opaque type, and "absent" is `None`.
- Null keys and null byte arrays are not modelled, because Dafny strings and arrays are never null. So `set(null, v)` throwing `NullPointerException` at `endsWith`, `get(null)` returning `null`, and `mutate(null)` making `value()` return `null` have no counterpart.
- Java serialization and the unchecked generic cast are not modelled. The only type mismatch the model represents is a directory placeholder read as a framework identity.
- ZooKeeper, the Mesos `Variable` base class, blocking on futures, and concurrent callers are not modelled. They are foreign code, network I/O and threads.
- `testSanityCheck` (`state` is not null) has no member of its own. It holds by construction, because Dafny reference types are non-null.
- The JUnit harness (annotations, assertion messages, `expected = Exception.class`) becomes method postconditions.
