/** The assertions of the `State` tests, each over a fresh `State` on an empty store. */
module SchedulerStateTest {
  import opened Wrappers
  import opened Paths
  import opened Store
  import opened SchedulerState

  /** `before`: a `State` over a new, empty store. */
  method Before() returns (state: State)
    ensures fresh(state) && fresh(state.store)
    ensures state.Valid() && state.store.entries == map[]
  {
    var store := new TestStateImpl();
    state := new State(store);
  }

  /** `testInitialGetFrameworkID`: a fresh store yields an identity with an empty value. */
  method TestInitialGetFrameworkID() returns (r: Result<FrameworkID, StateError>)
    ensures r.Success? && r.value.value == ""
  {
    var state := Before();
    r := state.GetFrameworkID();
  }

  /** `testThatStoreFrameworkIDStores`, for any value (the test uses "TEST_ID"): the identity read back is the one stored. */
  method TestThatStoreFrameworkIDStores(value: string) returns (stored: Outcome<StateError>, r: Result<FrameworkID, StateError>)
    ensures stored == Pass
    ensures r.Success? && r.value.value == value
  {
    var state := Before();
    var frameworkID := FrameworkID(value);
    stored := state.SetFrameworkId(frameworkID);
    r := state.GetFrameworkID();
  }

  /** `testMkDirJustSlashShouldNotCrash`: `mkdir("/")` completes normally. */
  method TestMkDirJustSlashShouldNotCrash() returns (r: Outcome<StateError>)
    ensures r == Pass
  {
    var state := Before();
    r := state.Mkdir("/");
  }

  /** `testMkDirTrailingSlash`: `mkdir("/mesos/")` fails. */
  method TestMkDirTrailingSlash() returns (r: Outcome<StateError>)
    ensures r == Fail(StoreFailure(NotSerializable(TrailingSlashMessage)))
  {
    var state := Before();
    TestPaths();
    r := state.Mkdir("/mesos/");
  }

  /** `testMkDirOk`: `mkdir("/mesos")` completes normally and the node can be read afterwards. */
  method TestMkDirOk() returns (r: Outcome<StateError>, node: Option<Payload>)
    ensures r == Pass && node.Some?
  {
    var state := Before();
    TestPaths();
    r := state.Mkdir("/mesos");
    node := state.store.Get("/mesos");
  }
}
