/**
 * The `State` facade over the store, as far as its tests pin it down:
 * the framework identity at one fixed key, and `mkdir` of a path.
 */
module SchedulerState {
  import opened Wrappers
  import opened Paths
  import opened Store

  /** `Protos.FrameworkID`: a record holding one string; the empty string means "not yet assigned". */
  datatype FrameworkID = FrameworkID(value: string)

  /** What `State` puts in the store: a framework identity, or the placeholder of a directory node. */
  datatype Payload = Identity(id: FrameworkID) | DirectoryNode

  /** Errors `State` surfaces: the store's own, or a stored object of the wrong type for the read. */
  datatype StateError = StoreFailure(cause: StoreError) | ClassCast(key: string)

  /** The fixed key under which the framework identity is kept. */
  const FrameworkIdKey: string := "/frameworkId"

  /** What `mkdir(path)` does to the table `m`: the root and an existing node are left alone, a missing node is written. */
  function MkdirEffect(m: map<string, Payload>, path: string): (r: Result<map<string, Payload>, StoreError>)
    ensures r.Failure? ==> !Accepted(path)
    ensures path == Root ==> r == Success(m)
    ensures AllAccepted(m) ==> (r.Success? <==> Accepted(path))
    ensures r.Success? ==> forall k | k in m :: k in r.value && r.value[k] == m[k]
    ensures r.Success? ==> r.value.Keys <= m.Keys + {path}
    ensures r.Success? && path != Root ==> path in r.value
  {
    if path == Root || path in m then Success(m) else Write(m, path, DirectoryNode)
  }

  /** Making the same directory twice leaves the table as making it once. */
  lemma MkdirIdempotent(m: map<string, Payload>, path: string)
    requires MkdirEffect(m, path).Success?
    ensures MkdirEffect(MkdirEffect(m, path).value, path) == MkdirEffect(m, path)
  {
  }

  class State {
    const store: TestStateImpl<Payload>

    ghost predicate Valid()
      reads this, store
    {
      store.Valid()
    }

    /** `new State(store)`: the facade over an existing store. */
    constructor (store: TestStateImpl<Payload>)
      requires store.Valid()
      ensures this.store == store && Valid()
    {
      this.store := store;
    }

    /** `getFrameworkID()`: the stored identity, an empty one on a fresh store, or the cast failure for a non-identity. */
    function GetFrameworkID(): (r: Result<FrameworkID, StateError>)
      reads this, store
      ensures FrameworkIdKey !in store.entries ==> r == Success(FrameworkID(""))
      ensures FrameworkIdKey in store.entries && store.entries[FrameworkIdKey].Identity? ==>
                r == Success(store.entries[FrameworkIdKey].id)
      ensures FrameworkIdKey in store.entries && store.entries[FrameworkIdKey].DirectoryNode? ==>
                r == Failure(ClassCast(FrameworkIdKey))
    {
      match store.Get(FrameworkIdKey)
      case None => Success(FrameworkID(""))
      case Some(Identity(id)) => Success(id)
      case Some(DirectoryNode) => Failure(ClassCast(FrameworkIdKey))
    }

    /** `setFrameworkId(id)`: store the identity at its key, overwriting the previous one. */
    method SetFrameworkId(id: FrameworkID) returns (r: Outcome<StateError>)
      requires Valid()
      modifies store
      ensures Valid()
      ensures r == Pass && store.entries == old(store.entries)[FrameworkIdKey := Identity(id)]
    {
      EndsWithSlash(FrameworkIdKey);
      var w := store.Set(FrameworkIdKey, Identity(id));
      match w
      case Pass => r := Pass;
      case Fail(e) => r := Fail(StoreFailure(e));
    }

    /** `mkdir(path)`: fails with the store's error on a refused path; otherwise the node exists afterwards and nothing stored changes. */
    method Mkdir(path: string) returns (r: Outcome<StateError>)
      requires Valid()
      modifies store
      ensures Valid()
      ensures match MkdirEffect(old(store.entries), path)
              case Success(m) => r == Pass && store.entries == m
              case Failure(e) => r == Fail(StoreFailure(e)) && store.entries == old(store.entries)
    {
      if path == Root || store.Get(path).Some? {
        return Pass;
      }
      var w := store.Set(path, DirectoryNode);
      match w
      case Pass => r := Pass;
      case Fail(e) => r := Fail(StoreFailure(e));
    }
  }
}
