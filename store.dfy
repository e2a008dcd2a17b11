/**
 * The map-backed stand-in for the hierarchical store (`TestStateImpl`):
 * a table from path keys to opaque values, with the trailing-slash guard in front of writes.
 */
module Store {
  import opened Wrappers
  import opened Paths

  /** `NotSerializableException`, the only error the store signals. */
  datatype StoreError = NotSerializable(message: string)

  const TrailingSlashMessage: string := "Trailing slashes are not allowed"

  /** `map.getOrDefault(key, null)`: the value at `key`, or absent. */
  function Read<V>(m: map<string, V>, key: string): (r: Option<V>)
    ensures r.Some? <==> key in m
    ensures r.Some? ==> r.value == m[key]
  {
    if key in m then Some(m[key]) else None
  }

  /** What `set(key, value)` does to the table `m`: the new table, or the exception. */
  function Write<V>(m: map<string, V>, key: string, value: V): (r: Result<map<string, V>, StoreError>)
    ensures r.Success? <==> Accepted(key)
    ensures r.Failure? ==> r.error == NotSerializable(TrailingSlashMessage)
    ensures r.Success? ==> Read(r.value, key) == Some(value)
    ensures r.Success? ==> forall k :: k != key ==> Read(r.value, k) == Read(m, k)
  {
    if EndsWith(key, "/") && key != Root then
      Failure(NotSerializable(TrailingSlashMessage))
    else
      Success(m[key := value])
  }

  /** Every key of the table passes the path guard: the store's invariant. */
  ghost predicate AllAccepted<V>(m: map<string, V>) {
    forall k | k in m :: Accepted(k)
  }

  /** A successful write keeps every key accepted. */
  lemma WriteKeepsKeysAccepted<V>(m: map<string, V>, key: string, value: V)
    requires AllAccepted(m)
    requires Write(m, key, value).Success?
    ensures AllAccepted(Write(m, key, value).value)
  {
  }

  /** A second write to the same key overwrites the first. */
  lemma WriteOverwrites<V>(m: map<string, V>, key: string, v: V, w: V)
    requires Accepted(key)
    ensures Write(Write(m, key, v).value, key, w) == Write(m, key, w)
  {
    assert m[key := v][key := w] == m[key := w];
  }

  /** One call of `set` in a sequence of calls. */
  datatype Put<V> = Put(key: string, value: V)

  /** The table after the calls `puts` in order, starting from `m`, a refused call being caught and skipped. */
  function Replay<V>(m: map<string, V>, puts: seq<Put<V>>): (r: map<string, V>)
    decreases |puts|
  {
    if puts == [] then m
    else
      var prev := Replay(m, puts[..|puts| - 1]);
      var p := puts[|puts| - 1];
      match Write(prev, p.key, p.value)
      case Success(next) => next
      case Failure(_) => prev
  }

  /** The value of the last accepted call in `puts` that wrote `key`, if there is one. */
  function LastPut<V>(puts: seq<Put<V>>, key: string): (r: Option<V>)
    decreases |puts|
  {
    if puts == [] then None
    else if puts[|puts| - 1].key == key && Accepted(key) then Some(puts[|puts| - 1].value)
    else LastPut(puts[..|puts| - 1], key)
  }

  /** Last writer wins: after any sequence of calls, a key holds its last accepted write, or what it held before. */
  lemma {:induction false} ReplayReadsLastPut<V>(m: map<string, V>, puts: seq<Put<V>>, key: string)
    ensures Read(Replay(m, puts), key) == match LastPut(puts, key) case Some(v) => Some(v) case None => Read(m, key)
    decreases |puts|
  {
    if puts != [] {
      ReplayReadsLastPut(m, puts[..|puts| - 1], key);
    }
  }

  /** No sequence of calls ever puts a refused key into the table. */
  lemma {:induction false} ReplayKeepsKeysAccepted<V>(m: map<string, V>, puts: seq<Put<V>>)
    requires AllAccepted(m)
    ensures AllAccepted(Replay(m, puts))
    decreases |puts|
  {
    if puts != [] {
      ReplayKeepsKeysAccepted(m, puts[..|puts| - 1]);
    }
  }

  /** Calls on refused keys leave the table as it was. */
  lemma {:induction false} ReplayRefusedIsIdentity<V>(m: map<string, V>, puts: seq<Put<V>>)
    requires forall i | 0 <= i < |puts| :: !Accepted(puts[i].key)
    ensures Replay(m, puts) == m
    decreases |puts|
  {
    if puts != [] {
      ReplayRefusedIsIdentity(m, puts[..|puts| - 1]);
    }
  }

  /** The dummy storage class: a hash map from keys to objects. */
  class TestStateImpl<V> {
    var entries: map<string, V>

    ghost predicate Valid()
      reads this
    {
      AllAccepted(entries)
    }

    constructor ()
      ensures Valid() && entries == map[]
    {
      entries := map[];
    }

    /** `get(key)`: the stored object, or absent (not an error) for a key never set. */
    function Get(key: string): (r: Option<V>)
      reads this
      ensures key in entries ==> r == Some(entries[key])
      ensures key !in entries ==> r == None
    {
      Read(entries, key)
    }

    /** `set(key, value)`: refuse a bad path, otherwise insert or overwrite the entry. */
    method Set(key: string, value: V) returns (r: Outcome<StoreError>)
      requires Valid()
      modifies this
      ensures Valid()
      ensures match Write(old(entries), key, value)
              case Success(m) => r == Pass && entries == m
              case Failure(e) => r == Fail(e) && entries == old(entries)
    {
      if EndsWith(key, "/") && key != Root {
        return Fail(NotSerializable(TrailingSlashMessage));
      }
      entries := entries[key := value];
      r := Pass;
    }
  }
}
