/**
 * The session state store (state.py): one process-wide table from user id to a
 * string-keyed record. Absence of a record means the default record (user mode,
 * no step, no data); writes merge field by field; clear deletes the record.
 */
module Session {

  import opened Wrappers

  /** What a record field can hold: text, an integer, or a nested dict (the `data` field). */
  datatype Value = Str(s: string) | Int(i: int) | Dict(d: map<string, Value>)

  type Record = map<string, Value>

  type Table = map<int, Record>

  /** `_state.get(user_id, {})`. */
  function Lookup(t: Table, u: int): Record {
    if u in t then t[u] else map[]
  }

  /** `record.update(fields)`: each named field replaced, every other field kept. */
  function Merge(rec: Record, fields: Record): (r: Record)
    ensures r.Keys == rec.Keys + fields.Keys
    ensures forall k :: k in fields ==> r[k] == fields[k]
    ensures forall k :: k in rec && k !in fields ==> r[k] == rec[k]
  {
    rec + fields
  }

  /** The table after `set_user_state(u, **fields)`. */
  function Update(t: Table, u: int, fields: Record): Table {
    t[u := Merge(Lookup(t, u), fields)]
  }

  /** The table after `clear_user_state(u)`. */
  function Remove(t: Table, u: int): Table {
    t - {u}
  }

  /** `state.get("mode", "user") == "user"`. */
  predicate UserMode(rec: Record) {
    "mode" !in rec || rec["mode"] == Str("user")
  }

  /** `state.get("mode") == "admin"`. */
  predicate AdminMode(rec: Record) {
    "mode" in rec && rec["mode"] == Str("admin")
  }

  /** Python truthiness of `state.get(key)`: None, 0, "" and {} are false. */
  predicate Truthy(v: Option<Value>) {
    match v
    case None => false
    case Some(Str(s)) => s != ""
    case Some(Int(i)) => i != 0
    case Some(Dict(d)) => d != map[]
  }

  function Field(rec: Record, key: string): Option<Value> {
    if key in rec then Some(rec[key]) else None
  }

  /** What one handler does to the sender's record: nothing, one merge, or a clear. */
  datatype Effect = Keep | Write(fields: Record) | Drop

  function Apply(t: Table, u: int, e: Effect): Table {
    match e
    case Keep => t
    case Write(fields) => Update(t, u, fields)
    case Drop => Remove(t, u)
  }

  /** The sender's record after the effect. */
  function ApplyTo(rec: Record, e: Effect): Record {
    match e
    case Keep => rec
    case Write(fields) => Merge(rec, fields)
    case Drop => map[]
  }

  // ---------------------------------------------------------------------------
  // Properties of the store

  /** What a handler's effect does to the sender's record, and that it touches no other user. */
  lemma ApplyLookup(t: Table, u: int, e: Effect, v: int)
    ensures Lookup(Apply(t, u, e), u) == ApplyTo(Lookup(t, u), e)
    ensures v != u ==> Lookup(Apply(t, u, e), v) == Lookup(t, v)
  {
  }

  /** set on an unseen user creates the record from exactly the given fields. */
  lemma UpdateCreates(t: Table, u: int, fields: Record)
    requires u !in t
    ensures u in Update(t, u, fields) && Update(t, u, fields)[u] == fields
  {
  }

  /** set replaces exactly the named fields of u's record and keeps its other fields. */
  lemma UpdateFieldwise(t: Table, u: int, fields: Record, k: string)
    ensures k in fields ==> Lookup(Update(t, u, fields), u)[k] == fields[k]
    ensures k !in fields ==> Field(Lookup(Update(t, u, fields), u), k) == Field(Lookup(t, u), k)
  {
  }

  /** `data` is one field: a second write of it replaces the first, it is not deep-merged. */
  lemma DataReplacedWholesale(t: Table, u: int)
    ensures
      var once := Update(t, u, map["data" := Dict(map["a" := Int(1)])]);
      var twice := Update(once, u, map["data" := Dict(map["b" := Int(2)])]);
      Lookup(twice, u)["data"] == Dict(map["b" := Int(2)])
  {
  }

  /** After clear, get gives the default record; clearing an absent user changes nothing. */
  lemma RemoveGivesDefault(t: Table, u: int)
    ensures Lookup(Remove(t, u), u) == map[]
    ensures UserMode(Lookup(Remove(t, u), u)) && !AdminMode(Lookup(Remove(t, u), u))
    ensures u !in t ==> Remove(t, u) == t
  {
  }

  /** The two mode predicates never hold together, and a record without mode is in user mode. */
  lemma ModesExclusive(rec: Record)
    ensures !(UserMode(rec) && AdminMode(rec))
    ensures "mode" !in rec ==> UserMode(rec)
    ensures AdminMode(rec) <==> (Field(rec, "mode") == Some(Str("admin")))
  {
  }

  /** A run of set calls, for any users, in order. */
  function UpdateAll(t: Table, writes: seq<(int, Record)>): Table
    decreases |writes|
  {
    if |writes| == 0 then t else UpdateAll(Update(t, writes[0].0, writes[0].1), writes[1..])
  }

  /** The fields written for user u, in order. */
  function WritesFor(writes: seq<(int, Record)>, u: int): seq<Record> {
    if |writes| == 0 then []
    else (if writes[0].0 == u then [writes[0].1] else []) + WritesFor(writes[1..], u)
  }

  /** Merging a run of field sets, one after the other. */
  function MergeAll(rec: Record, fs: seq<Record>): Record
    decreases |fs|
  {
    if |fs| == 0 then rec else MergeAll(Merge(rec, fs[0]), fs[1..])
  }

  /**
   * The record of u after any interleaving of set calls is the merge, in order, of
   * the fields written for u alone: writes for other users never disturb it.
   */
  lemma {:induction false} InterleavedWrites(t: Table, writes: seq<(int, Record)>, u: int)
    ensures Lookup(UpdateAll(t, writes), u) == MergeAll(Lookup(t, u), WritesFor(writes, u))
    decreases |writes|
  {
    if |writes| > 0 {
      var t' := Update(t, writes[0].0, writes[0].1);
      InterleavedWrites(t', writes[1..], u);
      if writes[0].0 == u {
        assert WritesFor(writes, u) == [writes[0].1] + WritesFor(writes[1..], u);
        assert Lookup(t', u) == Merge(Lookup(t, u), writes[0].1);
      } else {
        assert WritesFor(writes, u) == WritesFor(writes[1..], u);
        assert Lookup(t', u) == Lookup(t, u);
      }
    }
  }

  /** A key written by some call keeps the value of the last call that wrote it (call j). */
  lemma {:induction false} MergeAllLastWrite(rec: Record, fs: seq<Record>, k: string, j: nat)
    requires j < |fs| && k in fs[j]
    requires forall i :: j < i < |fs| ==> k !in fs[i]
    ensures Field(MergeAll(rec, fs), k) == Some(fs[j][k])
    decreases |fs|
  {
    var rec' := Merge(rec, fs[0]);
    if j == 0 {
      forall i | 0 <= i < |fs[1..]| ensures k !in fs[1..][i] {
        assert fs[1..][i] == fs[i + 1];
      }
      MergeAllUntouched(rec', fs[1..], k);
    } else {
      forall i | j - 1 < i < |fs[1..]| ensures k !in fs[1..][i] {
        assert fs[1..][i] == fs[i + 1];
      }
      assert fs[1..][j - 1] == fs[j];
      MergeAllLastWrite(rec', fs[1..], k, j - 1);
    }
  }

  /** A key that no call writes keeps its original presence and value. */
  lemma {:induction false} MergeAllUntouched(rec: Record, fs: seq<Record>, k: string)
    requires forall i :: 0 <= i < |fs| ==> k !in fs[i]
    ensures Field(MergeAll(rec, fs), k) == Field(rec, k)
    decreases |fs|
  {
    if |fs| > 0 {
      MergeAllUntouched(Merge(rec, fs[0]), fs[1..], k);
    }
  }

  // ---------------------------------------------------------------------------
  // The store itself: `_state` and the five functions of state.py

  class Store {
    var table: Table

    constructor ()
      ensures table == map[]
    {
      table := map[];
    }

    /** get_user_state: the record, or the empty record for a user without one; reads only. */
    method Get(u: int) returns (r: Record)
      ensures r == Lookup(table, u)
      ensures u !in table ==> r == map[]
    {
      if u in table {
        r := table[u];
      } else {
        r := map[];
      }
    }

    /** set_user_state: create an empty record if needed, then merge the fields into it. */
    method Set(u: int, fields: Record)
      modifies this
      ensures table == Update(old(table), u, fields)
      ensures forall v :: v != u ==> Lookup(table, v) == Lookup(old(table), v)
    {
      if u !in table {
        table := table[u := map[]];
      }
      table := table[u := table[u] + fields];
    }

    /** is_user_mode: mode is missing or "user". */
    method IsUserMode(u: int) returns (b: bool)
      ensures b <==> UserMode(Lookup(table, u))
    {
      var state := Get(u);
      var mode := if "mode" in state then state["mode"] else Str("user");
      b := mode == Str("user");
    }

    /** is_admin_mode: mode is "admin". */
    method IsAdminMode(u: int) returns (b: bool)
      ensures b <==> AdminMode(Lookup(table, u))
    {
      var state := Get(u);
      b := "mode" in state && state["mode"] == Str("admin");
    }

    /** clear_user_state: drop the record, if any. */
    method Clear(u: int)
      modifies this
      ensures table == Remove(old(table), u)
      ensures forall v :: v != u ==> Lookup(table, v) == Lookup(old(table), v)
    {
      table := table - {u};
    }
  }
}
