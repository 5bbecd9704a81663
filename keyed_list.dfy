/**
 * The list discipline behind `DeviceAdapter.append`: a list of devices keyed
 * by `endpointId`, where appending a device either overwrites the first entry
 * with the same key (in place) or adds the device at the end.
 *
 * `Upsert` is one append, `UpsertAll` a run of appends in order. `Table`
 * gives the abstract content of a list (key -> device, later entries win),
 * and `Keys` its key order; a list with unique keys is determined by the two
 * (`Extensionality`), which is how idempotence is proved.
 */
module KeyedList {
  import opened Sdk

  /** The endpoint ids of a device list, position by position. */
  function Keys(s: seq<Device>): (ks: seq<string>)
    ensures |ks| == |s|
    ensures forall i :: 0 <= i < |s| ==> ks[i] == s[i].endpointId
  {
    seq(|s|, i requires 0 <= i < |s| => s[i].endpointId)
  }

  /** No two entries share an endpoint id. */
  ghost predicate Unique(s: seq<Device>) {
    forall i, j :: 0 <= i < j < |s| ==> s[i].endpointId != s[j].endpointId
  }

  /** The distinct endpoint ids of a device list. */
  ghost function KeySet(s: seq<Device>): set<string> {
    set k | k in Keys(s)
  }

  /** A list without repeated ids has exactly one entry per distinct id. */
  lemma {:induction false} UniqueKeyCount(s: seq<Device>)
    requires Unique(s)
    ensures |KeySet(s)| == |s|
    decreases |s|
  {
    if s != [] {
      var init, d := s[..|s| - 1], s[|s| - 1];
      assert Keys(s) == Keys(init) + [d.endpointId];
      assert Unique(init) by {
        forall i, j | 0 <= i < j < |init| ensures init[i].endpointId != init[j].endpointId {
          assert init[i] == s[i] && init[j] == s[j];
        }
      }
      UniqueKeyCount(init);
      assert d.endpointId !in KeySet(init);
      assert KeySet(s) == KeySet(init) + {d.endpointId};
    }
  }

  /**
   * Kotlin's `indexOfFirst { it.endpointId == id }`: the first position
   * holding `id`, or -1 when no entry holds it.
   */
  function IndexOf(s: seq<Device>, id: string): (r: int)
    ensures -1 <= r < |s|
    ensures r == -1 <==> id !in Keys(s)
    ensures 0 <= r ==> s[r].endpointId == id
    ensures 0 <= r ==> forall i :: 0 <= i < r ==> s[i].endpointId != id
  {
    if s == [] then -1
    else if s[0].endpointId == id then 0
    else
      var r := IndexOf(s[1..], id);
      KeysCons(s);
      if r == -1 then -1 else r + 1
  }

  /** The keys of a non-empty list: the first key, then the keys of the rest. */
  lemma KeysCons(s: seq<Device>)
    requires s != []
    ensures Keys(s) == [s[0].endpointId] + Keys(s[1..])
  {
  }

  /** One `append`: overwrite the first entry with the same key, or add at the end. */
  function Upsert(s: seq<Device>, d: Device): (r: seq<Device>)
    // the key order only ever grows at the end
    ensures Keys(r) == if d.endpointId in Keys(s) then Keys(s) else Keys(s) + [d.endpointId]
    ensures Unique(s) ==> Unique(r)
  {
    var i := IndexOf(s, d.endpointId);
    if i == -1 then s + [d] else s[i := d]
  }

  /** What one `append` does to the list, position by position. */
  lemma UpsertShape(s: seq<Device>, d: Device)
    // an absent key is added at the end, and the list grows by one
    ensures d.endpointId !in Keys(s) ==> Upsert(s, d) == s + [d] && |Upsert(s, d)| == |s| + 1
    // a present key is overwritten where it first stands, and the size is unchanged
    ensures d.endpointId in Keys(s) ==>
      |Upsert(s, d)| == |s| && Upsert(s, d)[IndexOf(s, d.endpointId)] == d
    // every other position keeps its value
    ensures forall i :: 0 <= i < |s| && i != IndexOf(s, d.endpointId) ==> Upsert(s, d)[i] == s[i]
  {
  }

  /** A run of appends, in order (the last device of `ds` is appended last). */
  function UpsertAll(s: seq<Device>, ds: seq<Device>): (r: seq<Device>)
    ensures Unique(s) ==> Unique(r)
    ensures |s| <= |r| <= |s| + |ds|
    decreases |ds|
  {
    if ds == [] then s else Upsert(UpsertAll(s, ds[..|ds| - 1]), ds[|ds| - 1])
  }

  /**
   * The abstract content of a list: each key mapped to its device. When a
   * key occurs more than once the later entry wins, so `Table(ds)` also says
   * which device of a run `ds` was the last one with each key.
   */
  ghost function Table(s: seq<Device>): (m: map<string, Device>)
    ensures forall k :: k in m <==> k in Keys(s)
    decreases |s|
  {
    if s == [] then map[]
    else
      var init := s[..|s| - 1];
      assert Keys(s) == Keys(init) + [s[|s| - 1].endpointId];
      Table(init)[s[|s| - 1].endpointId := s[|s| - 1]]
  }

  lemma {:induction false} TableIsLast(ds: seq<Device>, j: nat)
    requires j < |ds|
    requires forall k :: j < k < |ds| ==> ds[k].endpointId != ds[j].endpointId
    ensures Table(ds)[ds[j].endpointId] == ds[j]
    decreases |ds|
  {
    if j < |ds| - 1 {
      TableIsLast(ds[..|ds| - 1], j);
    }
  }

  lemma TableAt(s: seq<Device>, i: nat)
    requires Unique(s) && i < |s|
    ensures Table(s)[s[i].endpointId] == s[i]
  {
    TableIsLast(s, i);
  }

  /** Overwriting an entry in place updates the table at its key. */
  lemma TableOverwrite(s: seq<Device>, i: nat, d: Device)
    requires Unique(s) && i < |s| && s[i].endpointId == d.endpointId
    ensures Table(s[i := d]) == Table(s)[d.endpointId := d]
  {
    var t := s[i := d];
    assert Keys(t) == Keys(s);
    assert Unique(t);
    var m := Table(s)[d.endpointId := d];
    forall k | k in Keys(t)
      ensures Table(t)[k] == m[k]
    {
      var j :| 0 <= j < |t| && Keys(t)[j] == k;
      TableAt(t, j);
      if j != i {
        TableAt(s, j);
      }
    }
    assert Table(t).Keys == m.Keys;
  }

  lemma UpsertTable(s: seq<Device>, d: Device)
    requires Unique(s)
    ensures Table(Upsert(s, d)) == Table(s)[d.endpointId := d]
  {
    var i := IndexOf(s, d.endpointId);
    if i == -1 {
      assert (s + [d])[..|s|] == s;
    } else {
      TableOverwrite(s, i, d);
    }
  }

  lemma MapOverrideUpdate<K, V>(m: map<K, V>, n: map<K, V>, k: K, v: V)
    ensures (m + n)[k := v] == m + n[k := v]
  {
  }

  lemma EmptyOverride<K, V>(m: map<K, V>)
    ensures map[] + m == m
  {
  }

  /** The content after a run of appends: the old table overridden by the run's last devices. */
  lemma {:induction false} UpsertAllTable(s: seq<Device>, ds: seq<Device>)
    requires Unique(s)
    ensures Table(UpsertAll(s, ds)) == Table(s) + Table(ds)
    decreases |ds|
  {
    if ds != [] {
      var init, d := ds[..|ds| - 1], ds[|ds| - 1];
      var r := UpsertAll(s, init);
      assert UpsertAll(s, ds) == Upsert(r, d);
      assert Table(ds) == Table(init)[d.endpointId := d];
      UpsertAllTable(s, init);
      UpsertTable(r, d);
      MapOverrideUpdate(Table(s), Table(init), d.endpointId, d);
    }
  }

  /** After a run of appends, every key of the run is in the list. */
  lemma {:induction false} UpsertAllCovers(s: seq<Device>, ds: seq<Device>)
    ensures forall k :: k in Keys(s) ==> k in Keys(UpsertAll(s, ds))
    ensures forall j :: 0 <= j < |ds| ==> ds[j].endpointId in Keys(UpsertAll(s, ds))
    decreases |ds|
  {
    if ds != [] {
      var init, d := ds[..|ds| - 1], ds[|ds| - 1];
      UpsertAllCovers(s, init);
      var r := UpsertAll(s, init);
      assert forall k :: k in Keys(r) ==> k in Keys(Upsert(r, d));
      forall j | 0 <= j < |ds|
        ensures ds[j].endpointId in Keys(UpsertAll(s, ds))
      {
        if j < |ds| - 1 {
          assert ds[j] == init[j];
        }
      }
    }
  }

  /** Appending devices whose keys are all present never reorders or extends the list. */
  lemma {:induction false} UpsertAllPresentKeys(s: seq<Device>, ds: seq<Device>)
    requires forall j :: 0 <= j < |ds| ==> ds[j].endpointId in Keys(s)
    ensures Keys(UpsertAll(s, ds)) == Keys(s)
    decreases |ds|
  {
    if ds != [] {
      UpsertAllPresentKeys(s, ds[..|ds| - 1]);
    }
  }

  /** A list with unique keys is determined by its key order and its table. */
  lemma Extensionality(s: seq<Device>, t: seq<Device>)
    requires Unique(s) && Unique(t)
    requires Keys(s) == Keys(t) && Table(s) == Table(t)
    ensures s == t
  {
    assert |s| == |Keys(s)| == |t|;
    forall i | 0 <= i < |s|
      ensures s[i] == t[i]
    {
      TableAt(s, i);
      TableAt(t, i);
    }
  }

  /** Appending the same device twice in a row is the same as appending it once. */
  lemma UpsertIdempotent(s: seq<Device>, d: Device)
    ensures Upsert(Upsert(s, d), d) == Upsert(s, d)
  {
    var r := Upsert(s, d);
    var i := IndexOf(r, d.endpointId);
    assert d.endpointId in Keys(r);
    assert r[i] == d by {
      var j := IndexOf(s, d.endpointId);
      if j == -1 {
        assert i == |s|;
      } else {
        assert i == j;
      }
    }
  }

  /** Replaying a whole run of appends a second time changes nothing. */
  lemma UpsertAllIdempotent(s: seq<Device>, ds: seq<Device>)
    requires Unique(s)
    ensures UpsertAll(UpsertAll(s, ds), ds) == UpsertAll(s, ds)
  {
    var r := UpsertAll(s, ds);
    UpsertAllCovers(s, ds);
    UpsertAllPresentKeys(r, ds);
    UpsertAllTable(s, ds);
    UpsertAllTable(r, ds);
    assert Table(s) + Table(ds) + Table(ds) == Table(s) + Table(ds);
    Extensionality(UpsertAll(r, ds), r);
  }

  /** Appending one more device after a run. */
  lemma UpsertAllSnoc(s: seq<Device>, ds: seq<Device>, d: Device)
    ensures UpsertAll(s, ds + [d]) == Upsert(UpsertAll(s, ds), d)
  {
    assert (ds + [d])[..|ds|] == ds;
  }

  /** Appending a device to a one-entry list with the same key replaces the entry. */
  lemma OverwriteSingle(first: Device, again: Device)
    requires first.endpointId == again.endpointId
    ensures Upsert([first], again) == [again]
  {
    assert IndexOf([first], again.endpointId) == 0;
    assert [first][0 := again] == [again];
  }

  /** A run of appends can be split at any point. */
  lemma {:induction false} UpsertAllConcat(s: seq<Device>, p: seq<Device>, q: seq<Device>)
    ensures UpsertAll(s, p + q) == UpsertAll(UpsertAll(s, p), q)
    decreases |q|
  {
    if q == [] {
      assert p + q == p;
    } else {
      var q0, d := q[..|q| - 1], q[|q| - 1];
      assert q == q0 + [d];
      assert p + q == (p + q0) + [d];
      UpsertAllConcat(s, p, q0);
      UpsertAllSnoc(s, p + q0, d);
      UpsertAllSnoc(UpsertAll(s, p), q0, d);
    }
  }

  /**
   * Delivering a run and then a longer run that extends it gives the same
   * list as delivering the longer run alone.
   */
  lemma UpsertAllExtends(s: seq<Device>, p: seq<Device>, q: seq<Device>)
    requires Unique(s) && p <= q
    ensures UpsertAll(UpsertAll(s, p), q) == UpsertAll(s, q)
  {
    var rest := q[|p|..];
    assert q == p + rest;
    UpsertAllConcat(UpsertAll(s, p), p, rest);
    UpsertAllIdempotent(s, p);
    UpsertAllConcat(s, p, rest);
  }

  /** Position of a key's first occurrence is unaffected by appending after it. */
  lemma IndexOfAppend(ds: seq<Device>, d: Device, k: string)
    ensures k in Keys(ds) ==> IndexOf(ds + [d], k) == IndexOf(ds, k)
    ensures k !in Keys(ds) && k == d.endpointId ==> IndexOf(ds + [d], k) == |ds|
  {
    var e := ds + [d];
    if k in Keys(ds) {
      var i := IndexOf(ds, k);
      assert e[i].endpointId == k;
    } else if k == d.endpointId {
      assert e[|ds|].endpointId == k;
    }
  }

  /** After a run of appends the list holds exactly the old keys and the run's keys. */
  lemma {:induction false} UpsertAllKeys(s: seq<Device>, ds: seq<Device>)
    ensures forall k :: k in Keys(UpsertAll(s, ds)) <==> k in Keys(s) || k in Keys(ds)
    decreases |ds|
  {
    if ds != [] {
      var init, d := ds[..|ds| - 1], ds[|ds| - 1];
      assert ds == init + [d];
      UpsertAllKeys(s, init);
      UpsertAllSnoc(s, init, d);
      var r, ks := UpsertAll(s, init), Keys(init) + [d.endpointId];
      assert Keys(ds) == ks;
      forall k ensures k in Keys(Upsert(r, d)) <==> k in Keys(s) || k in ks {
        assert k in ks <==> k in Keys(init) || k == d.endpointId;
      }
    }
  }

  /** Appending a run to an empty list keeps exactly the keys of the run, once each. */
  lemma FreshRunKeys(ds: seq<Device>)
    ensures Unique(UpsertAll([], ds))
    ensures forall k :: k in Keys(UpsertAll([], ds)) <==> k in Keys(ds)
  {
    assert Unique([]);
    UpsertAllKeys([], ds);
  }

  /** The table of a freshly appended run is the run's own table. */
  lemma FreshRunTable(ds: seq<Device>)
    ensures Table(UpsertAll([], ds)) == Table(ds)
  {
    assert Unique([]);
    UpsertAllTable([], ds);
    assert Table([]) == map[];
    EmptyOverride(Table(ds));
  }

  /** Each entry of a freshly appended run holds the run's last device with that key. */
  lemma FreshRunValues(ds: seq<Device>, i: nat)
    requires i < |UpsertAll([], ds)|
    ensures UpsertAll([], ds)[i].endpointId in Table(ds)
    ensures UpsertAll([], ds)[i] == Table(ds)[UpsertAll([], ds)[i].endpointId]
  {
    var r := UpsertAll([], ds);
    assert Unique([]);
    FreshRunTable(ds);
    TableAt(r, i);
  }

  /** The entries of a freshly appended run stand in the order their keys were first seen. */
  lemma {:induction false} FreshRunOrder(ds: seq<Device>)
    ensures forall i, j :: 0 <= i < j < |UpsertAll([], ds)| ==>
      IndexOf(ds, UpsertAll([], ds)[i].endpointId) < IndexOf(ds, UpsertAll([], ds)[j].endpointId)
    decreases |ds|
  {
    if ds != [] {
      var init, d := ds[..|ds| - 1], ds[|ds| - 1];
      assert ds == init + [d];
      FreshRunOrder(init);
      FreshRunKeys(init);
      var r0 := UpsertAll([], init);
      var r := UpsertAll([], ds);
      assert r == Upsert(r0, d);
      forall i, j | 0 <= i < j < |r|
        ensures IndexOf(ds, r[i].endpointId) < IndexOf(ds, r[j].endpointId)
      {
        assert Keys(r)[i] == r[i].endpointId && Keys(r)[j] == r[j].endpointId;
        if d.endpointId in Keys(r0) {
          assert Keys(r) == Keys(r0);
          assert r[i].endpointId == r0[i].endpointId && r[j].endpointId == r0[j].endpointId;
          assert r[i].endpointId in Keys(init) && r[j].endpointId in Keys(init);
          IndexOfAppend(init, d, r[i].endpointId);
          IndexOfAppend(init, d, r[j].endpointId);
        } else {
          assert Keys(r) == Keys(r0) + [d.endpointId];
          assert r[i].endpointId == Keys(r0)[i];
          assert r[i].endpointId in Keys(init);
          IndexOfAppend(init, d, r[i].endpointId);
          IndexOfAppend(init, d, r[j].endpointId);
          if j < |r0| {
            assert r[j].endpointId == Keys(r0)[j];
            assert r[j].endpointId in Keys(init);
          } else {
            assert d.endpointId !in Keys(init);
          }
        }
      }
    }
  }
}
