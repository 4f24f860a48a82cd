/**
 * The annotation store as values (Masa/models/datahandler/datahandler.py).
 *
 * `DataHandler.tracked_objs` is a Python dict from integer keys to tracked
 * objects; a dict iterates in insertion order, so it is modelled as the
 * sequence of its (key, object) pairs. Every mutating operation is a function
 * from the entries before to a `Res`: the entries afterwards and the
 * exception that escaped, if any (several operations raise after they have
 * already changed the store). The class `Handler.DataHandler` is proved
 * against these functions; the lemmas here state what they guarantee.
 */
module Store {
  import opened Wrappers
  import opened Data

  /** The entries of `tracked_objs`, in iteration (insertion) order. */
  type Entries = seq<(int, TObj)>

  /** The entries after an operation and the exception it raised, if any. */
  datatype Res = Res(entries: Entries, err: Option<PyError>)

  /** An argument of `add` and `move`: a tracked object (of one instance) or a single instance. */
  datatype Payload = PTObj(o: TObj) | PInstance(x: Instance)

  /**
   * The dict form of `replace`: the coordinate of the stored instance and the
   * attributes to overwrite (None where the dict has no such key).
   */
  datatype InstancePatch = InstancePatch(
    trackId: int, instanceId: int,
    objectClass: Option<string>,
    x1: Option<int>, y1: Option<int>, x2: Option<int>, y2: Option<int>,
    frameId: Option<int>,
    tags: Option<map<string, string>>)

  datatype ReplaceArg = ByRecord(x: Instance) | ByDict(patch: InstancePatch)

  // ---------------------------------------------------------------- dict primitives

  /** Dict keys are unique. */
  predicate DistinctKeys(s: Entries) {
    forall i, j :: 0 <= i < j < |s| ==> s[i].0 != s[j].0
  }

  /** Position of key `k`, if present. */
  function Find(s: Entries, k: int): (r: Option<nat>)
    ensures r.None? <==> forall i :: 0 <= i < |s| ==> s[i].0 != k
    ensures r.Some? ==> r.value < |s| && s[r.value].0 == k
    ensures r.Some? ==> forall j :: 0 <= j < r.value ==> s[j].0 != k
  {
    if |s| == 0 then None
    else if s[0].0 == k then Some(0)
    else match Find(s[1..], k)
      case None => None
      case Some(i) => Some(i + 1)
  }

  predicate HasKey(s: Entries, k: int) {
    Find(s, k).Some?
  }

  /** Every key from `lo` up to `hi - 1` is present (what a loop of lookups over `range(lo, hi)` needs). */
  predicate KeysIn(s: Entries, lo: int, hi: int) {
    forall j | lo <= j < hi :: HasKey(s, j)
  }

  /** `d[k]` for a present key. */
  function Get(s: Entries, k: int): TObj
    requires HasKey(s, k)
  {
    s[Find(s, k).value].1
  }

  /** `d[k] = v`: overwrite in place when `k` is present, append otherwise. */
  function DictSet(s: Entries, k: int, v: TObj): (r: Entries)
    ensures HasKey(s, k) ==> r == s[Find(s, k).value := (k, v)]
    ensures !HasKey(s, k) ==> r == s + [(k, v)]
  {
    match Find(s, k)
    case Some(i) => s[i := (k, v)]
    case None => s + [(k, v)]
  }

  /** `del d[k]` for a present key. */
  function DictDel(s: Entries, k: int): (r: Entries)
    requires HasKey(s, k)
    ensures |r| == |s| - 1
  {
    var i := Find(s, k).value;
    s[..i] + s[i + 1..]
  }

  /** A lookup answers the first position holding the key. */
  lemma FindFirst(s: Entries, k: int, p: nat)
    requires p < |s| && s[p].0 == k
    requires forall j :: 0 <= j < p ==> s[j].0 != k
    ensures Find(s, k) == Some(p)
  {
    assert Find(s, k).Some?;
  }

  /**
   * `d[k] = v`: afterwards `k` is found holding `v`, and every other key is
   * found at the same position as before, holding the same object.
   */
  lemma DictSetLookup(s: Entries, k: int, v: TObj, j: int)
    ensures var r := DictSet(s, k, v);
      && HasKey(r, k) && r[Find(r, k).value] == (k, v)
      && (j != k ==> Find(r, j) == Find(s, j))
      && (j != k && HasKey(s, j) ==> r[Find(r, j).value] == s[Find(s, j).value])
  {
    var r := DictSet(s, k, v);
    if HasKey(s, k) {
      FindFirst(r, k, Find(s, k).value);
      if HasKey(s, j) && j != k {
        FindFirst(r, j, Find(s, j).value);
      }
    } else {
      FindFirst(r, k, |s|);
      if HasKey(s, j) && j != k {
        FindFirst(r, j, Find(s, j).value);
      }
    }
  }

  /**
   * `del d[k]` on a dict (keys unique): `k` is gone and every other key is
   * still present exactly when it was, holding the same object.
   */
  lemma DictDelLookup(s: Entries, k: int, j: int)
    requires DistinctKeys(s) && HasKey(s, k)
    ensures var r := DictDel(s, k);
      && DistinctKeys(r) && !HasKey(r, k)
      && (j != k ==> (HasKey(r, j) <==> HasKey(s, j)))
      && (j != k && HasKey(s, j) ==> r[Find(r, j).value] == s[Find(s, j).value])
  {
    var i := Find(s, k).value;
    var r := DictDel(s, k);
    assert forall x :: 0 <= x < |r| ==> r[x] == if x < i then s[x] else s[x + 1];
    if j != k && HasKey(s, j) {
      var p := Find(s, j).value;
      var q := if p < i then p else p - 1;
      assert r[q] == s[p];
      FindFirst(r, j, q);
    }
  }

  // ---------------------------------------------------------------- the invariant

  /**
   * The store invariant the renumbering exists to keep: keys are 0..n-1 in
   * iteration order, and each key equals its object's `track_id`, every
   * contained instance's `track_id`, with instance ids dense.
   */
  predicate Consistent(s: Entries) {
    forall i :: 0 <= i < |s| ==> s[i].0 == i && ObjConsistent(s[i].1, i)
  }

  /** Every object's instance ids are dense (what the store-level renumbering relies on). */
  predicate IdsDense(s: Entries) {
    forall i :: 0 <= i < |s| ==> DenseIds(s[i].1.instances)
  }

  /** Keys are 0..n-1 in iteration order. */
  predicate KeysDense(s: Entries) {
    forall i :: 0 <= i < |s| ==> s[i].0 == i
  }

  lemma FindConsistent(s: Entries, k: int)
    requires KeysDense(s)
    ensures 0 <= k < |s| ==> Find(s, k) == Some(k)
    ensures !(0 <= k < |s|) ==> Find(s, k) == None
  {
    if 0 <= k < |s| {
      assert s[k].0 == k;
      var r := Find(s, k);
      assert s[r.value].0 == r.value;
    }
  }

  // ---------------------------------------------------------------- renumbering (_update)

  /** `enumerate(values, start)` with `change_track_id`: entry i becomes key and track id `start + i`. */
  function Relabel(s: Entries, start: int): (r: Entries)
    ensures |r| == |s|
    ensures forall i :: 0 <= i < |s| ==> r[i] == (start + i, ChangeTrack(s[i].1, start + i))
  {
    seq(|s|, i requires 0 <= i < |s| => (start + i, ChangeTrack(s[i].1, start + i)))
  }

  /** `sort_ok` of datahandler.py:501: every key equals the next one. */
  predicate SortOk(keys: seq<int>) {
    forall i :: 0 <= i < |keys| - 1 ==> keys[i] == keys[i + 1]
  }

  /** `_update()` without `keep_until`: rebuild unless `sort_ok` holds. */
  function UpdateAll(s: Entries): Entries {
    if SortOk(Firsts(s)) then s else Relabel(s, 0)
  }

  /** `range(k + 1)` as a dict comprehension over the old store (needs every such key). */
  function KeepPart(s: Entries, k: int): (r: Entries)
    requires KeysIn(s, 0, k + 1)
    ensures k < 0 ==> r == []
    ensures k >= 0 ==> |r| == k + 1 && forall j :: 0 <= j <= k ==> r[j] == (j, Get(s, j))
  {
    if k < 0 then [] else seq(k + 1, j requires 0 <= j <= k => (j, Get(s, j)))
  }

  /** The entries whose key is not in `range(k + 1)`, in order. */
  function Rest(s: Entries, k: int): Entries {
    if |s| == 0 then []
    else (if 0 <= s[0].0 <= k then [] else [s[0]]) + Rest(s[1..], k)
  }

  /** `_update(keep_until=k)`: keep keys 0..k, relabel the rest from k+1 in iteration order. */
  function UpdateKeep(s: Entries, k: int): Res {
    if KeysIn(s, 0, k + 1) then
      Res(KeepPart(s, k) + Relabel(Rest(s, k), k + 1), None)
    else
      Res(s, Some(KeyError))
  }

  // ---------------------------------------------------------------- deletion

  /** `_delete_tobj(t)`: `del` (ValueError when absent), then `_update(keep_until=t-1)`. */
  function DeleteTObj(s: Entries, t: int): Res {
    if !HasKey(s, t) then Res(s, Some(ValueError))
    else UpdateKeep(DictDel(s, t), t - 1)
  }

  /** `_delete_tobj_end(t)`: `del` only (ValueError when absent). */
  function DeleteTObjEnd(s: Entries, t: int): Res {
    if !HasKey(s, t) then Res(s, Some(ValueError))
    else Res(DictDel(s, t), None)
  }

  /** `_delete(t)` with no instance index: the end variant when `t == len`, else with renumbering. */
  function DeleteWhole(s: Entries, t: int): Res {
    if t == |s| then DeleteTObjEnd(s, t) else DeleteTObj(s, t)
  }

  /**
   * `_delete_instance(t, i, update)`: ValueError for a missing key or index;
   * with `update`, an object left empty is deleted as a whole.
   */
  function DeleteInstance(s: Entries, t: int, i: int, update: bool): Res {
    if !HasKey(s, t) then Res(s, Some(ValueError))
    else match DeleteSpec(Get(s, t), i, update)
      case None => Res(s, Some(ValueError))
      case Some(o) =>
        var s1 := DictSet(s, t, o);
        if update && |o.instances| == 0 then DeleteWhole(s1, t) else Res(s1, None)
  }

  /** `_delete(t, i)` / `delete(t, i)`: whole object when `i` is None, else one instance. */
  function Delete(s: Entries, t: int, i: Option<int>): Res {
    match i
    case None => DeleteWhole(s, t)
    case Some(k) => DeleteInstance(s, t, k, true)
  }

  /** `s` without entry `t`, later entries moved down one key (what whole-object deletion yields). */
  function Compact(s: Entries, t: nat): (r: Entries)
    requires t < |s|
    ensures |r| == |s| - 1
  {
    s[..t] + Relabel(s[t + 1..], t)
  }

  // ---------------------------------------------------------------- addition

  /** `_add_instance(x)`: Exception when `x.track_id >= len`, KeyError when the key is absent. */
  function AddInstance(s: Entries, x: Instance): Res {
    if x.trackId >= |s| then Res(s, Some(Exception))
    else if !HasKey(s, x.trackId) then Res(s, Some(KeyError))
    else Res(DictSet(s, x.trackId, AddInstanceSpec(Get(s, x.trackId), RecordArg(x), true)), None)
  }

  /**
   * `_insert_tobj(o)`: keep keys below `t`, then `o` at `t`, then every old key
   * `k >= t` re-added at `k + 1` with its track ids rewritten. A key missing
   * from `range(t)` raises before the store is replaced; one missing from
   * `range(t, len)` raises after it was cut down to the kept part and `o`.
   */
  function InsertTObj(s: Entries, o: TObj): Res {
    var t := o.trackId;
    if !KeysIn(s, 0, t) then Res(s, Some(KeyError))
    else
      var base := KeepPart(s, t - 1) + [(t, o)];
      if !KeysIn(s, t, |s|) then Res(base, Some(KeyError))
      else
        Res(base + ShiftTail(s, t), None)
  }

  /** Every key `k` from `t` to `len - 1` re-keyed to `k + 1`, its track ids rewritten. */
  function ShiftTail(s: Entries, t: int): (r: Entries)
    requires KeysIn(s, t, |s|)
    ensures |r| == if t < |s| then |s| - t else 0
    ensures forall j :: 0 <= j < |r| ==> r[j] == (t + j + 1, ChangeTrack(Get(s, t + j), t + j + 1))
  {
    var m := if t < |s| then |s| - t else 0;
    seq(m, j requires 0 <= j < m => (t + j + 1, ChangeTrack(Get(s, t + j), t + j + 1)))
  }

  /**
   * `_add_tobj(o)`: only objects of one instance; a track id past the end is
   * clamped to `len`; `len` appends, anything smaller inserts.
   */
  function AddTObj(s: Entries, o: TObj): Res {
    if |o.instances| != 1 then Res(s, Some(Exception))
    else
      var o1 := if o.trackId > |s| then ChangeTrack(o, |s|) else o;
      if o1.trackId == |s| then Res(DictSet(s, o1.trackId, o1), None)
      else InsertTObj(s, o1)
  }

  /** `add(data)`: a tracked object of exactly one instance, or an instance; anything else is a ValueError. */
  function Add(s: Entries, d: Payload): Res {
    match d
    case PTObj(o) => if |o.instances| == 1 then AddTObj(s, o) else Res(s, Some(ValueError))
    case PInstance(x) => AddInstance(s, x)
  }

  // ---------------------------------------------------------------- replace and move

  /** `setattr` of every attribute the patch names, on a copy of the stored instance. */
  function ApplyPatch(x: Instance, p: InstancePatch): Instance {
    x.(objectClass := match p.objectClass case Some(v) => v case None => x.objectClass,
       x1 := match p.x1 case Some(v) => v case None => x.x1,
       y1 := match p.y1 case Some(v) => v case None => x.y1,
       x2 := match p.x2 case Some(v) => v case None => x.x2,
       y2 := match p.y2 case Some(v) => v case None => x.y2,
       frameId := match p.frameId case Some(v) => v case None => x.frameId,
       tags := match p.tags case Some(v) => v case None => x.tags)
  }

  /** `_replace_instance(x)`: delete at x's coordinate without renumbering, then `_add_instance(x)`. */
  function ReplaceInstance(s: Entries, x: Instance): Res {
    var r := DeleteInstance(s, x.trackId, x.instanceId, false);
    if r.err.Some? then r else AddInstance(r.entries, x)
  }

  /**
   * `replace(arg)`: the dict form looks the instance up positionally
   * (`self[t][i]`, IndexError when either index is out of range) and
   * overwrites the named attributes of a copy.
   */
  function Replace(s: Entries, arg: ReplaceArg): Res {
    match arg
    case ByRecord(x) => ReplaceInstance(s, x)
    case ByDict(p) =>
      match PyIndex(p.trackId, |s|)
      case None => Res(s, Some(IndexError))
      case Some(ti) =>
        var o := s[ti].1;
        match PyIndex(p.instanceId, |o.instances|)
        case None => Res(s, Some(IndexError))
        case Some(ii) => ReplaceInstance(s, ApplyPatch(o.instances[ii], p))
  }

  function PayloadTrack(d: Payload): int {
    match d
    case PTObj(o) => o.trackId
    case PInstance(x) => x.trackId
  }

  /** `change_track_id(t - 1)` on an object, `track_id -= 1` on an instance (the AttributeError path). */
  function Decrement(d: Payload): Payload {
    match d
    case PTObj(o) => PTObj(ChangeTrack(o, o.trackId - 1))
    case PInstance(x) => PInstance(x.(trackId := x.trackId - 1))
  }

  /** The correction of datahandler.py:348: applied when the deletion removed a whole object. */
  function Corrected(s: Entries, t: int, afterDelete: Entries, d: Payload): Payload {
    if t <= PayloadTrack(d) && |s| == |afterDelete| + 1 then Decrement(d) else d
  }

  /** `move((t, i), d)`: delete at the old coordinate (with cascade), correct, then add. */
  function Move(s: Entries, t: int, i: int, d: Payload): Res {
    var r := DeleteInstance(s, t, i, true);
    if r.err.Some? then r
    else match Corrected(s, t, r.entries, d)
      case PTObj(o) => AddTObj(r.entries, o)
      case PInstance(x) => AddInstance(r.entries, x)
  }

  // ================================================================ properties

  /** With distinct keys, `sort_ok` holds exactly for stores of at most one key. */
  lemma SortOkOnlyTrivial(s: Entries)
    requires DistinctKeys(s)
    ensures SortOk(Firsts(s)) <==> |s| <= 1
  {
    if |s| >= 2 {
      assert Firsts(s)[0] != Firsts(s)[1];
    }
  }

  /** Relabelling from 0 makes a store consistent whenever its objects' instance ids are dense. */
  lemma RelabelConsistent(s: Entries, start: int)
    requires IdsDense(s)
    ensures forall i :: 0 <= i < |s| ==> Relabel(s, start)[i].0 == start + i && ObjConsistent(Relabel(s, start)[i].1, start + i)
  {
  }

  /**
   * `_update()`: two or more keys are relabelled 0..n-1 in iteration order
   * (consistent when instance ids are dense); zero or one key is left as it
   * is, so a lone object keeps whatever key it had.
   */
  lemma UpdateAllResult(s: Entries)
    requires DistinctKeys(s)
    ensures |s| <= 1 ==> UpdateAll(s) == s
    ensures |s| >= 2 ==> UpdateAll(s) == Relabel(s, 0)
    ensures |s| >= 2 && IdsDense(s) ==> Consistent(UpdateAll(s))
    ensures Consistent(s) ==> Consistent(UpdateAll(s))
  {
    SortOkOnlyTrivial(s);
    if |s| >= 2 && IdsDense(s) {
      RelabelConsistent(s, 0);
    }
    if Consistent(s) && |s| >= 2 {
      RelabelConsistent(s, 0);
    }
  }

  /** A lone object under a key other than 0 survives `_update()` unrenumbered. */
  lemma UpdateKeepsLoneKey(o: TObj)
    ensures UpdateAll([(5, o)]) == [(5, o)]
    ensures !Consistent(UpdateAll([(5, o)]))
  {
    assert SortOk(Firsts([(5, o)]));
    assert UpdateAll([(5, o)])[0].0 == 5;
  }

  lemma {:induction false} RestAllKept(s: Entries, k: int)
    requires forall i :: 0 <= i < |s| ==> !(0 <= s[i].0 <= k)
    ensures Rest(s, k) == s
  {
    if |s| > 0 {
      RestAllKept(s[1..], k);
    }
  }

  lemma {:induction false} RestAllDropped(s: Entries, k: int)
    requires forall i :: 0 <= i < |s| ==> 0 <= s[i].0 <= k
    ensures Rest(s, k) == []
  {
    if |s| > 0 {
      RestAllDropped(s[1..], k);
    }
  }

  lemma {:induction false} RestConcat(a: Entries, b: Entries, k: int)
    ensures Rest(a + b, k) == Rest(a, k) + Rest(b, k)
  {
    if |a| > 0 {
      assert (a + b)[1..] == a[1..] + b;
      RestConcat(a[1..], b, k);
    } else {
      assert a + b == b;
    }
  }

  /** The prefix of a consistent store is what KeepPart copies. */
  lemma KeepPartPrefix(s: Entries, d: Entries, t: nat)
    requires t <= |d| && t <= |s|
    requires forall i :: 0 <= i < t ==> d[i].0 == i
    requires forall i :: t <= i < |d| ==> d[i].0 > t
    requires d[..t] == s[..t]
    ensures forall j :: 0 <= j < t ==> Find(d, j) == Some(j)
    ensures KeepPart(d, t - 1) == s[..t]
  {
    forall j | 0 <= j < t
      ensures Find(d, j) == Some(j)
    {
      var r := Find(d, j);
      assert d[j].0 == j;
      assert r.Some?;
      assert r.value <= j;
    }
  }

  /**
   * Whole-object deletion on a consistent store: for `0 <= t < len` the
   * object goes, earlier entries are untouched, later ones move down one key
   * with their track ids rewritten, and the store is consistent again; any
   * other `t` (including `t == len`) is a ValueError that changes nothing.
   */
  lemma DeleteWholeResult(s: Entries, t: int)
    requires Consistent(s)
    ensures 0 <= t < |s| ==> DeleteWhole(s, t) == Res(Compact(s, t), None)
    ensures 0 <= t < |s| ==> Consistent(Compact(s, t))
    ensures !(0 <= t < |s|) ==> DeleteWhole(s, t) == Res(s, Some(ValueError))
  {
    FindConsistent(s, t);
    if 0 <= t < |s| {
      DeleteTObjCompacts(s, t);
      CompactConsistent(s, t);
    }
  }

  lemma DeleteTObjCompacts(s: Entries, t: nat)
    requires Consistent(s) && t < |s|
    ensures DeleteTObj(s, t) == Res(Compact(s, t), None)
  {
    FindConsistent(s, t);
    var d := DictDel(s, t);
    assert d == s[..t] + s[t + 1..];
    assert d[..t] == s[..t];
    assert d[t..] == s[t + 1..];
    KeepPartPrefix(s, d, t);
    RestOfDeleted(s, d, t);
  }

  lemma RestOfDeleted(s: Entries, d: Entries, t: nat)
    requires Consistent(s) && t < |s|
    requires d == s[..t] + s[t + 1..]
    ensures Rest(d, t - 1) == s[t + 1..]
  {
    assert d[..t] == s[..t];
    assert d[t..] == s[t + 1..];
    assert d == d[..t] + d[t..];
    RestConcat(d[..t], d[t..], t - 1);
    RestAllDropped(d[..t], t - 1);
    RestAllKept(d[t..], t - 1);
  }

  lemma CompactConsistent(s: Entries, t: nat)
    requires Consistent(s) && t < |s|
    ensures Consistent(Compact(s, t))
  {
    var c := Compact(s, t);
    forall i | 0 <= i < |c|
      ensures c[i].0 == i && ObjConsistent(c[i].1, i)
    {
      if i >= t {
        assert c[i] == (i, ChangeTrack(s[i + 1].1, i));
      }
    }
  }

  /**
   * Deleting one instance from a consistent store: with valid coordinates it
   * never fails; an object keeping at least one instance is the only entry
   * that changes (still consistent), and an object left empty is removed as a
   * whole with the keys compacted. A missing key or index is a ValueError
   * that changes nothing.
   */
  lemma DeleteInstanceResult(s: Entries, t: int, i: int)
    requires Consistent(s)
    ensures !(0 <= t < |s|) ==> DeleteInstance(s, t, i, true) == Res(s, Some(ValueError))
    ensures 0 <= t < |s| && !(-|s[t].1.instances| <= i < |s[t].1.instances|) ==>
              DeleteInstance(s, t, i, true) == Res(s, Some(ValueError))
    ensures 0 <= t < |s| && -|s[t].1.instances| <= i < |s[t].1.instances| && |s[t].1.instances| >= 2 ==>
              DeleteInstance(s, t, i, true) == Res(s[t := (t, DeleteSpec(s[t].1, i, true).value)], None)
    ensures 0 <= t < |s| && -|s[t].1.instances| <= i < |s[t].1.instances| && |s[t].1.instances| == 1 ==>
              DeleteInstance(s, t, i, true) == Res(Compact(s, t), None)
    ensures DeleteInstance(s, t, i, true).err.None? ==> Consistent(DeleteInstance(s, t, i, true).entries)
  {
    FindConsistent(s, t);
    if 0 <= t < |s| && -|s[t].1.instances| <= i < |s[t].1.instances| {
      var o := DeleteSpec(s[t].1, i, true).value;
      DeleteKeepsConsistent(s[t].1, i);
      var s1 := s[t := (t, o)];
      assert Consistent(s1);
      if |s[t].1.instances| == 1 {
        DeleteWholeResult(s1, t);
        assert s1[..t] == s[..t] && s1[t + 1..] == s[t + 1..];
      }
    }
  }

  /**
   * `delete(t, i)` on a consistent store fails exactly when `t` is not a key
   * or `i` is not a valid index of it, and then changes nothing; when it
   * succeeds the store is consistent, one entry shorter when an object went.
   */
  lemma DeleteResult(s: Entries, t: int, i: Option<int>)
    requires Consistent(s)
    ensures Delete(s, t, i).err.Some? <==>
              !(0 <= t < |s|) || (i.Some? && !(-|s[t].1.instances| <= i.value < |s[t].1.instances|))
    ensures Delete(s, t, i).err.Some? ==> Delete(s, t, i) == Res(s, Some(ValueError))
    ensures Delete(s, t, i).err.None? ==> Consistent(Delete(s, t, i).entries)
    ensures Delete(s, t, i).err.None? && (i.None? || |s[t].1.instances| == 1) ==> |Delete(s, t, i).entries| == |s| - 1
    ensures Delete(s, t, i).err.None? && i.Some? && |s[t].1.instances| >= 2 ==> |Delete(s, t, i).entries| == |s|
  {
    DeleteWholeResult(s, t);
    if i.Some? {
      DeleteInstanceResult(s, t, i.value);
    }
  }

  /**
   * `_add_instance` on a consistent store: a track id at or past `len` is an
   * Exception and a negative one a KeyError, neither changing anything;
   * otherwise only that object changes, as `add_instance` places the record,
   * and the store stays consistent.
   */
  lemma AddInstanceResult(s: Entries, x: Instance)
    requires Consistent(s)
    ensures x.trackId >= |s| ==> AddInstance(s, x) == Res(s, Some(Exception))
    ensures x.trackId < 0 ==> AddInstance(s, x) == Res(s, Some(KeyError))
    ensures 0 <= x.trackId < |s| ==>
              AddInstance(s, x) == Res(s[x.trackId := (x.trackId, AddInstanceSpec(s[x.trackId].1, RecordArg(x), true))], None)
    ensures AddInstance(s, x).err.None? ==> Consistent(AddInstance(s, x).entries)
  {
    FindConsistent(s, x.trackId);
    if 0 <= x.trackId < |s| {
      AddKeepsConsistent(s[x.trackId].1, RecordArg(x));
    }
  }

  /** `s` with `o` at key `p` and every later entry one key up (what inserting an object yields). */
  function Shifted(s: Entries, p: nat, o: TObj): (r: Entries)
    requires p <= |s|
    ensures |r| == |s| + 1
  {
    s[..p] + [(p, o)] + Relabel(s[p..], p + 1)
  }

  /**
   * `_add_tobj` on a consistent store with a one-instance object whose track
   * id is `t >= 0`: it lands at key `min(t, len)` (clamped ids are rewritten
   * to `len`), earlier entries are untouched and every later key `k` becomes
   * `k + 1` with its track ids rewritten; for a well-formed object the store
   * is consistent afterwards. A negative `t` always fails, and an object of
   * another length is an Exception that changes nothing.
   */
  lemma AddTObjResult(s: Entries, o: TObj)
    requires Consistent(s)
    ensures |o.instances| != 1 ==> AddTObj(s, o) == Res(s, Some(Exception))
    ensures |o.instances| == 1 && o.trackId > |s| ==> AddTObj(s, o) == Res(s + [(|s|, ChangeTrack(o, |s|))], None)
    ensures |o.instances| == 1 && 0 <= o.trackId <= |s| ==> AddTObj(s, o) == Res(Shifted(s, o.trackId, o), None)
    ensures |o.instances| == 1 && o.trackId < 0 ==> AddTObj(s, o).err == Some(KeyError)
    ensures |o.instances| == 1 && ObjConsistent(o, o.trackId) && AddTObj(s, o).err.None? ==>
              Consistent(AddTObj(s, o).entries)
  {
    if |o.instances| == 1 {
      var t := o.trackId;
      if t < 0 {
        AddTObjNegative(s, o);
      } else if t >= |s| {
        var o1 := if t > |s| then ChangeTrack(o, |s|) else o;
        AppendAtEnd(s, o1);
        if ObjConsistent(o, t) {
          assert ObjConsistent(o1, |s|);
          ShiftedConsistent(s, |s|, o1);
        }
      } else {
        InsertShifted(s, o);
        if ObjConsistent(o, t) {
          ShiftedConsistent(s, t, o);
        }
      }
    }
  }

  /** `d[len(d)] = o` on a consistent store appends `o` at key len. */
  lemma AppendAtEnd(s: Entries, o: TObj)
    requires Consistent(s)
    ensures DictSet(s, |s|, o) == s + [(|s|, o)] == Shifted(s, |s|, o)
  {
    FindConsistent(s, |s|);
    assert Relabel(s[|s|..], |s| + 1) == [];
    assert s[..|s|] == s;
  }

  /** Placing a well-formed object at key `t` and shifting the rest up keeps a store consistent. */
  lemma ShiftedConsistent(s: Entries, t: nat, o: TObj)
    requires Consistent(s) && t <= |s| && ObjConsistent(o, t)
    ensures Consistent(Shifted(s, t, o))
  {
    var r := Shifted(s, t, o);
    forall i | 0 <= i < |r| ensures r[i].0 == i && ObjConsistent(r[i].1, i) {
      if i < t {
        assert r[i] == s[i];
      } else if i > t {
        assert r[i] == (i, ChangeTrack(s[i - 1].1, i));
      }
    }
  }

  lemma InsertShifted(s: Entries, o: TObj)
    requires KeysDense(s) && 0 <= o.trackId < |s|
    ensures InsertTObj(s, o) == Res(Shifted(s, o.trackId, o), None)
  {
    var t := o.trackId;
    forall j | 0 <= j < |s| ensures HasKey(s, j) { FindConsistent(s, j); }
    var kp := KeepPart(s, t - 1);
    forall j | 0 <= j < t ensures kp[j] == s[j] { FindConsistent(s, j); }
    assert kp == s[..t];
    ShiftTailRelabel(s, t);
  }

  lemma ShiftTailRelabel(s: Entries, t: nat)
    requires KeysDense(s) && t <= |s|
    ensures KeysIn(s, t, |s|)
    ensures ShiftTail(s, t) == Relabel(s[t..], t + 1)
  {
    forall k | t <= k < |s| ensures HasKey(s, k) { FindConsistent(s, k); }
    var tail := ShiftTail(s, t);
    var rel := Relabel(s[t..], t + 1);
    forall j | 0 <= j < |s| - t ensures tail[j] == rel[j] {
      ShiftTailAt(s, t, j);
      assert s[t..][j] == s[t + j];
    }
    assert tail == rel;
  }

  lemma ShiftTailAt(s: Entries, t: nat, j: nat)
    requires KeysDense(s) && t + j < |s| && KeysIn(s, t, |s|)
    ensures ShiftTail(s, t)[j] == (t + j + 1, ChangeTrack(s[t + j].1, t + j + 1))
  {
    FindConsistent(s, t + j);
    assert Get(s, t + j) == s[t + j].1;
  }

  /**
   * `_add_tobj` with a negative track id (reached through `move`'s correction
   * when an object is moved to track 0 from track 0): `range(t)` is empty, so
   * the store is cut down to the new object alone and then the first lookup
   * of `range(t, len)` raises KeyError.
   */
  lemma AddTObjNegative(s: Entries, o: TObj)
    requires Consistent(s)
    requires |o.instances| == 1 && o.trackId < 0
    ensures AddTObj(s, o) == Res([(o.trackId, o)], Some(KeyError))
  {
    FindConsistent(s, o.trackId);
    assert !HasKey(s, o.trackId);
  }

  // ---------------------------------------------------------------- replace

  /** The object `_replace_instance(x)` leaves at x's key: x's old record dropped without renumbering, x re-added. */
  function Replaced(o: TObj, x: Instance): TObj
    requires -|o.instances| <= x.instanceId < |o.instances|
  {
    AddInstanceSpec(DeleteSpec(o, x.instanceId, false).value, RecordArg(x), true)
  }

  /**
   * `replace` of a record addressing an existing instance of a consistent
   * store: only that object changes, it keeps its instance count and stays
   * well formed, and the record lands where `add_instance` puts it in the
   * shortened list.
   */
  lemma ReplaceInstanceResult(s: Entries, x: Instance)
    requires Consistent(s)
    requires 0 <= x.trackId < |s|
    requires -|s[x.trackId].1.instances| <= x.instanceId < |s[x.trackId].1.instances|
    ensures ReplaceInstance(s, x) == Res(s[x.trackId := (x.trackId, Replaced(s[x.trackId].1, x))], None)
    ensures Consistent(ReplaceInstance(s, x).entries)
    ensures |Replaced(s[x.trackId].1, x).instances| == |s[x.trackId].1.instances|
  {
    var t := x.trackId;
    var o := s[t].1;
    FindConsistent(s, t);
    var o1 := DeleteSpec(o, x.instanceId, false).value;
    var s1 := s[t := (t, o1)];
    assert DeleteInstance(s, t, x.instanceId, false) == Res(s1, None);
    DeleteKeepsTracked(o, x.instanceId, t);
    AddKeepsConsistent(o1, RecordArg(x));
    assert KeysDense(s1);
    FindConsistent(s1, t);
  }

  /** Deleting a record without renumbering keeps every remaining record's track id. */
  lemma DeleteKeepsTracked(o: TObj, idx: int, t: int)
    requires AllTracked(o.instances, t) && -|o.instances| <= idx < |o.instances|
    ensures AllTracked(DeleteSpec(o, idx, false).value.instances, t)
  {
    var o1 := DeleteSpec(o, idx, false).value;
    var p := PyIndex(idx, |o.instances|).value;
    forall j | 0 <= j < |o1.instances| ensures o1.instances[j].trackId == t {
      if j < p {
        assert o1.instances[j] == o.instances[j];
      } else {
        assert o1.instances[j] == o.instances[j + 1];
      }
    }
  }

  /**
   * Where the replaced record ends up: an id from 0 to the seed length keeps
   * its place and every other record keeps its own, as an in-place
   * replacement would; an id above the seed length (an object with more
   * instances than the seed dict had keys) is moved to the end of the list
   * and later records move up one place; a negative id lands one place
   * before the one it named.
   */
  lemma ReplacedPlacement(o: TObj, x: Instance)
    requires -|o.instances| <= x.instanceId < |o.instances|
    ensures var r := Replaced(o, x); var n := |o.instances|; var i := x.instanceId;
      && |r.instances| == n && DenseIds(r.instances)
      && (0 <= i <= o.seedLen ==>
            SameExceptId(r.instances[i], x)
            && forall j :: 0 <= j < n && j != i ==> SameExceptId(r.instances[j], o.instances[j]))
      && (i > o.seedLen ==>
            SameExceptId(r.instances[n - 1], x)
            && (forall j :: 0 <= j < i ==> SameExceptId(r.instances[j], o.instances[j]))
            && (forall j :: i <= j < n - 1 ==> SameExceptId(r.instances[j], o.instances[j + 1])))
      && (i < 0 ==> SameExceptId(r.instances[if n + i - 1 < 0 then 0 else n + i - 1], x))
  {
    var i := x.instanceId;
    if 0 <= i <= o.seedLen {
      PlacementInPlace(o, x);
    } else if i > o.seedLen {
      PlacementAtEnd(o, x);
    }
  }

  lemma PlacementInPlace(o: TObj, x: Instance)
    requires 0 <= x.instanceId <= o.seedLen && x.instanceId < |o.instances|
    ensures var r := Replaced(o, x); var i := x.instanceId;
      && SameExceptId(r.instances[i], x)
      && forall j :: 0 <= j < |o.instances| && j != i ==> SameExceptId(r.instances[j], o.instances[j])
  {
    var n := |o.instances|;
    var i := x.instanceId;
    var o1 := DeleteSpec(o, i, false).value;
    var r := Replaced(o, x);
    assert AddPosition(o1, RecordArg(x)) == i;
    forall j | 0 <= j < n && j != i
      ensures SameExceptId(r.instances[j], o.instances[j])
    {
      if j < i {
        assert SameExceptId(r.instances[j], o1.instances[j]);
      } else {
        assert SameExceptId(r.instances[j], o1.instances[j - 1]);
      }
    }
  }

  lemma PlacementAtEnd(o: TObj, x: Instance)
    requires o.seedLen < x.instanceId < |o.instances|
    ensures var r := Replaced(o, x); var n := |o.instances|; var i := x.instanceId;
      && SameExceptId(r.instances[n - 1], x)
      && (forall j :: 0 <= j < i ==> SameExceptId(r.instances[j], o.instances[j]))
      && (forall j :: i <= j < n - 1 ==> SameExceptId(r.instances[j], o.instances[j + 1]))
  {
    var n := |o.instances|;
    var i := x.instanceId;
    var o1 := DeleteSpec(o, i, false).value;
    var r := Replaced(o, x);
    assert AddPosition(o1, RecordArg(x)) == n - 1;
    forall j | i <= j < n - 1
      ensures SameExceptId(r.instances[j], o.instances[j + 1])
    {
      assert SameExceptId(r.instances[j], o1.instances[j]);
    }
  }

  /** The stored record a dict-form `replace` patches, for valid positional indices. */
  function PatchTarget(s: Entries, p: InstancePatch): Option<Instance> {
    match PyIndex(p.trackId, |s|)
    case None => None
    case Some(ti) =>
      match PyIndex(p.instanceId, |s[ti].1.instances|)
      case None => None
      case Some(ii) => Some(s[ti].1.instances[ii])
  }

  /**
   * The dict form of `replace`: an IndexError that changes nothing when
   * either position is out of range; otherwise the stored record with the
   * named fields overwritten, its own track and instance ids kept, replaces
   * it, the object keeps its count and the store stays consistent.
   */
  lemma ReplaceDictResult(s: Entries, p: InstancePatch)
    requires Consistent(s)
    ensures PatchTarget(s, p).None? ==> Replace(s, ByDict(p)) == Res(s, Some(IndexError))
    ensures PatchTarget(s, p).Some? ==> var x := ApplyPatch(PatchTarget(s, p).value, p);
      && x.trackId == PatchTarget(s, p).value.trackId && x.instanceId == PatchTarget(s, p).value.instanceId
      && 0 <= x.trackId < |s| && 0 <= x.instanceId < |s[x.trackId].1.instances|
      && Replace(s, ByDict(p)) == Res(s[x.trackId := (x.trackId, Replaced(s[x.trackId].1, x))], None)
      && Consistent(Replace(s, ByDict(p)).entries)
  {
    if PatchTarget(s, p).Some? {
      var ti := PyIndex(p.trackId, |s|).value;
      var ii := PyIndex(p.instanceId, |s[ti].1.instances|).value;
      var x := ApplyPatch(s[ti].1.instances[ii], p);
      assert x.trackId == ti && x.instanceId == ii;
      ReplaceInstanceResult(s, x);
    }
  }

  // ---------------------------------------------------------------- move

  /** A payload `add` / `move` can place without breaking the store: an instance, or a well-formed one-instance object. */
  predicate WellFormedPayload(d: Payload) {
    match d
    case PTObj(o) => |o.instances| == 1 && ObjConsistent(o, o.trackId)
    case PInstance(_) => true
  }

  /**
   * `move((t, i), d)` on a consistent store: an invalid old position is a
   * ValueError that changes nothing; otherwise the payload's track id is
   * lowered by one exactly when the deletion removed a whole object (the
   * last instance of `t`) and `t` is at or below it, and then it is added;
   * whenever that succeeds, the store is consistent.
   */
  lemma MoveResult(s: Entries, t: int, i: int, d: Payload)
    requires Consistent(s)
    ensures !(0 <= t < |s| && -|s[t].1.instances| <= i < |s[t].1.instances|) ==>
              Move(s, t, i, d) == Res(s, Some(ValueError))
    ensures 0 <= t < |s| && -|s[t].1.instances| <= i < |s[t].1.instances| ==>
              var r := DeleteInstance(s, t, i, true).entries;
              && r == (if |s[t].1.instances| == 1 then Compact(s, t) else s[t := (t, DeleteSpec(s[t].1, i, true).value)])
              && Corrected(s, t, r, d) == (if |s[t].1.instances| == 1 && t <= PayloadTrack(d) then Decrement(d) else d)
    ensures WellFormedPayload(d) && Move(s, t, i, d).err.None? ==> Consistent(Move(s, t, i, d).entries)
  {
    DeleteInstanceResult(s, t, i);
    var r := DeleteInstance(s, t, i, true);
    if r.err.None? {
      var c := Corrected(s, t, r.entries, d);
      match c
      case PTObj(o) =>
        if WellFormedPayload(d) {
          assert ObjConsistent(o, o.trackId);
        }
        AddTObjResult(r.entries, o);
      case PInstance(x) =>
        AddInstanceResult(r.entries, x);
    }
  }

  /**
   * Moving the only instance of object 0 as a new object with track id 0
   * lowers the id to -1, and `_add_tobj` then cuts the store down to that
   * object alone before failing with KeyError.
   */
  lemma MoveToFrontWipes(s: Entries, a: Instance, o: TObj)
    requires Consistent(s) && |s| >= 1
    requires s[0].1.instances == [a]
    requires |o.instances| == 1 && o.trackId == 0
    ensures Move(s, 0, 0, PTObj(o)) == Res([(-1, ChangeTrack(o, -1))], Some(KeyError))
  {
    DeleteInstanceResult(s, 0, 0);
    var r := DeleteInstance(s, 0, 0, true);
    assert r.entries == Compact(s, 0);
    var o1 := ChangeTrack(o, -1);
    AddTObjNegative(r.entries, o1);
  }
}
