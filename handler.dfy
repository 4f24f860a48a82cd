/**
 * `DataHandler` (Masa/models/datahandler/datahandler.py): the annotation
 * store as an object whose `tracked_objs` dict the mutating methods rebuild
 * or update step by step, and whose `change_count` the update slot advances.
 *
 * The dict is the field `tracked`, its (key, object) pairs in insertion
 * order, each object held by value. Every method is proved to produce what
 * the corresponding function of module `Store` says, including the entries
 * it leaves behind when it raises part-way.
 */
module Handler {
  import opened Wrappers
  import opened Data
  import opened Store
  import Csv

  /** A `DataUpdateInfo` with at most one field set, as the editing views send it. */
  datatype Change =
    | NoChange   // every field unset
    | Added(d: Payload)
    | Deleted(track: int, index: Option<int>)
    | Replaced(arg: ReplaceArg)
    | Moved(t: int, i: int, d: Payload)

  /**
   * Whether `if dui.added:` takes its branch: a tracked object is falsy when
   * it has no instances (its `__len__`); an instance is always truthy.
   */
  predicate Truthy(d: Payload) {
    d.PTObj? ==> |d.o.instances| > 0
  }

  /**
   * The store operation a change names (the dispatch of `data_update_sl`).
   * A change whose field is falsy passes every test and changes nothing.
   */
  function ApplyOp(s: Entries, c: Change): Res {
    match c
    case NoChange => Res(s, None)
    case Added(d) => if Truthy(d) then Add(s, d) else Res(s, None)
    case Deleted(t, i) => Delete(s, t, i)
    case Replaced(arg) => Replace(s, arg)
    case Moved(t, i, d) => Move(s, t, i, d)
  }

  /**
   * A packet that selects no operation (nothing set, or an empty tracked
   * object as `added`) still runs `_update()` and counts as a change.
   */
  lemma FalsyPacketUpdates(s: Entries, c: Change)
    requires c.NoChange? || (c.Added? && !Truthy(c.d))
    ensures ApplyChangeSpec(s, c) == Res(UpdateAll(s), None)
  {
  }

  /** `data_update_sl` on the store: the operation, then `_update()` unless it raised. */
  function ApplyChangeSpec(s: Entries, c: Change): Res {
    var r := ApplyOp(s, c);
    if r.err.Some? then r else Res(UpdateAll(r.entries), None)
  }

  /** The autosave counter after one change: incremented, and reset when it reaches the step. */
  function NextCount(count: int, step: int): int {
    if count + 1 >= step then 0 else count + 1
  }

  /** The counter after `k` changes. */
  function CountAfter(count: int, step: int, k: nat): int {
    if k == 0 then count else NextCount(CountAfter(count, step, k - 1), step)
  }

  /** How many saves `k` changes trigger. */
  function SavesAfter(count: int, step: int, k: nat): nat {
    if k == 0 then 0
    else SavesAfter(count, step, k - 1) + (if CountAfter(count, step, k - 1) + 1 >= step then 1 else 0)
  }

  /**
   * From a fresh counter, after `k` changes the counter holds the remainder
   * and the saves the quotient of `k` divided by `autosave_step`: one save
   * every `autosave_step` changes.
   */
  lemma {:induction false} AutosaveCadence(step: int, k: nat)
    requires step >= 1
    ensures 0 <= CountAfter(0, step, k) < step
    ensures k == step * SavesAfter(0, step, k) + CountAfter(0, step, k)
  {
    if k > 0 {
      AutosaveCadence(step, k - 1);
      var c := CountAfter(0, step, k - 1);
      var n := SavesAfter(0, step, k - 1);
      if c + 1 >= step {
        assert step * (n + 1) == step * n + step;
      }
    }
  }

  /**
   * Every change that goes through on a consistent store leaves it
   * consistent: the operation keeps the invariant, and `_update()` keeps it.
   * A failed change is the failed operation's result.
   */
  lemma ChangeKeepsConsistent(s: Entries, c: Change)
    requires Consistent(s)
    requires c.Added? || c.Moved? ==> WellFormedPayload(c.d)
    ensures ApplyChangeSpec(s, c).err.None? ==> Consistent(ApplyChangeSpec(s, c).entries)
    ensures ApplyChangeSpec(s, c).err.Some? ==> ApplyChangeSpec(s, c) == ApplyOp(s, c)
  {
    var r := ApplyOp(s, c);
    if r.err.None? {
      match c {
        case NoChange =>
        case Added(d) =>
          match d {
            case PTObj(o) => AddTObjResult(s, o);
            case PInstance(x) => AddInstanceResult(s, x);
          }
        case Deleted(t, i) => DeleteResult(s, t, i);
        case Replaced(arg) =>
          match arg {
            case ByRecord(x) =>
              ReplaceRecordSucceeds(s, x);
              ReplaceInstanceResult(s, x);
            case ByDict(p) => ReplaceDictResult(s, p);
          }
        case Moved(t, i, d) => MoveResult(s, t, i, d);
      }
      assert DistinctKeys(r.entries);
      UpdateAllResult(r.entries);
    }
  }

  /** A record `replace` goes through only at an existing coordinate (otherwise the deletion raises ValueError). */
  lemma ReplaceRecordSucceeds(s: Entries, x: Instance)
    requires Consistent(s)
    requires ReplaceInstance(s, x).err.None?
    ensures 0 <= x.trackId < |s| && -|s[x.trackId].1.instances| <= x.instanceId < |s[x.trackId].1.instances|
  {
    FindConsistent(s, x.trackId);
  }

  class DataHandler {
    /** `tracked_objs`: (key, object) pairs in insertion order. */
    var tracked: Entries
    /** `change_count`: changes since the last autosave. */
    var changeCount: int
    /** `autosave_step`. */
    const autosaveStep: int

    /**
     * The end of `__init__`: the objects read from the input are installed
     * and `_update()` renumbers them.
     */
    constructor (entries: Entries, autosaveStep: int)
      ensures tracked == UpdateAll(entries)
      ensures changeCount == 0 && this.autosaveStep == autosaveStep
    {
      this.tracked := entries;
      this.changeCount := 0;
      this.autosaveStep := autosaveStep;
      new;
      Update();
    }

    /** `len(self)`. */
    function Length(): (n: nat)
      reads this
      ensures n == |tracked|
    {
      |tracked|
    }

    /** `_update()` without `keep_until`: test `sort_ok`, and rebuild the dict from 0 unless it holds. */
    method Update()
      modifies this`tracked
      ensures tracked == UpdateAll(old(tracked))
    {
      var sortOk := true;
      var i := 0;
      while i + 1 < |tracked|
        invariant 0 <= i && (i == 0 || i < |tracked|)
        invariant sortOk <==> forall j :: 0 <= j < i ==> tracked[j].0 == tracked[j + 1].0
      {
        if tracked[i].0 != tracked[i + 1].0 {
          sortOk := false;
        }
        i := i + 1;
      }
      assert sortOk <==> SortOk(Firsts(tracked));
      if !sortOk {
        tracked := Renumbered([], tracked, 0);
      }
    }

    /**
     * `_update(keep_until=k)`: copy keys 0..k (KeyError, with nothing
     * changed, when one is missing), collect the other entries in order, and
     * rebuild with those renumbered from k + 1.
     */
    method UpdateKeep(k: int) returns (err: Option<PyError>)
      modifies this`tracked
      ensures Res(tracked, err) == Store.UpdateKeep(old(tracked), k)
    {
      var keep: Entries := [];
      var kk := 0;
      while kk <= k
        invariant 0 <= kk && (k >= 0 ==> kk <= k + 1) && (k < 0 ==> kk == 0)
        invariant tracked == old(tracked)
        invariant forall j :: 0 <= j < kk ==> HasKey(tracked, j)
        invariant keep == KeepPart(tracked, kk - 1)
      {
        var r := Lookup(tracked, kk);
        if r.None? {
          assert !KeysIn(tracked, 0, k + 1) by { assert !HasKey(tracked, kk); }
          return Some(KeyError);
        }
        keep := keep + [(kk, tracked[r.value].1)];
        kk := kk + 1;
      }
      assert KeysIn(tracked, 0, k + 1);
      assert keep == KeepPart(tracked, k);
      var rest: Entries := [];
      var j := 0;
      while j < |tracked|
        invariant 0 <= j <= |tracked|
        invariant tracked == old(tracked)
        invariant rest == Rest(tracked[..j], k)
      {
        assert tracked[..j + 1] == tracked[..j] + [tracked[j]];
        RestConcat(tracked[..j], [tracked[j]], k);
        if !(0 <= tracked[j].0 <= k) {
          rest := rest + [tracked[j]];
        }
        j := j + 1;
      }
      assert tracked[..|tracked|] == tracked;
      assert Store.UpdateKeep(tracked, k) == Res(keep + Relabel(rest, k + 1), None);
      tracked := Renumbered(keep, rest, k + 1);
      err := None;
    }

    /** `_delete_tobj_end(t)`: `del`, ValueError when `t` is not a key. */
    method DeleteTObjEnd(t: int) returns (err: Option<PyError>)
      modifies this`tracked
      ensures Res(tracked, err) == Store.DeleteTObjEnd(old(tracked), t)
    {
      var r := Lookup(tracked, t);
      if r.None? {
        return Some(ValueError);
      }
      tracked := tracked[..r.value] + tracked[r.value + 1..];
      err := None;
    }

    /** `_delete_tobj(t)`: `del`, then `_update(keep_until=t-1)`. */
    method DeleteTObj(t: int) returns (err: Option<PyError>)
      modifies this`tracked
      ensures Res(tracked, err) == Store.DeleteTObj(old(tracked), t)
    {
      var r := Lookup(tracked, t);
      if r.None? {
        return Some(ValueError);
      }
      tracked := tracked[..r.value] + tracked[r.value + 1..];
      err := UpdateKeep(t - 1);
    }

    /** `_delete(t)` with no instance index. */
    method DeleteWhole(t: int) returns (err: Option<PyError>)
      modifies this`tracked
      ensures Res(tracked, err) == Store.DeleteWhole(old(tracked), t)
    {
      if t == |tracked| {
        err := DeleteTObjEnd(t);
      } else {
        err := DeleteTObj(t);
      }
    }

    /** `_delete_instance(t, i, update)`: the object's `delete`, then the cascade. */
    method DeleteInstance(t: int, i: int, update: bool) returns (err: Option<PyError>)
      modifies this`tracked
      ensures Res(tracked, err) == Store.DeleteInstance(old(tracked), t, i, update)
    {
      var r := Lookup(tracked, t);
      if r.None? {
        return Some(ValueError);
      }
      var o := DeleteSpec(tracked[r.value].1, i, update);
      if o.None? {
        return Some(ValueError);
      }
      tracked := tracked[r.value := (t, o.value)];
      err := None;
      if update && |o.value.instances| == 0 {
        err := DeleteWhole(t);
      }
    }

    /** `delete(t, i)` / `_delete(t, i)`. */
    method Delete(t: int, i: Option<int>) returns (err: Option<PyError>)
      modifies this`tracked
      ensures Res(tracked, err) == Store.Delete(old(tracked), t, i)
    {
      match i {
        case None => err := DeleteWhole(t);
        case Some(k) => err := DeleteInstance(t, k, true);
      }
    }

    /** `_add_instance(x)`. */
    method AddInstance(x: Instance) returns (err: Option<PyError>)
      modifies this`tracked
      ensures Res(tracked, err) == Store.AddInstance(old(tracked), x)
    {
      if x.trackId >= |tracked| {
        return Some(Exception);
      }
      var r := Lookup(tracked, x.trackId);
      if r.None? {
        return Some(KeyError);
      }
      var o := AddInstanceSpec(tracked[r.value].1, RecordArg(x), true);
      tracked := tracked[r.value := (x.trackId, o)];
      err := None;
    }

    /** `_append_tobj(o)`: `tracked_objs[o.track_id] = o`. */
    method AppendTObj(o: TObj)
      modifies this`tracked
      ensures tracked == DictSet(old(tracked), o.trackId, o)
    {
      var r := Lookup(tracked, o.trackId);
      if r.Some? {
        tracked := tracked[r.value := (o.trackId, o)];
      } else {
        tracked := tracked + [(o.trackId, o)];
      }
    }

    /**
     * `_insert_tobj(o)`: copy keys below `t`, install the kept part and `o`,
     * then add every old key `k >= t` at `k + 1` with its track id rewritten
     * (the new keys are all above `t`, so each one is appended).
     */
    method InsertTObj(o: TObj) returns (err: Option<PyError>)
      modifies this`tracked
      ensures Res(tracked, err) == Store.InsertTObj(old(tracked), o)
    {
      var t := o.trackId;
      var keep := KeepKeys(tracked, t);
      if keep.None? {
        return Some(KeyError);
      }
      var old_ := tracked;
      tracked := keep.value + [(t, o)];
      var shifted := ShiftKeys(old_, t);
      if shifted.None? {
        return Some(KeyError);
      }
      tracked := tracked + shifted.value;
      err := None;
    }

    /** `_add_tobj(o)`: one instance only; clamp, then append or insert. */
    method AddTObj(o: TObj) returns (err: Option<PyError>)
      modifies this`tracked
      ensures Res(tracked, err) == Store.AddTObj(old(tracked), o)
    {
      if |o.instances| != 1 {
        return Some(Exception);
      }
      var o1 := o;
      if o.trackId > |tracked| {
        o1 := ChangeTrack(o, |tracked|);
      }
      if o1.trackId == |tracked| {
        AppendTObj(o1);
        err := None;
      } else {
        err := InsertTObj(o1);
      }
    }

    /** `add(d)`. */
    method Add(d: Payload) returns (err: Option<PyError>)
      modifies this`tracked
      ensures Res(tracked, err) == Store.Add(old(tracked), d)
    {
      match d {
        case PTObj(o) =>
          if |o.instances| == 1 {
            err := AddTObj(o);
          } else {
            err := Some(ValueError);
          }
        case PInstance(x) =>
          err := AddInstance(x);
      }
    }

    /** `_replace_instance(x)`: delete without renumbering, then `_add_instance(x)`. */
    method ReplaceInstance(x: Instance) returns (err: Option<PyError>)
      modifies this`tracked
      ensures Res(tracked, err) == Store.ReplaceInstance(old(tracked), x)
    {
      err := DeleteInstance(x.trackId, x.instanceId, false);
      if err.None? {
        err := AddInstance(x);
      }
    }

    /** `replace(arg)`: a dict is first turned into a patched copy of the stored record it addresses. */
    method Replace(arg: ReplaceArg) returns (err: Option<PyError>)
      modifies this`tracked
      ensures Res(tracked, err) == Store.Replace(old(tracked), arg)
    {
      match arg {
        case ByRecord(x) =>
          err := ReplaceInstance(x);
        case ByDict(p) =>
          var ti := PyIndex(p.trackId, |tracked|);
          if ti.None? {
            return Some(IndexError);
          }
          var o := tracked[ti.value].1;
          var ii := PyIndex(p.instanceId, |o.instances|);
          if ii.None? {
            return Some(IndexError);
          }
          err := ReplaceInstance(ApplyPatch(o.instances[ii.value], p));
      }
    }

    /** `move((t, i), d)`. */
    method Move(t: int, i: int, d: Payload) returns (err: Option<PyError>)
      modifies this`tracked
      ensures Res(tracked, err) == Store.Move(old(tracked), t, i, d)
    {
      var prevLen := |tracked|;
      err := DeleteInstance(t, i, true);
      if err.Some? {
        return;
      }
      var d1 := d;
      if t <= PayloadTrack(d) && prevLen == |tracked| + 1 {
        d1 := Decrement(d);
      }
      match d1 {
        case PTObj(o) => err := AddTObj(o);
        case PInstance(x) => err := AddInstance(x);
      }
    }

    /** The autosave counter of `data_update_sl`: true when this change triggers `save()`. */
    method CountChange() returns (save: bool)
      modifies this`changeCount
      ensures save <==> old(changeCount) + 1 >= autosaveStep
      ensures changeCount == NextCount(old(changeCount), autosaveStep)
    {
      changeCount := changeCount + 1;
      save := false;
      if changeCount >= autosaveStep {
        save := true;
        changeCount := 0;
      }
    }

    /**
     * `data_update_sl`: apply the change, `_update()`, advance the autosave
     * counter. An operation that raises skips the rest.
     */
    method ApplyChange(c: Change) returns (err: Option<PyError>, save: bool)
      modifies this
      ensures Res(tracked, err) == ApplyChangeSpec(old(tracked), c)
      ensures err.Some? ==> changeCount == old(changeCount) && !save
      ensures err.None? ==> changeCount == NextCount(old(changeCount), autosaveStep)
      ensures err.None? ==> (save <==> old(changeCount) + 1 >= autosaveStep)
    {
      save := false;
      match c {
        case NoChange => err := None;
        case Added(d) =>
          if Truthy(d) {
            err := Add(d);
          } else {
            err := None;
          }
        case Deleted(t, i) => err := Delete(t, i);
        case Replaced(arg) => err := Replace(arg);
        case Moved(t, i, d) => err := Move(t, i, d);
      }
      if err.Some? {
        return;
      }
      Update();
      save := CountChange();
    }
  }

  /**
   * The rebuilding loop of `_update`: starting from `keep`, every entry of
   * `src` in order gets the next key from `start` and its track ids
   * rewritten (`change_track_id(new_k)`).
   */
  method Renumbered(keep: Entries, src: Entries, start: int) returns (r: Entries)
    ensures r == keep + Relabel(src, start)
  {
    r := keep;
    var i := 0;
    while i < |src|
      invariant 0 <= i <= |src|
      invariant r == keep + Relabel(src[..i], start)
    {
      r := r + [(start + i, ChangeTrack(src[i].1, start + i))];
      i := i + 1;
    }
    assert src[..|src|] == src;
  }

  /**
   * `{k: d[k] for k in range(t)}`: the entries under keys 0..t-1, None where
   * a lookup raises KeyError.
   */
  method KeepKeys(s: Entries, t: int) returns (r: Option<Entries>)
    ensures r.Some? <==> KeysIn(s, 0, t)
    ensures r.Some? ==> r.value == KeepPart(s, t - 1)
  {
    var keep: Entries := [];
    var k := 0;
    while k < t
      invariant 0 <= k && (t >= 0 ==> k <= t) && (t < 0 ==> k == 0)
      invariant forall j :: 0 <= j < k ==> HasKey(s, j)
      invariant keep == KeepPart(s, k - 1)
    {
      var p := Lookup(s, k);
      if p.None? {
        assert !HasKey(s, k);
        return None;
      }
      keep := keep + [(k, s[p.value].1)];
      k := k + 1;
    }
    return Some(keep);
  }

  /**
   * `{k + 1: d[k].change_track_id(k + 1) for k in range(t, len(d))}`: every
   * entry from key `t` up re-keyed one higher with its track ids rewritten,
   * None where a lookup raises KeyError.
   */
  method ShiftKeys(s: Entries, t: int) returns (r: Option<Entries>)
    ensures r.Some? <==> KeysIn(s, t, |s|)
    ensures r.Some? ==> r.value == ShiftTail(s, t)
  {
    var shifted: Entries := [];
    var k := t;
    while k < |s|
      invariant t <= k && (t <= |s| ==> k <= |s|) && (t > |s| ==> k == t)
      invariant forall j :: t <= j < k ==> HasKey(s, j)
      invariant |shifted| == k - t
      invariant forall j :: 0 <= j < k - t ==> shifted[j] == (t + j + 1, ChangeTrack(Get(s, t + j), t + j + 1))
    {
      var p := Lookup(s, k);
      if p.None? {
        assert !HasKey(s, k);
        return None;
      }
      assert s[p.value].1 == Get(s, k);
      shifted := shifted + [(k + 1, ChangeTrack(s[p.value].1, k + 1))];
      k := k + 1;
    }
    assert shifted == ShiftTail(s, t);
    return Some(shifted);
  }

  /** `d[k]`: the position of key `k`, None where the lookup raises KeyError. */
  method Lookup(s: Entries, k: int) returns (r: Option<nat>)
    ensures r == Find(s, k)
  {
    var i := 0;
    while i < |s|
      invariant 0 <= i <= |s|
      invariant forall j :: 0 <= j < i ==> s[j].0 != k
    {
      if s[i].0 == k {
        var f := Find(s, k);
        assert f.Some? && f.value <= i;
        return Some(i);
      }
      i := i + 1;
    }
    return None;
  }

  /**
   * `__init__` on already converted rows: `_read_from_input` fills the
   * store (its error escapes and no handler is made), then `_update()`
   * renumbers it and the change counter starts at 0.
   */
  method Open(cfg: Csv.Config, rows: seq<Csv.Row>, autosaveStep: int) returns (r: Result<DataHandler>)
    ensures Csv.Load(cfg, rows).Err? ==> r == Err(Csv.Load(cfg, rows).error)
    ensures Csv.Load(cfg, rows).Ok? ==>
              r.Ok? && fresh(r.value) && r.value.tracked == UpdateAll(Csv.Load(cfg, rows).value)
              && r.value.changeCount == 0 && r.value.autosaveStep == autosaveStep
  {
    var loaded := Csv.ReadFromInput(cfg, rows);
    match loaded {
      case Err(e) =>
        return Err(e);
      case Ok(s) =>
        var h := new DataHandler(s, autosaveStep);
        r := Ok(h);
    }
  }
}
