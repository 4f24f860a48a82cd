/**
 * The annotation records: an `Instance` is one bounding box of one tracked
 * object in one frame, and a `TrackedObject` owns an ordered list of them
 * (Masa/core/data/data.py).
 *
 * `TObj` is the value of a TrackedObject (what its fields hold at one
 * moment); the functions on it are the specification that the methods of
 * the class `TrackedObject` are proved against.
 */
module Data {
  import opened Wrappers

  /** One bounding-box observation. Coordinates are only copied, so they are plain integers. */
  datatype Instance = Instance(
    trackId: int,
    objectClass: string,
    instanceId: int,
    x1: int, y1: int, x2: int, y2: int,
    frameId: int,
    tags: map<string, string>)

  /**
   * The dict form of an instance: the entries `_dict_to_instance` reads, and
   * `keyCount`, the number of keys the dict holds (its `len`).
   */
  datatype InstanceDict = InstanceDict(
    x1: int, y1: int, x2: int, y2: int,
    frameId: int,
    tags: map<string, string>,
    keyCount: nat)

  /** What `add_instance` accepts: a dict or an Instance record. */
  datatype InstanceArg = DictArg(d: InstanceDict) | RecordArg(inst: Instance)

  /**
   * The value of a TrackedObject. `seedLen` is the length of the dict the
   * object was constructed with; the insertion guard compares against it.
   */
  datatype TObj = TObj(trackId: int, objectClass: string, seedLen: nat, instances: seq<Instance>)

  /** Two instances that differ at most in their `instance_id`. */
  predicate SameExceptId(a: Instance, b: Instance) {
    a.(instanceId := 0) == b.(instanceId := 0)
  }

  /** Two instances that differ at most in their `track_id`. */
  predicate SameExceptTrack(a: Instance, b: Instance) {
    a.(trackId := 0) == b.(trackId := 0)
  }

  /** Every instance's `instance_id` is its index in the list. */
  predicate DenseIds(s: seq<Instance>) {
    forall i :: 0 <= i < |s| ==> s[i].instanceId == i
  }

  /** Every instance carries the track id `t`. */
  predicate AllTracked(s: seq<Instance>, t: int) {
    forall i :: 0 <= i < |s| ==> s[i].trackId == t
  }

  /** The element a Python index addresses in a list of length `n` (a negative index counts from the end). */
  function PyIndex(i: int, n: nat): (r: Option<nat>)
    ensures r.Some? <==> 0 <= i + n && i < n
    ensures r.Some? ==> r.value < n
    ensures r.Some? && i >= 0 ==> r.value == i
    ensures r.Some? && i < 0 ==> r.value == n + i
  {
    if 0 <= i < n then Some(i) else if 0 <= i + n && i < 0 then Some(n + i) else None
  }

  /** The position at which Python's `list.insert(i, x)` puts `x` in a list of length `n`. */
  function InsertPos(i: int, n: nat): (p: nat)
    ensures p <= n
    ensures 0 <= i <= n ==> p == i
    ensures i > n ==> p == n
    ensures i < 0 && n + i >= 0 ==> p == n + i
    ensures i < 0 && n + i < 0 ==> p == 0
  {
    if i > n then n
    else if i >= 0 then i
    else if n + i >= 0 then n + i
    else 0
  }

  /** `s` with `x` placed at position `p`. */
  function InsertAt(s: seq<Instance>, p: nat, x: Instance): (r: seq<Instance>)
    requires p <= |s|
    ensures |r| == |s| + 1 && r[p] == x
    ensures forall j :: 0 <= j < p ==> r[j] == s[j]
    ensures forall j :: p <= j < |s| ==> r[j + 1] == s[j]
  {
    s[..p] + [x] + s[p..]
  }

  /** `s` without the element at position `p`. */
  function RemoveAt(s: seq<Instance>, p: nat): (r: seq<Instance>)
    requires p < |s|
    ensures |r| == |s| - 1
    ensures forall j :: 0 <= j < p ==> r[j] == s[j]
    ensures forall j :: p <= j < |r| ==> r[j] == s[j + 1]
  {
    s[..p] + s[p + 1..]
  }

  /** What `_update` leaves: every id rewritten to its index, nothing else touched. */
  function Renumber(s: seq<Instance>): (r: seq<Instance>)
    ensures |r| == |s| && DenseIds(r)
    ensures forall i :: 0 <= i < |s| ==> SameExceptId(r[i], s[i])
  {
    seq(|s|, i requires 0 <= i < |s| => s[i].(instanceId := i))
  }

  /** `_dict_to_instance`: the dict's fields under the object's track id and class, id = current length. */
  function DictToInstance(o: TObj, d: InstanceDict): Instance {
    Instance(o.trackId, o.objectClass, |o.instances|, d.x1, d.y1, d.x2, d.y2, d.frameId, d.tags)
  }

  /** The record `add_instance` goes on to place. */
  function Incoming(o: TObj, arg: InstanceArg): Instance {
    match arg
    case DictArg(d) => DictToInstance(o, d)
    case RecordArg(x) => x
  }

  /** The record after the guard of data.py:53-54 (an id above the seed dict's length becomes the list's length). */
  function Guarded(o: TObj, x: Instance): (g: Instance)
    ensures SameExceptId(g, x)
  {
    if x.instanceId > o.seedLen then x.(instanceId := |o.instances|) else x
  }

  /**
   * Where `add_instance` puts the new record: the end of the list when its id
   * equals the length, otherwise where `list.insert` puts it.
   */
  function AddPosition(o: TObj, arg: InstanceArg): (p: nat)
    ensures p <= |o.instances|
    // A dict gets id = length, so it is always appended.
    ensures arg.DictArg? ==> p == |o.instances|
    ensures arg.RecordArg? && arg.inst.instanceId > o.seedLen ==> p == |o.instances|
    ensures arg.RecordArg? && 0 <= arg.inst.instanceId <= o.seedLen ==>
              p == (if arg.inst.instanceId < |o.instances| then arg.inst.instanceId else |o.instances|)
    ensures arg.RecordArg? && arg.inst.instanceId < 0 ==>
              p == (if |o.instances| + arg.inst.instanceId < 0 then 0 else |o.instances| + arg.inst.instanceId)
  {
    var g := Guarded(o, Incoming(o, arg));
    if g.instanceId == |o.instances| then |o.instances| else InsertPos(g.instanceId, |o.instances|)
  }

  /**
   * `add_instance(arg, update)`: the list grows by exactly one, the new record
   * sits at AddPosition, earlier records keep their place and later ones move
   * up by one; with `update` the ids are dense afterwards, without it no
   * stored record changes at all.
   */
  function AddInstanceSpec(o: TObj, arg: InstanceArg, update: bool): (r: TObj)
    ensures r.trackId == o.trackId && r.objectClass == o.objectClass && r.seedLen == o.seedLen
    ensures |r.instances| == |o.instances| + 1
    ensures SameExceptId(r.instances[AddPosition(o, arg)], Incoming(o, arg))
    ensures forall j :: 0 <= j < AddPosition(o, arg) ==> SameExceptId(r.instances[j], o.instances[j])
    ensures forall j :: AddPosition(o, arg) <= j < |o.instances| ==> SameExceptId(r.instances[j + 1], o.instances[j])
    ensures update ==> DenseIds(r.instances)
    ensures !update ==> r.instances[AddPosition(o, arg)] == Guarded(o, Incoming(o, arg))
    ensures !update ==> forall j :: 0 <= j < AddPosition(o, arg) ==> r.instances[j] == o.instances[j]
    ensures !update ==> forall j :: AddPosition(o, arg) <= j < |o.instances| ==> r.instances[j + 1] == o.instances[j]
  {
    var g := Guarded(o, Incoming(o, arg));
    var placed := InsertAt(o.instances, AddPosition(o, arg), g);
    o.(instances := if update then Renumber(placed) else placed)
  }

  /**
   * `change_track_id(t)`: the object and every instance carry `t`; order and
   * every other field are unchanged.
   */
  function ChangeTrack(o: TObj, t: int): (r: TObj)
    ensures r.trackId == t && AllTracked(r.instances, t)
    ensures r.objectClass == o.objectClass && r.seedLen == o.seedLen
    ensures |r.instances| == |o.instances|
    ensures forall i :: 0 <= i < |o.instances| ==> SameExceptTrack(r.instances[i], o.instances[i])
    ensures DenseIds(o.instances) ==> DenseIds(r.instances)
  {
    o.(trackId := t, instances := seq(|o.instances|, i requires 0 <= i < |o.instances| => o.instances[i].(trackId := t)))
  }

  /**
   * `delete(idx, update)`: None when `del` raises IndexError (the index is
   * outside -len..len-1); otherwise exactly the addressed element is gone,
   * with dense ids under `update` and the survivors' stale ids without it.
   */
  function DeleteSpec(o: TObj, idx: int, update: bool): (r: Option<TObj>)
    ensures r.None? <==> !(-|o.instances| <= idx < |o.instances|)
    ensures r.Some? ==> var p := PyIndex(idx, |o.instances|).value;
      && r.value.trackId == o.trackId && r.value.objectClass == o.objectClass && r.value.seedLen == o.seedLen
      && |r.value.instances| == |o.instances| - 1
      && (forall j :: 0 <= j < p ==> SameExceptId(r.value.instances[j], o.instances[j]))
      && (forall j :: p <= j < |r.value.instances| ==> SameExceptId(r.value.instances[j], o.instances[j + 1]))
      && (update ==> DenseIds(r.value.instances))
      && (!update ==> r.value.instances == RemoveAt(o.instances, p))
  {
    match PyIndex(idx, |o.instances|)
    case None => None
    case Some(p) =>
      var rest := RemoveAt(o.instances, p);
      Some(o.(instances := if update then Renumber(rest) else rest))
  }

  /** An object is well formed under key `t`: it and all its instances carry `t`, and ids are dense. */
  predicate ObjConsistent(o: TObj, t: int) {
    o.trackId == t && AllTracked(o.instances, t) && DenseIds(o.instances)
  }

  /** The object a dict seed constructs (`__post_init__` adds the seed with `update=True`). */
  function Seeded(trackId: int, objectClass: string, seed: InstanceDict): (r: TObj)
    ensures r.trackId == trackId && r.objectClass == objectClass && r.seedLen == seed.keyCount
    ensures r.instances == [Instance(trackId, objectClass, 0, seed.x1, seed.y1, seed.x2, seed.y2, seed.frameId, seed.tags)]
    ensures ObjConsistent(r, trackId)
  {
    AddInstanceSpec(TObj(trackId, objectClass, seed.keyCount, []), DictArg(seed), true)
  }

  /**
   * With `update`, adding makes an object well formed when its records and
   * the new one carry the object's track id (stale ids are renumbered).
   */
  lemma AddKeepsConsistent(o: TObj, arg: InstanceArg)
    requires AllTracked(o.instances, o.trackId)
    requires arg.RecordArg? ==> arg.inst.trackId == o.trackId
    ensures ObjConsistent(AddInstanceSpec(o, arg, true), o.trackId)
  {
    var r := AddInstanceSpec(o, arg, true);
    var p := AddPosition(o, arg);
    forall j | 0 <= j < |r.instances|
      ensures r.instances[j].trackId == o.trackId
    {
      if j < p {
        assert SameExceptId(r.instances[j], o.instances[j]);
      } else if j == p {
        assert SameExceptId(r.instances[p], Incoming(o, arg));
      } else {
        assert SameExceptId(r.instances[j], o.instances[j - 1]);
      }
    }
  }

  /** With `update`, deleting keeps an object well formed. */
  lemma DeleteKeepsConsistent(o: TObj, idx: int)
    requires ObjConsistent(o, o.trackId)
    requires -|o.instances| <= idx < |o.instances|
    ensures DeleteSpec(o, idx, true).Some? && ObjConsistent(DeleteSpec(o, idx, true).value, o.trackId)
  {
    var r := DeleteSpec(o, idx, true).value;
    var p := PyIndex(idx, |o.instances|).value;
    forall j | 0 <= j < |r.instances|
      ensures r.instances[j].trackId == o.trackId
    {
      if j < p {
        assert SameExceptId(r.instances[j], o.instances[j]);
      } else {
        assert SameExceptId(r.instances[j], o.instances[j + 1]);
      }
    }
  }

  /**
   * The attribute `_iter_idx`: absent until `__iter__` first runs, None
   * right after it (`Restarted`), then the index last returned.
   */
  datatype Cursor = Unset | Restarted | Last(k: int)

  /**
   * A tracked object: its fields are updated in place by `add_instance`,
   * `_update`, `change_track_id` and `delete`.
   */
  class TrackedObject {
    var trackId: int
    var objectClass: string
    const seedLen: nat
    var instances: seq<Instance>
    /** The cursor of `__next__` (`_iter_idx`). */
    var iterIdx: Cursor

    function Value(): TObj
      reads this
    {
      TObj(trackId, objectClass, seedLen, instances)
    }

    /** The dataclass constructor followed by `__post_init__`, which adds the seed dict. */
    constructor (trackId: int, objectClass: string, seed: InstanceDict)
      ensures Value() == Seeded(trackId, objectClass, seed)
      ensures iterIdx == Unset
    {
      this.trackId := trackId;
      this.objectClass := objectClass;
      this.seedLen := seed.keyCount;
      this.instances := [];
      this.iterIdx := Unset;
      new;
      AddInstance(DictArg(seed), true);
    }

    /** `add_instance`: place the record as the guard and `list.insert` decide, then renumber if asked. */
    method AddInstance(arg: InstanceArg, update: bool)
      modifies this
      ensures Value() == AddInstanceSpec(old(Value()), arg, update)
      ensures iterIdx == old(iterIdx)
    {
      var x := match arg
        case DictArg(d) => Instance(trackId, objectClass, |instances|, d.x1, d.y1, d.x2, d.y2, d.frameId, d.tags)
        case RecordArg(r) => r;
      if x.instanceId > seedLen {
        x := x.(instanceId := |instances|);
      }
      if x.instanceId == |instances| {
        instances := instances + [x];
      } else {
        var p := InsertPos(x.instanceId, |instances|);
        instances := instances[..p] + [x] + instances[p..];
      }
      if update {
        Update();
      }
    }

    /** `_update`: rewrite every instance's id to its index. */
    method Update()
      modifies this
      ensures instances == Renumber(old(instances))
      ensures trackId == old(trackId) && objectClass == old(objectClass) && iterIdx == old(iterIdx)
    {
      var i := 0;
      while i < |instances|
        invariant 0 <= i <= |instances| == |old(instances)|
        invariant forall j :: 0 <= j < i ==> instances[j] == old(instances)[j].(instanceId := j)
        invariant forall j :: i <= j < |instances| ==> instances[j] == old(instances)[j]
        invariant trackId == old(trackId) && objectClass == old(objectClass) && iterIdx == old(iterIdx)
      {
        instances := instances[i := instances[i].(instanceId := i)];
        i := i + 1;
      }
    }

    /** `change_track_id`: returns the object itself. */
    method ChangeTrackId(t: int) returns (self: TrackedObject)
      modifies this
      ensures self == this
      ensures Value() == ChangeTrack(old(Value()), t)
      ensures iterIdx == old(iterIdx)
    {
      trackId := t;
      var i := 0;
      while i < |instances|
        invariant 0 <= i <= |instances| == |old(instances)|
        invariant forall j :: 0 <= j < i ==> instances[j] == old(instances)[j].(trackId := t)
        invariant forall j :: i <= j < |instances| ==> instances[j] == old(instances)[j]
        invariant objectClass == old(objectClass) && iterIdx == old(iterIdx) && trackId == t
      {
        instances := instances[i := instances[i].(trackId := trackId)];
        i := i + 1;
      }
      self := this;
    }

    /** `delete(idx, update)`: false when `del` raises IndexError, in which case nothing changes. */
    method Delete(idx: int, update: bool) returns (ok: bool)
      modifies this
      ensures ok <==> DeleteSpec(old(Value()), idx, update).Some?
      ensures ok ==> Value() == DeleteSpec(old(Value()), idx, update).value
      ensures !ok ==> Value() == old(Value())
      ensures iterIdx == old(iterIdx)
    {
      var p := PyIndex(idx, |instances|);
      if p.None? {
        return false;
      }
      instances := instances[..p.value] + instances[p.value + 1..];
      if update {
        Update();
      }
      ok := true;
    }

    /** `__getitem__` with an integer: the addressed instance, None where Python raises IndexError. */
    function At(index: int): (r: Option<Instance>)
      reads this
      ensures r.Some? <==> -|instances| <= index < |instances|
      ensures r.Some? && index >= 0 ==> r.value == instances[index]
      ensures r.Some? && index < 0 ==> r.value == instances[|instances| + index]
    {
      match PyIndex(index, |instances|)
      case None => None
      case Some(p) => Some(instances[p])
    }

    /** `__len__`. */
    function Length(): nat
      reads this
    {
      |instances|
    }

    /** `__iter__`: restart the cursor. */
    method Iter()
      modifies this`iterIdx
      ensures iterIdx == Restarted
    {
      iterIdx := Restarted;
    }

    /**
     * `__next__`: advance the cursor (None becomes 0) and return the instance
     * there; None stands for StopIteration, raised once the cursor reaches
     * the length. Before any `__iter__` the attribute does not exist, so
     * reading it raises AttributeError and nothing changes.
     */
    method Next() returns (r: Result<Option<Instance>>)
      modifies this`iterIdx
      ensures old(iterIdx).Unset? ==> r == Err(AttributeError) && iterIdx == Unset
      ensures !old(iterIdx).Unset? ==> iterIdx == Last(match old(iterIdx) case Last(k) => k + 1 case _ => 0)
      ensures iterIdx.Last? && 0 <= iterIdx.k < |instances| ==> r == Ok(Some(instances[iterIdx.k]))
      ensures iterIdx.Last? && !(0 <= iterIdx.k < |instances|) ==> r == Ok(None)
    {
      if iterIdx.Unset? {
        return Err(AttributeError);
      }
      var k := match iterIdx case Last(k) => k + 1 case _ => 0;
      iterIdx := Last(k);
      if 0 <= k < |instances| {
        r := Ok(Some(instances[k]));
      } else {
        r := Ok(None);
      }
    }
  }

  /**
   * `list(tobj)` / `for instance in tobj`: restarting the iterator and calling
   * `__next__` until StopIteration yields exactly the instances, in order, and
   * stops after `__len__` of them.
   */
  method Collect(o: TrackedObject) returns (xs: seq<Instance>)
    modifies o`iterIdx
    ensures xs == o.instances
    ensures |xs| == o.Length()
  {
    o.Iter();
    xs := [];
    var r := o.Next();
    while r.Ok? && r.value.Some?
      invariant o.instances == old(o.instances)
      invariant o.iterIdx.Last? && 0 <= o.iterIdx.k <= |o.instances|
      invariant xs == o.instances[..o.iterIdx.k]
      invariant r.Ok?
      invariant r.value.Some? <==> o.iterIdx.k < |o.instances|
      invariant r.value.Some? ==> r.value.value == o.instances[o.iterIdx.k]
      decreases |o.instances| - o.iterIdx.k
    {
      xs := xs + [r.value.value];
      r := o.Next();
    }
  }
}
