/**
 * The read-only views of the store (Masa/models/datahandler/datahandler.py):
 * the `instances` list, `from_frame`, `frames` and `object_class_mapping`.
 * Each is an accumulation over the objects in iteration order, written here
 * as a function, with a lemma tying it to an independent description.
 */
module Queries {
  import opened Wrappers
  import opened Data
  import opened Store

  /** The `instances` property: every object's instances, objects in iteration order. */
  function Flatten(s: Entries): (r: seq<Instance>)
    ensures |s| == 0 ==> r == []
  {
    if |s| == 0 then [] else s[0].1.instances + Flatten(s[1..])
  }

  /**
   * `instances` lists object after object: the list of a concatenation is
   * the two lists one after the other, and one object contributes exactly
   * its own instances, in order.
   */
  lemma {:induction false} FlattenConcat(a: Entries, b: Entries)
    ensures Flatten(a + b) == Flatten(a) + Flatten(b)
    ensures |a| == 1 ==> Flatten(a) == a[0].1.instances
  {
    if |a| > 0 {
      assert (a + b)[1..] == a[1..] + b;
      FlattenConcat(a[1..], b);
    } else {
      assert a + b == b;
    }
    if |a| == 1 {
      assert Flatten(a[1..]) == [];
    }
  }

  /** An instance is in `instances` exactly when some stored object holds it. */
  lemma {:induction false} FlattenMembers(s: Entries, x: Instance)
    ensures x in Flatten(s) <==> exists i :: 0 <= i < |s| && x in s[i].1.instances
  {
    if |s| > 0 {
      FlattenMembers(s[1..], x);
      if x in Flatten(s[1..]) {
        var i :| 0 <= i < |s[1..]| && x in s[1..][i].1.instances;
        assert x in s[i + 1].1.instances;
      }
      if exists i :: 0 <= i < |s| && x in s[i].1.instances {
        var i :| 0 <= i < |s| && x in s[i].1.instances;
        if i > 0 {
          assert x in s[1..][i - 1].1.instances;
        }
      }
    }
  }

  /** The instances of one list whose `frame_id` is `f`, in order. */
  function InFrame(xs: seq<Instance>, f: int): (r: seq<Instance>)
    ensures |r| <= |xs|
    ensures forall i :: 0 <= i < |r| ==> r[i].frameId == f
  {
    if |xs| == 0 then []
    else (if xs[0].frameId == f then [xs[0]] else []) + InFrame(xs[1..], f)
  }

  /** `from_frame(f)`: object by object, the matching instances of each. */
  function FromFrame(s: Entries, f: int): (r: seq<Instance>)
    ensures forall i :: 0 <= i < |r| ==> r[i].frameId == f
  {
    if |s| == 0 then [] else InFrame(s[0].1.instances, f) + FromFrame(s[1..], f)
  }

  lemma {:induction false} InFrameConcat(a: seq<Instance>, b: seq<Instance>, f: int)
    ensures InFrame(a + b, f) == InFrame(a, f) + InFrame(b, f)
  {
    if |a| == 0 {
      assert a + b == b;
    } else {
      assert (a + b)[1..] == a[1..] + b;
      InFrameConcat(a[1..], b, f);
    }
  }

  lemma {:induction false} InFrameMembers(xs: seq<Instance>, f: int, x: Instance)
    ensures x in InFrame(xs, f) <==> x in xs && x.frameId == f
  {
    if |xs| > 0 {
      InFrameMembers(xs[1..], f, x);
      assert xs == [xs[0]] + xs[1..];
    }
  }

  /**
   * `from_frame(f)` is the `instances` list filtered to frame `f`: the
   * matching instances in object order, then instance order, and an instance
   * is returned exactly when it is stored and belongs to frame `f`.
   */
  lemma {:induction false} FromFrameIsFilter(s: Entries, f: int)
    ensures FromFrame(s, f) == InFrame(Flatten(s), f)
    ensures forall x :: x in FromFrame(s, f) <==> x in Flatten(s) && x.frameId == f
  {
    if |s| > 0 {
      FromFrameIsFilter(s[1..], f);
      InFrameConcat(s[0].1.instances, Flatten(s[1..]), f);
    }
    forall x
      ensures x in FromFrame(s, f) <==> x in Flatten(s) && x.frameId == f
    {
      InFrameMembers(Flatten(s), f, x);
    }
  }

  predicate StrictlySorted(xs: seq<int>) {
    forall i, j :: 0 <= i < j < |xs| ==> xs[i] < xs[j]
  }

  /** Add `v` to a strictly increasing list, keeping it strictly increasing and free of repeats. */
  function InsertSorted(xs: seq<int>, v: int): (r: seq<int>)
    requires StrictlySorted(xs)
    ensures StrictlySorted(r)
    ensures forall y :: y in r <==> y in xs || y == v
  {
    if |xs| == 0 then [v]
    else if v < xs[0] then [v] + xs
    else if v == xs[0] then xs
    else
      var rest := InsertSorted(xs[1..], v);
      assert forall y :: y in xs[1..] ==> xs[0] < y;
      assert forall k :: 0 <= k < |rest| ==> rest[k] in rest && xs[0] < rest[k];
      [xs[0]] + rest
  }

  /** The frame ids of a list of instances, as `sorted(set(...))`. */
  function SortedFrames(xs: seq<Instance>): (r: seq<int>)
    ensures StrictlySorted(r)
  {
    if |xs| == 0 then [] else InsertSorted(SortedFrames(xs[..|xs| - 1]), xs[|xs| - 1].frameId)
  }

  /** `frames`: the distinct frame ids of all stored instances, ascending. */
  function Frames(s: Entries): (r: seq<int>)
    ensures StrictlySorted(r)
  {
    SortedFrames(Flatten(s))
  }

  lemma {:induction false} SortedFramesMembers(xs: seq<Instance>, f: int)
    ensures f in SortedFrames(xs) <==> exists x :: x in xs && x.frameId == f
  {
    if |xs| > 0 {
      var init := xs[..|xs| - 1];
      SortedFramesMembers(init, f);
      assert xs == init + [xs[|xs| - 1]];
      if f == xs[|xs| - 1].frameId {
        assert xs[|xs| - 1] in xs;
      }
      if exists x :: x in xs && x.frameId == f {
        var x :| x in xs && x.frameId == f;
        if x != xs[|xs| - 1] {
          assert x in init;
        }
      }
    }
  }

  /**
   * `frames` lists, in ascending order and without repeats, exactly the
   * frames for which `from_frame` returns something.
   */
  lemma FramesAreNonEmptyFrames(s: Entries, f: int)
    ensures f in Frames(s) <==> FromFrame(s, f) != []
  {
    SortedFramesMembers(Flatten(s), f);
    FromFrameIsFilter(s, f);
    if f in Frames(s) {
      var x :| x in Flatten(s) && x.frameId == f;
      assert x in FromFrame(s, f);
    }
    if FromFrame(s, f) != [] {
      assert FromFrame(s, f)[0] in FromFrame(s, f);
    }
  }

  /** The track ids of the objects of class `c`, in iteration order. */
  function TracksOfClass(s: Entries, c: string): (r: seq<int>)
    ensures |r| <= |s|
  {
    if |s| == 0 then []
    else TracksOfClass(s[..|s| - 1], c) + (if s[|s| - 1].1.objectClass == c then [s[|s| - 1].1.trackId] else [])
  }

  /** `{c: [] for c in object_classes}`. */
  function EmptyMapping(classes: seq<string>): (m: map<string, seq<int>>)
    ensures m.Keys == set c | c in classes
    ensures forall c :: c in m ==> m[c] == []
  {
    map c | c in classes :: []
  }

  /**
   * `object_class_mapping`: start from an empty list per configured class and
   * append each object's track id under its class; KeyError for an object of
   * a class that is not configured.
   */
  function ClassMapping(classes: seq<string>, s: Entries): Result<map<string, seq<int>>> {
    if |s| == 0 then Ok(EmptyMapping(classes))
    else match ClassMapping(classes, s[..|s| - 1])
      case Err(e) => Err(e)
      case Ok(m) =>
        var o := s[|s| - 1].1;
        if o.objectClass in m then Ok(m[o.objectClass := m[o.objectClass] + [o.trackId]])
        else Err(KeyError)
  }

  /**
   * The mapping succeeds exactly when every object's class is configured;
   * its keys are the configured classes and each holds the track ids of the
   * objects of that class, in iteration order.
   */
  lemma {:induction false} ClassMappingResult(classes: seq<string>, s: Entries)
    ensures ClassMapping(classes, s).Ok? <==> forall i :: 0 <= i < |s| ==> s[i].1.objectClass in classes
    ensures ClassMapping(classes, s).Ok? ==>
              ClassMapping(classes, s).value.Keys == (set c | c in classes)
              && forall c :: c in classes ==> ClassMapping(classes, s).value[c] == TracksOfClass(s, c)
  {
    if |s| > 0 {
      var init := s[..|s| - 1];
      ClassMappingResult(classes, init);
      assert forall i :: 0 <= i < |init| ==> init[i] == s[i];
      var r := ClassMapping(classes, s);
      if r.Ok? {
        forall c | c in classes
          ensures r.value[c] == TracksOfClass(s, c)
        {
          assert TracksOfClass(s, c) == TracksOfClass(init, c) + (if s[|s| - 1].1.objectClass == c then [s[|s| - 1].1.trackId] else []);
        }
      }
    }
  }
}
