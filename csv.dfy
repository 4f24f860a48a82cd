/**
 * The store's file form (Masa/models/datahandler/datahandler.py): rows read
 * by `_read_from_input` are validated and grouped into tracked objects, and
 * `_data_as_text` writes the store back as CSV text.
 *
 * A `Row` is a CSV record after the numeric columns were converted; the
 * conversion itself (`int`/`float` parsing) is not part of this model.
 */
module Csv {
  import opened Wrappers
  import opened Text
  import opened Data
  import opened Store
  import opened Queries

  /** The meta settings: configured object classes, each tag with its allowed values (in order), and the scene. */
  datatype Config = Config(classes: seq<string>, tags: seq<(string, seq<string>)>, scene: string)

  /** One CSV record: the fixed columns, converted, and every other column by header name. */
  datatype Row = Row(
    trackId: int, objectClass: string,
    x1: int, y1: int, x2: int, y2: int,
    frameId: int,
    columns: map<string, string>)

  // ---------------------------------------------------------------- validation

  /** The row has the tag's column and its value is one of the allowed ones. */
  predicate TagOk(tag: (string, seq<string>), cols: map<string, string>) {
    tag.0 in cols && cols[tag.0] in tag.1
  }

  /**
   * The tag loop of `_read_from_input`: each configured tag in order reads
   * the row's column (KeyError when absent) and accepts only an allowed
   * value (ValueError otherwise).
   */
  function RowTags(tags: seq<(string, seq<string>)>, cols: map<string, string>): (r: Result<map<string, string>>)
    ensures r.Ok? <==> forall i :: 0 <= i < |tags| ==> TagOk(tags[i], cols)
  {
    if |tags| == 0 then Ok(map[])
    else if tags[0].0 !in cols then Err(KeyError)
    else if cols[tags[0].0] !in tags[0].1 then Err(ValueError)
    else match RowTags(tags[1..], cols)
      case Err(e) => Err(e)
      case Ok(m) => Ok(m[tags[0].0 := cols[tags[0].0]])
  }

  /** The tags read from a row: every configured tag name, each with the row's value, and nothing else. */
  lemma {:induction false} RowTagsValues(tags: seq<(string, seq<string>)>, cols: map<string, string>)
    requires RowTags(tags, cols).Ok?
    ensures forall i :: 0 <= i < |tags| ==> tags[i].0 in RowTags(tags, cols).value
    ensures forall k :: k in RowTags(tags, cols).value ==> k in Firsts(tags) && k in cols && RowTags(tags, cols).value[k] == cols[k]
  {
    if |tags| > 0 {
      RowTagsValues(tags[1..], cols);
      assert Firsts(tags) == [tags[0].0] + Firsts(tags[1..]);
      forall i | 1 <= i < |tags| ensures tags[i].0 in RowTags(tags, cols).value {
        assert tags[1..][i - 1] == tags[i];
      }
    }
  }

  /**
   * A row becomes the dict `TrackedObject` is given: the class must be
   * configured (ValueError), then the tags are checked. The dict has six
   * keys (x1, x2, y1, y2, frame_id, tags).
   */
  function ValidateRow(cfg: Config, row: Row): (r: Result<InstanceDict>)
    ensures r.Ok? <==> row.objectClass in cfg.classes && RowTags(cfg.tags, row.columns).Ok?
    ensures row.objectClass !in cfg.classes ==> r == Err(ValueError)
    ensures r.Ok? ==> r.value.keyCount == 6 && r.value.tags == RowTags(cfg.tags, row.columns).value
  {
    if row.objectClass !in cfg.classes then Err(ValueError)
    else match RowTags(cfg.tags, row.columns)
      case Err(e) => Err(e)
      case Ok(tags) => Ok(InstanceDict(row.x1, row.y1, row.x2, row.y2, row.frameId, tags, 6))
  }

  // ---------------------------------------------------------------- grouping

  /** One row into the dict: a new object for an unseen track id, otherwise `add_instance(d, update=False)`. */
  function AddRow(s: Entries, t: int, cls: string, d: InstanceDict): Entries {
    match Find(s, t)
    case None => s + [(t, Seeded(t, cls, d))]
    case Some(i) => s[i := (t, AddInstanceSpec(s[i].1, DictArg(d), false))]
  }

  /** The row loop of `_read_from_input`; the first invalid row's error stops it. */
  function ReadRows(cfg: Config, rows: seq<Row>): Result<Entries> {
    if |rows| == 0 then Ok([])
    else match ReadRows(cfg, rows[..|rows| - 1])
      case Err(e) => Err(e)
      case Ok(s) =>
        var row := rows[|rows| - 1];
        match ValidateRow(cfg, row)
        case Err(e) => Err(e)
        case Ok(d) => Ok(AddRow(s, row.trackId, row.objectClass, d))
  }

  /** The closing loop of `_read_from_input`: `_update()` on every object. */
  function RenumberEach(s: Entries): (r: Entries)
    ensures |r| == |s|
    ensures forall i :: 0 <= i < |s| ==> r[i].0 == s[i].0 && r[i].1 == s[i].1.(instances := Renumber(s[i].1.instances))
  {
    seq(|s|, i requires 0 <= i < |s| => (s[i].0, s[i].1.(instances := Renumber(s[i].1.instances))))
  }

  /** What `_read_from_input` leaves in `tracked_objs`. */
  function Load(cfg: Config, rows: seq<Row>): Result<Entries> {
    match ReadRows(cfg, rows)
    case Err(e) => Err(e)
    case Ok(s) => Ok(RenumberEach(s))
  }

  function TrackIds(rows: seq<Row>): (r: seq<int>)
    ensures |r| == |rows| && forall i :: 0 <= i < |rows| ==> r[i] == rows[i].trackId
  {
    seq(|rows|, i requires 0 <= i < |rows| => rows[i].trackId)
  }

  /** The distinct values of a list, in order of first occurrence. */
  function FirstSeen(ts: seq<int>): (r: seq<int>)
    ensures forall t :: t in r <==> t in ts
    ensures forall i, j :: 0 <= i < j < |r| ==> r[i] != r[j]
  {
    if |ts| == 0 then []
    else
      var p := FirstSeen(ts[..|ts| - 1]);
      assert ts == ts[..|ts| - 1] + [ts[|ts| - 1]];
      if ts[|ts| - 1] in p then p else p + [ts[|ts| - 1]]
  }

  /** The rows carrying track id `t`, in order. */
  function Grouped(rows: seq<Row>, t: int): (g: seq<Row>)
    ensures |g| <= |rows|
    ensures forall k :: 0 <= k < |g| ==> g[k].trackId == t
  {
    if |rows| == 0 then []
    else Grouped(rows[..|rows| - 1], t) + (if rows[|rows| - 1].trackId == t then [rows[|rows| - 1]] else [])
  }

  lemma GroupedSnoc(init: seq<Row>, row: Row, t: int)
    ensures Grouped(init + [row], t) == Grouped(init, t) + (if row.trackId == t then [row] else [])
  {
    assert (init + [row])[..|init|] == init;
  }

  /** The instance the `j`-th row of object `t` (of class `cls`) becomes. */
  function RowInstance(cfg: Config, t: int, cls: string, j: nat, row: Row): Instance
    requires ValidateRow(cfg, row).Ok?
  {
    Instance(t, cls, j, row.x1, row.y1, row.x2, row.y2, row.frameId, ValidateRow(cfg, row).value.tags)
  }

  /**
   * Object `o` under key `t` is what the rows of track id `t` make: at least
   * one row, the class of the first, one instance per row in row order with
   * ids 0, 1, ..., and the seed dict's six keys.
   */
  predicate GroupOk(cfg: Config, rows: seq<Row>, t: int, o: TObj) {
    var g := Grouped(rows, t);
    && (forall k :: 0 <= k < |g| ==> ValidateRow(cfg, g[k]).Ok?)
    && |g| >= 1 && o.trackId == t && o.seedLen == 6
    && o.objectClass == g[0].objectClass
    && |o.instances| == |g|
    && (forall j :: 0 <= j < |g| ==> o.instances[j] == RowInstance(cfg, t, o.objectClass, j, g[j]))
  }

  /** The grouping: keys are the track ids in order of first appearance, each object built from its rows. */
  predicate Grouping(cfg: Config, rows: seq<Row>, s: Entries) {
    && Firsts(s) == FirstSeen(TrackIds(rows))
    && (forall i :: 0 <= i < |s| ==> GroupOk(cfg, rows, s[i].0, s[i].1))
  }

  lemma {:induction false} GroupedAbsent(rows: seq<Row>, t: int)
    requires forall i :: 0 <= i < |rows| ==> rows[i].trackId != t
    ensures Grouped(rows, t) == []
  {
    if |rows| > 0 {
      GroupedAbsent(rows[..|rows| - 1], t);
    }
  }

  /** Every row is valid, checked from the last row back. */
  predicate AllValid(cfg: Config, rows: seq<Row>) {
    |rows| == 0 || (AllValid(cfg, rows[..|rows| - 1]) && ValidateRow(cfg, rows[|rows| - 1]).Ok?)
  }

  lemma AllValidEach(cfg: Config, rows: seq<Row>)
    ensures AllValid(cfg, rows) <==> forall i :: 0 <= i < |rows| ==> ValidateRow(cfg, rows[i]).Ok?
  {
    if AllValid(cfg, rows) {
      forall i | 0 <= i < |rows| ensures ValidateRow(cfg, rows[i]).Ok? {
        AllValidAt(cfg, rows, i);
      }
    } else {
      var i := InvalidAt(cfg, rows);
    }
  }

  lemma {:induction false} AllValidAt(cfg: Config, rows: seq<Row>, i: nat)
    requires AllValid(cfg, rows) && i < |rows|
    ensures ValidateRow(cfg, rows[i]).Ok?
  {
    var init := rows[..|rows| - 1];
    if i < |init| {
      AllValidAt(cfg, init, i);
      assert rows[i] == init[i];
    }
  }

  /** Rows that are not all valid hold an invalid one. */
  lemma {:induction false} InvalidAt(cfg: Config, rows: seq<Row>) returns (i: nat)
    requires !AllValid(cfg, rows)
    ensures i < |rows| && ValidateRow(cfg, rows[i]).Err?
  {
    var init := rows[..|rows| - 1];
    if !AllValid(cfg, init) {
      i := InvalidAt(cfg, init);
      assert rows[i] == init[i];
    } else {
      i := |rows| - 1;
    }
  }

  lemma {:induction false} ReadRowsAllValid(cfg: Config, rows: seq<Row>)
    ensures ReadRows(cfg, rows).Ok? <==> AllValid(cfg, rows)
  {
    if |rows| > 0 {
      ReadRowsAllValid(cfg, rows[..|rows| - 1]);
    }
  }

  /** The row loop goes through exactly when every row is valid. */
  lemma ReadRowsOk(cfg: Config, rows: seq<Row>)
    ensures ReadRows(cfg, rows).Ok? <==> forall i :: 0 <= i < |rows| ==> ValidateRow(cfg, rows[i]).Ok?
  {
    ReadRowsAllValid(cfg, rows);
    AllValidEach(cfg, rows);
  }

  /** A successful row loop groups the rows by track id in order of first appearance. */
  lemma {:induction false} ReadRowsGroups(cfg: Config, rows: seq<Row>)
    ensures ReadRows(cfg, rows).Ok? ==> Grouping(cfg, rows, ReadRows(cfg, rows).value)
  {
    if |rows| > 0 && ReadRows(cfg, rows).Ok? {
      var init := rows[..|rows| - 1];
      var row := rows[|rows| - 1];
      ReadRowsGroups(cfg, init);
      assert rows == init + [row];
      ReadRowsStep(cfg, init, row, ReadRows(cfg, init).value);
    }
  }

  /** One more valid row keeps the grouping. */
  lemma ReadRowsStep(cfg: Config, init: seq<Row>, row: Row, s: Entries)
    requires Grouping(cfg, init, s)
    requires ValidateRow(cfg, row).Ok?
    ensures Grouping(cfg, init + [row], AddRow(s, row.trackId, row.objectClass, ValidateRow(cfg, row).value))
  {
    var rows := init + [row];
    var t := row.trackId;
    var d := ValidateRow(cfg, row).value;
    var s1 := AddRow(s, t, row.objectClass, d);
    assert TrackIds(rows) == TrackIds(init) + [t];
    assert rows[..|rows| - 1] == init;
    forall i | 0 <= i < |s1|
      ensures GroupOk(cfg, rows, s1[i].0, s1[i].1)
    {
      GroupStep(cfg, init, row, s, i);
    }
    match Find(s, t) {
      case None =>
        assert t !in Firsts(s);
        assert Firsts(s1) == Firsts(s) + [t];
      case Some(p) =>
        assert t in Firsts(s);
        assert Firsts(s1) == Firsts(s);
    }
  }

  /** One row's effect on entry `i` of the grouping. */
  lemma GroupStep(cfg: Config, init: seq<Row>, row: Row, s: Entries, i: nat)
    requires Grouping(cfg, init, s)
    requires ValidateRow(cfg, row).Ok?
    requires i < |AddRow(s, row.trackId, row.objectClass, ValidateRow(cfg, row).value)|
    ensures var s1 := AddRow(s, row.trackId, row.objectClass, ValidateRow(cfg, row).value);
      GroupOk(cfg, init + [row], s1[i].0, s1[i].1)
  {
    var t := row.trackId;
    var d := ValidateRow(cfg, row).value;
    var s1 := AddRow(s, t, row.objectClass, d);
    var k := s1[i].0;
    GroupedSnoc(init, row, k);
    match Find(s, t) {
      case None =>
        if i == |s| {
          GroupStepNew(cfg, init, row, s);
        } else {
          assert s1[i] == s[i];
          assert k != t by { assert Firsts(s)[i] == k; }
          assert GroupOk(cfg, init, k, s[i].1);
        }
      case Some(p) =>
        if i == p {
          GroupStepAppend(cfg, init, row, s, p);
        } else {
          assert s1[i] == s[i];
          assert k != t by { assert Firsts(s)[i] == k && Firsts(s)[p] == t; }
          assert GroupOk(cfg, init, k, s[i].1);
        }
    }
  }

  /** The first row of a track id makes a new object of one instance. */
  lemma GroupStepNew(cfg: Config, init: seq<Row>, row: Row, s: Entries)
    requires Grouping(cfg, init, s)
    requires ValidateRow(cfg, row).Ok?
    requires Find(s, row.trackId).None?
    ensures GroupOk(cfg, init + [row], row.trackId, Seeded(row.trackId, row.objectClass, ValidateRow(cfg, row).value))
  {
    var t := row.trackId;
    var d := ValidateRow(cfg, row).value;
    assert t !in TrackIds(init) by { assert t !in Firsts(s); }
    forall i | 0 <= i < |init| ensures init[i].trackId != t {
      assert TrackIds(init)[i] == init[i].trackId;
    }
    GroupedAbsent(init, t);
    GroupedSnoc(init, row, t);
    var g := Grouped(init + [row], t);
    assert g == [row];
    var o := Seeded(t, row.objectClass, d);
    assert o.instances[0] == RowInstance(cfg, t, o.objectClass, 0, g[0]);
  }

  /** A later row of a track id is appended to its object. */
  lemma GroupStepAppend(cfg: Config, init: seq<Row>, row: Row, s: Entries, p: nat)
    requires Grouping(cfg, init, s)
    requires ValidateRow(cfg, row).Ok?
    requires p < |s| && s[p].0 == row.trackId
    ensures GroupOk(cfg, init + [row], row.trackId, AddInstanceSpec(s[p].1, DictArg(ValidateRow(cfg, row).value), false))
  {
    var t := row.trackId;
    var d := ValidateRow(cfg, row).value;
    var o := s[p].1;
    assert GroupOk(cfg, init, t, o);
    var o1 := AddInstanceSpec(o, DictArg(d), false);
    assert AddPosition(o, DictArg(d)) == |o.instances|;
    assert o1.instances == o.instances + [DictToInstance(o, d)];
    GroupedSnoc(init, row, t);
  }

  /**
   * `_read_from_input` succeeds exactly when every row is valid; the objects
   * are then keyed by track id in order of first appearance, each holding
   * its rows' instances in row order with dense ids, and the closing
   * per-object `_update()` changes nothing.
   */
  lemma LoadResult(cfg: Config, rows: seq<Row>)
    ensures Load(cfg, rows).Ok? <==> forall i :: 0 <= i < |rows| ==> ValidateRow(cfg, rows[i]).Ok?
    ensures Load(cfg, rows).Ok? ==> Load(cfg, rows) == ReadRows(cfg, rows)
    ensures Load(cfg, rows).Ok? ==> Grouping(cfg, rows, Load(cfg, rows).value) && DistinctKeys(Load(cfg, rows).value)
    ensures Load(cfg, rows).Ok? ==> IdsDense(Load(cfg, rows).value)
  {
    ReadRowsOk(cfg, rows);
    ReadRowsGroups(cfg, rows);
    if ReadRows(cfg, rows).Ok? {
      var s := ReadRows(cfg, rows).value;
      assert forall i :: 0 <= i < |s| ==> DenseIds(s[i].1.instances) by {
        forall i | 0 <= i < |s| ensures DenseIds(s[i].1.instances) {
          assert GroupOk(cfg, rows, s[i].0, s[i].1);
        }
      }
      assert RenumberEach(s) == s by {
        forall i | 0 <= i < |s| ensures RenumberEach(s)[i] == s[i] {
          assert Renumber(s[i].1.instances) == s[i].1.instances;
        }
      }
      assert DistinctKeys(s) by {
        forall i, j | 0 <= i < j < |s| ensures s[i].0 != s[j].0 {
          assert Firsts(s)[i] == s[i].0 && Firsts(s)[j] == s[j].0;
        }
      }
    }
  }

  /**
   * After `__init__`'s closing `_update()`, the loaded store is consistent
   * unless it holds a single object whose track id is not 0: that one keeps
   * its key (the `sort_ok` test passes for one key).
   */
  lemma LoadedConsistent(cfg: Config, rows: seq<Row>)
    requires Load(cfg, rows).Ok?
    ensures var s := Load(cfg, rows).value;
      Consistent(UpdateAll(s)) <==> !(|s| == 1 && s[0].0 != 0)
  {
    LoadResult(cfg, rows);
    var s := Load(cfg, rows).value;
    UpdateAllResult(s);
    if |s| == 1 {
      assert GroupOk(cfg, rows, s[0].0, s[0].1);
      if s[0].0 == 0 {
        assert ObjConsistent(s[0].1, 0);
      }
    }
  }

  /** Once a prefix of the rows fails, the whole row loop fails with that error. */
  lemma {:induction false} ReadRowsStops(cfg: Config, rows: seq<Row>, n: nat)
    requires n <= |rows| && ReadRows(cfg, rows[..n]).Err?
    ensures ReadRows(cfg, rows) == ReadRows(cfg, rows[..n])
    decreases |rows| - n
  {
    if n < |rows| {
      var init := rows[..|rows| - 1];
      assert init[..n] == rows[..n];
      ReadRowsStops(cfg, init, n);
    } else {
      assert rows[..n] == rows;
    }
  }

  /** One more row of the loop: its error, or the dict with the row added. */
  lemma ReadRowsNext(cfg: Config, rows: seq<Row>, i: nat, s: Entries)
    requires i < |rows| && ReadRows(cfg, rows[..i]) == Ok(s)
    ensures ValidateRow(cfg, rows[i]).Err? ==> ReadRows(cfg, rows[..i + 1]) == Err(ValidateRow(cfg, rows[i]).error)
    ensures ValidateRow(cfg, rows[i]).Ok? ==>
              ReadRows(cfg, rows[..i + 1]) == Ok(AddRow(s, rows[i].trackId, rows[i].objectClass, ValidateRow(cfg, rows[i]).value))
  {
    assert rows[..i + 1][..i] == rows[..i];
  }

  /**
   * One row into the dict: `TrackedObject(...)` under an unseen track id,
   * `add_instance(d, update=False)` on the stored object otherwise.
   */
  method PutRow(s: Entries, t: int, cls: string, d: InstanceDict) returns (s': Entries)
    ensures s' == AddRow(s, t, cls, d)
  {
    match Find(s, t) {
      case None =>
        s' := s + [(t, Seeded(t, cls, d))];
      case Some(p) =>
        s' := s[p := (t, AddInstanceSpec(s[p].1, DictArg(d), false))];
    }
  }

  /**
   * `_read_from_input` over already converted rows: the row loop fills the
   * dict (a new object per unseen track id, `add_instance(update=False)`
   * otherwise) and stops at the first invalid row; then every object is
   * renumbered by `_update()`.
   */
  method ReadFromInput(cfg: Config, rows: seq<Row>) returns (r: Result<Entries>)
    ensures r == Load(cfg, rows)
  {
    var s: Entries := [];
    var i := 0;
    while i < |rows|
      invariant 0 <= i <= |rows|
      invariant ReadRows(cfg, rows[..i]) == Ok(s)
    {
      var row := rows[i];
      ReadRowsNext(cfg, rows, i, s);
      match ValidateRow(cfg, row) {
        case Err(e) =>
          ReadRowsStops(cfg, rows, i + 1);
          return Err(e);
        case Ok(d) =>
          s := PutRow(s, row.trackId, row.objectClass, d);
      }
      i := i + 1;
    }
    assert rows[..i] == rows;
    s := RenumberObjects(s);
    r := Ok(s);
  }

  /** `for tracked_obj in self.tracked_objs.values(): tracked_obj._update()`. */
  method RenumberObjects(read: Entries) returns (s: Entries)
    ensures s == RenumberEach(read)
  {
    s := read;
    var j := 0;
    while j < |s|
      invariant 0 <= j <= |s| == |read|
      invariant forall k :: 0 <= k < j ==> s[k] == RenumberEach(read)[k]
      invariant forall k :: j <= k < |s| ==> s[k] == read[k]
    {
      s := s[j := (s[j].0, s[j].1.(instances := Renumber(s[j].1.instances)))];
      j := j + 1;
    }
  }

  // ---------------------------------------------------------------- serialisation

  const FixedHeader: seq<string> := ["frame_id", "track_id", "x1", "y1", "x2", "y2", "scene", "object_class"]

  /** The header fields: the fixed columns, then the tag names. */
  function Header(cfg: Config): seq<string> {
    FixedHeader + Firsts(cfg.tags)
  }

  /** `[ins.tags[tag] for tag in all_tags]`: KeyError when the instance lacks a tag. */
  function TagValues(names: seq<string>, tags: map<string, string>): (r: Result<seq<string>>)
    ensures r.Ok? <==> forall i :: 0 <= i < |names| ==> names[i] in tags
    ensures r.Ok? ==> |r.value| == |names| && forall i :: 0 <= i < |names| ==> r.value[i] == tags[names[i]]
  {
    if |names| == 0 then Ok([])
    else if names[0] !in tags then Err(KeyError)
    else match TagValues(names[1..], tags)
      case Err(e) => Err(e)
      case Ok(vs) => Ok([tags[names[0]]] + vs)
  }

  /** The fields of one data row: track id before frame id, then the joined tag values as one last field. */
  function RowFields(cfg: Config, x: Instance, vals: seq<string>): seq<string> {
    [IntToString(x.trackId), IntToString(x.frameId),
     IntToString(x.x1), IntToString(x.y1), IntToString(x.x2), IntToString(x.y2),
     cfg.scene, x.objectClass, Join(vals, ',')]
  }

  /** One data row of `_data_as_text` (without its newline). */
  function RowLine(cfg: Config, x: Instance): Result<string> {
    match TagValues(Firsts(cfg.tags), x.tags)
    case Err(e) => Err(e)
    case Ok(vals) => Ok(Join(RowFields(cfg, x, vals), ','))
  }

  /** The row loop of `_data_as_text`: each row followed by a newline. */
  function Body(cfg: Config, xs: seq<Instance>): Result<string> {
    if |xs| == 0 then Ok("")
    else match Body(cfg, xs[..|xs| - 1])
      case Err(e) => Err(e)
      case Ok(b) =>
        match RowLine(cfg, xs[|xs| - 1])
        case Err(e) => Err(e)
        case Ok(line) => Ok(b + line + "\n")
  }

  /** `_data_as_text()`: header line, rows in store order, and the final newline cut off (`data[:-1]`). */
  function DataAsText(cfg: Config, s: Entries): Result<string> {
    var head := Join(Header(cfg), ',') + "\n";
    match Body(cfg, Flatten(s))
    case Err(e) => Err(e)
    case Ok(b) =>
      var data := head + b;
      Ok(data[..|data| - 1])
  }

  /** The data rows, one per instance. */
  function Lines(cfg: Config, xs: seq<Instance>): (r: Result<seq<string>>)
    ensures r.Ok? ==> |r.value| == |xs|
  {
    if |xs| == 0 then Ok([])
    else
      match Lines(cfg, xs[..|xs| - 1])
      case Err(e) => Err(e)
      case Ok(ls) =>
        match RowLine(cfg, xs[|xs| - 1])
        case Err(e) => Err(e)
        case Ok(line) => Ok(ls + [line])
  }

  /** The rows are rendered exactly when every instance renders, each row the rendering of its instance. */
  lemma LinesResult(cfg: Config, xs: seq<Instance>)
    ensures Lines(cfg, xs).Ok? <==> forall i :: 0 <= i < |xs| ==> RowLine(cfg, xs[i]).Ok?
    ensures Lines(cfg, xs).Ok? ==> forall i :: 0 <= i < |xs| ==> RowLine(cfg, xs[i]) == Ok(Lines(cfg, xs).value[i])
  {
    if Lines(cfg, xs).Ok? {
      forall i | 0 <= i < |xs| ensures RowLine(cfg, xs[i]) == Ok(Lines(cfg, xs).value[i]) {
        LinesAt(cfg, xs, i);
      }
    } else {
      var i := LinesFailAt(cfg, xs);
    }
  }

  /** Row `i` of the rendered rows is the rendering of instance `i`. */
  lemma {:induction false} LinesAt(cfg: Config, xs: seq<Instance>, i: nat)
    requires Lines(cfg, xs).Ok? && i < |xs|
    ensures RowLine(cfg, xs[i]) == Ok(Lines(cfg, xs).value[i])
  {
    var init := xs[..|xs| - 1];
    var ls := Lines(cfg, init).value;
    assert Lines(cfg, xs).value == ls + [RowLine(cfg, xs[|xs| - 1]).value];
    if i < |init| {
      LinesAt(cfg, init, i);
      assert xs[i] == init[i];
    }
  }

  /** A failed rendering names an instance that does not render. */
  lemma {:induction false} LinesFailAt(cfg: Config, xs: seq<Instance>) returns (i: nat)
    requires Lines(cfg, xs).Err?
    ensures i < |xs| && RowLine(cfg, xs[i]).Err?
  {
    var init := xs[..|xs| - 1];
    if Lines(cfg, init).Err? {
      i := LinesFailAt(cfg, init);
      assert xs[i] == init[i];
    } else {
      i := |xs| - 1;
    }
  }

  lemma {:induction false} BodyJoin(cfg: Config, xs: seq<Instance>)
    ensures Body(cfg, xs).Ok? <==> Lines(cfg, xs).Ok?
    ensures Body(cfg, xs).Ok? && |xs| == 0 ==> Body(cfg, xs).value == ""
    ensures Body(cfg, xs).Ok? && |xs| >= 1 ==> Body(cfg, xs).value == Join(Lines(cfg, xs).value, '\n') + "\n"
  {
    if |xs| > 0 {
      var init := xs[..|xs| - 1];
      BodyJoin(cfg, init);
      if Body(cfg, xs).Ok? && |init| >= 1 {
        JoinAppend(Lines(cfg, init).value, [RowLine(cfg, xs[|xs| - 1]).value], '\n');
      }
    }
  }

  /**
   * `_data_as_text` writes the header, then one row per instance of the
   * `instances` list, separated by newlines with none at the end. It fails
   * (KeyError) exactly when some instance lacks a configured tag.
   */
  lemma DataAsTextLines(cfg: Config, s: Entries)
    ensures DataAsText(cfg, s).Ok? <==> Lines(cfg, Flatten(s)).Ok?
    ensures DataAsText(cfg, s).Ok? ==>
              DataAsText(cfg, s).value == Join([Join(Header(cfg), ',')] + Lines(cfg, Flatten(s)).value, '\n')
  {
    var xs := Flatten(s);
    BodyJoin(cfg, xs);
    if DataAsText(cfg, s).Ok? {
      var h := Join(Header(cfg), ',');
      var ls := Lines(cfg, xs).value;
      if |xs| == 0 {
        assert ls == [];
        assert [h] + ls == [h];
        assert (h + "\n")[..|h|] == h;
      } else {
        JoinAppend([h], ls, '\n');
        var b := Join(ls, '\n');
        assert h + "\n" + (b + "\n") == (h + "\n" + b) + "\n";
      }
    }
  }

  /** No value the writer copies contains `c`. */
  predicate FreeOf(cfg: Config, xs: seq<Instance>, c: char) {
    && c !in cfg.scene
    && (forall i :: 0 <= i < |cfg.tags| ==> c !in cfg.tags[i].0)
    && (forall i :: 0 <= i < |xs| ==> c !in xs[i].objectClass)
    && (forall i, k :: 0 <= i < |xs| && k in xs[i].tags ==> c !in xs[i].tags[k])
  }

  lemma IntFree(i: int, c: char)
    requires c != '-' && !IsDigit(c)
    ensures c !in IntToString(i)
  {
    var r := IntToString(i);
    forall k | 0 <= k < |r| ensures r[k] != c {}
  }

  lemma RowLineFree(cfg: Config, xs: seq<Instance>, i: nat, c: char)
    requires i < |xs| && RowLine(cfg, xs[i]).Ok?
    requires FreeOf(cfg, xs, c) && c != ',' && c != '-' && !IsDigit(c)
    ensures c !in RowLine(cfg, xs[i]).value
  {
    var x := xs[i];
    var vals := TagValues(Firsts(cfg.tags), x.tags).value;
    JoinFree(vals, ',', c);
    var fs := RowFields(cfg, x, vals);
    IntFree(x.trackId, c); IntFree(x.frameId, c);
    IntFree(x.x1, c); IntFree(x.y1, c); IntFree(x.x2, c); IntFree(x.y2, c);
    JoinFree(fs, ',', c);
  }

  /** No rendered row contains a character that none of the copied values contain. */
  lemma LinesFree(cfg: Config, xs: seq<Instance>, c: char)
    requires Lines(cfg, xs).Ok?
    requires FreeOf(cfg, xs, c) && c != ',' && c != '-' && !IsDigit(c)
    ensures forall i :: 0 <= i < |Lines(cfg, xs).value| ==> c !in Lines(cfg, xs).value[i]
  {
    forall i | 0 <= i < |Lines(cfg, xs).value| ensures c !in Lines(cfg, xs).value[i] {
      LinesAt(cfg, xs, i);
      RowLineFree(cfg, xs, i, c);
    }
  }

  /**
   * Splitting the text at newlines gives back the header and the rows, when
   * no scene, class, tag name or tag value contains a newline.
   */
  lemma DataAsTextSplits(cfg: Config, s: Entries)
    requires DataAsText(cfg, s).Ok?
    requires FreeOf(cfg, Flatten(s), '\n')
    ensures Lines(cfg, Flatten(s)).Ok?
    ensures Split(DataAsText(cfg, s).value, '\n') == [Join(Header(cfg), ',')] + Lines(cfg, Flatten(s)).value
  {
    DataAsTextLines(cfg, s);
    var xs := Flatten(s);
    var ls := Lines(cfg, xs).value;
    var h := Join(Header(cfg), ',');
    HeaderNoNewline(cfg);
    LinesFree(cfg, xs, '\n');
    SplitLines(h, ls);
  }

  /** Lines free of newlines, joined by newlines, split back into themselves. */
  lemma SplitLines(h: string, ls: seq<string>)
    requires '\n' !in h && forall i :: 0 <= i < |ls| ==> '\n' !in ls[i]
    ensures Split(Join([h] + ls, '\n'), '\n') == [h] + ls
  {
    var parts := [h] + ls;
    assert forall i :: 0 < i < |parts| ==> parts[i] == ls[i - 1];
    SplitJoin(parts, '\n');
  }

  lemma HeaderNoNewline(cfg: Config)
    requires forall i :: 0 <= i < |cfg.tags| ==> '\n' !in cfg.tags[i].0
    ensures '\n' !in Join(Header(cfg), ',')
  {
    HeaderFree(cfg, '\n');
  }

  lemma HeaderFree(cfg: Config, c: char)
    requires c != ',' && c !in "frame_idtrack_idx1y1x2y2sceneobject_class"
    requires forall i :: 0 <= i < |cfg.tags| ==> c !in cfg.tags[i].0
    ensures c !in Join(Header(cfg), ',')
  {
    var hs := Header(cfg);
    forall i | 0 <= i < |hs| ensures c !in hs[i] {
      if i >= |FixedHeader| {
        assert hs[i] == cfg.tags[i - |FixedHeader|].0;
      } else {
        assert forall k :: 0 <= k < |hs[i]| ==> hs[i][k] in "frame_idtrack_idx1y1x2y2sceneobject_class";
      }
    }
    JoinFree(hs, ',', c);
  }

  /**
   * The column swap of `_data_as_text`: the header names `frame_id` first
   * and `track_id` second, but every row writes the track id first and the
   * frame id second. Split at commas (no comma in the scene, class or tag
   * values), a row is the eight fixed fields, then the tag values, or one
   * empty field when no tags are configured.
   */
  lemma RowColumns(cfg: Config, xs: seq<Instance>, i: nat)
    requires i < |xs| && RowLine(cfg, xs[i]).Ok?
    requires FreeOf(cfg, xs, ',')
    ensures Header(cfg)[0] == "frame_id" && Header(cfg)[1] == "track_id"
    ensures var fields := Split(RowLine(cfg, xs[i]).value, ',');
      && |fields| == 8 + (if |cfg.tags| == 0 then 1 else |cfg.tags|)
      && ParseInt(fields[0]) == Some(xs[i].trackId)
      && ParseInt(fields[1]) == Some(xs[i].frameId)
      && fields[6] == cfg.scene && fields[7] == xs[i].objectClass
      && (|cfg.tags| == 0 ==> fields[8] == "")
      && (forall k :: 0 <= k < |cfg.tags| ==> fields[8 + k] == xs[i].tags[cfg.tags[k].0])
  {
    var x := xs[i];
    var vals := TagValues(Firsts(cfg.tags), x.tags).value;
    RowSplit(cfg, xs, i);
    IntRoundTrip(x.trackId);
    IntRoundTrip(x.frameId);
  }

  /** A comma-free row splits at commas into its eight fixed fields, then the tag values (or one empty field). */
  lemma RowSplit(cfg: Config, xs: seq<Instance>, i: nat)
    requires i < |xs| && RowLine(cfg, xs[i]).Ok?
    requires FreeOf(cfg, xs, ',')
    ensures var vals := TagValues(Firsts(cfg.tags), xs[i].tags).value;
      Split(RowLine(cfg, xs[i]).value, ',') == RowFields(cfg, xs[i], vals)[..8] + (if |vals| == 0 then [""] else vals)
  {
    var x := xs[i];
    var vals := TagValues(Firsts(cfg.tags), x.tags).value;
    forall k | 0 <= k < |vals| ensures ',' !in vals[k] {
      assert vals[k] == x.tags[Firsts(cfg.tags)[k]];
    }
    FieldsSplit(cfg, x, vals);
  }

  /** The fields of a row split back apart when none of the texts holds a comma. */
  lemma FieldsSplit(cfg: Config, x: Instance, vals: seq<string>)
    requires ',' !in cfg.scene && ',' !in x.objectClass
    requires forall k :: 0 <= k < |vals| ==> ',' !in vals[k]
    ensures Split(Join(RowFields(cfg, x, vals), ','), ',') == RowFields(cfg, x, vals)[..8] + (if |vals| == 0 then [""] else vals)
  {
    var fixed := RowFields(cfg, x, vals)[..8];
    var tail := if |vals| == 0 then [""] else vals;
    assert Join(vals, ',') == Join(tail, ',');
    JoinAppend(fixed, tail, ',');
    assert RowFields(cfg, x, vals) == fixed + [Join(vals, ',')];
    JoinAppend(fixed, [Join(vals, ',')], ',');
    IntFree(x.trackId, ','); IntFree(x.frameId, ',');
    IntFree(x.x1, ','); IntFree(x.y1, ','); IntFree(x.x2, ','); IntFree(x.y2, ',');
    SplitJoin(fixed + tail, ',');
  }
}
