# Masa annotation store and playback engine, in Dafny

Masa is a video-annotation tool. The project models its core in Dafny and
proves properties of the model:

- **The annotation records** (`Data`). A `TrackedObject` owns an ordered list
  of `Instance` bounding boxes. The class `Data.TrackedObject` updates its
  fields in place, like the source does. The functions over its value
  (`TObj`) specify what each method does.
- **The annotation store** (`Store`, `Handler`). `DataHandler.tracked_objs`
  maps integer keys to tracked objects. A Python dict iterates in insertion
  order, so it is modelled as the sequence of its (key, object) pairs.
  - Every mutation is a function in `Store` from the entries before to the
    entries after, plus the exception it raised. Several operations raise
    only after they have changed the store.
  - The class `Handler.DataHandler` implements the same steps with loops and
    is proved equal to those functions.
  - The lemmas state the store invariant the renumbering is meant to keep:
    keys 0..n-1 in order, each key equal to its object's and its instances'
    track id. They also show where the code departs from that invariant.
- **The read-only views** (`Queries`): `instances`, `from_frame`, `frames` and
  `object_class_mapping`.
- **The file form** (`Csv`).
  - Reading: rows are validated and grouped into objects by first-seen track
    id (`_read_from_input`).
  - Writing: the store is written back as CSV text (`_data_as_text`), with
    `str.join`, `str.split` and `str(int)` in `Text`.
- **The playback engine** (`Playback`). The `Buffer` index machine covers
  `update_index`, play/pause/stop, `get_frame` and `set_backward`. `Step`
  models one iteration of the `run` loop. It reads from the frame source in
  `Video`: the `OpenCVVideoCapture` test double, a cursor over generated
  frames.
- **The geometry helpers** (`Geometry`): `resize_calculator` and the
  unscaled integer paths of `BoundingBoxConverter`. Python's `int()` of a
  quotient truncates toward zero, which `TruncDiv` and `Half` write out.

Behaviours of the code that the model keeps as written, each stated by a
lemma:

- **Insertion guard.** The guard of `add_instance` compares a record's id
  with the length of the seed dict the object was built from (`seedLen`,
  6 for parsed rows), not with the length of the list
  (`Store.ReplacedPlacement`).
- **`sort_ok`.** The test in `_update` compares neighbouring keys for
  equality. It holds only for stores of at most one key, so a lone object
  keeps a key other than 0 (`Store.UpdateKeepsLoneKey`,
  `Csv.LoadedConsistent`).
- **`move` to the front.** With the `<=` correction, moving an object into
  track 0 can wipe the store (`Store.MoveToFrontWipes`).
- **`_data_as_text` columns.** Each row writes the track id before the frame
  id, while the header names `frame_id` first (`Csv.RowColumns`).
- **`read_all`.** It raises TypeError before restoring the cursor whenever
  it read any frame (`Video.VideoCapture.ReadAll`). With no frames,
  `np.ndarray([])` is a 0-dimensional array, not an empty one.
- **Falsy update packets.** `data_update_sl` dispatches on truthiness, so a
  packet with no field set, or with an empty tracked object as `added`,
  runs no operation but still runs `_update()` and counts towards the
  autosave (`Handler.FalsyPacketUpdates`).
- **`__next__` before `__iter__`.** `_iter_idx` exists only once `__iter__`
  has run, so `next` on a fresh object raises AttributeError
  (`Data.TrackedObject.Next`).

One behaviour holds only with a line of the code skipped:

- **`set_backward`.** As written, `set_backward` raises NameError at
  Masa/models/buffer.py:110, because `EpipolarTrack` is never imported, so
  `idx` is never cleared. With that line skipped, as Masa/tests/unit/test_buffer.py
  expects, it clears `idx` but not `prev_idx`. The first step after a change
  of direction can then report the end of the video at once
  (`Playback.StalePrevEndsAtOnce`, `Playback.StalePrevReadsOn`, about
  `Playback.Buffer.SetBackward` with that line skipped).

## Model

| member | source | states |
|---|---|---|
| Data.PyIndex | Masa/core/data/data.py:93-94 | a Python index addresses an element exactly when it lies in -len..len-1, a negative one counting from the end |
| Data.InsertPos | Masa/core/data/data.py:58 | `list.insert` position: the index when in 0..len, len above that, len+i for a negative index, 0 below -len |
| Data.Renumber | Masa/core/data/data.py:68-71 | after `_update` every id equals its index and nothing but the ids changed |
| Data.Guarded | Masa/core/data/data.py:53-54 | the guard changes at most the record's instance id |
| Data.AddPosition | Masa/core/data/data.py:47-58 | a dict is always appended; a record with id above seedLen is appended; an id in 0..seedLen lands at min(id, len); a negative id follows `list.insert` |
| Data.AddInstanceSpec | Masa/core/data/data.py:46-61 | the list grows by exactly one, the new record at AddPosition, earlier records in place, later ones one up; ids dense with `update`; without it no stored record changes |
| Data.ChangeTrack | Masa/core/data/data.py:81-85 | object and every instance carry the new track id; class, order and every other field unchanged; dense ids stay dense |
| Data.DeleteSpec | Masa/core/data/data.py:87-91 | IndexError exactly outside -len..len-1; otherwise exactly the addressed record is gone, length minus one, ids dense with `update`, stale without |
| Data.Seeded | Masa/core/data/data.py:43-44 | construction from a dict seed yields one instance with id 0 under the object's track id and class, well formed |
| Data.AddKeepsConsistent | Masa/core/data/data.py:46-71 | with `update`, adding to an object whose records carry its track id leaves it well formed |
| Data.DeleteKeepsConsistent | Masa/core/data/data.py:87-91 | with `update`, deleting an existing index keeps a well-formed object well formed |
| Data.TrackedObject.constructor | Masa/core/data/data.py:29-44 | the new object's value is the seeded object, and it has no iteration cursor yet |
| Data.TrackedObject.AddInstance | Masa/core/data/data.py:46-61 | the in-place append or insert and the optional `_update` produce AddInstanceSpec of the old value |
| Data.TrackedObject.Update | Masa/core/data/data.py:68-71 | the renumbering loop leaves Renumber of the old list |
| Data.TrackedObject.ChangeTrackId | Masa/core/data/data.py:81-85 | returns the object itself, whose value becomes ChangeTrack of the old value |
| Data.TrackedObject.Delete | Masa/core/data/data.py:87-91 | fails exactly where DeleteSpec raises, changing nothing; otherwise the value becomes DeleteSpec's |
| Data.TrackedObject.At | Masa/core/data/data.py:93-94 | `obj[i]` returns the addressed instance, None where Python raises IndexError |
| Data.TrackedObject.Iter | Masa/core/data/data.py:96-99 | `__iter__` resets the cursor |
| Data.TrackedObject.Next | Masa/core/data/data.py:96-112 | before any `__iter__` AttributeError with nothing changed; otherwise the cursor advances (None to 0), yielding the instance there or StopIteration past the end |
| Data.Collect | Masa/core/data/data.py:96-115 | iterating an object yields exactly its instances in order, `__len__` of them |
| Store.Find | Masa/models/datahandler/datahandler.py:474-476 | a dict lookup finds the first entry with the key, None exactly when the key is absent |
| Store.DictSet | Masa/models/datahandler/datahandler.py:421-422 | `d[k] = v` overwrites the entry in place when the key exists and appends otherwise |
| Store.DictSetLookup | Masa/models/datahandler/datahandler.py:421-422 | after `d[k] = v` the key holds v and every other key is found where it was, with its object |
| Store.DictDel | Masa/models/datahandler/datahandler.py:459 | `del d[k]` on a present key removes one entry |
| Store.DictDelLookup | Masa/models/datahandler/datahandler.py:459 | after `del d[k]` the key is gone and every other key is present exactly when it was, with its object |
| Store.FindConsistent | Masa/models/datahandler/datahandler.py:402-408 | in a store with keys 0..n-1 the key k sits at position k |
| Store.Relabel | Masa/models/datahandler/datahandler.py:505-507 | the `enumerate` loop gives entry i key start+i and rewrites its track ids to it |
| Store.KeepPart | Masa/models/datahandler/datahandler.py:492-494 | the kept part holds keys 0..k with their objects, in order |
| Store.Compact | Masa/models/datahandler/datahandler.py:457-470 | a deletion that removes an object yields a store one shorter |
| Store.ShiftTail | Masa/models/datahandler/datahandler.py:430-433 | the shifted tail has one entry per old key from t to len-1 |
| Store.SortOkOnlyTrivial | Masa/models/datahandler/datahandler.py:501 | with distinct keys `sort_ok` holds exactly when the store has at most one key |
| Store.RelabelConsistent | Masa/models/datahandler/datahandler.py:502-507 | relabelling objects whose ids are dense makes every entry well formed under its new key |
| Store.UpdateAllResult | Masa/models/datahandler/datahandler.py:483-507 | `_update()` leaves zero or one key as it is and relabels two or more 0..n-1 in iteration order; the result is consistent when ids are dense, and consistency is kept |
| Store.UpdateKeepsLoneKey | Masa/models/datahandler/datahandler.py:498-502 | a lone object under key 5 survives `_update()` unrenumbered, so the store is not consistent |
| Store.RestConcat | Masa/models/datahandler/datahandler.py:494-495 | filtering out the kept keys distributes over concatenation |
| Store.KeepPartPrefix | Masa/models/datahandler/datahandler.py:492-494 | after a deletion the keys below t are found in place and copied unchanged |
| Store.DeleteWholeResult | Masa/models/datahandler/datahandler.py:447-470 | deleting object t of a consistent store compacts it (later keys down by one) and keeps it consistent; any other t, including len, is a ValueError that changes nothing |
| Store.DeleteTObjCompacts | Masa/models/datahandler/datahandler.py:463-470 | `_delete_tobj(t)` followed by `_update(keep_until=t-1)` is the compaction |
| Store.RestOfDeleted | Masa/models/datahandler/datahandler.py:494-495 | after deleting t, the entries not kept are exactly the old entries after t |
| Store.CompactConsistent | Masa/models/datahandler/datahandler.py:463-470 | compaction keeps a consistent store consistent |
| Store.DeleteInstanceResult | Masa/models/datahandler/datahandler.py:472-481 | a missing object or index is a ValueError that changes nothing; deleting one of several instances renumbers that object only; deleting the last instance removes the object with compaction; success keeps consistency |
| Store.DeleteResult | Masa/models/datahandler/datahandler.py:437-454 | `delete` fails exactly for a missing object or index, with ValueError and no change; otherwise the store is consistent and one shorter exactly when an object went |
| Store.AddInstanceResult | Masa/models/datahandler/datahandler.py:401-408 | an instance for a track id >= len raises Exception and a negative one KeyError, both changing nothing; otherwise only that object changes, by `add_instance`, and consistency is kept |
| Store.AddTObjResult | Masa/models/datahandler/datahandler.py:410-434 | a length other than 1 raises Exception; a track id past len is clamped and appended; 0..len inserts, shifting every later key up by one with rewritten track ids; negative raises KeyError; a well-formed object keeps the store consistent |
| Store.InsertShifted | Masa/models/datahandler/datahandler.py:424-434 | inserting at t < len keeps keys below t, puts the object at t and moves each later key k to k+1 |
| Store.ShiftTailRelabel | Masa/models/datahandler/datahandler.py:430-433 | the re-added tail is the old tail relabelled from t+1 |
| Store.AddTObjNegative | Masa/models/datahandler/datahandler.py:424-434 | inserting under a negative track id cuts the store down to that object alone and then raises KeyError |
| Store.ReplaceInstanceResult | Masa/models/datahandler/datahandler.py:397-399 | replacing at an existing coordinate changes only that object, keeps its instance count and keeps the store consistent |
| Store.ReplacedPlacement | Masa/models/datahandler/datahandler.py:397-399 | the re-added record stays at its index when the index is at most seedLen, goes to the end when it is above seedLen, and lands at len+i-1 (at least 0) for a negative index |
| Store.ReplaceDictResult | Masa/models/datahandler/datahandler.py:377-392 | the dict form raises IndexError for an out-of-range position; otherwise it replaces a copy of the stored record with only the named attributes changed, keeping the coordinate, the count and consistency |
| Store.MoveResult | Masa/models/datahandler/datahandler.py:343-357 | a missing position is a ValueError that changes nothing; otherwise the deletion happens and the payload's track id is decremented exactly when a whole object went and the old track id is at most the payload's; a well-formed payload keeps consistency |
| Store.MoveToFrontWipes | Masa/models/datahandler/datahandler.py:343-357 | moving the only instance of object 0 as a new object with track id 0 decrements it to -1, leaving only that object before KeyError |
| Handler.AutosaveCadence | Masa/models/datahandler/datahandler.py:232-235 | after k changes from a fresh counter, the counter is k mod step and one save happened per step changes |
| Handler.ChangeKeepsConsistent | Masa/models/datahandler/datahandler.py:200-214 | every change that goes through keeps a consistent store consistent; a failed one leaves the failed operation's result |
| Handler.ReplaceRecordSucceeds | Masa/models/datahandler/datahandler.py:397-399 | a record replace succeeds only at an existing coordinate |
| Handler.DataHandler.constructor | Masa/models/datahandler/datahandler.py:45-55 | the store holds the read entries after `_update()` and the counter starts at 0 |
| Handler.DataHandler.Length | Masa/models/datahandler/datahandler.py:275-276 | `len` is the number of entries |
| Handler.DataHandler.Update | Masa/models/datahandler/datahandler.py:483-507 | the `sort_ok` loop and rebuild leave UpdateAll of the old store |
| Handler.DataHandler.UpdateKeep | Masa/models/datahandler/datahandler.py:483-507 | the copying and filtering loops leave UpdateKeep of the old store, or KeyError with nothing changed |
| Handler.DataHandler.DeleteTObjEnd | Masa/models/datahandler/datahandler.py:457-461 | new store and error are DeleteTObjEnd of the old store |
| Handler.DataHandler.DeleteTObj | Masa/models/datahandler/datahandler.py:463-470 | new store and error are DeleteTObj of the old store |
| Handler.DataHandler.DeleteWhole | Masa/models/datahandler/datahandler.py:447-452 | new store and error are DeleteWhole of the old store |
| Handler.DataHandler.DeleteInstance | Masa/models/datahandler/datahandler.py:472-481 | new store and error are DeleteInstance of the old store |
| Handler.DataHandler.Delete | Masa/models/datahandler/datahandler.py:437-454 | new store and error are Delete of the old store |
| Handler.DataHandler.AddInstance | Masa/models/datahandler/datahandler.py:401-408 | new store and error are AddInstance of the old store |
| Handler.DataHandler.AppendTObj | Masa/models/datahandler/datahandler.py:421-422 | the store becomes DictSet of the old store |
| Handler.KeepKeys | Masa/models/datahandler/datahandler.py:426-427 | the copying of keys below the new track id succeeds exactly when each is present, and yields the stored prefix |
| Handler.ShiftKeys | Masa/models/datahandler/datahandler.py:431-433 | the shifting of keys from the new track id on succeeds exactly when each is present, and yields those objects moved up by one |
| Handler.DataHandler.InsertTObj | Masa/models/datahandler/datahandler.py:424-434 | the keep and shift loops leave InsertTObj of the old store, including the cut-down store on a late KeyError |
| Handler.DataHandler.AddTObj | Masa/models/datahandler/datahandler.py:410-419 | new store and error are AddTObj of the old store |
| Handler.DataHandler.Add | Masa/models/datahandler/datahandler.py:320-341 | new store and error are Add of the old store |
| Handler.DataHandler.ReplaceInstance | Masa/models/datahandler/datahandler.py:397-399 | new store and error are ReplaceInstance of the old store |
| Handler.DataHandler.Replace | Masa/models/datahandler/datahandler.py:377-392 | new store and error are Replace of the old store |
| Handler.DataHandler.Move | Masa/models/datahandler/datahandler.py:343-357 | new store and error are Move of the old store |
| Handler.DataHandler.CountChange | Masa/models/datahandler/datahandler.py:232-235 | a save is triggered exactly when the incremented counter reaches the step, which resets it to 0 |
| Handler.DataHandler.ApplyChange | Masa/models/datahandler/datahandler.py:200-235 | the operation the first truthy field selects (none for a falsy packet), then `_update()` unless it raised; a raising change leaves the counter alone and saves nothing |
| Handler.FalsyPacketUpdates | Masa/models/datahandler/datahandler.py:204-235 | a packet with no field set, or an empty tracked object as `added`, changes the store only by `_update()` |
| Handler.Renumbered | Masa/models/datahandler/datahandler.py:503-507 | the rebuild loop yields the kept entries followed by the source relabelled from start |
| Handler.Lookup | Masa/models/datahandler/datahandler.py:474-476 | the lookup loop finds what Find finds |
| Handler.Open | Masa/models/datahandler/datahandler.py:32-55 | a read error escapes with no handler; otherwise a fresh handler holds the loaded store after `_update()` |
| Queries.Flatten | Masa/models/datahandler/datahandler.py:148-152 | the `instances` list of an empty store is empty |
| Queries.FlattenConcat | Masa/models/datahandler/datahandler.py:148-152 | `instances` lists object after object, each object contributing its own instances in order |
| Queries.FlattenMembers | Masa/models/datahandler/datahandler.py:148-152 | an instance is in `instances` exactly when some stored object holds it |
| Queries.FromFrame | Masa/models/datahandler/datahandler.py:188-198 | every instance `from_frame(f)` returns has frame id f |
| Queries.FromFrameIsFilter | Masa/models/datahandler/datahandler.py:188-198 | `from_frame(f)` is the `instances` list filtered to frame f, in object then instance order; an instance is returned exactly when stored with frame id f |
| Queries.InsertSorted | Masa/models/datahandler/datahandler.py:156-160 | adding a frame id to an ascending set keeps it ascending and without repeats, with exactly the old ids and the new one |
| Queries.Frames | Masa/models/datahandler/datahandler.py:154-160 | `frames` is strictly ascending |
| Queries.SortedFramesMembers | Masa/models/datahandler/datahandler.py:156-160 | a frame id is listed exactly when some instance has it |
| Queries.FramesAreNonEmptyFrames | Masa/models/datahandler/datahandler.py:154-198 | `frames` lists exactly the frames for which `from_frame` returns something |
| Queries.EmptyMapping | Masa/models/datahandler/datahandler.py:170 | the initial mapping has one empty list per configured class |
| Queries.ClassMappingResult | Masa/models/datahandler/datahandler.py:167-174 | the mapping succeeds exactly when every object's class is configured; its keys are the classes and each holds the track ids of its objects in iteration order |
| Csv.RowTags | Masa/models/datahandler/datahandler.py:104-112 | the tags are read exactly when every configured tag is present with an allowed value |
| Csv.RowTagsValues | Masa/models/datahandler/datahandler.py:104-112 | the tags read hold every configured tag name, and only those, each with the row's value for it |
| Csv.ValidateRow | Masa/models/datahandler/datahandler.py:84-112 | a row passes exactly when its class is configured and its tags are read; an unknown class is a ValueError; the dict has six keys |
| Csv.FirstSeen | Masa/models/datahandler/datahandler.py:119-125 | the dict's keys: the track ids that occur, each once, in order of first appearance |
| Csv.Grouped | Masa/models/datahandler/datahandler.py:119-125 | the rows grouped under a track id all carry it |
| Csv.ReadRowsOk | Masa/models/datahandler/datahandler.py:83-125 | the row loop succeeds exactly when every row is valid |
| Csv.ReadRowsGroups | Masa/models/datahandler/datahandler.py:83-125 | after a successful row loop the keys are the track ids by first appearance, each object built from its rows in order with ids 0, 1, ... |
| Csv.ReadRowsNext | Masa/models/datahandler/datahandler.py:83-125 | one more row of the loop either raises that row's error or adds the row to the dict |
| Csv.PutRow | Masa/models/datahandler/datahandler.py:118-124 | an unseen track id gets a new object seeded from the row; a seen one gets the row appended as an instance |
| Csv.RenumberEach | Masa/models/datahandler/datahandler.py:127-128 | the closing loop keeps every key and object and renumbers only the instance ids |
| Csv.RenumberObjects | Masa/models/datahandler/datahandler.py:127-128 | the closing loop computes RenumberEach |
| Csv.ReadRowsStep | Masa/models/datahandler/datahandler.py:119-125 | one more valid row keeps the grouping |
| Csv.GroupStep | Masa/models/datahandler/datahandler.py:119-125 | one more row keeps every entry's grouping |
| Csv.GroupStepNew | Masa/models/datahandler/datahandler.py:119-122 | the first row of a track id makes an object of one instance |
| Csv.GroupStepAppend | Masa/models/datahandler/datahandler.py:123-125 | a later row of a track id is appended to its object |
| Csv.LoadResult | Masa/models/datahandler/datahandler.py:72-131 | loading succeeds exactly when every row is valid; the closing renumbering changes nothing; keys are distinct and ids dense |
| Csv.LoadedConsistent | Masa/models/datahandler/datahandler.py:32-55 | after `__init__`'s `_update()` the store is consistent unless it holds a single object with a track id other than 0 |
| Csv.ReadRowsStops | Masa/models/datahandler/datahandler.py:83-125 | once a prefix of the rows fails, the whole read fails with that error |
| Csv.ReadFromInput | Masa/models/datahandler/datahandler.py:72-131 | the row loop and the renumbering loop produce Load |
| Csv.TagValues | Masa/models/datahandler/datahandler.py:533 | the tag values are read exactly when the instance has every configured tag, one value per tag in order |
| Csv.Lines | Masa/models/datahandler/datahandler.py:530-537 | one data row per instance |
| Csv.LinesResult | Masa/models/datahandler/datahandler.py:530-537 | the rows are rendered exactly when every instance renders, and row i is the rendering of instance i |
| Csv.LinesFree | Masa/models/datahandler/datahandler.py:530-537 | no row holds a character that no copied value holds and that cannot occur in a number |
| Csv.BodyJoin | Masa/models/datahandler/datahandler.py:530-537 | the row loop gives the rows joined by newlines plus a final newline |
| Csv.DataAsTextLines | Masa/models/datahandler/datahandler.py:524-539 | the text is the header and the rows joined by newlines, with none at the end; it fails exactly when some instance lacks a tag |
| Csv.RowLineFree | Masa/models/datahandler/datahandler.py:534-537 | a row contains no character that none of its copied values contain |
| Csv.DataAsTextSplits | Masa/models/datahandler/datahandler.py:524-539 | splitting the text at newlines gives back the header and the rows, when no copied value contains a newline |
| Csv.HeaderFree | Masa/models/datahandler/datahandler.py:525-528 | the header contains no character absent from its names |
| Csv.RowSplit | Masa/models/datahandler/datahandler.py:530-537 | split at commas a row gives its eight fixed fields, then the tag values or one empty field |
| Csv.FieldsSplit | Masa/models/datahandler/datahandler.py:530-537 | the row's fields split back apart when no copied text holds a comma |
| Csv.RowColumns | Masa/models/datahandler/datahandler.py:524-539 | the header names frame_id first but a row holds the track id first and the frame id second; split at commas a row is eight fixed fields then the tag values, or one empty field when no tags are configured |
| Text.SplitJoin | Masa/models/datahandler/datahandler.py:530 | `split` undoes `join` when no part holds the separator |
| Text.JoinAppend | Masa/models/datahandler/datahandler.py:530-537 | joining two non-empty lists is joining each with one separator between |
| Text.JoinFree | Masa/models/datahandler/datahandler.py:530-537 | a character in neither the parts nor the separator is not in the join |
| Text.IntToString | Masa/models/datahandler/datahandler.py:534-536 | `str(int)` is non-empty and made of digits and a minus sign |
| Text.IntRoundTrip | Masa/models/datahandler/datahandler.py:534-536 | the rendering of an integer reads back as that integer |
| Video.Stamp | Masa/tests/utils/buffer/video.py:104 | a stamp fits a uint8 channel, equals the index below 256, and wraps modulo 256 |
| Video.FrameAt | Masa/tests/utils/buffer/video.py:92-107 | a negative size is a ValueError, fewer than one row or two columns an IndexError; otherwise the frame has the capture's size, carries the stamp of the position it was read at, and marker (0, 1, 2) |
| Video.ReadAt | Masa/tests/utils/buffer/video.py:59-68 | `read()` yields nothing at or past the end, otherwise the generated frame or its exception |
| Video.StampIdentifiesPosition | Masa/tests/utils/buffer/video.py:104 | for a drawable size, within 256 positions two frames are equal exactly when read at the same position |
| Video.VideoCapture.constructor | Masa/tests/utils/buffer/video.py:26-32 | a new capture is at position 0 with no data file |
| Video.VideoCapture.CreateDummyData | Masa/tests/utils/buffer/video.py:47-53 | the data file becomes dir/name, so the capture is opened |
| Video.VideoCapture.Get | Masa/tests/utils/buffer/video.py:74-77 | `get` returns the length exactly for CAP_PROP_FRAME_COUNT, nothing otherwise |
| Video.VideoCapture.Set | Masa/tests/utils/buffer/video.py:79-82 | CAP_PROP_POS_FRAMES moves the cursor to the value; any other flag changes nothing |
| Video.VideoCapture.Read | Masa/tests/utils/buffer/video.py:59-68 | at or past the end `(False, None)` with the cursor kept; otherwise `(True, frame)` for the cursor position and the cursor one further, or `_read`'s exception with the cursor kept |
| Video.VideoCapture.ReadAll | Masa/tests/utils/buffer/video.py:34-45 | for a positive length the first read's exception escapes at position 0, or the loop ends at the end and TypeError escapes before the cursor is restored; for none the result is the 0-dimensional array and the cursor is restored |
| Playback.NextIndex | Masa/models/buffer.py:126-157 | the index is set; a missing index anchors at 0 (forward) or n-1 (backward) leaving prev alone, otherwise prev takes the index and it moves to min(i+1, n-1) or max(i-1, 0); an index in range stays in range |
| Playback.FlowOf | Masa/models/buffer.py:166-175 | the end of the video exactly when prev equals the index, a sequential read exactly when prev is one less, a seek otherwise |
| Playback.ForwardFlow | Masa/models/buffer.py:134-175 | forward playback inside the video reads sequentially and reports the end exactly at the last frame |
| Playback.BackwardAlwaysSeeks | Masa/models/buffer.py:146-175 | backward playback never reads sequentially: it seeks, or reports the end at frame 0 |
| Playback.StalePrevEndsAtOnce | Masa/models/buffer.py:97-157 | after a direction change at the last (or first) frame the first step reports the end at once, because prev_idx survives |
| Playback.StalePrevReadsOn | Masa/models/buffer.py:97-175 | from frame n-2, switching to backward makes the first step a sequential read |
| Playback.Buffer.constructor | Masa/models/buffer.py:29-71 | a new buffer is paused with no index and the capture's frame count, and the capture is rewound |
| Playback.Buffer.ToPlay | Masa/models/buffer.py:79-80 | playing afterwards |
| Playback.Buffer.ToPause | Masa/models/buffer.py:82-83 | paused afterwards |
| Playback.Buffer.PlayPauseToggle | Masa/models/buffer.py:73-77 | `play` is flipped |
| Playback.Buffer.Stop | Masa/models/buffer.py:85-89 | paused, and one `video_ended` with the index when asked |
| Playback.Buffer.NextFrame | Masa/models/buffer.py:117-124 | one read: the frame at the capture position, nothing past the end, or the read's exception |
| Playback.Buffer.GetFrame | Masa/models/buffer.py:91-95 | the index and the capture position become i, then one read from there (frame, nothing or exception) |
| Playback.Buffer.SetBackward | Masa/models/buffer.py:97-115 | nothing for the same direction; otherwise the direction changes, the index is cleared and `play` ends as it was |
| Playback.Buffer.UpdateIndex | Masa/models/buffer.py:126-157 | the index fields become NextIndex of the old ones |
| Playback.Buffer.Step | Masa/models/buffer.py:159-188 | moves the index; at the end stops and signals with nothing read; a sequential step reads on from the capture position; a seek reads at the index; a read past the end raises Exception; an exception of the read escapes; a frame read is kept and emitted |
| Playback.Open | Masa/models/buffer.py:29-71 | ValueError when the capture is not open, NameError when the first read finds no frame, the read's exception when it raises, the resize error when sizing fails, otherwise a fresh paused buffer with the computed size and the capture rewound |
| Geometry.TruncDiv | Masa/core/utils/utils.py:74 | `int(a / b)`: magnitude is the floor of the magnitudes, sign that of the quotient |
| Geometry.DivBounds | Masa/core/utils/utils.py:74 | the truncated quotient `int(a / b)` has the largest magnitude whose multiple of the divisor stays within the dividend |
| Geometry.Half | Masa/core/utils/utils.py:96-97 | halving rounds toward zero, losing at most one half |
| Geometry.HalfIsTruncDiv | Masa/core/utils/utils.py:96-97 | halving is truncating division by two |
| Geometry.ResizeCalculator | Masa/core/utils/utils.py:70-88 | without ratio each falsy target keeps the original size; with ratio a truthy width wins and the height scales by truncation, else a truthy height; neither is a ValueError |
| Geometry.ResizeIgnoresHeight | Masa/core/utils/utils.py:73-75 | with ratio and a truthy width the target height plays no part |
| Geometry.CalcWidthHeight | Masa/core/utils/utils.py:127-138 | the corner is kept, width and height are the absolute differences |
| Geometry.CalcBottomCoord | Masa/core/utils/utils.py:140-151 | the far corner is the corner plus width and height |
| Geometry.BottomCoordInverts | Masa/core/utils/utils.py:127-151 | `calc_bottom_coord` undoes `calc_width_height` exactly on ordered boxes |
| Geometry.WidthHeightInverts | Masa/core/utils/utils.py:127-151 | `calc_width_height` undoes `calc_bottom_coord` for a non-negative size |
| Geometry.EdgeToCenter | Masa/core/utils/utils.py:92-106 | the centre is within half a unit of the midpoint, width and height are the absolute differences |
| Geometry.CenterToEdge | Masa/core/utils/utils.py:108-125 | each edge is within half a unit of centre minus or plus half the size |
| Geometry.AxisRoundTrip | Masa/core/utils/utils.py:92-125 | on one axis, centre and back restores both edges exactly when their sum is even |
| Geometry.CenterEdgeRoundTrip | Masa/core/utils/utils.py:92-125 | `center_bb_to_edge_bb` undoes `edge_bb_to_center_bb` on an ordered box exactly when both coordinate sums are even |

## Left out

- Qt signals are not modelled (`data_updated`, `curr_frame_data`, `run_result`, `backwarded`, `buffer_rect`). The only exception is `video_ended`, which is kept as a log of the indices it carried.
- Settings and file I/O are not modelled: `_read_meta`, opening the CSV, `csv.DictReader`, and `save()` with its backup renames. The configured classes, tags and scene are an input (`Csv.Config`). The rows are given already split into columns (`Csv.Row`).
- Csv.ValidateRow: the conversion of x1..y2 and frame_id from text (`int`, `float`, `int(float(...))`) is not modelled. Coordinates are integers. A row that fails conversion is not represented.
- Masa/core/data/data.py allows coordinates to be floats; the model keeps them as integers because the store only copies them.
- Handler.DataHandler.ApplyChange: assumes the current frame is set. Without it, `self.curr_frame` raises AttributeError, which the `except NameError` does not catch, so the counter would not advance.
- The `FrameData` emission of `data_update_sl` is not modelled. Neither are `get_datainfo`, `_edit`, `__str__` or `run_sresults_sl`.
- Aliasing of `TrackedObject` and `Instance` references is not captured, because the store holds objects by value. Consequences:
  - `change_track_id` on a stored object mutates the caller's object too; the model does not show this.
  - `move`'s correction is applied to a copy of the payload.
  - The shared instance between an `add` caller and the store is not tracked.
- Store.ApplyPatch: the dict form of `replace` sets only the fields `Instance` declares. A `setattr` of any other key is not modelled.
- Queries.ClassMappingResult: states the keys of the mapping as a set. The key order of the dict (the configured order) is not stated.
- The `instances` property's `self[:]` slicing and `DataHandler.__iter__`/`__next__` are modelled by iterating the entries in order.
- Video.VideoCapture: the random pixels of `OCVSimpleTaggedVideo._read` are not modelled; a frame keeps only its size and the two marker pixels.
- Video.Stamp: the stamp wraps modulo 256 as older NumPy versions store an out-of-range integer into a uint8 pixel. Newer versions raise OverflowError instead.
- Video.VideoCapture.CreateDummyData: the empty file is written only when it is missing. The file system is not modelled, so both cases give the same state.
- Playback.Buffer.NextFrame: `cv2.resize` of the frame to the display size is not modelled; the frame is returned as read.
- Playback.Buffer.SetBackward: skips the assignment from `EpipolarTrack(...)` at Masa/models/buffer.py:110 and the signal emission. That name is undefined, so as written the call would raise NameError with `play` false and `idx` unchanged.
- Playback.Open: the hard-coded `DataHandler` path and the sessions of Masa/models/buffer.py:49-53 are not modelled. The QThread parent and the fps are not modelled either.
- The `run` loop's sleeps, `stop_thread` and `get_points` (float scaling) are not modelled; `Step` is one iteration of the inner loop.
- Geometry.ResizeCalculator: computes the exact quotient. Floating-point rounding of `target / orig * other` is not modelled, and `orig` of zero gives ZeroDivisionError.
- Geometry: the `width_scale`/`height_scale` float branches of `BoundingBoxConverter` are not modelled; neither are `resize`, `convert_np` and the Qt image helpers.
