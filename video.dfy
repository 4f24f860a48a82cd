/**
 * The frame source the player reads from: the `OpenCVVideoCapture` test
 * double of Masa/tests/utils/buffer/video.py, a cursor `buffIdx` over
 * `length` generated frames. The frames come from `OCVSimpleTaggedVideo`,
 * whose pixels are random except for two marker pixels; the model keeps
 * only the markers.
 */
module Video {
  import opened Wrappers

  /** OpenCV's property ids as `cv2` numbers them. */
  const CAP_PROP_POS_FRAMES: int := 1
  const CAP_PROP_FRAME_COUNT: int := 7

  /**
   * A generated frame: its size, the value written to all three channels of
   * pixel (0, 0) and the colour triple written to pixel (0, 1). The other
   * pixels are random and not modelled.
   */
  datatype Frame = Frame(height: int, width: int, stamp: int, marker: seq<int>)

  /** A value stored into an unsigned 8-bit pixel channel (wraps modulo 256). */
  function Stamp(i: int): (b: int)
    ensures 0 <= b < 256
    ensures 0 <= i < 256 ==> b == i
    ensures (i - b) % 256 == 0
  {
    i % 256
  }

  /**
   * `OCVSimpleTaggedVideo._read` at cursor position `i`: the frame stamped
   * with `i`, marker (BLUE, GREEN, RED) = (0, 1, 2). `np.random.randint`
   * refuses a negative size (ValueError), and writing pixels (0, 0) and
   * (0, 1) needs at least one row and two columns (IndexError).
   */
  function FrameAt(height: int, width: int, i: int): (r: Result<Frame>)
    ensures r.Ok? <==> height >= 1 && width >= 2
    ensures height < 0 || width < 0 ==> r == Err(ValueError)
    ensures r.Err? && height >= 0 && width >= 0 ==> r == Err(IndexError)
    ensures r.Ok? ==> r.value.height == height && r.value.width == width
    ensures r.Ok? ==> r.value.stamp == Stamp(i) && r.value.marker == [0, 1, 2]
  {
    if height < 0 || width < 0 then Err(ValueError)
    else if height < 1 || width < 2 then Err(IndexError)
    else Ok(Frame(height, width, Stamp(i), [0, 1, 2]))
  }

  /** Within the first 256 positions a frame's stamp tells which position it was read at. */
  lemma StampIdentifiesPosition(height: int, width: int, i: int, j: int)
    requires height >= 1 && width >= 2
    requires 0 <= i < 256 && 0 <= j < 256
    ensures FrameAt(height, width, i) == FrameAt(height, width, j) <==> i == j
  {
  }

  /**
   * What `read()` yields at cursor position `pos` of a capture of `length`
   * frames: nothing at or past the end, otherwise `_read`'s frame or the
   * exception it raised.
   */
  function ReadAt(height: int, width: int, length: int, pos: int): (r: Result<Option<Frame>>)
    ensures pos >= length ==> r == Ok(None)
    ensures pos < length ==> (r.Ok? <==> FrameAt(height, width, pos).Ok?)
    ensures pos < length && r.Ok? ==> r.value == Some(FrameAt(height, width, pos).value)
    ensures r.Err? ==> r.error == FrameAt(height, width, pos).error
  {
    if pos >= length then Ok(None)
    else match FrameAt(height, width, pos)
      case Err(e) => Err(e)
      case Ok(f) => Ok(Some(f))
  }

  /** Where the cursor stands after `read()` at `pos`: one further exactly when a frame was read. */
  function CursorAfter(height: int, width: int, length: int, pos: int): int {
    if ReadAt(height, width, length, pos) == Ok(None) || ReadAt(height, width, length, pos).Err? then pos else pos + 1
  }

  /**
   * The result of `np.ndarray(shape)`: an uninitialised array, of which only
   * the shape is modelled. `np.ndarray([])` is the 0-dimensional array
   * (one element), not an empty sequence.
   */
  datatype NdArray = NdArray(shape: seq<int>)

  class VideoCapture {
    const length: int
    const width: int
    const height: int
    var buffIdx: int
    var dataFile: Option<string>

    /** The dataclass constructor: the cursor at 0 and no data file. */
    constructor (length: int, width: int, height: int)
      ensures this.length == length && this.width == width && this.height == height
      ensures buffIdx == 0 && dataFile == None
    {
      this.length := length;
      this.width := width;
      this.height := height;
      buffIdx := 0;
      dataFile := None;
    }

    /** `isOpened`: a data file has been set. */
    predicate IsOpened()
      reads this
    {
      dataFile.Some?
    }

    /**
     * `create_dummy_data`: the data file becomes `dir/fileName`, whether or
     * not it already exists (an empty file is written when it does not).
     */
    method CreateDummyData(dir: string, fileName: string) returns (path: string)
      modifies this`dataFile
      ensures path == dir + "/" + fileName && dataFile == Some(path)
      ensures IsOpened()
    {
      path := dir + "/" + fileName;
      dataFile := Some(path);
    }

    /** `get(flag)`: the frame count for CAP_PROP_FRAME_COUNT, nothing for any other flag. */
    function Get(flag: int): (r: Option<int>)
      ensures r.Some? <==> flag == CAP_PROP_FRAME_COUNT
      ensures r.Some? ==> r.value == length
    {
      if flag == CAP_PROP_FRAME_COUNT then Some(length) else None
    }

    /** `set(flag, value)`: CAP_PROP_POS_FRAMES moves the cursor; any other flag changes nothing. */
    method Set(flag: int, value: int)
      modifies this`buffIdx
      ensures buffIdx == (if flag == CAP_PROP_POS_FRAMES then value else old(buffIdx))
    {
      if flag == CAP_PROP_POS_FRAMES {
        buffIdx := value;
      }
    }

    /**
     * `read()`: past the end, `(False, None)` and the cursor stays; otherwise
     * `(True, frame)` with the frame stamped with the cursor position, and
     * the cursor advances by one. An exception of `_read` escapes with the
     * cursor where it was.
     */
    method Read() returns (r: Result<(bool, Option<Frame>)>)
      modifies this`buffIdx
      ensures r.Ok? <==> ReadAt(height, width, length, old(buffIdx)).Ok?
      ensures r.Ok? ==> r.value.1 == ReadAt(height, width, length, old(buffIdx)).value
      ensures r.Ok? ==> (r.value.0 <==> r.value.1.Some?)
      ensures r.Err? ==> r.error == ReadAt(height, width, length, old(buffIdx)).error
      ensures buffIdx == CursorAfter(height, width, length, old(buffIdx))
    {
      if buffIdx >= length {
        r := Ok((false, None));
      } else {
        match FrameAt(height, width, buffIdx) {
          case Err(e) =>
            r := Err(e);
          case Ok(f) =>
            r := Ok((true, Some(f)));
            buffIdx := buffIdx + 1;
        }
      }
    }

    /**
     * `read_all`: rewinds, reads `length` times, then builds the result with
     * `np.ndarray(...)`, which takes its argument as a shape: a non-empty
     * list of `(ret, frame)` pairs is not a shape, so the call raises
     * TypeError before the saved cursor is put back. An empty list is the
     * empty shape, so no reads give the 0-dimensional array and restore the
     * cursor. A frame size `_read` cannot draw on fails the first read.
     */
    method ReadAll() returns (r: Result<NdArray>)
      modifies this`buffIdx
      ensures length >= 1 && FrameAt(height, width, 0).Err? ==> r == Err(FrameAt(height, width, 0).error) && buffIdx == 0
      ensures length >= 1 && FrameAt(height, width, 0).Ok? ==> r == Err(TypeError) && buffIdx == length
      ensures length <= 0 ==> r == Ok(NdArray([])) && buffIdx == old(buffIdx)
    {
      var saved := buffIdx;
      buffIdx := 0;
      var results: seq<(bool, Option<Frame>)> := [];
      var i := 0;
      while i < length
        invariant 0 <= i <= (if length > 0 then length else 0)
        invariant buffIdx == i && |results| == i
        invariant i > 0 ==> FrameAt(height, width, 0).Ok?
      {
        var read := Read();
        if read.Err? {
          return Err(read.error);
        }
        results := results + [read.value];
        i := i + 1;
      }
      if |results| >= 1 {
        return Err(TypeError);
      }
      buffIdx := saved;
      r := Ok(NdArray([]));
    }
  }
}
