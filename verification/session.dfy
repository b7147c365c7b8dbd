/** The calibration session: the clicked points, the image height and the
    source quadrilateral, changed by mouse clicks and by the 'r' key, and
    read by the 's' and 'p' keys. */
module Session {
  import opened Geometry

  datatype Option<T> = None | Some(value: T)

  /** Largest number of points the session collects. */
  const MaxPoints: nat := 4

  /** The mouse events the callback receives; only a left-button press adds a point. */
  datatype MouseEvent = LeftButtonDown | OtherEvent

  /** One call of the mouse callback. */
  datatype MouseInput = MouseInput(event: MouseEvent, x: int, y: int)

  /** The branch of the key loop that a key selects. */
  datatype Command = ResetCmd | SaveCmd | PreviewCmd | QuitCmd | Ignore

  /** What the preview would transform: the source quadrilateral onto the
      target rectangle, rendered at width x height. */
  datatype Preview = Preview(source: seq<SourcePoint>, target: seq<Point>, width: nat, height: nat)

  /** What the 's' branch does: nothing when fewer than four points are held,
      writes the array, or raises while converting a non-finite coordinate
      with `int()`, before anything is written. */
  datatype SaveOutcome = NotReady | Written(rows: seq<SourcePoint>) | Raised

  /** What handling one key produced: the array written by a save, the
      preview shown, a quit request, an exception that ends the program,
      or nothing to report. */
  datatype KeyOutcome = Continue | Saved(written: seq<SourcePoint>) | Previewed(preview: Preview) | Quit | Aborted

  /** The point list after one mouse callback. */
  function AddPoint(points: seq<Point>, input: MouseInput): (r: seq<Point>)
    // a click while four points are held changes nothing
    ensures |points| >= MaxPoints ==> r == points
    // exactly a left-button press below the limit adds one point
    ensures |r| == if input.event == LeftButtonDown && |points| < MaxPoints then |points| + 1 else |points|
    // earlier points are kept, the new one goes at the end
    ensures r[..|points|] == points
    ensures |r| > |points| ==> r[|points|] == Point(input.x, input.y)
    ensures |points| <= MaxPoints ==> |r| <= MaxPoints
  {
    if input.event == LeftButtonDown && |points| < MaxPoints then points + [Point(input.x, input.y)] else points
  }

  /** The positions of the left-button presses among `inputs`, in order. */
  function Clicks(inputs: seq<MouseInput>): (c: seq<Point>)
  {
    if inputs == [] then []
    else (if inputs[0].event == LeftButtonDown then [Point(inputs[0].x, inputs[0].y)] else [])
         + Clicks(inputs[1..])
  }

  /** The point list after the mouse callback has run on each of `inputs`. */
  function Replay(points: seq<Point>, inputs: seq<MouseInput>): seq<Point>
    decreases |inputs|
  {
    if inputs == [] then points else Replay(AddPoint(points, inputs[0]), inputs[1..])
  }

  /** The first n elements of s, or all of s when it is shorter. */
  function Prefix(s: seq<Point>, n: nat): seq<Point>
  {
    if |s| <= n then s else s[..n]
  }

  /** Replaying mouse events keeps the held points and then the earliest
      left-button presses, up to four points in all. */
  lemma {:induction false} ReplayCollects(points: seq<Point>, inputs: seq<MouseInput>)
    requires |points| <= MaxPoints
    ensures Replay(points, inputs) == Prefix(points + Clicks(inputs), MaxPoints)
    decreases |inputs|
  {
    if inputs == [] {
      assert points + Clicks(inputs) == points;
    } else {
      var i, rest := inputs[0], inputs[1..];
      var next := AddPoint(points, i);
      ReplayCollects(next, rest);
      var head := if i.event == LeftButtonDown then [Point(i.x, i.y)] else [];
      assert Clicks(inputs) == head + Clicks(rest);
      assert points + Clicks(inputs) == (points + head) + Clicks(rest);
      if |points| < MaxPoints {
        assert next == points + head;
      } else {
        assert next == points;
        var all := points + Clicks(inputs);
        assert all[..MaxPoints] == points;
        assert (points + Clicks(rest))[..MaxPoints] == points;
      }
    }
  }

  /** After a reset, save and preview stay disabled until four left-button
      presses have arrived, and the held points are then the first four. */
  lemma CompleteAfterReset(inputs: seq<MouseInput>)
    ensures |Replay([], inputs)| == MaxPoints <==> |Clicks(inputs)| >= MaxPoints
    ensures |Clicks(inputs)| >= MaxPoints ==> Replay([], inputs) == Clicks(inputs)[..MaxPoints]
    ensures |Clicks(inputs)| < MaxPoints ==> Replay([], inputs) == Clicks(inputs)
  {
    ReplayCollects([], inputs);
    assert [] + Clicks(inputs) == Clicks(inputs);
  }

  /** The low byte of a key code, as `cv2.waitKey(1) & 0xFF` computes it
      (for negative codes too, since Python's `&` works on two's complement). */
  function LowByte(code: int): (b: int)
    ensures 0 <= b < 256
    ensures (code - b) % 256 == 0
  {
    code % 256
  }

  /** The branch of the key loop taken for `code` when `count` points are held. */
  function KeyCommand(code: int, count: nat): (c: Command)
    ensures c == ResetCmd <==> LowByte(code) == 'r' as int
    ensures c == SaveCmd <==> LowByte(code) == 's' as int && count == MaxPoints
    ensures c == PreviewCmd <==> LowByte(code) == 'p' as int && count == MaxPoints
    ensures c == QuitCmd <==> LowByte(code) == 'q' as int
    // no key within the poll interval (-1) is ignored
    ensures code == -1 ==> c == Ignore
  {
    var key := LowByte(code);
    if key == 'r' as int then ResetCmd
    else if key == 's' as int && count == MaxPoints then SaveCmd
    else if key == 'p' as int && count == MaxPoints then PreviewCmd
    else if key == 'q' as int then QuitCmd
    else Ignore
  }

  /** One calibration session over a loaded image. */
  class Calibrator {
    /** The clicked points, in click order: top-left, top-right, bottom-right, bottom-left. */
    var points: seq<Point>
    /** Number of rows of the current image. */
    var height: nat
    /** The source quadrilateral, once a fourth point has been clicked. */
    var sourcePoints: Option<seq<SourcePoint>>

    /** At most four points are held, and whenever four are held the stored
        source quadrilateral is the one computed from them. After a reset the
        stored value may be stale; it is never read then. */
    ghost predicate Valid()
      reads this
    {
      |points| <= MaxPoints &&
      (|points| == MaxPoints ==> sourcePoints == Some(SourcePoints(points, height)))
    }

    /** Whether save and preview act: exactly four points are held. */
    predicate Complete()
      reads this
    {
      |points| == MaxPoints
    }

    /** A session over a freshly loaded image with `imageHeight` rows. */
    constructor (imageHeight: nat)
      ensures Valid()
      ensures points == [] && height == imageHeight && sourcePoints == None
    {
      points := [];
      height := imageHeight;
      sourcePoints := None;
    }

    /** The mouse callback: records a left-button press while fewer than four
        points are held, and computes the source quadrilateral on the fourth. */
    method MouseCallback(event: MouseEvent, x: int, y: int)
      requires Valid()
      modifies this`points, this`sourcePoints
      ensures Valid()
      ensures points == AddPoint(old(points), MouseInput(event, x, y))
      ensures sourcePoints == if |old(points)| < MaxPoints && |points| == MaxPoints
                              then Some(SourcePoints(points, height)) else old(sourcePoints)
    {
      if event == LeftButtonDown && |points| < MaxPoints {
        points := points + [Point(x, y)];
        if |points| == MaxPoints {
          CalculateExtendedPoints();
        }
      }
    }

    /** Stores the source quadrilateral of the four held points. */
    method CalculateExtendedPoints()
      requires |points| == MaxPoints
      modifies this`sourcePoints
      ensures sourcePoints == Some(SourcePoints(points, height))
    {
      sourcePoints := Some(SourcePoints(points, height));
    }

    /** The 'r' key: reloads the image (whose height is `reloadedHeight`)
        and empties the point list. The stored source quadrilateral is kept. */
    method Reset(reloadedHeight: nat)
      requires Valid()
      modifies this`points, this`height
      ensures Valid() && !Complete()
      ensures points == [] && height == reloadedHeight
      ensures sourcePoints == old(sourcePoints)
    {
      height := reloadedHeight;
      points := [];
    }

    /** The 's' key: prints every row of the source array through `int()`,
        then writes the array to disk. A non-finite coordinate makes `int()`
        raise, so nothing is written. */
    method Save() returns (result: SaveOutcome)
      requires Valid()
      ensures result.NotReady? <==> !Complete()
      ensures result.Written? <==> Complete() && AllFinite(SourcePoints(points, height))
      ensures result.Raised? <==> Complete() && !AllFinite(SourcePoints(points, height))
      ensures result.Written? ==> result.rows == SourcePoints(points, height)
    {
      if |points| != MaxPoints {
        return NotReady;
      }
      var src := sourcePoints.value;
      var i := 0;
      while i < |src|
        invariant 0 <= i <= |src|
        invariant forall k :: 0 <= k < i ==> src[k].x.Finite?
      {
        if src[i].x.NonFinite? {
          return Raised;
        }
        i := i + 1;
      }
      result := Written(src);
    }

    /** The preview: maps the source quadrilateral onto a rectangle half as
        wide as the image is high; nothing when fewer than four points are held. */
    method PreviewTransform() returns (preview: Option<Preview>)
      requires Valid()
      ensures preview.Some? <==> Complete()
      ensures preview.Some? ==> preview.value.source == SourcePoints(points, height)
      ensures preview.Some? ==> preview.value.target == TargetRectangle(height)
      ensures preview.Some? ==> preview.value.width == PreviewWidth(height) && preview.value.height == height
    {
      if |points| != MaxPoints {
        return None;
      }
      var h := height;
      var w := PreviewWidth(h);
      preview := Some(Preview(sourcePoints.value, TargetRectangle(h), w, h));
    }

    /** One pass of the key loop for key code `code`; `reloadedHeight` is the
        height of the image a reset reads back. `Aborted` means an exception
        left the loop: nothing catches it before the program's entry point. */
    method HandleKey(code: int, reloadedHeight: nat) returns (outcome: KeyOutcome)
      requires Valid()
      modifies this`points, this`height
      ensures Valid()
      ensures sourcePoints == old(sourcePoints)
      ensures KeyCommand(code, |old(points)|) == ResetCmd ==> points == [] && height == reloadedHeight
      ensures KeyCommand(code, |old(points)|) != ResetCmd ==> points == old(points) && height == old(height)
      ensures outcome == match KeyCommand(code, |old(points)|)
        case ResetCmd => Continue
        case SaveCmd =>
          if AllFinite(SourcePoints(points, height)) then Saved(SourcePoints(points, height)) else Aborted
        case PreviewCmd => Previewed(Preview(SourcePoints(points, height), TargetRectangle(height), PreviewWidth(height), height))
        case QuitCmd => Quit
        case Ignore => Continue
    {
      var cmd := KeyCommand(code, |points|);
      match cmd
      case ResetCmd =>
        Reset(reloadedHeight);
        outcome := Continue;
      case SaveCmd =>
        var result := Save();
        outcome := if result.Written? then Saved(result.rows) else Aborted;
      case PreviewCmd =>
        var preview := PreviewTransform();
        outcome := Previewed(preview.value);
      case QuitCmd =>
        outcome := Quit;
      case Ignore =>
        outcome := Continue;
    }
  }
}
