/**
 * Stroke analysis for the drawing exercises (src/lib/utils/strokeAnalysis.ts):
 * classifying drawn strokes by orientation, counting them, and comparing the
 * counts with the wedge composition a lesson expects.
 *
 * Coordinates and angles are reals. The `Math.atan2` angle in degrees is a
 * parameter (`atan2Degrees(dy, dx)`), and the stroke length is kept squared
 * so that "shorter than 10" is `dx*dx + dy*dy < 100`.
 */
module StrokeAnalysis {
  import opened Seqs
  import opened Text
  import opened Signs

  datatype StrokeDirection = Horizontal | Vertical | Oblique | Winkelhaken | Unknown

  datatype Point = Point(x: real, y: real)

  datatype StrokeAnalysis = StrokeAnalysis(direction: StrokeDirection, angle: real, squaredLength: real)

  /**
   * `classifyAngle`: the angle is folded into [0, 180] (orientation, not
   * direction); within 25 degrees of the horizontal is horizontal, within 25
   * of the vertical is vertical, anything else is oblique.
   */
  function ClassifyAngle(angle: real): (r: StrokeDirection)
    ensures r != Winkelhaken && r != Unknown
  {
    var normalized := if angle > 180.0 then angle - 180.0 else angle;
    if normalized <= 25.0 || normalized >= 155.0 then Horizontal
    else if normalized >= 65.0 && normalized <= 115.0 then Vertical
    else Oblique
  }

  /** The classes of an angle in [0, 360], read directly off the circle. */
  lemma ClassifyAngleBands(angle: real)
    requires 0.0 <= angle <= 360.0
    ensures ClassifyAngle(angle) == Horizontal <==>
      angle <= 25.0 || 155.0 <= angle <= 205.0 || angle >= 335.0
    ensures ClassifyAngle(angle) == Vertical <==>
      65.0 <= angle <= 115.0 || 245.0 <= angle <= 295.0
  {
  }

  /** A stroke and its reverse have the same class: only the orientation counts. */
  lemma ClassifyAngleOrientation(a: real)
    requires 0.0 <= a <= 180.0
    ensures ClassifyAngle(a + 180.0) == ClassifyAngle(a)
  {
  }

  function SquaredDistance(p: Point, q: Point): real
  {
    (q.x - p.x) * (q.x - p.x) + (q.y - p.y) * (q.y - p.y)
  }

  /**
   * `classifyStroke`: fewer than two points is unknown; endpoints closer than
   * 10 are a winkelhaken impression; otherwise the angle of the line from the
   * first to the last point, taken into [0, 360), decides.
   */
  function ClassifyStroke(points: seq<Point>, atan2Degrees: (real, real) -> real): (r: StrokeAnalysis)
    ensures r.direction == Unknown <==> |points| < 2
    ensures r.direction == Winkelhaken <==> |points| >= 2 && SquaredDistance(points[0], points[|points| - 1]) < 100.0
    ensures |points| < 2 ==> r.angle == 0.0 && r.squaredLength == 0.0
    ensures r.squaredLength >= 0.0
    ensures r.direction != Unknown && r.direction != Winkelhaken ==>
      r.squaredLength >= 100.0 && r.direction == ClassifyAngle(r.angle)
  {
    if |points| < 2 then StrokeAnalysis(Unknown, 0.0, 0.0)
    else
      var start, end := points[0], points[|points| - 1];
      var dx, dy := end.x - start.x, end.y - start.y;
      var squared := dx * dx + dy * dy;
      assert squared == SquaredDistance(start, end);
      if squared < 100.0 then StrokeAnalysis(Winkelhaken, 0.0, squared)
      else
        var raw := atan2Degrees(dy, dx);
        var angle := if raw < 0.0 then raw + 360.0 else raw;
        StrokeAnalysis(ClassifyAngle(angle), angle, squared)
  }

  // ---------------------------------------------------------------------
  // Counting strokes
  // ---------------------------------------------------------------------

  datatype DirectionCounts = DirectionCounts(horizontal: nat, vertical: nat, oblique: nat, winkelhaken: nat, unknown: nat)

  const NO_COUNTS := DirectionCounts(0, 0, 0, 0, 0)

  /** `counts[direction]++`. */
  function Bump(c: DirectionCounts, d: StrokeDirection): DirectionCounts
  {
    match d
    case Horizontal => c.(horizontal := c.horizontal + 1)
    case Vertical => c.(vertical := c.vertical + 1)
    case Oblique => c.(oblique := c.oblique + 1)
    case Winkelhaken => c.(winkelhaken := c.winkelhaken + 1)
    case Unknown => c.(unknown := c.unknown + 1)
  }

  function CountFor(c: DirectionCounts, d: StrokeDirection): nat
  {
    match d
    case Horizontal => c.horizontal
    case Vertical => c.vertical
    case Oblique => c.oblique
    case Winkelhaken => c.winkelhaken
    case Unknown => c.unknown
  }

  function Sum(c: DirectionCounts): nat
  {
    c.horizontal + c.vertical + c.oblique + c.winkelhaken + c.unknown
  }

  /** The counts after classifying every stroke in turn. */
  function CountsOf(strokes: seq<seq<Point>>, atan2Degrees: (real, real) -> real): DirectionCounts
  {
    if |strokes| == 0 then NO_COUNTS
    else Bump(CountsOf(strokes[..|strokes| - 1], atan2Degrees), ClassifyStroke(strokes[|strokes| - 1], atan2Degrees).direction)
  }

  function ClassifiedAs(d: StrokeDirection, atan2Degrees: (real, real) -> real): seq<Point> -> bool
  {
    (points: seq<Point>) => ClassifyStroke(points, atan2Degrees).direction == d
  }

  /**
   * Each count is the number of strokes classified that way, so the counts
   * add up to the number of strokes.
   */
  lemma {:induction false} CountsOfSpec(strokes: seq<seq<Point>>, atan2Degrees: (real, real) -> real, d: StrokeDirection)
    ensures CountFor(CountsOf(strokes, atan2Degrees), d) == Count(strokes, ClassifiedAs(d, atan2Degrees))
    ensures Sum(CountsOf(strokes, atan2Degrees)) == |strokes|
  {
    if |strokes| > 0 {
      var init, last := strokes[..|strokes| - 1], strokes[|strokes| - 1];
      CountsOfSpec(init, atan2Degrees, d);
      var p := ClassifiedAs(d, atan2Degrees);
      var e := ClassifyStroke(last, atan2Degrees).direction;
      BumpSpec(CountsOf(init, atan2Degrees), e, d);
      assert strokes == init + [last];
      CountAppend(init, [last], p);
      CountSingle(last, p);
      assert p(last) == (e == d);
    }
  }

  /** One more stroke of kind `e`: its count goes up by one, and so does the total. */
  lemma BumpSpec(c: DirectionCounts, e: StrokeDirection, d: StrokeDirection)
    ensures CountFor(Bump(c, e), d) == CountFor(c, d) + (if e == d then 1 else 0)
    ensures Sum(Bump(c, e)) == Sum(c) + 1
  {
  }

  /** `analyzeStrokes`: one count per direction. */
  method AnalyzeStrokes(strokes: seq<seq<Point>>, atan2Degrees: (real, real) -> real) returns (counts: DirectionCounts)
    ensures counts == CountsOf(strokes, atan2Degrees)
  {
    counts := NO_COUNTS;
    var i := 0;
    while i < |strokes|
      invariant 0 <= i <= |strokes|
      invariant counts == CountsOf(strokes[..i], atan2Degrees)
    {
      assert strokes[..i + 1][..i] == strokes[..i];
      var analysis := ClassifyStroke(strokes[i], atan2Degrees);
      counts := Bump(counts, analysis.direction);
      i := i + 1;
    }
    assert strokes[..i] == strokes;
  }

  // ---------------------------------------------------------------------
  // Comparing with the target
  // ---------------------------------------------------------------------

  datatype AxisComparison = AxisComparison(drawn: int, expected: int, diff: int)

  datatype StrokeComparison = StrokeComparison(
    horizontal: AxisComparison,
    vertical: AxisComparison,
    oblique: AxisComparison,
    winkelhaken: AxisComparison,
    totalDrawn: int,
    totalExpected: int,
    isComplete: bool,
    feedback: seq<string>)

  /** "s" after a count above one. */
  function Plural(n: int): string
  {
    if n > 1 then "s" else ""
  }

  /** The message for `n` missing wedges on an axis. */
  function AddMessage(axis: WedgeType, n: int): string
  {
    match axis
    case HorizontalWedge => "Add " + IntToString(n) + " more horizontal wedge" + Plural(n) + " (\U{2500})"
    case VerticalWedge => "Add " + IntToString(n) + " more vertical wedge" + Plural(n) + " (\U{2502})"
    case ObliqueWedge => "Add " + IntToString(n) + " more oblique wedge" + Plural(n) + " (\U{2571})"
    case WinkelhakenWedge => "Add " + IntToString(n) + " more winkelhaken (\U{2220})"
  }

  /** The message for `n` surplus wedges on an axis. */
  function ExtraMessage(axis: WedgeType, n: int): string
  {
    match axis
    case HorizontalWedge => "You have " + IntToString(n) + " extra horizontal wedge" + Plural(n)
    case VerticalWedge => "You have " + IntToString(n) + " extra vertical wedge" + Plural(n)
    case ObliqueWedge => "You have " + IntToString(n) + " extra oblique wedge" + Plural(n)
    case WinkelhakenWedge => "You have " + IntToString(n) + " extra winkelhaken"
  }

  /** The feedback for one axis: a request for more, a note of surplus, or nothing. */
  function AxisFeedback(axis: WedgeType, diff: int): (r: seq<string>)
    ensures |r| == (if diff == 0 then 0 else 1)
    ensures diff < 0 ==> "Add " <= r[0]
    ensures diff > 0 ==> "You have " <= r[0]
  {
    if diff < 0 then [AddMessage(axis, -diff)]
    else if diff > 0 then [ExtraMessage(axis, diff)]
    else []
  }

  function Compare(drawn: int, expected: int): AxisComparison
  {
    AxisComparison(drawn, expected, drawn - expected)
  }

  /**
   * What `compareToTarget` promises about its result for the counts `drawn`
   * and the composition `expected`.
   */
  predicate ComparesTo(c: StrokeComparison, drawn: DirectionCounts, expected: WedgeComposition)
  {
    c.horizontal == Compare(drawn.horizontal, expected.horizontal) &&
    c.vertical == Compare(drawn.vertical, expected.vertical) &&
    c.oblique == Compare(drawn.oblique, expected.oblique) &&
    c.winkelhaken == Compare(drawn.winkelhaken, expected.winkelhaken) &&
    c.totalDrawn == drawn.horizontal + drawn.vertical + drawn.oblique + drawn.winkelhaken &&
    c.totalExpected == expected.horizontal + expected.vertical + expected.oblique + expected.winkelhaken &&
    (c.isComplete <==>
      drawn.horizontal == expected.horizontal && drawn.vertical == expected.vertical &&
      drawn.oblique == expected.oblique && drawn.winkelhaken == expected.winkelhaken) &&
    c.feedback ==
      AxisFeedback(HorizontalWedge, c.horizontal.diff) + AxisFeedback(VerticalWedge, c.vertical.diff) +
      AxisFeedback(ObliqueWedge, c.oblique.diff) + AxisFeedback(WinkelhakenWedge, c.winkelhaken.diff)
  }

  /** `compareToTarget`: counts the strokes, then builds per-axis differences and feedback. */
  method CompareToTarget(strokes: seq<seq<Point>>, expected: WedgeComposition, atan2Degrees: (real, real) -> real)
    returns (c: StrokeComparison)
    ensures ComparesTo(c, CountsOf(strokes, atan2Degrees), expected)
  {
    var drawn := AnalyzeStrokes(strokes, atan2Degrees);
    var feedback: seq<string> := [];
    var horizontal := AxisComparison(drawn.horizontal, expected.horizontal, drawn.horizontal - expected.horizontal);
    var vertical := AxisComparison(drawn.vertical, expected.vertical, drawn.vertical - expected.vertical);
    var oblique := AxisComparison(drawn.oblique, expected.oblique, drawn.oblique - expected.oblique);
    var winkelhaken := AxisComparison(drawn.winkelhaken, expected.winkelhaken, drawn.winkelhaken - expected.winkelhaken);
    var totalDrawn := drawn.horizontal + drawn.vertical + drawn.oblique + drawn.winkelhaken;
    var totalExpected := expected.horizontal + expected.vertical + expected.oblique + expected.winkelhaken;

    feedback := PushFeedback(feedback, HorizontalWedge, horizontal.diff);
    feedback := PushFeedback(feedback, VerticalWedge, vertical.diff);
    feedback := PushFeedback(feedback, ObliqueWedge, oblique.diff);
    feedback := PushFeedback(feedback, WinkelhakenWedge, winkelhaken.diff);

    var isComplete := horizontal.diff == 0 && vertical.diff == 0 && oblique.diff == 0 && winkelhaken.diff == 0;
    c := StrokeComparison(horizontal, vertical, oblique, winkelhaken, totalDrawn, totalExpected, isComplete, feedback);
  }

  /** One axis's `if (diff < 0) push(...) else if (diff > 0) push(...)`. */
  method PushFeedback(feedback: seq<string>, axis: WedgeType, diff: int) returns (r: seq<string>)
    ensures r == feedback + AxisFeedback(axis, diff)
  {
    r := feedback;
    if diff < 0 {
      r := r + [AddMessage(axis, -diff)];
    } else if diff > 0 {
      r := r + [ExtraMessage(axis, diff)];
    }
  }

  function NonZero(d: int): nat { if d == 0 then 0 else 1 }

  /**
   * The feedback has one message per axis whose count is off, so it is empty
   * exactly when the drawing is complete; a complete drawing has the
   * expected total, and the unknown strokes are the ones left out of it.
   */
  lemma ComparisonSpec(c: StrokeComparison, strokes: seq<seq<Point>>, atan2Degrees: (real, real) -> real, expected: WedgeComposition)
    requires ComparesTo(c, CountsOf(strokes, atan2Degrees), expected)
    ensures |c.feedback| == NonZero(c.horizontal.diff) + NonZero(c.vertical.diff) + NonZero(c.oblique.diff) + NonZero(c.winkelhaken.diff)
    ensures c.feedback == [] <==> c.isComplete
    ensures c.isComplete ==> c.totalDrawn == c.totalExpected
    ensures c.totalDrawn == |strokes| - CountsOf(strokes, atan2Degrees).unknown
  {
    CountsOfSpec(strokes, atan2Degrees, Unknown);
  }

  const PERFECT := "Perfect! All wedges match."

  /**
   * `getProgressMessage`: praise when complete; otherwise a prompt chosen by
   * whether nothing, too little, too much or the right number of wedges has
   * been drawn.
   */
  function GetProgressMessage(c: StrokeComparison): (r: string)
    ensures r == PERFECT <==> c.isComplete
  {
    if c.isComplete then PERFECT
    else if c.totalDrawn == 0 then
      "Draw " + IntToString(c.totalExpected) + " wedge" + Plural(c.totalExpected) + " to complete this sign."
    else
      var counts := IntToString(c.totalDrawn) + "/" + IntToString(c.totalExpected);
      assert counts[0] == IntToString(c.totalDrawn)[0];
      if c.totalDrawn < c.totalExpected then
        counts + " wedges drawn. " + IntToString(c.totalExpected - c.totalDrawn) + " more to go!"
      else if c.totalDrawn > c.totalExpected then
        counts + " wedges \U{2014} you've drawn a few extra!"
      else
        counts + " wedges \U{2014} check the stroke directions."
  }
}
