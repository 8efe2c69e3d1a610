/** The crosshair's shape: the line segments each display mode draws, in
    display pixels relative to the crosshair position, and its line style. */
module CrosshairGeometry {
  import opened Mrml

  /** A line from (x1, y1) to (x2, y2). */
  datatype Segment = Segment(x1: int, y1: int, x2: int, y2: int)

  /** A point of the crosshair's point list. */
  datatype Point = Point(x: int, y: int, z: int)

  /** A two-point cell of the crosshair's cell array: ids into the point list. */
  datatype Line = Line(first: nat, second: nat)

  /** Half the width of the gap left around the centre by the basic modes. */
  const Gap: int := 5
  /** The outer end of the short arms of the small modes. */
  const StubEnd: int := 10

  predicate OnVerticalAxis(s: Segment) { s.x1 == 0 && s.x2 == 0 }
  predicate OnHorizontalAxis(s: Segment) { s.y1 == 0 && s.y2 == 0 }

  function Min(a: int, b: int): int { if a <= b then a else b }
  function Max(a: int, b: int): int { if a <= b then b else a }

  /** The smallest and largest coordinate the segment covers along its axis. */
  function AxisLow(s: Segment): int
  {
    if OnVerticalAxis(s) then Min(s.y1, s.y2) else Min(s.x1, s.x2)
  }
  function AxisHigh(s: Segment): int
  {
    if OnVerticalAxis(s) then Max(s.y1, s.y2) else Max(s.x1, s.x2)
  }

  /** The segments drawn for `mode` on a screen of `w` by `h` pixels, in the
      order they are added. */
  function CrosshairSegments(mode: CrosshairMode, w: int, h: int): (segs: seq<Segment>)
    ensures forall s :: s in segs ==> OnVerticalAxis(s) || OnHorizontalAxis(s)
    ensures segs == [] <==> mode.NoCrosshair? || mode.OtherMode?
  {
    match mode
    case NoCrosshair => []
    case ShowBasic =>
      [Segment(0, -h, 0, -Gap), Segment(0, Gap, 0, h),
       Segment(-w, 0, -Gap, 0), Segment(Gap, 0, w, 0)]
    case ShowIntersection =>
      [Segment(-w, 0, w, 0), Segment(0, -h, 0, h)]
    case ShowSmallBasic =>
      [Segment(0, -StubEnd, 0, -Gap), Segment(0, Gap, 0, StubEnd),
       Segment(-StubEnd, 0, -Gap, 0), Segment(Gap, 0, StubEnd, 0)]
    case ShowSmallIntersection =>
      [Segment(0, -StubEnd, 0, StubEnd), Segment(-StubEnd, 0, StubEnd, 0)]
    case OtherMode(_) => []
  }

  function StartPoint(s: Segment): Point { Point(s.x1, s.y1, 0) }
  function EndPoint(s: Segment): Point { Point(s.x2, s.y2, 0) }

  /** The point list after adding `segs` one after another to an empty one. */
  function PointsOf(segs: seq<Segment>): (pts: seq<Point>)
    ensures |pts| == 2 * |segs|
  {
    if segs == [] then []
    else
      var last := segs[|segs| - 1];
      PointsOf(segs[..|segs| - 1]) + [StartPoint(last), EndPoint(last)]
  }

  /** The cell array after adding `n` lines to an empty one, each over the two
      points added with it. */
  function LinesOf(n: nat): (lines: seq<Line>)
    ensures |lines| == n
  {
    if n == 0 then [] else LinesOf(n - 1) + [Line(2 * (n - 1), 2 * (n - 1) + 1)]
  }

  /** Adding one more segment appends its two end points and one line over them. */
  lemma AppendSegment(segs: seq<Segment>, s: Segment)
    ensures PointsOf(segs + [s]) == PointsOf(segs) + [StartPoint(s), EndPoint(s)]
    ensures LinesOf(|segs + [s]|) == LinesOf(|segs|) + [Line(|PointsOf(segs)|, |PointsOf(segs)| + 1)]
  {
    assert (segs + [s])[..|segs|] == segs;
  }

  /** Point 2k and point 2k+1 are the two ends of segment k. */
  lemma {:induction false} PointsOfAt(segs: seq<Segment>, k: nat)
    requires k < |segs|
    ensures PointsOf(segs)[2 * k] == StartPoint(segs[k])
    ensures PointsOf(segs)[2 * k + 1] == EndPoint(segs[k])
  {
    var init := segs[..|segs| - 1];
    if k < |segs| - 1 {
      PointsOfAt(init, k);
      assert segs[k] == init[k];
    }
  }

  /** Line k joins point 2k to point 2k+1. */
  lemma {:induction false} LinesOfAt(n: nat, k: nat)
    requires k < n
    ensures LinesOf(n)[k] == Line(2 * k, 2 * k + 1)
  {
    if k < n - 1 {
      LinesOfAt(n - 1, k);
    }
  }

  /** After a build, every line of the cell array refers to points that exist,
      and line k is drawn exactly between the two ends of segment k. */
  lemma LinesDrawSegments(segs: seq<Segment>, k: nat)
    requires k < |segs|
    ensures LinesOf(|segs|)[k].first < |PointsOf(segs)| && LinesOf(|segs|)[k].second < |PointsOf(segs)|
    ensures PointsOf(segs)[LinesOf(|segs|)[k].first] == StartPoint(segs[k])
    ensures PointsOf(segs)[LinesOf(|segs|)[k].second] == EndPoint(segs[k])
  {
    LinesOfAt(|segs|, k);
    PointsOfAt(segs, k);
  }

  /** How many segments each mode draws. */
  lemma SegmentCounts(mode: CrosshairMode, w: int, h: int)
    ensures |CrosshairSegments(mode, w, h)| ==
      match mode
      case ShowBasic => 4
      case ShowSmallBasic => 4
      case ShowIntersection => 2
      case ShowSmallIntersection => 2
      case _ => 0
  {
  }

  /** The basic modes leave the 5-pixel gap around the centre free: no segment
      covers a point closer than 5 pixels to it along its axis. */
  lemma BasicModesKeepGap(mode: CrosshairMode, w: int, h: int)
    requires mode.ShowBasic? || mode.ShowSmallBasic?
    requires mode.ShowBasic? ==> w >= Gap && h >= Gap
    ensures forall s :: s in CrosshairSegments(mode, w, h) ==> AxisLow(s) >= Gap || AxisHigh(s) <= -Gap
  {
  }

  /** The intersection modes draw through the centre. */
  lemma IntersectionModesCrossCentre(mode: CrosshairMode, w: int, h: int)
    requires mode.ShowIntersection? || mode.ShowSmallIntersection?
    ensures forall s :: s in CrosshairSegments(mode, w, h) ==> AxisLow(s) <= 0 <= AxisHigh(s)
  {
  }

  /** The long arms reach the screen size; the small modes ignore it. */
  lemma SmallModesIgnoreScreenSize(mode: CrosshairMode, w: int, h: int, w': int, h': int)
    requires !mode.ShowBasic? && !mode.ShowIntersection?
    ensures CrosshairSegments(mode, w, h) == CrosshairSegments(mode, w', h')
  {
  }

  /** Every mode's drawing is symmetric about the centre: the mirror image of
      each segment through the centre is drawn too (possibly reversed). */
  lemma SegmentsPointSymmetric(mode: CrosshairMode, w: int, h: int)
    ensures forall s :: s in CrosshairSegments(mode, w, h) ==>
      Segment(-s.x1, -s.y1, -s.x2, -s.y2) in CrosshairSegments(mode, w, h) ||
      Segment(-s.x2, -s.y2, -s.x1, -s.y1) in CrosshairSegments(mode, w, h)
  {
  }

  /** The line width set for each thickness; none is set for another value. */
  function LineWidth(t: CrosshairThickness): (width: Option<int>)
    ensures width.None? <==> t.OtherThickness?
    ensures width.Some? ==> width.value in {1, 3, 5}
  {
    if t == Fine then Some(1)
    else if t == Medium then Some(3)
    else if t == Thick then Some(5)
    else None
  }

  /** Whether the crosshair actor is shown for `mode`. */
  function IsVisible(mode: CrosshairMode): (visible: bool)
    ensures !visible <==> mode.NoCrosshair?
    ensures mode.OtherMode? ==> visible
  {
    mode != NoCrosshair
  }

  /** The crosshair is shown exactly when it draws something or its mode is
      unrecognised: an unrecognised mode is shown with no segments. */
  lemma VisibleIffDrawnOrUnrecognised(mode: CrosshairMode, w: int, h: int)
    ensures IsVisible(mode) <==> CrosshairSegments(mode, w, h) != [] || mode.OtherMode?
    ensures mode.OtherMode? ==> IsVisible(mode) && CrosshairSegments(mode, w, h) == []
  {
  }
}
