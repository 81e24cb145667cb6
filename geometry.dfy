/**
 * Lane and background-reference geometry of the gel analyser: the line
 * segments along which lane profiles and background reference columns are
 * sampled, and the column keys under which the reference samples are stored.
 */
module Geometry {

  /** Lane direction chosen with the Vertical/Horizontal radio buttons. */
  datatype Orientation = Vertical | Horizontal

  /** A straight line ROI from (x1, y1) to (x2, y2) in image coordinates. */
  datatype Segment = Segment(x1: real, y1: real, x2: real, y2: real)

  /** Stroke width of a line ROI: lanes set it, background lines keep the default. */
  datatype Stroke = DefaultStroke | StrokeWidth(w: int)

  /** The lane layout typed into the lane-selection window. */
  datatype LaneGeometry = LaneGeometry(
    firstX: int, firstY: int,
    laneLength: int, laneSep: int, laneWidth: int, laneCount: int,
    dir: Orientation)

  /** The two background reference lines: left column x and distance to the right one. */
  datatype BackgroundGeometry = BackgroundGeometry(bgX: int, bgSep: int)

  /** Number of iterations of `range(count)`: none when the count is not positive. */
  function Iterations(count: int): nat
  {
    if count < 0 then 0 else count
  }

  /** Number of lanes the loops over `range(lane_count)` visit. */
  function Lanes(g: LaneGeometry): nat
  {
    Iterations(g.laneCount)
  }

  /** Segment sampled for lane i (analyze and removeBackground use the same one). */
  function LaneSegment(g: LaneGeometry, i: int): Segment
  {
    match g.dir
    case Vertical =>
      var x := (g.firstX + i * g.laneSep) as real;
      Segment(x, g.firstY as real, x, (g.firstY + g.laneLength) as real)
    case Horizontal =>
      var y := (g.firstY + i * g.laneSep) as real;
      Segment(g.firstX as real, y, (g.firstX + g.laneLength) as real, y)
  }

  /** The segment moved by (dx, dy). */
  function Shift(s: Segment, dx: real, dy: real): Segment
  {
    Segment(s.x1 + dx, s.y1 + dy, s.x2 + dx, s.y2 + dy)
  }

  /** The segment mirrored across the image diagonal (x and y exchanged). */
  function TransposeSegment(s: Segment): Segment
  {
    Segment(s.y1, s.x1, s.y2, s.x2)
  }

  /** The same layout with the roles of the x and y origin exchanged. */
  function TransposeGeometry(g: LaneGeometry): LaneGeometry
  {
    g.(firstX := g.firstY, firstY := g.firstX)
  }

  /** The segment runs along the lane direction, from lower to higher coordinate. */
  predicate RunsAlong(s: Segment, dir: Orientation)
  {
    match dir
    case Vertical => s.x1 == s.x2 && s.y1 <= s.y2
    case Horizontal => s.y1 == s.y2 && s.x1 <= s.x2
  }

  /** Length of an axis-parallel segment. */
  function AxisLength(s: Segment): real
  {
    (s.x2 - s.x1) + (s.y2 - s.y1)
  }

  /**
   * Lane i is an axis-parallel segment of length laneLength in the lane
   * direction, and lane 0 starts at the origin typed in by the user.
   */
  lemma LaneSegmentShape(g: LaneGeometry, i: int)
    requires g.laneLength >= 0
    ensures RunsAlong(LaneSegment(g, i), g.dir)
    ensures AxisLength(LaneSegment(g, i)) == g.laneLength as real
    ensures LaneSegment(g, 0).x1 == g.firstX as real && LaneSegment(g, 0).y1 == g.firstY as real
  {
  }

  /** Lane i + 1 is lane i moved by laneSep across the lane direction. */
  lemma ConsecutiveLanes(g: LaneGeometry, i: int)
    ensures g.dir == Vertical ==>
      LaneSegment(g, i + 1) == Shift(LaneSegment(g, i), g.laneSep as real, 0.0)
    ensures g.dir == Horizontal ==>
      LaneSegment(g, i + 1) == Shift(LaneSegment(g, i), 0.0, g.laneSep as real)
  {
  }

  /** The horizontal layout is the vertical layout of the transposed image. */
  lemma HorizontalIsTransposedVertical(g: LaneGeometry, i: int)
    ensures LaneSegment(g.(dir := Horizontal), i)
         == TransposeSegment(LaneSegment(TransposeGeometry(g).(dir := Vertical), i))
  {
  }

  // ---------------------------------------------------------------------------
  // Background reference columns

  /** Column of reference line i (0 = left, 1 = right) jittered by offset off. */
  function ReferenceX(bg: BackgroundGeometry, i: int, off: int): int
  {
    bg.bgX + i * bg.bgSep + off
  }

  /** Segment sampled for reference column (i, off): always a vertical column. */
  function ReferenceSegment(bg: BackgroundGeometry, g: LaneGeometry, i: int, off: int): Segment
  {
    var x := ReferenceX(bg, i, off) as real;
    match g.dir
    case Vertical =>
      Segment(x, g.firstY as real, x, (g.firstY + g.laneLength) as real)
    case Horizontal =>
      var yOffset := 0.5 * g.laneWidth as real;
      Segment(x, g.firstY as real - yOffset,
              x, (g.firstY + (g.laneCount - 1) * g.laneSep) as real + yOffset)
  }

  /** All dictionary keys written by the two nested loops over i and the offset. */
  function ReferenceKeys(bg: BackgroundGeometry): set<int>
  {
    set i, off | 0 <= i < 2 && -2 <= off <= 2 :: ReferenceX(bg, i, off)
  }

  /**
   * The loop iteration (i, off) whose write a key keeps: the right line
   * (i = 1) comes later in loop order, so it wins every collision.
   */
  function Writer(bg: BackgroundGeometry, k: int): (int, int)
  {
    var d := k - bg.bgX - bg.bgSep;
    if -2 <= d <= 2 then (1, d) else (0, k - bg.bgX)
  }

  /** The integers lo..hi inclusive. */
  function Interval(lo: int, hi: int): set<int>
    decreases hi - lo
  {
    if hi < lo then {} else Interval(lo, hi - 1) + {hi}
  }

  lemma {:induction false} IntervalFacts(lo: int, hi: int)
    ensures forall k :: k in Interval(lo, hi) <==> lo <= k <= hi
    ensures |Interval(lo, hi)| == if hi < lo then 0 else hi - lo + 1
    decreases hi - lo
  {
    if lo <= hi {
      IntervalFacts(lo, hi - 1);
    }
  }

  /** The five columns centre-2 .. centre+2 sampled around one reference line. */
  function Window(centre: int): set<int>
  {
    Interval(centre - 2, centre + 2)
  }

  lemma ReferenceKeysAreWindows(bg: BackgroundGeometry)
    ensures ReferenceKeys(bg) == Window(bg.bgX) + Window(bg.bgX + bg.bgSep)
  {
    var left, right := Window(bg.bgX), Window(bg.bgX + bg.bgSep);
    ReferenceXOfLine(bg, 0, 0);
    ReferenceXOfLine(bg, 1, 0);
    forall k | k in left ensures k in ReferenceKeys(bg) {
      WindowInKeys(bg, 0, ReferenceX(bg, 0, 0), k);
    }
    forall k | k in right ensures k in ReferenceKeys(bg) {
      WindowInKeys(bg, 1, ReferenceX(bg, 1, 0), k);
    }
    forall k | k in ReferenceKeys(bg) ensures k in left + right {
      var i, off :| 0 <= i < 2 && -2 <= off <= 2 && ReferenceX(bg, i, off) == k;
      KeyInWindows(bg, i, off);
    }
  }

  /** The column of line 0 is bg_x + off, that of line 1 is bg_x + bg_sep + off. */
  lemma ReferenceXOfLine(bg: BackgroundGeometry, i: int, off: int)
    requires 0 <= i < 2
    ensures ReferenceX(bg, i, off) == if i == 0 then bg.bgX + off else bg.bgX + bg.bgSep + off
  {
  }

  /** Every column of the window around line i's centre c is written by line i. */
  lemma WindowInKeys(bg: BackgroundGeometry, i: int, c: int, k: int)
    requires 0 <= i < 2 && c == ReferenceX(bg, i, 0) && k in Window(c)
    ensures k in ReferenceKeys(bg)
  {
    IntervalFacts(c - 2, c + 2);
    assert ReferenceX(bg, i, k - c) == k;
  }

  /** Every write of the nested loops lands in one of the two windows. */
  lemma KeyInWindows(bg: BackgroundGeometry, i: int, off: int)
    requires 0 <= i < 2 && -2 <= off <= 2
    ensures ReferenceX(bg, i, off) in Window(bg.bgX) + Window(bg.bgX + bg.bgSep)
  {
    ReferenceXOfLine(bg, i, off);
    if i == 0 {
      InWindow(bg.bgX, ReferenceX(bg, i, off));
    } else {
      InWindow(bg.bgX + bg.bgSep, ReferenceX(bg, i, off));
    }
  }

  lemma InWindow(c: int, k: int)
    requires c - 2 <= k <= c + 2
    ensures k in Window(c)
  {
    IntervalFacts(c - 2, c + 2);
  }

  /** Two windows whose centres are d apart cover 5 + |d| columns, or 10 when apart. */
  lemma {:induction false} WindowUnionSize(c: int, d: int)
    ensures |Window(c) + Window(c + d)| == if -5 < d < 5 then 5 + Abs(d) else 10
  {
    var left, right := Window(c), Window(c + d);
    IntervalFacts(c - 2, c + 2);
    IntervalFacts(c + d - 2, c + d + 2);
    if d >= 5 || d <= -5 {
      forall k | k in left ensures k !in right { }
      assert left !! right;
    } else {
      var lo, hi := if d >= 0 then c - 2 else c + d - 2, if d >= 0 then c + d + 2 else c + 2;
      IntervalFacts(lo, hi);
      forall k ensures k in left + right <==> k in Interval(lo, hi) { }
      assert left + right == Interval(lo, hi);
    }
  }

  /**
   * The reference columns are the union of two five-column windows; there are
   * ten of them unless the windows overlap, i.e. unless |bgSep| < 5.
   */
  lemma ReferenceKeyCount(bg: BackgroundGeometry)
    ensures |ReferenceKeys(bg)| == if -5 < bg.bgSep < 5 then 5 + Abs(bg.bgSep) else 10
    ensures |ReferenceKeys(bg)| <= 10
  {
    ReferenceKeysAreWindows(bg);
    WindowUnionSize(bg.bgX, bg.bgSep);
  }

  function Abs(v: int): nat
  {
    if v < 0 then -v else v
  }
}
