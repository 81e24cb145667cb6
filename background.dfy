/**
 * The background-correction steps of the gel analyser: the lane profiles
 * taken in `analyze`, the reference columns collected by
 * `extract_background` and fitted with a plane, and the in-place
 * subtraction of that plane from every lane profile in `removeBackground`.
 *
 * The image sampler (ImageJ's line profile of a line ROI) is a parameter.
 */
module Background {
  import opened Geometry
  import opened PlaneFit

  /** The line-profile sampler: the values along a segment drawn with a stroke. */
  type Sampler = (Segment, Stroke) -> seq<real>

  // ---------------------------------------------------------------------------
  // analyze

  /** Profile of lane i, sampled with the lane width as stroke. */
  function LaneProfile(g: LaneGeometry, sample: Sampler, i: int): seq<real>
  {
    sample(LaneSegment(g, i), StrokeWidth(g.laneWidth))
  }

  /** analyze: one profile per lane, in lane order. */
  method Analyze(g: LaneGeometry, sample: Sampler) returns (plvalues: seq<seq<real>>)
    ensures |plvalues| == Lanes(g)
    ensures forall i :: 0 <= i < |plvalues| ==> plvalues[i] == LaneProfile(g, sample, i)
  {
    plvalues := [];
    for i := 0 to Lanes(g)
      invariant |plvalues| == i
      invariant forall k :: 0 <= k < i ==> plvalues[k] == LaneProfile(g, sample, k)
    {
      var roi := LaneSegment(g, i);
      plvalues := plvalues + [sample(roi, StrokeWidth(g.laneWidth))];
    }
  }

  // ---------------------------------------------------------------------------
  // extract_background: the dictionary of reference columns

  /** The profile of reference column (i, off): a line with the default stroke. */
  function ColumnSample(bg: BackgroundGeometry, g: LaneGeometry, sample: Sampler, i: int, off: int): seq<real>
  {
    sample(ReferenceSegment(bg, g, i, off), DefaultStroke)
  }

  /** The dictionary `prior` after the writes of reference line i for the offsets lo..hi. */
  function WindowWrites(bg: BackgroundGeometry, g: LaneGeometry, sample: Sampler,
                        prior: map<int, seq<real>>, i: int, lo: int, hi: int): map<int, seq<real>>
    decreases hi - lo
  {
    if hi < lo then prior
    else WindowWrites(bg, g, sample, prior, i, lo, hi - 1)[ReferenceX(bg, i, hi) := ColumnSample(bg, g, sample, i, hi)]
  }

  /** The dictionary after the outer loop has finished lines 0 .. i-1. */
  function LinesDone(bg: BackgroundGeometry, g: LaneGeometry, sample: Sampler, i: nat): map<int, seq<real>>
  {
    if i == 0 then map[]
    else WindowWrites(bg, g, sample, LinesDone(bg, g, sample, i - 1), i - 1, -2, 2)
  }

  /** The dictionary extract_background hands to fit_plane. */
  function ReferenceSamples(bg: BackgroundGeometry, g: LaneGeometry, sample: Sampler): map<int, seq<real>>
  {
    LinesDone(bg, g, sample, 2)
  }

  /**
   * After the writes of line i for offsets lo..hi, the columns of that window
   * hold their own sample and every other column keeps what `prior` had.
   */
  lemma {:induction false} WindowWritesContent(bg: BackgroundGeometry, g: LaneGeometry, sample: Sampler,
                                               prior: map<int, seq<real>>, i: int, lo: int, hi: int)
    ensures var w, c := WindowWrites(bg, g, sample, prior, i, lo, hi), ReferenceX(bg, i, 0);
      && (forall k :: k in w <==> k in prior || c + lo <= k <= c + hi)
      && (forall k :: c + lo <= k <= c + hi ==> w[k] == ColumnSample(bg, g, sample, i, k - c))
      && (forall k :: k in prior && !(c + lo <= k <= c + hi) ==> w[k] == prior[k])
    decreases hi - lo
  {
    if lo <= hi {
      var c := ReferenceX(bg, i, 0);
      var w0 := WindowWrites(bg, g, sample, prior, i, lo, hi - 1);
      WindowWritesContent(bg, g, sample, prior, i, lo, hi - 1);
      assert ReferenceX(bg, i, hi) == c + hi;
      assert WindowWrites(bg, g, sample, prior, i, lo, hi) == w0[c + hi := ColumnSample(bg, g, sample, i, hi)];
    }
  }

  /**
   * extract_background's two nested loops: for each of the two reference
   * lines and each offset -2..2, the profile of that column is stored under
   * its absolute x, replacing whatever an earlier iteration stored there.
   */
  method ReferenceColumns(bg: BackgroundGeometry, g: LaneGeometry, sample: Sampler)
    returns (plvalues: map<int, seq<real>>)
    ensures plvalues == ReferenceSamples(bg, g, sample)
  {
    plvalues := map[];
    for i := 0 to 2
      invariant plvalues == LinesDone(bg, g, sample, i)
    {
      ghost var prior := plvalues;
      for off := -2 to 3
        invariant plvalues == WindowWrites(bg, g, sample, prior, i, -2, off - 1)
      {
        var roi := ReferenceSegment(bg, g, i, off);
        plvalues := plvalues[bg.bgX + i * bg.bgSep + off := sample(roi, DefaultStroke)];
      }
    }
  }

  /**
   * The dictionary holds exactly the reference columns, and each column keeps
   * the profile written last in loop order (Writer), so a column shared by
   * both windows holds the right line's sample.
   */
  lemma ReferenceSamplesContent(bg: BackgroundGeometry, g: LaneGeometry, sample: Sampler)
    ensures ReferenceSamples(bg, g, sample).Keys == ReferenceKeys(bg)
    ensures forall k :: k in ReferenceSamples(bg, g, sample) ==>
      ReferenceSamples(bg, g, sample)[k] == ColumnSample(bg, g, sample, Writer(bg, k).0, Writer(bg, k).1)
  {
    ReferenceSamplesKeys(bg, g, sample);
    ReferenceSamplesValues(bg, g, sample);
  }

  /** The two windows of writes, in loop order. */
  lemma ReferenceSamplesUnfold(bg: BackgroundGeometry, g: LaneGeometry, sample: Sampler)
    ensures var left := WindowWrites(bg, g, sample, map[], 0, -2, 2);
      ReferenceSamples(bg, g, sample) == WindowWrites(bg, g, sample, left, 1, -2, 2)
  {
    assert LinesDone(bg, g, sample, 0) == map[];
    assert LinesDone(bg, g, sample, 1) == WindowWrites(bg, g, sample, map[], 0, -2, 2);
    assert LinesDone(bg, g, sample, 2) == WindowWrites(bg, g, sample, LinesDone(bg, g, sample, 1), 1, -2, 2);
  }

  lemma ReferenceSamplesKeys(bg: BackgroundGeometry, g: LaneGeometry, sample: Sampler)
    ensures ReferenceSamples(bg, g, sample).Keys == ReferenceKeys(bg)
  {
    var left := WindowWrites(bg, g, sample, map[], 0, -2, 2);
    ReferenceSamplesUnfold(bg, g, sample);
    LineKeys(bg, g, sample, map[], 0, bg.bgX);
    LineKeys(bg, g, sample, left, 1, bg.bgX + bg.bgSep);
    assert left.Keys == Window(bg.bgX);
    ReferenceKeysAreWindows(bg);
  }

  /** The five writes of reference line i add the window around its centre c. */
  lemma LineKeys(bg: BackgroundGeometry, g: LaneGeometry, sample: Sampler,
                 prior: map<int, seq<real>>, i: int, c: int)
    requires c == ReferenceX(bg, i, 0)
    ensures WindowWrites(bg, g, sample, prior, i, -2, 2).Keys == prior.Keys + Window(c)
  {
    WindowWritesKeys(bg, g, sample, prior, i, -2, 2);
    assert c + -2 == c - 2;
  }

  /** The writes of line i for offsets lo..hi add exactly the columns of that window. */
  lemma {:induction false} WindowWritesKeys(bg: BackgroundGeometry, g: LaneGeometry, sample: Sampler,
                                            prior: map<int, seq<real>>, i: int, lo: int, hi: int)
    ensures var c := ReferenceX(bg, i, 0);
      WindowWrites(bg, g, sample, prior, i, lo, hi).Keys == prior.Keys + Interval(c + lo, c + hi)
    decreases hi - lo
  {
    if lo <= hi {
      WindowWritesKeys(bg, g, sample, prior, i, lo, hi - 1);
      assert ReferenceX(bg, i, hi) == ReferenceX(bg, i, 0) + hi;
    }
  }

  lemma ReferenceSamplesValues(bg: BackgroundGeometry, g: LaneGeometry, sample: Sampler)
    ensures forall k :: k in ReferenceSamples(bg, g, sample) ==>
      ReferenceSamples(bg, g, sample)[k] == ColumnSample(bg, g, sample, Writer(bg, k).0, Writer(bg, k).1)
  {
    var left := WindowWrites(bg, g, sample, map[], 0, -2, 2);
    var all := ReferenceSamples(bg, g, sample);
    var cr := bg.bgX + bg.bgSep;
    ReferenceSamplesUnfold(bg, g, sample);
    LineContent(bg, g, sample, map[], 0, bg.bgX);
    LineContent(bg, g, sample, left, 1, cr);
    forall k | k in all
      ensures all[k] == ColumnSample(bg, g, sample, Writer(bg, k).0, Writer(bg, k).1)
    {
      KeptWrite(bg, g, sample, left, all, k);
    }
  }

  /**
   * One key of the dictionary after both lines: the right window's write if
   * the key is in it, the left window's otherwise, as Writer says.
   */
  lemma KeptWrite(bg: BackgroundGeometry, g: LaneGeometry, sample: Sampler,
                  left: map<int, seq<real>>, all: map<int, seq<real>>, k: int)
    requires forall k :: k in left <==> bg.bgX - 2 <= k <= bg.bgX + 2
    requires forall k :: bg.bgX - 2 <= k <= bg.bgX + 2 ==> left[k] == ColumnSample(bg, g, sample, 0, k - bg.bgX)
    requires var cr := bg.bgX + bg.bgSep;
      && (forall k :: k in all <==> k in left || cr - 2 <= k <= cr + 2)
      && (forall k :: cr - 2 <= k <= cr + 2 ==> all[k] == ColumnSample(bg, g, sample, 1, k - cr))
      && (forall k :: k in left && !(cr - 2 <= k <= cr + 2) ==> all[k] == left[k])
    requires k in all
    ensures all[k] == ColumnSample(bg, g, sample, Writer(bg, k).0, Writer(bg, k).1)
  {
  }

  /**
   * The five writes of reference line i, centred on c: the window holds that
   * line's columns and every other key keeps its earlier value.
   */
  lemma LineContent(bg: BackgroundGeometry, g: LaneGeometry, sample: Sampler,
                    prior: map<int, seq<real>>, i: int, c: int)
    requires c == ReferenceX(bg, i, 0)
    ensures var w := WindowWrites(bg, g, sample, prior, i, -2, 2);
      && (forall k :: k in w <==> k in prior || c - 2 <= k <= c + 2)
      && (forall k :: c - 2 <= k <= c + 2 ==> w[k] == ColumnSample(bg, g, sample, i, k - c))
      && (forall k :: k in prior && !(c - 2 <= k <= c + 2) ==> w[k] == prior[k])
  {
    WindowWritesContent(bg, g, sample, prior, i, -2, 2);
  }

  /**
   * Writer(k) is the last iteration (i, off) of the nested loops, in loop
   * order, whose column is k.
   */
  lemma WriterIsLastWrite(bg: BackgroundGeometry, k: int)
    requires k in ReferenceKeys(bg)
    ensures var (i, off) := Writer(bg, k);
      0 <= i < 2 && -2 <= off <= 2 && ReferenceX(bg, i, off) == k
    ensures forall i, off :: 0 <= i < 2 && -2 <= off <= 2 && ReferenceX(bg, i, off) == k ==>
      i < Writer(bg, k).0 || (i == Writer(bg, k).0 && off <= Writer(bg, k).1)
  {
    var i0, off0 :| 0 <= i0 < 2 && -2 <= off0 <= 2 && ReferenceX(bg, i0, off0) == k;
  }

  /** At most ten columns enter the fit (five per reference line). */
  lemma ReferenceSamplesCount(bg: BackgroundGeometry, g: LaneGeometry, sample: Sampler)
    ensures |ReferenceSamples(bg, g, sample).Keys| <= 10
  {
    ReferenceSamplesContent(bg, g, sample);
    ReferenceKeyCount(bg);
  }

  /** extract_background: the plane fitted to the reference columns. */
  method ExtractBackground(bg: BackgroundGeometry, g: LaneGeometry, sample: Sampler) returns (p: Plane)
    ensures p == Solve(Statistics(ReferenceSamples(bg, g, sample)))
  {
    var plvalues := ReferenceColumns(bg, g, sample);
    p := FitPlane(plvalues);
  }

  // ---------------------------------------------------------------------------
  // removeBackground: in-place subtraction

  /** A point (x, y) in the coordinates the subtraction evaluates the plane at. */
  datatype Point = Point(x: real, y: real)

  /**
   * The point removeBackground evaluates the plane at for sample j of lane i.
   * Vertical: the lane's x and the absolute y first_y + j. Horizontal: x is
   * first_x + j and y is i * lane_sep + 0.5 * lane_width for every j.
   */
  function PixelAt(g: LaneGeometry, i: int, j: int): Point
  {
    match g.dir
    case Vertical => Point((g.firstX + i * g.laneSep) as real, (g.firstY + j) as real)
    case Horizontal => Point((g.firstX + j) as real, (i * g.laneSep) as real + 0.5 * g.laneWidth as real)
  }

  /**
   * The point in the frame of the fit: y counted from the start of the
   * reference line, which in the vertical layout is sample j itself.
   */
  function IntendedPixelAt(g: LaneGeometry, i: int, j: int): Point
  {
    match g.dir
    case Vertical => Point((g.firstX + i * g.laneSep) as real, j as real)
    case Horizontal => PixelAt(g, i, j)
  }

  /** How sample positions are mapped into the fit's frame. */
  datatype Frame = AsWritten | Intended

  function PointIn(frame: Frame, g: LaneGeometry, i: int, j: int): Point
  {
    match frame
    case AsWritten => PixelAt(g, i, j)
    case Intended => IntendedPixelAt(g, i, j)
  }

  /** Sample j of lane i after subtracting the plane evaluated at its point. */
  function Corrected(frame: Frame, g: LaneGeometry, p: Plane, i: int, j: int, v: real): real
  {
    var pt := PointIn(frame, g, i, j);
    v - Eval(p, pt.x, pt.y)
  }

  /**
   * The profile after the subtraction loop: the first lane_length samples
   * are corrected, the others are untouched.
   */
  function Subtracted(frame: Frame, values: seq<real>, g: LaneGeometry, p: Plane, i: int): (r: seq<real>)
    ensures |r| == |values|
    ensures forall j :: 0 <= j < |values| && j < g.laneLength ==> r[j] == Corrected(frame, g, p, i, j, values[j])
    ensures forall j :: 0 <= j < |values| && g.laneLength <= j ==> r[j] == values[j]
  {
    seq(|values|, j requires 0 <= j < |values| =>
      if j < g.laneLength then Corrected(frame, g, p, i, j, values[j]) else values[j])
  }

  /**
   * The inner loop of removeBackground on the profile array of lane i, with
   * the plane evaluated at the points of `frame` (AsWritten is the code as it
   * stands, Intended the corrected vertical y). It writes values[j] for j = 0, 1, ... up to lane_length; an index past the
   * end of the array raises IndexError after all earlier writes took effect.
   */
  method SubtractLane(frame: Frame, values: array<real>, g: LaneGeometry, p: Plane, i: int) returns (ok: bool)
    modifies values
    ensures ok <==> g.laneLength <= values.Length
    ensures values[..] == Subtracted(frame, old(values[..]), g, p, i)
  {
    ghost var before := values[..];
    var j := 0;
    while j < g.laneLength
      invariant 0 <= j <= values.Length
      invariant j <= g.laneLength || (j == 0 && g.laneLength < 0)
      invariant forall k :: 0 <= k < j ==> values[k] == Corrected(frame, g, p, i, k, before[k])
      invariant forall k :: j <= k < values.Length ==> values[k] == before[k]
    {
      if j >= values.Length {
        return false;
      }
      var pt := PointIn(frame, g, i, j);
      values[j] := values[j] - (p.a * pt.x + p.b * pt.y + p.c);
      j := j + 1;
    }
    return true;
  }

  /** The background-corrected profiles, one per lane. */
  function AdjustedProfiles(frame: Frame, g: LaneGeometry, sample: Sampler, p: Plane): (r: seq<seq<real>>)
    ensures |r| == Lanes(g)
  {
    seq(Lanes(g), i requires 0 <= i < Lanes(g) => Subtracted(frame, LaneProfile(g, sample, i), g, p, i))
  }

  /** Every lane profile is at least lane_length long, so no index falls off its end. */
  predicate LongEnough(g: LaneGeometry, sample: Sampler)
  {
    forall i :: 0 <= i < Lanes(g) ==> g.laneLength <= |LaneProfile(g, sample, i)|
  }

  /**
   * removeBackground: for every lane, take its profile, subtract the plane
   * in place and append it to adj_profiles. An IndexError stops the loop
   * with the lanes before the failing one already appended; the failing
   * lane is the first whose profile is shorter than lane_length. With
   * frame == AsWritten this is the code as it stands; Intended is the
   * corrected subtraction.
   */
  method RemoveBackground(frame: Frame, g: LaneGeometry, sample: Sampler, p: Plane)
    returns (adjProfiles: seq<seq<real>>, ok: bool)
    ensures ok <==> LongEnough(g, sample)
    ensures |adjProfiles| <= Lanes(g)
    ensures adjProfiles == AdjustedProfiles(frame, g, sample, p)[..|adjProfiles|]
    ensures ok ==> |adjProfiles| == Lanes(g)
    ensures !ok ==> |adjProfiles| < Lanes(g) && |LaneProfile(g, sample, |adjProfiles|)| < g.laneLength
    ensures forall k :: 0 <= k < |adjProfiles| ==> g.laneLength <= |LaneProfile(g, sample, k)|
  {
    adjProfiles := [];
    for i := 0 to Lanes(g)
      invariant |adjProfiles| == i
      invariant adjProfiles == AdjustedProfiles(frame, g, sample, p)[..i]
      invariant forall k :: 0 <= k < i ==> g.laneLength <= |LaneProfile(g, sample, k)|
    {
      var roi := LaneSegment(g, i);
      var profile := sample(roi, StrokeWidth(g.laneWidth));
      var values := new real[|profile|](k requires 0 <= k < |profile| => profile[k]);
      assert values[..] == profile == LaneProfile(g, sample, i);
      var laneOk := SubtractLane(frame, values, g, p, i);
      if !laneOk {
        ok := false;
        return;
      }
      assert values[..] == AdjustedProfiles(frame, g, sample, p)[i];
      adjProfiles := adjProfiles + [values[..]];
    }
    ok := true;
  }

  // ---------------------------------------------------------------------------
  // Properties of the subtraction

  /** Subtracting the zero plane (the degenerate fit) leaves every profile as it was. */
  lemma ZeroPlaneKeepsProfile(frame: Frame, values: seq<real>, g: LaneGeometry, i: int)
    ensures Subtracted(frame, values, g, ZeroPlane, i) == values
  {
  }

  /** Both frames agree in the horizontal layout, and differ in vertical y by first_y. */
  lemma FramesCompared(g: LaneGeometry, i: int, j: int)
    ensures g.dir == Horizontal ==> PixelAt(g, i, j) == IntendedPixelAt(g, i, j)
    ensures g.dir == Vertical ==>
      PixelAt(g, i, j).x == IntendedPixelAt(g, i, j).x &&
      PixelAt(g, i, j).y == IntendedPixelAt(g, i, j).y + g.firstY as real
  {
  }

  // ---------------------------------------------------------------------------
  // A background that is itself a plane

  /**
   * The sampler reads an image whose grey value is Eval(img, X, Y) at every
   * absolute (X, Y): along a segment the t-th sample is taken t pixels from its
   * start, down a column when x1 == x2 and along a row otherwise.
   */
  ghost predicate LinearImage(sample: Sampler, img: Plane)
  {
    forall s: Segment, st: Stroke, t: int :: 0 <= t < |sample(s, st)| ==>
      sample(s, st)[t] == if s.x1 == s.x2 then Eval(img, s.x1, s.y1 + t as real)
                          else Eval(img, s.x1 + t as real, s.y1)
  }

  /** Where the reference columns start: their sample 0 is at this absolute y. */
  function ReferenceStartY(g: LaneGeometry): real
  {
    match g.dir
    case Vertical => g.firstY as real
    case Horizontal => g.firstY as real - 0.5 * g.laneWidth as real
  }

  /** The plane the fit sees: y counted from the start of the reference columns. */
  function FitFrame(img: Plane, g: LaneGeometry): Plane
  {
    Plane(img.a, img.b, img.c + img.b * ReferenceStartY(g))
  }

  lemma ColumnSampleOnPlane(bg: BackgroundGeometry, g: LaneGeometry, sample: Sampler, img: Plane,
                            i: int, off: int, t: int)
    requires LinearImage(sample, img)
    requires 0 <= t < |ColumnSample(bg, g, sample, i, off)|
    ensures ColumnSample(bg, g, sample, i, off)[t]
         == Eval(FitFrame(img, g), ReferenceX(bg, i, off) as real, t as real)
  {
    var seg := ReferenceSegment(bg, g, i, off);
    assert seg.x1 == seg.x2 == ReferenceX(bg, i, off) as real && seg.y1 == ReferenceStartY(g);
    assert ColumnSample(bg, g, sample, i, off)[t] == Eval(img, seg.x1, seg.y1 + t as real);
    ShiftY(img, seg.x1, seg.y1, t as real);
  }

  /** Counting y from y0 moves y0 times the slope in y into the constant term. */
  lemma ShiftY(img: Plane, x: real, y0: real, t: real)
    ensures Eval(img, x, y0 + t) == Eval(Plane(img.a, img.b, img.c + img.b * y0), x, t)
  {
  }

  /** On a plane image every reference sample lies on the plane in the fit's frame. */
  lemma ReferenceSamplesOnPlane(bg: BackgroundGeometry, g: LaneGeometry, sample: Sampler, img: Plane)
    requires LinearImage(sample, img)
    ensures OnPlane(ReferenceSamples(bg, g, sample), FitFrame(img, g))
  {
    var values := ReferenceSamples(bg, g, sample);
    ReferenceSamplesContent(bg, g, sample);
    forall x, j | x in values && 0 <= j < |values[x]|
      ensures values[x][j] == Eval(FitFrame(img, g), x as real, j as real)
    {
      WriterIsLastWrite(bg, x);
      ColumnSampleOnPlane(bg, g, sample, img, Writer(bg, x).0, Writer(bg, x).1, j);
    }
  }

  /** On a plane image the fit returns that plane, in the fit's frame. */
  lemma FitOfPlaneImage(bg: BackgroundGeometry, g: LaneGeometry, sample: Sampler, img: Plane)
    requires LinearImage(sample, img)
    requires Det(Statistics(ReferenceSamples(bg, g, sample))) != 0
    ensures Solve(Statistics(ReferenceSamples(bg, g, sample))) == FitFrame(img, g)
  {
    ReferenceSamplesOnPlane(bg, g, sample, img);
    ExactPlaneRecovered(ReferenceSamples(bg, g, sample), FitFrame(img, g));
  }

  /** Absolute y of sample j of lane i on the image. */
  function AbsoluteY(g: LaneGeometry, i: int, j: int): real
  {
    match g.dir
    case Vertical => (g.firstY + j) as real
    case Horizontal => (g.firstY + i * g.laneSep) as real
  }

  /**
   * What is left of sample j of lane i of a plane image after subtracting the
   * fit: b times the gap between the sample's y in the fit's frame and the
   * y the subtraction uses.
   */
  lemma Residual(frame: Frame, bg: BackgroundGeometry, g: LaneGeometry, sample: Sampler, img: Plane, i: int, j: int)
    requires LinearImage(sample, img)
    requires Det(Statistics(ReferenceSamples(bg, g, sample))) != 0
    requires 0 <= i < Lanes(g) && 0 <= j < g.laneLength && j < |LaneProfile(g, sample, i)|
    ensures Subtracted(frame, LaneProfile(g, sample, i), g, Solve(Statistics(ReferenceSamples(bg, g, sample))), i)[j]
         == img.b * (AbsoluteY(g, i, j) - ReferenceStartY(g) - PointIn(frame, g, i, j).y)
  {
    FitOfPlaneImage(bg, g, sample, img);
    ResidualOfPlane(frame, g, sample, img, Solve(Statistics(ReferenceSamples(bg, g, sample))), i, j);
  }

  /** Residual for a plane p that is already known to be the image plane in the fit's frame. */
  lemma ResidualOfPlane(frame: Frame, g: LaneGeometry, sample: Sampler, img: Plane, p: Plane, i: int, j: int)
    requires LinearImage(sample, img) && p == FitFrame(img, g)
    requires 0 <= j < g.laneLength && j < |LaneProfile(g, sample, i)|
    ensures Subtracted(frame, LaneProfile(g, sample, i), g, p, i)[j]
         == img.b * (AbsoluteY(g, i, j) - ReferenceStartY(g) - PointIn(frame, g, i, j).y)
  {
    var prof := LaneProfile(g, sample, i);
    var pt := PointIn(frame, g, i, j);
    assert pt.x == PixelAt(g, i, j).x;
    LaneSampleOnPlane(g, sample, img, i, j, pt.x);
    assert Subtracted(frame, prof, g, p, i)[j] == prof[j] - Eval(p, pt.x, pt.y);
    ShiftedDifference(img, pt.x, AbsoluteY(g, i, j), pt.y, ReferenceStartY(g));
  }

  /** On a plane image, sample j of lane i is the plane at (x, AbsoluteY), x the x of its point. */
  lemma LaneSampleOnPlane(g: LaneGeometry, sample: Sampler, img: Plane, i: int, j: int, x: real)
    requires LinearImage(sample, img)
    requires 0 <= j < g.laneLength && j < |LaneProfile(g, sample, i)|
    requires x == PixelAt(g, i, j).x
    ensures LaneProfile(g, sample, i)[j] == Eval(img, x, AbsoluteY(g, i, j))
  {
    var seg := LaneSegment(g, i);
    match g.dir
    case Vertical =>
      assert seg.x1 == seg.x2 == x && seg.y1 + j as real == AbsoluteY(g, i, j);
    case Horizontal =>
      assert seg.x1 != seg.x2 && seg.x1 + j as real == x && seg.y1 == AbsoluteY(g, i, j);
  }

  /** The plane at (x, y) minus the shifted plane at (x, y') leaves b * (y - y0 - y'). */
  lemma ShiftedDifference(img: Plane, x: real, y: real, y': real, y0: real)
    ensures Eval(img, x, y) - Eval(Plane(img.a, img.b, img.c + img.b * y0), x, y') == img.b * (y - y0 - y')
  {
  }

  /**
   * As written, the vertical layout leaves -b * first_y behind on every
   * corrected sample of a plane background: the fit counts y from the top
   * of the reference column, the subtraction uses the absolute row.
   */
  lemma VerticalResidualAsWritten(bg: BackgroundGeometry, g: LaneGeometry, sample: Sampler, img: Plane, i: int, j: int)
    requires g.dir == Vertical
    requires LinearImage(sample, img)
    requires Det(Statistics(ReferenceSamples(bg, g, sample))) != 0
    requires 0 <= i < Lanes(g) && 0 <= j < g.laneLength && j < |LaneProfile(g, sample, i)|
    ensures Subtracted(AsWritten, LaneProfile(g, sample, i), g, Solve(Statistics(ReferenceSamples(bg, g, sample))), i)[j]
         == -img.b * g.firstY as real
  {
    FitOfPlaneImage(bg, g, sample, img);
    VerticalOffsetOfPlane(g, sample, img, Solve(Statistics(ReferenceSamples(bg, g, sample))), i, j);
  }

  /** Subtracting the image plane, in the fit's frame, at the absolute rows leaves -b * first_y. */
  lemma VerticalOffsetOfPlane(g: LaneGeometry, sample: Sampler, img: Plane, p: Plane, i: int, j: int)
    requires g.dir == Vertical
    requires LinearImage(sample, img) && p == FitFrame(img, g)
    requires 0 <= j < g.laneLength && j < |LaneProfile(g, sample, i)|
    ensures Subtracted(AsWritten, LaneProfile(g, sample, i), g, p, i)[j] == -img.b * g.firstY as real
  {
    ResidualOfPlane(AsWritten, g, sample, img, p, i, j);
    assert AbsoluteY(g, i, j) - ReferenceStartY(g) - PixelAt(g, i, j).y == -(g.firstY as real);
  }

  /**
   * With sample positions in the fit's frame, a plane background is removed
   * exactly in both layouts.
   */
  lemma IntendedResidualIsZero(bg: BackgroundGeometry, g: LaneGeometry, sample: Sampler, img: Plane, i: int, j: int)
    requires LinearImage(sample, img)
    requires Det(Statistics(ReferenceSamples(bg, g, sample))) != 0
    requires 0 <= i < Lanes(g) && 0 <= j < g.laneLength && j < |LaneProfile(g, sample, i)|
    ensures Subtracted(Intended, LaneProfile(g, sample, i), g, Solve(Statistics(ReferenceSamples(bg, g, sample))), i)[j] == 0.0
  {
    FitOfPlaneImage(bg, g, sample, img);
    FlatOfPlane(g, sample, img, Solve(Statistics(ReferenceSamples(bg, g, sample))), i, j);
  }

  /** Subtracting the image plane, in the fit's frame, at the intended points leaves zero. */
  lemma FlatOfPlane(g: LaneGeometry, sample: Sampler, img: Plane, p: Plane, i: int, j: int)
    requires LinearImage(sample, img) && p == FitFrame(img, g)
    requires 0 <= j < g.laneLength && j < |LaneProfile(g, sample, i)|
    ensures Subtracted(Intended, LaneProfile(g, sample, i), g, p, i)[j] == 0.0
  {
    ResidualOfPlane(Intended, g, sample, img, p, i, j);
    IntendedGap(g, i, j);
  }

  /** In the fit's frame the y of every sample is its absolute y minus where the reference columns start. */
  lemma IntendedGap(g: LaneGeometry, i: int, j: int)
    ensures AbsoluteY(g, i, j) - ReferenceStartY(g) - IntendedPixelAt(g, i, j).y == 0.0
  {
  }

  /**
   * The corrected pipeline on a plane image: extract_background's fit,
   * subtracted in the fit's frame, leaves every lane flat at zero up to
   * lane_length.
   */
  lemma IntendedProfilesAreFlat(bg: BackgroundGeometry, g: LaneGeometry, sample: Sampler, img: Plane)
    requires LinearImage(sample, img)
    requires Det(Statistics(ReferenceSamples(bg, g, sample))) != 0
    ensures var adj := AdjustedProfiles(Intended, g, sample, Solve(Statistics(ReferenceSamples(bg, g, sample))));
      forall i, j :: 0 <= i < |adj| && 0 <= j < |adj[i]| && j < g.laneLength ==> adj[i][j] == 0.0
  {
    var adj := AdjustedProfiles(Intended, g, sample, Solve(Statistics(ReferenceSamples(bg, g, sample))));
    forall i, j | 0 <= i < |adj| && 0 <= j < |adj[i]| && j < g.laneLength
      ensures adj[i][j] == 0.0
    {
      IntendedResidualIsZero(bg, g, sample, img, i, j);
    }
  }
}
