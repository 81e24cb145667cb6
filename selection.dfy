/**
 * The peak-sum step of the gel analyser: a list of selection ranges over
 * the background-corrected lane profiles, the sum of every lane over a
 * range (a Python slice sum), and the tab-separated results text.
 */
module Selection {
  import opened Geometry
  import opened Export

  datatype Option<T> = None | Some(value: T)

  /** A selection area [left, right]: a half-open slice of every profile. */
  datatype Range = Range(left: int, right: int)

  // ---------------------------------------------------------------------------
  // Python slices and sums

  /** Where Python puts a slice bound i on a sequence of length len. */
  function SliceIndex(i: int, len: nat): (r: nat)
    ensures r <= len
    ensures 0 <= i <= len ==> r == i
    ensures i < 0 && 0 <= i + len ==> r == i + len
    ensures i + len < 0 ==> r == 0
    ensures len < i ==> r == len
  {
    var j := if i < 0 then i + len else i;
    if j < 0 then 0 else if j > len then len else j
  }

  /** Python's p[l:r]. */
  function Slice(p: seq<real>, l: int, r: int): (s: seq<real>)
    ensures var lo, hi := SliceIndex(l, |p|), SliceIndex(r, |p|);
      && |s| == (if lo < hi then hi - lo else 0)
      && forall k :: 0 <= k < |s| ==> s[k] == p[lo + k]
  {
    var lo, hi := SliceIndex(l, |p|), SliceIndex(r, |p|);
    if lo < hi then p[lo..hi] else []
  }

  /** Python's sum, adding from the left. */
  function Sum(s: seq<real>): real
  {
    if s == [] then 0.0 else Sum(s[..|s| - 1]) + s[|s| - 1]
  }

  /** sum(profile[left:right]) */
  function RangeSum(profile: seq<real>, r: Range): real
  {
    Sum(Slice(profile, r.left, r.right))
  }

  lemma {:induction false} SumAppend(a: seq<real>, b: seq<real>)
    ensures Sum(a + b) == Sum(a) + Sum(b)
    decreases |b|
  {
    if b == [] {
      assert a + b == a;
    } else {
      var u := |b| - 1;
      SumAppend(a, b[..u]);
      var ab := a + b;
      assert ab[..|ab| - 1] == a + b[..u];
      assert ab[|ab| - 1] == b[u];
      assert Sum(ab) == Sum(a + b[..u]) + b[u];
    }
  }

  /**
   * For bounds inside the profile, the range sum is the difference of two
   * prefix sums, i.e. the sum of profile[k] for left <= k < right.
   */
  lemma RangeSumIsPrefixDifference(profile: seq<real>, left: int, right: int)
    requires 0 <= left <= right <= |profile|
    ensures RangeSum(profile, Range(left, right)) == Sum(profile[..right]) - Sum(profile[..left])
  {
    assert profile[..right] == profile[..left] + profile[left..right];
    SumAppend(profile[..left], profile[left..right]);
  }

  /** Consecutive ranges add up. */
  lemma RangeSumSplit(profile: seq<real>, left: int, mid: int, right: int)
    requires 0 <= left <= mid <= right <= |profile|
    ensures RangeSum(profile, Range(left, right))
         == RangeSum(profile, Range(left, mid)) + RangeSum(profile, Range(mid, right))
  {
    RangeSumIsPrefixDifference(profile, left, right);
    RangeSumIsPrefixDifference(profile, left, mid);
    RangeSumIsPrefixDifference(profile, mid, right);
  }

  /** A range whose bounds meet (after Python's index rules) sums to zero. */
  lemma EmptyRangeSum(profile: seq<real>, r: Range)
    requires SliceIndex(r.right, |profile|) <= SliceIndex(r.left, |profile|)
    ensures RangeSum(profile, r) == 0.0
  {
  }

  /** The sums of lanes 0 .. count-1 over one range. */
  function LaneSums(profiles: seq<seq<real>>, count: nat, r: Range): (sums: seq<real>)
    requires count <= |profiles|
    ensures |sums| == count
    ensures forall i :: 0 <= i < count ==> sums[i] == RangeSum(profiles[i], r)
  {
    seq(count, i requires 0 <= i < count => RangeSum(profiles[i], r))
  }

  // ---------------------------------------------------------------------------
  // The results text

  function HeaderRow(selections: nat): seq<string>
  {
    ["Lane no."] + seq(selections, k requires 0 <= k < selections => "Selection " + NatToString(k + 1))
  }

  function LaneRow(fmt: real -> string, profile: seq<real>, selectionList: seq<Range>, i: nat): seq<string>
  {
    ["Lane " + NatToString(i + 1)]
      + seq(|selectionList|, j requires 0 <= j < |selectionList| => fmt(RangeSum(profile, selectionList[j])))
  }

  /** The rows of the saved table: the header, then one row per lane. */
  function ResultRows(fmt: real -> string, laneCount: int, selectionList: seq<Range>,
                      profiles: seq<seq<real>>): seq<seq<string>>
    requires Iterations(laneCount) <= |profiles|
  {
    [HeaderRow(|selectionList|)]
      + seq(Iterations(laneCount), i requires 0 <= i < Iterations(laneCount) => LaneRow(fmt, profiles[i], selectionList, i))
  }

  lemma LaneRowStep(fmt: real -> string, profile: seq<real>, selectionList: seq<Range>, i: nat, j: nat)
    requires j < |selectionList|
    ensures LaneRow(fmt, profile, selectionList[..j + 1], i)
         == LaneRow(fmt, profile, selectionList[..j], i) + [fmt(RangeSum(profile, selectionList[j]))]
  {
  }

  lemma TableStep(rows: seq<seq<string>>, n: nat)
    requires n < |rows|
    ensures Table(rows[..n + 1]) == Table(rows[..n]) + Join(rows[n], Tab) + [Newline]
  {
    assert rows[..n + 1][..n] == rows[..n];
  }

  /** The number formatter never produces a separator. */
  ghost predicate PlainNumbers(fmt: real -> string)
  {
    forall x :: Free(fmt(x), Tab) && Free(fmt(x), Newline)
  }

  lemma NumeralIsPlain(prefix: string, n: nat)
    requires Free(prefix, Tab) && Free(prefix, Newline)
    ensures Free(prefix + NatToString(n), Tab) && Free(prefix + NatToString(n), Newline)
  {
    var s := prefix + NatToString(n);
    forall k | 0 <= k < |s|
      ensures s[k] != Tab && s[k] != Newline
    {
      if k >= |prefix| {
        assert IsDigit(NatToString(n)[k - |prefix|]);
      }
    }
  }

  /**
   * The layout of the results table: a header of "Lane no." and one
   * "Selection k" per range, then for every lane a row that starts with
   * "Lane i" and has one formatted sum per range, in range order.
   */
  ghost predicate ResultsLayout(fmt: real -> string, laneCount: int, selectionList: seq<Range>,
                                profiles: seq<seq<real>>, rows: seq<seq<string>>)
    requires Iterations(laneCount) <= |profiles|
  {
    && |rows| == 1 + Iterations(laneCount)
    && rows[0] == HeaderRow(|selectionList|)
    && forall i :: 0 <= i < Iterations(laneCount) ==>
         && |rows[i + 1]| == 1 + |selectionList|
         && rows[i + 1][0] == "Lane " + NatToString(i + 1)
         && forall j :: 0 <= j < |selectionList| ==>
              rows[i + 1][j + 1] == fmt(RangeSum(profiles[i], selectionList[j]))
  }

  /**
   * The saved text parses back into its table: a header of "Lane no." and
   * one "Selection k" per range, then for every lane a row that starts with
   * "Lane i" and has one sum per range.
   */
  lemma ResultsTextParses(fmt: real -> string, laneCount: int, selectionList: seq<Range>,
                          profiles: seq<seq<real>>)
    requires Iterations(laneCount) <= |profiles|
    requires PlainNumbers(fmt)
    ensures ResultsLayout(fmt, laneCount, selectionList, profiles,
                          ParseTable(Table(ResultRows(fmt, laneCount, selectionList, profiles))))
  {
    var rows := ResultRows(fmt, laneCount, selectionList, profiles);
    ResultRowsWellFormed(fmt, laneCount, selectionList, profiles, rows);
    ParseTableRoundTrip(rows);
    ResultRowsShape(fmt, laneCount, selectionList, profiles, ParseTable(Table(rows)));
  }

  /** No field of the results table holds a tab or a newline, and no row is empty. */
  lemma ResultRowsWellFormed(fmt: real -> string, laneCount: int, selectionList: seq<Range>,
                             profiles: seq<seq<real>>, rows: seq<seq<string>>)
    requires Iterations(laneCount) <= |profiles|
    requires PlainNumbers(fmt)
    requires rows == ResultRows(fmt, laneCount, selectionList, profiles)
    ensures WellFormed(rows)
  {
    forall i, j | 0 <= i < |rows| && 0 <= j < |rows[i]|
      ensures Free(rows[i][j], Tab) && Free(rows[i][j], Newline)
    {
      if i == 0 {
        if j > 0 {
          NumeralIsPlain("Selection ", j);
        }
      } else if j == 0 {
        NumeralIsPlain("Lane ", i);
      }
    }
  }

  /** The header, then per lane its label and one formatted sum per range. */
  lemma ResultRowsShape(fmt: real -> string, laneCount: int, selectionList: seq<Range>,
                        profiles: seq<seq<real>>, rows: seq<seq<string>>)
    requires Iterations(laneCount) <= |profiles|
    requires rows == ResultRows(fmt, laneCount, selectionList, profiles)
    ensures ResultsLayout(fmt, laneCount, selectionList, profiles, rows)
  {
    forall i | 0 <= i < Iterations(laneCount)
      ensures && |rows[i + 1]| == 1 + |selectionList|
              && rows[i + 1][0] == "Lane " + NatToString(i + 1)
              && forall j :: 0 <= j < |selectionList| ==>
                   rows[i + 1][j + 1] == fmt(RangeSum(profiles[i], selectionList[j]))
    {
      assert rows[i + 1] == LaneRow(fmt, profiles[i], selectionList, i);
    }
  }

  // ---------------------------------------------------------------------------
  // The listener

  class MeasurementListener {
    /** The selection areas, in the order of the combo box. */
    var selectionList: seq<Range>
    /** Index of the area shown in the text fields. */
    var selectedI: int
    /** left_bound and right_bound: unset until the text fields first parse. */
    var bounds: Option<Range>

    const minBound: int
    const maxBound: int
    const laneCount: int
    const adjProfiles: seq<seq<real>>

    ghost predicate Valid()
      reads this
    {
      0 <= selectedI < |selectionList| && Iterations(laneCount) <= |adjProfiles|
    }

    /**
     * __init__: one selection area spanning the whole lane, selected; the
     * profiles are those the background step produced.
     */
    constructor (laneLength: int, laneCount: int, adjProfiles: seq<seq<real>>)
      requires Iterations(laneCount) <= |adjProfiles|
      ensures Valid()
      ensures minBound == 0 && maxBound == laneLength
      ensures selectionList == [Range(0, laneLength)] && selectedI == 0 && bounds == None
      ensures this.laneCount == laneCount && this.adjProfiles == adjProfiles
    {
      minBound := 0;
      maxBound := laneLength;
      this.laneCount := laneCount;
      this.adjProfiles := adjProfiles;
      selectionList := [];
      bounds := None;
      new;
      AddSelectionArea();
      selectedI := 0;
    }

    /** addSelectionArea: a new area [min_bound, max_bound] at the end; the others stay. */
    method AddSelectionArea()
      modifies this
      ensures selectionList == old(selectionList) + [Range(minBound, maxBound)]
      ensures selectedI == old(selectedI) && bounds == old(bounds)
      ensures old(Valid()) ==> Valid()
    {
      selectionList := selectionList + [Range(minBound, maxBound)];
    }

    /**
     * updateFields with the parsed contents of the two text fields (None when
     * int() fails). A failure changes nothing; otherwise the bounds and only
     * the selected area take the new values.
     */
    method UpdateFields(left: Option<int>, right: Option<int>)
      requires Valid()
      modifies this
      ensures Valid() && selectedI == old(selectedI)
      ensures left.None? || right.None? ==> bounds == old(bounds) && selectionList == old(selectionList)
      ensures left.Some? && right.Some? ==>
        && bounds == Some(Range(left.value, right.value))
        && selectionList == old(selectionList)[selectedI := Range(left.value, right.value)]
    {
      if left.None? || right.None? {
        return;
      }
      bounds := Some(Range(left.value, right.value));
      selectionList := selectionList[selectedI := Range(left.value, right.value)];
    }

    /**
     * itemStateChanged: on a SELECTED event, the chosen area becomes the
     * selected one and its bounds are what the text fields show.
     */
    method ItemStateChanged(selected: bool, index: int) returns (shown: Option<Range>)
      requires Valid() && (selected ==> 0 <= index < |selectionList|)
      modifies this
      ensures Valid() && selectionList == old(selectionList) && bounds == old(bounds)
      ensures selected ==> selectedI == index && shown == Some(selectionList[index])
      ensures !selected ==> selectedI == old(selectedI) && shown == None
    {
      if selected {
        selectedI := index;
        shown := Some(selectionList[selectedI]);
      } else {
        shown := None;
      }
    }

    /**
     * The sums sumProfiles shows: every lane over the current bounds. Before
     * the text fields have parsed once there are no bounds and nothing to sum.
     */
    method SumProfiles() returns (sums: Option<seq<real>>)
      requires Valid()
      ensures bounds.None? ==> sums == None
      ensures bounds.Some? ==> sums == Some(LaneSums(adjProfiles, Iterations(laneCount), bounds.value))
    {
      if bounds.None? {
        return None;
      }
      var r := bounds.value;
      var laneSums: seq<real> := [];
      for i := 0 to Iterations(laneCount)
        invariant laneSums == LaneSums(adjProfiles, i, r)
      {
        var laneSum := Sum(Slice(adjProfiles[i], r.left, r.right));
        laneSums := laneSums + [laneSum];
      }
      return Some(laneSums);
    }

    /**
     * The text saveMeasurement writes: a header line, then one line per lane
     * with that lane's sum over every selection area, fields separated by
     * tabs and every line ended by a newline. `fmt` stands for
     * str(round(x, 3)).
     */
    method SaveMeasurement(fmt: real -> string) returns (results: string)
      requires Valid()
      ensures results == Table(ResultRows(fmt, laneCount, selectionList, adjProfiles))
    {
      var header := HeaderRow(|selectionList|);
      ghost var rows := ResultRows(fmt, laneCount, selectionList, adjProfiles);
      assert rows[..1] == [header];
      results := Join(header, Tab) + [Newline];
      for i := 0 to Iterations(laneCount)
        invariant results == Table(rows[..i + 1])
      {
        var laneLine := LaneLine(fmt, adjProfiles[i], selectionList, i);
        TableStep(rows, i + 1);
        results := results + Join(laneLine, Tab) + [Newline];
      }
      assert rows[..Iterations(laneCount) + 1] == rows;
    }
  }

  /** The fields of lane i's line in saveMeasurement: its label, then its sum over every area. */
  method LaneLine(fmt: real -> string, profile: seq<real>, selectionList: seq<Range>, i: nat)
    returns (laneLine: seq<string>)
    ensures laneLine == LaneRow(fmt, profile, selectionList, i)
  {
    laneLine := ["Lane " + NatToString(i + 1)];
    for j := 0 to |selectionList|
      invariant laneLine == LaneRow(fmt, profile, selectionList[..j], i)
    {
      var r := selectionList[j];
      var laneSum := fmt(Sum(Slice(profile, r.left, r.right)));
      LaneRowStep(fmt, profile, selectionList, i, j);
      laneLine := laneLine + [laneSum];
    }
    assert selectionList[..|selectionList|] == selectionList;
  }
}
