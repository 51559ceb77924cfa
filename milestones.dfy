/** Hour milestones. A milestone is an hour boundary of accumulated time
    (3600, 7200, ... seconds). The scheduler finds the boundaries that the
    total has passed and that are not yet in `notified_milestones`. It
    reports the highest of them once and marks all of them as reported.
 */
module Milestones {

  const HourSeconds: int := 3600

  /** `int(total_time // 3600)`: Dafny's division by a positive constant
      rounds down, as Python's `//` does, for negative totals too. */
  function CompletedHours(total: int): (h: int)
    ensures h * HourSeconds <= total < (h + 1) * HourSeconds
    ensures total >= 0 ==> h >= 0
    ensures total >= HourSeconds ==> h >= 1
  {
    total / HourSeconds
  }

  /** Hour `h` has been reached by `total` and has not been reported. */
  ghost predicate IsMissing(h: int, total: int, notified: seq<int>) {
    1 <= h <= CompletedHours(total) && h * HourSeconds !in notified
  }

  /** The loop that builds `missing_milestones`: every hour from 1 to
      `totalHours` whose boundary is not yet reported, in increasing order. */
  method CollectMissing(totalHours: int, notified: seq<int>) returns (missing: seq<int>)
    ensures forall i, j :: 0 <= i < j < |missing| ==> missing[i] < missing[j]
    ensures forall h :: h in missing ==> 1 <= h <= totalHours && h * HourSeconds !in notified
    ensures forall h :: 1 <= h <= totalHours && h * HourSeconds !in notified ==> h in missing
  {
    missing := [];
    var h := 1;
    while h <= totalHours
      invariant 1 <= h && (totalHours >= 1 ==> h <= totalHours + 1)
      invariant forall i, j :: 0 <= i < j < |missing| ==> missing[i] < missing[j]
      invariant forall i :: 0 <= i < |missing| ==> missing[i] < h
      invariant missing != [] ==> h <= totalHours + 1
      invariant forall x :: x in missing ==> 1 <= x < h && x * HourSeconds !in notified
      invariant forall x :: 1 <= x < h && x * HourSeconds !in notified ==> x in missing
    {
      if h * HourSeconds !in notified {
        missing := missing + [h];
      }
      h := h + 1;
    }
  }

  /** The boundaries, in seconds, of a list of hours. */
  function Boundaries(hours: seq<int>): (b: seq<int>)
    ensures |b| == |hours| && forall j :: 0 <= j < |hours| ==> b[j] == hours[j] * HourSeconds
  {
    seq(|hours|, j requires 0 <= j < |hours| => hours[j] * HourSeconds)
  }

  /** `result` is `notified` with the boundaries of `missing` appended:
      nothing already reported moves or disappears, every boundary of
      `missing` is present, and each appended entry is such a boundary,
      was not reported before and appears once. */
  ghost predicate AppendsBoundaries(notified: seq<int>, missing: seq<int>, result: seq<int>) {
    && |result| >= |notified| && result[..|notified|] == notified
    && (forall h :: h in missing ==> h * HourSeconds in result)
    && (forall k :: |notified| <= k < |result| ==> result[k] !in notified && result[k] in Boundaries(missing))
    && (forall i, j :: |notified| <= i < j < |result| ==> result[i] != result[j])
  }

  /** The loop that marks every missing hour as reported, in order. */
  method MarkNotified(notified: seq<int>, missing: seq<int>) returns (result: seq<int>)
    ensures AppendsBoundaries(notified, missing, result)
  {
    result := notified;
    var i := 0;
    while i < |missing|
      invariant 0 <= i <= |missing|
      invariant |result| >= |notified| && result[..|notified|] == notified
      invariant forall k :: 0 <= k < i ==> missing[k] * HourSeconds in result
      invariant forall k :: |notified| <= k < |result| ==>
        result[k] !in notified && result[k] in Boundaries(missing[..i])
      invariant forall a, b :: |notified| <= a < b < |result| ==> result[a] != result[b]
    {
      var milestone := missing[i] * HourSeconds;
      if milestone !in result {
        result := result + [milestone];
      }
      assert Boundaries(missing[..i + 1]) == Boundaries(missing[..i]) + [milestone];
      i := i + 1;
    }
    assert missing[..i] == missing;
  }

  /** `after` is `before` with exactly the missing boundaries of `total`
      appended: the old entries stay in place, every missing boundary is
      added, each appended entry is the boundary of a missing hour, and
      none is appended twice. */
  ghost predicate MarkedExactly(before: seq<int>, after: seq<int>, total: int) {
    && |after| >= |before| && after[..|before|] == before
    && (forall h :: IsMissing(h, total, before) ==> h * HourSeconds in after)
    && (forall k :: |before| <= k < |after| ==>
          after[k] % HourSeconds == 0 && IsMissing(after[k] / HourSeconds, total, before))
    && (forall i, j :: |before| <= i < j < |after| ==> after[i] != after[j])
  }

  /** Marking the collected hours appends exactly the missing boundaries. */
  lemma MarkedIsExact(total: int, notified: seq<int>, missing: seq<int>, result: seq<int>)
    requires forall h :: h in missing <==> IsMissing(h, total, notified)
    requires AppendsBoundaries(notified, missing, result)
    ensures MarkedExactly(notified, result, total)
  {
    forall k | |notified| <= k < |result|
      ensures result[k] % HourSeconds == 0 && IsMissing(result[k] / HourSeconds, total, notified)
    {
      var j :| 0 <= j < |missing| && Boundaries(missing)[j] == result[k];
      assert missing[j] in missing;
      assert result[k] == missing[j] * HourSeconds;
    }
  }

  /** Milestone idempotence: once every missing hour has been marked, a
      rescan of the same total finds nothing to report. */
  lemma RescanFindsNothing(total: int, notified: seq<int>, missing: seq<int>, result: seq<int>)
    requires forall h :: IsMissing(h, total, notified) ==> h in missing
    requires forall h :: h in missing ==> h * HourSeconds in result
    requires forall x :: x in notified ==> x in result
    ensures forall h :: !IsMissing(h, total, result)
  {
  }

  /** The last entry of an increasing list of missing hours is the highest
      missing hour: it is the one that gets reported. */
  lemma LastIsHighest(total: int, notified: seq<int>, missing: seq<int>)
    requires |missing| > 0
    requires forall i, j :: 0 <= i < j < |missing| ==> missing[i] < missing[j]
    requires forall h :: h in missing <==> IsMissing(h, total, notified)
    ensures IsMissing(missing[|missing| - 1], total, notified)
    ensures forall h :: IsMissing(h, total, notified) ==> h <= missing[|missing| - 1]
  {
    forall h | IsMissing(h, total, notified) ensures h <= missing[|missing| - 1] {
      var i :| 0 <= i < |missing| && missing[i] == h;
      if i < |missing| - 1 {
        assert missing[i] < missing[|missing| - 1];
      }
    }
  }

  /** With at least one hour accumulated and nothing missing, the boundary
      of the current hour is already reported. */
  lemma CurrentHourReportedWhenNothingMissing(total: int, notified: seq<int>)
    requires total >= HourSeconds
    requires forall h :: !IsMissing(h, total, notified)
    ensures CompletedHours(total) * HourSeconds in notified
  {
    assert !IsMissing(CompletedHours(total), total, notified);
  }
}
