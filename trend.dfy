/**
 * The trend chart's data: eight 15-minute buckets over the last two hours,
 * each counting the five known moods, of which three are emitted as series.
 */
module TrendChart {

  import opened Wrappers
  import opened Moods
  import opened Schema

  const BucketCount: nat := 8
  /** 15 minutes in milliseconds. */
  const BucketWidth: nat := 15 * 60 * 1000

  /**
   * `Math.floor((now - t) / width)`. Dafny's `/` is Euclidean, which for a
   * positive divisor is floor division, also for a negative (future) elapsed time.
   */
  function IntervalIndex(now: int, t: int): (r: int)
    ensures r * BucketWidth <= now - t < r * BucketWidth + BucketWidth
  {
    (now - t) / BucketWidth
  }

  lemma IntervalIndexIff(now: int, t: int, k: int)
    ensures IntervalIndex(now, t) == k <==> k * BucketWidth <= now - t < k * BucketWidth + BucketWidth
  {
    var e := now - t;
    var q := e / BucketWidth;
    assert e == q * BucketWidth + e % BucketWidth;
  }

  /** The bucket a timestamp is counted in: index `k` goes to bucket `7 - k`; outside `0 <= k < 8` it is dropped. */
  function BucketOf(now: int, t: int): (b: Option<nat>)
    ensures b.Some? ==> b.value < BucketCount
  {
    var idx := IntervalIndex(now, t);
    if 0 <= idx < BucketCount then Some(BucketCount - 1 - idx) else None
  }

  /** The reference time of bucket `j`, the instant its label displays. */
  function LabelTime(now: int, j: nat): int
    requires j < BucketCount
  {
    now - (BucketCount - 1 - j) * BucketWidth
  }

  /**
   * Bucket `j` is the half-open window of one width ending at its label time:
   * the buckets are contiguous, do not overlap, and the newest is the last.
   */
  lemma BucketWindow(now: int, t: int, j: nat)
    requires j < BucketCount
    ensures BucketOf(now, t) == Some(j) <==> LabelTime(now, j) - BucketWidth < t <= LabelTime(now, j)
  {
    IntervalIndexIff(now, t, BucketCount - 1 - j);
  }

  /** Counted iff within the last two hours and not in the future. */
  lemma HorizonIff(now: int, t: int)
    ensures BucketOf(now, t).Some? <==> now - BucketCount * BucketWidth < t <= now
  {
    var idx := IntervalIndex(now, t);
    IntervalIndexIff(now, t, idx);
    if 0 <= idx < BucketCount {
      BucketWindow(now, t, BucketCount - 1 - idx);
    } else if idx < 0 {
      assert now - t < 0;
    } else {
      assert now - t >= BucketCount * BucketWidth;
    }
  }

  /** An elapsed time of exactly `k` widths falls into bucket `7 - k`, not the later `8 - k`. */
  lemma BoundaryGoesToEarlierBucket(now: int, k: nat)
    requires k < BucketCount
    ensures BucketOf(now, now - k * BucketWidth) == Some(BucketCount - 1 - k)
  {
    IntervalIndexIff(now, now - k * BucketWidth, k);
  }

  /** A submission 20 minutes old has index 1 and lands in the second-to-last bucket. */
  lemma TwentyMinutesAgo(now: int)
    ensures IntervalIndex(now, now - 20 * 60 * 1000) == 1
    ensures BucketOf(now, now - 20 * 60 * 1000) == Some(BucketCount - 2)
  {
    IntervalIndexIff(now, now - 20 * 60 * 1000, 1);
  }

  // ---------------------------------------------------------------------------
  // Counting

  /** The tally of bucket `j` after counting `subs` in order. */
  function TallyOf(subs: seq<MoodSubmission>, now: int, j: nat): (r: MoodTally)
    ensures r.Sum() <= |subs|
  {
    if subs == [] then ZeroTally
    else
      var last := subs[|subs| - 1];
      var before := TallyOf(subs[..|subs| - 1], now, j);
      if BucketOf(now, last.timestamp) == Some(j) then before.Bump(last.mood) else before
  }

  /** The number of submissions in bucket `j` whose mood is exactly `m`. */
  function CountInBucket(subs: seq<MoodSubmission>, now: int, j: nat, m: string): nat {
    if subs == [] then 0
    else
      CountInBucket(subs[1..], now, j, m)
        + (if BucketOf(now, subs[0].timestamp) == Some(j) && subs[0].mood == m then 1 else 0)
  }

  lemma {:induction false} CountInBucketAppend(subs: seq<MoodSubmission>, x: MoodSubmission, now: int, j: nat, m: string)
    ensures CountInBucket(subs + [x], now, j, m)
         == CountInBucket(subs, now, j, m) + (if BucketOf(now, x.timestamp) == Some(j) && x.mood == m then 1 else 0)
  {
    if subs != [] {
      assert (subs + [x])[1..] == subs[1..] + [x];
      CountInBucketAppend(subs[1..], x, now, j, m);
    }
  }

  /** Each kept counter of bucket `j` is the number of submissions of that mood in that window. */
  lemma {:induction false} TallyCounts(subs: seq<MoodSubmission>, now: int, j: nat, m: string)
    requires IsKnownMood(m)
    ensures TallyOf(subs, now, j).Get(m) == Some(CountInBucket(subs, now, j, m))
  {
    if subs != [] {
      var init, last := subs[..|subs| - 1], subs[|subs| - 1];
      assert subs == init + [last];
      TallyCounts(init, now, j, m);
      CountInBucketAppend(init, last, now, j, m);
    }
  }

  /** Whether a submission is counted at all: inside the horizon and with a known mood. */
  predicate Counted(x: MoodSubmission, now: int) {
    BucketOf(now, x.timestamp).Some? && IsKnownMood(x.mood)
  }

  function CountCounted(subs: seq<MoodSubmission>, now: int): (n: nat)
    ensures n <= |subs|
  {
    if subs == [] then 0
    else CountCounted(subs[..|subs| - 1], now) + (if Counted(subs[|subs| - 1], now) then 1 else 0)
  }

  /** The sum of all five counters over buckets `0 .. n-1`. */
  function BucketsTotal(subs: seq<MoodSubmission>, now: int, n: nat): nat {
    if n == 0 then 0 else BucketsTotal(subs, now, n - 1) + TallyOf(subs, now, n - 1).Sum()
  }

  /**
   * One more submission raises the counters of buckets `0 .. n-1` by one in
   * all if it is counted in one of them, and leaves them alone otherwise.
   */
  lemma {:induction false} BucketsTotalAppend(subs: seq<MoodSubmission>, x: MoodSubmission, now: int, n: nat)
    ensures BucketsTotal(subs + [x], now, n)
         == BucketsTotal(subs, now, n) + (if Counted(x, now) && BucketOf(now, x.timestamp).value < n then 1 else 0)
  {
    assert (subs + [x])[..|subs|] == subs;
    if n > 0 {
      BucketsTotalAppend(subs, x, now, n - 1);
    }
  }

  lemma {:induction false} BucketsTotalEmpty(now: int, n: nat)
    ensures BucketsTotal([], now, n) == 0
  {
    if n > 0 {
      BucketsTotalEmpty(now, n - 1);
      assert BucketsTotal([], now, n - 1) == 0;
      assert TallyOf([], now, n - 1).Sum() == 0;
    }
  }

  /**
   * All counters of all buckets add up to the number of submissions that have
   * a known mood and fall inside the horizon: each is counted exactly once.
   */
  lemma {:induction false} TrendTotal(subs: seq<MoodSubmission>, now: int)
    ensures BucketsTotal(subs, now, BucketCount) == CountCounted(subs, now)
  {
    if subs == [] {
      BucketsTotalEmpty(now, BucketCount);
    } else {
      var init, last := subs[..|subs| - 1], subs[|subs| - 1];
      assert subs == init + [last];
      TrendTotal(init, now);
      BucketsTotalAppend(init, last, now, BucketCount);
      assert Counted(last, now) ==> BucketOf(now, last.timestamp).value < BucketCount;
    }
  }

  /** A submission with an unknown mood changes no bucket. */
  lemma UnknownMoodNotCounted(subs: seq<MoodSubmission>, x: MoodSubmission, now: int, j: nat)
    requires !IsKnownMood(x.mood)
    ensures TallyOf(subs + [x], now, j) == TallyOf(subs, now, j)
  {
    assert (subs + [x])[..|subs|] == subs;
  }

  // ---------------------------------------------------------------------------
  // The chart data

  /** `label` is a Dafny keyword, so the series label is called `legend`. */
  datatype Dataset = Dataset(legend: string, data: seq<nat>)

  /** Labels are kept as the buckets' reference times; their locale text is not modelled. */
  datatype ChartData = ChartData(labels: seq<int>, datasets: seq<Dataset>)

  /** One mood's counter from every bucket, in bucket order. */
  function Series(tallies: seq<MoodTally>, m: string): (r: seq<nat>)
    requires IsKnownMood(m)
    ensures |r| == |tallies|
    ensures forall j :: 0 <= j < |tallies| ==> Some(r[j]) == tallies[j].Get(m)
  {
    seq(|tallies|, j requires 0 <= j < |tallies| => tallies[j].Get(m).value)
  }

  /** The label loop: eight reference times oldest first, each bucket's five counters at zero. */
  method InitBuckets(now: int) returns (labels: seq<int>, intervals: array<MoodTally>)
    ensures fresh(intervals)
    ensures |labels| == BucketCount && intervals.Length == BucketCount
    ensures forall j :: 0 <= j < BucketCount ==> labels[j] == LabelTime(now, j) && intervals[j] == ZeroTally
  {
    labels := [];
    intervals := new MoodTally[BucketCount];
    var i: int := BucketCount - 1;
    while i >= 0
      invariant -1 <= i < BucketCount
      invariant |labels| == BucketCount - 1 - i
      invariant forall j :: 0 <= j < |labels| ==> labels[j] == LabelTime(now, j) && intervals[j] == ZeroTally
    {
      labels := labels + [now - i * BucketWidth];
      intervals[BucketCount - 1 - i] := ZeroTally;
      i := i - 1;
    }
  }

  /** One more submission changes only the tally of the bucket it falls in. */
  lemma TallyStep(subs: seq<MoodSubmission>, x: MoodSubmission, now: int, j: nat)
    ensures TallyOf(subs + [x], now, j)
         == if BucketOf(now, x.timestamp) == Some(j) then TallyOf(subs, now, j).Bump(x.mood) else TallyOf(subs, now, j)
  {
    assert (subs + [x])[..|subs|] == subs;
  }

  /** The counting loop: each submission inside the horizon bumps its bucket's counter for its mood. */
  method CountSubmissions(intervals: array<MoodTally>, submissions: seq<MoodSubmission>, now: int)
    requires intervals.Length == BucketCount
    requires forall j :: 0 <= j < BucketCount ==> intervals[j] == ZeroTally
    modifies intervals
    ensures forall j :: 0 <= j < BucketCount ==> intervals[j] == TallyOf(submissions, now, j)
  {
    var k := 0;
    while k < |submissions|
      invariant 0 <= k <= |submissions|
      invariant forall j :: 0 <= j < BucketCount ==> intervals[j] == TallyOf(submissions[..k], now, j)
    {
      var submission := submissions[k];
      assert submissions[..k + 1] == submissions[..k] + [submission];
      forall j | 0 <= j < BucketCount {
        TallyStep(submissions[..k], submission, now, j);
      }
      var intervalIndex := IntervalIndex(now, submission.timestamp);
      if 0 <= intervalIndex < BucketCount {
        var labelIndex := BucketCount - 1 - intervalIndex;
        if intervals[labelIndex].Get(submission.mood).Some? {
          intervals[labelIndex] := intervals[labelIndex].Bump(submission.mood);
        }
      }
      k := k + 1;
    }
    assert submissions[..k] == submissions;
  }

  /**
   * processDataForChart: eight labels oldest first, then three series
   * (super-happy, happy, neutral) of the per-bucket counts; anxious and sad
   * are counted but not emitted.
   */
  method ProcessDataForChart(submissions: seq<MoodSubmission>, now: int) returns (chart: ChartData)
    ensures |chart.labels| == BucketCount
    ensures forall j :: 0 <= j < BucketCount ==> chart.labels[j] == LabelTime(now, j)
    ensures |chart.datasets| == 3
    ensures chart.datasets[0].legend == "Super Happy"
    ensures chart.datasets[1].legend == "Happy"
    ensures chart.datasets[2].legend == "Neutral"
    ensures forall d :: 0 <= d < 3 ==> |chart.datasets[d].data| == BucketCount
    ensures forall j :: 0 <= j < BucketCount ==>
      && chart.datasets[0].data[j] == TallyOf(submissions, now, j).superHappy
      && chart.datasets[1].data[j] == TallyOf(submissions, now, j).happy
      && chart.datasets[2].data[j] == TallyOf(submissions, now, j).neutral
    ensures submissions == [] ==>
      forall d, j :: 0 <= d < 3 && 0 <= j < BucketCount ==> chart.datasets[d].data[j] == 0
  {
    var labels, intervals := InitBuckets(now);
    CountSubmissions(intervals, submissions, now);
    var tallies := intervals[..];
    chart := ChartData(labels, [
      Dataset("Super Happy", Series(tallies, SuperHappy)),
      Dataset("Happy", Series(tallies, Happy)),
      Dataset("Neutral", Series(tallies, Neutral))
    ]);
  }
}
