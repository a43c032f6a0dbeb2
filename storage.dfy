/**
 * The record store: an append-only table of submissions, a listing of the
 * most recent rows and the per-category statistics.
 */
module Storage {

  import opened Wrappers
  import opened Moods
  import opened Schema

  /** The listing returns at most this many rows. */
  const ListLimit: nat := 100

  /** What the statistics query returns. */
  datatype MoodStats = MoodStats(superHappy: nat, happy: nat, neutral: nat, anxious: nat, sad: nat, total: nat)

  /**
   * Why an insert fails: a primary-key violation, or the database refusing
   * the statement for a reason outside this model (a lost connection, say).
   */
  datatype StoreError = DuplicateKey | Unavailable

  // ---------------------------------------------------------------------------
  // Statistics

  /** The number of rows whose mood is exactly `m`. */
  function CountMood(rows: seq<MoodSubmission>, m: string): (n: nat)
    ensures n <= |rows|
    ensures n == 0 <==> forall i :: 0 <= i < |rows| ==> rows[i].mood != m
  {
    if rows == [] then 0
    else CountMood(rows[..|rows| - 1], m) + (if rows[|rows| - 1].mood == m then 1 else 0)
  }

  /** The number of rows whose mood is one of the five known ones. */
  function CountKnown(rows: seq<MoodSubmission>): (n: nat)
    ensures n <= |rows|
  {
    if rows == [] then 0
    else CountKnown(rows[..|rows| - 1]) + (if IsKnownMood(rows[|rows| - 1].mood) then 1 else 0)
  }

  /**
   * The statistics of a snapshot: `total` is the raw row count, and each
   * category counts the rows whose mood is exactly that string.
   */
  function StatsOf(rows: seq<MoodSubmission>): (r: MoodStats)
    ensures r.total == |rows|
    ensures r.superHappy <= r.total && r.happy <= r.total && r.neutral <= r.total
         && r.anxious <= r.total && r.sad <= r.total
  {
    MoodStats(CountMood(rows, SuperHappy), CountMood(rows, Happy), CountMood(rows, Neutral),
              CountMood(rows, Anxious), CountMood(rows, Sad), |rows|)
  }

  function CategorySum(st: MoodStats): nat {
    st.superHappy + st.happy + st.neutral + st.anxious + st.sad
  }

  lemma {:induction false} CategoriesCountKnown(rows: seq<MoodSubmission>)
    ensures CategorySum(StatsOf(rows)) == CountKnown(rows)
  {
    if rows != [] {
      CategoriesCountKnown(rows[..|rows| - 1]);
    }
  }

  lemma {:induction false} CountKnownAll(rows: seq<MoodSubmission>)
    ensures CountKnown(rows) == |rows| <==> forall i :: 0 <= i < |rows| ==> IsKnownMood(rows[i].mood)
  {
    if rows != [] {
      var init := rows[..|rows| - 1];
      CountKnownAll(init);
      assert forall i :: 0 <= i < |init| ==> init[i] == rows[i];
    }
  }

  /**
   * The category counters never exceed `total`, and they add up to it exactly
   * when every stored mood is one of the five known strings.
   */
  lemma StatsCategoriesBound(rows: seq<MoodSubmission>)
    ensures CategorySum(StatsOf(rows)) <= StatsOf(rows).total
    ensures CategorySum(StatsOf(rows)) == StatsOf(rows).total
        <==> forall i :: 0 <= i < |rows| ==> IsKnownMood(rows[i].mood)
  {
    CategoriesCountKnown(rows);
    CountKnownAll(rows);
  }

  /**
   * Appending one row raises `total` by one and raises exactly the counter
   * named by its mood; a row with an unknown mood raises no counter.
   */
  lemma StatsOfAppend(rows: seq<MoodSubmission>, x: MoodSubmission)
    ensures var before, after := StatsOf(rows), StatsOf(rows + [x]);
      && after.total == before.total + 1
      && after.superHappy == before.superHappy + (if x.mood == SuperHappy then 1 else 0)
      && after.happy == before.happy + (if x.mood == Happy then 1 else 0)
      && after.neutral == before.neutral + (if x.mood == Neutral then 1 else 0)
      && after.anxious == before.anxious + (if x.mood == Anxious then 1 else 0)
      && after.sad == before.sad + (if x.mood == Sad then 1 else 0)
    ensures !IsKnownMood(x.mood) ==> StatsOf(rows + [x]) == StatsOf(rows).(total := |rows| + 1)
  {
    assert (rows + [x])[..|rows|] == rows;
  }

  /** Three submissions happy, sad, happy give happy 2, sad 1, total 3. */
  lemma StatsExample(a: MoodSubmission, b: MoodSubmission, c: MoodSubmission)
    requires a.mood == Happy && b.mood == Sad && c.mood == Happy
    ensures StatsOf([a, b, c]) == MoodStats(0, 2, 0, 0, 1, 3)
  {
    var s1 := [] + [a];
    var s2 := s1 + [b];
    var s3 := s2 + [c];
    StatsOfAppend([], a);
    StatsOfAppend(s1, b);
    StatsOfAppend(s2, c);
    assert StatsOf(s3) == MoodStats(0, 2, 0, 0, 1, 3);
    assert s3 == [a, b, c];
  }

  // ---------------------------------------------------------------------------
  // Listing: ORDER BY timestamp DESC LIMIT 100

  /** Ordered by non-increasing timestamp (ties in no particular order). */
  ghost predicate NewestFirst(s: seq<MoodSubmission>) {
    forall i, j :: 0 <= i < j < |s| ==> s[i].timestamp >= s[j].timestamp
  }

  lemma HeadIsNewest(s: seq<MoodSubmission>)
    requires NewestFirst(s) && s != []
    ensures forall y :: y in multiset(s) ==> y.timestamp <= s[0].timestamp
  {
    forall y | y in multiset(s) ensures y.timestamp <= s[0].timestamp {
      var j :| 0 <= j < |s| && s[j] == y;
    }
  }

  lemma ConsNewestFirst(h: MoodSubmission, t: seq<MoodSubmission>)
    requires NewestFirst(t)
    requires forall y :: y in multiset(t) ==> y.timestamp <= h.timestamp
    ensures NewestFirst([h] + t)
  {
    var r := [h] + t;
    forall i, j | 0 <= i < j < |r| ensures r[i].timestamp >= r[j].timestamp {
      if i > 0 {
        assert r[i] == t[i - 1] && r[j] == t[j - 1];
      } else {
        assert r[j] == t[j - 1] && t[j - 1] in multiset(t);
      }
    }
  }

  lemma TailNewestFirst(s: seq<MoodSubmission>)
    requires NewestFirst(s) && s != []
    ensures NewestFirst(s[1..])
    ensures multiset(s) == multiset{s[0]} + multiset(s[1..])
  {
    assert s == [s[0]] + s[1..];
  }

  /** Everything an insertion into the tail produces is no newer than the head. */
  lemma InsertedBelowHead(x: MoodSubmission, s: seq<MoodSubmission>, rest: seq<MoodSubmission>)
    requires NewestFirst(s) && s != [] && x.timestamp < s[0].timestamp
    requires multiset(rest) == multiset(s[1..]) + multiset{x}
    ensures forall y :: y in multiset(rest) ==> y.timestamp <= s[0].timestamp
  {
    HeadIsNewest(s);
    TailNewestFirst(s);
  }

  function InsertNewestFirst(x: MoodSubmission, s: seq<MoodSubmission>): (r: seq<MoodSubmission>)
    requires NewestFirst(s)
    ensures NewestFirst(r)
    ensures multiset(r) == multiset(s) + multiset{x}
  {
    if s == [] then [x]
    else if x.timestamp >= s[0].timestamp then
      HeadIsNewest(s);
      ConsNewestFirst(x, s);
      [x] + s
    else
      TailNewestFirst(s);
      var rest := InsertNewestFirst(x, s[1..]);
      InsertedBelowHead(x, s, rest);
      ConsNewestFirst(s[0], rest);
      [s[0]] + rest
  }

  /** One possible result of the ordering the database applies. */
  function SortNewestFirst(s: seq<MoodSubmission>): (r: seq<MoodSubmission>)
    ensures NewestFirst(r)
    ensures multiset(r) == multiset(s)
    ensures |r| == |s|
  {
    if s == [] then []
    else
      assert s == [s[0]] + s[1..];
      InsertNewestFirst(s[0], SortNewestFirst(s[1..]))
  }

  /**
   * Cutting a newest-first sequence at `k`: what is kept is newest first, and
   * nothing dropped is newer than anything kept.
   */
  lemma NewestFirstCut(sorted: seq<MoodSubmission>, k: nat)
    requires NewestFirst(sorted) && k <= |sorted|
    ensures NewestFirst(sorted[..k])
    ensures multiset(sorted[..k]) <= multiset(sorted)
    ensures multiset(sorted) - multiset(sorted[..k]) == multiset(sorted[k..])
    ensures forall y, x :: y in sorted[..k] && x in multiset(sorted[k..]) ==> y.timestamp >= x.timestamp
  {
    assert sorted == sorted[..k] + sorted[k..];
    forall y, x | y in sorted[..k] && x in multiset(sorted[k..]) ensures y.timestamp >= x.timestamp {
      var i :| 0 <= i < k && sorted[..k][i] == y;
      var j :| 0 <= j < |sorted| - k && sorted[k..][j] == x;
      assert sorted[i] == y && sorted[k + j] == x;
    }
  }

  /**
   * The most recent rows: at most `ListLimit`, every one of them from the
   * store, newest first, and none of the rows left out is newer than any row
   * returned.
   */
  function Recent(rows: seq<MoodSubmission>): (r: seq<MoodSubmission>)
    ensures |r| == if |rows| < ListLimit then |rows| else ListLimit
    ensures multiset(r) <= multiset(rows)
    ensures NewestFirst(r)
    ensures forall y, x :: y in r && x in multiset(rows) - multiset(r) ==> y.timestamp >= x.timestamp
  {
    var sorted := SortNewestFirst(rows);
    var k := if |rows| < ListLimit then |rows| else ListLimit;
    NewestFirstCut(sorted, k);
    sorted[..k]
  }

  // ---------------------------------------------------------------------------
  // The store

  class DatabaseStorage {
    /** The table, in insertion order. */
    var rows: seq<MoodSubmission>

    ghost predicate Valid()
      reads this
    {
      UniqueIds(rows)
    }

    constructor ()
      ensures Valid() && rows == []
    {
      rows := [];
    }

    /**
     * INSERT ... RETURNING: the database generates `uuid` and reads the clock
     * as `now`; `available` is false when the database refuses the statement.
     * A generated id already in the table violates the primary key. Either
     * failure leaves the table as it was.
     */
    method CreateMoodSubmission(submission: InsertMoodSubmission, uuid: string, now: int, available: bool)
      returns (r: Result<MoodSubmission, StoreError>)
      requires Valid()
      modifies this
      ensures Valid()
      ensures r.Failure? <==> !available || HasId(old(rows), uuid)
      ensures r.Failure? ==> rows == old(rows)
      ensures r.Failure? ==> (r.error == Unavailable <==> !available)
      ensures r.Success? ==> r.value == NewRow(submission, uuid, now) && rows == old(rows) + [r.value]
    {
      if !available {
        return Failure(Unavailable);
      }
      if HasId(rows, uuid) {
        return Failure(DuplicateKey);
      }
      var row := NewRow(submission, uuid, now);
      rows := rows + [row];
      r := Success(row);
    }

    /** SELECT ... ORDER BY timestamp DESC LIMIT 100. */
    function GetMoodSubmissions(): (r: seq<MoodSubmission>)
      reads this
      ensures r == Recent(rows)
    {
      Recent(rows)
    }

    /** Counts every stored row into the six fields of the statistics. */
    method GetMoodStats() returns (stats: MoodStats)
      ensures stats == StatsOf(rows)
      ensures rows == [] ==> stats == MoodStats(0, 0, 0, 0, 0, 0)
    {
      var submissions := rows;
      stats := MoodStats(0, 0, 0, 0, 0, |submissions|);
      var i := 0;
      while i < |submissions|
        invariant 0 <= i <= |submissions|
        invariant stats == StatsOf(submissions[..i]).(total := |submissions|)
      {
        var m := submissions[i].mood;
        assert submissions[..i + 1][..i] == submissions[..i];
        if m == SuperHappy {
          stats := stats.(superHappy := stats.superHappy + 1);
        } else if m == Happy {
          stats := stats.(happy := stats.happy + 1);
        } else if m == Neutral {
          stats := stats.(neutral := stats.neutral + 1);
        } else if m == Anxious {
          stats := stats.(anxious := stats.anxious + 1);
        } else if m == Sad {
          stats := stats.(sad := stats.sad + 1);
        }
        i := i + 1;
      }
      assert submissions[..i] == submissions;
    }
  }
}
