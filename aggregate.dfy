/**
 * The aggregator: date windows over the match log, the winrate of a window,
 * and the four time-of-day buckets.
 */
module Aggregate {
  import opened Wrappers
  import opened Types
  import opened Numeric

  /** The matches whose date satisfies `keep`, in log order (`Array.prototype.filter`). */
  function Dated(ms: seq<Match>, keep: int -> bool): (r: seq<Match>)
    ensures |r| <= |ms|
    ensures forall i :: 0 <= i < |r| ==> keep(r[i].date)
  {
    if ms == [] then []
    else Dated(ms[..|ms| - 1], keep) + (if keep(ms[|ms| - 1].date) then [ms[|ms| - 1]] else [])
  }

  /** A window holds exactly the log's matches whose date it accepts. */
  lemma {:induction false} DatedMembers(ms: seq<Match>, keep: int -> bool)
    ensures forall m :: m in Dated(ms, keep) <==> m in ms && keep(m.date)
  {
    if ms != [] {
      DatedMembers(ms[..|ms| - 1], keep);
      assert ms == ms[..|ms| - 1] + [ms[|ms| - 1]];
    }
  }

  /** Filtering keeps a sub-multiset of the log. */
  lemma {:induction false} DatedSubMultiset(ms: seq<Match>, keep: int -> bool)
    ensures multiset(Dated(ms, keep)) <= multiset(ms)
  {
    if ms != [] {
      DatedSubMultiset(ms[..|ms| - 1], keep);
      assert ms == ms[..|ms| - 1] + [ms[|ms| - 1]];
    }
  }

  /** Filtering distributes over concatenation. */
  lemma {:induction false} DatedAppend(a: seq<Match>, b: seq<Match>, keep: int -> bool)
    ensures Dated(a + b, keep) == Dated(a, keep) + Dated(b, keep)
    decreases |b|
  {
    if b == [] {
      assert a + b == a;
    } else {
      assert (a + b)[..|a + b| - 1] == a + b[..|b| - 1];
      DatedAppend(a, b[..|b| - 1], keep);
    }
  }

  /** Filtering by a narrower condition after a wider one is filtering by the narrower one. */
  lemma {:induction false} DatedNarrows(ms: seq<Match>, wide: int -> bool, narrow: int -> bool)
    requires forall t :: narrow(t) ==> wide(t)
    ensures Dated(Dated(ms, wide), narrow) == Dated(ms, narrow)
  {
    if ms != [] {
      var init, last := ms[..|ms| - 1], ms[|ms| - 1];
      DatedNarrows(init, wide, narrow);
      DatedAppend(Dated(init, wide), if wide(last.date) then [last] else [], narrow);
      assert Dated([last], narrow) == if narrow(last.date) then [last] else [] by {
        assert [last][..0] == [];
      }
    }
  }

  /** Same calendar day as `now`: both instants truncated to midnight by `dayOf`. */
  function Today(dayOf: int -> int, now: int): (keep: int -> bool)
    ensures forall t :: keep(t) <==> dayOf(t) == dayOf(now)
  {
    t => dayOf(t) == dayOf(now)
  }

  /** At or after `bound` (inclusive, time of day preserved). */
  function AtOrAfter(bound: int): (keep: int -> bool)
    ensures forall t :: keep(t) <==> t >= bound
  {
    t => t >= bound
  }

  function WeekStart(now: int): int { now - 7 * DayMs }

  function MonthStart(now: int): int { now - 30 * DayMs }

  /** The matches played on `now`'s calendar day. */
  function TodayMatches(ms: seq<Match>, dayOf: int -> int, now: int): (r: seq<Match>)
    ensures forall m :: m in r <==> m in ms && dayOf(m.date) == dayOf(now)
  {
    DatedMembers(ms, Today(dayOf, now));
    Dated(ms, Today(dayOf, now))
  }

  /** The matches of the last seven days, counted back from `now`. */
  function WeeklyMatches(ms: seq<Match>, now: int): (r: seq<Match>)
    ensures forall m :: m in r <==> m in ms && m.date >= now - 7 * DayMs
  {
    DatedMembers(ms, AtOrAfter(WeekStart(now)));
    Dated(ms, AtOrAfter(WeekStart(now)))
  }

  /** The matches of the last thirty days, counted back from `now`. */
  function MonthlyMatches(ms: seq<Match>, now: int): (r: seq<Match>)
    ensures forall m :: m in r <==> m in ms && m.date >= now - 30 * DayMs
  {
    DatedMembers(ms, AtOrAfter(MonthStart(now)));
    Dated(ms, AtOrAfter(MonthStart(now)))
  }

  /**
   * The week is part of the month: the weekly window is exactly the monthly
   * window cut at the week's start, and both are part of the whole log.
   */
  lemma WeekWithinMonth(ms: seq<Match>, now: int)
    ensures WeeklyMatches(ms, now) == Dated(MonthlyMatches(ms, now), AtOrAfter(WeekStart(now)))
    ensures multiset(WeeklyMatches(ms, now)) <= multiset(MonthlyMatches(ms, now)) <= multiset(ms)
  {
    DatedNarrows(ms, AtOrAfter(MonthStart(now)), AtOrAfter(WeekStart(now)));
    DatedSubMultiset(MonthlyMatches(ms, now), AtOrAfter(WeekStart(now)));
    DatedSubMultiset(ms, AtOrAfter(MonthStart(now)));
  }

  /** The winrate of a window: 0 when it is empty, else the rounded percentage of wins. */
  function PeriodWinrate(ms: seq<Match>): (r: int)
    ensures 0 <= r <= 100
    ensures ms == [] ==> r == 0
    ensures ms != [] ==> 2 * |ms| * r - |ms| <= 200 * CountWins(ms) < 2 * |ms| * r + |ms|
  {
    Winrate(CountWins(ms), |ms|)
  }

  /** A winrate counter: `{ wins, losses, total }`. */
  datatype Tally = Tally(wins: int, losses: int, total: int)

  /** One more match in a counter: `total++`, then `wins++` or `losses++`. */
  function Bump(t: Tally, m: Match): Tally {
    Tally(t.wins + (if m.result == Win then 1 else 0),
          t.losses + (if m.result == Win then 0 else 1),
          t.total + 1)
  }

  /** The counter of the matches whose `key` is `k`. */
  function TallyBy<K(==)>(ms: seq<Match>, key: Match -> K, k: K): (t: Tally)
    ensures 0 <= t.wins && 0 <= t.losses && t.wins + t.losses == t.total <= |ms|
  {
    if ms == [] then Tally(0, 0, 0)
    else
      var t := TallyBy(ms[..|ms| - 1], key, k);
      if key(ms[|ms| - 1]) == k then Bump(t, ms[|ms| - 1]) else t
  }

  /** A match's bucket; a match without one counts as morning. */
  function Slot(m: Match): (slot: TimeOfDay)
    ensures m.timeOfDay.Some? ==> slot == m.timeOfDay.value
    ensures m.timeOfDay.None? ==> slot == Morning
  {
    m.timeOfDay.GetOr(Morning)
  }

  /** The buckets in display order. */
  const TimeKeys: seq<TimeOfDay> := [Morning, Afternoon, Evening, Night]

  /** The four counters, computed with the `forEach` loop of the chart code. */
  method TallyTimeOfDay(ms: seq<Match>) returns (stats: map<TimeOfDay, Tally>)
    ensures stats.Keys == {Morning, Afternoon, Evening, Night}
    ensures forall t :: t in stats ==> stats[t] == TallyBy(ms, Slot, t)
  {
    stats := map[Morning := Tally(0, 0, 0), Afternoon := Tally(0, 0, 0),
                 Evening := Tally(0, 0, 0), Night := Tally(0, 0, 0)];
    for i := 0 to |ms|
      invariant stats.Keys == {Morning, Afternoon, Evening, Night}
      invariant forall t :: t in stats ==> stats[t] == TallyBy(ms[..i], Slot, t)
    {
      assert ms[..i + 1][..i] == ms[..i];
      var slot := Slot(ms[i]);
      assert slot == Morning || slot == Afternoon || slot == Evening || slot == Night;
      stats := stats[slot := Bump(stats[slot], ms[i])];
    }
    assert ms[..|ms|] == ms;
  }

  /** Sum of the four bucket totals. */
  function BucketTotal(ms: seq<Match>): int {
    TallyBy(ms, Slot, Morning).total + TallyBy(ms, Slot, Afternoon).total
      + TallyBy(ms, Slot, Evening).total + TallyBy(ms, Slot, Night).total
  }

  /** Every match falls in exactly one bucket, so the totals add up to the log length. */
  lemma {:induction false} BucketsPartition(ms: seq<Match>)
    ensures BucketTotal(ms) == |ms|
  {
    if ms != [] {
      BucketsPartition(ms[..|ms| - 1]);
      match Slot(ms[|ms| - 1])
      case Morning =>
      case Afternoon =>
      case Evening =>
      case Night =>
    }
  }

  /** The matches whose `key` is `k`, in log order. */
  function Keyed<K(==)>(ms: seq<Match>, key: Match -> K, k: K): (r: seq<Match>)
    ensures |r| <= |ms|
    ensures forall i :: 0 <= i < |r| ==> key(r[i]) == k
  {
    if ms == [] then []
    else Keyed(ms[..|ms| - 1], key, k) + (if key(ms[|ms| - 1]) == k then [ms[|ms| - 1]] else [])
  }

  /** A bucket holds exactly the log's matches with its key. */
  lemma {:induction false} KeyedMembers<K>(ms: seq<Match>, key: Match -> K, k: K)
    ensures forall m :: m in Keyed(ms, key, k) <==> m in ms && key(m) == k
  {
    if ms != [] {
      KeyedMembers(ms[..|ms| - 1], key, k);
      assert ms == ms[..|ms| - 1] + [ms[|ms| - 1]];
    }
  }

  /** Bucketing distributes over concatenation, so each bucket keeps log order. */
  lemma {:induction false} KeyedAppend<K>(a: seq<Match>, b: seq<Match>, key: Match -> K, k: K)
    ensures Keyed(a + b, key, k) == Keyed(a, key, k) + Keyed(b, key, k)
    decreases |b|
  {
    if b == [] {
      assert a + b == a;
    } else {
      assert (a + b)[..|a + b| - 1] == a + b[..|b| - 1];
      KeyedAppend(a, b[..|b| - 1], key, k);
    }
  }

  /** A counter holds the wins, losses and number of the matches with its key. */
  lemma {:induction false} TallyByKeyed<K>(ms: seq<Match>, key: Match -> K, k: K)
    ensures var sel := Keyed(ms, key, k);
      TallyBy(ms, key, k) == Tally(CountWins(sel), |sel| - CountWins(sel), |sel|)
  {
    if ms != [] {
      var init, last := ms[..|ms| - 1], ms[|ms| - 1];
      TallyByKeyed(init, key, k);
      var sel := Keyed(init, key, k);
      if key(last) == k {
        CountWinsAppend(sel, [last]);
        assert [last][..0] == [];
        assert Keyed(ms, key, k) == sel + [last];
      } else {
        assert Keyed(ms, key, k) == sel;
      }
    }
  }

  /** Each bucket's rate is the winrate of that bucket's matches. */
  lemma BucketRates(ms: seq<Match>)
    ensures forall k :: 0 <= k < 4 ==>
      Winrate(TallyBy(ms, Slot, TimeKeys[k]).wins, TallyBy(ms, Slot, TimeKeys[k]).total)
        == PeriodWinrate(Keyed(ms, Slot, TimeKeys[k]))
    ensures forall k :: 0 <= k < 4 ==> TallyBy(ms, Slot, TimeKeys[k]).total == |Keyed(ms, Slot, TimeKeys[k])|
  {
    forall k | 0 <= k < 4 {
      TallyByKeyed(ms, Slot, TimeKeys[k]);
    }
  }

  /**
   * The bucket winrates in display order: always four, each the winrate of
   * the matches in that bucket, so 0 for an empty bucket.
   */
  function TimeOfDayWinrates(ms: seq<Match>): (rates: seq<int>)
    ensures |rates| == 4
    ensures forall k :: 0 <= k < 4 ==> rates[k] == PeriodWinrate(Keyed(ms, Slot, TimeKeys[k]))
    ensures forall k :: 0 <= k < 4 ==> 0 <= rates[k] <= 100
    ensures forall k :: 0 <= k < 4 ==>
      (TallyBy(ms, Slot, TimeKeys[k]).total == 0 ==> rates[k] == 0)
  {
    BucketRates(ms);
    seq(4, k requires 0 <= k < 4 =>
      Winrate(TallyBy(ms, Slot, TimeKeys[k]).wins, TallyBy(ms, Slot, TimeKeys[k]).total))
  }

  /** The bucket game counts in display order: each the number of matches in that bucket. */
  function TimeOfDayCounts(ms: seq<Match>): (counts: seq<int>)
    ensures |counts| == 4
    ensures forall k :: 0 <= k < 4 ==>
      counts[k] == TallyBy(ms, Slot, TimeKeys[k]).total == |Keyed(ms, Slot, TimeKeys[k])|
    ensures counts[0] + counts[1] + counts[2] + counts[3] == |ms|
  {
    BucketsPartition(ms);
    BucketRates(ms);
    seq(4, k requires 0 <= k < 4 => TallyBy(ms, Slot, TimeKeys[k]).total)
  }
}
