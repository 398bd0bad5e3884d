/**
 * The Dashboard component's counters: matches and wins over all days, today
 * and the last week, accumulated day by day without building the match log,
 * and the progress bar percentage.
 */
module Dashboard {
  import opened Wrappers
  import opened Types
  import opened Numeric
  import opened Normalize
  import opened Aggregate

  datatype Counts = Counts(matches: int, wins: int)

  function Add(a: Counts, b: Counts): Counts {
    Counts(a.matches + b.matches, a.wins + b.wins)
  }

  /** The window of the overall counters: every date. */
  function Always(): int -> bool {
    t => true
  }

  /**
   * What one day adds to the counters of a window: an itemised day is checked
   * match by match; a summary-only day counts whole when its own date is in
   * the window.
   */
  function DayCounts(d: GameDay, keep: int -> bool): (c: Counts)
    ensures WellFormed(d) ==> 0 <= c.wins <= c.matches
    ensures |d.matches| > 0 ==> c.matches <= |d.matches|
    ensures |d.matches| == 0 && (d.stats.None? || !keep(d.date)) ==> c == Counts(0, 0)
  {
    if |d.matches| > 0 then
      Counts(|Dated(d.matches, keep)|, CountWins(Dated(d.matches, keep)))
    else if d.stats.Some? && keep(d.date) then
      Counts(d.stats.value.matchesCount, d.stats.value.wins)
    else Counts(0, 0)
  }

  function DaysCounts(days: seq<GameDay>, keep: int -> bool): (c: Counts)
    ensures AllWellFormed(days) ==> 0 <= c.wins <= c.matches
  {
    if days == [] then Counts(0, 0)
    else Add(DaysCounts(days[..|days| - 1], keep), DayCounts(days[|days| - 1], keep))
  }

  /** The counters over the completed days and the open day. */
  function TrackerCounts(days: seq<GameDay>, cur: Option<GameDay>, keep: int -> bool): (c: Counts)
    ensures AllWellFormed(days) && (cur.Some? ==> WellFormed(cur.value)) ==> 0 <= c.wins <= c.matches
  {
    Add(DaysCounts(days, keep), if cur.Some? then DayCounts(cur.value, keep) else Counts(0, 0))
  }

  /** The inner `forEach` over an itemised day's matches. */
  method CountMatches(acc: Counts, ms: seq<Match>, keep: int -> bool) returns (c: Counts)
    ensures c == Add(acc, Counts(|Dated(ms, keep)|, CountWins(Dated(ms, keep))))
  {
    c := acc;
    for i := 0 to |ms|
      invariant c == Add(acc, Counts(|Dated(ms[..i], keep)|, CountWins(Dated(ms[..i], keep))))
    {
      var m := ms[i];
      assert ms[..i + 1][..i] == ms[..i];
      ghost var before := Dated(ms[..i], keep);
      if keep(m.date) {
        assert Dated(ms[..i + 1], keep) == before + [m];
        CountWinsAppend(before, [m]);
        c := Counts(c.matches + 1, c.wins + if m.result == Win then 1 else 0);
      } else {
        assert Dated(ms[..i + 1], keep) == before + [];
        assert before + [] == before;
      }
    }
    assert ms[..|ms|] == ms;
  }

  /** The `forEach` body for one day. */
  method CountDay(acc: Counts, d: GameDay, keep: int -> bool) returns (c: Counts)
    ensures c == Add(acc, DayCounts(d, keep))
  {
    if |d.matches| > 0 {
      c := CountMatches(acc, d.matches, keep);
    } else if d.stats.Some? && keep(d.date) {
      c := Counts(acc.matches + d.stats.value.matchesCount, acc.wins + d.stats.value.wins);
    } else {
      c := acc;
    }
  }

  /**
   * The counter loops of the Dashboard component (overall, today, weekly) for
   * the window `keep`: over the open day and every completed day.
   */
  method CountDays(days: seq<GameDay>, cur: Option<GameDay>, keep: int -> bool) returns (c: Counts)
    ensures c == TrackerCounts(days, cur, keep)
  {
    c := Counts(0, 0);
    for k := 0 to |days|
      invariant c == DaysCounts(days[..k], keep)
    {
      assert days[..k + 1][..k] == days[..k];
      c := CountDay(c, days[k], keep);
    }
    assert days[..|days|] == days;
    if cur.Some? {
      c := CountDay(c, cur.value, keep);
    }
  }

  /** The three counter pairs the Dashboard shows. */
  function OverallCounts(days: seq<GameDay>, cur: Option<GameDay>): (c: Counts)
    ensures AllWellFormed(days) && (cur.Some? ==> WellFormed(cur.value)) ==>
      var all := AllMatches(days, cur);
      c == Counts(|all|, CountWins(all))
  {
    WindowCounts(days, cur, Always());
    DatedAlways(AllMatches(days, cur));
    TrackerCounts(days, cur, Always())
  }

  function TodayCounts(days: seq<GameDay>, cur: Option<GameDay>, dayOf: int -> int, now: int): (c: Counts)
    ensures AllWellFormed(days) && (cur.Some? ==> WellFormed(cur.value)) ==>
      var today := TodayMatches(AllMatches(days, cur), dayOf, now);
      c == Counts(|today|, CountWins(today))
  {
    WindowCounts(days, cur, Today(dayOf, now));
    TrackerCounts(days, cur, Today(dayOf, now))
  }

  function WeeklyCounts(days: seq<GameDay>, cur: Option<GameDay>, now: int): (c: Counts)
    ensures AllWellFormed(days) && (cur.Some? ==> WellFormed(cur.value)) ==>
      var week := WeeklyMatches(AllMatches(days, cur), now);
      c == Counts(|week|, CountWins(week))
  {
    WindowCounts(days, cur, AtOrAfter(WeekStart(now)));
    TrackerCounts(days, cur, AtOrAfter(WeekStart(now)))
  }

  /** A list whose every match has the same date is either kept whole or dropped whole. */
  lemma {:induction false} DatedSameDate(ms: seq<Match>, date: int, keep: int -> bool)
    requires forall i :: 0 <= i < |ms| ==> ms[i].date == date
    ensures Dated(ms, keep) == if keep(date) then ms else []
  {
    if ms != [] {
      DatedSameDate(ms[..|ms| - 1], date, keep);
      assert ms == ms[..|ms| - 1] + [ms[|ms| - 1]];
    }
  }

  /** The counters of a well-formed day are those of its normalised matches. */
  lemma DayCountsAgree(d: GameDay, keep: int -> bool)
    requires WellFormed(d)
    ensures DayCounts(d, keep) == Counts(|Dated(DayMatches(d), keep)|, CountWins(Dated(DayMatches(d), keep)))
  {
    if |d.matches| == 0 && d.stats.Some? {
      DatedSameDate(DayMatches(d), d.date, keep);
    }
  }

  /** The counters of a window, read off a list of matches. */
  function LogCounts(ms: seq<Match>, keep: int -> bool): Counts {
    Counts(|Dated(ms, keep)|, CountWins(Dated(ms, keep)))
  }

  lemma LogCountsAppend(a: seq<Match>, b: seq<Match>, keep: int -> bool)
    ensures LogCounts(a + b, keep) == Add(LogCounts(a, keep), LogCounts(b, keep))
  {
    DatedAppend(a, b, keep);
    CountWinsAppend(Dated(a, keep), Dated(b, keep));
  }

  lemma {:induction false} DaysCountsAgree(days: seq<GameDay>, keep: int -> bool)
    requires AllWellFormed(days)
    ensures DaysCounts(days, keep) == LogCounts(Flatten(days), keep)
  {
    if days != [] {
      var init, last := days[..|days| - 1], days[|days| - 1];
      DaysCountsAgree(init, keep);
      DayCountsAgree(last, keep);
      LogCountsAppend(Flatten(init), DayMatches(last), keep);
    }
  }

  /**
   * On well-formed days, the Dashboard's day-by-day counters equal the counts
   * of the normalised match log restricted to the same window: the Dashboard
   * and the charts report the same numbers.
   */
  lemma CountsAgreeWithLog(days: seq<GameDay>, cur: Option<GameDay>, keep: int -> bool)
    requires AllWellFormed(days) && (cur.Some? ==> WellFormed(cur.value))
    ensures TrackerCounts(days, cur, keep) == LogCounts(AllMatches(days, cur), keep)
  {
    DaysCountsAgree(days, keep);
    LogCountsAppend(Flatten(days), CurrentMatches(cur), keep);
    if cur.Some? {
      DayCountsAgree(cur.value, keep);
    } else {
      assert Dated([], keep) == [];
    }
  }

  /** The counters of any window, for well-formed days, read off the match log. */
  lemma WindowCounts(days: seq<GameDay>, cur: Option<GameDay>, keep: int -> bool)
    ensures AllWellFormed(days) && (cur.Some? ==> WellFormed(cur.value)) ==>
      TrackerCounts(days, cur, keep) == LogCounts(AllMatches(days, cur), keep)
  {
    if AllWellFormed(days) && (cur.Some? ==> WellFormed(cur.value)) {
      CountsAgreeWithLog(days, cur, keep);
    }
  }

  /** The overall window keeps every match. */
  lemma {:induction false} DatedAlways(ms: seq<Match>)
    ensures Dated(ms, Always()) == ms
  {
    if ms != [] {
      DatedAlways(ms[..|ms| - 1]);
    }
  }

  /**
   * The Dashboard's overall, today and weekly figures agree with the log: its
   * overall winrate is the log's winrate, and today's and the week's counts
   * are those of the chart windows, so wins <= matches <= total matches.
   */
  lemma DashboardAgreesWithCharts(days: seq<GameDay>, cur: Option<GameDay>, dayOf: int -> int, now: int)
    requires AllWellFormed(days) && (cur.Some? ==> WellFormed(cur.value))
    ensures var all := AllMatches(days, cur);
      && OverallCounts(days, cur) == Counts(|all|, CountWins(all))
      && Winrate(OverallCounts(days, cur).wins, OverallCounts(days, cur).matches) == PeriodWinrate(all)
      && TodayCounts(days, cur, dayOf, now).matches == |TodayMatches(all, dayOf, now)|
      && Winrate(TodayCounts(days, cur, dayOf, now).wins, TodayCounts(days, cur, dayOf, now).matches)
         == PeriodWinrate(TodayMatches(all, dayOf, now))
      && WeeklyCounts(days, cur, now).matches == |WeeklyMatches(all, now)|
      && Winrate(WeeklyCounts(days, cur, now).wins, WeeklyCounts(days, cur, now).matches)
         == PeriodWinrate(WeeklyMatches(all, now))
      && 0 <= TodayCounts(days, cur, dayOf, now).wins <= TodayCounts(days, cur, dayOf, now).matches
         <= OverallCounts(days, cur).matches
      && 0 <= WeeklyCounts(days, cur, now).wins <= WeeklyCounts(days, cur, now).matches
         <= OverallCounts(days, cur).matches
  {
    var all := AllMatches(days, cur);
    CountsAgreeWithLog(days, cur, Always());
    DatedAlways(all);
    CountsAgreeWithLog(days, cur, Today(dayOf, now));
    CountsAgreeWithLog(days, cur, AtOrAfter(WeekStart(now)));
  }

  function Min(a: real, b: real): real { if a <= b then a else b }

  /**
   * The progress bar: `min(100, current / target * 100)` for a positive
   * target, else 0. Clamped above at 100 but not below at 0.
   */
  function ProgressPercent(current: int, target: int): (p: real)
    ensures p <= 100.0
    ensures target <= 0 ==> p == 0.0
    ensures target > 0 && current >= target ==> p == 100.0
    ensures target > 0 && current < target ==> p * (target as real) == 100.0 * (current as real)
    ensures target > 0 && current < 0 ==> p < 0.0
  {
    if target > 0 then Min(100.0, (current as real) / (target as real) * 100.0) else 0.0
  }

  /** More PTS never shows less progress. */
  lemma ProgressMonotone(c1: int, c2: int, target: int)
    requires c1 <= c2
    ensures ProgressPercent(c1, target) <= ProgressPercent(c2, target)
  {
    if target > 0 {
      assert (c1 as real) / (target as real) <= (c2 as real) / (target as real);
    }
  }
}
