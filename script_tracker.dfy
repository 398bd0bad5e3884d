/**
 * The vanilla tracker of script.js: one object whose `currentPTS`,
 * `targetPTS`, `gameDays` and `currentDay` its methods update in place, and
 * the figures its dashboard derives from them.
 */
module ScriptTracker {
  import opened Wrappers
  import opened Types
  import opened Numeric
  import opened Normalize
  import opened Aggregate
  import opened Dashboard
  import opened Forecast

  /** Sum of the matches' PTS changes. */
  function SumPts(ms: seq<Match>): (total: int)
    ensures ms == [] ==> total == 0
    ensures (forall i :: 0 <= i < |ms| ==> ms[i].ptsChange.GetOr(0) >= 0) ==> total >= 0
    ensures (forall i :: 0 <= i < |ms| ==> ms[i].ptsChange.GetOr(0) <= 0) ==> total <= 0
  {
    if ms == [] then 0 else SumPts(ms[..|ms| - 1]) + ms[|ms| - 1].ptsChange.GetOr(0)
  }

  /**
   * `calculateDayStats`: the summary of a day's itemised matches. Every match
   * is a win or a loss; the PTS change is end minus start once the day is
   * closed, and the sum of the matches' changes while it is open.
   */
  function CalculateDayStats(d: GameDay): (s: DayStats)
    ensures s.matchesCount == |d.matches|
    ensures s.wins == CountWins(d.matches) && s.wins + s.losses == s.matchesCount
    ensures 0 <= s.winrate <= 100 && (d.matches == [] ==> s.winrate == 0)
    ensures s.winrate == Winrate(s.wins, s.matchesCount) == PeriodWinrate(d.matches)
    ensures s.ptsChange == if d.endTimePTS.Some? then d.endTimePTS.value - d.startTimePTS else SumPts(d.matches)
  {
    var wins := CountWins(d.matches);
    WinsPlusLosses(d.matches);
    DayStats(|d.matches|, wins, CountLosses(d.matches), Winrate(wins, |d.matches|),
             if d.endTimePTS.Some? then d.endTimePTS.value - d.startTimePTS else SumPts(d.matches))
  }

  /** A closed day: complete, with its end PTS and the statistics of its matches. */
  ghost predicate Closed(d: GameDay) {
    d.isComplete && d.endTimePTS.Some? && d.stats == Some(CalculateDayStats(d))
  }

  /** The open day: not complete, no end PTS, statistics (if any) those of its matches. */
  ghost predicate Open(d: GameDay) {
    !d.isComplete && d.endTimePTS.None? && (d.stats.Some? ==> d.stats == Some(CalculateDayStats(d)))
  }

  /**
   * The tracker's log is the React log of the same days: every day the
   * tracker stores carries the summary of its own matches, so no day of
   * its making is summary-only with a non-zero count.
   */
  lemma TrackerLogIsNormalised(days: seq<GameDay>, cur: Option<GameDay>)
    requires forall i :: 0 <= i < |days| ==> Closed(days[i])
    requires cur.Some? ==> Open(cur.value)
    ensures ScriptAllMatches(days, cur) == AllMatches(days, cur)
  {
    forall i | 0 <= i < |days| ensures SelfSummarised(days[i]) {
      var s := CalculateDayStats(days[i]);
    }
    ScriptAgreesOnItemisedDays(days, cur);
  }

  /**
   * A day started and ended without a match is closed with a zero summary
   * and contributes no match to either log.
   */
  lemma EmptyClosedDay(now: int, startPTS: int, endPTS: int)
    ensures var open := OpenDay(now, startPTS).(endTimePTS := Some(endPTS), isComplete := true);
      var d := open.(stats := Some(CalculateDayStats(open)));
      && Closed(d) && d.stats.value.matchesCount == 0
      && DayMatches(d) == [] && AllMatches([d], None) == ScriptAllMatches([d], None) == []
  {
    var open := OpenDay(now, startPTS).(endTimePTS := Some(endPTS), isComplete := true);
    var d := open.(stats := Some(CalculateDayStats(open)));
    assert CalculateDayStats(d) == CalculateDayStats(open);
    TrackerLogIsNormalised([d], None);
    assert [d][..0] == [];
    assert ScriptFlatten([d]) == ScriptFlatten([]) + d.matches == [];
  }

  /** What the dashboard and the period chart show. */
  datatype DashboardFigures = DashboardFigures(
    overallWinrate: int,
    todayWinrate: int,
    weeklyWinrate: int,
    monthlyWinrate: int,
    forecast: Forecast,
    progress: Option<real>)

  class Tracker {
    var currentPTS: int
    var targetPTS: int
    var gameDays: seq<GameDay>
    var currentDay: Option<GameDay>

    ghost predicate Valid()
      reads this
    {
      && (forall i :: 0 <= i < |gameDays| ==> Closed(gameDays[i]))
      && (currentDay.Some? ==> Open(currentDay.value))
    }

    /** A tracker with nothing stored yet. */
    constructor ()
      ensures Valid()
      ensures currentPTS == 0 && targetPTS == 10000 && gameDays == [] && currentDay == None
    {
      currentPTS, targetPTS, gameDays, currentDay := 0, 10000, [], None;
    }

    /** `getAllMatches`: every itemised match, completed days first. */
    function Log(): seq<Match>
      reads this
    {
      ScriptAllMatches(gameDays, currentDay)
    }

    /**
     * `startGameDay`: refused while a day is open or when the prompt gives no
     * number; otherwise opens an empty day at `now` with the given start PTS.
     */
    method StartGameDay(startPTS: Option<int>, now: int) returns (started: bool)
      requires Valid()
      modifies this
      ensures Valid()
      ensures started <==> old(currentDay).None? && startPTS.Some?
      ensures started ==> currentDay == Some(OpenDay(now, startPTS.value))
      ensures !started ==> currentDay == old(currentDay)
      ensures gameDays == old(gameDays) && currentPTS == old(currentPTS) && targetPTS == old(targetPTS)
    {
      started := currentDay.None? && startPTS.Some?;
      if started {
        currentDay := Some(OpenDay(now, startPTS.value));
      }
    }

    /**
     * `endGameDay`: refused without an open day or a number; otherwise closes
     * the open day with its statistics, appends it to `gameDays`, makes its
     * end PTS the current PTS and clears the open day. The match log is
     * unchanged: the day's matches only move into the completed part.
     */
    method EndGameDay(endPTS: Option<int>) returns (closed: bool)
      requires Valid()
      modifies this
      ensures Valid()
      ensures closed <==> old(currentDay).Some? && endPTS.Some?
      ensures closed ==>
        && |gameDays| == |old(gameDays)| + 1
        && gameDays[..|old(gameDays)|] == old(gameDays)
        && var d, open := gameDays[|gameDays| - 1], old(currentDay).value;
        && d.date == open.date && d.startTimePTS == open.startTimePTS && d.matches == open.matches
        && d.isComplete && d.endTimePTS == endPTS
        && currentPTS == endPTS.value && currentDay.None?
      ensures !closed ==> gameDays == old(gameDays) && currentDay == old(currentDay) && currentPTS == old(currentPTS)
      ensures targetPTS == old(targetPTS)
      ensures Log() == old(Log())
    {
      closed := currentDay.Some? && endPTS.Some?;
      if closed {
        var day := currentDay.value.(endTimePTS := endPTS, isComplete := true);
        day := day.(stats := Some(CalculateDayStats(day)));
        assert (gameDays + [day])[..|gameDays|] == gameDays;
        gameDays := gameDays + [day];
        currentPTS := endPTS.value;
        currentDay := None;
      }
    }

    /**
     * `addMatch`: refused without an open day; otherwise appends the entered
     * match to the open day and recomputes its statistics.
     */
    method AddMatch(hero: string, result: MatchResult, ptsChange: Option<int>,
                    timeOfDay: Option<TimeOfDay>, duration: Option<int>, now: int) returns (added: bool)
      requires Valid()
      modifies this
      ensures Valid()
      ensures added <==> old(currentDay).Some?
      ensures added ==>
        var m, open := EnteredMatch(hero, result, ptsChange, timeOfDay, duration, now), old(currentDay).value;
        && currentDay.Some?
        && currentDay.value.matches == open.matches + [m]
        && currentDay.value.date == open.date && currentDay.value.startTimePTS == open.startTimePTS
        && !currentDay.value.isComplete && currentDay.value.endTimePTS.None?
        && currentDay.value.stats == Some(CalculateDayStats(currentDay.value))
        && Log() == old(Log()) + [m]
      ensures !added ==> currentDay == old(currentDay)
      ensures gameDays == old(gameDays) && currentPTS == old(currentPTS) && targetPTS == old(targetPTS)
    {
      added := currentDay.Some?;
      if added {
        var m := EnteredMatch(hero, result, ptsChange, timeOfDay, duration, now);
        var day := currentDay.value.(matches := currentDay.value.matches + [m]);
        day := day.(stats := Some(CalculateDayStats(day)));
        currentDay := Some(day);
      }
    }

    /**
     * `updateDashboard` and the period chart: winrates of the whole log, of
     * today, of the last 7 and 30 days, the forecast, and the progress bar
     * (left as it was when the target is not positive).
     */
    function Figures(dayOf: int -> int, now: int): (f: DashboardFigures)
      reads this
      ensures 0 <= f.overallWinrate <= 100 && 0 <= f.todayWinrate <= 100
      ensures 0 <= f.weeklyWinrate <= 100 && 0 <= f.monthlyWinrate <= 100
      ensures Log() == [] ==> f.overallWinrate == 0 && f.todayWinrate == 0 && f.forecast == NoData(NoMatches)
      ensures f.progress.Some? <==> targetPTS > 0
      ensures f.progress.Some? ==> f.progress.value <= 100.0
      ensures f.overallWinrate == PeriodWinrate(Log())
      ensures f.todayWinrate == PeriodWinrate(TodayMatches(Log(), dayOf, now))
      ensures f.weeklyWinrate == PeriodWinrate(WeeklyMatches(Log(), now))
      ensures f.monthlyWinrate == PeriodWinrate(MonthlyMatches(Log(), now))
      ensures Log() == [] ==> f.weeklyWinrate == 0 && f.monthlyWinrate == 0
      ensures f.forecast == ScriptForecast(gameDays, currentDay, currentPTS, targetPTS)
      ensures f.progress.Some? ==> f.progress.value == ProgressPercent(currentPTS, targetPTS)
    {
      var all := Log();
      DashboardFigures(PeriodWinrate(all), PeriodWinrate(TodayMatches(all, dayOf, now)),
              PeriodWinrate(WeeklyMatches(all, now)), PeriodWinrate(MonthlyMatches(all, now)),
              ScriptForecast(gameDays, currentDay, currentPTS, targetPTS),
              if targetPTS > 0 then Some(ProgressPercent(currentPTS, targetPTS)) else None)
    }
  }
}
