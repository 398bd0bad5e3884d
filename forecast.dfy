/**
 * The three forecasts of days to the target PTS. Each estimates +20 PTS per
 * win and -20 per loss from the observed winrate; they differ in their
 * guards and in how (or whether) they use the number of matches per day.
 * All fractions are kept exact: a forecast of `d` days is the least `d`
 * whose expected gain covers the PTS still needed.
 */
module Forecast {
  import opened Wrappers
  import opened Types
  import opened Numeric
  import opened Normalize
  import opened Dashboard

  /** Why a forecast shows 'Нет данных'. */
  datatype NoDataReason = NoMatches | NoWins | NoCompletedDays | NoDailyVolume

  datatype Forecast =
    | NoData(reason: NoDataReason) // 'Нет данных'
    | FewData                      // 'Мало данных'
    | Unreachable                  // 'Невозможно достичь цели'
    | GoalReached                  // 'Цель достигнута!'
    | NoActivity                   // 'Нет активности'
    | Days(days: int)              // '<days> дней'

  const PtsPerWin: int := 20
  const PtsPerLoss: int := 20

  /** Below this many matches the adaptive forecast declines to estimate. */
  const MinSample: int := 5

  /**
   * `count` times the expected PTS per match,
   * `count * (wr * 20 - (1 - wr) * 20)` with `wr = wins / count`.
   */
  function ScaledGain(wins: int, count: int): (g: int)
    ensures g == PtsPerWin * (2 * wins - count)
    ensures g > 0 <==> 2 * wins > count
    ensures g == 0 <==> 2 * wins == count
  {
    PtsPerWin * wins - PtsPerLoss * (count - wins)
  }

  lemma MulPos(a: int, b: int)
    requires a > 0 && b > 0
    ensures a * b > 0
  {
  }

  lemma MulNonPos(a: int, b: int)
    requires a <= 0 && b > 0
    ensures a * b <= 0
  {
  }

  // ---------------------------------------------------------------- Dashboard

  /**
   * The Dashboard's forecast from its overall counters: no data unless some
   * match was won, unreachable unless wins outnumber losses, goal reached
   * when nothing is needed, else the days at one match's expected gain a day.
   */
  function DashboardForecast(c: Counts, currentPTS: int, targetPTS: int): (f: Forecast)
    ensures f.NoData? <==> !(c.matches > 0 && c.wins > 0)
    ensures f == Unreachable <==> c.matches > 0 && c.wins > 0 && ScaledGain(c.wins, c.matches) <= 0
    ensures f == GoalReached <==>
      c.matches > 0 && c.wins > 0 && ScaledGain(c.wins, c.matches) > 0 && targetPTS - currentPTS <= 0
    ensures f.Days? ==>
      var g, needed := ScaledGain(c.wins, c.matches), targetPTS - currentPTS;
      && needed > 0 && f.days > 0
      && (f.days - 1) * g < needed * c.matches <= f.days * g
    ensures !f.FewData? && !f.NoActivity?
  {
    if !(c.matches > 0 && c.wins > 0) then
      NoData(if c.matches > 0 then NoWins else NoMatches)
    else
      var g := ScaledGain(c.wins, c.matches);
      if g <= 0 then Unreachable
      else
        var needed := targetPTS - currentPTS;
        if needed <= 0 then GoalReached
        else
          MulPos(needed, c.matches);
          var d := CeilDiv(needed * c.matches, g);
          MulPosInv(d, g);
          Days(d)
  }

  lemma MulPosInv(d: int, g: int)
    requires g > 0 && d * g > 0
    ensures d > 0
  {
  }

  // --------------------------------------------------------------- Adaptive

  /** Days with a known match count, and the sum of those counts. */
  datatype Volume = Volume(days: int, matches: int)

  /** What one completed day adds to the volume: itemised days and days with a `matchesCount`. */
  function DayVolume(d: GameDay): (v: Volume)
    ensures v.days == (if |d.matches| > 0 || d.stats.Some? then 1 else 0)
    ensures |d.matches| > 0 ==> v.matches == |d.matches|
    ensures |d.matches| == 0 && d.stats.Some? ==> v.matches == d.stats.value.matchesCount
    ensures v.days == 0 ==> v.matches == 0
  {
    if |d.matches| > 0 then Volume(1, |d.matches|)
    else if d.stats.Some? then Volume(1, d.stats.value.matchesCount)
    else Volume(0, 0)
  }

  function CompletedVolume(days: seq<GameDay>): (v: Volume)
    ensures 0 <= v.days <= |days|
  {
    if days == [] then Volume(0, 0)
    else
      var v := CompletedVolume(days[..|days| - 1]);
      var d := DayVolume(days[|days| - 1]);
      Volume(v.days + d.days, v.matches + d.matches)
  }

  /** The `totalDaysWithMatches` / `totalMatchesCount` accumulation loop. */
  method CountVolume(days: seq<GameDay>) returns (daysWithMatches: int, matchesCount: int)
    ensures Volume(daysWithMatches, matchesCount) == CompletedVolume(days)
  {
    daysWithMatches, matchesCount := 0, 0;
    for k := 0 to |days|
      invariant Volume(daysWithMatches, matchesCount) == CompletedVolume(days[..k])
    {
      assert days[..k + 1][..k] == days[..k];
      var day := days[k];
      if |day.matches| > 0 {
        matchesCount := matchesCount + |day.matches|;
        daysWithMatches := daysWithMatches + 1;
      } else if day.stats.Some? {
        matchesCount := matchesCount + day.stats.value.matchesCount;
        daysWithMatches := daysWithMatches + 1;
      }
    }
    assert days[..|days|] == days;
  }

  /** Average matches per day as a fraction `num / den`; 1 when no day has a known count. */
  datatype Ratio = Ratio(num: int, den: int)

  function AvgMatchesPerDay(days: seq<GameDay>): (r: Ratio)
    ensures r.den > 0
    ensures CompletedVolume(days).days > 0 ==>
      r == Ratio(CompletedVolume(days).matches, CompletedVolume(days).days)
    ensures CompletedVolume(days).days == 0 ==> r == Ratio(1, 1)
  {
    var v := CompletedVolume(days);
    if v.days > 0 then Ratio(v.matches, v.days) else Ratio(1, 1)
  }

  /**
   * The adaptive forecast's chain of early returns over the normalised log:
   * no matches, fewer than five, a non-positive expected gain, no completed
   * day, a non-positive daily average, and otherwise the least number of days
   * whose expected gain (gain per match times matches per day) covers the PTS
   * needed. It has no "goal reached" outcome: a met goal yields 0 or fewer days.
   */
  function AdaptiveForecast(days: seq<GameDay>, cur: Option<GameDay>, currentPTS: int, targetPTS: int)
    : (f: Forecast)
    ensures var all := AllMatches(days, cur);
      var n, w := |all|, CountWins(all);
      var g, avg, needed := ScaledGain(w, n), AvgMatchesPerDay(days), targetPTS - currentPTS;
      && (f == NoData(NoMatches) <==> n == 0)
      && (f == FewData <==> 0 < n < MinSample)
      && (f == Unreachable <==> n >= MinSample && g <= 0)
      && (f == NoData(NoCompletedDays) <==> n >= MinSample && g > 0 && days == [])
      && (f == NoData(NoDailyVolume) <==> n >= MinSample && g > 0 && days != [] && avg.num <= 0)
      && (f.Days? ==>
            && n >= MinSample && g > 0 && days != [] && avg.num > 0
            && (f.days - 1) * (g * avg.num) < needed * (n * avg.den) <= f.days * (g * avg.num))
      && (f.Days? && needed <= 0 ==> f.days <= 0)
      && !f.GoalReached? && !f.NoActivity? && f != NoData(NoWins)
  {
    var all := AllMatches(days, cur);
    var n := |all|;
    if n == 0 then NoData(NoMatches)
    else
      var w := CountWins(all);
      if n < MinSample then FewData
      else
        var g := ScaledGain(w, n);
        if g <= 0 then Unreachable
        else
          var needed := targetPTS - currentPTS;
          if days == [] then NoData(NoCompletedDays)
          else
            var avg := AvgMatchesPerDay(days);
            if avg.num <= 0 then NoData(NoDailyVolume)
            else
              MulPos(g, avg.num);
              var d := CeilDiv(needed * (n * avg.den), g * avg.num);
              if needed <= 0 then
                MulPos(n, avg.den);
                MulNonPos(needed, n * avg.den);
                CeilDivNonPositive(needed * (n * avg.den), g * avg.num);
                Days(d)
              else Days(d)
  }

  // ---------------------------------------------------------------- script.js

  /** `getTotalMatches`: the itemised matches of the completed days. */
  function CompletedMatchCount(days: seq<GameDay>): (n: nat)
    ensures n == |ScriptFlatten(days)|
  {
    if days == [] then 0 else CompletedMatchCount(days[..|days| - 1]) + |days[|days| - 1].matches|
  }

  function Abs(x: int): nat { if x < 0 then -x else x }

  /** `calculateDaysSinceStart`: whole days, rounded up, between the first and last completed day. */
  function DaysSinceStart(days: seq<GameDay>): (span: int)
    ensures span >= 0
    ensures days != [] ==>
      (span - 1) * DayMs < Abs(days[|days| - 1].date - days[0].date) <= span * DayMs
  {
    if days == [] then 0 else CeilDiv(Abs(days[|days| - 1].date - days[0].date), DayMs)
  }

  /**
   * `calculateAvgGamesPerDay` as a fraction: completed itemised matches over
   * the day span, and 0 without completed days or with a zero span.
   */
  function AvgGamesPerDay(days: seq<GameDay>): (r: Ratio)
    ensures r.den > 0 && r.num >= 0
    ensures r.num == 0 <==> days == [] || DaysSinceStart(days) == 0 || |ScriptFlatten(days)| == 0
  {
    if days == [] then Ratio(0, 1)
    else
      var span := DaysSinceStart(days);
      if span > 0 then Ratio(CompletedMatchCount(days), span) else Ratio(0, 1)
  }

  /**
   * script.js's `updateForecast`: no matches, no activity, a non-positive
   * expected gain, and otherwise the PTS needed divided by the expected gain
   * of ONE match, rounded up. The average games per day only guards against
   * zero; it does not scale the result.
   */
  function ScriptForecast(days: seq<GameDay>, cur: Option<GameDay>, currentPTS: int, targetPTS: int)
    : (f: Forecast)
    ensures var all := ScriptAllMatches(days, cur);
      var n, w := |all|, CountWins(all);
      var g, needed := ScaledGain(w, n), targetPTS - currentPTS;
      && (f.NoData? <==> n == 0)
      && (f == NoActivity <==> n > 0 && AvgGamesPerDay(days).num == 0)
      && (f == Unreachable <==> n > 0 && AvgGamesPerDay(days).num != 0 && g <= 0)
      && (f.Days? ==> g > 0 && (f.days - 1) * g < needed * n <= f.days * g)
      && (f.Days? && needed <= 0 ==> f.days <= 0)
      && (f.NoData? ==> f.reason == NoMatches)
      && !f.FewData? && !f.GoalReached?
  {
    var all := ScriptAllMatches(days, cur);
    var n := |all|;
    if n == 0 then NoData(NoMatches)
    else
      var w := CountWins(all);
      if AvgGamesPerDay(days).num == 0 then NoActivity
      else
        var g := ScaledGain(w, n);
        if g <= 0 then Unreachable
        else
          var needed := targetPTS - currentPTS;
          var d := CeilDiv(needed * n, g);
          if needed <= 0 then
            MulNonPos(needed, n);
            CeilDivNonPositive(needed * n, g);
            Days(d)
          else Days(d)
  }

  /** The example's only day: 10 matches, 7 won, closed at 9000 PTS. */
  function ExampleDay(): GameDay {
    GameDay(0, 8900, [], Some(9000), true, Some(DayStats(10, 7, 3, 70, 100)))
  }

  lemma ExampleLog()
    ensures |AllMatches([ExampleDay()], None)| == 10
    ensures CountWins(AllMatches([ExampleDay()], None)) == 7
  {
    var day := ExampleDay();
    assert [day][..0] == [];
    assert Flatten([day]) == Flatten([]) + DayMatches(day);
    assert AllMatches([day], None) == DayMatches(day) + [];
    assert DayMatches(day) + [] == DayMatches(day);
    assert WellFormed(day);
  }

  /**
   * The worked example: one completed simple day of 10 matches and 7 wins,
   * 9000 of 10000 PTS. Expected gain 8 PTS per match, 125 matches needed,
   * 10 matches a day: 12.5 days, shown as 13.
   */
  lemma AdaptiveExample()
    ensures AdaptiveForecast([ExampleDay()], None, 9000, 10000) == Days(13)
  {
    ExampleLog();
    assert [ExampleDay()][..0] == [];
    assert AvgMatchesPerDay([ExampleDay()]) == Ratio(10, 1);
    assert CeilDiv(1000 * (10 * 1), 80 * 10) == 13;
  }
}
