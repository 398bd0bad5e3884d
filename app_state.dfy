/**
 * The React application's shared state (`currentPTS`, `targetPTS`,
 * `gameDays`, `currentDay`) and the handlers that update it: starting and
 * closing a game day, recording a match and setting the target.
 */
module App {
  import opened Wrappers
  import opened Types
  import opened Numeric
  import opened Normalize

  /**
   * A day as the close handlers leave it: complete, with its end PTS and a
   * summary whose losses are the matches not won, whose winrate is the
   * rounded share of wins and whose PTS change is end minus start.
   */
  ghost predicate Settled(d: GameDay) {
    && d.isComplete && d.endTimePTS.Some? && d.stats.Some?
    && var s := d.stats.value;
    && 0 <= s.wins <= s.matchesCount
    && s.losses == s.matchesCount - s.wins
    && s.winrate == Winrate(s.wins, s.matchesCount)
    && s.ptsChange == d.endTimePTS.value - d.startTimePTS
  }

  /** The open day `{...currentDay, endTimePTS, isComplete: true}` with the given summary. */
  function Completed(open: GameDay, endPTS: int, matchesCount: int, wins: int, losses: int): (d: GameDay)
    ensures d.date == open.date && d.startTimePTS == open.startTimePTS && d.matches == open.matches
    ensures d.isComplete && d.endTimePTS == Some(endPTS) && d.stats.Some?
    ensures d.stats.value.matchesCount == matchesCount && d.stats.value.wins == wins && d.stats.value.losses == losses
    ensures 0 <= wins <= matchesCount && losses == matchesCount - wins <==> Settled(d)
  {
    open.(endTimePTS := Some(endPTS), isComplete := true,
          stats := Some(DayStats(matchesCount, wins, losses, Winrate(wins, matchesCount), endPTS - open.startTimePTS)))
  }

  /**
   * `endGameDaySimple` once its guards pass: the day is settled with the
   * typed-in counts, and a day without itemised matches then stands in the
   * log for exactly `matchesCount` matches of which `wins` are won.
   */
  function CloseSimple(open: GameDay, endPTS: int, matchesCount: int, wins: int): (d: GameDay)
    requires 0 <= wins <= matchesCount
    ensures Settled(d) && d.endTimePTS == Some(endPTS)
    ensures d.date == open.date && d.startTimePTS == open.startTimePTS && d.matches == open.matches
    ensures d.stats.value.matchesCount == matchesCount && d.stats.value.wins == wins
    ensures open.matches == [] ==> |DayMatches(d)| == matchesCount && CountWins(DayMatches(d)) == wins
  {
    Completed(open, endPTS, matchesCount, wins, matchesCount - wins)
  }

  /**
   * `endGameDayDetailed`: the day is settled with the counts of its own
   * matches. A day with matches, or an empty day without a summary, then
   * contributes to the log exactly what it contributed while open.
   */
  function CloseDetailed(open: GameDay, endPTS: int): (d: GameDay)
    ensures Settled(d) && d.endTimePTS == Some(endPTS)
    ensures d.date == open.date && d.startTimePTS == open.startTimePTS && d.matches == open.matches
    ensures d.stats.value.matchesCount == |open.matches| && d.stats.value.wins == CountWins(open.matches)
    ensures d.stats.value.losses == CountLosses(open.matches)
    ensures |open.matches| > 0 || open.stats.None? ==> DayMatches(d) == DayMatches(open)
  {
    WinsPlusLosses(open.matches);
    var d := Completed(open, endPTS, |open.matches|, CountWins(open.matches), CountLosses(open.matches));
    assert d.matches == [] ==> DayMatches(d) == Synthetic(Win, 0, d.date) + Synthetic(Loss, 0, d.date);
    d
  }

  class AppState {
    var currentPTS: int
    var targetPTS: int
    var gameDays: seq<GameDay>
    var currentDay: Option<GameDay>

    /** Every completed day is settled, the open day is open, and the target is positive. */
    ghost predicate Valid()
      reads this
    {
      && (forall i :: 0 <= i < |gameDays| ==> Settled(gameDays[i]))
      && (currentDay.Some? ==> !currentDay.value.isComplete && WellFormed(currentDay.value))
      && targetPTS > 0
    }

    /** The provider's initial state. */
    constructor ()
      ensures Valid()
      ensures currentPTS == 0 && targetPTS == 10000 && gameDays == [] && currentDay == None
    {
      currentPTS, targetPTS, gameDays, currentDay := 0, 10000, [], None;
    }

    /** The log the charts and the dashboard read. */
    function Log(): seq<Match>
      reads this
    {
      AllMatches(gameDays, currentDay)
    }

    /** A valid state is one the normaliser and the dashboard counters accept. */
    lemma ValidIsWellFormed()
      requires Valid()
      ensures AllWellFormed(gameDays)
      ensures currentDay.Some? ==> WellFormed(currentDay.value)
      ensures forall i :: 0 <= i < |gameDays| ==> 0 <= gameDays[i].stats.value.winrate <= 100
    {
    }

    /**
     * `startGameDay`: refused while a day is open or without a number;
     * otherwise opens an empty day at `now`.
     */
    method StartGameDay(startPTS: Option<int>, now: int) returns (started: bool)
      requires Valid()
      modifies this
      ensures Valid()
      ensures started <==> old(currentDay).None? && startPTS.Some?
      ensures started ==> currentDay == Some(OpenDay(now, startPTS.value))
      ensures !started ==> currentDay == old(currentDay)
      ensures gameDays == old(gameDays) && currentPTS == old(currentPTS) && targetPTS == old(targetPTS)
    {
      started := currentDay.None? && startPTS.Some?;
      if started {
        currentDay := Some(OpenDay(now, startPTS.value));
      }
    }

    /**
     * `endGameDaySimple`: refused without an open day, an end PTS, a
     * non-negative match count and a non-negative win count no larger than
     * it; otherwise appends the settled day, makes its end PTS current and
     * clears the open day. The completed part of the log grows by what the
     * new day contributes.
     */
    method EndGameDaySimple(endPTS: Option<int>, matchesCount: Option<int>, wins: Option<int>) returns (closed: bool)
      requires Valid()
      modifies this
      ensures Valid()
      ensures closed <==>
        && old(currentDay).Some? && endPTS.Some?
        && matchesCount.Some? && matchesCount.value >= 0
        && wins.Some? && wins.value >= 0 && wins.value <= matchesCount.value
      ensures closed ==>
        && gameDays == old(gameDays) + [CloseSimple(old(currentDay).value, endPTS.value, matchesCount.value, wins.value)]
        && currentPTS == endPTS.value && currentDay.None?
        && Log() == old(Flatten(gameDays)) + DayMatches(gameDays[|gameDays| - 1])
      ensures !closed ==> gameDays == old(gameDays) && currentDay == old(currentDay) && currentPTS == old(currentPTS)
      ensures targetPTS == old(targetPTS)
    {
      closed := currentDay.Some? && endPTS.Some? && matchesCount.Some? && matchesCount.value >= 0
                && wins.Some? && wins.value >= 0 && wins.value <= matchesCount.value;
      if closed {
        var day := CloseSimple(currentDay.value, endPTS.value, matchesCount.value, wins.value);
        assert (gameDays + [day])[..|gameDays|] == gameDays;
        gameDays := gameDays + [day];
        currentPTS := endPTS.value;
        currentDay := None;
      }
    }

    /**
     * `endGameDayDetailed`: refused without an open day or an end PTS;
     * otherwise appends the day settled with its own matches' counts. When
     * the open day had matches or no summary, the log is unchanged.
     */
    method EndGameDayDetailed(endPTS: Option<int>) returns (closed: bool)
      requires Valid()
      modifies this
      ensures Valid()
      ensures closed <==> old(currentDay).Some? && endPTS.Some?
      ensures closed ==>
        && gameDays == old(gameDays) + [CloseDetailed(old(currentDay).value, endPTS.value)]
        && currentPTS == endPTS.value && currentDay.None?
      ensures closed && (|old(currentDay).value.matches| > 0 || old(currentDay).value.stats.None?) ==>
        Log() == old(Log())
      ensures !closed ==> gameDays == old(gameDays) && currentDay == old(currentDay) && currentPTS == old(currentPTS)
      ensures targetPTS == old(targetPTS)
    {
      closed := currentDay.Some? && endPTS.Some?;
      if closed {
        var open := currentDay.value;
        var day := CloseDetailed(open, endPTS.value);
        if |open.matches| > 0 || open.stats.None? {
          CloseKeepsLog(gameDays, open, day);
        }
        gameDays := gameDays + [day];
        currentPTS := endPTS.value;
        currentDay := None;
      }
    }

    /**
     * The match form's `addMatch`: refused without an open day or when the
     * open day already carries a typed-in summary; otherwise appends the
     * entered match to the open day, which adds it at the end of the log.
     */
    method AddMatch(hero: string, result: MatchResult, ptsChange: Option<int>,
                    timeOfDay: TimeOfDay, duration: Option<int>, now: int) returns (added: bool)
      requires Valid()
      modifies this
      ensures Valid()
      ensures added <==> old(currentDay).Some? && old(currentDay).value.stats.None?
      ensures added ==>
        var m := EnteredMatch(hero, result, ptsChange, Some(timeOfDay), duration, now);
        && currentDay == Some(old(currentDay).value.(matches := old(currentDay).value.matches + [m]))
        && Log() == old(Log()) + [m]
      ensures !added ==> currentDay == old(currentDay)
      ensures gameDays == old(gameDays) && currentPTS == old(currentPTS) && targetPTS == old(targetPTS)
    {
      added := currentDay.Some? && currentDay.value.stats.None?;
      if added {
        var m := EnteredMatch(hero, result, ptsChange, Some(timeOfDay), duration, now);
        currentDay := Some(currentDay.value.(matches := currentDay.value.matches + [m]));
      }
    }

    /** `handleSetTarget`: only a parsed, positive number replaces the target. */
    method SetTarget(parsed: Option<int>) returns (accepted: bool)
      requires Valid()
      modifies this
      ensures Valid()
      ensures accepted <==> parsed.Some? && parsed.value > 0
      ensures targetPTS == if accepted then parsed.value else old(targetPTS)
      ensures gameDays == old(gameDays) && currentDay == old(currentDay) && currentPTS == old(currentPTS)
    {
      accepted := parsed.Some? && parsed.value > 0;
      if accepted {
        targetPTS := parsed.value;
      }
    }
  }
}
