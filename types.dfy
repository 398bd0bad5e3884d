/**
 * The tracker's data model: matches, game days and the per-day statistics
 * that closing a day writes. Timestamps are integers (milliseconds).
 */
module Types {
  import opened Wrappers

  datatype MatchResult = Win | Loss

  datatype TimeOfDay = Morning | Afternoon | Evening | Night

  /** The hero name stored when the form leaves the hero empty. */
  const Unspecified: string := "Не указан"

  /** Milliseconds in one day. */
  const DayMs: int := 86400000

  /**
   * One match. Matches typed into a form carry every field; the synthetic
   * matches that stand for a simple-input day carry only a result and a date.
   */
  datatype Match = Match(
    hero: Option<string>,
    result: MatchResult,
    ptsChange: Option<int>,
    timeOfDay: Option<TimeOfDay>,
    duration: Option<int>,
    date: int)

  /**
   * The statistics fields `matchesCount`, `wins`, `losses`, `winrate` and
   * `ptsChange` of a day. Every writer of these fields sets all of them at
   * once, so the model keeps them together as one optional record.
   */
  datatype DayStats = DayStats(
    matchesCount: int,
    wins: int,
    losses: int,
    winrate: int,
    ptsChange: int)

  /** A game day: open while `isComplete` is false, closed once it is true. */
  datatype GameDay = GameDay(
    date: int,
    startTimePTS: int,
    matches: seq<Match>,
    endTimePTS: Option<int>,
    isComplete: bool,
    stats: Option<DayStats>)

  /** A day whose summary counts, if any, are sane: 0 <= wins <= matchesCount. */
  predicate WellFormed(d: GameDay) {
    d.stats.Some? ==> 0 <= d.stats.value.wins <= d.stats.value.matchesCount
  }

  predicate AllWellFormed(days: seq<GameDay>) {
    forall i :: 0 <= i < |days| ==> WellFormed(days[i])
  }

  /** A freshly started day: no matches, not complete, no summary yet. */
  function OpenDay(now: int, startPTS: int): (d: GameDay)
    ensures d.matches == [] && !d.isComplete && d.endTimePTS.None? && d.stats.None?
    ensures d.startTimePTS == startPTS && d.date == now && WellFormed(d)
  {
    GameDay(now, startPTS, [], None, false, None)
  }

  /**
   * A match as the match form records it: an empty hero becomes the
   * placeholder, an unparsable PTS change or duration becomes 0.
   */
  function EnteredMatch(hero: string, result: MatchResult, ptsChange: Option<int>,
                        timeOfDay: Option<TimeOfDay>, duration: Option<int>, now: int): (m: Match)
    ensures m.hero.Some? && m.hero.value != ""
    ensures hero != "" ==> m.hero == Some(hero)
    ensures hero == "" ==> m.hero == Some(Unspecified)
    ensures m.ptsChange.Some? && (ptsChange.None? ==> m.ptsChange == Some(0))
    ensures ptsChange.Some? ==> m.ptsChange == ptsChange
    ensures m.duration.Some? && (duration.None? ==> m.duration == Some(0))
    ensures duration.Some? ==> m.duration == duration
    ensures m.result == result && m.timeOfDay == timeOfDay && m.date == now
  {
    Match(Some(if hero == "" then Unspecified else hero), result,
          Some(ptsChange.GetOr(0)), timeOfDay, Some(duration.GetOr(0)), now)
  }

  /** Number of matches won. */
  function CountWins(ms: seq<Match>): (w: nat)
    ensures w <= |ms|
  {
    if ms == [] then 0
    else CountWins(ms[..|ms| - 1]) + (if ms[|ms| - 1].result == Win then 1 else 0)
  }

  /** Number of matches lost. */
  function CountLosses(ms: seq<Match>): (l: nat)
    ensures l <= |ms|
  {
    if ms == [] then 0
    else CountLosses(ms[..|ms| - 1]) + (if ms[|ms| - 1].result == Loss then 1 else 0)
  }

  /** Every match is either won or lost, so the two counts partition the list. */
  lemma {:induction false} WinsPlusLosses(ms: seq<Match>)
    ensures CountWins(ms) + CountLosses(ms) == |ms|
  {
    if ms != [] {
      WinsPlusLosses(ms[..|ms| - 1]);
    }
  }

  /** Counting wins distributes over concatenation. */
  lemma {:induction false} CountWinsAppend(a: seq<Match>, b: seq<Match>)
    ensures CountWins(a + b) == CountWins(a) + CountWins(b)
    decreases |b|
  {
    if b == [] {
      assert a + b == a;
    } else {
      assert (a + b)[..|a + b| - 1] == a + b[..|b| - 1];
      CountWinsAppend(a, b[..|b| - 1]);
    }
  }
}
