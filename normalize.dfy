/**
 * The match normaliser: turns the stored game days into one sequence of
 * matches. The React components expand a simple-input day into synthetic
 * wins followed by synthetic losses; script.js only concatenates the
 * itemised matches.
 */
module Normalize {
  import opened Wrappers
  import opened Types

  /** The stand-in for one match of a simple-input day: only a result and the day's date. */
  function SyntheticMatch(r: MatchResult, date: int): Match {
    Match(None, r, None, None, None, date)
  }

  /** `n` synthetic matches; a non-positive `n` gives none, as a `for` loop that never runs. */
  function Synthetic(r: MatchResult, n: int, date: int): (ms: seq<Match>)
    ensures |ms| == if n > 0 then n else 0
    ensures forall i :: 0 <= i < |ms| ==> ms[i] == SyntheticMatch(r, date)
    decreases n
  {
    if n <= 0 then [] else Synthetic(r, n - 1, date) + [SyntheticMatch(r, date)]
  }

  /**
   * The matches one day contributes: its itemised matches when it has any,
   * otherwise `wins` synthetic wins then `matchesCount - wins` synthetic
   * losses when it carries summary counts, otherwise nothing.
   */
  function DayMatches(d: GameDay): (ms: seq<Match>)
    ensures |d.matches| > 0 ==> ms == d.matches
    ensures |d.matches| == 0 && d.stats.None? ==> ms == []
    ensures |d.matches| == 0 && d.stats.Some? && WellFormed(d) ==>
      var s := d.stats.value;
      && |ms| == s.matchesCount
      && CountWins(ms) == s.wins
      && (forall i :: 0 <= i < |ms| ==> ms[i].date == d.date && ms[i].hero.None?)
      && (forall i :: 0 <= i < |ms| ==> (ms[i].result == Win <==> i < s.wins))
  {
    if |d.matches| > 0 then d.matches
    else if d.stats.Some? then
      var s := d.stats.value;
      var ms := Synthetic(Win, s.wins, d.date) + Synthetic(Loss, s.matchesCount - s.wins, d.date);
      if WellFormed(d) then
        SyntheticWins(Win, s.wins, d.date);
        SyntheticWins(Loss, s.matchesCount - s.wins, d.date);
        CountWinsAppend(Synthetic(Win, s.wins, d.date), Synthetic(Loss, s.matchesCount - s.wins, d.date));
        ms
      else ms
    else []
  }

  lemma {:induction false} SyntheticWins(r: MatchResult, n: int, date: int)
    ensures CountWins(Synthetic(r, n, date)) == if r == Win && n > 0 then n else 0
    decreases n
  {
    if n > 0 {
      SyntheticWins(r, n - 1, date);
      assert Synthetic(r, n, date)[..n - 1] == Synthetic(r, n - 1, date);
    }
  }

  /** The completed days' matches, day by day in stored order. */
  function Flatten(days: seq<GameDay>): (ms: seq<Match>)
    ensures forall i, m :: 0 <= i < |days| && m in DayMatches(days[i]) ==> m in ms
    ensures forall m :: m in ms ==> exists i :: 0 <= i < |days| && m in DayMatches(days[i])
  {
    if days == [] then [] else Flatten(days[..|days| - 1]) + DayMatches(days[|days| - 1])
  }

  /** The open day, if any, normalised the same way. */
  function CurrentMatches(cur: Option<GameDay>): seq<Match> {
    if cur.Some? then DayMatches(cur.value) else []
  }

  /** The canonical match log: completed days in order, then the open day. */
  function AllMatches(days: seq<GameDay>, cur: Option<GameDay>): (ms: seq<Match>)
    ensures Flatten(days) <= ms
    ensures cur.None? ==> ms == Flatten(days)
    ensures cur.Some? ==> ms[|Flatten(days)|..] == DayMatches(cur.value)
  {
    Flatten(days) + CurrentMatches(cur)
  }

  /** Normalising a split list of days is normalising each part. */
  lemma {:induction false} FlattenAppend(a: seq<GameDay>, b: seq<GameDay>)
    ensures Flatten(a + b) == Flatten(a) + Flatten(b)
    decreases |b|
  {
    if b == [] {
      assert a + b == a;
    } else {
      var init, last := b[..|b| - 1], b[|b| - 1];
      assert Flatten(a + b) == Flatten(a + init) + DayMatches(last) by {
        assert a + b == (a + init) + [last];
        FlattenSnoc(a + init, last);
      }
      assert Flatten(b) == Flatten(init) + DayMatches(last) by {
        assert b == init + [last];
        FlattenSnoc(init, last);
      }
      FlattenAppend(a, init);
      assert (Flatten(a) + Flatten(init)) + DayMatches(last) == Flatten(a) + (Flatten(init) + DayMatches(last));
    }
  }

  /** Adding a day at the end adds its contribution at the end. */
  lemma FlattenSnoc(days: seq<GameDay>, d: GameDay)
    ensures Flatten(days + [d]) == Flatten(days) + DayMatches(d)
  {
    assert (days + [d])[..|days|] == days;
  }

  /**
   * The log is ordered by day: day k's matches sit right after those of the
   * days before it, and the open day's matches come last.
   */
  lemma DayOrder(days: seq<GameDay>, cur: Option<GameDay>, k: nat)
    requires k < |days|
    ensures AllMatches(days, cur)
         == Flatten(days[..k]) + DayMatches(days[k]) + Flatten(days[k + 1..]) + CurrentMatches(cur)
  {
    assert days == days[..k] + [days[k]] + days[k + 1..];
    FlattenAppend(days[..k] + [days[k]], days[k + 1..]);
    assert ([] + [days[k]])[..0] == [];
    FlattenAppend(days[..k], [days[k]]);
    assert Flatten([days[k]]) == DayMatches(days[k]) by {
      assert [days[k]][..0] == [];
    }
  }

  /**
   * Closing the open day into a day that contributes the same matches only
   * moves them from the end of the log into the completed part.
   */
  lemma CloseKeepsLog(days: seq<GameDay>, open: GameDay, closed: GameDay)
    requires DayMatches(closed) == DayMatches(open)
    ensures AllMatches(days + [closed], None) == AllMatches(days, Some(open))
  {
    assert (days + [closed])[..|days|] == days;
  }

  /** Appends what one day contributes, the way the components' `forEach` body does. */
  method AppendDay(acc: seq<Match>, d: GameDay) returns (all: seq<Match>)
    ensures all == acc + DayMatches(d)
  {
    if |d.matches| > 0 {
      all := acc + d.matches;
    } else if d.stats.Some? {
      var wins := d.stats.value.wins;
      var losses := d.stats.value.matchesCount - wins;
      all := acc;
      var i := 0;
      while i < wins
        invariant 0 <= i <= if wins > 0 then wins else 0
        invariant all == acc + Synthetic(Win, i, d.date)
      {
        all := all + [SyntheticMatch(Win, d.date)];
        i := i + 1;
      }
      assert Synthetic(Win, i, d.date) == Synthetic(Win, wins, d.date);
      ghost var winsPart := all;
      i := 0;
      while i < losses
        invariant 0 <= i <= if losses > 0 then losses else 0
        invariant all == winsPart + Synthetic(Loss, i, d.date)
      {
        all := all + [SyntheticMatch(Loss, d.date)];
        i := i + 1;
      }
      assert Synthetic(Loss, i, d.date) == Synthetic(Loss, losses, d.date);
    } else {
      all := acc;
    }
  }

  /** `getAllMatches` of ChartsSection.tsx and AdaptiveForecast.tsx. */
  method CollectMatches(days: seq<GameDay>, cur: Option<GameDay>) returns (all: seq<Match>)
    ensures all == AllMatches(days, cur)
  {
    all := [];
    for k := 0 to |days|
      invariant all == Flatten(days[..k])
    {
      assert days[..k + 1][..k] == days[..k];
      all := AppendDay(all, days[k]);
    }
    assert days[..|days|] == days;
    if cur.Some? {
      all := AppendDay(all, cur.value);
    }
  }

  /** script.js's log: the itemised matches of every completed day, then of the open day. */
  function ScriptFlatten(days: seq<GameDay>): (ms: seq<Match>)
    ensures forall i, m :: 0 <= i < |days| && m in days[i].matches ==> m in ms
    ensures forall m :: m in ms ==> exists i :: 0 <= i < |days| && m in days[i].matches
  {
    if days == [] then [] else ScriptFlatten(days[..|days| - 1]) + days[|days| - 1].matches
  }

  function ScriptAllMatches(days: seq<GameDay>, cur: Option<GameDay>): (ms: seq<Match>)
    ensures ScriptFlatten(days) <= ms
    ensures cur.None? ==> ms == ScriptFlatten(days)
    ensures cur.Some? ==> ms[|ScriptFlatten(days)|..] == cur.value.matches
  {
    ScriptFlatten(days) + (if cur.Some? then cur.value.matches else [])
  }

  /**
   * A day whose summary, if it has one, is the summary of its own matches:
   * every day `calculateDayStats` has seen, including a day closed with no
   * match at all.
   */
  predicate SelfSummarised(d: GameDay) {
    d.stats.Some? ==> d.stats.value.matchesCount == |d.matches| && d.stats.value.wins == CountWins(d.matches)
  }

  /** A self-summarised day contributes exactly its own `matches` array. */
  lemma SelfSummarisedContributes(d: GameDay)
    requires SelfSummarised(d)
    ensures DayMatches(d) == d.matches
  {
    if |d.matches| == 0 && d.stats.Some? {
      assert WellFormed(d);
    }
  }

  /**
   * On self-summarised days the two normalisers agree; only a summary-only
   * day with a non-zero count, which the React app writes, tells them apart.
   */
  lemma {:induction false} ScriptAgreesOnItemisedDays(days: seq<GameDay>, cur: Option<GameDay>)
    requires forall i :: 0 <= i < |days| ==> SelfSummarised(days[i])
    requires cur.Some? ==> SelfSummarised(cur.value)
    ensures ScriptAllMatches(days, cur) == AllMatches(days, cur)
    decreases |days|
  {
    if days != [] {
      var last := days[|days| - 1];
      ScriptAgreesOnItemisedDays(days[..|days| - 1], None);
      var init := days[..|days| - 1];
      assert ScriptFlatten(init) + [] == ScriptFlatten(init);
      assert Flatten(init) + [] == Flatten(init);
      assert ScriptFlatten(init) == Flatten(init);
      SelfSummarisedContributes(last);
      assert ScriptFlatten(days) == Flatten(days);
    }
    if cur.Some? {
      SelfSummarisedContributes(cur.value);
    }
  }
}
