/**
 * Per-hero statistics: the `heroStats` dictionary filled in log order, its
 * entries in insertion order, and the top five heroes by games played.
 */
module Heroes {
  import opened Wrappers
  import opened Types
  import opened Aggregate

  /** The dictionary key of a match: its hero, or the placeholder when there is none. */
  function HeroKey(m: Match): (h: string)
    ensures h != ""
    ensures m.hero.Some? && m.hero.value != "" ==> h == m.hero.value
    ensures m.hero.None? || m.hero.value == "" ==> h == Unspecified
  {
    if m.hero.None? || m.hero.value == "" then Unspecified else m.hero.value
  }

  /** A JavaScript object used as a dictionary: its keys in insertion order and its values. */
  datatype HeroTable = HeroTable(keys: seq<string>, values: map<string, Tally>)

  ghost predicate ValidTable(t: HeroTable) {
    && (forall i, j :: 0 <= i < j < |t.keys| ==> t.keys[i] != t.keys[j])
    && (forall h :: h in t.values <==> h in t.keys)
  }

  /** One `forEach` step: create the hero's counter if missing, then count the match. */
  function Record(t: HeroTable, m: Match): HeroTable {
    var h := HeroKey(m);
    if h in t.values then HeroTable(t.keys, t.values[h := Bump(t.values[h], m)])
    else HeroTable(t.keys + [h], t.values[h := Bump(Tally(0, 0, 0), m)])
  }

  /** The table after the whole log, one `forEach` step per match. */
  function HeroStats(ms: seq<Match>): (t: HeroTable)
    ensures |t.keys| <= |ms|
  {
    if ms == [] then HeroTable([], map[])
    else Record(HeroStats(ms[..|ms| - 1]), ms[|ms| - 1])
  }

  /**
   * The table has one key per hero that played, each holding exactly that
   * hero's wins, losses and games.
   */
  lemma HeroStatsCorrect(ms: seq<Match>)
    ensures ValidTable(HeroStats(ms))
    ensures forall h :: h in HeroStats(ms).values <==> TallyBy(ms, HeroKey, h).total > 0
    ensures forall h :: h in HeroStats(ms).values ==> HeroStats(ms).values[h] == TallyBy(ms, HeroKey, h)
    ensures forall i, j :: 0 <= i < j < |HeroStats(ms).keys| ==>
      FirstIndex(ms, HeroStats(ms).keys[i]) < FirstIndex(ms, HeroStats(ms).keys[j]) < |ms|
  {
    HeroTallies(ms);
    HeroKeysFirstSeen(ms);
  }

  /** Each key's counter holds exactly that hero's wins, losses and games. */
  lemma {:induction false} HeroTallies(ms: seq<Match>)
    ensures TalliesOf(ms, HeroStats(ms))
  {
    if ms != [] {
      var init, last := ms[..|ms| - 1], ms[|ms| - 1];
      HeroTallies(init);
      TalliesStep(init, last, HeroStats(init));
      assert ms == init + [last];
    }
  }

  /** `t` holds one counter per hero of `ms`, each that hero's own. */
  ghost predicate TalliesOf(ms: seq<Match>, t: HeroTable) {
    && ValidTable(t)
    && (forall h :: h in t.values <==> TallyBy(ms, HeroKey, h).total > 0)
    && (forall h :: h in t.values ==> t.values[h] == TallyBy(ms, HeroKey, h))
  }

  /** Recording one more match keeps the table equal to the counters of the longer log. */
  lemma TalliesStep(init: seq<Match>, last: Match, t: HeroTable)
    requires TalliesOf(init, t)
    ensures TalliesOf(init + [last], Record(t, last))
  {
    var ms := init + [last];
    assert ms[..|ms| - 1] == init;
    if HeroKey(last) in t.values {
      KnownKeyValid(t, last);
    } else {
      NewKeyValid(t, last);
    }
    forall h ensures TallyBy(ms, HeroKey, h) ==
      if HeroKey(last) == h then Bump(TallyBy(init, HeroKey, h), last) else TallyBy(init, HeroKey, h)
    {
    }
  }

  /**
   * Where a hero first appears in the log: the index of its first match, or
   * the log's length when it never played.
   */
  function FirstIndex(ms: seq<Match>, h: string): (p: nat)
    ensures p <= |ms|
    ensures p < |ms| ==> HeroKey(ms[p]) == h
    ensures forall q :: 0 <= q < p ==> HeroKey(ms[q]) != h
  {
    if ms == [] then 0
    else
      var p := FirstIndex(ms[..|ms| - 1], h);
      if p < |ms| - 1 then p
      else if HeroKey(ms[|ms| - 1]) == h then |ms| - 1
      else |ms|
  }

  /** `t` holds the heroes of `ms`, keyed in the order of their first match. */
  ghost predicate KeysFirstSeen(ms: seq<Match>, t: HeroTable) {
    && ValidTable(t)
    && (forall h :: h in t.values <==> FirstIndex(ms, h) < |ms|)
    && (forall i, j :: 0 <= i < j < |t.keys| ==> FirstIndex(ms, t.keys[i]) < FirstIndex(ms, t.keys[j]) < |ms|)
  }

  /**
   * The table's keys are the heroes that played, in the order of their
   * first match.
   */
  lemma {:induction false} HeroKeysFirstSeen(ms: seq<Match>)
    ensures KeysFirstSeen(ms, HeroStats(ms))
  {
    if ms != [] {
      var init, last := ms[..|ms| - 1], ms[|ms| - 1];
      HeroKeysFirstSeen(init);
      assert ms == init + [last];
      if HeroKey(last) in HeroStats(init).values {
        FirstSeenKnown(init, last, HeroStats(init));
      } else {
        FirstSeenNew(init, last, HeroStats(init));
      }
    }
  }

  /** Appending a match moves no hero's first index that already had one. */
  lemma FirstIndexSnoc(init: seq<Match>, last: Match, h: string)
    ensures FirstIndex(init + [last], h) ==
      if FirstIndex(init, h) < |init| then FirstIndex(init, h)
      else if HeroKey(last) == h then |init|
      else |init| + 1
  {
    assert (init + [last])[..|init|] == init;
  }

  lemma FirstSeenKnown(init: seq<Match>, last: Match, t: HeroTable)
    requires KeysFirstSeen(init, t) && HeroKey(last) in t.values
    ensures KeysFirstSeen(init + [last], Record(t, last))
  {
    KnownKeyValid(t, last);
    forall h ensures FirstIndex(init + [last], h) ==
      if FirstIndex(init, h) < |init| then FirstIndex(init, h)
      else if HeroKey(last) == h then |init|
      else |init| + 1
    {
      FirstIndexSnoc(init, last, h);
    }
  }

  lemma FirstSeenNew(init: seq<Match>, last: Match, t: HeroTable)
    requires KeysFirstSeen(init, t) && HeroKey(last) !in t.values
    ensures KeysFirstSeen(init + [last], Record(t, last))
  {
    var ms, k, t' := init + [last], HeroKey(last), Record(t, last);
    NewKeyValid(t, last);
    assert forall h :: h in t'.values <==> FirstIndex(ms, h) < |ms| by {
      forall h ensures h in t'.values <==> FirstIndex(ms, h) < |ms| {
        FirstIndexSnoc(init, last, h);
      }
    }
    forall i, j | 0 <= i < j < |t'.keys|
      ensures FirstIndex(ms, t'.keys[i]) < FirstIndex(ms, t'.keys[j]) < |ms|
    {
      assert t.keys[i] in t.keys;
      FirstIndexSnoc(init, last, t.keys[i]);
      FirstIndexSnoc(init, last, t'.keys[j]);
      if j == |t.keys| {
        assert t'.keys[j] == k;
      } else {
        assert t.keys[j] in t.keys;
      }
    }
  }

  /** The `forEach` loop of the chart code over a mutable dictionary. */
  method TallyHeroes(ms: seq<Match>) returns (keys: seq<string>, values: map<string, Tally>)
    ensures HeroTable(keys, values) == HeroStats(ms)
  {
    keys, values := [], map[];
    for i := 0 to |ms|
      invariant HeroTable(keys, values) == HeroStats(ms[..i])
    {
      assert ms[..i + 1][..i] == ms[..i];
      var hero := HeroKey(ms[i]);
      if hero !in values {
        values := values[hero := Tally(0, 0, 0)];
        keys := keys + [hero];
      }
      values := values[hero := Bump(values[hero], ms[i])];
    }
    assert ms[..|ms|] == ms;
  }

  /** One `[hero, { wins, losses, total }]` entry. */
  datatype HeroStat = HeroStat(hero: string, tally: Tally)

  /** `Object.entries`: the entries in key insertion order. */
  function Entries(t: HeroTable): (es: seq<HeroStat>)
    requires ValidTable(t)
    ensures |es| == |t.keys|
    ensures forall i :: 0 <= i < |es| ==> es[i] == HeroStat(t.keys[i], t.values[t.keys[i]])
  {
    seq(|t.keys|, i requires 0 <= i < |t.keys| => HeroStat(t.keys[i], t.values[t.keys[i]]))
  }

  function SumTotals(es: seq<HeroStat>): int {
    if es == [] then 0 else SumTotals(es[..|es| - 1]) + es[|es| - 1].tally.total
  }

  lemma {:induction false} SumTotalsUpdate(es: seq<HeroStat>, j: nat, e: HeroStat)
    requires j < |es|
    ensures SumTotals(es[j := e]) == SumTotals(es) - es[j].tally.total + e.tally.total
  {
    if j < |es| - 1 {
      assert es[j := e][..|es| - 1] == es[..|es| - 1][j := e];
      SumTotalsUpdate(es[..|es| - 1], j, e);
    } else {
      assert es[j := e][..|es| - 1] == es[..|es| - 1];
    }
  }

  /** Recording one match adds one game to the table's total. */
  lemma RecordAddsOne(t: HeroTable, m: Match)
    requires ValidTable(t)
    ensures ValidTable(Record(t, m))
    ensures SumTotals(Entries(Record(t, m))) == SumTotals(Entries(t)) + 1
  {
    if HeroKey(m) in t.values {
      RecordKnownHero(t, m);
    } else {
      RecordNewHero(t, m);
    }
  }

  /** A hero already in the table: only its entry changes, by one game. */
  lemma RecordKnownHero(t: HeroTable, m: Match)
    requires ValidTable(t) && HeroKey(m) in t.values
    ensures ValidTable(Record(t, m))
    ensures Record(t, m).keys == t.keys
    ensures forall i :: 0 <= i < |t.keys| ==>
      Entries(Record(t, m))[i] == if t.keys[i] == HeroKey(m)
        then HeroStat(HeroKey(m), Bump(t.values[HeroKey(m)], m))
        else Entries(t)[i]
    ensures SumTotals(Entries(Record(t, m))) == SumTotals(Entries(t)) + 1
  {
    var h := HeroKey(m);
    KnownKeyValid(t, m);
    assert h in t.keys;
    var j :| 0 <= j < |t.keys| && t.keys[j] == h;
    var e := HeroStat(h, Bump(t.values[h], m));
    KnownEntries(t, m, j);
    forall i | 0 <= i < |t.keys| && t.keys[i] == h ensures i == j {
    }
    SumTotalsUpdate(Entries(t), j, e);
  }

  /** The entries after a known hero's match: that hero's entry replaced in place. */
  lemma KnownEntries(t: HeroTable, m: Match, j: nat)
    requires ValidTable(t) && j < |t.keys| && t.keys[j] == HeroKey(m)
    ensures ValidTable(Record(t, m))
    ensures Entries(Record(t, m)) == Entries(t)[j := HeroStat(HeroKey(m), Bump(t.values[HeroKey(m)], m))]
  {
    var h := HeroKey(m);
    assert t.keys[j] in t.keys;
    KnownKeyValid(t, m);
    var t' := Record(t, m);
    var upd := Entries(t)[j := HeroStat(h, Bump(t.values[h], m))];
    forall i | 0 <= i < |t.keys| ensures Entries(t')[i] == upd[i] {
      if i != j {
        assert t.keys[i] != h;
      }
    }
  }

  /** A new hero: its entry, of one game, goes at the end. */
  lemma RecordNewHero(t: HeroTable, m: Match)
    requires ValidTable(t) && HeroKey(m) !in t.values
    ensures ValidTable(Record(t, m))
    ensures Record(t, m).keys == t.keys + [HeroKey(m)]
    ensures Entries(Record(t, m)) == Entries(t) + [HeroStat(HeroKey(m), Bump(Tally(0, 0, 0), m))]
    ensures SumTotals(Entries(Record(t, m))) == SumTotals(Entries(t)) + 1
  {
    NewEntries(t, m);
    var es := Entries(Record(t, m));
    assert es[..|es| - 1] == Entries(t);
  }

  /** The entries after a new hero's match: the old entries, then the new one. */
  lemma NewEntries(t: HeroTable, m: Match)
    requires ValidTable(t) && HeroKey(m) !in t.values
    ensures ValidTable(Record(t, m))
    ensures Entries(Record(t, m)) == Entries(t) + [HeroStat(HeroKey(m), Bump(Tally(0, 0, 0), m))]
  {
    NewKeyValid(t, m);
    var t' := Record(t, m);
    forall i | 0 <= i < |t.keys| ensures Entries(t')[i] == Entries(t)[i] {
      assert t.keys[i] in t.keys;
    }
  }

  /** A known hero's update leaves the keys as they were. */
  lemma KnownKeyValid(t: HeroTable, m: Match)
    requires ValidTable(t) && HeroKey(m) in t.values
    ensures ValidTable(Record(t, m))
    ensures Record(t, m).keys == t.keys
  {
    assert Record(t, m).keys == t.keys;
  }

  /** A new hero's key is appended, and the keys stay distinct. */
  lemma NewKeyValid(t: HeroTable, m: Match)
    requires ValidTable(t) && HeroKey(m) !in t.values
    ensures ValidTable(Record(t, m))
    ensures Record(t, m).keys == t.keys + [HeroKey(m)]
  {
  }

  /** Every match is counted under exactly one hero: the totals add up to the log length. */
  lemma {:induction false} HeroTotalsPartition(ms: seq<Match>)
    ensures ValidTable(HeroStats(ms))
    ensures SumTotals(Entries(HeroStats(ms))) == |ms|
  {
    HeroStatsCorrect(ms);
    if ms != [] {
      HeroTotalsPartition(ms[..|ms| - 1]);
      RecordAddsOne(HeroStats(ms[..|ms| - 1]), ms[|ms| - 1]);
    }
  }

  predicate NonIncreasing(es: seq<HeroStat>) {
    forall i, j :: 0 <= i < j < |es| ==> es[i].tally.total >= es[j].tally.total
  }

  /** The entries with `total == n`, in order. */
  function WithTotal(es: seq<HeroStat>, n: int): seq<HeroStat> {
    if es == [] then []
    else (if es[0].tally.total == n then [es[0]] else []) + WithTotal(es[1..], n)
  }

  /** Insert `e` into a sorted list in front of every entry with a total no larger than its own. */
  function InsertByTotal(e: HeroStat, es: seq<HeroStat>): seq<HeroStat> {
    if es == [] then [e]
    else if es[0].tally.total > e.tally.total then [es[0]] + InsertByTotal(e, es[1..])
    else [e] + es
  }

  lemma {:induction false} InsertByTotalPermutes(e: HeroStat, es: seq<HeroStat>)
    ensures multiset(InsertByTotal(e, es)) == multiset(es) + multiset{e}
    ensures |InsertByTotal(e, es)| == |es| + 1
  {
    if es != [] && es[0].tally.total > e.tally.total {
      InsertByTotalPermutes(e, es[1..]);
      assert es == [es[0]] + es[1..];
    }
  }

  lemma {:induction false} InsertByTotalSorted(e: HeroStat, es: seq<HeroStat>)
    requires NonIncreasing(es)
    ensures NonIncreasing(InsertByTotal(e, es))
  {
    if es != [] && es[0].tally.total > e.tally.total {
      InsertByTotalSorted(e, es[1..]);
      InsertedBelowHead(e, es);
      ConsSorted(es[0], InsertByTotal(e, es[1..]));
    } else if es != [] {
      ConsSorted(e, es);
    }
  }

  /** Inserting below the head leaves only entries no larger than the head. */
  lemma InsertedBelowHead(e: HeroStat, es: seq<HeroStat>)
    requires NonIncreasing(es) && es != [] && es[0].tally.total > e.tally.total
    ensures forall x :: x in InsertByTotal(e, es[1..]) ==> x.tally.total <= es[0].tally.total
  {
    var tail := InsertByTotal(e, es[1..]);
    InsertByTotalPermutes(e, es[1..]);
    forall x | x in tail ensures x.tally.total <= es[0].tally.total {
      assert x in multiset(tail);
      if x != e {
        assert x in multiset(es[1..]);
        var k :| 0 <= k < |es[1..]| && es[1..][k] == x;
        assert es[k + 1] == x;
      }
    }
  }

  /** A head no smaller than anything in a sorted tail keeps the list sorted. */
  lemma ConsSorted(h: HeroStat, tail: seq<HeroStat>)
    requires NonIncreasing(tail)
    requires forall x :: x in tail ==> x.tally.total <= h.tally.total
    ensures NonIncreasing([h] + tail)
  {
    var r := [h] + tail;
    forall i, j | 0 <= i < j < |r| ensures r[i].tally.total >= r[j].tally.total {
      assert r[j] == tail[j - 1];
      if i > 0 {
        assert r[i] == tail[i - 1];
      }
    }
  }

  /** Inserting keeps earlier entries of equal total in front: `e` comes first among its ties. */
  lemma {:induction false} InsertByTotalStable(e: HeroStat, es: seq<HeroStat>, n: int)
    ensures WithTotal(InsertByTotal(e, es), n) == (if e.tally.total == n then [e] else []) + WithTotal(es, n)
  {
    if es != [] && es[0].tally.total > e.tally.total {
      InsertByTotalStable(e, es[1..], n);
      var r := InsertByTotal(e, es);
      assert r[1..] == InsertByTotal(e, es[1..]);
    } else {
      var r := InsertByTotal(e, es);
      assert r[1..] == es;
    }
  }

  /** `sort((a, b) => b.total - a.total)`: a stable sort by games played, most first. */
  function SortByTotal(es: seq<HeroStat>): (r: seq<HeroStat>)
    ensures |r| == |es|
    ensures NonIncreasing(r)
    ensures multiset(r) == multiset(es)
    ensures forall n :: WithTotal(r, n) == WithTotal(es, n)
  {
    if es == [] then []
    else
      var rest := SortByTotal(es[1..]);
      InsertByTotalSorted(es[0], rest);
      InsertByTotalPermutes(es[0], rest);
      forall n ensures WithTotal(InsertByTotal(es[0], rest), n) == WithTotal(es, n) {
        InsertByTotalStable(es[0], rest, n);
      }
      assert es == [es[0]] + es[1..];
      InsertByTotal(es[0], rest)
  }

  /**
   * `slice(0, 5)` of the sorted entries: at most five, most played first,
   * taken from the entries, ties in first-encountered order, and no entry
   * left out has more games than the fifth.
   */
  function TopHeroes(es: seq<HeroStat>): (r: seq<HeroStat>)
    ensures |r| == if |es| < 5 then |es| else 5
    ensures NonIncreasing(r)
    ensures multiset(r) <= multiset(es)
    ensures forall n :: WithTotal(r, n) <= WithTotal(es, n)
    ensures forall e :: e in es && e !in r ==> |r| == 5 && e.tally.total <= r[4].tally.total
  {
    var sorted := SortByTotal(es);
    var k := if |es| < 5 then |es| else 5;
    PrefixProperties(sorted, k);
    forall e | e in es ensures e in sorted {
      assert e in multiset(es);
    }
    assert k == |sorted| ==> sorted[..k] == sorted;
    sorted[..k]
  }

  lemma PrefixProperties(sorted: seq<HeroStat>, k: nat)
    requires k <= |sorted| && NonIncreasing(sorted)
    ensures NonIncreasing(sorted[..k])
    ensures multiset(sorted[..k]) <= multiset(sorted)
    ensures forall n :: WithTotal(sorted[..k], n) <= WithTotal(sorted, n)
    ensures forall e :: e in sorted && e !in sorted[..k] ==> k > 0 ==> e.tally.total <= sorted[k - 1].tally.total
  {
    var r := sorted[..k];
    assert sorted == r + sorted[k..];
    forall n ensures WithTotal(r, n) <= WithTotal(sorted, n) {
      WithTotalAppend(r, sorted[k..], n);
    }
    PrefixBoundsRest(sorted, k);
  }

  /** Whatever a prefix of a sorted list leaves out is no larger than the prefix's last entry. */
  lemma PrefixBoundsRest(sorted: seq<HeroStat>, k: nat)
    requires k <= |sorted| && NonIncreasing(sorted)
    ensures forall e :: e in sorted && e !in sorted[..k] ==> k > 0 ==> e.tally.total <= sorted[k - 1].tally.total
  {
    forall e | e in sorted && e !in sorted[..k] && k > 0 ensures e.tally.total <= sorted[k - 1].tally.total {
      assert forall j :: 0 <= j < k ==> sorted[..k][j] == sorted[j];
      var i :| k <= i < |sorted| && sorted[i] == e;
    }
  }

  lemma {:induction false} WithTotalAppend(a: seq<HeroStat>, b: seq<HeroStat>, n: int)
    ensures WithTotal(a + b, n) == WithTotal(a, n) + WithTotal(b, n)
  {
    if a != [] {
      assert (a + b)[1..] == a[1..] + b;
      WithTotalAppend(a[1..], b, n);
    } else {
      assert a + b == b;
    }
  }

  /** The heroes of the pie chart: the five most played heroes of the log. */
  function TopHeroesOf(ms: seq<Match>): (r: seq<HeroStat>)
    ensures |r| <= 5 && NonIncreasing(r)
    ensures forall e :: e in r ==> e.tally == TallyBy(ms, HeroKey, e.hero) && e.tally.total > 0
    ensures forall h :: TallyBy(ms, HeroKey, h).total > 0 && (forall e :: e in r ==> e.hero != h) ==>
      |r| == 5 && TallyBy(ms, HeroKey, h).total <= r[4].tally.total
  {
    HeroTallies(ms);
    TopAreTallies(ms);
    TopLeavesOutSmaller(ms);
    TopHeroes(Entries(HeroStats(ms)))
  }

  /** A hero that played is left off the chart only behind five heroes with no fewer games. */
  lemma TopLeavesOutSmaller(ms: seq<Match>)
    ensures ValidTable(HeroStats(ms))
    ensures var r := TopHeroes(Entries(HeroStats(ms)));
      forall h :: TallyBy(ms, HeroKey, h).total > 0 && (forall e :: e in r ==> e.hero != h) ==>
        |r| == 5 && TallyBy(ms, HeroKey, h).total <= r[4].tally.total
  {
    HeroTallies(ms);
    var t := HeroStats(ms);
    var es := Entries(t);
    var r := TopHeroes(es);
    forall h | TallyBy(ms, HeroKey, h).total > 0 && (forall e :: e in r ==> e.hero != h)
      ensures |r| == 5 && TallyBy(ms, HeroKey, h).total <= r[4].tally.total
    {
      assert h in t.keys;
      var i :| 0 <= i < |t.keys| && t.keys[i] == h;
      assert es[i] in es && es[i] !in r;
    }
  }

  /** Every entry shown is a hero that played, with that hero's own counter. */
  lemma TopAreTallies(ms: seq<Match>)
    ensures ValidTable(HeroStats(ms))
    ensures forall e :: e in TopHeroes(Entries(HeroStats(ms))) ==>
      e.tally == TallyBy(ms, HeroKey, e.hero) && e.tally.total > 0
  {
    HeroTallies(ms);
    var t := HeroStats(ms);
    var es := Entries(t);
    forall e | e in TopHeroes(es)
      ensures e.tally == TallyBy(ms, HeroKey, e.hero) && e.tally.total > 0
    {
      assert e in multiset(TopHeroes(es));
      assert e in multiset(es);
      var i :| 0 <= i < |es| && es[i] == e;
      assert t.keys[i] in t.keys;
    }
  }
}
