/**
 * The achievement badges: six fixed PTS thresholds, each badge achieved once
 * the current PTS reaches it, and the list of unlocked badges.
 */
module Achievements {

  datatype Badge = Badge(id: string, title: string, threshold: int, achieved: bool)

  const Ids: seq<string> := ["pts-1000", "pts-1500", "pts-2000", "pts-3000", "pts-4000", "pts-5000"]
  const Titles: seq<string> := ["Новичок", "Боец", "Профессионал", "Легенда", "Бог ПТС", "Несокрушимый"]
  const Thresholds: seq<int> := [1000, 1500, 2000, 3000, 4000, 5000]

  /**
   * The badge list for a PTS value, in catalogue order. Thresholds rise
   * along the list, so the achieved badges form a prefix of it.
   */
  function Badges(pts: int): (bs: seq<Badge>)
    ensures |bs| == |Thresholds| == 6
    ensures forall i :: 0 <= i < |bs| ==>
      bs[i].id == Ids[i] && bs[i].title == Titles[i] && bs[i].threshold == Thresholds[i]
    ensures forall i :: 0 <= i < |bs| ==> (bs[i].achieved <==> pts >= bs[i].threshold)
    ensures forall i, j :: 0 <= i < j < |bs| ==> bs[i].threshold < bs[j].threshold
    ensures ClosedDownwards(bs)
  {
    seq(|Thresholds|, i requires 0 <= i < |Thresholds| => Badge(Ids[i], Titles[i], Thresholds[i], pts >= Thresholds[i]))
  }

  /** `achievements.filter(ach => ach.achieved)`. */
  function Unlocked(bs: seq<Badge>): (us: seq<Badge>)
    ensures |us| <= |bs|
    ensures forall i :: 0 <= i < |us| ==> us[i].achieved
  {
    if bs == [] then []
    else Unlocked(bs[..|bs| - 1]) + (if bs[|bs| - 1].achieved then [bs[|bs| - 1]] else [])
  }

  /** Achieved badges never follow a locked one. */
  predicate ClosedDownwards(bs: seq<Badge>) {
    forall i, j :: 0 <= i < j < |bs| && bs[j].achieved ==> bs[i].achieved
  }

  lemma DropLastClosed(bs: seq<Badge>)
    requires bs != [] && ClosedDownwards(bs)
    ensures ClosedDownwards(bs[..|bs| - 1])
  {
    var init := bs[..|bs| - 1];
    forall i, j | 0 <= i < j < |init| && init[j].achieved
      ensures init[i].achieved
    {
      assert init[i] == bs[i] && init[j] == bs[j];
    }
  }

  /** When achievement is closed downwards, the unlocked badges are a prefix. */
  lemma UnlockedIsPrefix(bs: seq<Badge>) returns (k: nat)
    requires ClosedDownwards(bs)
    ensures k <= |bs| && Unlocked(bs) == bs[..k]
    ensures forall i :: 0 <= i < |bs| ==> (bs[i].achieved <==> i < k)
  {
    k := CutPoint(bs);
    UnlockedUpTo(bs, k);
  }

  /** A list whose achieved badges come first has a cut point: achieved before it, locked after. */
  lemma {:induction false} CutPoint(bs: seq<Badge>) returns (k: nat)
    requires ClosedDownwards(bs)
    ensures k <= |bs|
    ensures forall i :: 0 <= i < |bs| ==> (bs[i].achieved <==> i < k)
  {
    if bs == [] {
      k := 0;
    } else {
      var init := bs[..|bs| - 1];
      DropLastClosed(bs);
      var k' := CutPoint(init);
      if bs[|bs| - 1].achieved {
        assert forall i :: 0 <= i < |init| ==> init[i] == bs[i];
        k := |bs|;
      } else {
        k := k';
      }
    }
  }

  /** The filter keeps exactly the badges before the cut point. */
  lemma {:induction false} UnlockedUpTo(bs: seq<Badge>, k: nat)
    requires k <= |bs|
    requires forall i :: 0 <= i < |bs| ==> (bs[i].achieved <==> i < k)
    ensures Unlocked(bs) == bs[..k]
  {
    if bs != [] {
      var init, last := bs[..|bs| - 1], bs[|bs| - 1];
      if last.achieved {
        UnlockedUpTo(init, |init|);
        assert init[..|init|] == init;
        assert init + [last] == bs;
      } else {
        UnlockedUpTo(init, k);
        assert init[..k] == bs[..k];
      }
    }
  }

  /** How many badges are unlocked at a PTS value. */
  function UnlockedCount(pts: int): (n: nat)
    ensures n <= 6
  {
    |Unlocked(Badges(pts))|
  }

  /**
   * The unlocked list is the first `UnlockedCount(pts)` badges: none below
   * 1000 PTS, all six from 5000 PTS.
   */
  lemma UnlockedBadges(pts: int)
    ensures Unlocked(Badges(pts)) == Badges(pts)[..UnlockedCount(pts)]
    ensures forall i :: 0 <= i < 6 ==> (Badges(pts)[i].achieved <==> i < UnlockedCount(pts))
    ensures UnlockedCount(pts) == 0 <==> pts < 1000
    ensures UnlockedCount(pts) == 6 <==> pts >= 5000
  {
    var bs := Badges(pts);
    var k := UnlockedIsPrefix(bs);
    assert bs[0].achieved <==> pts >= 1000;
    assert bs[5].achieved <==> pts >= 5000;
  }

  /** More PTS never locks a badge. */
  lemma UnlockedMonotone(p: int, q: int)
    requires p <= q
    ensures UnlockedCount(p) <= UnlockedCount(q)
    ensures forall i :: 0 <= i < 6 && Badges(p)[i].achieved ==> Badges(q)[i].achieved
  {
    UnlockedBadges(p);
    UnlockedBadges(q);
    var k := UnlockedCount(p);
    if k > 0 {
      assert Badges(q)[k - 1].achieved;
    }
  }
}
