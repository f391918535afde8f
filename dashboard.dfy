/**
 * The strong and weak skill areas of the dashboard (`getSkillAreas` in
 * src/components/Dashboard.tsx): the mastery entries within a score band, best (or worst)
 * first, at most three, with the score shown as a rounded percentage.
 *
 * The analytics object is a parameter: `None` when it has not arrived or has no
 * `skillMastery`, otherwise its entries in `Object.entries` order.
 */
module Dashboard {
  import opened Common
  import Sorting

  /** One `[topic, score]` pair of `Object.entries(skillMastery)`. */
  datatype MasteryEntry = MasteryEntry(topic: string, score: real)

  /** One displayed area: `{ topic, score: Math.round(score * 100) }`. */
  datatype SkillArea = SkillArea(topic: string, percent: int)

  /** `.slice(0, 3)`. */
  const MaxAreas: nat := 3

  /** The band and order of the strong areas: [0.8, 1.0], highest first. */
  const StrongMin: real := 0.8
  const StrongMax: real := 1.0
  /** The band and order of the weak areas: [0.0, 0.6], lowest first. */
  const WeakMin: real := 0.0
  const WeakMax: real := 0.6

  /** `Math.round`: the nearest integer, halves rounded up. */
  function Round(x: real): (r: int)
    ensures r as real - 0.5 <= x < r as real + 0.5
  {
    (x + 0.5).Floor
  }

  /** `Math.round(score * 100)`. */
  function Percent(score: real): (r: int)
    ensures 0.0 <= score <= 1.0 ==> 0 <= r <= 100
    ensures r as real - 0.5 <= score * 100.0 < r as real + 0.5
  {
    Round(score * 100.0)
  }

  /** The comparator as a sort key: `a - b` ascending, `b - a` descending. */
  function OrderKey(descending: bool): MasteryEntry -> real {
    (e: MasteryEntry) => if descending then -e.score else e.score
  }

  /** `.filter(([, score]) => score >= min && score <= max)`. */
  function InBand(entries: seq<MasteryEntry>, min: real, max: real): (r: seq<MasteryEntry>)
    ensures forall e :: e in r <==> e in entries && min <= e.score <= max
  {
    var inBand := (e: MasteryEntry) => min <= e.score <= max;
    FilterMembers(entries, inBand);
    Filter(entries, inBand)
  }

  /** Filter, stable sort, first three. */
  function Shortlist(entries: seq<MasteryEntry>, min: real, max: real, descending: bool): seq<MasteryEntry> {
    Take(Sorting.SortBy(InBand(entries, min, max), OrderKey(descending)), MaxAreas)
  }

  /** `getSkillAreas(min, max, descending)`. */
  function SkillAreas(skillMastery: Option<seq<MasteryEntry>>, min: real, max: real, descending: bool): seq<SkillArea> {
    var shortlist := Shortlist(skillMastery.GetOr([]), min, max, descending);
    seq(|shortlist|, k requires 0 <= k < |shortlist| => SkillArea(shortlist[k].topic, Percent(shortlist[k].score)))
  }

  /** `a` comes no later than `b` in the chosen order. */
  predicate RanksBefore(a: real, b: real, descending: bool) {
    if descending then a >= b else a <= b
  }

  /** The shortlist holds the first three of the band, or all of it, and only band entries. */
  lemma ShortlistMembers(entries: seq<MasteryEntry>, min: real, max: real, descending: bool)
    ensures var s := Shortlist(entries, min, max, descending);
      && |s| == Min(MaxAreas, |InBand(entries, min, max)|)
      && (forall e :: e in s ==> e in entries && min <= e.score <= max)
  {
    var band := InBand(entries, min, max);
    var s := Shortlist(entries, min, max, descending);
    forall e | e in s
      ensures e in entries && min <= e.score <= max
    {
      assert e in multiset(Sorting.SortBy(band, OrderKey(descending)));
    }
  }

  /** The shortlist is ordered by score in the chosen direction. */
  lemma ShortlistOrdered(entries: seq<MasteryEntry>, min: real, max: real, descending: bool)
    ensures var s := Shortlist(entries, min, max, descending);
      forall i, j :: 0 <= i < j < |s| ==> RanksBefore(s[i].score, s[j].score, descending)
  {
    var key := OrderKey(descending);
    var sorted := Sorting.SortBy(InBand(entries, min, max), key);
    var s := Take(sorted, MaxAreas);
    Sorting.SortBySorted(InBand(entries, min, max), key);
    forall i, j | 0 <= i < j < |s|
      ensures RanksBefore(s[i].score, s[j].score, descending)
    {
      assert key(sorted[i]) <= key(sorted[j]);
    }
  }

  /** An in-band entry left out of the shortlist ranks after every kept one. */
  lemma ShortlistTop(entries: seq<MasteryEntry>, min: real, max: real, descending: bool, e: MasteryEntry, x: MasteryEntry)
    requires e in Shortlist(entries, min, max, descending)
    requires x in InBand(entries, min, max) && x !in Shortlist(entries, min, max, descending)
    ensures RanksBefore(e.score, x.score, descending)
  {
    var key := OrderKey(descending);
    var band := InBand(entries, min, max);
    var sorted := Sorting.SortBy(band, key);
    var s := Take(sorted, MaxAreas);
    Sorting.SortBySorted(band, key);
    var i :| 0 <= i < |s| && s[i] == e;
    assert x in multiset(sorted);
    var j :| 0 <= j < |sorted| && sorted[j] == x;
    assert forall k :: 0 <= k < |s| ==> sorted[k] == s[k];
    assert key(sorted[i]) <= key(sorted[j]);
  }

  /**
   * The shortlist holds at most three entries, all from the input and within the band,
   * each no more often than the band holds it, ordered by score in the chosen direction; an in-band entry left out ranks after every
   * kept one, and fewer than three kept means nothing in the band was left out.
   */
  lemma ShortlistMeans(entries: seq<MasteryEntry>, min: real, max: real, descending: bool)
    ensures var s := Shortlist(entries, min, max, descending);
      && |s| == Min(MaxAreas, |InBand(entries, min, max)|)
      && (forall e :: e in s ==> e in entries && min <= e.score <= max)
      && multiset(s) <= multiset(InBand(entries, min, max))
      && (forall i, j :: 0 <= i < j < |s| ==> RanksBefore(s[i].score, s[j].score, descending))
      && (forall e, x :: e in s && x in InBand(entries, min, max) && !(x in s) ==>
            RanksBefore(e.score, x.score, descending))
  {
    ShortlistMembers(entries, min, max, descending);
    ShortlistOrdered(entries, min, max, descending);
    TakeSubMultiset(Sorting.SortBy(InBand(entries, min, max), OrderKey(descending)), MaxAreas);
    var s := Shortlist(entries, min, max, descending);
    forall e, x | e in s && x in InBand(entries, min, max) && !(x in s)
      ensures RanksBefore(e.score, x.score, descending)
    {
      ShortlistTop(entries, min, max, descending, e, x);
    }
  }

  /**
   * The areas shown: at most three, none without analytics, each the rounded percentage of
   * an in-band entry of the input, in the shortlist's order.
   */
  lemma SkillAreasMeans(skillMastery: Option<seq<MasteryEntry>>, min: real, max: real, descending: bool)
    ensures |SkillAreas(skillMastery, min, max, descending)| <= MaxAreas
    ensures skillMastery.None? ==> SkillAreas(skillMastery, min, max, descending) == []
    ensures var s := Shortlist(skillMastery.GetOr([]), min, max, descending);
      var r := SkillAreas(skillMastery, min, max, descending);
      |r| == |s| && forall k :: 0 <= k < |r| ==>
        && r[k].topic == s[k].topic && r[k].percent == Percent(s[k].score)
        && s[k] in skillMastery.GetOr([]) && min <= s[k].score <= max
    ensures min >= 0.0 && max <= 1.0 ==>
              forall a :: a in SkillAreas(skillMastery, min, max, descending) ==> 0 <= a.percent <= 100
  {
    var s := Shortlist(skillMastery.GetOr([]), min, max, descending);
    ShortlistMeans(skillMastery.GetOr([]), min, max, descending);
    forall k | 0 <= k < |s|
      ensures s[k] in skillMastery.GetOr([]) && min <= s[k].score <= max
    {
      assert s[k] in s;
    }
  }

  /** Every area shown comes from an in-band entry of the input with the same topic. */
  lemma AreaComesFrom(skillMastery: Option<seq<MasteryEntry>>, min: real, max: real, descending: bool, a: SkillArea)
      returns (p: nat)
    requires a in SkillAreas(skillMastery, min, max, descending)
    ensures p < |skillMastery.GetOr([])|
    ensures skillMastery.GetOr([])[p].topic == a.topic
    ensures min <= skillMastery.GetOr([])[p].score <= max
  {
    var s := Shortlist(skillMastery.GetOr([]), min, max, descending);
    SkillAreasMeans(skillMastery, min, max, descending);
    var k :| 0 <= k < |s| && SkillAreas(skillMastery, min, max, descending)[k] == a;
    var entries := skillMastery.GetOr([]);
    p :| 0 <= p < |entries| && entries[p] == s[k];
  }

  /** No topic is both a strong and a weak area (the topics of an object are distinct). */
  lemma StrongAndWeakDisjoint(skillMastery: Option<seq<MasteryEntry>>)
    requires skillMastery.Some? ==> forall i, j :: 0 <= i < j < |skillMastery.value| ==>
               skillMastery.value[i].topic != skillMastery.value[j].topic
    ensures forall a, b :: (a in SkillAreas(skillMastery, StrongMin, StrongMax, true)
                            && b in SkillAreas(skillMastery, WeakMin, WeakMax, false)) ==> a.topic != b.topic
  {
    forall a, b | a in SkillAreas(skillMastery, StrongMin, StrongMax, true)
               && b in SkillAreas(skillMastery, WeakMin, WeakMax, false)
      ensures a.topic != b.topic
    {
      var p := AreaComesFrom(skillMastery, StrongMin, StrongMax, true, a);
      var q := AreaComesFrom(skillMastery, WeakMin, WeakMax, false, b);
      assert p != q;
    }
  }
}
