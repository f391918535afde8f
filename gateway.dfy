/**
 * The Node gateway to the knowledge-tracing oracle (server/services/dktService.js).
 * The gateway keeps an availability flag driven by health probes, stores every interaction
 * before forwarding it, asks the oracle for recommendations with a local fallback, and
 * computes analytics over the newest interactions of a user.
 *
 * The network is not modelled: a probe outcome, an oracle reply (`None` for a failed or
 * timed-out request) and the current time are parameters. The Interaction collection is
 * the `store` field, and `pushes` records the forwarding requests the gateway sent.
 */
module Gateway {
  import opened Common
  import opened Schemas
  import Sorting

  /** Size of the local fallback shortlist (`availableProblems.slice(0, 5)`). */
  const FallbackSize: nat := 5
  /** Number of newest interactions analytics look at (`.limit(100)`). */
  const AnalyticsWindow: nat := 100
  /** Number of interactions reported as recent activity (`.slice(0, 10)`). */
  const RecentActivitySize: nat := 10
  /** The default `targetDifficulty` of `recommendProblems`. */
  const DefaultTargetDifficulty: real := 0.7

  /** The body POSTed to the oracle's `/dkt/interaction` route. */
  datatype Push = Push(userId: string, problemId: string, skills: Option<seq<string>>, correct: bool, timestamp: int)

  /** The serialisable view of a problem sent to the oracle. */
  datatype Candidate = Candidate(id: string, title: string, difficulty: string, skills: seq<string>)

  /** The body POSTed to the oracle's `/dkt/recommend` route. */
  datatype RecommendRequest = RecommendRequest(userId: string, problems: seq<Candidate>, targetDifficulty: real)

  /** Either the local shortlist of problem documents or the oracle's list as it came back. */
  datatype Recommendations = Local(problems: seq<Problem>) | Ranked(items: seq<Candidate>)

  datatype Analytics = Analytics(
    totalProblems: nat,
    correctProblems: nat,
    accuracy: nat,
    skillMastery: map<string, real>,
    recentActivity: seq<Interaction>)

  /** `fallbackRecommendation`: the first five problems, unchanged and in order. */
  function Fallback(availableProblems: seq<Problem>): (r: seq<Problem>)
    ensures |r| == Min(FallbackSize, |availableProblems|)
    ensures forall i :: 0 <= i < |r| ==> r[i] == availableProblems[i]
  {
    Take(availableProblems, FallbackSize)
  }

  function ToCandidate(p: Problem): Candidate {
    Candidate(p.id, p.title, p.difficulty, p.tags)
  }

  /** `availableProblems.map(p => ({ _id, title, difficulty, skills: p.tags }))`. */
  function Candidates(ps: seq<Problem>): (r: seq<Candidate>)
    ensures |r| == |ps|
    ensures forall i :: 0 <= i < |r| ==>
      r[i].id == ps[i].id && r[i].title == ps[i].title
      && r[i].difficulty == ps[i].difficulty && r[i].skills == ps[i].tags
  {
    seq(|ps|, i requires 0 <= i < |ps| => ToCandidate(ps[i]))
  }

  /** The forwarding payload: the caller's fields and the stored record's timestamp. */
  function PushFor(data: InteractionData, stored: Interaction): Push
    requires data.userId.Some? && data.problemId.Some? && data.correct.Some?
  {
    Push(data.userId.value, data.problemId.value, data.skills, data.correct.value, stored.timestamp)
  }

  /** The forwarded payload carries the stored record's user, problem, skills, outcome and time. */
  lemma PushMatchesStored(data: InteractionData, now: int)
    requires CreateInteraction(data, now).Ok?
    ensures var x := CreateInteraction(data, now).value;
      var p := PushFor(data, x);
      p.userId == x.userId && p.problemId == x.problemId && p.correct == x.correct
      && p.timestamp == x.timestamp && (data.skills.Some? ==> p.skills == Some(x.skills))
      && p.timestamp == data.timestamp.GetOr(now)
  {
  }

  function NewestFirstKey(i: Interaction): real {
    -(i.timestamp as real)
  }

  function IsCorrect(i: Interaction): bool {
    i.correct
  }

  /** `Interaction.find({ userId })`. */
  function OfUser(store: seq<Interaction>, userId: string): (r: seq<Interaction>)
    ensures forall x :: x in r <==> x in store && x.userId == userId
  {
    var mine := (i: Interaction) => i.userId == userId;
    FilterMembers(store, mine);
    Filter(store, mine)
  }

  /** `.sort({ timestamp: -1 })`, ties kept in insertion order. */
  function NewestFirst(store: seq<Interaction>, userId: string): seq<Interaction> {
    Sorting.SortBy(OfUser(store, userId), NewestFirstKey)
  }

  /** `.limit(100)`. */
  function RecentWindow(store: seq<Interaction>, userId: string): seq<Interaction> {
    Take(NewestFirst(store, userId), AnalyticsWindow)
  }

  /** The window holds the user's newest 100 interactions, or all of them, and only theirs. */
  lemma WindowMembers(store: seq<Interaction>, userId: string)
    ensures var w := RecentWindow(store, userId);
      && |w| == Min(AnalyticsWindow, |OfUser(store, userId)|)
      && (forall x :: x in w ==> x in store && x.userId == userId)
  {
    var w := RecentWindow(store, userId);
    forall x | x in w
      ensures x in store && x.userId == userId
    {
      assert x in multiset(NewestFirst(store, userId));
    }
  }

  /** The window is ordered newest first. */
  lemma WindowOrdered(store: seq<Interaction>, userId: string)
    ensures var w := RecentWindow(store, userId);
      forall i, j :: 0 <= i < j < |w| ==> w[i].timestamp >= w[j].timestamp
  {
    var s := NewestFirst(store, userId);
    var w := RecentWindow(store, userId);
    Sorting.SortBySorted(OfUser(store, userId), NewestFirstKey);
    forall i, j | 0 <= i < j < |w|
      ensures w[i].timestamp >= w[j].timestamp
    {
      assert NewestFirstKey(s[i]) <= NewestFirstKey(s[j]);
    }
  }

  /** An interaction of the user newer than a kept one is kept too. */
  lemma WindowKeepsNewer(store: seq<Interaction>, userId: string, x: Interaction, y: Interaction)
    requires x in RecentWindow(store, userId) && y in OfUser(store, userId)
    requires y.timestamp > x.timestamp
    ensures y in RecentWindow(store, userId)
  {
    var s := NewestFirst(store, userId);
    var w := RecentWindow(store, userId);
    Sorting.SortBySorted(OfUser(store, userId), NewestFirstKey);
    var i :| 0 <= i < |w| && w[i] == x;
    assert y in multiset(s);
    var j :| 0 <= j < |s| && s[j] == y;
    assert s[i] == x;
    Sorting.SmallerKeyFirst(s, NewestFirstKey, i, j);
    assert w[j] == y;
  }

  /**
   * The analytics window holds at most 100 of the user's interactions, each no more often
   * than it is stored, newest first, and nothing newer than a kept interaction is left out.
   */
  lemma RecentWindowIsNewest(store: seq<Interaction>, userId: string)
    ensures var w := RecentWindow(store, userId);
      && |w| == Min(AnalyticsWindow, |OfUser(store, userId)|)
      && (forall x :: x in w ==> x in store && x.userId == userId)
      && multiset(w) <= multiset(OfUser(store, userId))
      && (forall i, j :: 0 <= i < j < |w| ==> w[i].timestamp >= w[j].timestamp)
      && (forall x, y :: x in w && y in OfUser(store, userId) && y.timestamp > x.timestamp ==> y in w)
  {
    WindowMembers(store, userId);
    WindowOrdered(store, userId);
    TakeSubMultiset(NewestFirst(store, userId), AnalyticsWindow);
    var w := RecentWindow(store, userId);
    forall x, y | x in w && y in OfUser(store, userId) && y.timestamp > x.timestamp
      ensures y in w
    {
      WindowKeepsNewer(store, userId, x, y);
    }
  }

  /** The analytics arithmetic over one window of interactions. */
  function AnalyticsOf(window: seq<Interaction>, mastery: map<string, real>): (a: Analytics)
    ensures a.totalProblems == |window|
    ensures a.correctProblems == |Filter(window, IsCorrect)| <= a.totalProblems
    ensures a.totalProblems == 0 ==> a.accuracy == 0
    ensures a.totalProblems > 0 ==> a.accuracy == RoundedPercent(a.correctProblems, a.totalProblems)
    ensures a.accuracy <= 100
    ensures a.skillMastery == mastery
    ensures |a.recentActivity| == Min(RecentActivitySize, |window|)
    ensures a.recentActivity == window[..|a.recentActivity|]
  {
    var total := |window|;
    var correct := |Filter(window, IsCorrect)|;
    Analytics(total, correct, if total > 0 then RoundedPercent(correct, total) else 0,
              mastery, Take(window, RecentActivitySize))
  }

  class OracleGateway {
    /** Whether the last health probe succeeded. */
    var isAvailable: bool
    /** The Interaction collection. */
    var store: seq<Interaction>
    /** The interaction payloads sent to the oracle, oldest first. */
    var pushes: seq<Push>

    /** The gateway starts unavailable; its first probe is an ordinary `CheckAvailability` call. */
    constructor(existing: seq<Interaction>)
      ensures !isAvailable && store == existing && pushes == []
    {
      isAvailable := false;
      store := existing;
      pushes := [];
    }

    /**
     * `checkAvailability`: after a probe the flag is the probe's outcome; `transitioned`
     * is whether a state change was logged.
     */
    method CheckAvailability(probeOk: bool) returns (transitioned: bool)
      modifies this`isAvailable
      ensures isAvailable == probeOk
      ensures transitioned <==> old(isAvailable) != probeOk
    {
      transitioned := false;
      if probeOk {
        if !isAvailable {
          isAvailable := true;
          transitioned := true;
        }
      } else {
        if isAvailable {
          isAvailable := false;
          transitioned := true;
        }
      }
    }

    /**
     * `recordInteraction`: the interaction is stored first; only when the oracle is
     * available is a push attempted. A failed push (`pushOk == false`) is swallowed and
     * changes nothing in the result. A validation error stores and sends nothing.
     */
    method RecordInteraction(data: InteractionData, now: int, pushOk: bool)
      returns (r: Result<Interaction, set<InteractionPath>>)
      modifies this`store, this`pushes
      ensures r == CreateInteraction(data, now)
      ensures r.Err? ==> store == old(store) && pushes == old(pushes)
      ensures r.Ok? ==> store == old(store) + [r.value]
      ensures r.Ok? && isAvailable ==> pushes == old(pushes) + [PushFor(data, r.value)]
      ensures r.Ok? && !isAvailable ==> pushes == old(pushes)
    {
      r := CreateInteraction(data, now);
      if r.Err? {
        return;
      }
      store := store + [r.value];
      if isAvailable {
        pushes := pushes + [PushFor(data, r.value)];
        if !pushOk {
          // the error is logged; the stored interaction is still returned
        }
      }
    }

    /**
     * `recommendProblems`: unavailable, or available with a failed request, gives the
     * local fallback; a successful oracle reply is returned untruncated. `sent` is the
     * request the gateway made, if any.
     */
    method RecommendProblems(userId: string, availableProblems: seq<Problem>, targetDifficulty: real,
                             reply: Option<seq<Candidate>>)
      returns (recs: Recommendations, sent: Option<RecommendRequest>)
      ensures !isAvailable ==> sent == None && recs == Local(Fallback(availableProblems))
      ensures isAvailable ==> sent == Some(RecommendRequest(userId, Candidates(availableProblems), targetDifficulty))
      ensures isAvailable && reply.Some? ==> recs == Ranked(reply.value)
      ensures isAvailable && reply.None? ==> recs == Local(Fallback(availableProblems))
    {
      if !isAvailable {
        return Local(Fallback(availableProblems)), None;
      }
      sent := Some(RecommendRequest(userId, Candidates(availableProblems), targetDifficulty));
      if reply.Some? {
        recs := Ranked(reply.value);
      } else {
        recs := Local(Fallback(availableProblems));
      }
    }

    /**
     * `getUserAnalytics`: the arithmetic covers only the newest 100 interactions of the user;
     * mastery is asked for only when available and is empty when not asked or when the
     * request failed (`masteryReply == None`).
     */
    method GetUserAnalytics(userId: string, masteryReply: Option<map<string, real>>) returns (a: Analytics)
      ensures a == AnalyticsOf(RecentWindow(store, userId),
                               if isAvailable && masteryReply.Some? then masteryReply.value else map[])
      ensures !isAvailable || masteryReply.None? ==> a.skillMastery == map[]
      ensures a.totalProblems <= AnalyticsWindow && a.accuracy <= 100
    {
      var interactions := RecentWindow(store, userId);
      var skillMastery: map<string, real> := map[];
      if isAvailable {
        if masteryReply.Some? {
          skillMastery := masteryReply.value;
        }
      }
      a := AnalyticsOf(interactions, skillMastery);
    }
  }

  /** Three failed probes keep the gateway unavailable; a fourth, successful one flips it. */
  method ProbeScenario(problems: seq<Problem>, ranked: seq<Candidate>)
  {
    var g := new OracleGateway([]);
    var changed := g.CheckAvailability(false);
    assert !changed && !g.isAvailable;
    changed := g.CheckAvailability(false);
    changed := g.CheckAvailability(false);
    assert !g.isAvailable;
    var recs, sent := g.RecommendProblems("u", problems, DefaultTargetDifficulty, Some(ranked));
    assert recs == Local(Fallback(problems)) && sent == None;
    changed := g.CheckAvailability(true);
    assert changed && g.isAvailable;
    recs, sent := g.RecommendProblems("u", problems, DefaultTargetDifficulty, Some(ranked));
    assert recs == Ranked(ranked) && sent.Some?;
  }
}
