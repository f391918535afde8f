/**
 * The knowledge-tracing service object and its routes (dkt/api.py): the skill-id registry
 * and the interaction log that `add_interaction` extends, the per-user history, the
 * no-predictor fallbacks, the guards in front of training, and the field checks of the
 * routes.
 *
 * The two JSON files on disk are fields: `skillMapping` (a dictionary in insertion order)
 * and `interactions` (`None` while `interactions.json` does not exist). Whether a trained
 * model could be loaded at start-up is a constructor parameter; what the predictor computes
 * is not modelled, only the history it would be handed.
 */
module KtService {
  import opened Common
  import opened KtData
  import Sorting

  /** One key/value pair of `skill_mapping`. */
  datatype SkillEntry = SkillEntry(skill: string, id: int)

  /** The skills of the mapping written when no `skill_mapping.json` exists. */
  const DefaultSkills: seq<string> := [
    "Array", "Hash Table", "String", "Dynamic Programming", "Tree", "Graph", "Linked List",
    "Stack", "Queue", "Heap", "Sorting", "Binary Search", "Two Pointers", "Sliding Window",
    "Backtracking", "Greedy", "Math", "Bit Manipulation", "Recursion", "Divide and Conquer"]

  /** Records needed before training starts. */
  const MinTrainingRecords: nat := 10
  /** User sequences needed before training starts. */
  const MinTrainingSequences: nat := 2
  /** Problems returned by `recommend_problems` without a predictor. */
  const FallbackSize: nat := 5
  /** Mastery reported for every skill without a predictor. */
  const UniformMasteryValue: real := 0.5
  /** `target_difficulty` of the recommend route when the payload has none. */
  const RouteTargetDifficulty: real := 0.6
  /** Sequence length of the training dataset. */
  const TrainingSeqLen: nat := 100

  /** The default mapping: the twenty skills above with ids 1 to 20. */
  function DefaultMapping(): (m: seq<SkillEntry>)
    ensures |m| == 20 && Dense(m) && MappingValid(m)
    ensures forall k :: 0 <= k < |m| ==> m[k].skill == DefaultSkills[k]
  {
    var m := seq(20, k requires 0 <= k < 20 => SkillEntry(DefaultSkills[k], k + 1));
    assert forall i, j :: 0 <= i < j < 20 ==> DefaultSkills[i] != DefaultSkills[j];
    m
  }

  /** Keys are distinct (it is a dictionary) and so are ids. */
  ghost predicate MappingValid(m: seq<SkillEntry>) {
    forall i, j :: 0 <= i < j < |m| ==> m[i].skill != m[j].skill && m[i].id != m[j].id
  }

  /** The k-th entry has id k + 1, as in the default mapping. */
  ghost predicate Dense(m: seq<SkillEntry>) {
    forall k :: 0 <= k < |m| ==> m[k].id == k + 1
  }

  /** `skill_mapping.get(skill)`. */
  function Lookup(m: seq<SkillEntry>, skill: string): Option<int> {
    if m == [] then None
    else if m[0].skill == skill then Some(m[0].id)
    else Lookup(m[1..], skill)
  }

  /** A lookup succeeds exactly for the keys of the mapping, with the id stored under the key. */
  lemma {:induction false} LookupMeans(m: seq<SkillEntry>, skill: string)
    ensures Lookup(m, skill).Some? <==> skill in SkillNames(m)
    ensures Lookup(m, skill).Some? ==> exists k :: 0 <= k < |m| && m[k] == SkillEntry(skill, Lookup(m, skill).value)
  {
    if m != [] {
      LookupMeans(m[1..], skill);
      if Lookup(m[1..], skill).Some? && m[0].skill != skill {
        var k :| 0 <= k < |m[1..]| && m[1..][k] == SkillEntry(skill, Lookup(m, skill).value);
        assert m[k + 1] == m[1..][k];
      }
      if skill in SkillNames(m) && m[0].skill != skill {
        var k :| 0 <= k < |m| && m[k].skill == skill;
        assert m[1..][k - 1].skill == skill;
      }
    }
  }

  /** With distinct keys, looking up the key of entry `k` finds that entry's id. */
  lemma {:induction false} LookupFirst(m: seq<SkillEntry>, k: nat)
    requires k < |m|
    requires forall i, j :: 0 <= i < j < |m| ==> m[i].skill != m[j].skill
    ensures Lookup(m, m[k].skill) == Some(m[k].id)
  {
    if k > 0 {
      assert m[0].skill != m[k].skill;
      assert m[1..][k - 1] == m[k];
      LookupFirst(m[1..], k - 1);
    }
  }

  /** `max(skill_mapping.values()) if skill_mapping else 0`. */
  function MaxId(m: seq<SkillEntry>): (r: int)
    ensures m == [] ==> r == 0
    ensures forall k :: 0 <= k < |m| ==> m[k].id <= r
  {
    if m == [] then 0
    else if |m| == 1 then m[0].id
    else
      var r := MaxId(m[1..]);
      assert forall k :: 1 <= k < |m| ==> m[k] == m[1..][k - 1];
      if m[0].id >= r then m[0].id else r
  }

  /** The largest id is the id of some entry. */
  lemma {:induction false} MaxIdAttained(m: seq<SkillEntry>) returns (k: nat)
    requires m != []
    ensures k < |m| && m[k].id == MaxId(m)
  {
    if |m| == 1 {
      k := 0;
    } else {
      var k' := MaxIdAttained(m[1..]);
      k := if m[0].id >= MaxId(m[1..]) then 0 else k' + 1;
    }
  }

  /** In a dense registry the largest id is the number of skills (0 when empty). */
  lemma DenseMaxId(m: seq<SkillEntry>)
    requires Dense(m)
    ensures MaxId(m) == |m|
  {
    if m != [] {
      var k := MaxIdAttained(m);
      assert m[|m| - 1].id == |m|;
    }
  }

  /** A dense registry with distinct keys: ids run 1..|m|, the largest is |m|, and entry k's key finds id k + 1. */
  lemma DenseRegistry(m: seq<SkillEntry>)
    ensures Dense(m) ==> MaxId(m) == |m|
    ensures Dense(m) && MappingValid(m) ==> forall k :: 0 <= k < |m| ==> Lookup(m, m[k].skill) == Some(k + 1)
  {
    if Dense(m) {
      DenseMaxId(m);
      if MappingValid(m) {
        forall k | 0 <= k < |m|
          ensures Lookup(m, m[k].skill) == Some(k + 1)
        {
          LookupFirst(m, k);
        }
      }
    }
  }

  /** An unseen skill is appended with the next id; a known one leaves the mapping as it is. */
  function Register(m: seq<SkillEntry>, skill: string): seq<SkillEntry> {
    if Lookup(m, skill).Some? then m else m + [SkillEntry(skill, MaxId(m) + 1)]
  }

  /** The registry after registering `skills` one after another. */
  function RegisterAll(m: seq<SkillEntry>, skills: seq<string>): seq<SkillEntry> {
    if skills == [] then m
    else Register(RegisterAll(m, skills[..|skills| - 1]), skills[|skills| - 1])
  }

  /**
   * Registering a skill: the skill is known afterwards; a new one gets the largest id plus
   * one (1 in an empty mapping), above every id in use; known skills keep their ids and
   * entries are only appended.
   */
  lemma RegisterLookup(m: seq<SkillEntry>, skill: string)
    ensures Lookup(Register(m, skill), skill).Some?
    ensures Lookup(m, skill).None? ==>
              Lookup(Register(m, skill), skill) == Some(MaxId(m) + 1)
              && (m == [] ==> Lookup(Register(m, skill), skill) == Some(1))
              && forall k :: 0 <= k < |m| ==> m[k].id < MaxId(m) + 1
    ensures forall x :: Lookup(m, x).Some? ==> Lookup(Register(m, skill), x) == Lookup(m, x)
    ensures |m| <= |Register(m, skill)| <= |m| + 1 && Register(m, skill)[..|m|] == m
  {
    if Lookup(m, skill).None? {
      var e := SkillEntry(skill, MaxId(m) + 1);
      var r := m + [e];
      assert Register(m, skill) == r;
      LookupAppend(m, e, skill);
      forall x | Lookup(m, x).Some?
        ensures Lookup(r, x) == Lookup(m, x)
      {
        LookupAppend(m, e, x);
      }
      assert r[..|m|] == m;
    }
  }

  /** Registering keeps keys and ids distinct, and keeps a dense registry dense. */
  lemma RegisterValid(m: seq<SkillEntry>, skill: string)
    ensures MappingValid(m) ==> MappingValid(Register(m, skill))
    ensures Dense(m) ==> Dense(Register(m, skill))
  {
    if Lookup(m, skill).None? {
      LookupMeans(m, skill);
      var e := SkillEntry(skill, MaxId(m) + 1);
      var r := m + [e];
      assert Register(m, skill) == r;
      if MappingValid(m) {
        forall i, j | 0 <= i < j < |r|
          ensures r[i].skill != r[j].skill && r[i].id != r[j].id
        {
          if j == |m| {
            assert r[i] == m[i] && m[i].skill in SkillNames(m);
          }
        }
      }
      if Dense(m) && m != [] {
        var k := MaxIdAttained(m);
        assert m[|m| - 1].id == |m|;
        assert MaxId(m) == |m|;
      }
    }
  }

  lemma {:induction false} LookupAppend(m: seq<SkillEntry>, e: SkillEntry, x: string)
    ensures Lookup(m + [e], x)
         == if Lookup(m, x).Some? then Lookup(m, x) else if e.skill == x then Some(e.id) else None
  {
    if m != [] {
      assert (m + [e])[1..] == m[1..] + [e];
      LookupAppend(m[1..], e, x);
    }
  }

  /** After `RegisterAll`, every listed skill is known and every previously known skill keeps its id. */
  lemma {:induction false} RegisterAllMeans(m: seq<SkillEntry>, skills: seq<string>)
    ensures forall k :: 0 <= k < |skills| ==> Lookup(RegisterAll(m, skills), skills[k]).Some?
    ensures forall x :: Lookup(m, x).Some? ==> Lookup(RegisterAll(m, skills), x) == Lookup(m, x)
    ensures |m| <= |RegisterAll(m, skills)| && RegisterAll(m, skills)[..|m|] == m
    ensures MappingValid(m) ==> MappingValid(RegisterAll(m, skills))
    ensures Dense(m) ==> Dense(RegisterAll(m, skills))
  {
    if skills != [] {
      var init := skills[..|skills| - 1];
      var mid := RegisterAll(m, init);
      RegisterAllMeans(m, init);
      RegisterLookup(mid, skills[|skills| - 1]);
      RegisterValid(mid, skills[|skills| - 1]);
      forall k | 0 <= k < |skills|
        ensures Lookup(RegisterAll(m, skills), skills[k]).Some?
      {
        if k < |skills| - 1 {
          assert skills[k] == init[k];
        }
      }
      assert RegisterAll(m, skills)[..|mid|] == mid;
      assert mid[..|m|] == m;
    }
  }

  /** The records `add_interaction` appends: one per listed skill, in order, sharing the rest. */
  function Expand(m: seq<SkillEntry>, userId: string, problemId: string, skills: seq<string>,
                  correct: bool, timestamp: int): seq<Record> {
    seq(|skills|, k requires 0 <= k < |skills| =>
      Record(userId, problemId, skills[k], Lookup(m, skills[k]), correct, timestamp))
  }

  /** A registry that only grows and keeps known ids gives the same records. */
  lemma ExpandStable(m: seq<SkillEntry>, m': seq<SkillEntry>, userId: string, problemId: string,
                     skills: seq<string>, correct: bool, timestamp: int)
    requires forall k :: 0 <= k < |skills| ==> Lookup(m, skills[k]).Some?
    requires forall x :: Lookup(m, x).Some? ==> Lookup(m', x) == Lookup(m, x)
    ensures Expand(m', userId, problemId, skills, correct, timestamp)
         == Expand(m, userId, problemId, skills, correct, timestamp)
  {
  }

  /** Registering one more skill extends the registry of the prefix. */
  lemma RegisterAllStep(m0: seq<SkillEntry>, skills: seq<string>, i: nat)
    requires i < |skills|
    ensures Register(RegisterAll(m0, skills[..i]), skills[i]) == RegisterAll(m0, skills[..i + 1])
  {
    assert skills[..i + 1][..i] == skills[..i];
  }

  /** Appending the record of one more skill, looked up after registering it. */
  lemma ExpandStep(m: seq<SkillEntry>, skills: seq<string>, skill: string, userId: string,
                   problemId: string, correct: bool, timestamp: int)
    requires forall k :: 0 <= k < |skills| ==> Lookup(m, skills[k]).Some?
    ensures var m' := Register(m, skill);
      Expand(m, userId, problemId, skills, correct, timestamp)
        + [Record(userId, problemId, skill, Lookup(m', skill), correct, timestamp)]
      == Expand(m', userId, problemId, skills + [skill], correct, timestamp)
  {
    var m' := Register(m, skill);
    RegisterLookup(m, skill);
    ExpandStable(m, m', userId, problemId, skills, correct, timestamp);
    assert (skills + [skill])[..|skills|] == skills;
  }

  /** The `add_interaction` loop after the skills `done`: the registry and the log so far. */
  ghost predicate Appended(m0: seq<SkillEntry>, base: seq<Record>, done: seq<string>, m: seq<SkillEntry>,
                           recs: seq<Record>, userId: string, problemId: string, correct: bool, timestamp: int)
  {
    m == RegisterAll(m0, done) && recs == base + Expand(m, userId, problemId, done, correct, timestamp)
  }

  /** One turn of the `add_interaction` loop: register the next skill, append its record. */
  lemma AddStep(m0: seq<SkillEntry>, base: seq<Record>, skills: seq<string>, i: nat, m: seq<SkillEntry>,
                recs: seq<Record>, userId: string, problemId: string, correct: bool, timestamp: int)
    requires i < |skills| && Appended(m0, base, skills[..i], m, recs, userId, problemId, correct, timestamp)
    ensures var m' := Register(m, skills[i]);
      Appended(m0, base, skills[..i + 1], m',
               recs + [Record(userId, problemId, skills[i], Lookup(m', skills[i]), correct, timestamp)],
               userId, problemId, correct, timestamp)
  {
    RegisterAllStep(m0, skills, i);
    RegisterAllMeans(m0, skills[..i]);
    ExpandStep(m, skills[..i], skills[i], userId, problemId, correct, timestamp);
    assert skills[..i + 1] == skills[..i] + [skills[i]];
  }

  /**
   * The loop of `add_interaction` over the registry `m0` and the log `base`: each skill in
   * turn is registered if new, then its record is appended.
   */
  method AppendRecords(m0: seq<SkillEntry>, base: seq<Record>, userId: string, problemId: string,
                       skills: seq<string>, correct: bool, timestamp: int)
      returns (m: seq<SkillEntry>, recs: seq<Record>)
    ensures m == RegisterAll(m0, skills)
    ensures recs == base + Expand(m, userId, problemId, skills, correct, timestamp)
  {
    m, recs := m0, base;
    var i := 0;
    while i < |skills|
      invariant 0 <= i <= |skills|
      invariant Appended(m0, base, skills[..i], m, recs, userId, problemId, correct, timestamp)
    {
      var skill := skills[i];
      AddStep(m0, base, skills, i, m, recs, userId, problemId, correct, timestamp);
      if Lookup(m, skill).None? {
        m := m + [SkillEntry(skill, MaxId(m) + 1)];
      }
      recs := recs + [Record(userId, problemId, skill, Lookup(m, skill), correct, timestamp)];
      i := i + 1;
    }
    assert skills[..|skills|] == skills;
  }

  /** `get_user_history` before its projection: the user's records, stably sorted by timestamp. */
  function UserRecordsByTime(file: Option<seq<Record>>, userId: string): seq<Record> {
    if file.None? then [] else Sorting.SortBy(RecordsOf(file.value, userId), TimeKey)
  }

  /** `[i for i in interactions if i['user_id'] == user_id]`. */
  function RecordsOf(rs: seq<Record>, userId: string): (r: seq<Record>)
    ensures forall x :: x in r <==> x in rs && x.userId == userId
  {
    var mine := (x: Record) => x.userId == userId;
    FilterMembers(rs, mine);
    Filter(rs, mine)
  }

  /** `key=lambda x: x['timestamp']`. */
  function TimeKey(r: Record): real {
    r.timestamp as real
  }

  datatype HistoryItem = HistoryItem(skill: string, correct: bool)

  /** `get_user_history`: `(skill, correct)` of the user's records, oldest first. */
  function UserHistory(file: Option<seq<Record>>, userId: string): seq<HistoryItem> {
    var rs := UserRecordsByTime(file, userId);
    seq(|rs|, k requires 0 <= k < |rs| => HistoryItem(rs[k].skill, rs[k].correct))
  }

  /** The user's records come oldest first, and records of equal timestamp keep file order. */
  lemma UserRecordsOrdered(file: Option<seq<Record>>, userId: string)
    ensures var rs := UserRecordsByTime(file, userId);
      forall i, j :: 0 <= i < j < |rs| ==> rs[i].timestamp <= rs[j].timestamp
    ensures file.Some? ==> forall v: real ::
              Sorting.KeyClass(UserRecordsByTime(file, userId), TimeKey, v)
              == Sorting.KeyClass(RecordsOf(file.value, userId), TimeKey, v)
  {
    if file.Some? {
      var u := RecordsOf(file.value, userId);
      var rs := Sorting.SortBy(u, TimeKey);
      Sorting.SortBySorted(u, TimeKey);
      forall i, j | 0 <= i < j < |rs|
        ensures rs[i].timestamp <= rs[j].timestamp
      {
        assert TimeKey(rs[i]) <= TimeKey(rs[j]);
      }
      forall v: real
        ensures Sorting.KeyClass(rs, TimeKey, v) == Sorting.KeyClass(u, TimeKey, v)
      {
        Sorting.SortByStable(u, TimeKey, v);
      }
    }
  }

  /**
   * The history holds exactly the user's records (as a multiset), oldest first, records of
   * equal timestamp in file order, each reduced to its skill and outcome; no file, no history.
   */
  lemma UserHistoryMeans(file: Option<seq<Record>>, userId: string)
    ensures file.None? ==> UserHistory(file, userId) == []
    ensures var rs := UserRecordsByTime(file, userId);
      && |UserHistory(file, userId)| == |rs|
      && (forall k :: 0 <= k < |rs| ==>
            UserHistory(file, userId)[k] == HistoryItem(rs[k].skill, rs[k].correct) && rs[k].userId == userId)
      && (forall i, j :: 0 <= i < j < |rs| ==> rs[i].timestamp <= rs[j].timestamp)
      && (file.Some? ==> multiset(rs) == multiset(RecordsOf(file.value, userId)))
    ensures file.Some? ==> forall v: real ::
              Sorting.KeyClass(UserRecordsByTime(file, userId), TimeKey, v)
              == Sorting.KeyClass(RecordsOf(file.value, userId), TimeKey, v)
  {
    UserRecordsOrdered(file, userId);
    if file.Some? {
      var u := RecordsOf(file.value, userId);
      var rs := Sorting.SortBy(u, TimeKey);
      forall k | 0 <= k < |rs|
        ensures rs[k].userId == userId
      {
        assert rs[k] in multiset(u);
      }
    }
  }

  /** The keys of the mapping. */
  function SkillNames(m: seq<SkillEntry>): set<string> {
    set k | 0 <= k < |m| :: m[k].skill
  }

  /** `{skill: 0.5 for skill in skill_mapping}`. */
  function UniformMastery(m: seq<SkillEntry>): (r: map<string, real>)
    ensures r.Keys == SkillNames(m)
    ensures forall s :: s in r ==> r[s] == UniformMasteryValue
  {
    map s | s in SkillNames(m) :: UniformMasteryValue
  }

  /** The answer of `get_skill_mastery`: the fallback, or the history the predictor is given. */
  datatype MasteryAnswer = Uniform(mastery: map<string, real>) | AskPredictor(history: seq<HistoryItem>)

  /** The answer of `recommend_problems`: the fallback, or the predictor's inputs. */
  datatype RecommendAnswer<T> =
    | FirstProblems(problems: seq<T>)
    | AskRecommender(history: seq<HistoryItem>, candidates: seq<T>, targetDifficulty: real)

  /** Why `train_model` stopped before training, or the sequences it trains on. */
  datatype TrainOutcome =
    | NoData
    | TooFewRecords(found: nat)
    | TooFewSequences(found: nat)
    | Proceeds(sequences: seq<seq<Step>>)

  /** The JSON body of `POST /dkt/interaction`; an absent key is `None`. */
  datatype InteractionPayload = InteractionPayload(
    userId: Option<string>, problemId: Option<string>, skills: Option<seq<string>>,
    correct: Option<bool>, timestamp: Option<int>)

  /** The JSON body of `POST /dkt/recommend`. */
  datatype RecommendPayload<T> = RecommendPayload(
    userId: Option<string>, problems: Option<seq<T>>, targetDifficulty: Option<real>)

  datatype Reply<T> = Reply(status: nat, body: T)

  const MissingFields: string := "Missing required fields"
  const MissingRecommendFields: string := "Missing user_id or problems list"

  /** `GET /dkt/status`. */
  datatype Status = Status(modelLoaded: bool, numSkills: nat, skills: seq<string>)

  class KnowledgeTracer {
    /** Contents of `skill_mapping.json`, in key order. */
    var skillMapping: seq<SkillEntry>
    /** Contents of `interactions.json`, or `None` while the file does not exist. */
    var interactions: Option<seq<Record>>
    /** Whether a trained model (and so a predictor) is loaded. */
    var predictorLoaded: bool

    ghost predicate Valid()
      reads this
    {
      MappingValid(skillMapping)
    }

    /**
     * `__init__`: the stored mapping if there is one, the default mapping otherwise; the
     * predictor exists only if a saved model loads.
     */
    constructor(storedMapping: Option<seq<SkillEntry>>, storedInteractions: Option<seq<Record>>, modelLoads: bool)
      requires storedMapping.Some? ==> MappingValid(storedMapping.value)
      ensures Valid()
      ensures skillMapping == storedMapping.GetOr(DefaultMapping())
      ensures interactions == storedInteractions && predictorLoaded == modelLoads
    {
      skillMapping := if storedMapping.Some? then storedMapping.value else DefaultMapping();
      interactions := storedInteractions;
      predictorLoaded := modelLoads;
    }

    /**
     * `add_interaction`: every skill is registered, and one record per listed skill is
     * appended to the log (created if absent), in order, each carrying its skill's id;
     * earlier records are untouched. The timestamp defaults to `now`.
     */
    method AddInteraction(userId: string, problemId: string, skills: seq<string>, correct: bool,
                          timestamp: Option<int>, now: int)
      requires Valid()
      modifies this`skillMapping, this`interactions
      ensures Valid()
      ensures skillMapping == RegisterAll(old(skillMapping), skills)
      ensures interactions
           == Some(old(interactions).GetOr([])
                   + Expand(skillMapping, userId, problemId, skills, correct, timestamp.GetOr(now)))
    {
      var ts := if timestamp.None? then now else timestamp.value;
      var recs := if interactions.Some? then interactions.value else [];
      var m;
      m, recs := AppendRecords(skillMapping, recs, userId, problemId, skills, correct, ts);
      RegisterAllMeans(skillMapping, skills);
      skillMapping := m;
      interactions := Some(recs);
    }

    /** `get_user_history` on the current log. */
    function History(userId: string): seq<HistoryItem>
      reads this
    {
      UserHistory(interactions, userId)
    }

    /** `get_skill_mastery`: without a predictor, 0.5 for every known skill. */
    method GetSkillMastery(userId: string) returns (r: MasteryAnswer)
      ensures !predictorLoaded ==> r == Uniform(UniformMastery(skillMapping))
      ensures predictorLoaded ==> r == AskPredictor(History(userId))
    {
      if !predictorLoaded {
        return Uniform(UniformMastery(skillMapping));
      }
      r := AskPredictor(History(userId));
    }

    /** `recommend_problems`: without a predictor, the first five problems unchanged. */
    method RecommendProblems<T>(userId: string, availableProblems: seq<T>, targetDifficulty: real)
      returns (r: RecommendAnswer<T>)
      ensures !predictorLoaded ==> r == FirstProblems(Take(availableProblems, FallbackSize))
      ensures !predictorLoaded ==> |r.problems| == Min(FallbackSize, |availableProblems|)
                                   && r.problems == availableProblems[..|r.problems|]
      ensures predictorLoaded ==> r == AskRecommender(History(userId), availableProblems, targetDifficulty)
    {
      if !predictorLoaded {
        return FirstProblems(Take(availableProblems, FallbackSize));
      }
      r := AskRecommender(History(userId), availableProblems, targetDifficulty);
    }

    /**
     * The guards of `train_model`: no log, fewer than ten records, or fewer than two users
     * each refuse training; otherwise training proceeds on the prepared sequences.
     */
    method TrainModel() returns (r: TrainOutcome)
      ensures interactions.None? <==> r.NoData?
      ensures r.TooFewRecords? <==> interactions.Some? && |interactions.value| < MinTrainingRecords
      ensures r.TooFewRecords? ==> r.found == |interactions.value|
      ensures r.TooFewSequences? <==>
                interactions.Some? && |interactions.value| >= MinTrainingRecords
                && |Users(interactions.value)| < MinTrainingSequences
      ensures r.TooFewSequences? ==> r.found == |Users(interactions.value)|
      ensures r.Proceeds? ==> r.sequences == TrainingSequences(interactions.value)
    {
      if interactions.None? {
        return NoData;
      }
      var records := interactions.value;
      if |records| < MinTrainingRecords {
        return TooFewRecords(|records|);
      }
      var sequences := PrepareTrainingData(records);
      if |sequences| < MinTrainingSequences {
        return TooFewSequences(|sequences|);
      }
      r := Proceeds(sequences);
    }

    /** `POST /dkt/interaction`: a missing key is a 400 and stores nothing. */
    method AddInteractionRoute(payload: InteractionPayload, now: int) returns (reply: Reply<Option<string>>)
      requires Valid()
      modifies this`skillMapping, this`interactions
      ensures Valid()
      ensures reply.status == 400 || reply.status == 200
      ensures reply.status == 400 <==>
                payload.userId.None? || payload.problemId.None? || payload.skills.None? || payload.correct.None?
      ensures reply.status == 400 ==>
                reply.body == Some(MissingFields)
                && skillMapping == old(skillMapping) && interactions == old(interactions)
      ensures reply.status == 200 ==>
                reply.body == None
                && skillMapping == RegisterAll(old(skillMapping), payload.skills.value)
                && interactions == Some(old(interactions).GetOr([])
                     + Expand(skillMapping, payload.userId.value, payload.problemId.value,
                              payload.skills.value, payload.correct.value, payload.timestamp.GetOr(now)))
    {
      if payload.userId.None? || payload.problemId.None? || payload.skills.None? || payload.correct.None? {
        return Reply(400, Some(MissingFields));
      }
      AddInteraction(payload.userId.value, payload.problemId.value, payload.skills.value,
                     payload.correct.value, payload.timestamp, now);
      reply := Reply(200, None);
    }

    /** `POST /dkt/recommend`: both keys are required and the target defaults to 0.6. */
    method RecommendRoute<T>(payload: RecommendPayload<T>) returns (reply: Reply<Result<RecommendAnswer<T>, string>>)
      ensures payload.userId.None? || payload.problems.None? <==> reply.status == 400
      ensures reply.status == 400 ==> reply.body == Err(MissingRecommendFields)
      ensures reply.status != 400 ==> reply.status == 200 && reply.body.Ok?
      ensures reply.status == 200 && !predictorLoaded ==>
                reply.body.value == FirstProblems(Take(payload.problems.value, FallbackSize))
      ensures reply.status == 200 && predictorLoaded ==>
                reply.body.value == AskRecommender(History(payload.userId.value), payload.problems.value,
                                                   payload.targetDifficulty.GetOr(RouteTargetDifficulty))
    {
      if payload.userId.None? || payload.problems.None? {
        return Reply(400, Err(MissingRecommendFields));
      }
      var target := if payload.targetDifficulty.Some? then payload.targetDifficulty.value else RouteTargetDifficulty;
      var r := RecommendProblems(payload.userId.value, payload.problems.value, target);
      reply := Reply(200, Ok(r));
    }

    /**
     * `GET /dkt/status`: `num_skills` is the size of the mapping, `skills` its keys in order.
     * For a dense registry the reported `num_skills` is also the highest id in use, and
     * every listed skill is known with an id in 1..num_skills.
     */
    function CurrentStatus(): (s: Status)
      reads this
      ensures s.numSkills == |skillMapping| == |s.skills|
      ensures forall k :: 0 <= k < |s.skills| ==> s.skills[k] == skillMapping[k].skill
      ensures s.modelLoaded == predictorLoaded
      ensures Dense(skillMapping) ==> s.numSkills == MaxId(skillMapping)
      ensures Dense(skillMapping) && MappingValid(skillMapping) ==>
                forall k :: 0 <= k < |s.skills| ==> Lookup(skillMapping, s.skills[k]) == Some(k + 1)
    {
      var m := skillMapping;
      DenseRegistry(m);
      Status(predictorLoaded, |m|, seq(|m|, k requires 0 <= k < |m| => m[k].skill))
    }
  }

  /**
   * Training passes at least two distinct users: reaching `Proceeds` means the log has two
   * records of different users.
   */
  lemma ProceedsNeedsTwoUsers(records: seq<Record>)
    requires |Users(records)| >= MinTrainingSequences
    ensures exists i, j :: 0 <= i < |records| && 0 <= j < |records| && records[i].userId != records[j].userId
  {
    UsersExact(records);
    var u := Users(records);
    assert u[0] != u[1];
    assert u[0] in u && u[1] in u;
    var a :| a in records && a.userId == u[0];
    var b :| b in records && b.userId == u[1];
    var i :| 0 <= i < |records| && records[i] == a;
    var j :| 0 <= j < |records| && records[j] == b;
  }

  /**
   * With a dense registry and `num_skills = len(skill_mapping)`, the skill with the highest
   * id is always filtered out by the dataset (its position stays padding), while every other
   * registered id can be used.
   */
  lemma HighestSkillNeverTrained(m: seq<SkillEntry>, s: seq<Step>, maxSeqLen: nat, p: nat)
    requires Dense(m) && m != [] && p < |s| && p < maxSeqLen
    ensures s[p].skillId == Some(MaxId(m)) ==> SkillAt(s, |m|, maxSeqLen, p) == -1
    ensures s[p].skillId.Some? && 1 <= s[p].skillId.value < MaxId(m) ==>
              SkillAt(s, |m|, maxSeqLen, p) == s[p].skillId.value
  {
    DenseMaxId(m);
  }
}
