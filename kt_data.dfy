/**
 * Training-data preparation of the knowledge-tracing service (dkt/model.py):
 * `prepare_training_data`, which groups stored records into one sequence per user, and
 * `DKTDataset.__getitem__`, which encodes one sequence into three fixed-length arrays.
 * The network, its training and the tensor-level masking are not modelled.
 */
module KtData {
  import opened Common

  /** One stored record of the service: one skill of one logged attempt. */
  datatype Record = Record(
    userId: string,
    problemId: string,
    skill: string,
    skillId: Option<int>,
    correct: bool,
    timestamp: int)

  /** One `(skill_id, correct)` entry of a training sequence. */
  datatype Step = Step(skillId: Option<int>, correct: int)

  function StepOf(r: Record): Step {
    Step(r.skillId, if r.correct then 1 else 0)
  }

  /** The users of `rs` in order of first appearance: the key order of `user_sequences`. */
  function Users(rs: seq<Record>): seq<string> {
    if rs == [] then []
    else
      var u := Users(rs[..|rs| - 1]);
      if rs[|rs| - 1].userId in u then u else u + [rs[|rs| - 1].userId]
  }

  /** The steps of one user: their records that carry a skill id, in input order. */
  function StepsOf(rs: seq<Record>, user: string): seq<Step> {
    if rs == [] then []
    else
      var last := rs[|rs| - 1];
      StepsOf(rs[..|rs| - 1], user) + (if last.userId == user && last.skillId.Some? then [StepOf(last)] else [])
  }

  /** `list(user_sequences.values())`. */
  function TrainingSequences(rs: seq<Record>): seq<seq<Step>> {
    seq(|Users(rs)|, k requires 0 <= k < |Users(rs)| => StepsOf(rs, Users(rs)[k]))
  }

  /** Every user of the input appears exactly once, and only users of the input appear. */
  lemma {:induction false} UsersExact(rs: seq<Record>)
    ensures forall i, j :: 0 <= i < j < |Users(rs)| ==> Users(rs)[i] != Users(rs)[j]
    ensures forall u :: u in Users(rs) <==> exists r :: r in rs && r.userId == u
  {
    if rs != [] {
      var init := rs[..|rs| - 1];
      UsersExact(init);
      forall u
        ensures u in Users(rs) <==> exists r :: r in rs && r.userId == u
      {
        if u in Users(rs) && u != rs[|rs| - 1].userId {
          var r :| r in init && r.userId == u;
          assert r in rs;
        }
        if r :| r in rs && r.userId == u {
          if r != rs[|rs| - 1] {
            var k :| 0 <= k < |rs| && rs[k] == r;
            assert init[k] == r;
          }
        }
      }
    }
  }

  lemma UsersSnoc(rs: seq<Record>, r: Record)
    ensures Users(rs + [r]) == if r.userId in Users(rs) then Users(rs) else Users(rs) + [r.userId]
  {
    assert (rs + [r])[..|rs|] == rs;
  }

  lemma StepsOfSnoc(rs: seq<Record>, r: Record, user: string)
    ensures StepsOf(rs + [r], user)
         == StepsOf(rs, user) + (if r.userId == user && r.skillId.Some? then [StepOf(r)] else [])
  {
    assert (rs + [r])[..|rs|] == rs;
  }

  /** A user with no record so far has an empty sequence. */
  lemma {:induction false} StepsOfAbsent(rs: seq<Record>, user: string)
    requires user !in Users(rs)
    ensures StepsOf(rs, user) == []
  {
    if rs != [] {
      StepsOfAbsent(rs[..|rs| - 1], user);
    }
  }

  /** Whether a record gives `user` a step: it is theirs and carries a skill id. */
  function Contributes(user: string): Record -> bool {
    (r: Record) => r.userId == user && r.skillId.Some?
  }

  /** `StepOf` applied to each record. */
  function Steps(rs: seq<Record>): (r: seq<Step>)
    ensures |r| == |rs| && forall k :: 0 <= k < |rs| ==> r[k] == StepOf(rs[k])
  {
    seq(|rs|, k requires 0 <= k < |rs| => StepOf(rs[k]))
  }

  lemma StepsAppend(a: seq<Record>, b: seq<Record>)
    ensures Steps(a + b) == Steps(a) + Steps(b)
  {
    assert forall k :: 0 <= k < |b| ==> (a + b)[|a| + k] == b[k];
  }

  /** A user's sequence holds exactly their records that carry a skill id, in input order. */
  lemma {:induction false} StepsOfMeaning(rs: seq<Record>, user: string)
    ensures StepsOf(rs, user) == Steps(Filter(rs, Contributes(user)))
  {
    if rs != [] {
      var p := Contributes(user);
      var init, last := rs[..|rs| - 1], rs[|rs| - 1];
      StepsOfMeaning(init, user);
      assert rs == init + [last];
      FilterAppend(init, [last], p);
      var fi, fl := Filter(init, p), Filter([last], p);
      var tail := if p(last) then [StepOf(last)] else [];
      assert fl == if p(last) then [last] else [];
      assert Steps(fl) == tail;
      StepsAppend(fi, fl);
      assert Steps(Filter(rs, p)) == Steps(fi) + tail;
      assert StepsOf(rs, user) == StepsOf(init, user) + tail;
    }
  }

  /** Every step carries a skill id, and `correct` is 0 or 1. */
  lemma {:induction false} StepsOfWellFormed(rs: seq<Record>, user: string)
    ensures forall k :: 0 <= k < |StepsOf(rs, user)| ==>
              StepsOf(rs, user)[k].skillId.Some? && 0 <= StepsOf(rs, user)[k].correct <= 1
  {
    if rs != [] {
      StepsOfWellFormed(rs[..|rs| - 1], user);
    }
  }

  /**
   * `prepare_training_data`: one sequence per distinct user, in order of the user's first
   * record; a user whose records all lack a skill id still gets an (empty) sequence.
   */
  method PrepareTrainingData(records: seq<Record>) returns (sequences: seq<seq<Step>>)
    ensures sequences == TrainingSequences(records)
    ensures |sequences| == |Users(records)|
  {
    var users: seq<string> := [];
    var seqs: seq<seq<Step>> := [];
    var i := 0;
    while i < |records|
      invariant 0 <= i <= |records|
      invariant Grouped(records[..i], users, seqs)
    {
      var r := records[i];
      assert records[..i + 1] == records[..i] + [r];
      var step: seq<Step> := if r.skillId.Some? then [StepOf(r)] else [];
      var k := IndexOf(users, r.userId);
      if k.None? {
        GroupedNewUser(records[..i], r, users, seqs);
        users := users + [r.userId];
        seqs := seqs + [step];
      } else {
        GroupedKnownUser(records[..i], r, users, seqs, k.value);
        seqs := seqs[k.value := seqs[k.value] + step];
      }
      i := i + 1;
    }
    assert records[..|records|] == records;
    sequences := seqs;
  }

  /** The loop state after a prefix `rs`: its users and each one's sequence so far. */
  ghost predicate Grouped(rs: seq<Record>, users: seq<string>, seqs: seq<seq<Step>>) {
    users == Users(rs) && |seqs| == |users|
    && forall j :: 0 <= j < |users| ==> seqs[j] == StepsOf(rs, users[j])
  }

  lemma GroupedNewUser(rs: seq<Record>, r: Record, users: seq<string>, seqs: seq<seq<Step>>)
    requires Grouped(rs, users, seqs) && r.userId !in users
    ensures Grouped(rs + [r], users + [r.userId],
                    seqs + [if r.skillId.Some? then [StepOf(r)] else []])
  {
    UsersSnoc(rs, r);
    StepsOfAbsent(rs, r.userId);
    StepsOfSnoc(rs, r, r.userId);
    forall j | 0 <= j < |users|
      ensures seqs[j] == StepsOf(rs + [r], users[j])
    {
      StepsOfSnoc(rs, r, users[j]);
    }
  }

  lemma GroupedKnownUser(rs: seq<Record>, r: Record, users: seq<string>, seqs: seq<seq<Step>>, k: nat)
    requires Grouped(rs, users, seqs) && k < |users| && users[k] == r.userId
    ensures Grouped(rs + [r], users,
                    seqs[k := seqs[k] + if r.skillId.Some? then [StepOf(r)] else []])
  {
    UsersSnoc(rs, r);
    UsersExact(rs);
    forall j | 0 <= j < |users|
      ensures StepsOf(rs + [r], users[j]) == StepsOf(rs, users[j]) + (if j == k && r.skillId.Some? then [StepOf(r)] else [])
    {
      StepsOfSnoc(rs, r, users[j]);
    }
  }

  /** Position of `x` in `s` (a dict lookup on the user id). */
  function IndexOf(s: seq<string>, x: string): (r: Option<nat>)
    ensures r.Some? ==> r.value < |s| && s[r.value] == x
    ensures r.None? ==> x !in s
  {
    if s == [] then None
    else if s[0] == x then Some(0)
    else
      var r := IndexOf(s[1..], x);
      if r.Some? then Some(r.value + 1) else None
  }

  // ---------------------------------------------------------------- DKTDataset.__getitem__

  /** Position `p` holds a usable step: inside both bounds, with a skill id below `numSkills`. */
  predicate ValidAt(s: seq<Step>, numSkills: int, maxSeqLen: nat, p: nat) {
    p < maxSeqLen && p < |s| && s[p].skillId.Some? && s[p].skillId.value < numSkills
  }

  /** The embedding index of a step: `skill_id + (num_skills if correct else 0)`. */
  function EncodeInput(skillId: int, correct: int, numSkills: int): int {
    skillId + (if correct != 0 then numSkills else 0)
  }

  function InputAt(s: seq<Step>, numSkills: int, maxSeqLen: nat, p: nat): int {
    if ValidAt(s, numSkills, maxSeqLen, p) then EncodeInput(s[p].skillId.value, s[p].correct, numSkills) else 0
  }

  function TargetAt(s: seq<Step>, numSkills: int, maxSeqLen: nat, p: nat): real {
    if ValidAt(s, numSkills, maxSeqLen, p) then s[p].correct as real else 0.0
  }

  function SkillAt(s: seq<Step>, numSkills: int, maxSeqLen: nat, p: nat): int {
    if ValidAt(s, numSkills, maxSeqLen, p) then s[p].skillId.value else -1
  }

  /**
   * `__getitem__`: three arrays of exactly `maxSeqLen` entries; entries past `maxSeqLen`
   * are ignored and an unusable entry leaves its position as padding (0, 0.0, -1).
   */
  method GetItem(s: seq<Step>, numSkills: int, maxSeqLen: nat)
    returns (inputs: array<int>, targets: array<real>, skills: array<int>)
    ensures fresh(inputs) && fresh(targets) && fresh(skills)
    ensures inputs.Length == maxSeqLen && targets.Length == maxSeqLen && skills.Length == maxSeqLen
    ensures forall p :: 0 <= p < maxSeqLen ==>
              inputs[p] == InputAt(s, numSkills, maxSeqLen, p)
              && targets[p] == TargetAt(s, numSkills, maxSeqLen, p)
              && skills[p] == SkillAt(s, numSkills, maxSeqLen, p)
  {
    inputs := new int[maxSeqLen](_ => 0);
    targets := new real[maxSeqLen](_ => 0.0);
    skills := new int[maxSeqLen](_ => -1);
    var i := 0;
    while i < |s|
      invariant 0 <= i <= |s|
      invariant forall p :: 0 <= p < maxSeqLen && p < i ==>
                  inputs[p] == InputAt(s, numSkills, maxSeqLen, p)
                  && targets[p] == TargetAt(s, numSkills, maxSeqLen, p)
                  && skills[p] == SkillAt(s, numSkills, maxSeqLen, p)
      invariant forall p :: i <= p < maxSeqLen ==> inputs[p] == 0 && targets[p] == 0.0 && skills[p] == -1
    {
      if i >= maxSeqLen {
        break;
      }
      var step := s[i];
      if step.skillId.None? || step.skillId.value >= numSkills {
        i := i + 1;
        continue;
      }
      inputs[i] := step.skillId.value + (if step.correct != 0 then numSkills else 0);
      targets[i] := step.correct as real;
      skills[i] := step.skillId.value;
      i := i + 1;
    }
  }

  /**
   * A usable step with a non-negative skill id and a 0/1 outcome is encoded below
   * `2 * numSkills`, the embedding size, and both its skill and its outcome can be read back.
   */
  lemma EncodeInputInverse(skillId: int, correct: int, numSkills: int)
    requires 0 <= skillId < numSkills && 0 <= correct <= 1
    ensures 0 <= EncodeInput(skillId, correct, numSkills) < 2 * numSkills
    ensures EncodeInput(skillId, correct, numSkills) % numSkills == skillId
    ensures EncodeInput(skillId, correct, numSkills) / numSkills == correct
  {
    var x := EncodeInput(skillId, correct, numSkills);
    assert x == correct * numSkills + skillId;
    DivModUnique(x, numSkills, correct, skillId);
  }

  lemma DivModUnique(x: int, n: int, q: int, m: int)
    requires n > 0 && 0 <= m < n && x == q * n + m
    ensures x / n == q && x % n == m
  {
    var q', m' := x / n, x % n;
    assert x == q' * n + m';
    if q' < q {
      assert (q - q') * n >= n by {
        MulAtLeast(q - q', n);
      }
    } else if q' > q {
      assert (q' - q) * n >= n by {
        MulAtLeast(q' - q, n);
      }
    }
  }

  lemma MulAtLeast(a: int, n: int)
    requires a >= 1 && n > 0
    ensures a * n >= n
  {
  }

  /**
   * The training mask `skills != -1` marks exactly the usable positions, when skill ids
   * are non-negative (as the skill registry hands them out).
   */
  lemma MaskMarksUsable(s: seq<Step>, numSkills: int, maxSeqLen: nat, p: nat)
    requires forall k :: 0 <= k < |s| && s[k].skillId.Some? ==> s[k].skillId.value >= 0
    ensures SkillAt(s, numSkills, maxSeqLen, p) != -1 <==> ValidAt(s, numSkills, maxSeqLen, p)
    ensures ValidAt(s, numSkills, maxSeqLen, p) && 0 <= s[p].correct <= 1 ==>
              0 <= InputAt(s, numSkills, maxSeqLen, p) < 2 * numSkills
              && InputAt(s, numSkills, maxSeqLen, p) % numSkills == SkillAt(s, numSkills, maxSeqLen, p)
              && TargetAt(s, numSkills, maxSeqLen, p) == (InputAt(s, numSkills, maxSeqLen, p) / numSkills) as real
  {
    if ValidAt(s, numSkills, maxSeqLen, p) && 0 <= s[p].correct <= 1 {
      EncodeInputInverse(s[p].skillId.value, s[p].correct, numSkills);
    }
  }
}
