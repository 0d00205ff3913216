/** What the session laws mean, in the terms of the tables. */
module SessionFacts {
  import opened Steps
  import opened Verdicts
  import opened Fsm
  import opened Store
  import opened Context
  import opened SessionLaws
  import opened LastingLaws
  import opened ExactLaws

  function PassRows(calls: seq<Call>): nat {
    if calls == [] then 0
    else PassRows(calls[..|calls| - 1]) + if calls[|calls| - 1].verdict == Pass then 1 else 0
  }

  lemma {:induction false} PassRowsArePasses(calls: seq<Call>, trail: seq<GateVerdict>)
    requires |calls| == |trail| && forall i :: 0 <= i < |calls| ==> calls[i].verdict == trail[i].verdict
    ensures PassRows(calls) == Passes(trail)
  {
    if calls != [] {
      PassRowsArePasses(calls[..|calls| - 1], trail[..|trail| - 1]);
    }
  }

  /** Progress accounting: the pass rows of the audit log are the steps climbed; a completed session
      has exactly one for every step of its ladder. */
  lemma ProgressIsAudited(s: Session)
    requires Exact(s)
    ensures s.row.status == Active ==> PassRows(s.calls) == s.row.stepIndex
    ensures s.row.status == Completed ==> PassRows(s.calls) == |StepsFor(s.row.track)|
    ensures TrackOf(s.row.step) == s.row.track && StepsFor(s.row.track)[s.row.stepIndex] == s.row.step
  {
    PassRowsArePasses(s.calls, s.trail);
    CurrentStepIsPassCount(s);
    LaddersPartition(s.row.step);
    if s.row.status == Completed {
      assert Replayed(s).status == StateOf(s.row).status;
      CompletedStopsAtLadder(s);
    }
  }

  /** No verdict is applied after completion, so the passes do not outrun the ladder. */
  lemma CompletedStopsAtLadder(s: Session)
    requires CallsClimb(s) && Replayed(s).status == Completed
    ensures Passes(s.trail) == |StepsFor(s.row.track)|
  {
    var n := |s.trail| - 1;
    assert CallInPlace(s, n);
    LastVerdictCompletes(s.row.track, s.trail, s.trail[..n]);
  }

  lemma LastVerdictCompletes(track: Track, trail: seq<GateVerdict>, before: seq<GateVerdict>)
    requires trail != [] && before == trail[..|trail| - 1]
    requires Fold(track, before).status == Active && Fold(track, trail).status == Completed
    ensures Passes(trail) == |StepsFor(track)|
  {
    ProgressClosedForm(track, before);
    ProgressClosedForm(track, trail);
  }

  /** The gate table against the ladder: every step passed so far has a passing row, the current step
      has none, later steps have no row at all, and the passing rows are exactly the scores that the
      state machine would hold had it never been reloaded. */
  lemma GateTableFollowsLadder(s: Session, i: nat)
    requires Exact(s) && i < |StepsFor(s.row.track)|
    ensures var step := StepsFor(s.row.track)[i];
            && (i < PassRows(s.calls) ==> step in s.gates && s.gates[step].verdict == Pass)
            && (i == PassRows(s.calls) ==> step in s.gates ==> s.gates[step].verdict != Pass)
            && (i > PassRows(s.calls) ==> step !in s.gates)
    ensures PassScores(s.gates) == Fold(s.row.track, s.trail).scores
  {
    PassRowsArePasses(s.calls, s.trail);
    LadderPosition(s.row.track, i);
  }

  /** Attempts and hint level of the stored row, in closed form over the retries since the last pass. */
  lemma StoredHintLadder(s: Session)
    requires Exact(s) && s.row.status == Active
    ensures s.row.attempts == |RetriesSincePass(s.trail)|
    ensures s.row.hintLevel == Min(MAX_HINT_LEVEL, Max(|RetriesSincePass(s.trail)|, Largest(RetriesSincePass(s.trail))))
  {
    assert StateOf(s.row) == Reloaded(Replayed(s));
    HintLadderClosedForm(s.row.track, s.trail);
  }

  /** One audit row per committed turn id. */
  lemma TurnIdsAreAuditedOnce(s: Session, i: nat, j: nat)
    requires Transcript(s) && CallsMatchAnswers(s) && i < j < |s.calls| && s.calls[i].turnId.Some?
    ensures s.calls[i].turnId != s.calls[j].turnId
  {
    var a, b := s.calls[i].answerSeq, s.calls[j].answerSeq;
    assert a < b;
    assert Answers(s, s.calls[i]) && Answers(s, s.calls[j]);
    assert !SameTurn(s.messages[a], s.messages[b]);
  }

  /** User messages and audit rows are equally many. */
  lemma AnswersAreCounted(s: Session)
    requires CallsMatchAnswers(s)
    ensures |SeqsOf(s.messages, User)| == |s.calls|
  {
    AnswerSeqsAreCounted(s, |s.calls|);
    AnswersAreTheUsers(s);
  }

  lemma AnswersAreTheUsers(s: Session)
    requires CallsMatchAnswers(s)
    ensures SeqsOf(s.messages, User) == AnswerSeqs(s, |s.calls|)
  {
    var users, answers := SeqsOf(s.messages, User), AnswerSeqs(s, |s.calls|);
    forall k | k in users ensures k in answers {
      var i :| 0 <= i < |s.calls| && s.calls[i].answerSeq == k;
    }
    forall k | k in answers ensures k in users {
      var i :| 0 <= i < |s.calls| && s.calls[i].answerSeq == k;
      assert Answers(s, s.calls[i]);
    }
  }

  function AnswerSeqs(s: Session, n: nat): set<nat>
    requires n <= |s.calls|
  {
    set i | 0 <= i < n :: s.calls[i].answerSeq
  }

  lemma {:induction false} AnswerSeqsAreCounted(s: Session, n: nat)
    requires CallsMatchAnswers(s) && n <= |s.calls|
    ensures |AnswerSeqs(s, n)| == n
  {
    if n > 0 {
      AnswerSeqsAreCounted(s, n - 1);
      var last := s.calls[n - 1].answerSeq;
      assert AnswerSeqs(s, n) == AnswerSeqs(s, n - 1) + {last};
      assert last !in AnswerSeqs(s, n - 1);
    }
  }

  /** A pass committed at a ladder position: in the gate table and in the audit log. */
  ghost predicate PassedAt(s: Session, step: Step) {
    step in s.gates && s.gates[step].verdict == Pass && PassLogged(s.calls, step)
  }

  lemma GateRowHasWitness(s: Session, step: Step)
    requires Summarises(s, step) && s.gates[step].verdict == Pass
    ensures PassedAt(s, step)
  {
    var i: nat :| IsLastAt(s.calls, step, i) && RowOfCall(s, s.gates[step], i);
    assert s.calls[i].step == step && s.calls[i].verdict == Pass;
  }

  lemma StepsBelowArePassed(s: Session, step: Step)
    requires Exact(s) && TrackOf(step) == s.row.track && StepIndex(step) < Passes(s.trail)
    ensures PassedAt(s, step)
  {
    GateRowHasWitness(s, step);
  }

  lemma CodeStepsAreLate(step: Step)
    requires TrackOf(step) == Problem
    ensures WantsSolution(step) <==> StepIndex(step) >= 4
  {
    LaddersPartition(step);
    var i := StepIndex(step);
    assert StepsFor(Problem)[i] == step;
  }

  predicate BeforeCode(step: Step) {
    step == Clarify || step == Examples || step == Approach || step == Plan
  }

  lemma EarlierStepsAreEarly(step: Step)
    ensures BeforeCode(step) <==> TrackOf(step) == Problem && StepIndex(step) < 4
    ensures WantsSolution(step) ==> TrackOf(step) == Problem
  {
    if TrackOf(step) == Problem { CodeStepsAreLate(step); }
    assert StepsFor(Problem)[0] == Clarify && StepsFor(Problem)[1] == Examples;
    assert StepsFor(Problem)[2] == Approach && StepsFor(Problem)[3] == Plan;
    assert StepsFor(Problem)[4] == Implement && StepsFor(Problem)[5] == Test;
  }

  lemma CodeStepsNeedFourPasses(s: Session)
    requires RowFoldsLog(s) && WantsSolution(s.row.step)
    ensures s.row.track == Problem && Passes(s.trail) >= 4
  {
    EarlierStepsAreEarly(s.row.step);
    CodeStepsAreLate(s.row.step);
    CurrentStepIsPassCount(s);
  }

  /** A session that has earned the worked solution, by its audit log. */
  ghost predicate Earned(s: Session) {
    s.row.track == Problem && forall step :: BeforeCode(step) ==> PassLogged(s.calls, step)
  }

  /** A session standing at a code step has earned the solution; a conceptual session never stands at one. */
  lemma CodeStepsAreEarned(s: Session)
    requires StepIsEarned(s) && WantsSolution(s.row.step)
    ensures Earned(s)
  {
    EarlierStepsAreEarly(s.row.step);
    CodeStepsAreLate(s.row.step);
    forall step | BeforeCode(step) ensures PassLogged(s.calls, step) {
      EarlierStepsAreEarly(step);
    }
  }

  lemma EarnedIsKept(a: Session, b: Session)
    requires Earned(a) && Grows(a, b)
    ensures Earned(b)
  {
    forall step | BeforeCode(step) ensures PassLogged(b.calls, step) {
      PassesStayLogged(a.calls, b.calls, step);
    }
  }

  /** A session standing at a code step has passed, in its audit log and in its gate table, each of
      clarify, examples, approach and plan; a conceptual session never stands at one. */
  lemma CodeStepsFollowFourPasses(s: Session)
    requires Exact(s) && WantsSolution(s.row.step)
    ensures s.row.track == Problem
    ensures forall step :: BeforeCode(step) ==> PassedAt(s, step)
  {
    CodeStepsNeedFourPasses(s);
    FourPassesShow(s);
  }

  lemma FourPassesShow(s: Session)
    requires Exact(s) && s.row.track == Problem && Passes(s.trail) >= 4
    ensures forall step :: BeforeCode(step) ==> PassedAt(s, step)
  {
    forall step | BeforeCode(step) ensures PassedAt(s, step) {
      EarlierStepsAreEarly(step);
      StepsBelowArePassed(s, step);
    }
  }
}
