/** tutor/domain/fsm.py: the pure transition function, its runs, and what a run computes in closed
    form. A run is the list of verdicts applied so far, newest last. */
module Fsm {
  import opened Wrappers
  import opened Steps
  import opened Verdicts

  const MAX_HINT_LEVEL := 3

  datatype SessionStatus = Active | Completed

  datatype SessionState = SessionState(
    step: Step,
    attempts: nat,
    hintLevel: nat,
    status: SessionStatus,
    scores: map<Step, int>)

  datatype Transition = Transition(state: SessionState, advanced: bool, completed: bool)

  function Min(a: int, b: int): int { if a <= b then a else b }
  function Max(a: int, b: int): int { if a >= b then a else b }

  function ApplyVerdict(state: SessionState, verdict: GateVerdict): Transition {
    if state.status == Completed then
      Transition(state, false, true)
    else match verdict.verdict
      case Pass =>
        var scores := state.scores[state.step := verdict.score];
        (match NextStep(state.step)
         case None =>
           Transition(state.(status := Completed, attempts := 0, hintLevel := 0, scores := scores), true, true)
         case Some(next) =>
           Transition(state.(step := next, attempts := 0, hintLevel := 0, scores := scores), true, false))
      case Retry =>
        var attempts := state.attempts + 1;
        var hintLevel := Min(MAX_HINT_LEVEL, Max(Max(state.hintLevel, verdict.nextHintLevel), attempts));
        Transition(state.(attempts := attempts, hintLevel := hintLevel), false, false)
      case _ =>
        Transition(state, false, false)
  }

  function Initial(track: Track): SessionState {
    SessionState(FirstStep(track), 0, 0, Active, map[])
  }

  /** The state after a run, with the scores kept throughout. */
  function Fold(track: Track, run: seq<GateVerdict>): SessionState {
    if run == [] then Initial(track)
    else ApplyVerdict(Fold(track, run[..|run| - 1]), run[|run| - 1]).state
  }

  /** Appending one verdict to a run applies one transition. */
  lemma FoldSnoc(track: Track, run: seq<GateVerdict>, v: GateVerdict)
    ensures Fold(track, run + [v]) == ApplyVerdict(Fold(track, run), v).state
  {
    assert (run + [v])[..|run|] == run;
  }

  // ---------------------------------------------------------------- reference definitions

  function Passes(run: seq<GateVerdict>): nat {
    if run == [] then 0
    else Passes(run[..|run| - 1]) + if run[|run| - 1].verdict == Pass then 1 else 0
  }

  /** The hint levels asked for by the retries that follow the last pass. */
  function RetriesSincePass(run: seq<GateVerdict>): seq<int> {
    if run == [] then []
    else
      var last := run[|run| - 1];
      if last.verdict == Pass then []
      else if last.verdict == Retry then RetriesSincePass(run[..|run| - 1]) + [last.nextHintLevel]
      else RetriesSincePass(run[..|run| - 1])
  }

  function Largest(levels: seq<int>): int {
    if levels == [] then 0 else Max(Largest(levels[..|levels| - 1]), levels[|levels| - 1])
  }

  // ---------------------------------------------------------------- closed forms

  /** Where a state with this many passes stands on its ladder. */
  predicate StandsAt(track: Track, state: SessionState, passes: nat) {
    var ladder := StepsFor(track);
    && (state.status == Active <==> passes < |ladder|)
    && state.step == ladder[if passes < |ladder| then passes else |ladder| - 1]
  }

  lemma VerdictMovesOn(track: Track, state: SessionState, passes: nat, v: GateVerdict)
    requires StandsAt(track, state, passes)
    ensures StandsAt(track, ApplyVerdict(state, v).state, passes + if v.verdict == Pass then 1 else 0)
  {
    if passes < |StepsFor(track)| { LadderPosition(track, passes); }
  }

  lemma {:induction false} RunStandsAt(track: Track, run: seq<GateVerdict>)
    ensures StandsAt(track, Fold(track, run), Passes(run))
  {
    if run != [] {
      RunStandsAt(track, run[..|run| - 1]);
      VerdictMovesOn(track, Fold(track, run[..|run| - 1]), Passes(run[..|run| - 1]), run[|run| - 1]);
    }
  }

  /** The whole state machine in closed form: passes alone decide how far a run has come. */
  lemma {:induction false} ProgressClosedForm(track: Track, run: seq<GateVerdict>)
    ensures Fold(track, run).status == Active <==> Passes(run) < |StepsFor(track)|
    ensures Passes(run) < |StepsFor(track)| ==> Fold(track, run).step == StepsFor(track)[Passes(run)]
    ensures Passes(run) >= |StepsFor(track)| ==> Fold(track, run).step == StepsFor(track)[|StepsFor(track)| - 1]
  {
    RunStandsAt(track, run);
  }

  /** A run never leaves its ladder. */
  lemma {:induction false} StaysOnLadder(track: Track, run: seq<GateVerdict>)
    ensures TrackOf(Fold(track, run).step) == track
    ensures StepIndex(Fold(track, run).step) == Min(Passes(run), |StepsFor(track)| - 1)
  {
    ProgressClosedForm(track, run);
    LadderPosition(track, Min(Passes(run), |StepsFor(track)| - 1));
  }

  /** Attempts and the hint ladder at the current step depend only on the retries since the last
      pass: how many there were, and the largest hint level any of them asked for. */
  lemma {:induction false} HintLadderClosedForm(track: Track, run: seq<GateVerdict>)
    requires Fold(track, run).status == Active
    ensures Fold(track, run).attempts == |RetriesSincePass(run)|
    ensures Fold(track, run).hintLevel
         == Min(3, Max(|RetriesSincePass(run)|, Largest(RetriesSincePass(run))))
  {
    if run != [] {
      var before, last := run[..|run| - 1], run[|run| - 1];
      if Fold(track, before).status == Active {
        HintLadderClosedForm(track, before);
        RetryRaisesHint(Fold(track, before), RetriesSincePass(before), last);
      }
    }
  }

  predicate Raised(state: SessionState, levels: seq<int>) {
    state.attempts == |levels| && state.hintLevel == Min(MAX_HINT_LEVEL, Max(|levels|, Largest(levels)))
  }

  lemma RetryRaisesHint(state: SessionState, levels: seq<int>, v: GateVerdict)
    requires state.status == Active && Raised(state, levels)
    ensures v.verdict == Pass ==> Raised(ApplyVerdict(state, v).state, [])
    ensures v.verdict == Retry ==> Raised(ApplyVerdict(state, v).state, levels + [v.nextHintLevel])
    ensures v.verdict in {OffTopic, Question} ==> ApplyVerdict(state, v).state == state
  {
    LargestSnoc(levels, v.nextHintLevel);
  }

  lemma LargestSnoc(levels: seq<int>, level: int)
    ensures Largest(levels + [level]) == Max(Largest(levels), level)
  {
    assert (levels + [level])[..|levels|] == levels;
  }

  /** A completed run has its counters back at zero. */
  lemma {:induction false} CompletedCountersAreZero(track: Track, run: seq<GateVerdict>)
    requires Fold(track, run).status == Completed
    ensures Fold(track, run).attempts == 0 && Fold(track, run).hintLevel == 0
  {
    if Fold(track, run[..|run| - 1]).status == Completed {
      CompletedCountersAreZero(track, run[..|run| - 1]);
    }
  }

  /** Over every run the hint level stays on its ladder, is maxed by the third retry at a step, and
      one more verdict at the same step never lowers it; questions and off-topic turns leave the
      whole state alone. */
  lemma {:induction false} HintLadderBounds(track: Track, run: seq<GateVerdict>, v: GateVerdict)
    ensures 0 <= Fold(track, run).hintLevel <= 3
    ensures Fold(track, run).attempts >= 3 ==> Fold(track, run).hintLevel == 3
    ensures v.verdict != Pass ==> Fold(track, run + [v]).hintLevel >= Fold(track, run).hintLevel
    ensures v.verdict in {OffTopic, Question} ==> Fold(track, run + [v]) == Fold(track, run)
  {
    FoldSnoc(track, run, v);
    if Fold(track, run).status == Active {
      HintLadderClosedForm(track, run);
      LargestIsBounded(run);
    } else {
      CompletedCountersAreZero(track, run);
    }
  }

  lemma {:induction false} LargestIsBounded(run: seq<GateVerdict>)
    ensures 0 <= Largest(RetriesSincePass(run)) <= MAX_HINT_LEVEL
  {
    if run != [] {
      var before, last := run[..|run| - 1], run[|run| - 1];
      LargestIsBounded(before);
      if last.verdict == Retry {
        var levels := RetriesSincePass(before);
        assert (levels + [last.nextHintLevel])[..|levels|] == levels;
      }
    }
  }

  /** Only a pass advances, only a pass at the terminal step completes, and neither skips a step. */
  lemma OnlyAPassAdvances(state: SessionState, v: GateVerdict)
    ensures var t := ApplyVerdict(state, v);
            t.advanced <==> state.status == Active && v.verdict == Pass
    ensures ApplyVerdict(state, v).advanced && !ApplyVerdict(state, v).completed
         ==> NextStep(state.step) == Some(ApplyVerdict(state, v).state.step) && ApplyVerdict(state, v).state.status == Active
    ensures ApplyVerdict(state, v).completed <==> ApplyVerdict(state, v).state.status == Completed
    ensures !ApplyVerdict(state, v).advanced ==> ApplyVerdict(state, v).state.(attempts := 0, hintLevel := 0) == state.(attempts := 0, hintLevel := 0)
  {
  }

  // ---------------------------------------------------------------- scores

  /** What the database row keeps of a state: everything but the scores. */
  function Reloaded(state: SessionState): SessionState {
    state.(scores := map[])
  }

  /** Dropping the scores at every reload changes nothing else the machine computes. */
  lemma ReloadCommutes(state: SessionState, v: GateVerdict)
    ensures Reloaded(ApplyVerdict(Reloaded(state), v).state) == Reloaded(ApplyVerdict(state, v).state)
    ensures ApplyVerdict(Reloaded(state), v).advanced == ApplyVerdict(state, v).advanced
    ensures ApplyVerdict(Reloaded(state), v).completed == ApplyVerdict(state, v).completed
  {
  }

  // ---------------------------------------------------------------- transitions from two states

  function HintAfterRetry(state: SessionState, v: GateVerdict): nat {
    Min(MAX_HINT_LEVEL, Max(Max(state.hintLevel, v.nextHintLevel), state.attempts + 1))
  }

  /** A verdict applied to a state that was seen earlier does to the state as it is what it should: they
      stand at the same step, and unless the verdict resets the counters these agree as far as it keeps
      them. */
  predicate NothingLost(state: SessionState, seen: SessionState, v: GateVerdict) {
    && seen.step == state.step
    && match v.verdict
       case Pass => true
       case Retry => seen.attempts == state.attempts && HintAfterRetry(seen, v) == HintAfterRetry(state, v)
       case _ => seen.attempts == state.attempts && seen.hintLevel == state.hintLevel
  }

  /** The rows that two active states of one ladder lead to are equal if and only if nothing is lost. */
  lemma SameNextRowIff(state: SessionState, seen: SessionState, v: GateVerdict)
    requires state.status == Active && seen.status == Active && TrackOf(state.step) == TrackOf(seen.step)
    ensures Reloaded(ApplyVerdict(seen, v).state) == Reloaded(ApplyVerdict(state, v).state) <==> NothingLost(state, seen, v)
  {
    StepsWithOneSuccessor(state.step, seen.step);
    if v.verdict == Pass {
      PassLeads(state, v);
      PassLeads(seen, v);
    }
  }

  lemma PassLeads(state: SessionState, v: GateVerdict)
    requires state.status == Active && v.verdict == Pass
    ensures var t := ApplyVerdict(state, v).state; var next := NextStep(state.step);
            && t.attempts == 0 && t.hintLevel == 0
            && (if next.Some? then t.status == Active && t.step == next.value else t.status == Completed && t.step == state.step)
  {
  }
}
