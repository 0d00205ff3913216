/** tutor/domain/steps.py: two ordered ladders that share one Step enumeration. */
module Steps {
  import opened Wrappers

  datatype Track = Problem | Conceptual

  datatype Step =
    | Clarify | Examples | Approach | Plan | Implement | Test
    | Explain | Apply | Analyze | Defend

  function StepsFor(track: Track): seq<Step> {
    match track
    case Problem => [Clarify, Examples, Approach, Plan, Implement, Test]
    case Conceptual => [Explain, Apply, Analyze, Defend]
  }

  /** Membership in the first ladder decides the track: the reverse index built at import. */
  function TrackOf(step: Step): Track {
    if step in StepsFor(Problem) then Problem else Conceptual
  }

  function FirstStep(track: Track): Step {
    StepsFor(track)[0]
  }

  /** Python's tuple.index: the first position that holds the element. */
  function IndexOf(order: seq<Step>, step: Step): (i: nat)
    requires step in order
    ensures i < |order| && order[i] == step
    ensures forall j :: 0 <= j < i ==> order[j] != step
  {
    if order[0] == step then 0 else 1 + IndexOf(order[1..], step)
  }

  function StepIndex(step: Step): nat {
    LaddersPartition(step);
    IndexOf(StepsFor(TrackOf(step)), step)
  }

  function NextStep(step: Step): Option<Step> {
    LaddersPartition(step);
    var order := StepsFor(TrackOf(step));
    var i := IndexOf(order, step);
    if i + 1 < |order| then Some(order[i + 1]) else None
  }

  /** Every step lies on the ladder of its track, and on no other ladder. */
  lemma {:induction false} LaddersPartition(step: Step)
    ensures step in StepsFor(TrackOf(step))
    ensures forall track :: step in StepsFor(track) ==> track == TrackOf(step)
  {
    var problem, conceptual := StepsFor(Problem), StepsFor(Conceptual);
    assert problem[0] == Clarify && problem[1] == Examples && problem[2] == Approach;
    assert problem[3] == Plan && problem[4] == Implement && problem[5] == Test;
    assert conceptual[0] == Explain && conceptual[1] == Apply && conceptual[2] == Analyze && conceptual[3] == Defend;
  }

  lemma LaddersRepeatNoStep(track: Track, i: nat, j: nat)
    requires i < |StepsFor(track)| && j < |StepsFor(track)| && StepsFor(track)[i] == StepsFor(track)[j]
    ensures i == j
  {
    match track
    case Problem =>
    case Conceptual =>
  }

  /** A ladder position and its step determine each other. */
  lemma {:induction false} LadderPosition(track: Track, i: nat)
    requires i < |StepsFor(track)|
    ensures TrackOf(StepsFor(track)[i]) == track
    ensures StepIndex(StepsFor(track)[i]) == i
    ensures NextStep(StepsFor(track)[i])
         == if i + 1 < |StepsFor(track)| then Some(StepsFor(track)[i + 1]) else None
  {
    var order := StepsFor(track);
    var step := order[i];
    LaddersPartition(step);
    assert step in order;
    LaddersRepeatNoStep(track, IndexOf(order, step), i);
  }

  lemma NextIsOneOn(step: Step)
    ensures NextStep(step).Some? ==> TrackOf(NextStep(step).value) == TrackOf(step)
                                     && StepIndex(NextStep(step).value) == StepIndex(step) + 1
    ensures NextStep(step).None? <==> StepIndex(step) + 1 == |StepsFor(TrackOf(step))|
  {
    LaddersPartition(step);
    var track, i := TrackOf(step), StepIndex(step);
    LadderPosition(track, i);
    if i + 1 < |StepsFor(track)| { LadderPosition(track, i + 1); }
  }

  lemma IndexDeterminesStep(a: Step, b: Step)
    requires TrackOf(a) == TrackOf(b) && StepIndex(a) == StepIndex(b)
    ensures a == b
  {
    LaddersPartition(a);
    LaddersPartition(b);
  }

  /** No two steps of a ladder lead to the same place. */
  lemma StepsWithOneSuccessor(a: Step, b: Step)
    requires TrackOf(a) == TrackOf(b)
    ensures NextStep(a) == NextStep(b) <==> a == b
  {
    NextIsOneOn(a);
    NextIsOneOn(b);
    if NextStep(a) == NextStep(b) { IndexDeterminesStep(a, b); }
  }
}
