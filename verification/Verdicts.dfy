/** tutor/domain/verdict.py: the gate's classification. The value limits are part of the types, as
    they are part of the validated record: a GateVerdict that exists is schema-valid. */
module Verdicts {
  datatype Verdict = Pass | Retry | OffTopic | Question

  const SCORE_VALUES: seq<int> := [0, 10, 20, 30, 40, 50, 60, 70, 80, 90, 100]

  type Score = s: int | s in SCORE_VALUES witness (assert SCORE_VALUES[0] == 0; 0)

  type HintLevel = n: nat | n <= 3

  datatype GateVerdict = GateVerdict(
    verdict: Verdict,
    score: Score,
    rubricHits: seq<string>,
    missing: seq<string>,
    hint: string,
    nextHintLevel: HintLevel)

  function RetryFailsafe(hint: string): GateVerdict {
    assert SCORE_VALUES[0] == 0;
    GateVerdict(Retry, 0, [], [], hint, 0)
  }
}
