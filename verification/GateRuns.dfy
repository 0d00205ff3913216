/** Over whole runs: what the gate grants is what its model said. */
module GateRuns {
  import opened Wrappers
  import opened Verdicts
  import opened Gate
  import opened Store
  import opened Quotas
  import opened Turns
  import opened SessionLaws
  import opened TurnLaws
  import opened Protocol
  import opened ProtocolLaws
  import opened ProtocolCommits
  import opened ProtocolRuns

  /** The verdict of a server turn is the gate's judgement of what its provider did. */
  predicate IsJudgement(lenient: bool, answer: Option<Raw>, verdict: GateVerdict, outcome: GateOutcome) {
    Judgement(lenient, answer) == Evaluated(verdict, outcome)
  }

  ghost predicate Judged(lenient: bool, verdict: GateVerdict, outcome: GateOutcome) {
    exists answer :: IsJudgement(lenient, answer, verdict, outcome)
  }

  ghost predicate JudgedByGate(lenient: bool, run: seq<Action>) {
    forall i :: 0 <= i < |run| && run[i].CommitServer? ==> Judged(lenient, run[i].verdict, run[i].outcome)
  }

  /** Every audit row of the server's gate holds such a judgement. */
  ghost predicate LogIsJudged(lenient: bool, s: Session) {
    && |s.calls| == |s.trail|
    && forall i :: 0 <= i < |s.calls| && s.calls[i].judge == Llm ==> Judged(lenient, s.trail[i], s.calls[i].outcome)
  }

  ghost predicate StoreIsJudged(lenient: bool, db: Db) {
    forall sid :: sid in db ==> LogIsJudged(lenient, db[sid])
  }

  lemma RecordIsJudged(lenient: bool, s: Session, seen: Row, at: nat, turn: Turn)
    requires LogIsJudged(lenient, s) && (turn.judge == Llm ==> Judged(lenient, turn.verdict, turn.outcome))
    ensures LogIsJudged(lenient, RecordTurn(s, seen, at, turn))
  {
  }

  lemma ServerCommitIsJudged(lenient: bool, env: Env, w: World, a: Action)
    requires Inv(AnyRun, env, w) && Enabled(env, w, a) && a.CommitServer?
    requires StoreIsJudged(lenient, w.db) && Judged(lenient, a.verdict, a.outcome)
    ensures StoreIsJudged(lenient, Perform(env, w, a).db)
  {
    var txn := w.inflight[a.t];
    TargetIsFree(w, txn);
    FreshIsJudged(lenient, env, w, txn);
    var turn := TurnOf(txn, a.verdict, a.outcome, a.now);
    RecordIsJudged(lenient, TargetNow(w, txn).value, txn.seen.row, txn.placed.value, turn);
    PutIsJudged(lenient, w.db, SidOf(txn, a.minted), RecordTurn(TargetNow(w, txn).value, txn.seen.row, txn.placed.value, turn));
  }

  lemma FreshIsJudged(lenient: bool, env: Env, w: World, txn: Txn)
    requires TxnOk(AnyRun, env, w, txn) && txn.Landed?
    ensures txn.target.Inserted? ==> LogIsJudged(lenient, txn.seen)
  {
  }

  lemma PostedCommitIsJudged(lenient: bool, env: Env, w: World, a: Action)
    requires Inv(AnyRun, env, w) && Enabled(env, w, a) && a.CommitPosted? && StoreIsJudged(lenient, w.db)
    ensures StoreIsJudged(lenient, Perform(env, w, a).db)
  {
    var txn := w.inflight[a.t];
    PostedByClient(env, w, txn);
    RecordIsJudged(lenient, w.db[txn.sid], txn.seen.row, txn.placed.value, txn.turn);
    PutIsJudged(lenient, w.db, txn.sid, RecordTurn(w.db[txn.sid], txn.seen.row, txn.placed.value, txn.turn));
  }

  lemma PostedByClient(env: Env, w: World, txn: Txn)
    requires TxnOk(AnyRun, env, w, txn) && txn.Posted?
    ensures txn.turn.judge == Client
  {
  }

  lemma PutIsJudged(lenient: bool, db: Db, sid: Sid, s: Session)
    requires StoreIsJudged(lenient, db) && LogIsJudged(lenient, s)
    ensures StoreIsJudged(lenient, db[sid := s])
  {
  }

  lemma OtherStepIsJudged(lenient: bool, env: Env, w: World, a: Action)
    requires Enabled(env, w, a) && !a.CommitServer? && !a.CommitPosted? && StoreIsJudged(lenient, w.db)
    ensures StoreIsJudged(lenient, Perform(env, w, a).db)
  {
  }

  lemma {:induction false} RunsAreJudged(lenient: bool, env: Env, run: seq<Action>)
    requires IsRun(env, run) && JudgedByGate(lenient, run)
    ensures StoreIsJudged(lenient, After(env, run).db)
  {
    if run != [] {
      var before, a := run[..|run| - 1], run[|run| - 1];
      RunsAreJudged(lenient, env, before);
      RunKeepsInv(AnyRun, env, before);
      if a.CommitServer? {
        ServerCommitIsJudged(lenient, env, After(env, before), a);
      } else if a.CommitPosted? {
        PostedCommitIsJudged(lenient, env, After(env, before), a);
      } else {
        OtherStepIsJudged(lenient, env, After(env, before), a);
      }
    }
  }

  /** In every run, under every interleaving and staleness: if the verdicts of server turns are the gate's
      judgements, then behind every passing audit row of the server's gate there is an answer of the
      model that judges to it, and that answer is a raw pass. */
  lemma {:induction false} PassesAreRawPasses(lenient: bool, env: Env, run: seq<Action>, sid: Sid, i: nat)
    requires IsRun(env, run) && JudgedByGate(lenient, run) && sid in After(env, run).db
    requires var calls := After(env, run).db[sid].calls; i < |calls| && calls[i].judge == Llm && calls[i].verdict == Pass
    ensures var s := After(env, run).db[sid];
            && i < |s.trail|
            && exists answer :: IsJudgement(lenient, answer, s.trail[i], s.calls[i].outcome) && RawPass(answer)
  {
    RunsAreJudged(lenient, env, run);
    RunKeepsInv(AnyRun, env, run);
    var s := After(env, run).db[sid];
    assert CallRecords(s.calls[i], s.trail[i]);
    assert LogIsJudged(lenient, s);
    var answer :| IsJudgement(lenient, answer, s.trail[i], s.calls[i].outcome);
    GateNeverGrants(lenient, answer);
  }
}
