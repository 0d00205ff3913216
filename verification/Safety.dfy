/** Safety over whole runs: what holds of every session of every store that any interleaving of
    transactions can reach, what holds in addition when no turn loses what another did, and what when no
    reflected row lowers a version. */
module Safety {
  import opened Wrappers
  import opened Steps
  import opened Verdicts
  import opened Fsm
  import opened Catalog
  import opened Store
  import opened Quotas
  import opened Context
  import opened SessionLaws
  import opened SessionFacts
  import opened Protocol
  import opened ProtocolLaws
  import opened ProtocolSteps
  import opened ProtocolCommits
  import opened ProtocolRuns
  import opened ProtocolGrowth

  /** A session of a reachable store. */
  ghost predicate Reachable(env: Env, run: seq<Action>, sid: Sid) {
    IsRun(env, run) && sid in After(env, run).db
  }

  /** Likewise, in a run in which no server turn loses what another did to its row. */
  ghost predicate ReachableLossless(env: Env, run: seq<Action>, sid: Sid) {
    Reachable(env, run, sid) && NothingIsLost(env, run)
  }

  lemma {:induction false} ReachableLasts(env: Env, run: seq<Action>, sid: Sid)
    requires Reachable(env, run, sid)
    ensures Lasting(After(env, run).db[sid])
  {
    RunKeepsInv(AnyRun, env, run);
  }

  lemma {:induction false} ReachableIsExact(env: Env, run: seq<Action>, sid: Sid)
    requires ReachableLossless(env, run, sid)
    ensures Exact(After(env, run).db[sid]) && Lasting(After(env, run).db[sid])
  {
    RunKeepsInv(LosslessRun, env, run);
  }

  lemma {:induction false} ReachableIsCounted(env: Env, run: seq<Action>, sid: Sid)
    requires Reachable(env, run, sid) && NothingLowered(env, run)
    ensures VersionCounts(After(env, run).db[sid])
  {
    RunKeepsInv(OrderedRun, env, run);
  }

  // ---------------------------------------------------------------- the row, the gate table, the log

  /** Log refinement: where nothing is lost (and `FoldsThroughoutIff` says that it is only there), the
      stored row is the fold of the transition function, from the track's first
      step, over the verdicts of the session's audit rows in answer order. */
  lemma {:induction false} RowRefinesLog(env: Env, run: seq<Action>, sid: Sid)
    requires ReachableLossless(env, run, sid)
    ensures var s := After(env, run).db[sid]; var f := Fold(s.row.track, s.trail);
            && s.row.status == f.status && s.row.step == f.step && s.row.stepIndex == StepIndex(f.step)
            && s.row.attempts == f.attempts && s.row.hintLevel == f.hintLevel
            && |s.trail| == |s.calls|
            && (forall i :: 0 <= i < |s.calls| ==> CallRecords(s.calls[i], s.trail[i]))
            && (forall i, j :: 0 <= i < j < |s.calls| ==> s.calls[i].answerSeq < s.calls[j].answerSeq)
  {
    ReachableIsExact(env, run, sid);
    LogIsRefined(After(env, run).db[sid]);
  }

  lemma LogIsRefined(s: Session)
    requires RowFoldsLog(s)
    ensures var f := Fold(s.row.track, s.trail);
            && s.row.status == f.status && s.row.step == f.step && s.row.stepIndex == StepIndex(f.step)
            && s.row.attempts == f.attempts && s.row.hintLevel == f.hintLevel
  {
    assert StateOf(s.row) == Reloaded(Replayed(s));
  }

  /** Progress accounting: the passes are the steps climbed; and where no reflected row lowers a version, it
      counts the turns, the switches and the reflected rows that raised it. */
  lemma {:induction false} ProgressIsCounted(env: Env, run: seq<Action>, sid: Sid)
    requires ReachableLossless(env, run, sid)
    ensures var s := After(env, run).db[sid];
            && PassRows(s.calls) == (if s.row.status == Active then s.row.stepIndex else |StepsFor(s.row.track)|)
            && TrackOf(s.row.step) == s.row.track
            && (NothingLowered(env, run) ==> s.row.version == |s.calls| + s.switches + s.bumps)
  {
    ReachableIsExact(env, run, sid);
    ProgressIsAudited(After(env, run).db[sid]);
    if NothingLowered(env, run) { ReachableIsCounted(env, run, sid); }
  }

  /** The gate table summarises the log: each row holds the last call's verdict and score and the first
      call's judge; steps passed have passing rows, later steps have none; and the passing rows are the
      scores of the never-reloaded state machine. */
  lemma {:induction false} GateTableSummarisesLog(env: Env, run: seq<Action>, sid: Sid, i: nat)
    requires ReachableLossless(env, run, sid) && i < |StepsFor(After(env, run).db[sid].row.track)|
    ensures var s := After(env, run).db[sid]; var step := StepsFor(s.row.track)[i];
            && |s.trail| == |s.calls|
            && (step in s.gates <==> exists n :: 0 <= n < |s.calls| && s.calls[n].step == step)
            && (step in s.gates ==>
                  && (exists n: nat :: IsFirstAt(s.calls, step, n) && s.gates[step].judge == s.calls[n].judge)
                  && (exists n: nat :: IsLastAt(s.calls, step, n) && RowOfCall(s, s.gates[step], n)))
            && (i < PassRows(s.calls) ==> step in s.gates && s.gates[step].verdict == Pass)
            && (i == PassRows(s.calls) ==> step in s.gates ==> s.gates[step].verdict != Pass)
            && (i > PassRows(s.calls) ==> step !in s.gates)
            && PassScores(s.gates) == Fold(s.row.track, s.trail).scores
  {
    ReachableIsExact(env, run, sid);
    var s := After(env, run).db[sid];
    GateTableFollowsLadder(s, i);
    GateRowsAreCalled(s, StepsFor(s.row.track)[i]);
  }

  lemma GateRowsAreCalled(s: Session, step: Step)
    requires GatesSummarise(s)
    ensures step in s.gates <==> exists n :: 0 <= n < |s.calls| && s.calls[n].step == step
    ensures step in s.gates ==> Summarises(s, step)
  {
    if step in s.gates {
      assert Summarises(s, step);
      var n: nat :| IsFirstAt(s.calls, step, n) && s.gates[step].judge == s.calls[n].judge;
      assert s.calls[n].step == step;
    }
  }

  /** The stored hint level, in closed form over the retries since the last pass; it is maxed from the
      third retry on and back at zero once the session is completed. */
  lemma {:induction false} HintLevelIsClosedForm(env: Env, run: seq<Action>, sid: Sid)
    requires ReachableLossless(env, run, sid)
    ensures var s := After(env, run).db[sid]; var retries := RetriesSincePass(s.trail);
            && s.row.hintLevel == (if s.row.status == Completed then 0
                                   else Min(3, Max(|retries|, Largest(retries))))
            && s.row.attempts == (if s.row.status == Completed then 0 else |retries|)
            && s.row.hintLevel <= 3
            && (s.row.attempts >= 3 ==> s.row.hintLevel == 3)
  {
    ReachableIsExact(env, run, sid);
    HintLevelOf(After(env, run).db[sid]);
  }

  lemma HintLevelOf(s: Session)
    requires Exact(s)
    ensures var retries := RetriesSincePass(s.trail);
            && s.row.hintLevel == (if s.row.status == Completed then 0
                                   else Min(3, Max(|retries|, Largest(retries))))
            && s.row.attempts == (if s.row.status == Completed then 0 else |retries|)
  {
    LogIsRefined(s);
    if s.row.status == Completed { CompletedCountersAreZero(s.row.track, s.trail); } else { StoredHintLadder(s); }
  }

  /** Without citations no reflected row is ever written, and the version counts turns and switches alone. */
  lemma {:induction false} UncitedRunsCountExactly(env: Env, run: seq<Action>, sid: Sid)
    requires Reachable(env, run, sid) && forall i :: 0 <= i < |run| ==> !run[i].FollowUp?
    ensures NothingLowered(env, run)
    ensures var s := After(env, run).db[sid]; s.row.version == |s.calls| + s.switches
  {
    UncitedRunsLowerNothing(env, run);
    UncitedRunsBumpNothing(env, run, sid);
    ReachableIsCounted(env, run, sid);
  }

  lemma {:induction false} UncitedRunsLowerNothing(env: Env, run: seq<Action>)
    requires IsRun(env, run) && forall i :: 0 <= i < |run| ==> !run[i].FollowUp?
    ensures NothingLowered(env, run)
  {
    if run != [] { UncitedRunsLowerNothing(env, run[..|run| - 1]); }
  }

  lemma {:induction false} UncitedRunsBumpNothing(env: Env, run: seq<Action>, sid: Sid)
    requires Reachable(env, run, sid) && forall i :: 0 <= i < |run| ==> !run[i].FollowUp?
    ensures After(env, run).db[sid].bumps == 0
  {
    var before := run[..|run| - 1];
    if sid in After(env, before).db { UncitedRunsBumpNothing(env, before, sid); }
    StepBumpsNothing(env, before, run[|run| - 1], sid);
  }

  lemma {:induction false} StepBumpsNothing(env: Env, before: seq<Action>, a: Action, sid: Sid)
    requires IsRun(env, before) && Enabled(env, After(env, before), a) && !a.FollowUp?
    requires sid in Perform(env, After(env, before), a).db
    ensures var w := After(env, before); Perform(env, w, a).db[sid].bumps == if sid in w.db then w.db[sid].bumps else 0
  {
    RunKeepsInv(AnyRun, env, before);
    OnlyFollowUpsBump(env, After(env, before), a, sid);
  }

  lemma OnlyFollowUpsBump(env: Env, w: World, a: Action, sid: Sid)
    requires Inv(AnyRun, env, w) && Enabled(env, w, a) && !a.FollowUp? && sid in Perform(env, w, a).db
    ensures Perform(env, w, a).db[sid].bumps == if sid in w.db then w.db[sid].bumps else 0
  {
    if a.CommitServer? { ServerTurnBumpsNothing(env, w, a, sid); } else { OtherStepBumpsNothing(env, w, a, sid); }
  }

  lemma OtherStepBumpsNothing(env: Env, w: World, a: Action, sid: Sid)
    requires Enabled(env, w, a) && !a.FollowUp? && !a.CommitServer? && sid in Perform(env, w, a).db
    requires w.db.Keys <= w.used
    ensures Perform(env, w, a).db[sid].bumps == if sid in w.db then w.db[sid].bumps else 0
  {
    if a.CommitCreate? || a.CommitReset? { assert a.minted !in w.db.Keys; }
  }

  lemma ServerTurnBumpsNothing(env: Env, w: World, a: Action, sid: Sid)
    requires Inv(AnyRun, env, w) && Enabled(env, w, a) && a.CommitServer? && sid in Perform(env, w, a).db
    ensures Perform(env, w, a).db[sid].bumps == if sid in w.db then w.db[sid].bumps else 0
  {
    LandedHolds(AnyRun, env, w, w.inflight[a.t]);
    TargetIsFree(w, w.inflight[a.t]);
    FreshBumpsNothing(env, w, w.inflight[a.t]);
  }

  lemma FreshBumpsNothing(env: Env, w: World, txn: Txn)
    requires TxnOk(AnyRun, env, w, txn) && txn.Landed?
    ensures txn.target.Inserted? ==> txn.seen.bumps == 0
  {
  }

  // ---------------------------------------------------------------- the transcript

  /** Transcript conservation: numbers 1..n without gap or repeat; user messages and audit rows in
      order-preserving bijection, with the same step and turn id; no turn id twice. */
  lemma {:induction false} TranscriptIsConserved(env: Env, run: seq<Action>, sid: Sid)
    requires Reachable(env, run, sid)
    ensures var s := After(env, run).db[sid];
            && (forall k :: k in s.messages <==> 1 <= k <= |s.messages|)
            && |UserSeqs(s)| == |s.calls|
            && (forall i :: 0 <= i < |s.calls| ==> Answers(s, s.calls[i]))
            && (forall k :: k in UserSeqs(s) ==> exists i :: 0 <= i < |s.calls| && s.calls[i].answerSeq == k)
            && (forall k, l :: (k in s.messages && l in s.messages && SameTurn(s.messages[k], s.messages[l])) ==> k == l)
            && (forall i, j :: 0 <= i < j < |s.calls| && s.calls[i].turnId.Some? ==> s.calls[i].turnId != s.calls[j].turnId)
  {
    ReachableLasts(env, run, sid);
    TurnIdsAreAudited(After(env, run).db[sid]);
    AnswersAreCounted(After(env, run).db[sid]);
  }

  lemma TurnIdsAreAudited(s: Session)
    requires Lasting(s)
    ensures forall i, j :: 0 <= i < j < |s.calls| && s.calls[i].turnId.Some? ==> s.calls[i].turnId != s.calls[j].turnId
  {
    forall i, j | 0 <= i < j < |s.calls| && s.calls[i].turnId.Some? ensures s.calls[i].turnId != s.calls[j].turnId {
      TurnIdsAreAuditedOnce(s, i, j);
    }
  }

  /** Coach messages, with the replies still streaming, never outnumber user messages, although replies
      are inserted without a lock; and a session judged only in a capped user's browser never holds more
      than one message over the cap. */
  lemma {:induction false} RepliesAndCap(env: Env, run: seq<Action>, sid: Sid)
    requires Reachable(env, run, sid)
    ensures var s := After(env, run).db[sid];
            && |CoachSeqs(s)| + Debts(After(env, run), sid) <= |UserSeqs(s)|
            && (s.row.user in env.capped && AllClient(s.calls) ==> |s.messages| <= env.cap + 1)
  {
    RunKeepsInv(AnyRun, env, run);
  }

  // ---------------------------------------------------------------- locks and versions

  /** What holds a row lock and read the row after taking it never loses its compare-and-swap: all but
      the transcript of its session is still as it was read. */
  lemma {:induction false} LockedRowsAreNeverStale(env: Env, run: seq<Action>, t: Tid)
    requires IsRun(env, run) && t in After(env, run).inflight
    ensures var w := After(env, run); var txn := w.inflight[t];
            txn.Posted? || txn.Switching? ==> txn.sid in w.db && SameState(txn.seen, w.db[txn.sid])
  {
    RunKeepsInv(AnyRun, env, run);
    assert TxnOk(AnyRun, env, After(env, run), After(env, run).inflight[t]);
  }

  /** Where no reflected row has lowered a version, a server turn is found stale exactly when the row that
      its lock returned was already newer than the row its ORM session had cached; nothing that happens
      after the lock matters. A version that still matches means that row, log and gate table are the
      ones it read, however long ago. */
  lemma {:induction false} ServerTurnIsStaleIff(env: Env, run: seq<Action>, t: Tid)
    requires IsRun(env, run) && NothingLowered(env, run) && t in After(env, run).inflight
    requires var txn := After(env, run).inflight[t]; txn.Landed? && txn.target.Existing?
    ensures var w := After(env, run); var txn := w.inflight[t];
            && txn.target.sid in w.db
            && w.db[txn.target.sid].row == txn.target.locked
            && (w.db[txn.target.sid].row.version != txn.seen.row.version <==> txn.target.locked != txn.seen.row)
            && (w.db[txn.target.sid].row.version == txn.seen.row.version ==> SameState(txn.seen, w.db[txn.target.sid]))
  {
    RunKeepsInv(OrderedRun, env, run);
    var w := After(env, run);
    assert TxnOk(OrderedRun, env, w, w.inflight[t]);
    VersionMatchMeansUnchanged(w, w.inflight[t].target.sid, w.inflight[t].seen);
  }

  /** Between any two moments of a run at which a session exists, it has only grown, and once completed
      all but its version stays as it is. Where no reflected row lowers a version there is no lost update
      and no ABA: versions only rise, and the same version means the same row, gate table and log. */
  lemma {:induction false} SessionsOnlyGrow(env: Env, run: seq<Action>, n: nat, sid: Sid)
    requires IsRun(env, run) && n <= |run|
    requires sid in At(env, run, n).db && sid in After(env, run).db
    ensures var a, b := At(env, run, n).db[sid], After(env, run).db[sid];
            && a.calls <= b.calls && SameIdentity(a.row, b.row)
            && (forall k :: k in a.messages ==> k in b.messages && b.messages[k] == a.messages[k])
            && (a.row.status == Completed ==> SameButVersion(a, b))
            && (NothingLowered(env, run) ==> a.row.version <= b.row.version)
            && (NothingLowered(env, run) && a.row.version == b.row.version ==> SameState(a, b))
  {
    RunsAreSteady(AnyRun, env, run, n);
    if NothingLowered(env, run) { RunsAreSteady(OrderedRun, env, run, n); }
  }

  // ---------------------------------------------------------------- withholding

  /** In every run, lowered versions or not, every step behind a session was passed in its audit log. */
  lemma {:induction false} StepsAreEarned(env: Env, run: seq<Action>, sid: Sid, step: Step)
    requires Reachable(env, run, sid)
    requires var row := After(env, run).db[sid].row; TrackOf(step) == row.track && StepIndex(step) < StepsBehind(row)
    ensures PassLogged(After(env, run).db[sid].calls, step)
  {
    ReachableLasts(env, run, sid);
  }

  /** Whole-run withholding: every context ever built for a code step, the only ones into which the
      worked solution can enter, was for a session that at some moment of the run stood committed with
      passes at clarify, examples, approach and plan in its audit log, and that has them still if it
      still exists. No conceptual session, and no session not yet committed, was ever shown one. Where
      nothing is lost the gate table holds the four passes as well. */
  lemma {:induction false} SolutionIsWithheld(env: Env, run: seq<Action>, i: nat)
    requires IsRun(env, run) && i < |After(env, run).exposed|
    requires WantsSolution(After(env, run).exposed[i].step)
    ensures var w := After(env, run); var e := w.exposed[i];
            && e.sid.Some? && Earned(e.seen)
            && WasCommitted(env, run, e.sid.value, e.seen)
            && (e.sid.value in w.db ==> Earned(w.db[e.sid.value]))
            && (NothingIsLost(env, run) ==> forall step :: BeforeCode(step) ==> PassedAt(e.seen, step))
  {
    RunKeepsInv(AnyRun, env, run);
    RunsReadWhatWasCommitted(env, run);
    var w := After(env, run);
    var e := w.exposed[i];
    assert ExposureOk(AnyRun, w, e) && ShownFromStore(env, run, e);
    EarlierStepsAreEarly(e.step);
    CodeStepsAreLate(e.step);
    CodeStepsAreEarned(e.seen);
    if e.sid.value in w.db { EarnedIsKept(e.seen, w.db[e.sid.value]); }
    if NothingIsLost(env, run) { ShownWithItsGates(env, run, i); }
  }

  lemma {:induction false} ShownWithItsGates(env: Env, run: seq<Action>, i: nat)
    requires IsRun(env, run) && i < |After(env, run).exposed| && NothingIsLost(env, run)
    requires WantsSolution(After(env, run).exposed[i].step)
    ensures forall step :: BeforeCode(step) ==> PassedAt(After(env, run).exposed[i].seen, step)
  {
    RunKeepsInv(LosslessRun, env, run);
    assert ExposureOk(LosslessRun, After(env, run), After(env, run).exposed[i]);
    CodeStepsFollowFourPasses(After(env, run).exposed[i].seen);
  }

  // ---------------------------------------------------------------- transport

  /** The byok flag is true exactly when the stored model names a catalog entry served in the cloud. */
  lemma {:induction false} TransportIsPinned(env: Env, run: seq<Action>, sid: Sid)
    requires Reachable(env, run, sid)
    ensures var row := After(env, run).db[sid].row; row.byok <==> NamesCloudModel(row.model)
  {
    ReachableLasts(env, run, sid);
  }

  /** A coach reply owed for a turn that landed on the session it was addressed to, or on one it made,
      is never paid for with the server's own key. */
  lemma {:induction false} AddressedTurnsSpareTheServerKey(env: Env, run: seq<Action>, t: Tid, tier: Tier, hasServerKey: bool, prefersLocal: bool, hasLocal: bool)
    requires IsRun(env, run) && t in After(env, run).inflight
    requires var txn := After(env, run).inflight[t]; txn.Owing? && txn.addressed
    ensures ResolveCoach(After(env, run).inflight[t].model, tier, hasServerKey, prefersLocal, hasLocal).mode != ServerKey
  {
    RunKeepsInv(AnyRun, env, run);
    OwedModelIsLocal(env, After(env, run), After(env, run).inflight[t]);
    CloudOnlyIsCharged(After(env, run).inflight[t].model, tier, hasServerKey, prefersLocal, hasLocal);
  }

  lemma OwedModelIsLocal(env: Env, w: World, txn: Txn)
    requires TxnOk(AnyRun, env, w, txn) && txn.Owing? && txn.addressed
    ensures !NamesCloudModel(txn.model)
  {
  }

  lemma CloudOnlyIsCharged(model: Option<ModelKey>, tier: Tier, hasServerKey: bool, prefersLocal: bool, hasLocal: bool)
    ensures ResolveCoach(model, tier, hasServerKey, prefersLocal, hasLocal).mode == ServerKey ==> NamesCloudModel(model)
  {
    ServerKeySpentIff(model, tier, hasServerKey, prefersLocal, hasLocal);
  }

  /** In general a turn spends the server's key if and only if the row it landed on is a session of
      the other transport, stores a direct Anthropic model, and the deployment is set up for it. */
  lemma {:induction false} ServerKeySpentOnlyAcross(env: Env, run: seq<Action>, t: Tid, tier: Tier, hasServerKey: bool, prefersLocal: bool, hasLocal: bool)
    requires IsRun(env, run) && t in After(env, run).inflight && After(env, run).inflight[t].Landed?
    ensures var row := After(env, run).inflight[t].seen.row;
            ResolveCoach(row.model, tier, hasServerKey, prefersLocal, hasLocal).mode == ServerKey
            <==> row.byok && row.model in {Some(ClaudeSonnet), Some(ClaudeHaiku)}
                 && tier == Homelab && hasServerKey && !prefersLocal
  {
    RunKeepsInv(AnyRun, env, run);
    LandedOnTransport(env, After(env, run), After(env, run).inflight[t]);
    var row := After(env, run).inflight[t].seen.row;
    ServerKeySpentIff(row.model, tier, hasServerKey, prefersLocal, hasLocal);
    CloudOnlyIsCharged(row.model, tier, hasServerKey, prefersLocal, hasLocal);
  }

  lemma LandedOnTransport(env: Env, w: World, txn: Txn)
    requires TxnOk(AnyRun, env, w, txn) && txn.Landed?
    ensures Transport(txn.seen.row)
  {
    if txn.target.Inserted? { FreshIsOk(AnyRun, txn.seen, txn.req); }
  }
}
