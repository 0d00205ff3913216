/** The sliding window of a session's life (tutor/persistence/repo.py, tutor/persistence/purge.py) over whole
    runs. */
module Expiry {
  import opened Wrappers
  import opened Store
  import opened Quotas
  import opened Turns
  import opened SessionLaws
  import opened Protocol
  import opened ProtocolLaws
  import opened ProtocolCommits
  import opened ProtocolRuns

  /** When the step creates the session, records a turn in it or switches its model: the time of that. */
  ghost function Touch(w: World, a: Action, sid: Sid): Option<int> {
    match a
    case CommitServer(t, minted, _, _, now, _) =>
      if t in w.inflight && w.inflight[t].Landed? && SidOf(w.inflight[t], minted) == sid then Some(now) else None
    case CommitPosted(t) =>
      if t in w.inflight && w.inflight[t].Posted? && w.inflight[t].sid == sid then Some(w.inflight[t].turn.now) else None
    case CommitSwitch(t, now) =>
      if t in w.inflight && w.inflight[t].Switching? && w.inflight[t].sid == sid then Some(now) else None
    case CommitCreate(minted, _, _, _, _, _, _, _, now) => if minted == sid then Some(now) else None
    case CommitReset(_, minted, _, _, now) => if minted == sid then Some(now) else None
    case _ => None
  }

  /** When a session was last created, answered or switched. */
  ghost function LastTouch(env: Env, run: seq<Action>, sid: Sid): Option<int>
    requires IsRun(env, run)
  {
    if run == [] then None
    else
      var before := run[..|run| - 1];
      var touch := Touch(After(env, before), run[|run| - 1], sid);
      if touch.Some? then touch else LastTouch(env, before, sid)
  }

  lemma RecordExpires(s: Session, seen: Row, at: nat, turn: Turn)
    ensures RecordTurn(s, seen, at, turn).row.expiresAt == turn.now + 48 * 3600
  {
  }

  lemma ServerTouches(env: Env, w: World, a: Action, sid: Sid)
    requires Enabled(env, w, a) && a.CommitServer? && sid in Perform(env, w, a).db
    ensures if Touch(w, a, sid).Some? then Perform(env, w, a).db[sid].row.expiresAt == Touch(w, a, sid).value + 48 * 3600
            else sid in w.db && Perform(env, w, a).db[sid] == w.db[sid]
  {
    var txn := w.inflight[a.t];
    RecordExpires(TargetNow(w, txn).value, txn.seen.row, txn.placed.value, TurnOf(txn, a.verdict, a.outcome, a.now));
  }

  lemma PostedTouches(env: Env, w: World, a: Action, sid: Sid)
    requires Enabled(env, w, a) && a.CommitPosted? && sid in Perform(env, w, a).db
    ensures if Touch(w, a, sid).Some? then Perform(env, w, a).db[sid].row.expiresAt == Touch(w, a, sid).value + 48 * 3600
            else sid in w.db && Perform(env, w, a).db[sid] == w.db[sid]
  {
    var txn := w.inflight[a.t];
    RecordExpires(w.db[txn.sid], txn.seen.row, txn.placed.value, txn.turn);
  }

  /** A step sets the expiry of what it touches two days ahead and leaves every other expiry alone. */
  lemma StepTouches(env: Env, w: World, a: Action, sid: Sid)
    requires Enabled(env, w, a) && sid in Perform(env, w, a).db
    ensures if Touch(w, a, sid).Some? then Perform(env, w, a).db[sid].row.expiresAt == Touch(w, a, sid).value + 48 * 3600
            else sid in w.db && Perform(env, w, a).db[sid].row.expiresAt == w.db[sid].row.expiresAt
  {
    if a.CommitServer? {
      ServerTouches(env, w, a, sid);
    } else if a.CommitPosted? {
      PostedTouches(env, w, a, sid);
    }
  }

  /** The sliding window: in every run a session expires two days after it was last created, answered or
      switched; replies and flushes do not prolong it. */
  lemma {:induction false} ExpiryFollowsLastTouch(env: Env, run: seq<Action>, sid: Sid)
    requires IsRun(env, run) && sid in After(env, run).db
    ensures LastTouch(env, run, sid).Some?
    ensures After(env, run).db[sid].row.expiresAt == LastTouch(env, run, sid).value + 48 * 3600
  {
    if run != [] {
      var before, a := run[..|run| - 1], run[|run| - 1];
      StepTouches(env, After(env, before), a, sid);
      if Touch(After(env, before), a, sid).None? { ExpiryFollowsLastTouch(env, before, sid); }
    }
  }

  /** So a purge selects a session exactly when more than two days have passed since then. */
  lemma {:induction false} PurgeSelectsIff(env: Env, run: seq<Action>, sid: Sid, now: int)
    requires IsRun(env, run) && sid in After(env, run).db
    ensures LastTouch(env, run, sid).Some?
    ensures sid in ExpiredRows(After(env, run).db, now) <==> now > LastTouch(env, run, sid).value + 48 * 3600
  {
    ExpiryFollowsLastTouch(env, run, sid);
  }

  /** And no purge that commits, whatever came between its DELETE and its COMMIT, removes a session touched
      within the two days before it. */
  lemma {:induction false} PurgesSpareTheLive(env: Env, run: seq<Action>, t: Tid, sid: Sid)
    requires IsRun(env, run) && t in After(env, run).inflight && After(env, run).inflight[t].Purging?
    requires sid in After(env, run).db && sid !in Perform(env, After(env, run), CommitErase(t)).db
    ensures LastTouch(env, run, sid).Some? && After(env, run).inflight[t].now > LastTouch(env, run, sid).value + 48 * 3600
  {
    RunKeepsInv(AnyRun, env, run);
    var w := After(env, run);
    DoomedHaveLapsed(env, w, w.inflight[t]);
    ErasedAreDoomed(env, w, t, sid);
    PurgeSelectsIff(env, run, sid, w.inflight[t].now);
  }

  lemma DoomedHaveLapsed(env: Env, w: World, txn: Txn)
    requires TxnOk(AnyRun, env, w, txn) && txn.Purging?
    ensures txn.doomed <= ExpiredRows(w.db, txn.now)
  {
  }

  lemma ErasedAreDoomed(env: Env, w: World, t: Tid, sid: Sid)
    requires t in w.inflight && w.inflight[t].Purging? && sid in w.db && sid !in Perform(env, w, CommitErase(t)).db
    ensures sid in w.inflight[t].doomed
  {
  }
}
