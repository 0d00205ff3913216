/** The committing steps: each meets exactly the situation in which the session's laws are kept. */
module ProtocolCommits {
  import opened Wrappers
  import opened Steps
  import opened Fsm
  import opened Catalog
  import opened Store
  import opened Quotas
  import opened Turns
  import opened SessionLaws
  import opened LastingLaws
  import opened ExactLaws
  import opened Protocol
  import opened ProtocolLaws
  import opened ProtocolSteps

  // ---------------------------------------------------------------- what the version check proves

  /** The heart of the protocol: where versions are in order, however old the row a transaction read, a
      version that still matches at commit means that the row, its log and its gate table are the ones
      it read. */
  lemma VersionMatchMeansUnchanged(w: World, sid: Sid, seen: Session)
    requires Past(OrderedRun, w, sid, seen) && sid in w.db
    ensures w.db[sid].row.version == seen.row.version ==> SameState(seen, w.db[sid])
    ensures w.db[sid].row.version >= seen.row.version
  {
  }

  /** And a sequence number that is still free is the next one. */
  lemma FreeMeansNext(s: Session, at: nat)
    requires Transcript(s) && Taken(s, at) && at !in s.messages
    ensures at == NextSeq(s)
  {
    NextSeqIsCount(s);
  }

  lemma InsertCounts(messages: map<nat, Message>, at: nat, m: Message, role: Role)
    requires at !in messages
    ensures |SeqsOf(messages[at := m], role)| == |SeqsOf(messages, role)| + if m.role == role then 1 else 0
  {
    var before, after := SeqsOf(messages, role), SeqsOf(messages[at := m], role);
    assert at !in before;
    assert after == if m.role == role then before + {at} else before;
  }

  lemma AnswerCounts(s: Session, t: Session, at: nat, m: Message)
    requires at !in s.messages && t.messages == s.messages[at := m] && m.role == User
    ensures |UserSeqs(t)| == |UserSeqs(s)| + 1 && |CoachSeqs(t)| == |CoachSeqs(s)|
  {
    InsertCounts(s.messages, at, m, User);
    InsertCounts(s.messages, at, m, Coach);
  }

  lemma TurnCounts(s: Session, seen: Row, t: Session, at: nat, turn: Turn)
    requires at !in s.messages && at + 1 !in s.messages && t.messages == MessagesAfter(s, seen, at, turn)
    ensures |UserSeqs(t)| == |UserSeqs(s)| + 1
    ensures |CoachSeqs(t)| == |CoachSeqs(s)| + if turn.reply.Some? then 1 else 0
  {
    var mid := InsertMessage(s, at, AnswerOf(seen, turn));
    AnswerCounts(s, mid, at, AnswerOf(seen, turn));
    if turn.reply.Some? {
      ReplyCounts(mid, t, at + 1, Message(Coach, seen.step, turn.reply.value, None, seen.model));
    } else {
      SwitchCounts(mid, t);
    }
  }

  // ---------------------------------------------------------------- a server turn

  /** A server turn that passes its checks at commit takes the next number, and, where versions are in
      order, sees the session's row as it is. */
  lemma LandedFits(kind: Kind, env: Env, w: World, t: Tid, turn: Turn)
    requires Inv(kind, env, w) && t in w.inflight && w.inflight[t].Landed? && w.inflight[t].placed.Some?
    requires TargetNow(w, w.inflight[t]).Some?
    requires MayRecord(TargetNow(w, w.inflight[t]).value, w.inflight[t].seen.row, w.inflight[t].placed.value, turn)
    requires turn.judge == Llm && turn.reply == None
    ensures var txn := w.inflight[t]; var s := TargetNow(w, txn).value;
            && SessionOk(kind, s) && Lasting(txn.seen)
            && TurnFits(s, txn.seen, txn.placed.value, turn)
            && (kind == OrderedRun ==> s.row == txn.seen.row)
  {
    var txn := w.inflight[t];
    assert TxnOk(kind, env, w, txn);
    TargetIsOk(kind, w, txn);
    var s := TargetNow(w, txn).value;
    if txn.target.Existing? {
      if kind == OrderedRun { VersionMatchMeansUnchanged(w, txn.target.sid, txn.seen); }
      FreeMeansNext(s, txn.placed.value);
    } else {
      EvolvesIsReflexive(kind, s);
    }
  }

  /** It writes what it would have written from that row if and only if nothing is lost. */
  lemma LandedRecordsIff(kind: Kind, env: Env, w: World, t: Tid, turn: Turn)
    requires Inv(kind, env, w) && t in w.inflight && w.inflight[t].Landed? && w.inflight[t].placed.Some?
    requires TargetNow(w, w.inflight[t]).Some?
    requires MayRecord(TargetNow(w, w.inflight[t]).value, w.inflight[t].seen.row, w.inflight[t].placed.value, turn)
    requires turn.judge == Llm && turn.reply == None
    ensures var txn := w.inflight[t]; var s := TargetNow(w, txn).value; var at := txn.placed.value;
            RecordTurn(s, txn.seen.row, at, turn) == RecordTurn(s, s.row, at, turn)
            <==> NothingLost(StateOf(s.row), StateOf(txn.seen.row), turn.verdict)
  {
    LandedFits(kind, env, w, t, turn);
    var txn := w.inflight[t];
    SameRecordIff(TargetNow(w, txn).value, txn.seen.row, txn.placed.value, turn);
  }

  lemma TurnResult(kind: Kind, s: Session, seen: Session, at: nat, turn: Turn)
    requires SessionOk(kind, s) && Lasting(seen) && TurnFits(s, seen, at, turn)
    requires kind != AnyRun ==> RecordTurn(s, seen.row, at, turn) == RecordTurn(s, s.row, at, turn)
    ensures var t := RecordTurn(s, seen.row, at, turn);
            && SessionOk(kind, t) && Evolves(kind, s, t)
            && |UserSeqs(t)| == |UserSeqs(s)| + 1
            && |CoachSeqs(t)| == |CoachSeqs(s)| + (if turn.reply.Some? then 1 else 0)
            && (turn.judge == Llm ==> !AllClient(t.calls))
            && (t.row.user == s.row.user && t.row.problem == s.row.problem && t.row.version == seen.row.version + 1)
  {
    var t := RecordTurn(s, seen.row, at, turn);
    TurnKeepsSession(kind, s, seen, at, turn);
    RecordTurnWrites(s, seen.row, at, turn);
    NextSeqIsCount(s);
    TurnCounts(s, seen.row, t, at, turn);
    assert t.calls[|s.calls|].judge == turn.judge;
  }

  lemma ServerWrites(kind: Kind, env: Env, w: World, w': World, t: Tid, minted: Sid, s': Session)
    requires TxnsOk(kind, env, w) && Exclusive(w) && w.db.Keys <= w.used && t in w.inflight && w.inflight[t].Landed? && minted !in w.used
    requires TargetNow(w, w.inflight[t]).Some?
    requires Evolves(kind, TargetNow(w, w.inflight[t]).value, s')
    requires w'.db == w.db[SidOf(w.inflight[t], minted) := s'] && w'.used == w.used + {SidOf(w.inflight[t], minted)}
    requires OthersSame(w, w', Some(t))
    ensures Writes(kind, w, w', Some(t), SidOf(w.inflight[t], minted), s')
  {
    LandedHolds(kind, env, w, w.inflight[t]);
    TargetIsFree(w, w.inflight[t]);
    if w.inflight[t].target.Existing? { HeldIsFree(w, t, w.inflight[t].target.sid); }
  }

  lemma LandedHolds(kind: Kind, env: Env, w: World, txn: Txn)
    requires TxnOk(kind, env, w, txn) && txn.Landed?
    ensures txn.target.Existing? ==> Holds(txn, txn.target.sid) && txn.target.sid in w.db
    ensures txn.target.Inserted? ==> txn.seen.row.user == txn.req.user && txn.seen.row.problem == txn.req.problem
  {
    if txn.target.Inserted? {
      var now :| txn.seen == FreshFor(txn.req, now);
    }
  }

  lemma TargetIsFree(w: World, txn: Txn)
    requires txn.Landed? && TargetNow(w, txn).Some?
    ensures txn.target.Inserted? ==> !HasActive(w.db, txn.req.user, txn.req.problem) && TargetNow(w, txn).value == txn.seen
    ensures txn.target.Existing? ==> TargetNow(w, txn).value == w.db[txn.target.sid]
  {
  }

  lemma CommitServerKeepsInv(kind: Kind, env: Env, w: World, w': World, t: Tid, minted: Sid, turn: Turn, cited: bool)
    requires Inv(kind, env, w) && t in w.inflight && w.inflight[t].Landed? && w.inflight[t].placed.Some? && minted !in w.used
    requires TargetNow(w, w.inflight[t]).Some?
    requires MayRecord(TargetNow(w, w.inflight[t]).value, w.inflight[t].seen.row, w.inflight[t].placed.value, turn)
    requires turn.judge == Llm && turn.reply == None
    requires kind == LosslessRun ==>
               NothingLost(StateOf(TargetNow(w, w.inflight[t]).value.row), StateOf(w.inflight[t].seen.row), turn.verdict)
    requires var txn := w.inflight[t]; var sid := SidOf(txn, minted);
             && w'.inflight == w.inflight[t := OwingAfter(txn, minted, cited)]
             && w'.db == w.db[sid := RecordTurn(TargetNow(w, txn).value, txn.seen.row, txn.placed.value, turn)]
             && w'.used == w.used + {sid}
             && w'.exposed == w.exposed + [ExposedTo(txn)]
    ensures Inv(kind, env, w')
  {
    var txn := w.inflight[t];
    var sid := SidOf(txn, minted);
    var s := TargetNow(w, txn).value;
    LandedFits(kind, env, w, t, turn);
    LandedRecordsIff(kind, env, w, t, turn);
    TurnResult(kind, s, txn.seen, txn.placed.value, turn);
    var s' := RecordTurn(s, txn.seen.row, txn.placed.value, turn);
    PutLeavesOthers(w, w', t, w'.inflight[t]);
    ServerWrites(kind, env, w, w', t, minted, s');
    ServerCounts(kind, env, w, w', t, minted, s, s');
    WriteIsFramed(kind, w, w', Some(t), sid, s');
    ServerExposure(kind, env, w, w', t);
    ShowsOne(kind, w, w', ExposedTo(txn));
    ServerOwes(kind, env, w, w', t, minted, cited);
    WriteKeepsInv(kind, env, w, w', Some(t), sid, s');
  }

  lemma PutLeavesOthers(w: World, w': World, t: Tid, txn: Txn)
    requires w'.inflight == w.inflight[t := txn]
    ensures OthersSame(w, w', Some(t))
  {
  }

  lemma ServerCounts(kind: Kind, env: Env, w: World, w': World, t: Tid, minted: Sid, s: Session, s': Session)
    requires Inv(kind, env, w) && t in w.inflight && w.inflight[t].Landed? && minted !in w.used
    requires TargetNow(w, w.inflight[t]) == Some(s)
    requires var sid := SidOf(w.inflight[t], minted);
             && t in w'.inflight && w'.inflight[t].Owing? && w'.inflight[t].sid == sid
             && OthersSame(w, w', Some(t))
    requires |UserSeqs(s')| == |UserSeqs(s)| + 1 && |CoachSeqs(s')| == |CoachSeqs(s)|
    ensures var sid := SidOf(w.inflight[t], minted);
            && |CoachSeqs(s')| + Debts(w', sid) <= |UserSeqs(s')|
            && OwesNoMoreBut(w, w', sid)
  {
    NewDebt(w, w', t, SidOf(w.inflight[t], minted));
    assert TxnOk(kind, env, w, w.inflight[t]);
    if w.inflight[t].target.Inserted? {
      FreshIsOk(kind, s, w.inflight[t].req);
      NothingOwedToUnused(kind, env, w, minted);
    }
  }

  /** A committed server turn owes one reply more. */
  lemma NewDebt(w: World, w': World, t: Tid, sid: Sid)
    requires OthersSame(w, w', Some(t)) && t in w.inflight && w.inflight[t].Landed?
    requires t in w'.inflight && w'.inflight[t].Owing? && w'.inflight[t].sid == sid
    ensures Debts(w', sid) == Debts(w, sid) + 1 && OwesNoMoreBut(w, w', sid)
  {
    forall x ensures Debts(w', x) == Debts(w, x) + if OwesReply(w'.inflight[t], x) then 1 else 0 {
      assert !OwesReply(w.inflight[t], x);
      DebtsAfter(w, w', t, x);
    }
  }

  lemma NothingOwedToUnused(kind: Kind, env: Env, w: World, sid: Sid)
    requires TxnsOk(kind, env, w) && sid !in w.used
    ensures Debts(w, sid) == 0
  {
    forall u | u in w.inflight ensures !OwesReply(w.inflight[u], sid) {
      assert TxnOk(kind, env, w, w.inflight[u]);
    }
    assert Pending(w.inflight, sid) == {};
  }

  lemma ServerExposure(kind: Kind, env: Env, w: World, w': World, t: Tid)
    requires Inv(kind, env, w) && t in w.inflight && w.inflight[t].Landed? && Frame(kind, w, w', Some(t))
    ensures ExposureOk(kind, w', ExposedTo(w.inflight[t]))
  {
    var txn := w.inflight[t];
    assert TxnOk(kind, env, w, txn);
    if txn.target.Existing? {
      PastIsKept(kind, w, w', Some(t), txn.target.sid, txn.seen);
    } else {
      FreshIsOk(kind, txn.seen, txn.req);
    }
  }

  lemma ServerOwes(kind: Kind, env: Env, w: World, w': World, t: Tid, minted: Sid, cited: bool)
    requires Inv(kind, env, w) && t in w.inflight && w.inflight[t].Landed? && minted !in w.used
    requires t in w'.inflight && w'.inflight[t] == OwingAfter(w.inflight[t], minted, cited)
    requires var sid := SidOf(w.inflight[t], minted);
             && sid in w'.used && sid in w'.db && !AllClient(w'.db[sid].calls)
             && w'.db[sid].row.version == w.inflight[t].seen.row.version + 1
    ensures TxnOk(kind, env, w', w'.inflight[t])
  {
    var txn := w.inflight[t];
    assert TxnOk(kind, env, w, txn);
    if txn.target.Existing? {
      assert Transport(txn.seen.row);
    } else {
      FreshIsOk(kind, txn.seen, txn.req);
      assert Transport(txn.seen.row);
    }
  }

  // ---------------------------------------------------------------- the row that a server turn reflected

  lemma FollowUpFits(kind: Kind, env: Env, w: World, t: Tid)
    requires Inv(kind, env, w) && Enabled(env, w, FollowUp(t)) && (kind == OrderedRun ==> LowersNothing(w, FollowUp(t)))
    ensures var txn := w.inflight[t]; var s := w.db[txn.sid]; var s' := Followed(s, txn.pending.value);
            SessionOk(kind, s') && Evolves(kind, s, s') && CappedSession(env, s') && !AllClient(s.calls) && txn.sid in w.used
  {
    var txn := w.inflight[t];
    assert TxnOk(kind, env, w, txn);
    FollowUpKeepsSession(kind, w.db[txn.sid], txn.pending.value);
  }

  lemma FollowUpKeepsInv(kind: Kind, env: Env, w: World, t: Tid)
    requires Inv(kind, env, w) && Enabled(env, w, FollowUp(t)) && (kind == OrderedRun ==> LowersNothing(w, FollowUp(t)))
    ensures Inv(kind, env, Perform(env, w, FollowUp(t)))
  {
    var w', txn := Perform(env, w, FollowUp(t)), w.inflight[t];
    var s' := Followed(w.db[txn.sid], txn.pending.value);
    FollowUpFits(kind, env, w, t);
    FollowUpWrites(kind, w, w', t, s');
    DebtStays(w, w', t, txn.(pending := None));
    SwitchCounts(w.db[txn.sid], s');
    StillOwes(kind, env, w, w', t);
    WriteKeepsInv(kind, env, w, w', Some(t), txn.sid, s');
  }

  lemma FollowUpWrites(kind: Kind, w: World, w': World, t: Tid, s: Session)
    requires t in w.inflight && w.inflight[t].Owing? && w.inflight[t].sid in w.db && w.inflight[t].sid in w.used
    requires Free(w, t, w.inflight[t].sid) && Evolves(kind, w.db[w.inflight[t].sid], s)
    requires w'.inflight == w.inflight[t := w.inflight[t].(pending := None)]
    requires w'.used == w.used && w'.exposed == w.exposed && w'.db == w.db[w.inflight[t].sid := s]
    ensures Writes(kind, w, w', Some(t), w.inflight[t].sid, s) && Shows(kind, w, w')
  {
    assert w'.used == w.used + {w.inflight[t].sid};
  }

  /** A transaction that goes on owing the same reply. */
  lemma DebtStays(w: World, w': World, t: Tid, txn: Txn)
    requires t in w.inflight && w.inflight[t].Owing? && txn.Owing? && txn.sid == w.inflight[t].sid
    requires w'.inflight == w.inflight[t := txn]
    ensures forall x :: Debts(w', x) == Debts(w, x)
    ensures forall x :: OwesNoMoreBut(w, w', x)
  {
    PutLeavesOthers(w, w', t, txn);
    forall x ensures Debts(w', x) == Debts(w, x) {
      DebtsAfter(w, w', t, x);
    }
  }

  lemma StillOwes(kind: Kind, env: Env, w: World, w': World, t: Tid)
    requires TxnsOk(kind, env, w) && t in w.inflight && w.inflight[t].Owing?
    requires t in w'.inflight && w'.inflight[t] == w.inflight[t].(pending := None) && w'.used == w.used
    requires w.inflight[t].sid in w'.db ==> w.inflight[t].sid in w.db
                                            && w'.db[w.inflight[t].sid].calls == w.db[w.inflight[t].sid].calls
    ensures TxnOk(kind, env, w', w'.inflight[t])
  {
    assert TxnOk(kind, env, w, w.inflight[t]);
  }

  // ---------------------------------------------------------------- a posted (BYOK) turn

  lemma PostedFits(kind: Kind, env: Env, w: World, t: Tid)
    requires Inv(kind, env, w) && t in w.inflight && w.inflight[t].Posted? && w.inflight[t].placed.Some? && w.inflight[t].sid in w.db
    requires MayRecord(w.db[w.inflight[t].sid], w.inflight[t].seen.row, w.inflight[t].placed.value, w.inflight[t].turn)
    ensures var txn := w.inflight[t]; var s := w.db[txn.sid];
            && s.row == txn.seen.row && SessionOk(kind, s) && Lasting(txn.seen)
            && TurnFits(s, txn.seen, txn.placed.value, txn.turn)
            && CappedSession(env, RecordTurn(s, s.row, txn.placed.value, txn.turn))
  {
    var txn := w.inflight[t];
    assert TxnOk(kind, env, w, txn);
    var s := w.db[txn.sid];
    FreeMeansNext(s, txn.placed.value);
    PostedStaysCapped(env, txn.seen, s, txn.placed.value, txn.turn);
  }

  /** The quota was checked against the transcript at the lock; in a session judged only in the
      browser the transcript has not grown since, so two more messages end at most one over the cap. */
  lemma PostedStaysCapped(env: Env, seen: Session, s: Session, at: nat, turn: Turn)
    requires Transcript(seen) && ClientTurnsPair(seen) && SameState(seen, s) && UnderQuota(env, seen.row.user, seen)
    requires Transcript(s) && ClientTurnsPair(s) && at == NextSeq(s) && !IsReplay(s, turn.turnId) && turn.reply.Some?
    ensures CappedSession(env, RecordTurn(s, s.row, at, turn))
  {
    var t := RecordTurn(s, s.row, at, turn);
    RecordTurnWrites(s, s.row, at, turn);
    TurnKeepsTranscript(s, s.row, t, at, turn);
    NextSeqIsCount(seen);
    if AllClient(t.calls) { EarlierCallsAreClients(s.calls, t.calls); }
  }

  lemma EarlierCallsAreClients(a: seq<Call>, b: seq<Call>)
    requires a <= b && AllClient(b)
    ensures AllClient(a)
  {
    assert forall i :: 0 <= i < |a| ==> a[i] == b[i];
  }

  lemma CommitPostedKeepsInv(kind: Kind, env: Env, w: World, w': World, t: Tid)
    requires Inv(kind, env, w) && t in w.inflight && w.inflight[t].Posted? && w.inflight[t].placed.Some? && w.inflight[t].sid in w.db
    requires MayRecord(w.db[w.inflight[t].sid], w.inflight[t].seen.row, w.inflight[t].placed.value, w.inflight[t].turn)
    requires w'.inflight == Drop(w, t).inflight && w'.used == w.used && w'.exposed == w.exposed
    requires var txn := w.inflight[t];
             w'.db == w.db[txn.sid := RecordTurn(w.db[txn.sid], txn.seen.row, txn.placed.value, txn.turn)]
    ensures Inv(kind, env, w')
  {
    var txn := w.inflight[t];
    PostedResult(kind, env, w, t);
    DropDebts(w, w', t, txn.sid);
    DroppedWriteKeepsInv(kind, env, w, w', t, txn.sid, RecordTurn(w.db[txn.sid], txn.seen.row, txn.placed.value, txn.turn));
  }

  lemma PostedResult(kind: Kind, env: Env, w: World, t: Tid)
    requires Inv(kind, env, w) && t in w.inflight && w.inflight[t].Posted? && w.inflight[t].placed.Some? && w.inflight[t].sid in w.db
    requires MayRecord(w.db[w.inflight[t].sid], w.inflight[t].seen.row, w.inflight[t].placed.value, w.inflight[t].turn)
    ensures var txn := w.inflight[t]; var s := w.db[txn.sid];
            var s' := RecordTurn(s, txn.seen.row, txn.placed.value, txn.turn);
            && SessionOk(kind, s') && Evolves(kind, s, s') && CappedSession(env, s') && Holds(txn, txn.sid)
            && |UserSeqs(s')| == |UserSeqs(s)| + 1
            && |CoachSeqs(s')| <= |CoachSeqs(s)| + 1
  {
    var txn := w.inflight[t];
    PostedFits(kind, env, w, t);
    TurnResult(kind, w.db[txn.sid], txn.seen, txn.placed.value, txn.turn);
  }

  /** A transaction that ends takes its debt with it. */
  lemma DropDebts(w: World, w': World, t: Tid, sid: Sid)
    requires w'.inflight == Drop(w, t).inflight && t in w.inflight
    ensures OthersSame(w, w', Some(t)) && t !in w'.inflight
    ensures Debts(w', sid) == Debts(w, sid) - if OwesReply(w.inflight[t], sid) then 1 else 0
    ensures OwesNoMoreBut(w, w', sid)
  {
    DebtsAfter(w, w', t, sid);
    OwesNoMoreAfter(w, w', t);
  }

  // ---------------------------------------------------------------- a coach reply, a model switch

  lemma ReplyCounts(s: Session, t: Session, at: nat, m: Message)
    requires at !in s.messages && t.messages == s.messages[at := m] && m.role == Coach
    ensures |UserSeqs(t)| == |UserSeqs(s)| && |CoachSeqs(t)| == |CoachSeqs(s)| + 1
  {
    InsertCounts(s.messages, at, m, User);
    InsertCounts(s.messages, at, m, Coach);
  }

  lemma SwitchCounts(s: Session, t: Session)
    requires t.messages == s.messages
    ensures UserSeqs(t) == UserSeqs(s) && CoachSeqs(t) == CoachSeqs(s)
  {
  }

  lemma ReplyFits(kind: Kind, env: Env, w: World, t: Tid)
    requires Inv(kind, env, w) && t in w.inflight && w.inflight[t].Replying? && w.inflight[t].sid in w.db
    requires w.inflight[t].at !in w.db[w.inflight[t].sid].messages
    ensures var txn := w.inflight[t]; var s := w.db[txn.sid];
            && txn.at == NextSeq(s) && txn.reply.role == Coach && txn.reply.turnId == None
            && SessionOk(kind, InsertMessage(s, txn.at, txn.reply)) && Evolves(kind, s, InsertMessage(s, txn.at, txn.reply))
            && CappedSession(env, InsertMessage(s, txn.at, txn.reply)) && SameState(s, InsertMessage(s, txn.at, txn.reply))
  {
    var txn := w.inflight[t];
    assert TxnOk(kind, env, w, txn);
    FreeMeansNext(w.db[txn.sid], txn.at);
    ReplyKeepsSession(kind, w.db[txn.sid], txn.at, txn.reply);
  }

  lemma CommitReplyKeepsInv(kind: Kind, env: Env, w: World, w': World, t: Tid)
    requires Inv(kind, env, w) && t in w.inflight && w.inflight[t].Replying? && w.inflight[t].sid in w.db
    requires MayInsert(w.db[w.inflight[t].sid], w.inflight[t].at, w.inflight[t].reply)
    requires w'.inflight == Drop(w, t).inflight && w'.used == w.used && w'.exposed == w.exposed
    requires var txn := w.inflight[t];
             w'.db == w.db[txn.sid := InsertMessage(w.db[txn.sid], txn.at, txn.reply)]
    ensures Inv(kind, env, w')
  {
    var txn := w.inflight[t];
    var s' := InsertMessage(w.db[txn.sid], txn.at, txn.reply);
    ReplyFits(kind, env, w, t);
    DropDebts(w, w', t, txn.sid);
    ReplyCounts(w.db[txn.sid], s', txn.at, txn.reply);
    DroppedWriteKeepsInv(kind, env, w, w', t, txn.sid, s');
  }

  /** A committing transaction that then ends. */
  lemma DroppedWriteKeepsInv(kind: Kind, env: Env, w: World, w': World, t: Tid, sid: Sid, s: Session)
    requires Inv(kind, env, w) && t in w.inflight && sid in w.db
    requires w'.inflight == Drop(w, t).inflight && w'.used == w.used && w'.exposed == w.exposed && w'.db == w.db[sid := s]
    requires SessionOk(kind, s) && Evolves(kind, w.db[sid], s) && CappedSession(env, s)
    requires SameState(w.db[sid], s) || Holds(w.inflight[t], sid)
    requires |CoachSeqs(s)| + Debts(w', sid) <= |UserSeqs(s)| && OwesNoMoreBut(w, w', sid)
    ensures Inv(kind, env, w')
  {
    if Holds(w.inflight[t], sid) { HeldIsFree(w, t, sid); }
    DroppedWrites(kind, w, w', t, sid, s);
    WriteKeepsInv(kind, env, w, w', Some(t), sid, s);
  }

  lemma DroppedWrites(kind: Kind, w: World, w': World, t: Tid, sid: Sid, s: Session)
    requires t in w.inflight && sid in w.db && w.db.Keys <= w.used
    requires w'.inflight == Drop(w, t).inflight && w'.used == w.used && w'.exposed == w.exposed && w'.db == w.db[sid := s]
    requires Evolves(kind, w.db[sid], s) && (SameState(w.db[sid], s) || Free(w, t, sid))
    ensures Writes(kind, w, w', Some(t), sid, s) && Shows(kind, w, w') && t !in w'.inflight
  {
    assert sid in w.db.Keys;
    assert w'.used == w.used + {sid};
  }

  lemma SwitchFits(kind: Kind, env: Env, w: World, t: Tid, now: int)
    requires Inv(kind, env, w) && t in w.inflight && w.inflight[t].Switching? && w.inflight[t].sid in w.db
    ensures var txn := w.inflight[t]; var s := w.db[txn.sid]; var s' := SetCoachModel(s, txn.seen.row.version, txn.entry, now);
            && s.row == txn.seen.row && s.row.status == Active
            && SessionOk(kind, s') && Evolves(kind, s, s') && CappedSession(env, s')
  {
    var txn := w.inflight[t];
    assert TxnOk(kind, env, w, txn);
    SwitchKeepsSession(kind, w.db[txn.sid], txn.entry, now);
  }

  lemma CommitSwitchKeepsInv(kind: Kind, env: Env, w: World, w': World, t: Tid, now: int)
    requires Inv(kind, env, w) && t in w.inflight && w.inflight[t].Switching? && w.inflight[t].sid in w.db
    requires w'.inflight == Drop(w, t).inflight && w'.used == w.used && w'.exposed == w.exposed
    requires var txn := w.inflight[t];
             w'.db == w.db[txn.sid := SetCoachModel(w.db[txn.sid], txn.seen.row.version, txn.entry, now)]
    ensures Inv(kind, env, w')
  {
    var txn := w.inflight[t];
    SwitchFits(kind, env, w, t, now);
    var s' := SetCoachModel(w.db[txn.sid], txn.seen.row.version, txn.entry, now);
    DropDebts(w, w', t, txn.sid);
    SwitchCounts(w.db[txn.sid], s');
    DroppedWriteKeepsInv(kind, env, w, w', t, txn.sid, s');
  }

  // ---------------------------------------------------------------- inserts and deletes

  lemma InsertKeepsInv(kind: Kind, env: Env, w: World, w': World, minted: Sid, s: Session)
    requires Inv(kind, env, w) && minted !in w.used
    requires w'.inflight == w.inflight && w'.exposed == w.exposed
    requires w'.db == w.db[minted := s] && w'.used == w.used + {minted}
    requires SessionOk(kind, s) && s.messages == map[] && !HasActive(w.db, s.row.user, s.row.problem)
    ensures Inv(kind, env, w')
  {
    assert minted !in w.db.Keys;
    NothingOwedToUnused(kind, env, w, minted);
    assert CoachSeqs(s) == {};
    assert Debts(w', minted) == 0;
    assert Writes(kind, w, w', None, minted, s);
    assert Shows(kind, w, w');
    WriteKeepsInv(kind, env, w, w', None, minted, s);
  }

  lemma NewSessionIsInserted(kind: Kind, env: Env, w: World, w': World, minted: Sid, user: string, problem: string, origin: string,
                             track: Track, rubric: string, entry: Entry, now: int)
    requires Inv(kind, env, w) && minted !in w.used && !HasActive(w.db, user, problem)
    requires ByKey(Some(entry.key)) == Some(entry)
    requires w'.inflight == w.inflight && w'.exposed == w.exposed
    requires w'.db == CreateSession(w.db, minted, user, problem, origin, track, rubric, entry, now)
    requires w'.used == w.used + {minted}
    ensures Inv(kind, env, w')
  {
    NewSessionOk(user, problem, origin, track, rubric, Some(entry.key), TransportOf(entry), now);
    InsertKeepsInv(kind, env, w, w', minted,
                   NewSession(user, problem, origin, track, rubric, Some(entry.key), TransportOf(entry), now));
  }

  lemma EraseIsFramed(kind: Kind, w: World, w': World, t: Tid, doomed: set<Sid>)
    requires Exclusive(w) && t in w.inflight && forall d :: d in doomed ==> Holds(w.inflight[t], d)
    requires w'.db == Without(w.db, doomed) && w'.inflight == Drop(w, t).inflight && w'.used == w.used
    ensures Frame(kind, w, w', Some(t))
  {
    forall sid | sid in w.db && sid in w'.db ensures Evolves(kind, w.db[sid], w'.db[sid]) {
      EvolvesIsReflexive(kind, w.db[sid]);
    }
  }

  lemma EraseKeepsInv(kind: Kind, env: Env, w: World, w': World, t: Tid, doomed: set<Sid>)
    requires Inv(kind, env, w) && t in w.inflight && forall d :: d in doomed ==> Holds(w.inflight[t], d)
    requires w'.db == Without(w.db, doomed) && w'.inflight == Drop(w, t).inflight
    requires w'.used == w.used && w'.exposed == w.exposed
    ensures Inv(kind, env, w')
  {
    EraseIsFramed(kind, w, w', t, doomed);
    FramedStepKeepsTxns(kind, env, w, w', Some(t));
    ExposuresAreKept(kind, w, w', Some(t));
    EraseKeepsCounts(w, w', t, doomed);
  }

  lemma EraseKeepsCounts(w: World, w': World, t: Tid, doomed: set<Sid>)
    requires RepliesCounted(w) && t in w.inflight
    requires w'.db == Without(w.db, doomed) && w'.inflight == Drop(w, t).inflight
    ensures RepliesCounted(w')
  {
    forall sid | sid in w'.db ensures |CoachSeqs(w'.db[sid])| + Debts(w', sid) <= |UserSeqs(w'.db[sid])| {
      DropDebts(w, w', t, sid);
      assert w'.db[sid] == w.db[sid];
    }
  }

  lemma CommitResetKeepsInv(kind: Kind, env: Env, w: World, w': World, t: Tid, minted: Sid, rubric: string, hasLocal: bool, now: int)
    requires Inv(kind, env, w) && t in w.inflight && w.inflight[t].Resetting? && w.inflight[t].deleting.Some? && minted !in w.used
    requires var txn := w.inflight[t]; var row := txn.seen.row; var rest := Without(w.db, txn.deleting.value);
             && !HasActive(rest, row.user, row.problem)
             && w'.db == CreateSession(rest, minted, row.user, row.problem, row.origin, row.track, rubric,
                                       CarriedModel(row.model, TierOf(env, row.user), hasLocal), now)
    requires w'.inflight == Drop(w, t).inflight && w'.used == w.used + {minted} && w'.exposed == w.exposed
    ensures Inv(kind, env, w')
  {
    var txn := w.inflight[t];
    var row := txn.seen.row;
    var mid := Drop(w, t).(db := Without(w.db, txn.deleting.value));
    EraseKeepsInv(kind, env, w, mid, t, txn.deleting.value);
    ChoicesAreCatalogEntries(row.model, TierOf(env, row.user), hasLocal);
    NewSessionIsInserted(kind, env, mid, w', minted, row.user, row.problem, row.origin, row.track, rubric,
                         CarriedModel(row.model, TierOf(env, row.user), hasLocal), now);
  }
}
