# A verified model of cortex-tutor

cortex-tutor coaches a learner through a problem, one step of a ladder at a time. A gate model judges
each answer, a state machine advances on a pass, and a store keeps the session, its transcript, a gate
table and an append-only audit log. A grounding server serves the lesson texts and withholds worked
solutions. This project models these parts in Dafny and proves what they are for.

## What is modelled

**The pure pipeline.** `Steps`, `Verdicts` and `Fsm` are the two ladders and the transition function.
`Gate` is validation, the one repair and the fail-safe over arbitrary JSON objects, `GateReadings` says field
by field what a verdict holds of the object it came from; `Byok` is the second route into the same repair. `Catalog` ties a model choice to its transport, `Context` decides what enters
a prompt.

**The store and its transactions.** `Store` holds the tables and the repository's statements as a class
`Database` with a committed and a working copy. `Turns` holds every transaction as a method over that
class, each proved against a function from store to store. `TurnLaws` proves what those functions
promise: all or nothing, at most once, never further than the gate let them. `Quotas` is the message cap.

**The laws of a session.** `SessionLaws` states them, `LastingLaws` and `ExactLaws` prove that every write
keeps them, and `SessionFacts` says what they mean. The lasting laws (transcript, transport, audit log,
how a step was earned) survive every write. The exact laws (the row is the fold of the log, the gate table
its summary) rest on the version check.

**Concurrency.** `Protocol` is a state machine in which the transactions are split at the points where
READ COMMITTED lets others in: unlocked reads, row locks, the sequence number, the unique indexes and the
version check at commit. A row that was read without a lock is used as it was then, however old: the
server turn's locked read of the addressed session yields the attributes its ORM session cached before
the lock (tutor/routes/sessions.py:371, tutor/orchestration/turn.py:68). `ProtocolLaws`, `ProtocolSteps`,
`ProtocolCommits` and `ProtocolRuns` prove one invariant of every reachable world; `ProtocolGrowth`
relates any two moments of a run; `Serialisability` compares the store with the committed transactions
run one by one; `Safety`, `Reposts` and `GateRuns` draw the results together; `Ownership` says whose requests write and read what,
`Expiry` when a session lapses; `Anomalies` and `LateWrites`
hold the concrete runs that show why the conditions are there.

**The write that follows a server turn.** After its commit a turn reflects the new state on the row its ORM
session still holds (tutor/orchestration/turn.py:170-176). The session factory does not expire rows on
commit and flushes before queries (tutor/persistence/db.py:20), so the history query of the route flushes
that row (tutor/routes/sessions.py:417), and the commit of the grounding reference keeps the flush when the
lesson has a citation (tutor/routes/sessions.py:432-440). SQLAlchemy 2, which the lock file pins, has by
then refreshed the held columns from the guarded UPDATE, so five of the six assignments change nothing and
`version + 1` becomes two more than the version the turn read. What is written is that version alone,
without comparing any. `Protocol` has this write as the action `FollowUp`. Results
about runs come in three kinds, and the invariant is proved for all three at once, with a parameter `kind`:
- for every run;
- for the runs in which no server turn loses what another did to its row (`NothingIsLost`): the row agrees
  with its log throughout a run if and only if the run is one of these (`ProtocolRuns.FoldsThroughoutIff`),
  and so it is with serialisability, up to deletes (`Serialisability.RunsAreSerialisableIff`);
- for the runs in which no reflected row lowers a version (`NothingLowered`), which are exactly those in
  which versions never fall (`ProtocolGrowth.VersionsNeverFallIff`); they lose nothing.

**Around it.** `RateLimit` is the per-key limiter over traces of a monotonic clock. `Stream` is the event
stream of a turn. `Slug`, `Corpus`, `CorpusIndex`, `Splitter`, `Search` and `Tools` are the grounding
server: names to slugs, the directory walk, the lookup, the solution splitter, BM25, and the tools that
consume them. `FileNames` says what a name means by the pieces it is written in, `Solutions` what of a lesson is
withheld and what normalising does to a text, `Relevance` what the BM25 score rewards. `Builtins` holds the Python built-ins these lean on, `Wrappers` the option and result types.

## Where the code and its documentation part

- The version is documented as an optimistic-concurrency token that only guarded updates move. The write
  that follows a grounded turn moves it unguarded: one turn leaves version two
  (`LateWrites.OneGroundedTurnCountsTwice`), the version can fall (`LateWrites.AFollowUpCanLowerTheVersion`),
  and a turn can then overwrite another's state (`LateWrites.ALoweredVersionLosesAnUpdate`). The flush
  alone loses nothing (`LateWrites.LoweringAloneLosesNothing`); what is lost is lost at the commit of a
  turn that read an older row of the same version, exactly when `NothingLost` fails of the two rows and the
  verdict (`ExactLaws.TurnFoldsIff`, `ProtocolRuns.ServerCommitFoldsIff`). The turns of
  tests/test_turn_integration.py close their session without the commit that follows, so their version
  is one.
- Serialisability in commit order also fails for a session that commits between a DELETE statement and the
  COMMIT of a reset, clear-all or purge. `Serialisability.CommitIsSerialIff` gives the exact condition,
  `Anomalies.ClearAllCanMissASession` a run.
- Re-posting a turn to the server is promised to replay. After the turn that completes the session it is
  refused instead, because the row is looked up among active sessions only
  (`TurnLaws.ServerRepostWritesNothing`), and later it can even be recorded again, in another session of
  the same problem: `Reposts.ServerReposts` says exactly when, `Reposts.ACompletedTurnIsRecordedAgain` is
  an example of both.
- byok-record promises that a re-post returns the recorded reply. The message quota is checked first, so at
  the cap it is refused (`Reposts.TheQuotaHidesAReplay`); `Reposts.ByokRecordReplaysIff` says exactly when
  it replays.
- The comment in submit_turn says a session of the other transport never reaches the server's key. The
  row a turn lands on is found by user and problem, so it can be another session than the one checked:
  `Safety.ServerKeySpentOnlyAcross` says exactly when the key is spent,
  `Anomalies.ATurnCanLandAcrossTransports` is a run.
- The limiter is documented as a fixed window; the code slides it. Its bound holds for half-open
  intervals; `RateLimit.ClosedWindowHoldsMoreIff` says exactly when a closed one holds more.
- The browser route ignores unknown fields of a verdict while the server route forbids them
  (`Byok.UnknownFieldsAreIgnoredFromClients`).
- A comment in the tests says reset abandons the old session; the route deletes it.
- A related-chapters maximum of zero still yields one hit (`Tools.NoneWantedIff`).
- Text after the end of a nested details block is shown (`Splitter.NestedBlocksLeak`); the corpus
  convention of flat blocks is what prevents it.

## Model

| member | source | states |
|---|---|---|
| Steps.LaddersPartition | tutor/domain/steps.py:46-82 | every step lies on the ladder of its track and on no other |
| Steps.LadderPosition | tutor/domain/steps.py:85-99 | position and step determine each other, and the next step is the next position |
| Fsm.ProgressClosedForm | tutor/domain/fsm.py:54-87 | over every run the step and status depend only on the number of passes |
| Fsm.StaysOnLadder | tutor/domain/steps.py:70-99 | a run never leaves its ladder |
| Fsm.HintLadderClosedForm | tutor/domain/fsm.py:54-87 | attempts are the retries since the last pass, the hint level the capped maximum of their count and the levels they asked for |
| Fsm.HintLadderBounds | tutor/domain/fsm.py:54-87 | the hint level stays in 0..3, is maxed by the third retry, never falls within a step, and is untouched by questions and off-topic turns |
| Fsm.OnlyAPassAdvances | tutor/domain/fsm.py:54-74 | an active state advances if and only if the verdict is a pass, by one step, and nothing else moves the step |
| Fsm.ReloadCommutes | tutor/orchestration/turn.py:92-98 | dropping the scores at every reload changes nothing else the machine computes |
| Fsm.SameNextRowIff | tutor/domain/fsm.py:54-87 | when exactly a verdict leads from two states of one ladder to the same row |
| Gate.Coerce | tutor/orchestration/gate.py:154-192 | the branches and the loop compute the field-by-field repair, or raise where the code raises |
| Gate.Evaluate | tutor/orchestration/gate.py:106-152 | the judgement of every provider answer |
| Gate.GateNeverGrants | tutor/orchestration/gate.py:125-152 | a pass needs a returned object whose verdict is the string "pass" and whose keys are all known |
| Gate.GateAnswers | tutor/orchestration/gate.py:125-171 | the gate yields a verdict unless the repair raises, and exactly which objects make it raise |
| Gate.GateKeepsOrWithholds | tutor/orchestration/gate.py:143-166 | a verdict is the one the model named, or a retry |
| Gate.SnapIsNearestTiesDown | tutor/orchestration/gate.py:166-173 | the snapped score is the nearest bucket, the lower one on a tie |
| Gate.SnapIsMonotone | tutor/orchestration/gate.py:166-173 | a larger score never snaps lower |
| Gate.SnapWithinFive | tutor/orchestration/gate.py:166-173 | within five on 0..100 |
| Gate.RepairIsIdempotent | tutor/orchestration/gate.py:154-182 | repairing twice is repairing once |
| Gate.RepairKeepsValid | tutor/orchestration/gate.py:143-182 | a valid object repairs to an object that validates to the same verdict |
| Gate.RepairIsIdentityOnValid | tutor/orchestration/gate.py:154-182 | and is itself unchanged by the repair |
| Gate.RepairSucceedsWhen | tutor/orchestration/gate.py:143-192 | exactly which objects the one repair rescues |
| GateReadings.ValidatesIff | tutor/domain/verdict.py:40-47 | an object is accepted as a verdict if and only if each field of the verdict is the one of the object, or its default, and no key is unknown |
| GateReadings.ValidateUndoesWrite | tutor/domain/verdict.py:40-47 | every verdict, written as an object, is validated to itself, strictly and leniently |
| GateReadings.JudgementReads | tutor/orchestration/gate.py:143-192 | field by field what each verdict of the gate holds: what the object says when valid, the nearest bucket, the listed string and the clamped level when coerced, the fixed hint when it fails safe |
| Byok.ValidatorsAgree | tutor/orchestration/byok.py:59-79 | over the known fields the browser route accepts, refuses and raises exactly when the server route is valid or coerced, fails safe, and raises, with the same verdict |
| Byok.SnakeUndoesCamel | tutor/orchestration/byok.py:64-72 | the renaming of the posted fields loses none of them |
| Byok.SchemaNamesAreReadToo | tutor/orchestration/byok.py:64-72 | the schema's own names are read as well, and where a post has both the wire's name wins |
| Byok.UnknownFieldsAreIgnoredFromClients | tutor/orchestration/byok.py:59-79 | an unknown field changes nothing in a post, and forbids the server's object |
| Byok.PostEscapesIff | tutor/routes/sessions.py:595-598 | when exactly a posted verdict raises what the route does not turn into a 422 |
| Catalog.ChoicesAreCatalogEntries | tutor/models/catalog.py:177-193 | an accepted or carried choice is a catalog entry open to the tier, with the transport its key names |
| Catalog.CatalogIs | tutor/models/catalog.py:71-154 | which keys the catalog has, each with its own entry, provider and tiers |
| Catalog.ChosenIff | tutor/models/catalog.py:177-193 | a requested key is chosen exactly when the catalog has it, the tier may use it and a local model is there if it needs one, and then it is that key; no request means the tier's default |
| Catalog.CarriedIff | tutor/routes/sessions.py:263-268 | a reset keeps the model that may still be chosen and else takes the tier's default |
| Catalog.ResolutionIs | tutor/models/catalog.py:204-237 | case by case which model answers and how the call is funded |
| Catalog.ServerKeySpentIff | tutor/models/catalog.py:202-237 | when exactly the server's key funds a coach call |
| Context.BuildProblemContext | tutor/grounding/context.py:29-54 | the assembled context, section by section |
| Context.SolutionEntersContextIff | tutor/grounding/context.py:15-54 | the worked solution can influence the context if and only if the step is a code step |
| Context.SectionPlaces | tutor/grounding/context.py:35-54 | which section stands where among the parts, under which heading |
| Context.ContextHolds | tutor/grounding/context.py:35-54 | title or id, summary, content or statement, citation and, at a code step, the solution all occur in the context |
| Context.FallbackNamesProblem | tutor/grounding/context.py:22-33 | without grounding the context still names the problem |
| Store.Database.Create | tutor/persistence/repo.py:90-130 | inserts a fresh row, with this owner, model and expiry, unless one is active for the user and problem, and keeps the one-active index |
| Store.Database.AppendMessage | tutor/persistence/repo.py:133-171 | inserts at the maximum plus one, refusing a turn id already present |
| Store.Database.SaveStateOf | tutor/persistence/repo.py:233-264 | succeeds exactly on an equal version, raises it by one, writes the state, the turn and an expiry two days ahead, and touches neither the model nor any child row |
| Store.Database.SetCoachModelOf | tutor/persistence/repo.py:196-213 | likewise for the model: the state and the child rows stay, the expiry slides, and the transport flag fits the model |
| Store.Database.FlushVersion | tutor/orchestration/turn.py:170-176 | the flush of a reflected row writes its version whatever the version is, or fails when the row is gone |
| Store.Database.Upsert | tutor/persistence/repo.py:267-300 | the updated columns of the gate row, its first judge and creation time kept, and every other gate row untouched |
| Store.Database.Delete | tutor/persistence/repo.py:216-230 | exactly the selected sessions go, with all their child rows; the others are untouched |
| Turns.ApplyTurn | tutor/orchestration/turn.py:53-193 | the server turn as a transaction equals its function of the committed store, for every stale cached row and every gate answer |
| Turns.ApplyByokTurn | tutor/orchestration/turn.py:196-322 | the browser turn likewise |
| Turns.PostByokTurn | tutor/routes/sessions.py:602-640 | byok-record: owner, transport and quota are checked before the turn runs, and what each refusal leaves |
| Turns.FollowUp | tutor/routes/sessions.py:412-440 | the write that follows a server turn, kept only when the lesson has a citation, and its failure when the row is gone |
| Turns.RecordCoachReply | tutor/orchestration/turn.py:325-332 | one coach message is appended, with this step, content and model and no turn id, or nothing happens when the session is gone |
| Turns.CreateOrResume | tutor/routes/sessions.py:195-222 | resumes the active session or creates one, and which |
| Turns.ResetSession | tutor/routes/sessions.py:251-284 | the store after a reset, unchanged when the row is not the caller's |
| Turns.ClearAll | tutor/routes/sessions.py:287-295 | a session stays if and only if it is another user's; the number is how many went |
| Turns.PurgeExpired | tutor/persistence/purge.py:17-22 | a session stays if and only if the time is not past its expiry; the number is how many went |
| Turns.ChangeModel | tutor/routes/sessions.py:298-333 | succeeds exactly on the caller's active session, and the store after it |
| TurnLaws.TurnsAreAtomic | tutor/orchestration/turn.py:81-168 | refused, stale and replayed turns leave every table alone; a recorded one adds its messages, gate row, audit row and state together to one session, each field of them the answer's, the reply's or the verdict's; when it is recorded, and what the caller is told |
| TurnLaws.ServerTurnsAreAtomic | tutor/orchestration/turn.py:68-193 | for every cached row: when the turn is replayed and when recorded; what is recorded is computed from the row that was held; the lazily created row is rolled back with a refusal |
| TurnLaws.ByokRepostReplays | tutor/orchestration/turn.py:215-224 | straight after a browser turn a re-post replays and writes nothing, also after completion |
| Reposts.ByokRepostsReplay | tutor/orchestration/turn.py:215-224 | the same at every later moment of every run at which the session exists |
| Reposts.ByokRecordReplaysIff | tutor/routes/sessions.py:602-640 | a re-post to byok-record never writes, and replays if and only if the session is still a browser session and its owner not capped or under the cap |
| Reposts.TheQuotaHidesAReplay | tutor/routes/sessions.py:608-635 | at the cap the re-post of a recorded turn is refused |
| TurnLaws.ServerRepostWritesNothing | tutor/orchestration/turn.py:68-101 | straight after a server turn a re-post never writes, whatever rows were cached, and replays if and only if the turn did not complete the session |
| Reposts.ServerReposts | tutor/orchestration/turn.py:68-101 | at every later moment: it replays while the session is active, and exactly when it is recorded again after completion |
| Reposts.ACompletedTurnIsRecordedAgain | tutor/orchestration/turn.py:68-101 | after completion the re-post of the last answer is refused and that of the first is recorded again |
| TurnLaws.ServerAdvancesOnlyOnRawPass | tutor/orchestration/turn.py:118-168 | no server turn advances without a raw "pass" from the gate model, whatever row it had cached |
| GateRuns.PassesAreRawPasses | tutor/orchestration/turn.py:118-168 | over every run each passing audit row of the server's gate comes from a raw "pass" of its model |
| TurnLaws.ResetStartsOver | tutor/routes/sessions.py:251-284 | after a reset exactly one fresh session remains for the user and problem, with an allowed model, and all others are untouched |
| TurnLaws.CreateBegins | tutor/routes/sessions.py:195-222 | creating adds one session, as chosen and empty, and changes no other |
| Expiry.ExpiryFollowsLastTouch | tutor/persistence/repo.py:196-264 | in every run a session expires two days after it was last created, answered or switched |
| Expiry.PurgeSelectsIff | tutor/persistence/purge.py:17-22 | a purge selects a session exactly when more than two days have passed since then |
| Expiry.PurgesSpareTheLive | tutor/persistence/purge.py:17-22 | no purge that commits removes a session touched within the two days before it |
| LastingLaws.TurnKeepsLasting | tutor/orchestration/turn.py:92-168 | a turn keeps the lasting laws, whatever became of the row it was computed from |
| LastingLaws.FollowUpKeepsLasting | tutor/orchestration/turn.py:170-176 | so does the flush of a reflected row, to any version |
| ExactLaws.TurnKeepsSession | tutor/orchestration/turn.py:92-168 | a turn that writes what it would write from the row as it is keeps every law of a session, and the session only grows |
| ExactLaws.TurnFoldsIff | tutor/orchestration/turn.py:92-168 | after a turn computed from another row, the row is the fold of the log if and only if nothing is lost |
| ExactLaws.SameRecordIff | tutor/orchestration/turn.py:92-168 | and the turn writes what it would have written from the row as it is under the same condition |
| ExactLaws.ReplyKeepsSession | tutor/orchestration/turn.py:325-332 | so does a coach reply, which changes nothing but the transcript |
| ExactLaws.SwitchKeepsSession | tutor/persistence/repo.py:196-213 | so does a model switch |
| ExactLaws.FollowUpKeepsOrderIff | tutor/routes/sessions.py:417-440 | the flush of a reflected row always keeps the exact laws, and keeps the order of versions if and only if it lowers none |
| SessionFacts.CodeStepsFollowFourPasses | tutor/domain/fsm.py:60-74 | a session at a code step has passes at clarify, examples, approach and plan in its log and its gate table |
| ProtocolCommits.VersionMatchMeansUnchanged | tutor/persistence/repo.py:233-264 | where versions are in order, a version that matches at commit means row, log and gate table are the ones that were read |
| ProtocolCommits.FreeMeansNext | tutor/persistence/repo.py:133-171 | a sequence number taken earlier and still free is the next one |
| ProtocolRuns.StepKeepsInv | tutor/routes/sessions.py:365-513 | every step of every transaction, the write that follows a turn included, keeps the invariant; with the exact laws unless a turn loses something; with the order of versions unless a flush lowers one |
| ProtocolRuns.ServerCommitFoldsIff | tutor/orchestration/turn.py:155-168 | a server turn that commits leaves rows and logs in agreement if and only if it loses nothing |
| ProtocolRuns.FollowUpKeepsInvIff | tutor/routes/sessions.py:417-440 | the write that follows a turn leaves versions in order if and only if it lowers none |
| ProtocolRuns.RunKeepsInv | tutor/routes/sessions.py:175-640 | the invariant holds after every interleaving, with the exact laws after those in which nothing is lost, with the order of versions after those in which none is lowered |
| ProtocolRuns.FoldsThroughoutIff | tutor/orchestration/turn.py:92-168 | throughout a run every row is the fold of its log if and only if no server turn of the run loses anything |
| ProtocolRuns.OrderedRunsLoseNothing | tutor/persistence/repo.py:233-264 | where no version is lowered nothing is lost |
| ProtocolGrowth.RunsAreSteady | tutor/persistence/repo.py:196-264 | between any two moments of a run sessions only grow and deleted ids never return; and versions are in order where none is lowered |
| ProtocolGrowth.VersionsNeverFallIff | tutor/persistence/repo.py:196-264 | versions never fall in a run if and only if no reflected row lowers one |
| ProtocolGrowth.RunsReadWhatWasCommitted | tutor/routes/sessions.py:371-405 | whatever a transaction holds as read, or showed a model, was committed at some moment of the run |
| Serialisability.LandedTurnIsSerialIff | tutor/orchestration/turn.py:68-168 | in every run a server turn does what it would have done alone on the store it commits to if and only if it loses nothing |
| Serialisability.CommitIsSerialIff | tutor/persistence/repo.py:196-264 | in every run a commit equals its serial execution if and only if no row slipped past its DELETE and a server turn loses nothing |
| Serialisability.OnlyCompletedSlipsPastReset | tutor/routes/sessions.py:268-283 | past a reset only a completed session can slip |
| Serialisability.RunsAreSerialisableIff | tutor/orchestration/turn.py:68-168 | the store is throughout a run that of the committed transactions run one by one if and only if no row slips past a DELETE and no server turn loses anything |
| Serialisability.OrderedRunsAreSerialisable | tutor/orchestration/turn.py:68-168 | so it is where no row slips and no version is lowered |
| Safety.RowRefinesLog | tutor/orchestration/turn.py:92-168 | where nothing is lost the row is the fold of the transition over the session's audit log |
| Safety.StepsAreEarned | tutor/domain/fsm.py:57-74 | in every run each step behind a session has a pass in its audit log |
| Safety.ProgressIsCounted | tutor/domain/fsm.py:57-74 | where nothing is lost pass rows equal the step index, or the ladder length once completed; where no version is lowered it equals turns plus switches plus the reflected rows that raised it |
| Safety.UncitedRunsCountExactly | tutor/persistence/repo.py:196-264 | in runs without citations the version equals turns plus switches |
| Safety.GateTableSummarisesLog | tutor/persistence/repo.py:267-300 | where nothing is lost gate rows summarise the log, follow the ladder, and recover the scores |
| Safety.HintLevelIsClosedForm | tutor/domain/fsm.py:54-87 | where nothing is lost the stored hint level has its closed form |
| Safety.TranscriptIsConserved | tutor/persistence/repo.py:133-171 | in every run sequence numbers are 1..n, user messages and audit rows are in bijection, no turn id is recorded twice |
| Safety.RepliesAndCap | tutor/quotas.py:39-55 | coach messages never outnumber user messages, and a browser-only session of a capped user holds at most one message over the cap |
| Safety.LockedRowsAreNeverStale | tutor/routes/sessions.py:602-623 | in every run what read its row under the lock finds all but the transcript unchanged |
| Safety.ServerTurnIsStaleIff | tutor/orchestration/turn.py:155-168 | where no version is lowered a server turn is stale exactly when its locked row was newer than its cached one |
| Safety.SessionsOnlyGrow | tutor/persistence/repo.py:196-264 | in every run log and messages only grow and a completed session is frozen but for its version; where no version is lowered there is no lost update and no ABA |
| Safety.SolutionIsWithheld | tutor/routes/sessions.py:384-405 | in every run each context for a code step was for a session committed with all four passes in its log; no conceptual or uncommitted session got one |
| Ownership.OnlyOwnersWrite | tutor/routes/sessions.py:175-640 | in every run a session is changed or removed only by a request of its owner, or by a purge once it has lapsed, and a new one belongs to the user whose request made it |
| Ownership.ContextsAreTheOwners | tutor/routes/sessions.py:384-405 | in every run each gate call, coach call and prompt bundle hands out one context, for the step asked for, which is the session's own, of a session of the user who asked; nothing else hands one out |
| Ownership.OwedIs | tutor/routes/sessions.py:417-470 | after a server turn a reply is owed to its session, at the step answered and from the model the row named, and with a citation a write of two above the version read |
| Ownership.ReplyIs | tutor/orchestration/turn.py:325-332 | that reply is one coach message of that step and model at the end of the transcript |
| Safety.TransportIsPinned | tutor/routes/sessions.py:207-218 | the byok flag is true exactly when the model is a cloud entry of the catalog |
| Safety.AddressedTurnsSpareTheServerKey | tutor/routes/sessions.py:446-464 | a turn that landed where it was addressed never spends the server's key |
| Safety.ServerKeySpentOnlyAcross | tutor/routes/sessions.py:374-379 | exactly when a turn does spend it |
| Anomalies.ClearAllCanMissASession | tutor/routes/sessions.py:287-295 | a run whose store is not that of its committed transactions in order |
| Anomalies.ATurnCanLandAcrossTransports | tutor/routes/sessions.py:371-405 | a run in which a turn addressed to a local session commits to a cloud one and is charged to the server's key |
| LateWrites.OneGroundedTurnCountsTwice | tutor/routes/sessions.py:417-440 | one turn and its citation leave version two |
| LateWrites.AFollowUpCanLowerTheVersion | tutor/routes/sessions.py:417-440 | a run in which the version falls to one it had with another row |
| LateWrites.LoweringAloneLosesNothing | tutor/routes/sessions.py:417-440 | up to its flush that run loses nothing |
| LateWrites.ALoweredVersionLosesAnUpdate | tutor/orchestration/turn.py:155-176 | and a turn then overwrites the state that another had committed |
| RateLimit.FixedWindowLimiter.Check | tutor/ratelimit.py:30-42 | evict, then admit or refuse with Retry-After, as a function of the key's hits |
| RateLimit.EvictionIsLossless | tutor/ratelimit.py:33-34 | eviction forgets nothing a later call could count |
| RateLimit.RefusesIffWindowIsFull | tutor/ratelimit.py:30-42 | the limiter answers as one that remembers every admitted hit, refusing exactly when limit of them lie in the window |
| RateLimit.HistoryIsAdmitted | tutor/ratelimit.py:30-42 | what the reference remembers is exactly the calls the limiter admits |
| RateLimit.AtMostLimitPerWindow | tutor/ratelimit.py:20-42 | every half-open interval of window length holds at most limit of the admitted calls of a key |
| RateLimit.KeysAreIndependent | tutor/ratelimit.py:30-42 | other keys never change an answer |
| RateLimit.RetryAfterIsHonest | tutor/ratelimit.py:35-41 | waiting Retry-After with a quiet key admits; coming back more than a second earlier is refused |
| RateLimit.ClosedWindowHoldsMoreIff | tutor/ratelimit.py:33-42 | a closed interval holds more than limit admitted calls if and only if two of them, limit positions apart, lie at its ends |
| RateLimit.ClosedWindowCanHoldMore | tutor/ratelimit.py:33-34 | and it can |
| Stream.EventGen | tutor/routes/sessions.py:466-513 | one state, then tokens, then one done whose reply is what the tokens said and what is persisted; a provider that fails before its first delta is covered by the hint, or the nudge; a replay persists nothing |
| Slug.SlugIsWordsJoined | grounding_mcp/slug.py:30-50 | slugify is the lower-cased words of the name joined by single dashes |
| Slug.SlugsAreTheFixpoints | grounding_mcp/slug.py:30-50 | slugs are shaped, and the shaped names are exactly the fixpoints, so slugify is idempotent |
| Slug.OrderPrefixIsStripped | grounding_mcp/slug.py:18-27 | an order prefix is digits and at most one separator, and nothing else is stripped |
| Slug.Slugify | grounding_mcp/slug.py:30-50 | the loop computes the slug |
| Slug.MakeChapterSlug | grounding_mcp/slug.py:53-67 | the loop computes the chapter slug whose parts `FileNames.NameAddsItsWords` describes |
| Slug.PathLikeIff | grounding_mcp/slug.py:70-78 | the recogniser accepts exactly the slash-joined lists of slug-like segments |
| Slug.ChapterSlugsAreRecognised | grounding_mcp/slug.py:53-78 | every non-empty chapter slug is recognised and its parts can be read back |
| FileNames.NameAddsItsWords | grounding_mcp/slug.py:53-67 | order digits, separator and extension leave no trace: a name adds the words of its stem joined by dashes, or nothing when there are none |
| FileNames.NamesHavePieces | grounding_mcp/slug.py:18-27 | every name is made of such pieces |
| FileNames.StemWords | grounding_mcp/slug.py:30-50 | the words of a stem are those it was joined from, in lower case |
| FileNames.NextStep | grounding_mcp/slug.py:53-57 | the documented example |
| FileNames.LowersCapitals | grounding_mcp/slug.py:38-39 | each capital goes to its small letter and nothing else changes |
| FileNames.SlugsHoldNoCapitals | grounding_mcp/slug.py:30-50 | a slug holds small letters, digits, underscores and dashes only |
| FileNames.ContentNamesIff | grounding_mcp/slug.py:81-89 | exactly which directory names are walked |
| FileNames.ProblemsLieUnderProblems | grounding_mcp/corpus.py:148 | a chapter is a problem if and only if a directory above it is called problems behind its order prefix |
| Corpus.Rec | grounding_mcp/corpus.py:135-164 | the recursive walk appends exactly the walk's chapters |
| Corpus.WalkIsExact | grounding_mcp/corpus.py:131-164 | over any tree a chapter is emitted exactly for each eligible file, with that file's fields, and once |
| CorpusIndex.Index.constructor | grounding_mcp/corpus.py:170-197 | the index holds the chapters of all books and the last document under each id |
| CorpusIndex.Index.Doc | grounding_mcp/corpus.py:203-208 | the guarded lookup |
| CorpusIndex.FoundInIsExact | grounding_mcp/corpus.py:176-186 | a chapter is found exactly when the walk of a content directory finds it |
| CorpusIndex.LookupIsExact | grounding_mcp/corpus.py:176-208 | the lookup answers exactly the ids of walked chapters, each with the last chapter of that id, and with itself when ids are distinct |
| Splitter.BlockIsCutWholeIff | grounding_mcp/corpus.py:26-27 | a tagged block is cut out whole if and only if nothing inside closes it early |
| Splitter.ScanUndoesPrint | grounding_mcp/corpus.py:98-104 | from a flat printed body the scanner recovers exactly the blocks and the plain texts |
| Splitter.VisibleIgnoresBlocks | grounding_mcp/corpus.py:98-104 | the visible text does not depend on what the blocks hold |
| Solutions.SolutionIsTheBlocksText | grounding_mcp/corpus.py:98-104 | what is withheld of a flat body is the text of its blocks without the tags, a blank line between one block's and the next |
| Solutions.StripPastMarkup | grounding_mcp/corpus.py:27 | of a marked-up text exactly the tags go |
| Solutions.CollapsesLongRuns | grounding_mcp/corpus.py:29 | three or more line breaks become two and nothing else changes |
| Solutions.StripsEnds | grounding_mcp/corpus.py:102-103 | stripping takes the blank ends off and nothing else |
| Splitter.NestedBlocksLeak | grounding_mcp/corpus.py:16-18 | text after a nested block's end is shown |
| Search.Bm25Index.constructor | grounding_mcp/search.py:35-53 | the tables hold term counts, document frequencies, lengths and the average |
| Search.Bm25Index.Search | grounding_mcp/search.py:61-81 | exactly the first limit of the naive ranking, as many as there are |
| Search.CountTerms | grounding_mcp/search.py:44-46 | the term table counts the raw tokens |
| Builtins.RunsUndoJoin | grounding_mcp/search.py:22-23 | the tokens of words joined by a separator are the words |
| Search.IdfIsPositive | grounding_mcp/search.py:55-59 | positive for every indexed term |
| Search.ScoresIffShares | grounding_mcp/search.py:66-79 | a document scores above zero if and only if it holds a query term |
| Search.RelevantIsExact | grounding_mcp/search.py:61-81 | the ranking holds exactly the book-matching documents that share a term, best first, and is the only such order when ids are distinct |
| Relevance.RarerRanksAbove | grounding_mcp/search.py:61-81 | of two chapters alike but for one holding a rarer query term once and the other a commoner one once, the first ranks above |
| Relevance.RarerWeighsMore | grounding_mcp/search.py:55-59 | a rarer term has the larger idf, for every increasing logarithm |
| Relevance.IdfIsLogOfRatio | grounding_mcp/search.py:55-59 | the idf is the logarithm of n + 1 over df + 0.5 |
| Relevance.ShareRisesWithIdf | grounding_mcp/search.py:72-77 | a larger idf gives a larger share |
| Relevance.ShareRisesWithCount | grounding_mcp/search.py:72-77 | more occurrences give a larger share, below two and a half times the idf |
| Relevance.ShareFallsWithLength | grounding_mcp/search.py:72-77 | a longer document gives a smaller share |
| Relevance.ShareOfOne | grounding_mcp/search.py:72-77 | one occurrence at average length is worth the idf |
| Relevance.ScoreAdds | grounding_mcp/search.py:71-77 | each query term counts as often as the query names it |
| Relevance.DocFreqCountsTexts | grounding_mcp/search.py:50-51 | the document frequency is the number of texts that hold the term |
| Relevance.AverageLength | grounding_mcp/search.py:53 | the average of texts of one length is that length |
| Relevance.RankingRuns | grounding_mcp/search.py:80 | from the highest score down, and among equal scores the later id first |
| Relevance.LessIff | grounding_mcp/search.py:80 | the order of ids: at the first difference the smaller character, and a prefix before its extensions |
| Relevance.TitleCountsThrice | grounding_mcp/search.py:42-43 | a term counts three times per occurrence in the title and once per occurrence in the visible text |
| Relevance.TokenizeUndoesJoin | grounding_mcp/search.py:22-23 | words of letters and digits are found again in lower case |
| Tools.PayloadsIgnoreBlocks | grounding_mcp/tools.py:51-71 | corpora that differ only inside blocks give the same get_problem and solution-free get_lesson payloads |
| Tools.IdsAreAnswered | grounding_mcp/tools.py:51-71 | any id is answered with the last chapter found under it, capped, and with its solution exactly when that is asked for and there is one; an unknown id is refused by name |
| Tools.CapCuts | grounding_mcp/tools.py:16-17 | a text that fits is given whole, a longer one cut at the limit, right-stripped and marked |
| Tools.OthersStay | grounding_mcp/tools.py:79-84 | all hits but the chapter's own stay, in their order |
| Tools.Limit | grounding_mcp/tools.py:77 | no limit and zero mean the maximum, any other is kept to it |
| Tools.ListRelated | grounding_mcp/tools.py:73-87 | what the loop collects from the search |
| Tools.RelatedIsExact | grounding_mcp/tools.py:73-87 | the first n of the full ranking with the chapter itself removed, for n at least one |
| Tools.NoneWantedIff | grounding_mcp/tools.py:78-86 | with a maximum of zero one hit is still returned, and exactly when |

## Left out

- FastAPI wiring, authentication, body caps and payload shaping: requests arrive with their parsed fields.
- Provider clients and the MCP transport: a provider call is any object returned or a failure.
- Prompt texts, evidence attached to an answer, token counts, latency and hashes: they are stored or sent and never read back by the modelled code.
- Grounding references: an append-only table that nothing modelled reads; the commit that writes one is modelled for the row it flushes.
- SQLAlchemy's unit of work: which rows a flush writes, and with which columns, is taken from its documented behaviour in the pinned version.
- Postgres itself: row locks, READ COMMITTED, unique and foreign keys and cascading deletes are assumed; waiting for a lock is a step that is not enabled yet, and deadlocks are ended by abandoning a transaction.
- The "abandoned" status and `abandon_active`: no route reaches it.
- The per-user session quota: its check and the insert are separate transactions, so only a serial reading would hold.
- Raw gate answers that are not objects: the provider interface promises an object.
- The order of siblings in the corpus and of books: the trees list entries in visiting order.
- Frontmatter, first headings, section titles, book descriptions, snippets, the outline and citation links: parsing and formatting without the properties above; a file arrives with its title, summary and body.
- Names and slugs beyond ASCII, where lower-casing can change lengths and letters.
- A letter beyond ASCII directly after `<details` or `<summary`: taken as a word boundary.
- Floating-point rounding in BM25: scores are reals and the logarithm is any function positive above one.
- A stream the client leaves early: the trace is of a fully consumed one.
- Search.Bm25Index.Search: negative limits are not modelled.
- Splitter.VisibleIgnoresBlocks: states flat bodies, the corpus convention; what nesting does is stated by `BlockIsCutWholeIff` and `NestedBlocksLeak`.
- Protocol.Serial: runs the turns of a session alone; the owner, transport and quota checks of the routes guard the steps of `Protocol` at the moment the route makes them, and are not repeated where the turn commits, since the transcript may have grown by a coach reply in between.
