# Snagline in Dafny

Snagline has one transactional authority and several followers that must survive lost
replies, crashes and an unreliable carrier.  This project models its core and proves what
holds over every run.

* **Authority** (`Authority*.dfy`, `CommitOrder.dfy`, `Interleaving.dfy`): the PostgreSQL store.  Tables are maps,
  a transaction works on a copy of them and is committed or rolled back.  Registries, cases,
  advice, the high-water table, the delivery logs of the edges, the outbox and the revision
  counter are modelled for one tenant; other tenants show up as gaps in the counter.
  `CommitOrder` and `Interleaving` take transactions apart into begin, lock, draw, commit and abort.
* **Edge** (`Edge*.dfy`): the projection of one delivery log at an edge.  The carrier may lose,
  repeat, reorder or invent messages.  The store is a class changed in place, the consumer a
  class with its `halted` flag, and recovery pages through the authority.
* **Projector** (`ProjectorState.dfy`, `Projector.dfy`): the write-ahead publisher to Buzz.  Its
  environment answers in any way, and the process may die at any call; what it does when every
  answer is good is stated too.
* **Dispatcher** (`Turn*.dfy`, `AdviceSpool.dfy`, `Dispatcher*.dfy`): racing invocations over a
  turn store, a single-assignment spool and the authority.
* **SSP scanners** (`Json.dfy`, `Scanner*.dfy`, `Escapes.dfy`): the hand-written index loops of the
  envelope code, against the grammar of RFC 8259 (sections 2 to 7) and the surrogate rule of
  RFC 8785 (section 3.2.2.2).

SHA-256 is an injective function, signature checks and the registry checks of a verifier are a
deterministic function of the entry, canonicalization is a function parameter, time is a number.
Transient failures, lost replies, crashes, clocks, random tokens and identifiers are inputs of the
operations or nondeterministic choices inside them.  Where a function specifies a method, the
method is the source's statements and the lemmas are about the function.

The modules `AuthorityAnswers`, `EdgeAnswers`, `TurnAnswers` and `ScannerAnswers` say exactly when each operation accepts
or refuses, with which answer and what it leaves, from the rows and the request alone.
`DispatcherRuns` says what an invocation gets done.  A calm environment, in the projector and the
dispatcher, is one in which every call is answered well; everything else is proved for any answers.

Two points where the code says more or less than its comments:

* The delivery table of the authority has one unique index on envelope identifiers for cases and
  advice together (`internal/authority/postgres/migrations/0001_authority.up.sql:78`), so an
  identifier is delivered once across families.  The model has that index; it is why a log the
  authority wrote never quarantines anything.
* The consumer's halt flag is in memory, while completing a reconciliation asks for the durable
  halt.  A halted consumer whose tables say active is never resumed by reconciliation, only by the
  end of the process.  That happens exactly on a live delivery that quarantines (the code halts in
  memory only, `internal/sspedge/consumer.go:196-198`) and on a completion that takes effect while
  its answer is lost.  `EdgeHalts` has the runs, the exact condition and what a restart needs.

## Model

| member | source | states |
|---|---|---|
| AuthorityInvariant.RunKeeps | internal/authority/postgres/store.go:46-289 | every state of every run of case, advice and registry commits keeps the whole invariant (numbered increasing logs, backed entries, exact outbox, registry chain, high-water agreement), and every committed row stays unchanged |
| AuthorityInvariant.RunsAreValid | internal/authority/postgres/store.go:46-289 | from empty tables, every reachable state satisfies that invariant |
| AuthorityInvariant.OperationKeeps | internal/authority/postgres/store.go:46-289 | one operation, accepted, replayed, refused or halting, keeps the invariant and all rows |
| AuthorityInvariant.WriteRegistryStints | internal/authority/postgres/store.go:305-349 | the high-water checks keep a generation one unbroken stint of one principal when a registry is added |
| AuthorityTheorems.GenerationsNeverReturn | internal/authority/postgres/store.go:305-349 | over every run an edge's generation never goes down, and two registries with the same generation of an edge have it in every registry between them, with the same principal |
| AuthorityTheorems.RegistriesFormOneChain | internal/authority/postgres/store.go:203-242 | accepted registries are consecutive revisions up to the head, each naming its predecessor's commitment, the first naming none |
| AuthorityTheorems.HaltsOnConflictingEvidence | internal/authority/postgres/store.go:208-240 | a live head halts exactly on a valid registry that is older, contradicts the current revision or does not name it as predecessor, and nothing else changes then |
| AuthorityTheorems.HaltedForever | internal/authority/postgres/store.go:51-63 | once the head is halted no operation changes any table |
| AuthorityTheorems.CaseReplays | internal/authority/postgres/store.go:51-54 | an accepted case submitted again after any further run, halted or not, gets its original receipt and writes nothing |
| AuthorityTheorems.AdviceReplays | internal/authority/postgres/store.go:119-126 | the same for advice |
| AuthorityTheorems.LogsAreOrdered | internal/authority/postgres/store.go:605-630 | the log of an edge generation has strictly increasing revisions and no envelope twice |
| AuthorityTheorems.AdviceFollowsCase | internal/authority/postgres/store.go:140-187 | every advice in a log follows the case it answers in the same log |
| AuthorityTheorems.CaseDeliveredOnce | internal/authority/postgres/store.go:75-110 | a committed case has exactly one delivery, in its issuer's log, and exactly two outbox rows |
| AuthorityTheorems.AdviceDeliveredOnce | internal/authority/postgres/store.go:157-193 | a committed advice has exactly one delivery, at its recorded sequence, and one outbox row |
| AuthorityTheorems.LogsExtend | internal/authority/postgres/store.go:605-630 | a later log has the earlier one as a prefix |
| AuthorityTheorems.PageNeedsActiveEdge | internal/authority/postgres/store.go:371-395 | the delivery query is answered exactly when the head is not halted and the head registry lists the edge with that principal and generation; a halt is reported exactly to edges that were ever listed |
| AuthorityTheorems.PageIsSlice | internal/authority/postgres/store.go:396-429 | a page is the stretch of the log after the cursor, with the log's length and the exact completion mark |
| AuthorityBindings.RunsAreBound | internal/authority/postgres/store.go:65-74 | in every reachable state each case names an accepted registry by revision, hash and epoch, each advice shares its case's registry, commitments are distinct and the outbox carries the committed bytes |
| AuthorityBindings.AdviceWorkBound | internal/authority/postgres/store.go:140-156 | an advice is only written with the coordinates of its case and a commitment of its own |
| AuthorityAnswers.NewCaseAnswers | internal/authority/postgres/store.go:55-112 | a new case is accepted exactly when it names the live head in revision, hash and epoch, no case shares its envelope or commitment and nothing was delivered under its envelope; then its receipt has the revision drawn, its envelope and its commitment, and each refusal has its own reason |
| AuthorityAnswers.KnownCaseAnswers | internal/authority/postgres/store.go:675-696 | a known case is accepted exactly when every field is the same, with the stored revision |
| AuthorityAnswers.FirstAdviceAnswers | internal/authority/postgres/store.go:127-195 | the same equivalence and receipt for the first advice of a case: it binds the committed case and that case's registry |
| AuthorityAnswers.AnsweredCaseAnswers | internal/authority/postgres/store.go:698-717 | a case that has its advice answers only that advice again, with the stored revision |
| AuthorityAnswers.RefusedExactly | internal/authority/postgres/store.go:305-349 | in every reachable state an edge is refused exactly when it neither gets a generation above all it was ever listed with nor is listed just as the head lists it |
| AuthorityAnswers.RegistryAnswers | internal/authority/postgres/store.go:203-289 | under a live head a registry is accepted exactly when it repeats the one in force, or succeeds it with fresh identifiers and every edge raised or kept; the receipt, new or repeated, and the reason of each refusal |
| AuthorityAnswers.FirstRegistryAnswers | internal/authority/postgres/store.go:203-289 | with no head a registry is accepted exactly when it names no predecessor, and under a halted head none is |
| AuthorityAnswers.WritesExactly | internal/authority/postgres/store.go:558-584 | work is committed exactly when it changes a table, and a revision is drawn exactly for an accepted change or one the delivery index stops |
| AuthorityAnswers.QueryAnswers | internal/authority/postgres/store.go:359-395 | an edge's query is answered exactly when it is well formed and the live head lists the edge so; each refusal has its own reason |
| AuthorityAnswers.QueryReads | internal/authority/postgres/store.go:396-429 | the answer is the stretch of that edge's own log after the cursor, no longer than asked |
| AuthorityAnswers.InvalidCase | internal/authority/authority.go:78-86 | a case is invalid exactly on a blank identifier, a commitment that is not sha256 in lower-case hex, missing bytes, a number out of range or no expiry |
| AuthorityAnswers.InvalidAdvice | internal/authority/authority.go:110-117 | the same for advice |
| AuthorityAnswers.InvalidRegistry | internal/authority/authority.go:146-160 | the same for registries and each edge they list |
| AuthorityStore.Tx.AllocateDeliverySequence | internal/authority/postgres/store.go:605-617 | answers the log's next number, starting at one, and moves the counter by one |
| AuthorityStore.Tx.InsertEdgeDelivery | internal/authority/postgres/store.go:619-630 | inserts unless the slot or the envelope identifier is taken |
| AuthorityStore.Tx.InsertOutbox | internal/authority/postgres/store.go:647-661 | the loop adds one row per destination with the committed bytes |
| AuthorityStore.Tx.EnforceHighWater | internal/authority/postgres/store.go:305-349 | the loop over listed edges accepts exactly when no edge is refused, and then raises every row, whatever the order |
| AuthorityStore.Tx.CommitCase | internal/authority/postgres/store.go:46-112 | the statements have the outcome and the settled tables of the specification |
| AuthorityStore.Tx.CommitAdvice | internal/authority/postgres/store.go:114-195 | the same for advice |
| AuthorityStore.Tx.CommitRegistry | internal/authority/postgres/store.go:197-289 | the same for registries, including the committed halt |
| AuthorityStore.Store.Transaction | internal/authority/postgres/store.go:558-584 | with any faults in three attempts the operation takes effect once, atomically, or not at all, a definite answer is its own answer, and the invariant and all rows are kept |
| CommitOrder.ReaderNeverSkips | internal/authority/postgres/store.go:436-482 | under every interleaving each tenant's facts commit in revision order, what a paging reader saw is a prefix of them, and a page that is not full brings it level |
| CommitOrder.PageIsNext | internal/authority/postgres/store.go:452-461 | a page from the cursor is exactly the next facts in commit order |
| CommitOrder.CommitOk | internal/authority/postgres/store.go:761-774 | committing under the head lock keeps every revision in flight above the tenant's committed ones |
| CommitOrder.UnlockedDrawSkips | internal/authority/postgres/store.go:597-603 | drawing the revision before the lock would break it: a run in which the reader never sees a committed fact |
| CommitOrder.FreeTenantCommits | internal/authority/postgres/store.go:761-774 | where nobody holds a tenant's head, a transaction gets through and its fact is the newest |
| CommitOrder.LockExactly | internal/authority/postgres/store.go:761-774 | a tenant's head lock goes exactly to a transaction that has just begun, while no one holds it |
| Interleaving.InterleavingIsSequential | internal/authority/postgres/store.go:558-584 | the committed tables of every interleaving, each transaction writing what it worked out from what it read, are those of a sequential run of the committed operations in commit order with the revisions they drew |
| Interleaving.AnswerIsSequential | internal/authority/postgres/store.go:558-584 | what a writing transaction worked out and answers is what that sequential run works out there, at the revision it drew |
| Interleaving.ReadIsCurrent | internal/authority/postgres/store.go:761-774 | because of the head lock, a transaction that may write read the tables it changes |
| Interleaving.FreeTransactionCommits | internal/authority/postgres/store.go:558-584 | an undisturbed transaction commits what its operation works out on the current tables with the revision it draws |
| Interleaving.ReadsOnce | internal/authority/postgres/store.go:761-774 | a transaction reads once, under the head lock where there is a head |
| AuthorityViews.FactPageIsComplete | internal/authority/postgres/store.go:436-482 | an invalid query is refused; otherwise a page holds committed facts with their fields in revision order above the cursor, misses none it accounts for, and its watermark is the newest revision |
| AuthorityViews.FactsAppendOnly | internal/authority/postgres/store.go:436-482 | facts never change, and later ones lie above every revision drawn before |
| AuthorityViews.AuthorityFeedsProjector | internal/collab/buzz/authority_source.go:27-51 | over every run, the facts have what the projector assumes of them: positive revisions, bytes, one fact per envelope and per case |
| AuthorityViews.LogEntriesPass | internal/sspedge/authority_reconciler.go:70-80 | the entries of an authority log pass the edge's checks once their bytes are within the envelope limit |
| EdgeStore.Db.ApplyVerified | internal/sspedge/store.go:405-492 | the statements have the outcome and tables of the specification, an error leaving them as they were |
| EdgeStore.Db.ClaimIdentity | internal/sspedge/store.go:591-618 | takes a free envelope, recognises a repeat, quarantines a conflict and what is filed under it |
| EdgeStore.Db.PersistProjection | internal/sspedge/store.go:620-669 | files a case once, and an advice only under an accepted case it binds exactly |
| EdgeStore.Db.RequireReconciliation | internal/sspedge/store.go:503-510 | halts durably and raises the high watermark to what was observed, never lowering it |
| EdgeStore.Db.AdvanceDeliveryState | internal/sspedge/store.go:527-534 | moves the contiguous counter and leaves the mode alone |
| EdgeStore.Db.CompleteReconciliation | internal/sspedge/store.go:571-589 | resumes exactly when durably halted and contiguous through the high watermark |
| EdgeConsumer.Consumer.Handle | internal/sspedge/consumer.go:134-208 | a message is acknowledged exactly when it was durably handled, and the halt flag follows the outcome |
| EdgeConsumer.Consumer.Reconcile | internal/sspedge/consumer.go:216-270 | one pass of recovery as specified; the consumer stays halted unless it resumed |
| EdgeConsumer.Consumer.constructor | internal/sspedge/consumer.go:84-102 | a consumer starts halted exactly when the durable mode says so |
| EdgeConsumer.FetchAfter | internal/sspedge/authority_reconciler.go:35-92 | a page is taken exactly when its bounds and every entry pass, and then entry by entry |
| EdgeSystem.EdgeFollowsLog | internal/sspedge/store.go:405-534 | after every run the rows are exactly the first last entries of the authority log, byte for byte, and last <= high <= its length |
| EdgeSystem.EdgeIsFold | internal/sspedge/store.go:465-491 | identity, case, advice and verdict tables are the fold of the verdicts over that prefix |
| EdgeSystem.ScheduleIndependent | internal/sspedge/jetstream_consumer.go:148-185 | two delivery schedules that reach the same point hold the same tables |
| EdgeSystem.ActiveLosesNothing | internal/sspedge/jetstream_consumer.go:89-125 | while the mode is active, last equals high and every own delivery ever acknowledged has its row |
| EdgeSystem.ApplyFollows | internal/sspedge/store.go:428-447 | a delivery that passed the gate keeps the tables a fold of the log, is covered by the high watermark and never conflicts |
| EdgeSystem.RecordFollows | internal/sspedge/store.go:465-491 | recording the next entry is one step of the fold and fails exactly when the fold does |
| EdgeSystem.StepKeeps | internal/sspedge/consumer.go:114-270 | every step, with any fault, stale view, wrong page or restart, keeps the edge following the log |
| EdgeSystem.FoldGrows | internal/sspedge/store.go:591-618 | along the log an envelope keeps its first commitment, an entry its projection, and no quarantine is lifted |
| EdgeSystem.ConflictQuarantines | internal/sspedge/store.go:602-617 | a second commitment quarantines the envelope and exactly what is filed under it, and no advice is filed under such a case |
| EdgeRecovery.ReconcileAuthoritative | cmd/snagline-edge/runtime.go:274-310 | against a fixed log and without faults, the loop resumes exactly when the rest of the log is clean, then active with last = high = its length, after as many passes as there are pages |
| EdgeRecovery.PassesIsCeiling | cmd/snagline-edge/runtime.go:288-308 | the number of passes is one, or the remaining entries over the limit rounded up |
| EdgeRecovery.FaultlessPass | internal/sspedge/consumer.go:216-270 | a pass without faults goes through exactly on a clean stretch, ends at the page's end and resumes when that is the log's and the halt is durable |
| EdgeRecovery.ReconcileEdge | cmd/snagline-edge/runtime.go:257-267 | the consuming loop's own recovery, against a fixed log and without faults, resumes exactly when the halt is durable and the rest of the log is clean |
| EdgeRecovery.StartEdge | cmd/snagline-edge/runtime.go:163-169 | a fresh process comes up, and then not halted, exactly when the rest of the log is clean |
| EdgeRecovery.PagePasses | internal/sspedge/authority_reconciler.go:55-62 | every page of an authority log passes the client-side bounds |
| EdgeRecovery.ApplyAllClean | internal/sspedge/consumer.go:246-256 | a batch goes through exactly when its stretch of the log is clean |
| EdgeRecovery.TruthfulLogIsClean | internal/sspedge/authority_verifier.go:342-409 | a well-ordered log judged by a verifier that vouches for an advice's case is clean, and everything it accepts is filed |
| EdgeRecovery.AuthorityLogsAreWellOrdered | internal/authority/postgres/migrations/0001_authority.up.sql:65-81 | the authority's logs have each envelope and case once and every advice after its case |
| EdgeRecovery.AuthorityLogsRecover | internal/sspedge/consumer.go:216-270 | so an edge can recover to the end of any log of any run of the authority, from wherever it stands |
| EdgeRecovery.AuthorityServesPages | internal/authority/postgres/store.go:396-429 | the authority's answer is the page the edge reads |
| EdgeRecovery.GateReadsLog | internal/sspedge/authority_verifier.go:124-144 | the verifier's one-entry read finds a delivery exactly when the log holds its bytes at its sequence |
| EdgeHalts.StuckUntilKilled | cmd/snagline-edge/runtime.go:312-326 | a consumer halted over an active durable mode stays so through every run of the living process |
| EdgeHalts.StrandsExactly | internal/sspedge/consumer.go:188-208 | exactly two steps bring that about: a live delivery that quarantines the next entry, and a completion whose answer is lost |
| EdgeHalts.StuckExactly | internal/sspedge/consumer.go:216-270 | a run ends so exactly when one of its steps brings it about and the process is not killed afterwards |
| EdgeHalts.ConflictStrands | internal/sspedge/store.go:591-618 | every edge whose tables know an envelope with another commitment is left so by the delivery of it |
| EdgeHalts.StuckIsReachable | internal/sspedge/consumer.go:196-198 | such an edge and such an entry exist |
| EdgeHalts.LostCompletionStrands | internal/sspedge/consumer.go:262-268 | a lost completion leaves every edge so, whatever its verifier and tables |
| EdgeHalts.TruthfulNeverQuarantines | internal/sspedge/authority_verifier.go:342-409 | over a log the authority wrote, no delivery brings it about |
| EdgeHalts.HandlingHaltsExactly | internal/sspedge/consumer.go:134-208 | a running consumer is halted by an own, exact, well-formed delivery exactly on a gap, on the next one while reconciliation is required, and on the next one being quarantined |
| EdgeHalts.RestartResumes | cmd/snagline-edge/runtime.go:163-169 | a restart brings every edge back, stuck or not, to consuming with the whole log when the rest of it is clean |
| EdgeHalts.AcknowledgedIsKept | internal/sspedge/jetstream_consumer.go:89-125 | exactly the own deliveries that are acknowledged are on record as such |
| EdgeHalts.RepairedIsActive | cmd/snagline-edge/runtime.go:274-310 | a process is repaired only by a pass that completed: active, and level with the high watermark |
| EdgeHalts.NotEnabled | cmd/snagline-edge/runtime.go:312-326 | a repaired or halted process does not reconcile afresh, and one that is not live does not consume |
| EdgeAnswers.DeliveryMeans | internal/sspedge/store.go:671-700 | a delivery is taken exactly when it is numbered, not empty and its projection is this edge generation's and complete, field by field |
| EdgeAnswers.JudgedExactly | internal/sspedge/consumer.go:165-187 | an entry is accepted exactly when the verifier accepts a projection that names it and its route is the edge's own; otherwise the first reason rejects it, a route mismatch keeping its receipt |
| EdgeAnswers.MetadataMeans | internal/sspedge/jetstream_consumer.go:148-185 | a message is taken up exactly with the right stream and subject, 1 to 65536 bytes and three positive headers |
| EdgeAnswers.ForeignHandled | internal/sspedge/consumer.go:134-164 | what a message of another generation leaves under every fault; it never raises the high watermark |
| EdgeAnswers.FaultsAnswer | internal/sspedge/consumer.go:134-187 | a refusal or a failing store changes nothing, an unknown commit takes effect, and none acknowledges |
| EdgeAnswers.PersistExactly | internal/sspedge/store.go:620-669 | a projection is filed exactly under a free key and envelope, or is filed already; an advice only with the unquarantined case it binds in commitment and registry |
| EdgeAnswers.RecordExactly | internal/sspedge/store.go:465-491 | verdict, outcome and reason of each judgement against what its envelope is known as |
| EdgeAnswers.ConflictRemembered | internal/sspedge/store.go:602-617 | an envelope keeps its first commitment and its first conflict |
| EdgeAnswers.ApplyFails | internal/sspedge/store.go:405-427 | an application fails exactly on a malformed delivery or a next one that cannot be recorded, and then changes nothing |
| EdgeAnswers.RepeatAndGapExactly | internal/sspedge/store.go:428-464 | duplicates, conflicts, missing rows and gaps, each with the state and the reason it leaves |
| EdgeAnswers.NextIsRecorded | internal/sspedge/store.go:465-491 | the next delivery gets one row with its digest, receipt and verdict, and the counter moves to it |
| EdgeAnswers.EntryMeans | internal/sspedge/authority_reconciler.go:70-80 | an entry passes exactly with its identifiers, a positive revision and 1 to 65536 bytes |
| EdgeAnswers.PassRefuses | internal/sspedge/consumer.go:232-245 | a page that ends before the cursor or the high watermark, claims too much or is not the numbered stretch changes nothing |
| ProjectorState.TopReplaced | internal/collab/buzz/projector.go:252-268 | giving the record beyond the checkpoint a new event keeps the invariant when its old event is at no relay |
| ProjectorState.TopUpdated | internal/collab/buzz/state.go:126-136 | counting a failure or marking a publication keeps the invariant |
| ProjectorState.AcceptedGood | internal/collab/buzz/stock_client.go:282-330 | the relay may accept any event that is held and never superseded |
| ProjectorState.FreshUnretired | internal/collab/buzz/stock_client.go:293-298 | an event before its deadline was never superseded |
| ProjectorState.OneEventPerFact | internal/collab/buzz/projector.go:227-283 | the relay holds at most one event for a fact |
| ProjectorState.AdviceRootIsCurrent | internal/collab/buzz/projector.go:344-393 | an advice replies to its case's current root, in that event's channel |
| ProjectorState.CheckpointMoves | internal/collab/buzz/projector.go:168-172 | the checkpoint may pass a published or parked record |
| ProjectorState.FailureSpends | internal/collab/buzz/state.go:126-136 | every failed run of a record uses up some of its budget |
| ProjectorState.BudgetIsAttained | internal/collab/buzz/projector.go:329-331 | the budget can be used to the full: a chain of twice the attempt limit less one failures, parked only by the last |
| ProjectorState.EventTellsFact | internal/collab/buzz/projector.go:467-489 | in every state in order, the event of a record tells its fact: family, case, envelope, commitment and the text cut at 1024 characters |
| ProjectorState.AcceptedTellsFact | internal/collab/buzz/projector.go:467-489 | so does every event the relay holds |
| ProjectorState.DeadlineMeans | internal/collab/buzz/stock_client.go:293-298 | an event is expired exactly from 14 minutes after its date on |
| Projector.Projector.Publish | internal/collab/buzz/stock_client.go:282-330 | only a durably held event is handed to the relay, and none past its deadline; success means the relay holds it, expired-absent that the deadline passed and it does not; in a calm environment it succeeds unless expired and absent |
| Projector.Projector.ReconcilePublish | internal/collab/buzz/stock_client.go:392-417 | resolves an unclear publication by the exact event |
| Projector.Projector.RecordFailure | internal/collab/buzz/state.go:126-136 | one more attempt, parked at the limit |
| Projector.Projector.Prepare | internal/collab/buzz/projector.go:425-456 | a signed event dated now, not yet expired |
| Projector.Projector.SaveAndPublish | internal/collab/buzz/projector.go:327-341 | the event is saved before it is sent, success publishes exactly this record, a failure is counted, no other record moves, and nothing is done after a crash |
| Projector.Projector.PrepareAndPublishCase | internal/collab/buzz/projector.go:300-342 | keeps the invariant through every outcome; success means the relay holds the event and it is the case's root, a failed run counts one failure, and a calm environment fails exactly on an incomplete envelope |
| Projector.Projector.PrepareAndPublishAdvice | internal/collab/buzz/projector.go:344-393 | the same, replying to the case's root; a calm environment fails exactly on an incomplete envelope or a case without one |
| Projector.Projector.SupersedeExpiredAbsent | internal/collab/buzz/projector.go:227-283 | replaces only an event that expired and is absent, by one of the same card, channel and root, and keeps the old one on record; the root-conflict branches cannot be reached |
| Projector.Projector.ProjectRecord | internal/collab/buzz/projector.go:177-225 | ends with a published or parked record, one counted failure, or a stop; a parked record is passed untouched; in a calm environment a publishable fact is published |
| Projector.Projector.ProjectNext | internal/collab/buzz/projector.go:150-175 | one fact of a run: the checkpoint moves only over a settled record that is saved, and no other record changes |
| Projector.Projector.Project | internal/collab/buzz/projector.go:129-175 | every run, crashed or not, keeps the durable state in order and the checkpoint from going back; a clean run passes the next fact or counts one failure on it; in a calm environment the next publishable fact is published and passed, and the run is clean unless an event expired |
| Projector.Projector.Operate | internal/collab/buzz/projector.go:129-283 | after any number of runs ending in any way: at most one accepted event per fact, each telling the fact it is for, published records held by the relay, facts behind the checkpoint published or parked, at most one record beyond it, advice replying to current roots |
| Projector.Projector.PassNext | internal/collab/buzz/projector.go:177-225 | without store failures or supersession a fact is passed after at most twice the attempt limit less one failed runs, each counted on its record; in a calm environment a publishable fact is published by the first run |
| TurnStore.Store.BindDispatcherTurn | internal/sspedge/dispatcher_turn_store.go:43-163 | prunes, compares, claims or reserves as specified; an error rolls the pruning back |
| TurnStore.Store.CompleteDispatcherTurn | internal/sspedge/dispatcher_turn_store.go:168-238 | stores the first result for the holder of the claim, accepts its repetition, refuses any other |
| TurnStore.Store.UpdatePendingClaim | internal/sspedge/dispatcher_turn_store.go:265-312 | releases or abandons a pending turn for the holder of its claim |
| TurnStore.FirstResultReturns | internal/sspedge/dispatcher_turn_store.go:43-163 | after a completion every bind of the event and request returns the first stored result until the row expires, whatever else happens |
| TurnStore.OnlyLatestTokenMoves | internal/sspedge/dispatcher_turn_store.go:265-312 | over every run only the token issued last for an event can change its pending turn |
| TurnStore.TurnsStayBounded | internal/sspedge/dispatcher_turn_store.go:134-140 | over every run the table never exceeds its capacity, rolled-back pruning included |
| TurnStore.ClaimExcludes | internal/sspedge/dispatcher_turn_store.go:86-114 | a claim answers every other binder in flight until it expires, whatever else happens without its token, and then the turn is handed on |
| TurnAnswers.BindAnswers | internal/sspedge/dispatcher_turn_store.go:43-163 | each answer of a bind exactly: mismatch, stored result, in flight, no room, claimed |
| TurnAnswers.BindLeaves | internal/sspedge/dispatcher_turn_store.go:43-163 | a bind leaves the unexpired rows as they are, its own claimed and, if new, reserved; an error leaves everything |
| TurnAnswers.CompleteAnswers | internal/sspedge/dispatcher_turn_store.go:168-238 | only the holder completes a pending turn, and a completed one takes only its own result |
| TurnAnswers.GiveBackAnswers | internal/sspedge/dispatcher_turn_store.go:265-312 | exactly the holder of a pending turn gives it back: released, the row keeps request and expiry without a claim; abandoned, it is gone; other rows stay |
| TurnAnswers.ReleasedIsClaimable | internal/sspedge/dispatcher_turn_store.go:242-254 | a released turn is claimed by the next binder of its request until it expires, whatever happens to other events |
| TurnAnswers.InvalidBind | internal/sspedge/dispatcher_turn_store.go:43-60 | what a bind refuses as invalid: identifiers, sizes, retention, claim time and capacity |
| TurnAnswers.InvalidComplete | internal/sspedge/dispatcher_turn_store.go:168-180 | the same for a completion |
| TurnAnswers.InvalidGiveBack | internal/sspedge/dispatcher_turn_store.go:265-272 | the same for giving back |
| AdviceSpool.Store.SavePendingAdvice | internal/sspedge/edge_advice_spool.go:30-75 | stores the first wire of a case, accepts its exact repetition, refuses any other |
| AdviceSpool.Store.MarkAdviceAcceptedRemote | internal/sspedge/edge_advice_spool.go:145-197 | records the first acceptance of the stored wire and refuses any other |
| AdviceSpool.SaveAnswers | internal/sspedge/edge_advice_spool.go:16-75 | a wire is saved exactly when it is complete and its case has none and its identifier is free, or it is the stored one |
| AdviceSpool.MarkAnswers | internal/sspedge/edge_advice_spool.go:129-197 | an acceptance is recorded exactly when its receipt names the stored wire and no other acceptance is recorded |
| Dispatcher.OneWirePerCase | internal/edge/service.go:421-513 | however invocations race, crash and lose replies, all bytes submitted for a case are the same |
| Dispatcher.OneResultPerCase | cmd/snagline-dispatcher/runtime.go:130-188 | every result put out for a case, at once or replayed, names the one advice and revision the authority holds for it |
| Dispatcher.StepKeeps | cmd/snagline-dispatcher/runtime.go:130-188 | every effect of every invocation keeps spool, turns, authority and outputs in agreement |
| Dispatcher.AnswerCommits | internal/authority/postgres/store.go:114-195 | the authority's answer to a wire is the receipt of the row it then holds |
| DispatcherRuns.TurnGoesThrough | cmd/snagline-dispatcher/runtime.go:130-188 | an undisturbed invocation on a fresh turn and an unanswered case commits its advice, stores wire, receipt and result, and puts out the revision it drew |
| DispatcherRuns.LostReplyIsTakenUp | internal/edge/service.go:485-513 | when the reply to the submission is lost, then whatever the authority does, a halt included, the next invocation of the request resubmits the same bytes and puts out the revision the first one drew |
| DispatcherRuns.RetakenGoesThrough | internal/edge/service.go:485-513 | however far an earlier invocation got after its commit, an undisturbed one puts out the committed revision, once |
| DispatcherRuns.LoadDecides | internal/edge/service.go:428-440 | sign, retry the spooled wire or give up, exactly by what is spooled for the case |
| DispatcherRuns.FailureReleases | cmd/snagline-dispatcher/runtime.go:172-185 | a failed or lost save, submission or mark leads to a release; a lost one took effect, a failed one did not; an unstored result is not put out |
| DispatcherRuns.RefusalReleases | internal/edge/service.go:499-513 | a conflict, a refusal or a receipt for something else leads to a release, and nothing is put out |
| DispatcherRuns.BindOtherwise | cmd/snagline-dispatcher/runtime.go:135-155 | a completed turn puts out its stored result; errors and turns in flight start nothing |
| DispatcherTurn.Process.FinalizeAdvice | internal/edge/service.go:421-483 | each effect is a step of the racing machine; the wire is spooled before it is submitted; a spooled wire is never signed again, and in a calm environment a first one is signed, spooled, submitted and marked |
| DispatcherTurn.Process.SubmitPendingAdvice | internal/edge/service.go:499-513 | the receipt is checked and recorded before the submission counts, and in a calm environment an acceptable wire is submitted under the revision of its receipt |
| DispatcherTurn.Process.RetryAdvice | internal/edge/service.go:485-497 | a retry submits exactly the spooled wire, and in a calm environment it gets through |
| DispatcherTurn.Process.WorkOnTurn | cmd/snagline-dispatcher/runtime.go:155-188 | from the claim on: finalize, retry what is spooled, give the turn back on every failure, and complete it with the result before printing |
| DispatcherTurn.Process.RunDispatcherTurn | cmd/snagline-dispatcher/runtime.go:130-188 | one invocation is a run of the machine, and what it prints as accepted is one of its outputs; in a calm environment it prints the stored result of a completed turn, the revision drawn for a first advice and the committed revision of a spooled one |
| Scanners.SkipSpace | internal/ssp/envelope.go:798-803 | stops at the first byte that is no whitespace |
| Scanners.StringEnd | internal/ssp/envelope.go:804-823 | finds the end the specification finds |
| Scanners.ValueEnd | internal/ssp/envelope.go:824-871 | the same for values of any nesting |
| Scanners.StripUnsignedTopLevel | internal/ssp/envelope.go:747-796 | the loop computes the specification on every input, malformed ones included |
| ScannerAnswers.StringEndExactly | internal/ssp/envelope.go:804-823 | on any bytes a string ends behind the first quote preceded by an even number of backslashes, is bad without an opening quote and unterminated without a closing one |
| ScannerAnswers.StringsAgree | internal/ssp/envelope.go:126-181 | the escape check and the scanner agree on where every string begins and ends |
| ScannerAnswers.HexDigitMeans | internal/ssp/envelope.go:186-205 | a hexadecimal digit, in either case, and its value |
| ScannerAnswers.SurrogateMeans | internal/ssp/envelope.go:153-174 | surrogates are the units whose upper six bits are 54, high, and 55, low |
| ScannerAnswers.ValueEndExactly | internal/ssp/envelope.go:824-871 | on any bytes, where each kind of value ends, and exactly when it is missing or unterminated |
| ScannerAnswers.ReadMemberExactly | internal/ssp/envelope.go:757-790 | a member needs a name that decodes, a colon and a value, and what is missing first is reported |
| ScannerAnswers.KeptStarts | internal/ssp/envelope.go:757-765 | an object goes on with its closing brace or a member, and is malformed where it ends before either |
| ScannerAnswers.KeptExactly | internal/ssp/envelope.go:757-790 | only a comma or the closing brace may follow a member; anything else is malformed |
| ScannerAnswers.RootIsObject | internal/ssp/envelope.go:747-756 | the root is refused exactly when the first byte that is no whitespace is not an opening brace |
| Scanners.StringEndOfText | internal/ssp/envelope.go:804-823 | on every string literal of the grammar it stops exactly behind the closing quote |
| Scanners.ValueEndOfText | internal/ssp/envelope.go:824-871 | on every value of the grammar, with any nesting, whitespace and escapes, it stops exactly at the value's end |
| Scanners.ReadMemberText | internal/ssp/envelope.go:757-790 | every member of an object is read as its key and exact bytes |
| Scanners.KeptFromText | internal/ssp/envelope.go:757-790 | the loop keeps exactly the other members, in order |
| Scanners.StripKeepsOthers | internal/ssp/envelope.go:747-796 | for every object text the result is the other members byte for byte and in order |
| Scanners.StripIsIdempotent | internal/ssp/envelope.go:747-796 | a second strip changes nothing |
| Scanners.UnsignedOfSigned | internal/ssp/envelope.go:281-307 | removing the signature member of a signed object gives back the unsigned one |
| Scanners.SignatureIsLast | internal/ssp/envelope.go:281-307 | the signed object's text is that of the unsigned members followed by the signature member |
| Scanners.SignedWireVerifies | internal/ssp/envelope.go:367-393 | stripping Sign's wire gives back the bytes that were signed, so verification checks the signed message |
| Escapes.ReadHex4 | internal/ssp/envelope.go:186-205 | reads four hex digits or says which fault it found |
| Escapes.ScanUnicodeEscape | internal/ssp/envelope.go:153-174 | passes one unit or one surrogate pair exactly when it is well formed |
| Escapes.ValidateStringEscapes | internal/ssp/envelope.go:126-181 | accepts exactly the byte sequences whose escapes inside string literals are complete, hexadecimal and properly paired, and otherwise reports a fault that is there |

## Left out

- Several tenants in one table set: every statement filters by tenant, so one tenant's rows are modelled; `CommitOrder` has many tenants.
- AuthorityStore.Tx.CommitCase: leaves out the audit row and row timestamps, which the modelled operations never read back.
- AuthorityStore.Tx.CommitAdvice: leaves out the audit row, as above.
- AuthorityStore.Tx.CommitRegistry: leaves out the audit row and the reason text of a halt, as above.
- AuthorityAnswers.InvalidCase: leaves out the tenant identifier, as the model has one tenant.
- AuthorityAnswers.InvalidAdvice: leaves out the tenant identifier, as above.
- AuthorityAnswers.InvalidRegistry: leaves out the tenant identifier, as above, and the nil edge map, which a Dafny map does not have.
- AuthorityViews.AuthorityFeedsProjector: assumes that the committed-bytes verifier reads from bytes what was committed with them.
- Interleaving.InterleavingIsSequential: takes the serializable snapshot of a transaction to be the tables it sees when it holds the head lock; a stale one is a serialization failure, which aborts.
- The outbox worker and its leases: a token fence that would add easy members.
- Registry field validation and graph checks: a verified registry's edge map is the input.
- EdgeStore.Db.ClaimIdentity: leaves out the quarantine of front outbox rows; front claims compare lease expiry as text, so no timing is stated.
- EdgeStore.Db.PersistProjection: leaves out the two front outbox rows of an advice, as above.
- Carrier stream coordinates, row timestamps, encryption at rest and the text of routing tokens at the edge.
- The inside of the verifier (headers, keys, registry proofs): a deterministic function of the log entry, with its gate and its naming checks modelled.
- EdgeRecovery.ReconcileAuthoritative: is for a fixed log and no transient refusal, because a refusal ends the loop with an error; safety under faults is `EdgeSystem`.
- EdgeRecovery.TruthfulLogIsClean: takes as an assumption that the verifier accepts an advice only together with the case it binds, which its code does by verifying the committed case.
- EdgeRecovery.AuthorityLogsRecover: inherits that assumption.
- Projector.Projector.Prepare: leaves out the event's signature, kind and mention tag, the syntax of channels, and the rewriting of line separators before hashing.
- Projector.Projector.ReconcilePublish: leaves out the conflicting-signature answer, which an honest relay does not give.
- DispatcherTurn.Process.FinalizeAdvice: leaves the case's expiry to a free choice and runs alone; races are in `Dispatcher`.
- DispatcherTurn.Process.RunDispatcherTurn: does not tell the refusal codes apart.
- The lag counters of the projector.
- Projector: the relay is taken to be honest about what it holds, and the effect of a POST to occur before the call ends; two projectors on one store are not modelled.
- Case submission at the edge (`OpenCase`, `RetryCase`): its retry is not idempotent in the acceptance time, and advice is the harder path.
- HTTP, NATS, TLS, key custody, command lines, migrations and role provisioning.
- Integers are unbounded; the 64-bit limits of sequences and revisions are not modelled.
