/** What the authority promises its readers, for every run. */
module AuthorityTheorems {
  import opened Common
  import opened Authority
  import opened AuthorityInvariant
  import Paging

  // ----- Registries -----

  /** Over every run of commits an edge's generation never goes down, and if two
      accepted registries list an edge with the same generation then every registry
      between them lists it too, with that generation and the same principal. */
  lemma GenerationsNeverReturn(events: seq<Event>, e: string, r: int, s: int, t: int)
    requires var regs := Run(START, events).db.registries; Lists(regs, r, e) && Lists(regs, s, e) && r <= t <= s
    ensures var regs := Run(START, events).db.registries;
      && Listing(regs, r, e).generation <= Listing(regs, s, e).generation
      && (Listing(regs, r, e).generation == Listing(regs, s, e).generation ==>
            Lists(regs, t, e) && Listing(regs, t, e) == Listing(regs, r, e))
  {
    hide Run, LogOk, RevisionsBelow, RevisionsDistinct, OutboxExact, Chained, HighWaterAgrees;
    RunsAreValid(events);
    var regs := Run(START, events).db.registries;
    assert StintsUnbroken(regs);
    assert Listing(regs, r, e).generation == Listing(regs, s, e).generation ==> Stint(regs, e, r, s);
  }

  /** A registry accepted after any run becomes the next link of one unbroken chain. */
  lemma RegistriesFormOneChain(events: seq<Event>, r: int)
    requires r in Run(START, events).db.registries
    ensures var db := Run(START, events).db;
      && db.head.Some? && r <= db.head.value.revision
      && (forall s | r <= s <= db.head.value.revision :: s in db.registries)
      && (r - 1 in db.registries ==>
        db.registries[r].request.previousCommitment == db.registries[r - 1].request.commitment)
      && (r - 1 !in db.registries ==>
        db.registries[r].request.previousCommitment == "" && forall s | s in db.registries :: r <= s)
  {
    hide Run, LogOk, RevisionsBelow, RevisionsDistinct, OutboxExact, HighWaterAgrees, StintsUnbroken;
    RunsAreValid(events);
    var db := Run(START, events).db;
    assert Chained(db.head, db.registries);
    assert forall s | s in db.registries && s < r :: r - 1 in db.registries;
  }

  /** The evidence on which a live head halts: an older revision, other evidence for the
      current one, or a successor that does not name it. */
  predicate ConflictingEvidence(db: Db, q: RegistryRequest)
    requires db.head.Some?
  {
    var head := db.head.value;
    || q.revision < head.revision
    || (q.revision == head.revision && head.revision in db.registries
        && !SameRegistry(db.registries[head.revision].request, q))
    || (q.revision == head.revision + 1 && q.previousCommitment != head.commitment)
  }

  /** An operation halts a live head exactly when it is a valid registry with conflicting
      evidence, and then changes nothing else. */
  lemma HaltsOnConflictingEvidence(db: Db, op: Operation, revision: int)
    requires db.head.Some? && !db.head.value.halted
    ensures var later := Settled(db, WorkOf(db, op, revision));
      && later.head.Some?
      && (later.head.value.halted <==> op.CommitRegistryOp? && RegistryRequestOk(op.r) && ConflictingEvidence(db, op.r))
      && (later.head.value.halted ==> later == Halt(db))
  {
    hide CaseRequestOk, AdviceRequestOk, RegistryRequestOk, CaseWork, AdviceWork, RegistryWork;
    match op
    case CommitCaseOp(c) => CaseLeavesHead(db, c, revision);
    case CommitAdviceOp(a) => AdviceLeavesHead(db, a, revision);
    case CommitRegistryOp(r) => RegistryHalts(db, r, revision);
  }

  lemma CaseLeavesHead(db: Db, q: CaseRequest, revision: int)
    ensures Settled(db, CaseWork(db, q, revision)).head == db.head
  {
    hide CaseCollision, EnvelopeDelivered;
  }

  lemma AdviceLeavesHead(db: Db, q: AdviceRequest, revision: int)
    ensures Settled(db, AdviceWork(db, q, revision)).head == db.head
  {
    hide AdviceCollision, EnvelopeDelivered;
  }

  lemma RegistryHalts(db: Db, q: RegistryRequest, revision: int)
    requires db.head.Some? && !db.head.value.halted
    ensures var later := Settled(db, RegistryWork(db, q, revision));
      && later.head.Some? && (later.head.value.halted <==> ConflictingEvidence(db, q))
      && (later.head.value.halted ==> later == Halt(db))
  {
    hide RegistryCollision, AnyEdgeRefused, SameRegistry, WriteRegistry, Halt;
    WrittenHead(db, RegistryRow(q, revision));
    HaltedHead(db);
  }

  lemma WrittenHead(db: Db, row: RegistryRow)
    ensures WriteRegistry(db, row).head.Some? && !WriteRegistry(db, row).head.value.halted
  {
  }

  lemma HaltedHead(db: Db)
    requires db.head.Some?
    ensures Halt(db).head.Some? && Halt(db).head.value.halted
  {
  }

  /** Once the head is halted, no operation changes any table any more. */
  lemma {:induction false} HaltedForever(s: State, events: seq<Event>)
    requires s.db.head.Some? && s.db.head.value.halted
    ensures Run(s, events).db == s.db
    decreases |events|
  {
    if events != [] {
      HaltedForever(Apply(s, events[0]), events[1..]);
    }
  }

  // ----- Receipts -----

  /** The receipt of an accepted case names the row that is then stored. */
  lemma CaseStored(db: Db, q: CaseRequest, revision: int)
    requires CaseRequestOk(q) && CaseWork(db, q, revision).result.Ok?
    ensures var w := CaseWork(db, q, revision);
      && q.caseId in Settled(db, w).cases && Settled(db, w).cases[q.caseId].request == q
      && w.result.value == CaseReceipt(Settled(db, w).cases[q.caseId])
  {
    hide CaseRequestOk;
  }

  lemma AdviceStored(db: Db, q: AdviceRequest, revision: int)
    requires AdviceRequestOk(q) && AdviceWork(db, q, revision).result.Ok?
    ensures var w := AdviceWork(db, q, revision);
      && q.caseId in Settled(db, w).advice && Settled(db, w).advice[q.caseId].request == q
      && w.result.value == AdviceReceipt(Settled(db, w).advice[q.caseId])
  {
    hide AdviceRequestOk;
  }

  /** A committed case keeps its receipt: submitting it again, after anything else
      has happened and even with the registry halted, answers the same and writes nothing. */
  lemma CaseReplays(s: State, q: CaseRequest, gap: nat, events: seq<Event>, revision: int)
    requires Valid(s.db, s.top)
    requires var w := WorkOf(s.db, CommitCaseOp(q), s.top + 1 + gap); w.result.Ok?
    ensures var first := WorkOf(s.db, CommitCaseOp(q), s.top + 1 + gap);
      var later := Run(Apply(s, Event(CommitCaseOp(q), gap)), events);
      WorkOf(later.db, CommitCaseOp(q), revision) == Replay(later.db, first.result.value)
  {
    hide Valid, Run;
    var t := Apply(s, Event(CommitCaseOp(q), gap));
    OperationKeeps(s.db, CommitCaseOp(q), t.top, s.top);
    CaseStored(s.db, q, t.top);
    RunKeeps(t, events);
  }

  lemma AdviceReplays(s: State, q: AdviceRequest, gap: nat, events: seq<Event>, revision: int)
    requires Valid(s.db, s.top)
    requires var w := WorkOf(s.db, CommitAdviceOp(q), s.top + 1 + gap); w.result.Ok?
    ensures var first := WorkOf(s.db, CommitAdviceOp(q), s.top + 1 + gap);
      var later := Run(Apply(s, Event(CommitAdviceOp(q), gap)), events);
      WorkOf(later.db, CommitAdviceOp(q), revision) == Replay(later.db, first.result.value)
  {
    hide Valid, Run, WriteAdvice, WriteCase;
    var t := Apply(s, Event(CommitAdviceOp(q), gap));
    OperationKeeps(s.db, CommitAdviceOp(q), t.top, s.top);
    AdviceStored(s.db, q, t.top);
    RunKeeps(t, events);
  }

  // ----- Delivery logs -----

  function LogLength(db: Db, key: EdgeKey): int {
    if key in db.nextSequence then db.nextSequence[key] - 1 else 0
  }

  /** The delivery log of one edge generation, entry i carrying sequence i + 1. */
  ghost function Log(db: Db, key: EdgeKey): (log: seq<Delivery>)
    requires Numbered(db.nextSequence, db.deliveries)
    ensures |log| == LogLength(db, key)
    ensures forall i | 0 <= i < |log| :: Slot(key, i + 1) in db.deliveries && log[i] == db.deliveries[Slot(key, i + 1)]
  {
    seq(LogLength(db, key), i requires 0 <= i < LogLength(db, key) => db.deliveries[Slot(key, i + 1)])
  }

  /** The log of an edge generation after a run of the authority. */
  ghost function LogAfter(events: seq<Event>, key: EdgeKey): seq<Delivery> {
    RunsAreValid(events);
    ValidNumbered(Run(START, events).db, Run(START, events).top);
    Log(Run(START, events).db, key)
  }

  /** In a valid state a log is ordered by revision and no envelope is in it twice. */
  lemma LogsAreOrdered(db: Db, top: int, key: EdgeKey, i: int, j: int)
    requires Valid(db, top) && 0 <= i < j < LogLength(db, key)
    ensures var log := Log(db, key);
      log[i].revision < log[j].revision && log[i].envelopeId != log[j].envelopeId
  {
    hide RevisionsBelow, RevisionsDistinct, OutboxExact, RegistryOk, EntriesBacked, CasesLogged, AdviceLogged;
    assert Slot(key, i + 1) in db.deliveries && Slot(key, j + 1) in db.deliveries;
  }

  /** Where the case answered by an advice entry is logged. */
  lemma CaseSequence(db: Db, key: EdgeKey, j: int) returns (s: int)
    requires LogOk(db) && Slot(key, j) in db.deliveries && db.deliveries[Slot(key, j)].kind == AdviceKind
    ensures var d := db.deliveries[Slot(key, j)];
      && d.caseId in db.cases && d.caseId in db.advice && d.revision == db.advice[d.caseId].revision
      && AdviceBound(db, d.caseId)
      && LoggedAt(db, key, s, CaseDelivery(db.cases[d.caseId]))
  {
    hide Numbered, Increasing, EnvelopesUnique;
    var d := db.deliveries[Slot(key, j)];
    assert Backed(db, Slot(key, j), d);
    assert AdviceBound(db, d.caseId);
    s :| LoggedAt(db, db.cases[d.caseId].request.issuer, s, CaseDelivery(db.cases[d.caseId]));
  }

  /** Every advice in a log follows the case it answers, in the same log. */
  lemma AdviceFollowsCase(db: Db, top: int, key: EdgeKey, j: int) returns (i: int)
    requires Valid(db, top) && 0 <= j < LogLength(db, key) && Log(db, key)[j].kind == AdviceKind
    ensures 0 <= i < j && Log(db, key)[i].kind == CaseKind && Log(db, key)[i].caseId == Log(db, key)[j].caseId
  {
    hide RevisionsBelow, RevisionsDistinct, OutboxExact, RegistryOk, EnvelopesUnique, EntriesBacked, CasesLogged,
      AdviceLogged;
    var s := CaseSequence(db, key, j + 1);
    var c := db.deliveries[Slot(key, j + 1)].caseId;
    assert db.cases[c].request.caseId == c by {
      CaseNamed(db, c);
    }
    i := s - 1;
    assert LoggedAt(db, key, s, CaseDelivery(db.cases[c]));
    assert db.deliveries[Slot(key, s)].revision < db.deliveries[Slot(key, j + 1)].revision;
  }

  lemma CaseNamed(db: Db, c: string)
    requires LogOk(db) && c in db.cases
    ensures db.cases[c].request.caseId == c
  {
  }

  /** Each committed case is delivered once and queued for its domain and its edge. */
  lemma CaseDeliveredOnce(db: Db, top: int, c: string)
    requires Valid(db, top) && c in db.cases
    ensures exists slot ::
      slot in db.deliveries && slot.key == db.cases[c].request.issuer
      && db.deliveries[slot] == CaseDelivery(db.cases[c])
    ensures forall a, b | a in db.deliveries && b in db.deliveries &&
      db.deliveries[a].kind == CaseKind && db.deliveries[b].kind == CaseKind && db.deliveries[a].caseId == c
        && db.deliveries[b].caseId == c :: a == b
    ensures |set o | o in db.outbox && o.kind == CaseKind && o.entityId == c| == 2
  {
    var row := db.cases[c];
    var s :| LoggedAt(db, row.request.issuer, s, CaseDelivery(row));
    assert Slot(row.request.issuer, s) in db.deliveries;
    forall a, b | a in db.deliveries && b in db.deliveries &&
      db.deliveries[a].kind == CaseKind && db.deliveries[b].kind == CaseKind && db.deliveries[a].caseId == c
        && db.deliveries[b].caseId == c
      ensures a == b
    {
      assert Backed(db, a, db.deliveries[a]) && Backed(db, b, db.deliveries[b]);
    }
    CaseOutboxRows(db, c);
  }

  lemma CaseOutboxRows(db: Db, c: string)
    requires OutboxExact(db) && c in db.cases
    ensures |set o | o in db.outbox && o.kind == CaseKind && o.entityId == c| == 2
  {
    var row := db.cases[c];
    var d := OutboxId(CaseKind, c, row.revision, DomainDispatch(row.request.domain));
    var e := OutboxId(CaseKind, c, row.revision, EdgeDelivery(row.request.issuer));
    var rows := set o | o in db.outbox && o.kind == CaseKind && o.entityId == c;
    assert OutboxDue(db, d) && OutboxDue(db, e);
    forall o | o in rows
      ensures o in {d, e}
    {
      assert OutboxDue(db, o);
    }
    assert rows == {d, e};
  }

  lemma AdviceDeliveredOnce(db: Db, top: int, c: string)
    requires Valid(db, top) && c in db.advice
    ensures var slot := Slot(db.advice[c].target, db.advice[c].sequence);
      && slot in db.deliveries && db.deliveries[slot] == AdviceDelivery(db.advice[c])
      && forall a | a in db.deliveries && db.deliveries[a].kind == AdviceKind && db.deliveries[a].caseId == c ::
        a == slot
    ensures |set o | o in db.outbox && o.kind == AdviceKind && o.entityId == c| == 1
  {
    var row := db.advice[c];
    assert AdviceBound(db, c);
    forall a | a in db.deliveries && db.deliveries[a].kind == AdviceKind && db.deliveries[a].caseId == c
      ensures a == Slot(row.target, row.sequence)
    {
      assert Backed(db, a, db.deliveries[a]);
    }
    AdviceOutboxRows(db, c);
  }

  lemma AdviceOutboxRows(db: Db, c: string)
    requires OutboxExact(db) && c in db.advice
    ensures |set o | o in db.outbox && o.kind == AdviceKind && o.entityId == c| == 1
  {
    var e := OutboxId(AdviceKind, c, db.advice[c].revision, EdgeDelivery(db.advice[c].target));
    var rows := set o | o in db.outbox && o.kind == AdviceKind && o.entityId == c;
    assert OutboxDue(db, e);
    forall o | o in rows
      ensures o == e
    {
      assert OutboxDue(db, o);
    }
    assert rows == {e};
  }

  /** Logs only ever grow at their end. */
  lemma LogsExtend(db: Db, top: int, later: Db, laterTop: int, key: EdgeKey)
    requires Valid(db, top) && Valid(later, laterTop) && Grows(db, later)
    ensures Log(db, key) <= Log(later, key)
  {
    hide RevisionsBelow, RevisionsDistinct, OutboxExact, RegistryOk, EnvelopesUnique, EntriesBacked, CasesLogged,
      AdviceLogged, Increasing;
    var n := LogLength(db, key);
    if n > 0 {
      assert Slot(key, n) in db.deliveries;
      assert Slot(key, n) in later.deliveries;
    }
  }

  // ----- Reading a log -----

  datatype EdgeQuery = EdgeQuery(edgeId: string, principalId: string, generation: int, after: int, limit: int)
  datatype Entry = Entry(sequence: int, delivery: Delivery)
  datatype Page = Page(entries: seq<Entry>, highWatermark: int, completeThrough: int)

  predicate QueryOk(q: EdgeQuery) {
    ValidText(q.edgeId) && ValidText(q.principalId) && q.generation > 0 && q.after >= 0 && 0 < q.limit <= 1000
  }

  function Sequences(db: Db, key: EdgeKey): set<int> {
    set slot | slot in db.deliveries && slot.key == key :: slot.sequence
  }

  /** The rows of one page, as the ordered and limited query returns them. */
  function PageRows(db: Db, key: EdgeKey, after: int, limit: nat): seq<Entry> {
    var page := Paging.Ordered(Sequences(db, key), after, limit);
    seq(|page|, i requires 0 <= i < |page| =>
      Entry(page[i], if Slot(key, page[i]) in db.deliveries then db.deliveries[Slot(key, page[i])]
        else Delivery(CaseKind, "", "", "", [], 0)))
  }

  function ReadPage(db: Db, key: EdgeKey, after: int, limit: nat): Page {
    var entries := PageRows(db, key, after, limit);
    var high := Paging.Largest(Sequences(db, key));
    var through := if entries == [] then after else entries[|entries| - 1].sequence;
    Page(entries, high, if |entries| < limit && high > through then high else through)
  }

  function ListEdgeDeliveries(db: Db, q: EdgeQuery): Result<Page, Error> {
    if !QueryOk(q) then Err(InvalidRequest)
    else if db.head.None? || q.edgeId !in db.highWater then Err(EdgeNotActive)
    else if db.head.value.halted then Err(RegistryHalted)
    else
      var mark := db.highWater[q.edgeId];
      if mark.principalId != q.principalId || mark.generation != q.generation
        || mark.lastSeen != db.head.value.revision then Err(EdgeNotActive)
      else Ok(ReadPage(db, EdgeKey(q.edgeId, q.generation), q.after, q.limit))
  }

  /** The query is answered exactly when the head registry is not halted and lists this
      edge with this principal and this generation; a halt is reported exactly to edges
      that some registry listed. */
  lemma PageNeedsActiveEdge(db: Db, top: int, q: EdgeQuery)
    requires Valid(db, top)
    ensures ListEdgeDeliveries(db, q).Ok? <==>
      && QueryOk(q) && db.head.Some? && !db.head.value.halted
      && Lists(db.registries, db.head.value.revision, q.edgeId)
      && Listing(db.registries, db.head.value.revision, q.edgeId) == RegistryEdge(q.principalId, q.generation)
    ensures ListEdgeDeliveries(db, q) == Err(RegistryHalted) <==>
      QueryOk(q) && db.head.Some? && db.head.value.halted && exists r :: Lists(db.registries, r, q.edgeId)
  {
    hide LogOk, RevisionsBelow, RevisionsDistinct, OutboxExact, ReadPage, QueryOk, StintsUnbroken;
    if db.head.Some? && Lists(db.registries, db.head.value.revision, q.edgeId) {
      assert q.edgeId in db.highWater && db.head.value.revision <= db.highWater[q.edgeId].lastSeen;
      assert Lists(db.registries, db.highWater[q.edgeId].lastSeen, q.edgeId);
    }
  }

  lemma SequencesAreNumbers(db: Db, key: EdgeKey)
    requires Numbered(db.nextSequence, db.deliveries)
    ensures forall s :: s in Sequences(db, key) <==> 1 <= s <= LogLength(db, key)
    ensures Paging.Largest(Sequences(db, key)) == LogLength(db, key) >= 0
  {
    forall s
      ensures s in Sequences(db, key) <==> 1 <= s <= LogLength(db, key)
    {
      assert Slot(key, s) in db.deliveries <==> key in db.nextSequence && 1 <= s < db.nextSequence[key];
      assert s in Sequences(db, key) <==> Slot(key, s) in db.deliveries;
    }
    var n := LogLength(db, key);
    if n > 0 {
      assert n in Sequences(db, key);
    } else {
      assert forall s :: s !in Sequences(db, key);
    }
  }

  /** A page is the stretch of the log after the cursor, at most limit entries long,
      with their numbers, the length of the log, and how far the page completes it. */
  lemma PageIsSlice(db: Db, top: int, key: EdgeKey, after: nat, limit: nat)
    requires Valid(db, top)
    ensures var log := Log(db, key); var page := ReadPage(db, key, after, limit);
      var end := if after >= |log| then after else if |log| - after < limit then |log| else after + limit;
      && page.highWatermark == |log| && page.completeThrough == end
      && |page.entries| == end - after
      && forall i | 0 <= i < |page.entries| :: page.entries[i] == Entry(after + 1 + i, log[after + i])
  {
    hide LogOk, RevisionsBelow, RevisionsDistinct, OutboxExact, RegistryOk;
    assert Numbered(db.nextSequence, db.deliveries) by {
      ValidNumbered(db, top);
    }
    hide Numbered;
    SequencesAreNumbers(db, key);
    Paging.OrderedConsecutive(Sequences(db, key), LogLength(db, key), after, limit);
  }
}
