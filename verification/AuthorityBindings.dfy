/** What each committed row of the authority is bound to, over every run. */
module AuthorityBindings {
  import opened Common
  import opened Authority
  import opened AuthorityInvariant

  /** A case names a registry that was accepted, by revision, commitment and epoch. */
  predicate CaseBound(regs: map<int, RegistryRow>, q: CaseRequest) {
    && q.registryRevision in regs
    && regs[q.registryRevision].request.commitment == q.registryHash
    && regs[q.registryRevision].request.routingEpoch == q.routingEpoch
  }

  /** An advice repeats the registry coordinates of its case. */
  predicate SharesRegistry(a: AdviceRequest, q: CaseRequest) {
    a.registryRevision == q.registryRevision && a.registryHash == q.registryHash && a.routingEpoch == q.routingEpoch
  }

  ghost predicate RegistriesNamed(db: Db) {
    && (forall c | c in db.cases :: CaseBound(db.registries, db.cases[c].request))
    && (forall c | c in db.advice :: c in db.cases && SharesRegistry(db.advice[c].request, db.cases[c].request))
  }

  /** No two cases, and no two advices, share a commitment. */
  ghost predicate CommitmentsDistinct(db: Db) {
    && (forall c, d | c in db.cases && d in db.cases
      && db.cases[c].request.commitment == db.cases[d].request.commitment :: c == d)
    && (forall c, d | c in db.advice && d in db.advice
      && db.advice[c].request.commitment == db.advice[d].request.commitment :: c == d)
  }

  /** The bytes queued for an entity are the bytes that were committed. */
  function QueuedRaw(db: Db, o: OutboxId): Option<Bytes> {
    match o.kind
    case CaseKind => if o.entityId in db.cases then Some(db.cases[o.entityId].request.raw) else None
    case AdviceKind => if o.entityId in db.advice then Some(db.advice[o.entityId].request.raw) else None
  }

  ghost predicate OutboxExactBytes(db: Db) {
    forall o | o in db.outbox :: QueuedRaw(db, o) == Some(db.outbox[o])
  }

  ghost predicate Bound(db: Db) {
    RegistriesNamed(db) && CommitmentsDistinct(db) && OutboxExactBytes(db)
  }

  lemma WriteCaseBound(db: Db, row: CaseRow)
    requires Bound(db) && row.request.caseId !in db.cases
    requires CaseBound(db.registries, row.request) && !CaseCollision(db, row.request)
    ensures Bound(WriteCase(db, row))
  {
    hide RegistriesNamed, CommitmentsDistinct, OutboxExactBytes, CaseCollision, CaseBound, WriteCase;
    CaseNamed(db, row);
    CaseDistinct(db, row);
    CaseOutboxBytes(db, row);
  }

  lemma CaseNamed(db: Db, row: CaseRow)
    requires RegistriesNamed(db) && CaseBound(db.registries, row.request) && row.request.caseId !in db.cases
    ensures RegistriesNamed(WriteCase(db, row))
  {
    hide CaseBound, SharesRegistry;
  }

  lemma CaseDistinct(db: Db, row: CaseRow)
    requires CommitmentsDistinct(db) && !CaseCollision(db, row.request)
    ensures CommitmentsDistinct(WriteCase(db, row))
  {
  }

  lemma CaseOutboxBytes(db: Db, row: CaseRow)
    requires OutboxExactBytes(db) && row.request.caseId !in db.cases
    ensures OutboxExactBytes(WriteCase(db, row))
  {
    var later := WriteCase(db, row);
    forall o | o in later.outbox
      ensures QueuedRaw(later, o) == Some(later.outbox[o])
    {
      if o !in CaseOutbox(row) {
        assert o in db.outbox;
      }
    }
  }

  lemma WriteAdviceBound(db: Db, row: AdviceRow)
    requires Bound(db) && row.request.caseId !in db.advice && row.request.caseId in db.cases
    requires SharesRegistry(row.request, db.cases[row.request.caseId].request) && !AdviceCollision(db, row.request)
    ensures Bound(WriteAdvice(db, row))
  {
    hide RegistriesNamed, CommitmentsDistinct, OutboxExactBytes, AdviceCollision, SharesRegistry, WriteAdvice;
    AdviceNamed(db, row);
    AdviceDistinct(db, row);
    AdviceOutboxBytes(db, row);
  }

  lemma AdviceNamed(db: Db, row: AdviceRow)
    requires RegistriesNamed(db) && row.request.caseId in db.cases
    requires SharesRegistry(row.request, db.cases[row.request.caseId].request)
    ensures RegistriesNamed(WriteAdvice(db, row))
  {
    hide CaseBound, SharesRegistry;
  }

  lemma AdviceDistinct(db: Db, row: AdviceRow)
    requires CommitmentsDistinct(db) && !AdviceCollision(db, row.request)
    ensures CommitmentsDistinct(WriteAdvice(db, row))
  {
  }

  lemma AdviceOutboxBytes(db: Db, row: AdviceRow)
    requires OutboxExactBytes(db) && row.request.caseId !in db.advice
    ensures OutboxExactBytes(WriteAdvice(db, row))
  {
    var later := WriteAdvice(db, row);
    forall o | o in later.outbox
      ensures QueuedRaw(later, o) == Some(later.outbox[o])
    {
      if o !in AdviceOutbox(row) {
        assert o in db.outbox;
      }
    }
  }

  /** The registry only gains rows, and its cases and advice stay. */
  lemma RegistryGrowsBound(db: Db, later: Db)
    requires Bound(db) && Grows(db, later) && later.cases == db.cases && later.advice == db.advice
      && later.outbox == db.outbox
    ensures Bound(later)
  {
    hide CommitmentsDistinct;
    assert CommitmentsDistinct(later) by {
      DistinctFrame(db, later);
    }
  }

  lemma DistinctFrame(db: Db, later: Db)
    requires CommitmentsDistinct(db) && later.cases == db.cases && later.advice == db.advice
    ensures CommitmentsDistinct(later)
  {
  }

  predicate SameRows(db: Db, later: Db) {
    later.cases == db.cases && later.advice == db.advice && later.outbox == db.outbox
  }

  lemma RegistrySameRows(db: Db, q: RegistryRequest, revision: int)
    ensures SameRows(db, Settled(db, RegistryWork(db, q, revision)))
  {
    hide RegistryCollision, AnyEdgeRefused, SameRegistry, WriteRegistry, Halt, SameRows;
    WroteSameRows(db, RegistryRow(q, revision));
    if db.head.Some? {
      HaltSameRows(db);
    }
  }

  lemma WroteSameRows(db: Db, row: RegistryRow)
    ensures SameRows(db, WriteRegistry(db, row)) && SameRows(db, db)
  {
  }

  lemma HaltSameRows(db: Db)
    requires db.head.Some?
    ensures SameRows(db, Halt(db))
  {
  }

  /** The head check binds a new case to the registry in force. */
  lemma CaseWorkBound(db: Db, q: CaseRequest, revision: int)
    requires Bound(db) && Chained(db.head, db.registries)
    ensures Bound(Settled(db, CaseWork(db, q, revision)))
  {
    hide Bound, WriteCase, CaseCollision, EnvelopeDelivered;
    var w := CaseWork(db, q, revision);
    if w.result.Ok? && w.commit {
      WriteCaseBound(db, CaseRow(q, revision));
    }
  }

  lemma AdviceWorkBound(db: Db, q: AdviceRequest, revision: int)
    requires Bound(db)
    ensures Bound(Settled(db, AdviceWork(db, q, revision)))
  {
    hide Bound, WriteAdvice, AdviceCollision, EnvelopeDelivered;
    var w := AdviceWork(db, q, revision);
    if w.result.Ok? && w.commit {
      var target := db.cases[q.caseId].request.issuer;
      WriteAdviceBound(db, AdviceRow(q, target, NextSequence(db, target), revision));
    }
  }

  lemma RegistryWorkBound(db: Db, q: RegistryRequest, revision: int, top: nat)
    requires Bound(db) && Valid(db, top) && revision > top && RegistryRequestOk(q)
    ensures Bound(Settled(db, RegistryWork(db, q, revision)))
  {
    hide Bound, RegistryWork, Settled, Valid, Grows, RegistryRequestOk;
    RegistryKeeps(db, q, revision, top);
    RegistrySameRows(db, q, revision);
    RegistryGrowsBound(db, Settled(db, RegistryWork(db, q, revision)));
  }

  lemma ChainOf(db: Db, top: int)
    requires Valid(db, top)
    ensures Chained(db.head, db.registries)
  {
  }

  lemma OperationBound(db: Db, op: Operation, revision: int, top: nat)
    requires Bound(db) && Valid(db, top) && revision > top
    ensures Bound(Settled(db, WorkOf(db, op, revision)))
  {
    hide Bound, Valid, CaseWork, AdviceWork, RegistryWork, CaseRequestOk, AdviceRequestOk, RegistryRequestOk;
    ChainOf(db, top);
    match op
    case CommitCaseOp(c) => CaseWorkBound(db, c, revision);
    case CommitAdviceOp(a) => AdviceWorkBound(db, a, revision);
    case CommitRegistryOp(r) =>
      if RegistryRequestOk(r) {
        RegistryWorkBound(db, r, revision, top);
      }
  }

  /** In every state of every run each case is bound to an accepted registry, each advice
      to the registry of its case, commitments are distinct and the outbox carries the
      committed bytes. */
  lemma {:induction false} RunBound(s: State, events: seq<Event>)
    requires Bound(s.db) && Valid(s.db, s.top)
    ensures Bound(Run(s, events).db)
    decreases |events|
  {
    hide Bound, Valid, WorkOf, Settled;
    if events != [] {
      var t := Apply(s, events[0]);
      OperationBound(s.db, events[0].op, t.top, s.top);
      OperationKeeps(s.db, events[0].op, t.top, s.top);
      RunBound(t, events[1..]);
    }
  }

  lemma RunsAreBound(events: seq<Event>)
    ensures Bound(Run(START, events).db)
  {
    hide Run;
    EmptyValid();
    RunBound(START, events);
  }
}
