/** What every committed state of the authority satisfies, and what later states
    keep of earlier ones, over every run of case, advice and registry commits with
    arbitrary refusals, replays, rollbacks and revision gaps. */
module AuthorityInvariant {
  import opened Common
  import opened Authority

  // ----- The delivery logs -----

  /** Each log is numbered 1, 2, ... up to its sequence counter, without holes. */
  ghost predicate Numbered(next: map<EdgeKey, int>, log: map<Slot, Delivery>) {
    && (forall k | k in next :: next[k] >= 1)
    && (forall k, s :: Slot(k, s) in log <==> k in next && 1 <= s < next[k])
  }

  ghost predicate Increasing(log: map<Slot, Delivery>) {
    forall k, s, t | Slot(k, s) in log && Slot(k, t) in log && s < t ::
      log[Slot(k, s)].revision < log[Slot(k, t)].revision
  }

  /** An envelope identifier is delivered once, whichever family and edge it is for. */
  ghost predicate EnvelopesUnique(log: map<Slot, Delivery>) {
    forall a, b | a in log && b in log && log[a].envelopeId == log[b].envelopeId :: a == b
  }

  /** A delivery entry is the copy of a committed case or advice. */
  ghost predicate Backed(db: Db, slot: Slot, d: Delivery) {
    match d.kind
    case CaseKind =>
      && d.caseId in db.cases
      && d == CaseDelivery(db.cases[d.caseId]) && slot.key == db.cases[d.caseId].request.issuer
    case AdviceKind =>
      && d.caseId in db.advice
      && d == AdviceDelivery(db.advice[d.caseId])
      && slot == Slot(db.advice[d.caseId].target, db.advice[d.caseId].sequence)
  }

  ghost predicate EntriesBacked(db: Db) {
    forall slot | slot in db.deliveries :: Backed(db, slot, db.deliveries[slot])
  }

  ghost predicate LoggedAt(db: Db, key: EdgeKey, s: int, d: Delivery) {
    Slot(key, s) in db.deliveries && db.deliveries[Slot(key, s)] == d
  }

  ghost predicate CasesLogged(db: Db) {
    forall c | c in db.cases ::
      && db.cases[c].request.caseId == c
      && exists s :: LoggedAt(db, db.cases[c].request.issuer, s, CaseDelivery(db.cases[c]))
  }

  /** Each advice answers a committed case: it is bound to that case, later than it
      and logged for the edge generation that issued it. */
  ghost predicate AdviceBound(db: Db, c: string)
    requires c in db.advice
  {
    var a := db.advice[c];
    && a.request.caseId == c && c in db.cases
    && a.target == db.cases[c].request.issuer
    && a.request.caseCommitment == db.cases[c].request.commitment
    && db.cases[c].revision < a.revision
    && LoggedAt(db, a.target, a.sequence, AdviceDelivery(a))
  }

  ghost predicate AdviceLogged(db: Db) {
    forall c | c in db.advice :: AdviceBound(db, c)
  }

  // ----- Revisions -----

  ghost predicate RevisionsBelow(db: Db, top: int) {
    && (forall c | c in db.cases :: 0 < db.cases[c].revision <= top)
    && (forall c | c in db.advice :: 0 < db.advice[c].revision <= top)
    && (forall r | r in db.registries :: 0 < db.registries[r].commitRevision <= top)
    && (forall slot | slot in db.deliveries :: 0 < db.deliveries[slot].revision <= top)
  }

  ghost predicate RevisionsDistinct(db: Db) {
    && (forall c, d | c in db.cases && d in db.cases && db.cases[c].revision == db.cases[d].revision :: c == d)
    && (forall c, d | c in db.advice && d in db.advice && db.advice[c].revision == db.advice[d].revision :: c == d)
    && (forall c, d | c in db.cases && d in db.advice :: db.cases[c].revision != db.advice[d].revision)
  }

  // ----- The outbox -----

  predicate OutboxDue(db: Db, o: OutboxId) {
    match o.kind
    case CaseKind =>
      && o.entityId in db.cases && o.revision == db.cases[o.entityId].revision
      && (o.destination == DomainDispatch(db.cases[o.entityId].request.domain) ||
          o.destination == EdgeDelivery(db.cases[o.entityId].request.issuer))
    case AdviceKind =>
      && o.entityId in db.advice && o.revision == db.advice[o.entityId].revision
      && o.destination == EdgeDelivery(db.advice[o.entityId].target)
  }

  /** Exactly two outbox rows for each case and one for each advice, and no other. */
  ghost predicate OutboxExact(db: Db) {
    forall o :: o in db.outbox <==> OutboxDue(db, o)
  }

  // ----- The registry chain -----

  /** The registries form one chain of consecutive revisions that ends at the head,
      each naming the commitment of the one before it; the first names none. */
  ghost predicate Chained(head: Option<Head>, regs: map<int, RegistryRow>) {
    match head
    case None => regs == map[]
    case Some(h) =>
      && h.revision in regs
      && regs[h.revision].request.commitment == h.commitment
      && regs[h.revision].request.routingEpoch == h.routingEpoch
      && (forall r | r in regs :: 0 < r <= h.revision && regs[r].request.revision == r)
      && (forall r, s | r in regs && r <= s <= h.revision :: s in regs)
      && (forall r | r in regs ::
            regs[r].request.previousCommitment == if r - 1 in regs then regs[r - 1].request.commitment else "")
  }

  /** Registry r lists edge e. */
  predicate Lists(regs: map<int, RegistryRow>, r: int, e: string) {
    r in regs && e in regs[r].request.edges
  }

  function Listing(regs: map<int, RegistryRow>, r: int, e: string): RegistryEdge
    requires Lists(regs, r, e)
  {
    regs[r].request.edges[e]
  }

  /** The high-water row of an edge is what the last registry that lists it says. */
  ghost predicate HighWaterAgrees(highWater: map<string, HighWater>, regs: map<int, RegistryRow>) {
    && (forall e | e in highWater ::
          && Lists(regs, highWater[e].lastSeen, e)
          && Listing(regs, highWater[e].lastSeen, e) == RegistryEdge(highWater[e].principalId, highWater[e].generation))
    && (forall r, e | Lists(regs, r, e) :: e in highWater && r <= highWater[e].lastSeen)
  }

  /** From r to s every registry lists e, always with the same generation and principal. */
  ghost predicate Stint(regs: map<int, RegistryRow>, e: string, r: int, s: int)
    requires Lists(regs, r, e)
  {
    forall t | r <= t <= s :: Lists(regs, t, e) && Listing(regs, t, e) == Listing(regs, r, e)
  }

  /** Generations never go down, and one generation is one unbroken stint of one principal. */
  ghost predicate StintsUnbroken(regs: map<int, RegistryRow>) {
    forall e, r, s | r <= s && Lists(regs, r, e) && Lists(regs, s, e) ::
      && Listing(regs, r, e).generation <= Listing(regs, s, e).generation
      && (Listing(regs, r, e).generation == Listing(regs, s, e).generation ==> Stint(regs, e, r, s))
  }

  ghost predicate LogOk(db: Db) {
    && Numbered(db.nextSequence, db.deliveries) && Increasing(db.deliveries) && EnvelopesUnique(db.deliveries)
    && EntriesBacked(db) && CasesLogged(db) && AdviceLogged(db)
  }

  ghost predicate RegistryOk(db: Db) {
    && Chained(db.head, db.registries) && HighWaterAgrees(db.highWater, db.registries) && StintsUnbroken(db.registries)
    && (db.head.None? ==> db.cases == map[])
  }

  ghost predicate Valid(db: Db, top: int) {
    LogOk(db) && RevisionsBelow(db, top) && RevisionsDistinct(db) && OutboxExact(db) && RegistryOk(db)
  }

  lemma ValidNumbered(db: Db, top: int)
    requires Valid(db, top)
    ensures Numbered(db.nextSequence, db.deliveries)
  {
  }

  // ----- Appending to a log -----

  lemma AppendNumbered(next: map<EdgeKey, int>, log: map<Slot, Delivery>, key: EdgeKey, n: int, d: Delivery)
    requires Numbered(next, log) && n == (if key in next then next[key] else 1)
    ensures Slot(key, n) !in log
    ensures Numbered(next[key := n + 1], log[Slot(key, n) := d])
  {
    var next', log' := next[key := n + 1], log[Slot(key, n) := d];
    forall k, s
      ensures Slot(k, s) in log' <==> k in next' && 1 <= s < next'[k]
    {
      if !(k == key && s == n) {
        assert Slot(k, s) in log' <==> Slot(k, s) in log;
      }
    }
  }

  lemma AppendIncreasing(next: map<EdgeKey, int>, log: map<Slot, Delivery>, key: EdgeKey, n: int, d: Delivery, top: int)
    requires Numbered(next, log) && n == (if key in next then next[key] else 1)
    requires Increasing(log) && (forall slot | slot in log :: log[slot].revision <= top) && d.revision > top
    ensures Increasing(log[Slot(key, n) := d])
  {
    var log' := log[Slot(key, n) := d];
    forall k, s, t | Slot(k, s) in log' && Slot(k, t) in log' && s < t
      ensures log'[Slot(k, s)].revision < log'[Slot(k, t)].revision
    {
      if k == key && t == n {
        assert Slot(k, s) in log;
      } else {
        assert Slot(k, t) in log;
        assert !(k == key && s == n);
        assert Slot(k, s) in log;
      }
    }
  }

  lemma AppendUnique(log: map<Slot, Delivery>, slot: Slot, d: Delivery)
    requires slot !in log && EnvelopesUnique(log) && forall o | o in log :: log[o].envelopeId != d.envelopeId
    ensures EnvelopesUnique(log[slot := d])
  {
  }

  // ----- Rows are only added -----

  /** Every committed row of db is still there, unchanged, in later. */
  ghost predicate Grows(db: Db, later: Db) {
    && (forall c | c in db.cases :: c in later.cases && later.cases[c] == db.cases[c])
    && (forall c | c in db.advice :: c in later.advice && later.advice[c] == db.advice[c])
    && (forall s | s in db.deliveries :: s in later.deliveries && later.deliveries[s] == db.deliveries[s])
    && (forall r | r in db.registries :: r in later.registries && later.registries[r] == db.registries[r])
  }

  lemma BackedGrows(db: Db, later: Db)
    requires EntriesBacked(db) && Grows(db, later)
    requires forall s | s in later.deliveries && s !in db.deliveries :: Backed(later, s, later.deliveries[s])
    ensures EntriesBacked(later)
  {
    forall s | s in later.deliveries
      ensures Backed(later, s, later.deliveries[s])
    {
      if s in db.deliveries {
        assert Backed(db, s, db.deliveries[s]);
      }
    }
  }

  lemma CasesLoggedGrows(db: Db, later: Db)
    requires CasesLogged(db) && Grows(db, later)
    requires forall c | c in later.cases && c !in db.cases ::
      later.cases[c].request.caseId == c && exists s ::
        LoggedAt(later, later.cases[c].request.issuer, s, CaseDelivery(later.cases[c]))
    ensures CasesLogged(later)
  {
    forall c | c in later.cases
      ensures later.cases[c].request.caseId == c && exists s ::
        LoggedAt(later, later.cases[c].request.issuer, s, CaseDelivery(later.cases[c]))
    {
      if c in db.cases {
        var s :| LoggedAt(db, db.cases[c].request.issuer, s, CaseDelivery(db.cases[c]));
        assert LoggedAt(later, later.cases[c].request.issuer, s, CaseDelivery(later.cases[c]));
      }
    }
  }

  lemma AdviceLoggedGrows(db: Db, later: Db)
    requires AdviceLogged(db) && Grows(db, later)
    requires forall c | c in later.advice && c !in db.advice :: AdviceBound(later, c)
    ensures AdviceLogged(later)
  {
    forall c | c in later.advice
      ensures AdviceBound(later, c)
    {
      if c in db.advice {
        assert AdviceBound(db, c);
      }
    }
  }

  // ----- Committing a case -----

  lemma WriteCaseGrows(db: Db, row: CaseRow)
    requires Numbered(db.nextSequence, db.deliveries) && row.request.caseId !in db.cases
    ensures Grows(db, WriteCase(db, row))
  {
    AppendNumbered(db.nextSequence, db.deliveries, row.request.issuer, NextSequence(db, row.request.issuer),
      CaseDelivery(row));
  }

  lemma WriteCaseLogs(db: Db, row: CaseRow, top: int)
    requires LogOk(db) && RevisionsBelow(db, top) && row.revision > top
    requires row.request.caseId !in db.cases && !EnvelopeDelivered(db, row.request.envelopeId)
    ensures LogOk(WriteCase(db, row)) && Grows(db, WriteCase(db, row))
  {
    hide Numbered, Increasing, EnvelopesUnique, EntriesBacked, CasesLogged, AdviceLogged, Grows;
    var later := WriteCase(db, row);
    var key, d := row.request.issuer, CaseDelivery(row);
    var n := NextSequence(db, key);
    AppendNumbered(db.nextSequence, db.deliveries, key, n, d);
    AppendIncreasing(db.nextSequence, db.deliveries, key, n, d, top);
    AppendUnique(db.deliveries, Slot(key, n), d);
    WriteCaseGrows(db, row);
    BackedGrows(db, later);
    assert LoggedAt(later, key, n, d);
    CasesLoggedGrows(db, later);
    AdviceLoggedGrows(db, later);
  }

  lemma WriteCaseRevisions(db: Db, row: CaseRow, top: int)
    requires RevisionsBelow(db, top) && RevisionsDistinct(db) && row.revision > top >= 0
    requires row.request.caseId !in db.cases
    ensures RevisionsBelow(WriteCase(db, row), row.revision) && RevisionsDistinct(WriteCase(db, row))
  {
  }

  lemma WriteCaseDue(db: Db, row: CaseRow, o: OutboxId)
    requires row.request.caseId !in db.cases && (o in db.outbox <==> OutboxDue(db, o))
    ensures o in WriteCase(db, row).outbox <==> OutboxDue(WriteCase(db, row), o)
  {
    assert o in WriteCase(db, row).outbox <==> o in db.outbox || o in CaseOutbox(row);
    assert !(o.kind.CaseKind? && o.entityId == row.request.caseId) ==> o !in CaseOutbox(row);
  }

  lemma WriteCaseOutbox(db: Db, row: CaseRow)
    requires OutboxExact(db) && row.request.caseId !in db.cases
    ensures OutboxExact(WriteCase(db, row))
  {
    hide WriteCase, OutboxDue;
    forall o
      ensures o in WriteCase(db, row).outbox <==> OutboxDue(WriteCase(db, row), o)
    {
      assert o in db.outbox <==> OutboxDue(db, o);
      WriteCaseDue(db, row, o);
    }
  }

  // ----- Committing advice -----

  lemma WriteAdviceGrows(db: Db, row: AdviceRow)
    requires Numbered(db.nextSequence, db.deliveries) && row.request.caseId !in db.advice
    ensures Grows(db, WriteAdvice(db, row))
  {
    AppendNumbered(db.nextSequence, db.deliveries, row.target, NextSequence(db, row.target), AdviceDelivery(row));
  }

  ghost predicate AdviceAnswers(db: Db, row: AdviceRow) {
    && row.request.caseId in db.cases && row.request.caseId !in db.advice
    && row.target == db.cases[row.request.caseId].request.issuer
    && row.request.caseCommitment == db.cases[row.request.caseId].request.commitment
    && row.sequence == NextSequence(db, row.target)
    && !EnvelopeDelivered(db, row.request.envelopeId)
  }

  lemma WriteAdviceLogs(db: Db, row: AdviceRow, top: int)
    requires LogOk(db) && RevisionsBelow(db, top) && row.revision > top && AdviceAnswers(db, row)
    ensures LogOk(WriteAdvice(db, row)) && Grows(db, WriteAdvice(db, row))
  {
    hide Numbered, Increasing, EnvelopesUnique, EntriesBacked, CasesLogged, AdviceLogged, Grows;
    var later := WriteAdvice(db, row);
    var key, d, n := row.target, AdviceDelivery(row), row.sequence;
    AppendNumbered(db.nextSequence, db.deliveries, key, n, d);
    AppendIncreasing(db.nextSequence, db.deliveries, key, n, d, top);
    AppendUnique(db.deliveries, Slot(key, n), d);
    WriteAdviceGrows(db, row);
    BackedGrows(db, later);
    CasesLoggedGrows(db, later);
    assert LoggedAt(later, key, n, d);
    assert AdviceBound(later, row.request.caseId);
    AdviceLoggedGrows(db, later);
  }

  lemma WriteAdviceRevisions(db: Db, row: AdviceRow, top: int)
    requires RevisionsBelow(db, top) && RevisionsDistinct(db) && row.revision > top >= 0
    requires row.request.caseId !in db.advice
    ensures RevisionsBelow(WriteAdvice(db, row), row.revision) && RevisionsDistinct(WriteAdvice(db, row))
  {
  }

  lemma WriteAdviceDue(db: Db, row: AdviceRow, o: OutboxId)
    requires row.request.caseId !in db.advice && (o in db.outbox <==> OutboxDue(db, o))
    ensures o in WriteAdvice(db, row).outbox <==> OutboxDue(WriteAdvice(db, row), o)
  {
    assert o in WriteAdvice(db, row).outbox <==> o in db.outbox || o in AdviceOutbox(row);
    assert !(o.kind.AdviceKind? && o.entityId == row.request.caseId) ==> o !in AdviceOutbox(row);
  }

  lemma WriteAdviceOutbox(db: Db, row: AdviceRow)
    requires OutboxExact(db) && row.request.caseId !in db.advice
    ensures OutboxExact(WriteAdvice(db, row))
  {
    hide WriteAdvice, OutboxDue;
    forall o
      ensures o in WriteAdvice(db, row).outbox <==> OutboxDue(WriteAdvice(db, row), o)
    {
      assert o in db.outbox <==> OutboxDue(db, o);
      WriteAdviceDue(db, row, o);
    }
  }

  // ----- Committing a registry -----

  /** The registry extends the chain and no high-water row refuses it. */
  ghost predicate RegistryFollows(db: Db, q: RegistryRequest) {
    && RegistryRequestOk(q)
    && (match db.head
        case None => q.previousCommitment == ""
        case Some(h) => q.revision == h.revision + 1 && q.previousCommitment == h.commitment)
    && !AnyEdgeRefused(db.highWater, q.edges, db.head)
  }

  lemma WriteRegistryChained(db: Db, row: RegistryRow)
    requires Chained(db.head, db.registries) && RegistryFollows(db, row.request)
    ensures row.request.revision !in db.registries
    ensures Chained(WriteRegistry(db, row).head, WriteRegistry(db, row).registries)
    ensures Grows(db, WriteRegistry(db, row))
  {
  }

  lemma WriteRegistryHighWater(db: Db, row: RegistryRow)
    requires Chained(db.head, db.registries) && HighWaterAgrees(db.highWater, db.registries)
      && RegistryFollows(db, row.request)
    ensures var later := WriteRegistry(db, row); HighWaterAgrees(later.highWater, later.registries)
  {
    hide Chained;
    WriteRegistryChained(db, row);
    var later := WriteRegistry(db, row);
    var regs, q := later.registries, row.request;
    assert forall r, e | Lists(db.registries, r, e) :: r < q.revision by {
      HeadIsLast(db, q);
    }
    forall e | e in later.highWater
      ensures Lists(regs, later.highWater[e].lastSeen, e)
      ensures Listing(regs, later.highWater[e].lastSeen, e) ==
        RegistryEdge(later.highWater[e].principalId, later.highWater[e].generation)
    {
      if e !in q.edges {
        assert Lists(db.registries, db.highWater[e].lastSeen, e);
      }
    }
    forall r, e | Lists(regs, r, e)
      ensures e in later.highWater && r <= later.highWater[e].lastSeen
    {
      if r != q.revision {
        assert Lists(db.registries, r, e);
      }
    }
  }

  lemma HeadIsLast(db: Db, q: RegistryRequest)
    requires Chained(db.head, db.registries) && RegistryFollows(db, q)
    ensures forall r | r in db.registries :: r < q.revision
    ensures db.head.Some? ==> db.head.value.revision == q.revision - 1
  {
  }

  /** An edge that the new registry lists and an older one listed: the new generation
      is higher, or the edge was listed throughout, up to the head, by this principal. */
  lemma RelistedEdge(db: Db, q: RegistryRequest, e: string, r: int)
    requires HighWaterAgrees(db.highWater, db.registries) && StintsUnbroken(db.registries)
    requires RegistryFollows(db, q) && Lists(db.registries, r, e) && e in q.edges
    ensures Listing(db.registries, r, e).generation <= q.edges[e].generation
    ensures Listing(db.registries, r, e).generation == q.edges[e].generation ==>
      db.head.Some? && Stint(db.registries, e, r, db.head.value.revision) && q.edges[e] == Listing(db.registries, r, e)
  {
    var regs := db.registries;
    var last := db.highWater[e].lastSeen;
    assert !HighWaterRefuses(db.highWater, e, q.edges[e], db.head);
    assert Lists(regs, last, e) && r <= last;
    assert Listing(regs, r, e).generation <= Listing(regs, last, e).generation;
    if Listing(regs, r, e).generation == q.edges[e].generation {
      assert Stint(regs, e, r, last);
      assert Listing(regs, last, e) == Listing(regs, r, e);
    }
  }

  /** Two registries that list an edge, the newer one being the one just written. */
  lemma StintToNew(db: Db, row: RegistryRow, e: string, r: int)
    requires Chained(db.head, db.registries) && HighWaterAgrees(db.highWater, db.registries)
    requires StintsUnbroken(db.registries) && RegistryFollows(db, row.request)
    requires Lists(db.registries, r, e) && e in row.request.edges
    ensures var regs, s := WriteRegistry(db, row).registries, row.request.revision;
      && Lists(regs, r, e) && Lists(regs, s, e)
      && Listing(regs, r, e).generation <= Listing(regs, s, e).generation
      && (Listing(regs, r, e).generation == Listing(regs, s, e).generation ==> Stint(regs, e, r, s))
  {
    hide Chained, HighWaterAgrees, RegistryFollows, StintsUnbroken, Stint, RaisedHighWater;
    HeadIsLast(db, row.request);
    RelistedEdge(db, row.request, e, r);
    var regs, s := WriteRegistry(db, row).registries, row.request.revision;
    if Listing(regs, r, e).generation == Listing(regs, s, e).generation {
      StintLater(db.registries, regs, e, r, s - 1);
      StintExtends(regs, e, r, s);
    }
  }

  lemma WriteRegistryStints(db: Db, row: RegistryRow)
    requires Chained(db.head, db.registries) && HighWaterAgrees(db.highWater, db.registries)
    requires StintsUnbroken(db.registries) && RegistryFollows(db, row.request)
    ensures StintsUnbroken(WriteRegistry(db, row).registries)
  {
    hide Chained, HighWaterAgrees, RegistryFollows, Stint, RaisedHighWater;
    HeadIsLast(db, row.request);
    var regs, q := WriteRegistry(db, row).registries, row.request;
    forall e, r, s | r <= s && Lists(regs, r, e) && Lists(regs, s, e)
      ensures Listing(regs, r, e).generation <= Listing(regs, s, e).generation
      ensures Listing(regs, r, e).generation == Listing(regs, s, e).generation ==> Stint(regs, e, r, s)
    {
      if s != q.revision {
        assert Lists(db.registries, r, e) && Lists(db.registries, s, e);
        if Listing(regs, r, e).generation == Listing(regs, s, e).generation {
          StintLater(db.registries, regs, e, r, s);
        }
      } else if r != q.revision {
        StintToNew(db, row, e, r);
      } else {
        StintOfOne(regs, e, r);
      }
    }
  }

  lemma StintExtends(regs: map<int, RegistryRow>, e: string, r: int, s: int)
    requires Lists(regs, r, e) && Stint(regs, e, r, s - 1) && Lists(regs, s, e)
      && Listing(regs, s, e) == Listing(regs, r, e)
    ensures Stint(regs, e, r, s)
  {
  }

  lemma StintOfOne(regs: map<int, RegistryRow>, e: string, r: int)
    requires Lists(regs, r, e)
    ensures Stint(regs, e, r, r)
  {
  }

  lemma StintLater(regs: map<int, RegistryRow>, later: map<int, RegistryRow>, e: string, r: int, s: int)
    requires forall t | t in regs :: t in later && later[t] == regs[t]
    requires Lists(regs, r, e) && Stint(regs, e, r, s)
    ensures Stint(later, e, r, s)
  {
    forall t | r <= t <= s
      ensures Lists(later, t, e) && Listing(later, t, e) == Listing(later, r, e)
    {
      assert Lists(regs, t, e);
    }
  }

  /** The logs, revisions and outbox read only these tables. */
  lemma LogFrame(db: Db, later: Db)
    requires LogOk(db) && db.cases == later.cases && db.advice == later.advice
    requires db.deliveries == later.deliveries && db.nextSequence == later.nextSequence
    ensures LogOk(later)
  {
    hide Numbered, Increasing, EnvelopesUnique;
    forall s | s in later.deliveries
      ensures Backed(later, s, later.deliveries[s])
    {
      assert Backed(db, s, db.deliveries[s]);
    }
    forall c | c in later.cases
      ensures later.cases[c].request.caseId == c && exists s ::
        LoggedAt(later, later.cases[c].request.issuer, s, CaseDelivery(later.cases[c]))
    {
      var s :| LoggedAt(db, db.cases[c].request.issuer, s, CaseDelivery(db.cases[c]));
      assert LoggedAt(later, later.cases[c].request.issuer, s, CaseDelivery(later.cases[c]));
    }
    forall c | c in later.advice
      ensures AdviceBound(later, c)
    {
      assert AdviceBound(db, c);
    }
  }

  lemma OutboxFrame(db: Db, later: Db)
    requires OutboxExact(db) && db.cases == later.cases && db.advice == later.advice && db.outbox == later.outbox
    ensures OutboxExact(later)
  {
    forall o
      ensures o in later.outbox <==> OutboxDue(later, o)
    {
      assert OutboxDue(later, o) <==> OutboxDue(db, o);
    }
  }

  lemma HaltKeeps(db: Db, top: int)
    requires Valid(db, top) && db.head.Some?
    ensures Valid(Halt(db), top) && Grows(db, Halt(db))
  {
    hide LogOk, OutboxExact, HighWaterAgrees, StintsUnbroken;
    LogFrame(db, Halt(db));
    OutboxFrame(db, Halt(db));
  }

  // ----- Every operation keeps everything -----

  lemma ValidLater(db: Db, top: int, later: int)
    requires Valid(db, top) && top <= later
    ensures Valid(db, later)
  {
    hide LogOk, RevisionsDistinct, OutboxExact, RegistryOk;
  }

  lemma WriteCaseKeeps(db: Db, row: CaseRow, top: nat)
    requires Valid(db, top) && row.revision > top && db.head.Some?
    requires row.request.caseId !in db.cases && !EnvelopeDelivered(db, row.request.envelopeId)
    ensures Valid(WriteCase(db, row), row.revision) && Grows(db, WriteCase(db, row))
  {
    hide LogOk, OutboxExact, Chained, HighWaterAgrees, StintsUnbroken, RevisionsDistinct, RevisionsBelow, Grows;
    WriteCaseLogs(db, row, top);
    WriteCaseRevisions(db, row, top);
    WriteCaseOutbox(db, row);
  }

  lemma WriteAdviceKeeps(db: Db, row: AdviceRow, top: nat)
    requires Valid(db, top) && row.revision > top && AdviceAnswers(db, row) && db.head.Some?
    ensures Valid(WriteAdvice(db, row), row.revision) && Grows(db, WriteAdvice(db, row))
  {
    hide LogOk, OutboxExact, Chained, HighWaterAgrees, StintsUnbroken, RevisionsDistinct, RevisionsBelow, Grows;
    WriteAdviceLogs(db, row, top);
    WriteAdviceRevisions(db, row, top);
    WriteAdviceOutbox(db, row);
  }

  lemma WriteRegistryRevisions(db: Db, row: RegistryRow, top: nat)
    requires RevisionsBelow(db, top) && RevisionsDistinct(db) && row.commitRevision > top
    ensures RevisionsBelow(WriteRegistry(db, row), row.commitRevision) && RevisionsDistinct(WriteRegistry(db, row))
  {
  }

  lemma WriteRegistryKeeps(db: Db, row: RegistryRow, top: nat)
    requires Valid(db, top) && row.commitRevision > top && RegistryFollows(db, row.request)
    ensures Valid(WriteRegistry(db, row), row.commitRevision) && Grows(db, WriteRegistry(db, row))
  {
    hide LogOk, OutboxExact, Chained, HighWaterAgrees, StintsUnbroken, RevisionsDistinct, RevisionsBelow, Grows,
      RegistryFollows;
    WriteRegistryChained(db, row);
    WriteRegistryHighWater(db, row);
    WriteRegistryStints(db, row);
    WriteRegistryRevisions(db, row, top);
    LogFrame(db, WriteRegistry(db, row));
    OutboxFrame(db, WriteRegistry(db, row));
  }

  lemma CaseKeeps(db: Db, q: CaseRequest, revision: int, top: nat)
    requires Valid(db, top) && revision > top
    ensures var later := Settled(db, CaseWork(db, q, revision)); Valid(later, revision) && Grows(db, later)
  {
    hide Valid, WriteCase, Grows;
    ValidLater(db, top, revision);
    GrowsSelf(db);
    var w := CaseWork(db, q, revision);
    if w.result.Ok? && w.commit {
      WriteCaseKeeps(db, CaseRow(q, revision), top);
    }
  }

  lemma GrowsSelf(db: Db)
    ensures Grows(db, db)
  {
  }

  lemma AdviceKeeps(db: Db, q: AdviceRequest, revision: int, top: nat)
    requires Valid(db, top) && revision > top
    ensures var later := Settled(db, AdviceWork(db, q, revision)); Valid(later, revision) && Grows(db, later)
  {
    hide Valid, WriteAdvice, Grows;
    ValidLater(db, top, revision);
    GrowsSelf(db);
    var w := AdviceWork(db, q, revision);
    if w.result.Ok? && w.commit {
      var target := db.cases[q.caseId].request.issuer;
      WriteAdviceKeeps(db, AdviceRow(q, target, NextSequence(db, target), revision), top);
    }
  }

  lemma RegistryKeeps(db: Db, q: RegistryRequest, revision: int, top: nat)
    requires Valid(db, top) && revision > top && RegistryRequestOk(q)
    ensures var later := Settled(db, RegistryWork(db, q, revision)); Valid(later, revision) && Grows(db, later)
  {
    hide Valid, WriteRegistry, Grows, RegistryRequestOk;
    ValidLater(db, top, revision);
    GrowsSelf(db);
    var w := RegistryWork(db, q, revision);
    if w.result.Ok? && w.commit {
      WriteRegistryKeeps(db, RegistryRow(q, revision), top);
    } else if w.result.Err? && w.commit {
      HaltKeeps(db, revision);
    }
  }

  lemma OperationKeeps(db: Db, op: Operation, revision: int, top: nat)
    requires Valid(db, top) && revision > top
    ensures var later := Settled(db, WorkOf(db, op, revision)); Valid(later, revision) && Grows(db, later)
  {
    hide Valid, Grows, CaseWork, AdviceWork, RegistryWork;
    ValidLater(db, top, revision);
    GrowsSelf(db);
    match op
    case CommitCaseOp(c) => CaseKeeps(db, c, revision, top);
    case CommitAdviceOp(a) => AdviceKeeps(db, a, revision, top);
    case CommitRegistryOp(r) =>
      if RegistryRequestOk(r) {
        RegistryKeeps(db, r, revision, top);
      }
  }

  /** Every state of every run is valid, and keeps every row that was ever committed. */
  lemma {:induction false} RunKeeps(s: State, events: seq<Event>)
    requires Valid(s.db, s.top)
    ensures var t := Run(s, events); Valid(t.db, t.top) && Grows(s.db, t.db)
    decreases |events|
  {
    hide Valid, WorkOf;
    if events == [] {
      GrowsSelf(s.db);
    } else {
      OperationKeeps(s.db, events[0].op, s.top + 1 + events[0].gap, s.top);
      RunKeeps(Apply(s, events[0]), events[1..]);
    }
  }

  lemma EmptyValid()
    ensures Valid(EMPTY, 0)
  {
  }

  lemma RunsAreValid(events: seq<Event>)
    ensures Valid(Run(START, events).db, Run(START, events).top)
  {
    EmptyValid();
    RunKeeps(START, events);
  }
}
