/** The transactional authority of internal/authority/postgres/store.go and its
    schema, internal/authority/postgres/migrations/0001_authority.up.sql.

    SQL tables are maps from primary key to row.  Every statement of the store
    filters by tenant, so the tables below hold the rows of one tenant; other
    tenants are visible only as gaps in the global revision counter.  The work of
    a transaction is a function from the table copy it began with. */
module Authority {
  import opened Common

  // ----- Requests and rows -----

  datatype EdgeKey = EdgeKey(edgeId: string, generation: int)

  datatype CaseRequest = CaseRequest(
    caseId: string, envelopeId: string, commitment: string, raw: Bytes, domain: string,
    issuer: EdgeKey, routingEpoch: int, registryRevision: int, registryHash: string, expiresAt: int)

  datatype AdviceRequest = AdviceRequest(
    caseId: string, envelopeId: string, caseCommitment: string, commitment: string, raw: Bytes,
    routingEpoch: int, registryRevision: int, registryHash: string)

  datatype RegistryEdge = RegistryEdge(principalId: string, generation: int)

  /** A verified registry.  The edges are what its raw bytes list. */
  datatype RegistryRequest = RegistryRequest(
    revision: int, envelopeId: string, commitment: string, raw: Bytes, routingEpoch: int,
    previousCommitment: string, edges: map<string, RegistryEdge>)

  datatype CaseRow = CaseRow(request: CaseRequest, revision: int)
  datatype AdviceRow = AdviceRow(request: AdviceRequest, target: EdgeKey, sequence: int, revision: int)
  datatype RegistryRow = RegistryRow(request: RegistryRequest, commitRevision: int)
  datatype Head = Head(revision: int, commitment: string, routingEpoch: int, halted: bool)
  datatype HighWater = HighWater(principalId: string, generation: int, lastSeen: int)

  datatype Kind = CaseKind | AdviceKind
  datatype Slot = Slot(key: EdgeKey, sequence: int)
  datatype Delivery = Delivery(kind: Kind, caseId: string, envelopeId: string, commitment: string, raw: Bytes,
      revision: int)

  datatype Destination = DomainDispatch(domain: string) | EdgeDelivery(key: EdgeKey)
  datatype OutboxId = OutboxId(kind: Kind, entityId: string, revision: int, destination: Destination)

  datatype Db = Db(
    head: Option<Head>,
    highWater: map<string, HighWater>,
    registries: map<int, RegistryRow>,
    cases: map<string, CaseRow>,
    advice: map<string, AdviceRow>,
    nextSequence: map<EdgeKey, int>,
    deliveries: map<Slot, Delivery>,
    outbox: map<OutboxId, Bytes>)

  const EMPTY: Db := Db(None, map[], map[], map[], map[], map[], map[], map[])

  datatype Receipt = Receipt(revision: int, envelopeId: string, commitment: string)

  datatype Error =
    | InvalidRequest | ConflictingCase | CaseNotFound | CaseBinding | FinalAdviceAlreadySet
    | ConflictingRegistry | RevisionSequence | Equivocation | Rollback | RegistryHalted
    | RegistryBinding | EdgeGenerationRollback | EdgeNotActive | RegistryNotFound
    | ConstraintViolation | RetriesExhausted | ReplyLost

  // ----- Validation, internal/authority/authority.go -----

  /** What Go's unicode.IsSpace calls space. */
  predicate IsSpace(c: char) {
    || '\t' <= c <= '\r' || c in {' ', '\U{85}', '\U{A0}', '\U{1680}', '\U{202F}', '\U{205F}', '\U{3000}'}
    || '\U{2000}' <= c <= '\U{200A}' || c in {'\U{2028}', '\U{2029}'}
  }

  predicate ValidText(s: string) {
    exists i | 0 <= i < |s| :: !IsSpace(s[i])
  }

  predicate ValidCommitment(s: string) {
    |s| == 71 && s[..7] == "sha256:" &&
    forall i | 7 <= i < 71 :: '0' <= s[i] <= '9' || 'a' <= s[i] <= 'f'
  }

  /** The time value that stands for none. */
  const ZERO_TIME := 0

  predicate CaseRequestOk(q: CaseRequest) {
    && ValidText(q.caseId) && ValidText(q.envelopeId) && ValidCommitment(q.commitment) && q.raw != []
    && ValidText(q.domain) && ValidText(q.issuer.edgeId) && q.issuer.generation > 0
    && q.routingEpoch >= 0 && q.registryRevision >= 0 && ValidCommitment(q.registryHash)
    && q.expiresAt != ZERO_TIME
  }

  predicate AdviceRequestOk(q: AdviceRequest) {
    && ValidText(q.caseId) && ValidText(q.envelopeId) && ValidCommitment(q.caseCommitment)
    && ValidCommitment(q.commitment) && q.raw != []
    && q.routingEpoch >= 0 && q.registryRevision >= 0 && ValidCommitment(q.registryHash)
  }

  predicate RegistryRequestOk(q: RegistryRequest) {
    && q.revision > 0 && ValidText(q.envelopeId) && ValidCommitment(q.commitment) && q.raw != []
    && q.routingEpoch >= 0 && (q.previousCommitment != "" ==> ValidCommitment(q.previousCommitment))
    && forall e | e in q.edges :: ValidText(e) && ValidText(q.edges[e].principalId) && q.edges[e].generation > 0
  }

  // ----- The work of one transaction -----

  /** What a transaction's work asks for: the tables it wrote, its answer, whether
      an error answer is nevertheless committed, and whether a revision was drawn. */
  datatype Work = Work(tx: Db, result: Result<Receipt, Error>, commit: bool, drew: bool)

  function Refuse(tx: Db, e: Error): Work { Work(tx, Err(e), false, false) }

  function Replay(tx: Db, r: Receipt): Work { Work(tx, Ok(r), false, false) }

  /** The tables after the transaction ended: an error that is not committed rolls back. */
  function Settled(db: Db, w: Work): Db {
    if w.result.Err? && !w.commit then db else w.tx
  }

  function NextSequence(tx: Db, key: EdgeKey): int {
    if key in tx.nextSequence then tx.nextSequence[key] else 1
  }

  /** allocateDeliverySequence and insertEdgeDelivery. */
  function AppendDelivery(tx: Db, key: EdgeKey, d: Delivery): Db {
    var sequence := NextSequence(tx, key);
    tx.(nextSequence := tx.nextSequence[key := sequence + 1],
        deliveries := tx.deliveries[Slot(key, sequence) := d])
  }

  /** The unique index over envelope identifiers of the delivery table, which holds both families. */
  predicate EnvelopeDelivered(tx: Db, envelopeId: string) {
    exists slot | slot in tx.deliveries :: tx.deliveries[slot].envelopeId == envelopeId
  }

  predicate CaseCollision(tx: Db, q: CaseRequest) {
    exists c | c in tx.cases :: tx.cases[c].request.envelopeId == q.envelopeId
      || tx.cases[c].request.commitment == q.commitment
  }

  predicate AdviceCollision(tx: Db, q: AdviceRequest) {
    exists c | c in tx.advice :: tx.advice[c].request.envelopeId == q.envelopeId
      || tx.advice[c].request.commitment == q.commitment
  }

  predicate RegistryCollision(tx: Db, q: RegistryRequest) {
    exists r | r in tx.registries :: tx.registries[r].request.envelopeId == q.envelopeId
      || tx.registries[r].request.commitment == q.commitment
  }

  function CaseReceipt(row: CaseRow): Receipt { Receipt(row.revision, row.request.envelopeId, row.request.commitment) }

  function AdviceReceipt(row: AdviceRow): Receipt {
    Receipt(row.revision, row.request.envelopeId, row.request.commitment)
  }

  function CaseDelivery(row: CaseRow): Delivery {
    Delivery(CaseKind, row.request.caseId, row.request.envelopeId, row.request.commitment, row.request.raw,
      row.revision)
  }

  function AdviceDelivery(row: AdviceRow): Delivery {
    Delivery(AdviceKind, row.request.caseId, row.request.envelopeId, row.request.commitment, row.request.raw,
      row.revision)
  }

  function CaseOutbox(row: CaseRow): map<OutboxId, Bytes> {
    map[OutboxId(CaseKind, row.request.caseId, row.revision, DomainDispatch(row.request.domain)) := row.request.raw,
        OutboxId(CaseKind, row.request.caseId, row.revision, EdgeDelivery(row.request.issuer)) := row.request.raw]
  }

  function AdviceOutbox(row: AdviceRow): map<OutboxId, Bytes> {
    map[OutboxId(AdviceKind, row.request.caseId, row.revision, EdgeDelivery(row.target)) := row.request.raw]
  }

  function WriteCase(tx: Db, row: CaseRow): Db {
    var tx1 := tx.(cases := tx.cases[row.request.caseId := row]);
    var tx2 := AppendDelivery(tx1, row.request.issuer, CaseDelivery(row));
    tx2.(outbox := tx2.outbox + CaseOutbox(row))
  }

  function WriteAdvice(tx: Db, row: AdviceRow): Db {
    var tx1 := tx.(advice := tx.advice[row.request.caseId := row]);
    var tx2 := AppendDelivery(tx1, row.target, AdviceDelivery(row));
    tx2.(outbox := tx2.outbox + AdviceOutbox(row))
  }

  function CaseWork(tx: Db, q: CaseRequest, revision: int): Work {
    if q.caseId in tx.cases then
      if tx.cases[q.caseId].request == q then Replay(tx, CaseReceipt(tx.cases[q.caseId]))
      else Refuse(tx, ConflictingCase)
    else if tx.head.None? then Refuse(tx, RegistryNotFound)
    else if tx.head.value.halted then Refuse(tx, RegistryHalted)
    else if tx.head.value.revision != q.registryRevision || tx.head.value.commitment != q.registryHash ||
            tx.head.value.routingEpoch != q.routingEpoch then Refuse(tx, RegistryBinding)
    else if CaseCollision(tx, q) then Refuse(tx, ConflictingCase)
    else if EnvelopeDelivered(tx, q.envelopeId) then Work(tx, Err(ConstraintViolation), false, true)
    else
      var row := CaseRow(q, revision);
      Work(WriteCase(tx, row), Ok(CaseReceipt(row)), true, true)
  }

  function AdviceWork(tx: Db, q: AdviceRequest, revision: int): Work {
    if q.caseId in tx.advice && tx.advice[q.caseId].request == q then Replay(tx, AdviceReceipt(tx.advice[q.caseId]))
    else if tx.head.None? then Refuse(tx, RegistryNotFound)
    else if tx.head.value.halted then Refuse(tx, RegistryHalted)
    else if q.caseId in tx.advice then Refuse(tx, FinalAdviceAlreadySet)
    else if q.caseId !in tx.cases then Refuse(tx, CaseNotFound)
    else
      var c := tx.cases[q.caseId].request;
      if q.caseCommitment != c.commitment || q.routingEpoch != c.routingEpoch ||
         q.registryRevision != c.registryRevision || q.registryHash != c.registryHash then Refuse(tx, CaseBinding)
      else if AdviceCollision(tx, q) then Refuse(tx, FinalAdviceAlreadySet)
      else if EnvelopeDelivered(tx, q.envelopeId) then Work(tx, Err(ConstraintViolation), false, true)
      else
        var row := AdviceRow(q, c.issuer, NextSequence(tx, c.issuer), revision);
        Work(WriteAdvice(tx, row), Ok(AdviceReceipt(row)), true, true)
  }

  predicate SameRegistry(a: RegistryRequest, b: RegistryRequest) {
    a.envelopeId == b.envelopeId && a.commitment == b.commitment && a.raw == b.raw &&
    a.routingEpoch == b.routingEpoch && a.previousCommitment == b.previousCommitment
  }

  /** The high-water row of one edge refuses the generation a new registry gives it. */
  predicate HighWaterRefuses(highWater: map<string, HighWater>, edgeId: string, edge: RegistryEdge,
      head: Option<Head>) {
    edgeId in highWater &&
    var mark := highWater[edgeId];
    || edge.generation < mark.generation
    || (edge.generation == mark.generation &&
        (head.None? || mark.lastSeen != head.value.revision || mark.principalId != edge.principalId))
  }

  predicate AnyEdgeRefused(highWater: map<string, HighWater>, edges: map<string, RegistryEdge>, head: Option<Head>) {
    exists e | e in edges :: HighWaterRefuses(highWater, e, edges[e], head)
  }

  function RaisedHighWater(highWater: map<string, HighWater>, edges: map<string, RegistryEdge>,
      revision: int): map<string, HighWater> {
    highWater + map e | e in edges :: HighWater(edges[e].principalId, edges[e].generation, revision)
  }

  function Halt(tx: Db): Db
    requires tx.head.Some?
  {
    tx.(head := Some(tx.head.value.(halted := true)))
  }

  function WriteRegistry(tx: Db, row: RegistryRow): Db {
    var q := row.request;
    tx.(highWater := RaisedHighWater(tx.highWater, q.edges, q.revision),
        registries := tx.registries[q.revision := row],
        head := Some(Head(q.revision, q.commitment, q.routingEpoch, false)))
  }

  function RegistryWork(tx: Db, q: RegistryRequest, revision: int): Work {
    if tx.head.Some? && tx.head.value.halted then Refuse(tx, RegistryHalted)
    else if tx.head.Some? && q.revision < tx.head.value.revision then Work(Halt(tx), Err(Rollback), true, false)
    else if tx.head.Some? && q.revision == tx.head.value.revision then
      if q.revision !in tx.registries then Refuse(tx, ConstraintViolation)
      else if !SameRegistry(tx.registries[q.revision].request, q) then Work(Halt(tx), Err(Equivocation), true, false)
      else
        var row := tx.registries[q.revision];
        Replay(tx, Receipt(row.commitRevision, row.request.envelopeId, row.request.commitment))
    else if tx.head.Some? && q.revision != tx.head.value.revision + 1 then Refuse(tx, RevisionSequence)
    else if tx.head.Some? && q.previousCommitment != tx.head.value.commitment
      then Work(Halt(tx), Err(Equivocation), true, false)
    else if tx.head.None? && q.previousCommitment != "" then Refuse(tx, Equivocation)
    else if RegistryCollision(tx, q) then Refuse(tx, ConflictingRegistry)
    else if AnyEdgeRefused(tx.highWater, q.edges, tx.head) then Refuse(tx, EdgeGenerationRollback)
    else
      Work(WriteRegistry(tx, RegistryRow(q, revision)), Ok(Receipt(revision, q.envelopeId, q.commitment)), true, true)
  }

  // ----- Operations and runs -----

  datatype Operation = CommitCaseOp(c: CaseRequest) | CommitAdviceOp(a: AdviceRequest)
      | CommitRegistryOp(r: RegistryRequest)

  predicate OperationOk(op: Operation) {
    match op
    case CommitCaseOp(c) => CaseRequestOk(c)
    case CommitAdviceOp(a) => AdviceRequestOk(a)
    case CommitRegistryOp(r) => RegistryRequestOk(r)
  }

  function WorkOf(tx: Db, op: Operation, revision: int): Work {
    match op
    case CommitCaseOp(c) => if CaseRequestOk(c) then CaseWork(tx, c, revision) else Refuse(tx, InvalidRequest)
    case CommitAdviceOp(a) => if AdviceRequestOk(a) then AdviceWork(tx, a, revision) else Refuse(tx, InvalidRequest)
    case CommitRegistryOp(r) => if RegistryRequestOk(r) then RegistryWork(tx, r, revision)
      else Refuse(tx, InvalidRequest)
  }

  /** The tables and the largest revision any transaction has drawn. */
  datatype State = State(db: Db, top: nat)

  /** One operation.  The gap stands for revisions drawn by other tenants and by
      attempts that were rolled back. */
  datatype Event = Event(op: Operation, gap: nat)

  function Apply(s: State, e: Event): State {
    var revision := s.top + 1 + e.gap;
    State(Settled(s.db, WorkOf(s.db, e.op, revision)), revision)
  }

  function Run(s: State, events: seq<Event>): State
    decreases |events|
  {
    if events == [] then s else Run(Apply(s, events[0]), events[1..])
  }

  const START: State := State(EMPTY, 0)
}
