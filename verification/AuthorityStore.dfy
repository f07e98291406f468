/** The authority's transactions statement by statement, and the retry loop around
    them (internal/authority/postgres/store.go), proved against the functions of
    module Authority. */
module AuthorityStore {
  import opened Common
  import opened Authority
  import opened AuthorityInvariant

  /** insertOutbox's rows for one entity. */
  function OutboxRows(kind: Kind, entityId: string, revision: int, raw: Bytes,
      destinations: seq<Destination>): map<OutboxId, Bytes> {
    map d | d in destinations :: OutboxId(kind, entityId, revision, d) := raw
  }

  lemma CaseOutboxRows(row: CaseRow)
    ensures CaseOutbox(row) ==
      OutboxRows(CaseKind, row.request.caseId, row.revision, row.request.raw,
        [DomainDispatch(row.request.domain), EdgeDelivery(row.request.issuer)])
  {
    var ds := [DomainDispatch(row.request.domain), EdgeDelivery(row.request.issuer)];
    var rows := OutboxRows(CaseKind, row.request.caseId, row.revision, row.request.raw, ds);
    assert ds[0] in ds && ds[1] in ds;
    assert rows.Keys == CaseOutbox(row).Keys;
  }

  lemma AdviceOutboxRows(row: AdviceRow)
    ensures AdviceOutbox(row) == OutboxRows(AdviceKind, row.request.caseId, row.revision, row.request.raw,
      [EdgeDelivery(row.target)])
  {
    var ds := [EdgeDelivery(row.target)];
    assert ds[0] in ds;
  }

  /** The tables as one open transaction sees and changes them. */
  class Tx {
    var tables: Db

    constructor (db: Db)
      ensures tables == db
    {
      tables := db;
    }

    /** Inserts the counter row at 2 or advances it, and answers the value before. */
    method AllocateDeliverySequence(key: EdgeKey) returns (sequence: int)
      modifies this
      ensures sequence == NextSequence(old(tables), key)
      ensures tables == old(tables).(nextSequence := old(tables).nextSequence[key := sequence + 1])
    {
      if key in tables.nextSequence {
        tables := tables.(nextSequence := tables.nextSequence[key := tables.nextSequence[key] + 1]);
      } else {
        tables := tables.(nextSequence := tables.nextSequence[key := 2]);
      }
      sequence := tables.nextSequence[key] - 1;
    }

    /** The insert fails on the primary key and on the unique envelope identifier. */
    method InsertEdgeDelivery(slot: Slot, d: Delivery) returns (inserted: bool)
      modifies this
      ensures inserted <==> slot !in old(tables).deliveries && !EnvelopeDelivered(old(tables), d.envelopeId)
      ensures tables == if inserted then old(tables).(deliveries := old(tables).deliveries[slot := d]) else old(tables)
    {
      if slot in tables.deliveries || EnvelopeDelivered(tables, d.envelopeId) {
        return false;
      }
      tables := tables.(deliveries := tables.deliveries[slot := d]);
      inserted := true;
    }

    method InsertOutbox(kind: Kind, entityId: string, revision: int, raw: Bytes, destinations: seq<Destination>)
      modifies this
      ensures tables == old(tables).(outbox :=
        old(tables).outbox + OutboxRows(kind, entityId, revision, raw, destinations))
    {
      for i := 0 to |destinations|
        invariant tables == old(tables).(outbox :=
          old(tables).outbox + OutboxRows(kind, entityId, revision, raw, destinations[..i]))
      {
        var id := OutboxId(kind, entityId, revision, destinations[i]);
        RowsExtend(old(tables).outbox, kind, entityId, revision, raw, destinations, i);
        tables := tables.(outbox := tables.outbox[id := raw]);
      }
      assert destinations[..|destinations|] == destinations;
    }

    method CommitCase(q: CaseRequest, revision: int) returns (result: Result<Receipt, Error>, commit: bool)
      requires Numbered(tables.nextSequence, tables.deliveries)
      modifies this
      ensures var w := CaseWork(old(tables), q, revision);
        && result == w.result && commit == w.commit
        && Settled(old(tables), Work(tables, result, commit, w.drew)) == Settled(old(tables), w)
    {
      hide Numbered, CaseCollision, EnvelopeDelivered, OutboxRows, CaseOutbox;
      if q.caseId in tables.cases {
        if tables.cases[q.caseId].request != q {
          return Err(ConflictingCase), false;
        }
        return Ok(CaseReceipt(tables.cases[q.caseId])), false;
      }
      if tables.head.None? {
        return Err(RegistryNotFound), false;
      }
      var head := tables.head.value;
      if head.halted {
        return Err(RegistryHalted), false;
      }
      if head.revision != q.registryRevision || head.commitment != q.registryHash
        || head.routingEpoch != q.routingEpoch {
        return Err(RegistryBinding), false;
      }
      if CaseCollision(tables, q) {
        return Err(ConflictingCase), false;
      }
      result, commit := InsertCase(CaseRow(q, revision));
    }

    method InsertCase(row: CaseRow) returns (result: Result<Receipt, Error>, commit: bool)
      requires Numbered(tables.nextSequence, tables.deliveries)
      modifies this
      ensures commit == result.Ok? == !EnvelopeDelivered(old(tables), row.request.envelopeId)
      ensures commit ==> tables == WriteCase(old(tables), row) && result == Ok(CaseReceipt(row))
      ensures !commit ==> result == Err(ConstraintViolation)
    {
      hide Numbered, EnvelopeDelivered, OutboxRows, CaseOutbox;
      FreshSlot(tables, row.request.issuer);
      var q := row.request;
      tables := tables.(cases := tables.cases[q.caseId := row]);
      var sequence := AllocateDeliverySequence(q.issuer);
      EnvelopeFrame(old(tables), tables, q.envelopeId);
      var inserted := InsertEdgeDelivery(Slot(q.issuer, sequence), CaseDelivery(row));
      if !inserted {
        return Err(ConstraintViolation), false;
      }
      CaseOutboxRows(row);
      InsertOutbox(CaseKind, q.caseId, row.revision, q.raw, [DomainDispatch(q.domain), EdgeDelivery(q.issuer)]);
      result, commit := Ok(CaseReceipt(row)), true;
    }

    method CommitAdvice(q: AdviceRequest, revision: int) returns (result: Result<Receipt, Error>, commit: bool)
      requires Numbered(tables.nextSequence, tables.deliveries)
      modifies this
      ensures var w := AdviceWork(old(tables), q, revision);
        && result == w.result && commit == w.commit
        && Settled(old(tables), Work(tables, result, commit, w.drew)) == Settled(old(tables), w)
    {
      hide Numbered, AdviceCollision, EnvelopeDelivered, OutboxRows, AdviceOutbox;
      var existing := q.caseId in tables.advice;
      if existing && tables.advice[q.caseId].request == q {
        return Ok(AdviceReceipt(tables.advice[q.caseId])), false;
      }
      if tables.head.None? {
        return Err(RegistryNotFound), false;
      }
      if tables.head.value.halted {
        return Err(RegistryHalted), false;
      }
      if existing {
        return Err(FinalAdviceAlreadySet), false;
      }
      if q.caseId !in tables.cases {
        return Err(CaseNotFound), false;
      }
      var c := tables.cases[q.caseId].request;
      if q.caseCommitment != c.commitment || q.routingEpoch != c.routingEpoch ||
         q.registryRevision != c.registryRevision || q.registryHash != c.registryHash {
        return Err(CaseBinding), false;
      }
      if AdviceCollision(tables, q) {
        return Err(FinalAdviceAlreadySet), false;
      }
      result, commit := InsertAdvice(q, c.issuer, revision);
    }

    method InsertAdvice(q: AdviceRequest, target: EdgeKey, revision: int)
        returns (result: Result<Receipt, Error>, commit: bool)
      requires Numbered(tables.nextSequence, tables.deliveries)
      modifies this
      ensures commit == result.Ok? == !EnvelopeDelivered(old(tables), q.envelopeId)
      ensures var row := AdviceRow(q, target, NextSequence(old(tables), target), revision);
        commit ==> tables == WriteAdvice(old(tables), row) && result == Ok(AdviceReceipt(row))
      ensures !commit ==> result == Err(ConstraintViolation)
    {
      hide Numbered, EnvelopeDelivered, OutboxRows, AdviceOutbox;
      FreshSlot(tables, target);
      var sequence := AllocateDeliverySequence(target);
      var row := AdviceRow(q, target, sequence, revision);
      tables := tables.(advice := tables.advice[q.caseId := row]);
      EnvelopeFrame(old(tables), tables, q.envelopeId);
      var inserted := InsertEdgeDelivery(Slot(target, sequence), AdviceDelivery(row));
      if !inserted {
        return Err(ConstraintViolation), false;
      }
      AdviceOutboxRows(row);
      InsertOutbox(AdviceKind, q.caseId, revision, q.raw, [EdgeDelivery(target)]);
      result, commit := Ok(AdviceReceipt(row)), true;
    }

    /** Checks and raises the high-water row of each listed edge in turn.  The source
        goes through them in sorted order; the outcome does not depend on it. */
    method EnforceHighWater(edges: map<string, RegistryEdge>, revision: int) returns (accepted: bool)
      modifies this
      ensures accepted <==> !AnyEdgeRefused(old(tables).highWater, edges, old(tables).head)
      ensures accepted ==> tables == old(tables).(highWater := RaisedHighWater(old(tables).highWater, edges, revision))
    {
      hide RaisedFor, RaisedHighWater, HighWaterRefuses;
      RaiseNone(tables.highWater, edges, revision);
      var todo := edges.Keys;
      assert edges.Keys - todo == {};
      var head := tables.head;
      ghost var before := tables.highWater;
      while todo != {}
        invariant todo <= edges.Keys
        invariant tables == old(tables).(highWater := RaisedFor(before, edges, edges.Keys - todo, revision))
        invariant forall e | e in edges && e !in todo :: !HighWaterRefuses(before, e, edges[e], head)
        decreases todo
      {
        var e :| e in todo;
        RefusesUnraised(before, edges, edges.Keys - todo, e, revision, head);
        if HighWaterRefuses(tables.highWater, e, edges[e], head) {
          return false;
        }
        RaiseOne(before, edges, edges.Keys - todo, e, revision);
        var mark := HighWater(edges[e].principalId, edges[e].generation, revision);
        tables := tables.(highWater := tables.highWater[e := mark]);
        assert edges.Keys - (todo - {e}) == edges.Keys - todo + {e};
        todo := todo - {e};
      }
      assert edges.Keys - todo == edges.Keys;
      RaiseAll(before, edges, revision);
      accepted := true;
    }

    method CommitRegistry(q: RegistryRequest, revision: int) returns (result: Result<Receipt, Error>, commit: bool)
      modifies this
      ensures var w := RegistryWork(old(tables), q, revision);
        && result == w.result && commit == w.commit
        && Settled(old(tables), Work(tables, result, commit, w.drew)) == Settled(old(tables), w)
    {
      hide RegistryCollision, AnyEdgeRefused, RaisedHighWater;
      if tables.head.Some? {
        var head := tables.head.value;
        if head.halted {
          return Err(RegistryHalted), false;
        }
        if q.revision < head.revision {
          tables := Halt(tables);
          return Err(Rollback), true;
        }
        if q.revision == head.revision {
          result, commit := ReplayRegistry(q);
          return;
        }
        if q.revision != head.revision + 1 {
          return Err(RevisionSequence), false;
        }
        if q.previousCommitment != head.commitment {
          tables := Halt(tables);
          return Err(Equivocation), true;
        }
      } else if q.previousCommitment != "" {
        return Err(Equivocation), false;
      }
      if RegistryCollision(tables, q) {
        return Err(ConflictingRegistry), false;
      }
      var accepted := EnforceHighWater(q.edges, q.revision);
      if !accepted {
        return Err(EdgeGenerationRollback), false;
      }
      tables := tables.(registries := tables.registries[q.revision := RegistryRow(q, revision)]);
      tables := tables.(head := Some(Head(q.revision, q.commitment, q.routingEpoch, false)));
      result, commit := Ok(Receipt(revision, q.envelopeId, q.commitment)), true;
    }

    method ReplayRegistry(q: RegistryRequest) returns (result: Result<Receipt, Error>, commit: bool)
      requires tables.head.Some? && !tables.head.value.halted && q.revision == tables.head.value.revision
      modifies this
      ensures var w := RegistryWork(old(tables), q, 0); result == w.result && commit == w.commit && tables == w.tx
    {
      hide RegistryCollision, AnyEdgeRefused, RaisedHighWater;
      if q.revision !in tables.registries {
        return Err(ConstraintViolation), false;
      }
      var row := tables.registries[q.revision];
      if !SameRegistry(row.request, q) {
        tables := Halt(tables);
        return Err(Equivocation), true;
      }
      result, commit := Ok(Receipt(row.commitRevision, row.request.envelopeId, row.request.commitment)), false;
    }

    method Perform(op: Operation, revision: int) returns (result: Result<Receipt, Error>, commit: bool)
      requires Numbered(tables.nextSequence, tables.deliveries)
      modifies this
      ensures var w := WorkOf(old(tables), op, revision);
        && result == w.result && commit == w.commit
        && Settled(old(tables), Work(tables, result, commit, w.drew)) == Settled(old(tables), w)
    {
      hide Numbered, CaseWork, AdviceWork, RegistryWork, CaseRequestOk, AdviceRequestOk, RegistryRequestOk;
      if !OperationOk(op) {
        return Err(InvalidRequest), false;
      }
      match op
      case CommitCaseOp(c) => result, commit := CommitCase(c, revision);
      case CommitAdviceOp(a) => result, commit := CommitAdvice(a, revision);
      case CommitRegistryOp(r) => result, commit := CommitRegistry(r, revision);
    }
  }

  // ----- Facts the statements need -----

  lemma FreshSlot(tables: Db, key: EdgeKey)
    requires Numbered(tables.nextSequence, tables.deliveries)
    ensures Slot(key, NextSequence(tables, key)) !in tables.deliveries
  {
  }

  lemma EnvelopeFrame(a: Db, b: Db, envelopeId: string)
    requires a.deliveries == b.deliveries
    ensures EnvelopeDelivered(a, envelopeId) == EnvelopeDelivered(b, envelopeId)
  {
  }

  lemma RowsExtend(outbox: map<OutboxId, Bytes>, kind: Kind, entityId: string, revision: int, raw: Bytes,
      ds: seq<Destination>, i: int)
    requires 0 <= i < |ds|
    ensures outbox + OutboxRows(kind, entityId, revision, raw, ds[..i + 1]) ==
      (outbox + OutboxRows(kind, entityId, revision, raw, ds[..i]))[OutboxId(kind, entityId, revision, ds[i]) := raw]
  {
    assert forall d :: d in ds[..i + 1] <==> d in ds[..i] || d == ds[i];
    var more, less := OutboxRows(kind, entityId, revision, raw, ds[..i + 1]),
      OutboxRows(kind, entityId, revision, raw, ds[..i]);
    assert more.Keys == less.Keys + {OutboxId(kind, entityId, revision, ds[i])};
  }

  /** The high-water rows once the edges in done have been raised. */
  function RaisedFor(highWater: map<string, HighWater>, edges: map<string, RegistryEdge>, done: set<string>,
      revision: int): map<string, HighWater> {
    highWater + map e | e in edges && e in done :: HighWater(edges[e].principalId, edges[e].generation, revision)
  }

  lemma RaiseNone(highWater: map<string, HighWater>, edges: map<string, RegistryEdge>, revision: int)
    ensures RaisedFor(highWater, edges, {}, revision) == highWater
  {
  }

  lemma RaiseAll(highWater: map<string, HighWater>, edges: map<string, RegistryEdge>, revision: int)
    ensures RaisedFor(highWater, edges, edges.Keys, revision) == RaisedHighWater(highWater, edges, revision)
  {
  }

  /** Rows raised earlier in the pass do not change the verdict on an edge still to come. */
  lemma RefusesUnraised(highWater: map<string, HighWater>, edges: map<string, RegistryEdge>, done: set<string>,
      e: string, revision: int, head: Option<Head>)
    requires e in edges && e !in done
    ensures HighWaterRefuses(RaisedFor(highWater, edges, done, revision), e, edges[e], head) ==
      HighWaterRefuses(highWater, e, edges[e], head)
  {
  }

  lemma RaiseOne(highWater: map<string, HighWater>, edges: map<string, RegistryEdge>, done: set<string>, e: string,
      revision: int)
    requires e in edges
    ensures RaisedFor(highWater, edges, done + {e}, revision) ==
      RaisedFor(highWater, edges, done, revision)[e := HighWater(edges[e].principalId, edges[e].generation, revision)]
  {
  }

  // ----- The retry loop -----

  const TRANSACTION_ATTEMPTS := 3

  /** What the database does to one attempt.  A serialization failure is retried; a
      broken connection at commit leaves open whether the commit took effect. */
  datatype Fault = NoFault | BeginFailed | Serialization | CommitRefused | CommitReplyLost
  datatype Attempt = Attempt(gap: nat, fault: Fault)

  /** The tables after op was performed once, atomically, at this revision. */
  predicate PerformedAt(db: Db, op: Operation, revision: int, later: Db) {
    later == Settled(db, WorkOf(db, op, revision))
  }

  class Store {
    var db: Db
    var top: nat

    constructor ()
      ensures db == EMPTY && top == 0 && Valid(db, top)
    {
      db, top := EMPTY, 0;
      new;
      EmptyValid();
    }

    /** Whatever fails in however many attempts, the operation takes effect once or not
        at all, and an answer other than a fault of the database is its own answer. */
    method Transaction(op: Operation, attempts: seq<Attempt>) returns (result: Result<Receipt, Error>)
      requires Valid(db, top) && |attempts| == TRANSACTION_ATTEMPTS
      modifies this
      ensures Valid(db, top) && Grows(old(db), db) && top >= old(top)
      ensures db == old(db) || exists revision :: old(top) < revision <= top && PerformedAt(old(db), op, revision, db)
      ensures result.Ok? ==> exists revision ::
        revision > old(top) && PerformedAt(old(db), op, revision, db) && result == WorkOf(old(db), op, revision).result
      ensures result.Err? && result.error !in {RetriesExhausted, ReplyLost} ==>
        exists revision :: revision > old(top) && PerformedAt(old(db), op, revision, db)
          && result == WorkOf(old(db), op, revision).result
    {
      hide Valid, Grows, WorkOf;
      GrowsSelf(db);
      for i := 0 to TRANSACTION_ATTEMPTS
        invariant db == old(db) && top >= old(top) && Valid(db, top) && Grows(old(db), db)
      {
        if attempts[i].fault.BeginFailed? {
          return Err(ReplyLost);
        }
        var revision := top + 1 + attempts[i].gap;
        ValidLater(db, top, revision);
        OperationKeeps(db, op, revision, top);
        ValidNumbered(db, top);
        var tx := new Tx(db);
        var commit;
        result, commit := tx.Perform(op, revision);
        top := revision;
        assert PerformedAt(db, op, revision, Settled(db, WorkOf(db, op, revision)));
        if attempts[i].fault.Serialization? {
          continue;
        }
        if result.Err? && !commit {
          return;
        }
        if attempts[i].fault.CommitRefused? {
          return Err(ReplyLost);
        }
        db := tx.tables;
        if attempts[i].fault.CommitReplyLost? {
          result := Err(ReplyLost);
        }
        return;
      }
      result := Err(RetriesExhausted);
    }
  }
}
