/** The edge's consumer of carrier messages and its recovery from the authority:
    internal/sspedge/consumer.go, jetstream_consumer.go, authority_verifier.go,
    authority_reconciler.go and the reconcile loop of cmd/snagline-edge/runtime.go. */
module EdgeConsumer {
  import opened Common
  import Authority
  import opened AuthorityTheorems
  import opened EdgeStore

  type LogEntry = Authority.Delivery
  type Log = seq<LogEntry>

  datatype EdgeIdentity = EdgeIdentity(tenant: string, key: EdgeKey)

  /** The signature and registry checks on a log entry's bytes. */
  type Oracle = LogEntry -> Judgement

  function OwnSubject(id: EdgeIdentity): Subject {
    EdgeSubject(id.tenant, id.key)
  }

  // ----- Verification -----

  /** The gate: the authority's log holds exactly these bytes at this sequence. */
  predicate Exact(log: Log, d: EdgeStore.Delivery) {
    1 <= d.sequence <= |log| && log[d.sequence - 1].raw == d.raw
  }

  predicate NamesEntry(e: LogEntry, p: Projection) {
    && p.envelopeId == e.envelopeId && p.commitment == e.commitment && p.body.caseId == e.caseId && e.revision > 0
    && (p.body.CaseBody? <==> e.kind == Authority.CaseKind)
  }

  predicate RouteMatches(id: EdgeIdentity, subject: Subject, p: Projection) {
    && subject == OwnSubject(id) && p.body.binding.issuer == id.key && p.body.binding.token == EdgeToken(id.key)
    && (p.body.CaseBody? ==> p.body.route == OpaqueToken(p.body.domain))
  }

  /** Verify and routeMatches on a delivery that passed the gate. */
  function Judged(id: EdgeIdentity, oracle: Oracle, e: LogEntry, subject: Subject): Judgement {
    match oracle(e)
    case Reject(reason, _) => Reject(reason, None)
    case Accept(p) =>
      if !NamesEntry(e, p) then Reject("authority_delivery_mismatch", None)
      else if !RouteMatches(id, subject, p) then Reject("route_mismatch", Some(p))
      else Accept(p)
  }

  /** What can go wrong in one step: the verifier refuses for now, the store fails and
      rolls back, or it commits and the answer is lost. */
  datatype Fault = NoFault | Refused | StoreFailed | CommitUnknown

  function Faulted(t: Tables, a: Applied, f: Fault): Applied {
    match f
    case NoFault => a
    case CommitUnknown => Applied(a.tables, None)
    case _ => Applied(t, None)
  }

  /** JournalConsumer.apply. */
  function ApplyDelivery(id: EdgeIdentity, oracle: Oracle, log: Log, t: Tables, d: EdgeStore.Delivery,
      reconciling: bool, f: Fault): Applied {
    if !Exact(log, d) then Applied(t, None)
    else Faulted(t, Apply(t, id.key, d, Judged(id, oracle, log[d.sequence - 1], d.subject), reconciling), f)
  }

  predicate Halts(o: Outcome) {
    o in {ApplyQuarantined, ApplyReconciliationRequired, ApplyIdentityConflict}
  }

  // ----- Carrier messages -----

  /** A header that is absent, repeated or no canonical positive integer is None. */
  datatype Message = Message(
    streamOk: bool, subject: Subject, raw: Bytes, outboxOk: bool, fact: Option<int>, sequence: Option<int>,
      generation: Option<int>)

  predicate Positive(h: Option<int>) {
    h.Some? && h.value > 0
  }

  predicate MetadataOk(id: EdgeIdentity, m: Message) {
    && m.streamOk && m.subject == OwnSubject(id) && 0 < |m.raw| <= MAX_ENVELOPE_BYTES
    && m.outboxOk && Positive(m.fact) && Positive(m.sequence) && Positive(m.generation)
  }

  /** The durable tables and the consumer's own halted flag. */
  datatype Edge = Edge(tables: Tables, halted: bool)
  datatype Handled = Handled(edge: Edge, acked: bool)

  function HandleForeign(e: Edge, f: Fault): Handled {
    var t := EdgeStore.Halted(e.tables, 0, "delivery_identity_mismatch");
    match f
    case StoreFailed => Handled(e, false)
    case CommitUnknown => Handled(Edge(t, e.halted), false)
    case _ => Handled(Edge(t, true), true)
  }

  function HandleOwn(id: EdgeIdentity, oracle: Oracle, log: Log, e: Edge, d: EdgeStore.Delivery, f: Fault): Handled {
    var a := ApplyDelivery(id, oracle, log, e.tables, d, false, f);
    if a.outcome.None? then Handled(Edge(a.tables, e.halted), false)
    else Handled(Edge(a.tables, Halts(a.outcome.value)), true)
  }

  /** HandleNext on one fetched message: it is acknowledged only after it was handled. */
  function HandleMessage(id: EdgeIdentity, oracle: Oracle, log: Log, e: Edge, m: Message, f: Fault): Handled {
    if e.halted || !MetadataOk(id, m) then Handled(e, false)
    else if m.generation.value != id.key.generation then HandleForeign(e, f)
    else HandleOwn(id, oracle, log, e, EdgeStore.Delivery(m.sequence.value, m.subject, m.raw), f)
  }

  // ----- Recovery -----

  predicate EntryOk(e: LogEntry) {
    e.caseId != "" && e.envelopeId != "" && e.commitment != "" && e.revision > 0 && 0 < |e.raw| <= MAX_ENVELOPE_BYTES
  }

  /** FetchAfter's checks on an authority page. */
  predicate PageBounds(page: Page, after: int, limit: int) {
    && page.highWatermark >= after && after <= page.completeThrough <= page.highWatermark
    && |page.entries| <= limit && |page.entries| == page.completeThrough - after
  }

  predicate EntriesOk(page: Page, after: int, n: int)
    requires 0 <= n <= |page.entries|
  {
    forall i | 0 <= i < n :: page.entries[i].sequence == after + 1 + i && EntryOk(page.entries[i].delivery)
  }

  function DeliveryOf(id: EdgeIdentity, e: AuthorityTheorems.Entry): EdgeStore.Delivery {
    EdgeStore.Delivery(e.sequence, OwnSubject(id), e.delivery.raw)
  }

  function DeliveriesOf(id: EdgeIdentity, entries: seq<AuthorityTheorems.Entry>): seq<EdgeStore.Delivery> {
    seq(|entries|, i requires 0 <= i < |entries| => DeliveryOf(id, entries[i]))
  }

  /** A page is fetched exactly when its bounds and all its entries pass. */
  method FetchAfter(id: EdgeIdentity, page: Page, after: int, limit: int)
      returns (batch: Option<seq<EdgeStore.Delivery>>)
    ensures batch.Some? <==> PageBounds(page, after, limit) && EntriesOk(page, after, |page.entries|)
    ensures batch.Some? ==> batch.value == DeliveriesOf(id, page.entries)
  {
    if page.highWatermark < after || page.completeThrough < after || page.completeThrough > page.highWatermark ||
       |page.entries| > limit || |page.entries| != page.completeThrough - after {
      return None;
    }
    var deliveries: seq<EdgeStore.Delivery> := [];
    var expected := after + 1;
    for i := 0 to |page.entries|
      invariant expected == after + 1 + i && EntriesOk(page, after, i)
      invariant deliveries == DeliveriesOf(id, page.entries[..i])
    {
      var e := page.entries[i];
      if e.sequence != expected || !EntryOk(e.delivery) {
        return None;
      }
      assert page.entries[..i + 1][..i] == page.entries[..i];
      deliveries := deliveries + [DeliveryOf(id, e)];
      expected := expected + 1;
    }
    assert page.entries[..|page.entries|] == page.entries;
    batch := Some(deliveries);
  }

  /** The authority's page over a log: the next entries after the cursor, in order. */
  function PageOf(log: Log, after: nat, limit: nat): Page {
    var end := if after >= |log| then after else if |log| - after < limit then |log| else after + limit;
    Page(seq(end - after, i requires 0 <= i < end - after => AuthorityTheorems.Entry(after + 1 + i, log[after + i])),
      |log|, end)
  }

  datatype All = All(tables: Tables, ok: bool)

  /** Applies the deliveries of a batch from index i on, until one fails or halts. */
  function ApplyAll(id: EdgeIdentity, oracle: Oracle, log: Log, t: Tables, batch: seq<EdgeStore.Delivery>,
      faults: nat -> Fault, i: nat): All
    requires i <= |batch|
    decreases |batch| - i
  {
    if i == |batch| then All(t, true)
    else
      var a := ApplyDelivery(id, oracle, log, t, batch[i], true, faults(i));
      if a.outcome.None? || Halts(a.outcome.value) then All(a.tables, false)
      else ApplyAll(id, oracle, log, a.tables, batch, faults, i + 1)
  }

  /** One reconciliation pass: the tables after it, and whether it resumed; None is an error. */
  datatype Pass = Pass(tables: Tables, resumed: Option<bool>)

  function Finish(t: Tables, page: Page, f: Fault): Pass {
    if ProgressOf(t).last != page.completeThrough then Pass(t, None)
    else if page.completeThrough != page.highWatermark then Pass(t, Some(false))
    else if f.StoreFailed? || !Completes(t, page.completeThrough, page.highWatermark) then Pass(t, None)
    else Pass(Completed(t), if f.CommitUnknown? then None else Some(true))
  }

  predicate PageOk(t: Tables, page: Page, limit: int) {
    var s := ProgressOf(t);
    PageBounds(page, s.last, limit) && EntriesOk(page, s.last, |page.entries|) && page.highWatermark >= s.high
  }

  /** Reconcile of a halted consumer. */
  function ReconcilePass(id: EdgeIdentity, oracle: Oracle, log: Log, t: Tables, page: Page, limit: int,
      faults: nat -> Fault): Pass {
    if !PageOk(t, page, limit) then Pass(t, None)
    else
      var a := ApplyAll(id, oracle, log, t, DeliveriesOf(id, page.entries), faults, 0);
      if !a.ok then Pass(a.tables, None) else Finish(a.tables, page, faults(|page.entries|))
  }

  class Consumer {
    const id: EdgeIdentity
    const oracle: Oracle
    const db: Db
    var halted: bool

    /** A consumer starts halted exactly when the durable mode says so. */
    constructor (id: EdgeIdentity, oracle: Oracle, db: Db)
      ensures this.id == id && this.oracle == oracle && this.db == db
      ensures halted == (ProgressOf(db.Contents()).mode == ReconciliationRequired)
    {
      this.id, this.oracle, this.db := id, oracle, db;
      halted := ProgressOf(db.Contents()).mode == ReconciliationRequired;
    }

    function State(): Edge
      reads this, db
    {
      Edge(db.Contents(), halted)
    }

    method ApplyOne(log: Log, d: EdgeStore.Delivery, reconciling: bool, f: Fault) returns (outcome: Option<Outcome>)
      requires db.key == id.key
      modifies db
      ensures Applied(db.Contents(), outcome) == ApplyDelivery(id, oracle, log, old(db.Contents()), d, reconciling, f)
    {
      hide Apply, Judged;
      if !Exact(log, d) || f.Refused? || f.StoreFailed? {
        return None;
      }
      var j := Judged(id, oracle, log[d.sequence - 1], d.subject);
      outcome := db.ApplyVerified(d, j, reconciling);
      if f.CommitUnknown? {
        outcome := None;
      }
    }

    /** Handle, with HandleNext's acknowledgement decision. */
    method Handle(log: Log, m: Message, f: Fault) returns (acked: bool)
      requires db.key == id.key
      modifies this`halted, db
      ensures Handled(State(), acked) == HandleMessage(id, oracle, log, old(State()), m, f)
    {
      hide ApplyDelivery, EdgeStore.Halted;
      if halted || !MetadataOk(id, m) {
        return false;
      }
      if m.generation.value != id.key.generation {
        if f.StoreFailed? {
          return false;
        }
        db.RequireReconciliation(0, "delivery_identity_mismatch");
        if f.CommitUnknown? {
          return false;
        }
        halted := true;
        return true;
      }
      var outcome := ApplyOne(log, EdgeStore.Delivery(m.sequence.value, m.subject, m.raw), false, f);
      if outcome.None? {
        return false;
      }
      halted := Halts(outcome.value);
      acked := true;
    }

    method ApplyBatch(log: Log, batch: seq<EdgeStore.Delivery>, faults: nat -> Fault) returns (ok: bool)
      requires db.key == id.key
      modifies db
      ensures All(db.Contents(), ok) == ApplyAll(id, oracle, log, old(db.Contents()), batch, faults, 0)
    {
      hide ApplyDelivery;
      for i := 0 to |batch|
        invariant ApplyAll(id, oracle, log, old(db.Contents()), batch, faults, 0) ==
          ApplyAll(id, oracle, log, db.Contents(), batch, faults, i)
      {
        var outcome := ApplyOne(log, batch[i], true, faults(i));
        if outcome.None? || Halts(outcome.value) {
          return false;
        }
      }
      ok := true;
    }

    method Reconcile(log: Log, page: Page, limit: int, faults: nat -> Fault) returns (resumed: Option<bool>)
      requires db.key == id.key && halted
      modifies this`halted, db
      ensures Pass(db.Contents(), resumed) == ReconcilePass(id, oracle, log, old(db.Contents()), page, limit, faults)
      ensures halted == (resumed != Some(true))
    {
      hide ApplyAll, DeliveriesOf, EntriesOk, PageBounds;
      var before := ProgressOf(db.Contents());
      var batch := FetchAfter(id, page, before.last, limit);
      if batch.None? || page.highWatermark < before.high {
        return None;
      }
      var ok := ApplyBatch(log, batch.value, faults);
      if !ok {
        return None;
      }
      var after := ProgressOf(db.Contents());
      if after.last != page.completeThrough {
        return None;
      }
      if page.completeThrough != page.highWatermark {
        return Some(false);
      }
      var f := faults(|page.entries|);
      if f.StoreFailed? {
        return None;
      }
      var completed := db.CompleteReconciliation(page.completeThrough, page.highWatermark);
      if !completed || f.CommitUnknown? {
        return None;
      }
      halted := false;
      resumed := Some(true);
    }
  }
}
