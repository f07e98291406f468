/** What the authority's two readers, the Buzz projector and the edges, may rely on. */
module AuthorityViews {
  import opened Common
  import opened Authority
  import opened AuthorityInvariant
  import opened AuthorityTheorems
  import Paging
  import EdgeConsumer
  import EdgeRecovery
  import P = ProjectorState

  // ----- Stored requests passed validation -----

  ghost predicate RequestsOk(db: Db) {
    && (forall c | c in db.cases :: CaseRequestOk(db.cases[c].request))
    && (forall c | c in db.advice :: AdviceRequestOk(db.advice[c].request))
  }

  /** The rows an operation adds carry its own valid request and its own revision. */
  ghost predicate Adds(db: Db, later: Db, revision: int) {
    && (forall c | c in later.cases && c !in db.cases ::
      CaseRequestOk(later.cases[c].request) && later.cases[c].revision == revision)
    && (forall c | c in later.advice && c !in db.advice ::
      AdviceRequestOk(later.advice[c].request) && later.advice[c].revision == revision)
  }

  lemma WriteCaseAdds(db: Db, row: CaseRow)
    requires CaseRequestOk(row.request)
    ensures Adds(db, WriteCase(db, row), row.revision)
  {
    hide CaseRequestOk, AdviceRequestOk;
  }

  lemma CaseAdds(db: Db, q: CaseRequest, revision: int)
    requires CaseRequestOk(q)
    ensures Adds(db, Settled(db, CaseWork(db, q, revision)), revision)
  {
    hide CaseRequestOk, AdviceRequestOk, CaseCollision, EnvelopeDelivered, WriteCase;
    WriteCaseAdds(db, CaseRow(q, revision));
  }

  lemma WriteAdviceAdds(db: Db, row: AdviceRow)
    requires AdviceRequestOk(row.request)
    ensures Adds(db, WriteAdvice(db, row), row.revision)
  {
    hide CaseRequestOk, AdviceRequestOk;
  }

  lemma AdviceAdds(db: Db, q: AdviceRequest, revision: int)
    requires AdviceRequestOk(q)
    ensures Adds(db, Settled(db, AdviceWork(db, q, revision)), revision)
  {
    hide CaseRequestOk, AdviceRequestOk, AdviceCollision, EnvelopeDelivered, WriteAdvice;
    if q.caseId in db.cases {
      var target := db.cases[q.caseId].request.issuer;
      WriteAdviceAdds(db, AdviceRow(q, target, NextSequence(db, target), revision));
    }
  }

  predicate SameFacts(db: Db, later: Db) {
    later.cases == db.cases && later.advice == db.advice
  }

  lemma WriteRegistryFacts(db: Db, row: RegistryRow)
    ensures SameFacts(db, WriteRegistry(db, row))
  {
  }

  lemma RegistryFacts(db: Db, q: RegistryRequest, revision: int)
    ensures SameFacts(db, Settled(db, RegistryWork(db, q, revision)))
  {
    hide RegistryCollision, AnyEdgeRefused, SameRegistry, WriteRegistry, Halt, SameFacts;
    WriteRegistryFacts(db, RegistryRow(q, revision));
    SelfFacts(db);
    if db.head.Some? {
      HaltFacts(db);
    }
  }

  lemma SelfFacts(db: Db)
    ensures SameFacts(db, db)
  {
  }

  lemma HaltFacts(db: Db)
    requires db.head.Some?
    ensures SameFacts(db, Halt(db))
  {
  }

  lemma OperationAdds(db: Db, op: Operation, revision: int)
    ensures Adds(db, Settled(db, WorkOf(db, op, revision)), revision)
  {
    hide CaseWork, AdviceWork, RegistryWork, CaseRequestOk, AdviceRequestOk, RegistryRequestOk;
    match op
    case CommitCaseOp(c) =>
      if CaseRequestOk(c) {
        CaseAdds(db, c, revision);
      }
    case CommitAdviceOp(a) =>
      if AdviceRequestOk(a) {
        AdviceAdds(db, a, revision);
      }
    case CommitRegistryOp(r) => RegistryFacts(db, r, revision);
  }

  lemma ApplyRequestsOk(s: State, e: Event)
    requires RequestsOk(s.db) && Valid(s.db, s.top)
    ensures RequestsOk(Apply(s, e).db)
  {
    hide CaseRequestOk, AdviceRequestOk, WorkOf, Settled, Valid;
    OperationAdds(s.db, e.op, s.top + 1 + e.gap);
    OperationKeeps(s.db, e.op, s.top + 1 + e.gap, s.top);
  }

  lemma {:induction false} RunRequestsOk(s: State, events: seq<Event>)
    requires RequestsOk(s.db) && Valid(s.db, s.top)
    ensures RequestsOk(Run(s, events).db)
    decreases |events|
  {
    hide RequestsOk, WorkOf, Settled, Valid;
    if events != [] {
      ApplyRequestsOk(s, events[0]);
      OperationKeeps(s.db, events[0].op, s.top + 1 + events[0].gap, s.top);
      RunRequestsOk(Apply(s, events[0]), events[1..]);
    }
  }

  // ----- Projection facts -----

  function CaseFactOf(row: CaseRow): P.Fact {
    P.Fact(row.request.envelopeId, row.request.commitment, row.request.raw)
  }

  function AdviceFactOf(row: AdviceRow): P.Fact {
    P.Fact(row.request.envelopeId, row.request.commitment, row.request.raw)
  }

  function CaseFacts(db: Db): map<int, P.Fact>
    requires RevisionsDistinct(db)
  {
    map c | c in db.cases :: db.cases[c].revision := CaseFactOf(db.cases[c])
  }

  function AdviceFacts(db: Db): map<int, P.Fact>
    requires RevisionsDistinct(db)
  {
    map c | c in db.advice :: db.advice[c].revision := AdviceFactOf(db.advice[c])
  }

  /** The union of cases and advice by commit revision. */
  function FactsOf(db: Db): map<int, P.Fact>
    requires RevisionsDistinct(db)
  {
    CaseFacts(db) + AdviceFacts(db)
  }

  datatype FactPage = FactPage(facts: seq<(int, P.Fact)>, highWatermark: int)

  /** The facts of the listed revisions. */
  function FactsAt(facts: map<int, P.Fact>, revisions: seq<int>, after: int): seq<(int, P.Fact)>
    requires Paging.FromKeys(revisions, facts.Keys, after)
  {
    seq(|revisions|, i requires 0 <= i < |revisions| => (revisions[i], facts[revisions[i]]))
  }

  function PageOfFacts(facts: map<int, P.Fact>, after: int, limit: nat): FactPage {
    Paging.PageFromKeys(facts.Keys, after, limit);
    FactPage(FactsAt(facts, Paging.Ordered(facts.Keys, after, limit), after), Paging.Largest(facts.Keys))
  }

  /** ListProjectionFacts. */
  function ListProjectionFacts(db: Db, after: int, limit: int): Result<FactPage, Error>
    requires RevisionsDistinct(db)
  {
    if after < 0 || limit <= 0 || limit > 1000 then Err(InvalidRequest) else Ok(PageOfFacts(FactsOf(db), after, limit))
  }

  /** A page holds committed facts in revision order above the cursor, all of them up to its
      last one or, when it is not full, to the end; the watermark is the newest revision. */
  ghost predicate CompletePage(facts: map<int, P.Fact>, after: int, limit: nat, page: FactPage, revision: int) {
    var n := |page.facts|;
    && n <= limit
    && (forall i | 0 <= i < n ::
          page.facts[i].0 > after && page.facts[i].0 in facts && page.facts[i].1 == facts[page.facts[i].0])
    && (forall i, j | 0 <= i < j < n :: page.facts[i].0 < page.facts[j].0)
    && (revision in facts ==>
          && revision <= page.highWatermark
          && (after < revision && (n < limit || (n > 0 && revision <= page.facts[n - 1].0)) ==>
                (revision, facts[revision]) in page.facts))
    && (page.highWatermark == 0 || page.highWatermark in facts)
  }

  lemma PageOfFactsIsComplete(facts: map<int, P.Fact>, after: int, limit: nat, revision: int)
    ensures CompletePage(facts, after, limit, PageOfFacts(facts, after, limit), revision)
  {
    hide Paging.Ordered;
    var revisions := Paging.Ordered(facts.Keys, after, limit);
    Paging.PageFromKeys(facts.Keys, after, limit);
    Paging.OrderedIncreases(facts.Keys, after, limit);
    var page := PageOfFacts(facts, after, limit);
    assert forall i | 0 <= i < |revisions| :: page.facts[i] == (revisions[i], facts[revisions[i]]);
    if revision in facts && revision > after && Paging.Covers(revisions, limit, revision) {
      Paging.OrderedMissesNone(facts.Keys, after, limit, revision);
      var i :| 0 <= i < |revisions| && revisions[i] == revision;
      assert page.facts[i] == (revision, facts[revision]);
    }
  }

  lemma FactPageIsComplete(db: Db, after: int, limit: int, revision: int)
    requires RevisionsDistinct(db)
    ensures var a := ListProjectionFacts(db, after, limit);
      && (a.Ok? <==> after >= 0 && 1 <= limit <= 1000) && (a.Err? ==> a.error == InvalidRequest)
      && (a.Ok? ==> CompletePage(FactsOf(db), after, limit, a.value, revision))
  {
    hide FactsOf, RevisionsDistinct, PageOfFacts, CompletePage;
    if limit > 0 {
      PageOfFactsIsComplete(FactsOf(db), after, limit, revision);
    }
  }

  /** Rows are only added above the revisions drawn so far. */
  ghost predicate AddedAbove(db: Db, later: Db, top: int) {
    && (forall c | c in later.cases && c !in db.cases :: later.cases[c].revision > top)
    && (forall c | c in later.advice && c !in db.advice :: later.advice[c].revision > top)
  }

  lemma {:induction false} RunAddsAbove(s: State, events: seq<Event>)
    requires Valid(s.db, s.top)
    ensures AddedAbove(s.db, Run(s, events).db, s.top)
    decreases |events|
  {
    hide WorkOf, Settled, Valid, CaseRequestOk, AdviceRequestOk;
    if events != [] {
      var t := Apply(s, events[0]);
      OperationAdds(s.db, events[0].op, t.top);
      OperationKeeps(s.db, events[0].op, t.top, s.top);
      RunAddsAbove(t, events[1..]);
      RunKeeps(t, events[1..]);
    }
  }

  /** Facts are append-only: whatever happens later, every fact stays as it is and new
      ones come above every revision drawn so far. */
  lemma FactsAppendOnly(s: State, events: seq<Event>)
    requires Valid(s.db, s.top)
    ensures var t := Run(s, events);
      && RevisionsDistinct(t.db)
      && (forall r | r in FactsOf(s.db) :: r in FactsOf(t.db) && FactsOf(t.db)[r] == FactsOf(s.db)[r])
      && (forall r | r in FactsOf(t.db) && r !in FactsOf(s.db) :: r > s.top)
  {
    hide Run, LogOk, RegistryOk, OutboxExact, RevisionsBelow, CaseFacts, AdviceFacts, RevisionsDistinct, FactsOf, Grows;
    RunKeeps(s, events);
    RunAddsAbove(s, events);
    GrowingFacts(s.db, Run(s, events).db);
    NewFactsAbove(s.db, Run(s, events).db, s.top);
  }

  lemma NewFactsAbove(db: Db, later: Db, top: int)
    requires RevisionsDistinct(db) && RevisionsDistinct(later) && Grows(db, later) && AddedAbove(db, later, top)
    ensures forall r | r in FactsOf(later) && r !in FactsOf(db) :: r > top
  {
    hide FactsOf, RevisionsDistinct, Grows, AddedAbove;
    forall r | r in FactsOf(later) && r !in FactsOf(db)
      ensures r > top
    {
      NewFactAbove(db, later, top, r);
    }
  }

  lemma NewFactAbove(db: Db, later: Db, top: int, r: int)
    requires RevisionsDistinct(db) && RevisionsDistinct(later) && Grows(db, later) && AddedAbove(db, later, top)
    requires r in FactsOf(later) && r !in FactsOf(db)
    ensures r > top
  {
    hide FactsOf, RevisionsDistinct;
    RowsAreFacts(db);
    FactRow(later, r);
    if c :| CaseRowAt(later, c, r) {
      assert c !in db.cases;
    } else {
      var c :| AdviceRowAt(later, c, r);
      assert c !in db.advice;
    }
  }

  lemma RowsAreFacts(db: Db)
    requires RevisionsDistinct(db)
    ensures forall c | c in db.cases :: db.cases[c].revision in FactsOf(db)
    ensures forall c | c in db.advice :: db.advice[c].revision in FactsOf(db)
  {
    forall c | c in db.cases
      ensures db.cases[c].revision in FactsOf(db)
    {
      assert db.cases[c].revision in CaseFacts(db);
    }
    forall c | c in db.advice
      ensures db.advice[c].revision in FactsOf(db)
    {
      assert db.advice[c].revision in AdviceFacts(db);
    }
  }

  lemma GrowingFacts(db: Db, later: Db)
    requires RevisionsDistinct(db) && RevisionsDistinct(later) && Grows(db, later)
    ensures forall r | r in FactsOf(db) :: r in FactsOf(later) && FactsOf(later)[r] == FactsOf(db)[r]
  {
    forall r | r in FactsOf(db)
      ensures r in FactsOf(later) && FactsOf(later)[r] == FactsOf(db)[r]
    {
      if r in AdviceFacts(db) {
        assert r in AdviceFacts(later) && AdviceFacts(later)[r] == AdviceFacts(db)[r];
      } else {
        var c :| c in db.cases && db.cases[c].revision == r;
        assert c in later.cases && later.cases[c].revision == r;
        assert r !in AdviceFacts(later);
        assert CaseFacts(later)[r] == CaseFacts(db)[r];
      }
    }
  }

  /** The verifier reads from committed bytes what was committed with them. */
  ghost predicate Truthful(db: Db, verify: Bytes -> Option<P.Envelope>) {
    && (forall c | c in db.cases && verify(db.cases[c].request.raw).Some? ::
          verify(db.cases[c].request.raw).value.family == P.CaseFamily ==>
            verify(db.cases[c].request.raw).value.caseId == c)
    && (forall c | c in db.advice && verify(db.advice[c].request.raw).Some? ::
          verify(db.advice[c].request.raw).value.family != P.CaseFamily)
  }

  /** A fact is the row of a case or of an advice. */
  lemma FactRow(db: Db, r: int)
    requires RevisionsDistinct(db) && r in FactsOf(db)
    ensures
      || (exists c :: CaseRowAt(db, c, r) && FactsOf(db)[r] == CaseFactOf(db.cases[c]))
      || (exists c :: AdviceRowAt(db, c, r) && FactsOf(db)[r] == AdviceFactOf(db.advice[c]))
  {
    if r in AdviceFacts(db) {
      var c :| c in db.advice && db.advice[c].revision == r;
      assert AdviceRowAt(db, c, r);
    } else {
      var c :| c in db.cases && db.cases[c].revision == r;
      assert CaseRowAt(db, c, r);
    }
  }

  predicate CaseRowAt(db: Db, c: string, r: int) {
    c in db.cases && db.cases[c].revision == r
  }

  predicate AdviceRowAt(db: Db, c: string, r: int) {
    c in db.advice && db.advice[c].revision == r
  }

  /** Two facts with one envelope identifier are one fact. */
  lemma EnvelopeOnce(db: Db, top: int, p: int, q: int)
    requires Valid(db, top) && p in FactsOf(db) && q in FactsOf(db)
      && FactsOf(db)[p].envelopeId == FactsOf(db)[q].envelopeId
    ensures p == q
  {
    hide RevisionsBelow, OutboxExact, RegistryOk, Numbered, Increasing, EntriesBacked;
    var a := FactDelivery(db, top, p);
    var b := FactDelivery(db, top, q);
    assert a == b;
  }

  /** Every fact is in exactly one delivery log, under its own revision. */
  lemma FactDelivery(db: Db, top: int, r: int) returns (slot: Slot)
    requires Valid(db, top) && r in FactsOf(db)
    ensures slot in db.deliveries && db.deliveries[slot].revision == r
      && db.deliveries[slot].envelopeId == FactsOf(db)[r].envelopeId
  {
    hide RevisionsBelow, OutboxExact, RegistryOk, Numbered, Increasing, EntriesBacked, EnvelopesUnique, FactsOf,
      RevisionsDistinct;
    FactRow(db, r);
    if c :| CaseRowAt(db, c, r) && FactsOf(db)[r] == CaseFactOf(db.cases[c]) {
      var s :| LoggedAt(db, db.cases[c].request.issuer, s, CaseDelivery(db.cases[c]));
      slot := Slot(db.cases[c].request.issuer, s);
    } else {
      var c :| AdviceRowAt(db, c, r) && FactsOf(db)[r] == AdviceFactOf(db.advice[c]);
      assert AdviceBound(db, c);
      slot := Slot(db.advice[c].target, db.advice[c].sequence);
    }
  }

  lemma CaseFactRow(db: Db, c: P.Setup, r: int, id: string)
    requires RevisionsDistinct(db) && c.facts == FactsOf(db) && Truthful(db, c.verify) && P.CaseFact(c, r, id)
    ensures CaseRowAt(db, id, r)
  {
    hide FactsOf;
    FactRow(db, r);
  }

  /** What the projector needs of its facts holds of everything the authority commits. */
  lemma AuthorityFeedsProjector(events: seq<Event>, verify: Bytes -> Option<P.Envelope>, maxAttempts: int)
    requires maxAttempts > 0 && Truthful(Run(START, events).db, verify)
    ensures var db := Run(START, events).db;
      RevisionsDistinct(db) && P.SetupOk(P.Setup(FactsOf(db), verify, maxAttempts))
  {
    hide Run;
    RunsAreValid(events);
    EmptyValid();
    RunRequestsOk(START, events);
    var s := Run(START, events);
    FactsSetup(s.db, s.top, P.Setup(FactsOf(s.db), verify, maxAttempts));
  }

  lemma FactsSetup(db: Db, top: int, c: P.Setup)
    requires Valid(db, top) && RequestsOk(db) && c.facts == FactsOf(db) && Truthful(db, c.verify) && c.maxAttempts > 0
    ensures P.SetupOk(c)
  {
    hide LogOk, OutboxExact, RegistryOk, FactsOf, P.CaseFact, CaseRequestOk, AdviceRequestOk, Truthful,
      RevisionsDistinct, RevisionsBelow;
    forall q | q in c.facts
      ensures q > 0 && c.facts[q].raw != []
    {
      FactPositive(db, top, q);
    }
    forall p, q | p in c.facts && q in c.facts && c.facts[p].envelopeId == c.facts[q].envelopeId
      ensures p == q
    {
      EnvelopeOnce(db, top, p, q);
    }
    forall p, q, id | P.CaseFact(c, p, id) && P.CaseFact(c, q, id)
      ensures p == q
    {
      CaseFactRow(db, c, p, id);
      CaseFactRow(db, c, q, id);
    }
  }

  lemma FactPositive(db: Db, top: int, r: int)
    requires RevisionsDistinct(db) && RevisionsBelow(db, top) && RequestsOk(db) && r in FactsOf(db)
    ensures r > 0 && FactsOf(db)[r].raw != []
  {
    hide FactsOf, RevisionsDistinct, ValidText, ValidCommitment;
    FactRow(db, r);
  }

  /** The entries of an authority log pass the edge's page checks as soon as their bytes
      keep within the envelope limit. */
  lemma LogEntriesPass(db: Db, top: int, key: EdgeKey)
    requires Valid(db, top) && RequestsOk(db)
    requires forall slot | slot in db.deliveries && slot.key == key :: |db.deliveries[slot].raw| <= MAX_ENVELOPE_BYTES
    ensures EdgeRecovery.LogOk(AuthorityTheorems.Log(db, key))
  {
    hide RevisionsBelow, RevisionsDistinct, OutboxExact, RegistryOk, Increasing, EnvelopesUnique, CasesLogged;
    var log := AuthorityTheorems.Log(db, key);
    forall i | 0 <= i < |log|
      ensures EdgeConsumer.EntryOk(log[i])
    {
      assert log[i] == db.deliveries[Slot(key, i + 1)];
      EntryPasses(db, top, Slot(key, i + 1));
    }
  }

  lemma EntryPasses(db: Db, top: int, slot: Slot)
    requires Valid(db, top) && RequestsOk(db) && slot in db.deliveries
      && |db.deliveries[slot].raw| <= MAX_ENVELOPE_BYTES
    ensures EdgeConsumer.EntryOk(db.deliveries[slot])
  {
    hide Numbered, RevisionsDistinct, OutboxExact, RegistryOk, Increasing, EnvelopesUnique, CasesLogged, AdviceLogged;
    assert Backed(db, slot, db.deliveries[slot]);
  }
}
