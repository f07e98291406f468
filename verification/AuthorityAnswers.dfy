/** What the authority answers to a commit, told from the committed rows alone. */
module AuthorityAnswers {
  import opened Common
  import opened Authority
  import opened AuthorityInvariant
  import Theorems = AuthorityTheorems

  predicate Live(db: Db) {
    db.head.Some? && !db.head.value.halted
  }

  predicate HaltedHead(db: Db) {
    db.head.Some? && db.head.value.halted
  }

  // ----- Cases -----

  /** The live head is the registry the case was made under. */
  predicate UnderHead(db: Db, q: CaseRequest) {
    && Live(db) && db.head.value.revision == q.registryRevision
    && db.head.value.commitment == q.registryHash && db.head.value.routingEpoch == q.routingEpoch
  }

  /** Another committed case has this envelope identifier or this commitment. */
  predicate CaseTaken(db: Db, q: CaseRequest) {
    exists c | c in db.cases ::
      db.cases[c].request.envelopeId == q.envelopeId || db.cases[c].request.commitment == q.commitment
  }

  predicate Delivered(db: Db, envelopeId: string) {
    exists slot | slot in db.deliveries :: db.deliveries[slot].envelopeId == envelopeId
  }

  /** A known case is accepted exactly when it is the same in every field. */
  lemma KnownCaseAnswers(db: Db, q: CaseRequest, revision: int)
    requires CaseRequestOk(q) && q.caseId in db.cases
    ensures var a := WorkOf(db, CommitCaseOp(q), revision).result; var row := db.cases[q.caseId];
      if row.request == q then a == Ok(Receipt(row.revision, q.envelopeId, q.commitment)) else a == Err(ConflictingCase)
  {
    hide CaseRequestOk;
  }

  /** A new case is accepted exactly when it was made under the live head, no case shares
      its envelope or commitment and nothing was delivered under its envelope; every
      refusal has its own reason. */
  lemma NewCaseAnswers(db: Db, q: CaseRequest, revision: int)
    requires CaseRequestOk(q) && q.caseId !in db.cases
    ensures var a := WorkOf(db, CommitCaseOp(q), revision).result;
      && (a == Err(RegistryNotFound) <==> db.head.None?)
      && (a == Err(RegistryHalted) <==> HaltedHead(db))
      && (a == Err(RegistryBinding) <==> Live(db) && !UnderHead(db, q))
      && (a == Err(ConflictingCase) <==> UnderHead(db, q) && CaseTaken(db, q))
      && (a == Err(ConstraintViolation) <==> UnderHead(db, q) && !CaseTaken(db, q) && Delivered(db, q.envelopeId))
      && (a.Ok? <==> UnderHead(db, q) && !CaseTaken(db, q) && !Delivered(db, q.envelopeId))
      && (a.Ok? ==> a.value == Receipt(revision, q.envelopeId, q.commitment))
  {
    hide CaseRequestOk, WriteCase;
  }

  // ----- Advice -----

  /** The advice binds its committed case and that case's registry. */
  predicate BindsCase(db: Db, q: AdviceRequest) {
    && q.caseId in db.cases
    && var c := db.cases[q.caseId].request;
       && q.caseCommitment == c.commitment && q.routingEpoch == c.routingEpoch
       && q.registryRevision == c.registryRevision && q.registryHash == c.registryHash
  }

  predicate AdviceTaken(db: Db, q: AdviceRequest) {
    exists c | c in db.advice ::
      db.advice[c].request.envelopeId == q.envelopeId || db.advice[c].request.commitment == q.commitment
  }

  /** The exact advice that is committed is answered again; any other for its case is
      refused, with the state of the head first. */
  lemma AnsweredCaseAnswers(db: Db, q: AdviceRequest, revision: int)
    requires AdviceRequestOk(q) && q.caseId in db.advice
    ensures var a := WorkOf(db, CommitAdviceOp(q), revision).result; var row := db.advice[q.caseId];
      && (row.request == q ==> a == Ok(Receipt(row.revision, q.envelopeId, q.commitment)))
      && (row.request != q ==>
            a == Err(if db.head.None? then RegistryNotFound
                     else if HaltedHead(db) then RegistryHalted else FinalAdviceAlreadySet))
  {
    hide AdviceRequestOk;
  }

  /** A first advice is accepted exactly when the head is live, the advice binds its case,
      no advice shares its envelope or commitment and nothing was delivered under its
      envelope; every refusal has its own reason. */
  lemma FirstAdviceAnswers(db: Db, q: AdviceRequest, revision: int)
    requires AdviceRequestOk(q) && q.caseId !in db.advice
    ensures var a := WorkOf(db, CommitAdviceOp(q), revision).result; var open := Live(db) && BindsCase(db, q);
      && (a == Err(RegistryNotFound) <==> db.head.None?)
      && (a == Err(RegistryHalted) <==> HaltedHead(db))
      && (a == Err(CaseNotFound) <==> Live(db) && q.caseId !in db.cases)
      && (a == Err(CaseBinding) <==> Live(db) && q.caseId in db.cases && !BindsCase(db, q))
      && (a == Err(FinalAdviceAlreadySet) <==> open && AdviceTaken(db, q))
      && (a == Err(ConstraintViolation) <==> open && !AdviceTaken(db, q) && Delivered(db, q.envelopeId))
      && (a.Ok? <==> open && !AdviceTaken(db, q) && !Delivered(db, q.envelopeId))
      && (a.Ok? ==> a.value == Receipt(revision, q.envelopeId, q.commitment))
  {
    hide AdviceRequestOk, WriteAdvice;
  }

  // ----- Registries -----

  /** A registry may list the edge so: with a generation above all it ever had, or just as
      the head lists it. */
  ghost predicate Listable(db: Db, e: string, edge: RegistryEdge) {
    || (forall r | Lists(db.registries, r, e) :: Listing(db.registries, r, e).generation < edge.generation)
    || (db.head.Some? && Lists(db.registries, db.head.value.revision, e) &&
        Listing(db.registries, db.head.value.revision, e) == edge)
  }

  /** The high-water row decides exactly that. */
  lemma RefusedExactly(db: Db, top: int, e: string, edge: RegistryEdge)
    requires Valid(db, top)
    ensures HighWaterRefuses(db.highWater, e, edge, db.head) <==> !Listable(db, e, edge)
  {
    hide LogOk, RevisionsBelow, RevisionsDistinct, OutboxExact;
    var regs := db.registries;
    if e in db.highWater {
      var mark := db.highWater[e];
      assert Lists(regs, mark.lastSeen, e);
      assert Listing(regs, mark.lastSeen, e) == RegistryEdge(mark.principalId, mark.generation);
      assert forall r | Lists(regs, r, e) :: Listing(regs, r, e).generation <= mark.generation;
      if db.head.Some? && Lists(regs, db.head.value.revision, e) {
        assert mark.lastSeen == db.head.value.revision;
      }
    }
  }

  ghost predicate AllListable(db: Db, q: RegistryRequest) {
    forall e | e in q.edges :: Listable(db, e, q.edges[e])
  }

  lemma AnyRefusedExactly(db: Db, top: int, q: RegistryRequest)
    requires Valid(db, top)
    ensures AnyEdgeRefused(db.highWater, q.edges, db.head) <==> !AllListable(db, q)
  {
    hide Valid, HighWaterRefuses, Listable;
    forall e | e in q.edges
      ensures HighWaterRefuses(db.highWater, e, q.edges[e], db.head) <==> !Listable(db, e, q.edges[e])
    {
      RefusedExactly(db, top, e, q.edges[e]);
    }
  }

  predicate RegistryTaken(db: Db, q: RegistryRequest) {
    exists r | r in db.registries ::
      db.registries[r].request.envelopeId == q.envelopeId || db.registries[r].request.commitment == q.commitment
  }

  /** The next registry after the head, naming it. */
  predicate Succeeds(db: Db, q: RegistryRequest) {
    Live(db) && q.revision == db.head.value.revision + 1 && q.previousCommitment == db.head.value.commitment
  }

  /** The registry in force, with the same evidence. */
  predicate Repeats(db: Db, q: RegistryRequest) {
    && Live(db) && q.revision == db.head.value.revision && q.revision in db.registries
    && var p := db.registries[q.revision].request;
       && p.envelopeId == q.envelopeId && p.commitment == q.commitment && p.raw == q.raw
       && p.routingEpoch == q.routingEpoch && p.previousCommitment == q.previousCommitment
  }

  /** Under a live head a registry is accepted exactly when it repeats the one in force, or
      succeeds it, shares no envelope or commitment and lists every edge with a raised
      generation or as the head does; every refusal has its own reason. */
  lemma RegistryAnswers(db: Db, top: int, q: RegistryRequest, revision: int)
    requires Valid(db, top) && RegistryRequestOk(q) && Live(db)
    ensures var a := WorkOf(db, CommitRegistryOp(q), revision).result; var head := db.head.value.revision;
      && (a == Err(Rollback) <==> q.revision < head)
      && (a == Err(RevisionSequence) <==> q.revision > head + 1)
      && (a == Err(Equivocation) <==>
            (q.revision == head && !Repeats(db, q)) || (q.revision == head + 1 && !Succeeds(db, q)))
      && (a == Err(ConflictingRegistry) <==> Succeeds(db, q) && RegistryTaken(db, q))
      && (a == Err(EdgeGenerationRollback) <==> Succeeds(db, q) && !RegistryTaken(db, q) && !AllListable(db, q))
      && (a.Ok? <==> Repeats(db, q) || (Succeeds(db, q) && !RegistryTaken(db, q) && AllListable(db, q)))
      && (a.Ok? ==>
            a.value == Receipt(if q.revision == head then db.registries[head].commitRevision else revision,
                               q.envelopeId, q.commitment))
  {
    AnyRefusedExactly(db, top, q);
    HeadStored(db, top);
    hide Valid, RegistryRequestOk, AnyEdgeRefused, AllListable, WriteRegistry, Halt;
  }

  lemma HeadStored(db: Db, top: int)
    requires Valid(db, top) && db.head.Some?
    ensures db.head.value.revision in db.registries
  {
  }

  /** The first registry is accepted exactly when it names no predecessor, and under a
      halted head none is. */
  lemma FirstRegistryAnswers(db: Db, top: int, q: RegistryRequest, revision: int)
    requires Valid(db, top) && RegistryRequestOk(q) && !Live(db)
    ensures var a := WorkOf(db, CommitRegistryOp(q), revision).result;
      if HaltedHead(db) then a == Err(RegistryHalted)
      else if q.previousCommitment != "" then a == Err(Equivocation)
      else a == Ok(Receipt(revision, q.envelopeId, q.commitment))
  {
    AnyRefusedExactly(db, top, q);
    if db.head.None? {
      assert db.registries == map[];
      assert AllListable(db, q);
    }
    hide Valid, RegistryRequestOk, AnyEdgeRefused, AllListable, WriteRegistry, Halt;
  }

  // ----- What is committed -----

  predicate WritesWhatItSays(db: Db, w: Work) {
    && (w.commit <==> w.tx != db)
    && (w.drew <==> (w.result.Ok? && w.tx != db) || w.result == Err(ConstraintViolation))
  }

  lemma CaseChanges(db: Db, row: CaseRow)
    requires row.request.caseId !in db.cases
    ensures WriteCase(db, row) != db
  {
    assert row.request.caseId in WriteCase(db, row).cases;
  }

  lemma CaseWrites(db: Db, q: CaseRequest, revision: int)
    ensures WritesWhatItSays(db, CaseWork(db, q, revision))
  {
    hide WriteCase, CaseCollision, EnvelopeDelivered;
    if q.caseId !in db.cases {
      CaseChanges(db, CaseRow(q, revision));
    }
  }

  lemma AdviceChanges(db: Db, row: AdviceRow)
    requires row.request.caseId !in db.advice
    ensures WriteAdvice(db, row) != db
  {
    assert row.request.caseId in WriteAdvice(db, row).advice;
  }

  lemma AdviceWrites(db: Db, q: AdviceRequest, revision: int)
    ensures WritesWhatItSays(db, AdviceWork(db, q, revision))
  {
    hide WriteAdvice, AdviceCollision, EnvelopeDelivered, NextSequence;
    if q.caseId !in db.advice && q.caseId in db.cases {
      var issuer := db.cases[q.caseId].request.issuer;
      AdviceChanges(db, AdviceRow(q, issuer, NextSequence(db, issuer), revision));
    }
  }

  lemma HaltChanges(db: Db)
    requires Live(db)
    ensures Halt(db) != db
  {
    assert Halt(db).head != db.head;
  }

  lemma RegistryChanges(db: Db, row: RegistryRow)
    requires row.request.revision !in db.registries
    ensures WriteRegistry(db, row) != db
  {
    assert row.request.revision in WriteRegistry(db, row).registries;
  }

  lemma HeldRegistryWrites(db: Db, q: RegistryRequest, revision: int)
    requires db.head.Some? && db.head.value.revision in db.registries
    requires db.head.value.halted || q.revision <= db.head.value.revision
    ensures WritesWhatItSays(db, RegistryWork(db, q, revision))
  {
    hide SameRegistry, Halt, WriteRegistry, RegistryCollision, AnyEdgeRefused;
    if Live(db) {
      HaltChanges(db);
    }
  }

  lemma NextRegistryWrites(db: Db, q: RegistryRequest, revision: int)
    requires db.head.Some? ==> Live(db) && q.revision > db.head.value.revision
    requires db.head.None? || q.revision == db.head.value.revision + 1 ==> q.revision !in db.registries
    ensures WritesWhatItSays(db, RegistryWork(db, q, revision))
  {
    hide SameRegistry, Halt, WriteRegistry, RegistryCollision, AnyEdgeRefused;
    if db.head.Some? {
      HaltChanges(db);
    }
    if q.revision !in db.registries {
      RegistryChanges(db, RegistryRow(q, revision));
    }
  }

  lemma RegistryWrites(db: Db, top: int, q: RegistryRequest, revision: int)
    requires Valid(db, top)
    ensures WritesWhatItSays(db, RegistryWork(db, q, revision))
  {
    hide Valid, RegistryWork, WritesWhatItSays;
    HeadIsLast(db, top);
    if HaltedHead(db) || (db.head.Some? && q.revision <= db.head.value.revision) {
      HeldRegistryWrites(db, q, revision);
    } else {
      NextRegistryWrites(db, q, revision);
    }
  }

  lemma HeadIsLast(db: Db, top: int)
    requires Valid(db, top)
    ensures db.head.None? ==> db.registries == map[]
    ensures db.head.Some? ==>
      db.head.value.revision in db.registries && db.head.value.revision + 1 !in db.registries
  {
    hide LogOk, RevisionsBelow, RevisionsDistinct, OutboxExact;
  }

  /** Work is committed exactly when it changes something, and a revision is drawn exactly
      for an accepted change and for one that fails on the index of delivered envelopes. */
  lemma WritesExactly(db: Db, top: int, op: Operation, revision: int)
    requires Valid(db, top)
    ensures WritesWhatItSays(db, WorkOf(db, op, revision))
  {
    hide Valid, CaseWork, AdviceWork, RegistryWork, CaseRequestOk, AdviceRequestOk, RegistryRequestOk;
    match op
    case CommitCaseOp(q) => CaseWrites(db, q, revision);
    case CommitAdviceOp(q) => AdviceWrites(db, q, revision);
    case CommitRegistryOp(q) => RegistryWrites(db, top, q, revision);
  }

  // ----- Validation -----

  /** Nothing but white space, as Unicode has it. */
  predicate Blank(s: string) {
    forall i | 0 <= i < |s| ::
      s[i] as int in {9, 10, 11, 12, 13, 32, 0x85, 0xA0, 0x1680, 0x2000, 0x2001, 0x2002, 0x2003, 0x2004, 0x2005,
                      0x2006, 0x2007, 0x2008, 0x2009, 0x200A, 0x2028, 0x2029, 0x202F, 0x205F, 0x3000}
  }

  /** A commitment is the hexadecimal SHA-256 form, in lower case. */
  predicate CommitmentText(s: string) {
    && |s| == 71
    && s[0] == 's' && s[1] == 'h' && s[2] == 'a' && s[3] == '2' && s[4] == '5' && s[5] == '6' && s[6] == ':'
    && forall i | 7 <= i < 71 :: s[i] in "0123456789abcdef"
  }

  lemma TextMeans(s: string)
    ensures ValidText(s) <==> !Blank(s)
    ensures ValidCommitment(s) <==> CommitmentText(s)
  {
    if |s| == 71 {
      assert s[..7] == "sha256:" <==>
        s[0] == 's' && s[1] == 'h' && s[2] == 'a' && s[3] == '2' && s[4] == '5' && s[5] == '6' && s[6] == ':';
    }
  }

  /** A request is refused as invalid exactly when an identifier is blank, a commitment
      malformed, the bytes missing, a number out of range or the expiry not set. */
  lemma InvalidCase(db: Db, q: CaseRequest, revision: int)
    ensures WorkOf(db, CommitCaseOp(q), revision).result == Err(InvalidRequest) <==>
      || Blank(q.caseId) || Blank(q.envelopeId) || Blank(q.domain) || Blank(q.issuer.edgeId)
      || !CommitmentText(q.commitment) || !CommitmentText(q.registryHash) || |q.raw| == 0
      || q.issuer.generation <= 0 || q.routingEpoch < 0 || q.registryRevision < 0 || q.expiresAt == ZERO_TIME
  {
    TextMeans(q.caseId);
    TextMeans(q.envelopeId);
    TextMeans(q.domain);
    TextMeans(q.issuer.edgeId);
    TextMeans(q.commitment);
    TextMeans(q.registryHash);
    hide ValidText, ValidCommitment, Blank, CommitmentText, WriteCase;
  }

  lemma InvalidAdvice(db: Db, q: AdviceRequest, revision: int)
    ensures WorkOf(db, CommitAdviceOp(q), revision).result == Err(InvalidRequest) <==>
      || Blank(q.caseId) || Blank(q.envelopeId) || !CommitmentText(q.caseCommitment) || !CommitmentText(q.commitment)
      || !CommitmentText(q.registryHash) || |q.raw| == 0 || q.routingEpoch < 0 || q.registryRevision < 0
  {
    TextMeans(q.caseId);
    TextMeans(q.envelopeId);
    TextMeans(q.caseCommitment);
    TextMeans(q.commitment);
    TextMeans(q.registryHash);
    hide ValidText, ValidCommitment, Blank, CommitmentText, WriteAdvice;
  }

  ghost predicate EdgeInvalid(e: string, edge: RegistryEdge) {
    Blank(e) || Blank(edge.principalId) || edge.generation <= 0
  }

  lemma InvalidRegistry(db: Db, q: RegistryRequest, revision: int)
    ensures WorkOf(db, CommitRegistryOp(q), revision).result == Err(InvalidRequest) <==>
      || q.revision <= 0 || Blank(q.envelopeId) || !CommitmentText(q.commitment) || |q.raw| == 0 || q.routingEpoch < 0
      || (q.previousCommitment != "" && !CommitmentText(q.previousCommitment))
      || exists e | e in q.edges :: EdgeInvalid(e, q.edges[e])
  {
    TextMeans(q.envelopeId);
    TextMeans(q.commitment);
    TextMeans(q.previousCommitment);
    hide ValidText, ValidCommitment, Blank, CommitmentText, WriteRegistry, AnyEdgeRefused, RegistryCollision;
    forall e | e in q.edges
      ensures ValidText(e) && ValidText(q.edges[e].principalId) && q.edges[e].generation > 0 <==>
        !EdgeInvalid(e, q.edges[e])
    {
      TextMeans(e);
      TextMeans(q.edges[e].principalId);
    }
  }

  // ----- The delivery query -----

  predicate BadQuery(q: Theorems.EdgeQuery) {
    Blank(q.edgeId) || Blank(q.principalId) || q.generation <= 0 || q.after < 0 || q.limit <= 0 || q.limit > 1000
  }

  lemma BadQueryMeans(q: Theorems.EdgeQuery)
    ensures Theorems.QueryOk(q) <==> !BadQuery(q)
  {
    TextMeans(q.edgeId);
    TextMeans(q.principalId);
    hide ValidText, Blank;
  }

  /** The head lists the edge with this principal and this generation. */
  predicate ActiveEdge(db: Db, q: Theorems.EdgeQuery) {
    && Live(db) && Lists(db.registries, db.head.value.revision, q.edgeId)
    && Listing(db.registries, db.head.value.revision, q.edgeId) == RegistryEdge(q.principalId, q.generation)
  }

  /** The query is answered exactly for an active edge, a halt is told to edges that were
      ever listed, and any other edge is not active. */
  lemma QueryAnswers(db: Db, top: int, q: Theorems.EdgeQuery)
    requires Valid(db, top)
    ensures var a := Theorems.ListEdgeDeliveries(db, q);
      && (a.Ok? <==> !BadQuery(q) && ActiveEdge(db, q))
      && (a == Err(InvalidRequest) <==> BadQuery(q))
      && (a == Err(RegistryHalted) <==> !BadQuery(q) && HaltedHead(db) && exists r :: Lists(db.registries, r, q.edgeId))
      && (a.Err? ==> a.error in {InvalidRequest, RegistryHalted, EdgeNotActive})
  {
    BadQueryMeans(q);
    Theorems.PageNeedsActiveEdge(db, top, q);
    hide Valid, Theorems.QueryOk, BadQuery, Theorems.ReadPage;
  }

  /** The page is the stretch of the log after the cursor, no longer than asked, with the
      log's length and how far it completes it. */
  ghost predicate Stretch(page: Theorems.Page, log: seq<Delivery>, after: int, limit: int) {
    var end := if after >= |log| then after else if |log| - after < limit then |log| else after + limit;
    && page.highWatermark == |log| && page.completeThrough == end && |page.entries| == end - after
    && forall i | 0 <= i < |page.entries| && 0 <= after + i < |log| ::
         page.entries[i] == Theorems.Entry(after + 1 + i, log[after + i])
  }

  lemma PageIsStretch(db: Db, top: int, key: EdgeKey, after: nat, limit: nat)
    requires Valid(db, top)
    ensures Stretch(Theorems.ReadPage(db, key, after, limit), Theorems.Log(db, key), after, limit)
  {
    Theorems.PageIsSlice(db, top, key, after, limit);
    hide Valid, Numbered, Theorems.ReadPage, Theorems.Log;
  }

  /** The answer to an active edge is a stretch of its own log. */
  lemma QueryReads(db: Db, top: int, q: Theorems.EdgeQuery)
    requires Valid(db, top) && Theorems.ListEdgeDeliveries(db, q).Ok?
    ensures Stretch(Theorems.ListEdgeDeliveries(db, q).value, Theorems.Log(db, EdgeKey(q.edgeId, q.generation)),
              q.after, q.limit)
  {
    hide Valid, Numbered, Theorems.ReadPage, Theorems.Log, Blank, ValidText, Stretch;
    assert q.after >= 0 && q.limit > 0;
    PageIsStretch(db, top, EdgeKey(q.edgeId, q.generation), q.after, q.limit);
  }
}
