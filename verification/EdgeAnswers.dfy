/** What the edge makes of a delivery, told from its tables and the delivery alone. */
module EdgeAnswers {
  import opened Common
  import Authority
  import Text = AuthorityAnswers
  import opened AuthorityTheorems
  import opened EdgeStore
  import opened EdgeConsumer

  // ----- Validation -----

  predicate ReceiptFields(p: Projection) {
    |p.envelopeId| > 0 && Text.CommitmentText(p.commitment)
  }

  predicate BodyFields(key: EdgeKey, b: Body) {
    && b.binding.issuer == key && b.binding.token == EdgeToken(key) && Text.CommitmentText(b.binding.registryHash)
    && b.expiresAt != 0
    && (b.CaseBody? ==> |b.caseId| > 0 && b.route == OpaqueToken(b.domain))
    && (b.AdviceBody? ==> |b.adviceId| > 0 && Text.CommitmentText(b.caseCommitment))
  }

  /** The store takes a delivery exactly when it is numbered and not empty, and its
      projection belongs to this edge generation and is complete. */
  lemma DeliveryMeans(key: EdgeKey, d: EdgeStore.Delivery, j: Judgement)
    ensures DeliveryOk(key, d, j) <==>
      && d.sequence >= 1 && |d.raw| >= 1
      && (j.Accept? ==> ReceiptFields(j.p) && BodyFields(key, j.p.body))
      && (j.Reject? ==> |j.reason| <= 256 && (j.receipt.Some? ==> ReceiptFields(j.receipt.value)))
  {
    match j
    case Accept(p) =>
      Text.TextMeans(p.commitment);
      Text.TextMeans(p.body.binding.registryHash);
      if p.body.AdviceBody? {
        Text.TextMeans(p.body.caseCommitment);
      }
    case Reject(_, receipt) =>
      if receipt.Some? {
        Text.TextMeans(receipt.value.commitment);
      }
    hide Authority.ValidCommitment, Text.CommitmentText;
  }

  /** The projection tells of this entry. */
  predicate Names(p: Projection, e: LogEntry) {
    && p.envelopeId == e.envelopeId && p.commitment == e.commitment && p.body.caseId == e.caseId && e.revision >= 1
    && (p.body.CaseBody? <==> e.kind == Authority.CaseKind) && (p.body.AdviceBody? <==> e.kind == Authority.AdviceKind)
  }

  /** The projection belongs to the edge's own route. */
  predicate Routed(id: EdgeIdentity, p: Projection, subject: Subject) {
    && subject == EdgeSubject(id.tenant, id.key)
    && p.body.binding.issuer == id.key && p.body.binding.token == EdgeToken(id.key)
    && (p.body.CaseBody? ==> p.body.route == OpaqueToken(p.body.domain))
  }

  /** An entry is accepted exactly when the verifier accepts a projection that names it and
      belongs to this edge's route; otherwise it is rejected for the first of these reasons. */
  lemma JudgedExactly(id: EdgeIdentity, oracle: Oracle, e: LogEntry, subject: Subject)
    ensures var j := Judged(id, oracle, e, subject);
      match oracle(e)
      case Reject(reason, _) => j == Reject(reason, None)
      case Accept(p) =>
        j == if !Names(p, e) then Reject("authority_delivery_mismatch", None)
             else if !Routed(id, p, subject) then Reject("route_mismatch", Some(p)) else Accept(p)
  {
  }

  /** A carrier message is taken up exactly when it is of the stream and of this edge's
      subject, holds 1 to 65536 bytes and carries its headers as positive numbers. */
  lemma MetadataMeans(id: EdgeIdentity, m: Message)
    ensures MetadataOk(id, m) <==>
      && m.streamOk && m.outboxOk && m.subject == EdgeSubject(id.tenant, id.key) && 1 <= |m.raw| <= 65536
      && m.fact.Some? && m.sequence.Some? && m.generation.Some?
      && m.fact.value >= 1 && m.sequence.value >= 1 && m.generation.value >= 1
  {
  }

  /** A message of another generation halts, durably and in memory, and is acknowledged, if
      the store works; the high watermark stays, since the sequence is not this generation's. */
  lemma ForeignHandled(id: EdgeIdentity, oracle: Oracle, log: Log, e: Edge, m: Message, f: Fault)
    requires !e.halted && MetadataOk(id, m) && m.generation.value != id.key.generation
    ensures var h := HandleMessage(id, oracle, log, e, m, f); var s := ProgressOf(e.tables);
      var high := if s.high < 0 then 0 else s.high;
      var p := Progress(s.last, high, ReconciliationRequired, "delivery_identity_mismatch");
      var t := Tables(Some(p), e.tables.rows, e.tables.views);
      h == match f
           case StoreFailed => Handled(e, false)
           case CommitUnknown => Handled(Edge(t, false), false)
           case _ => Handled(Edge(t, true), true)
  {
  }

  /** A halted consumer and a message it does not take up leave everything as it is. */
  lemma NotTakenUp(id: EdgeIdentity, oracle: Oracle, log: Log, e: Edge, m: Message, f: Fault)
    requires e.halted || !MetadataOk(id, m)
    ensures HandleMessage(id, oracle, log, e, m, f) == Handled(e, false)
  {
  }

  /** Faults: a refusal or a failing store changes nothing and an unknown commit takes
      effect, and none of them acknowledges. */
  lemma FaultsAnswer(id: EdgeIdentity, oracle: Oracle, log: Log, e: Edge, d: EdgeStore.Delivery, f: Fault)
    ensures var h := HandleOwn(id, oracle, log, e, d, f); var clean := HandleOwn(id, oracle, log, e, d, NoFault);
      && (f.Refused? || f.StoreFailed? || !Exact(log, d) ==> h == Handled(e, false))
      && (f.CommitUnknown? ==> h == Handled(Edge(clean.edge.tables, e.halted), false))
  {
    hide Apply, Judged;
  }

  // ----- Recording -----

  /** Filing under a key that is free and an envelope that is free. */
  predicate FreeFor(entries: map<string, EdgeStore.Entry>, k: string, envelopeId: string) {
    k !in entries && forall o | o in entries :: entries[o].projection.envelopeId != envelopeId
  }

  predicate BindsFiledCase(v: Views, b: Body) {
    && b.AdviceBody? && b.caseId in v.cases && !v.cases[b.caseId].quarantined
    && var p := v.cases[b.caseId].projection; p.commitment == b.caseCommitment && p.body.binding == b.binding
  }

  /** The entry a key has once a projection is filed under it: the first one stays. */
  function Filed(entries: map<string, EdgeStore.Entry>, k: string, p: Projection): map<string, EdgeStore.Entry> {
    if k in entries then entries else entries[k := EdgeStore.Entry(p, false)]
  }

  /** A projection is filed once, under its own key: a case under its case, an advice under
      its identifier and only with the filed case it binds. */
  lemma PersistExactly(v: Views, p: Projection)
    ensures var r := Persist(v, p);
      && (p.body.CaseBody? ==>
            && (r.Some? <==> p.body.caseId in v.cases || FreeFor(v.cases, p.body.caseId, p.envelopeId))
            && (r.Some? ==> r.value == Views(v.identity, Filed(v.cases, p.body.caseId, p), v.advice)))
      && (p.body.AdviceBody? ==>
            && (r.Some? <==> BindsFiledCase(v, p.body) &&
                             (p.body.adviceId in v.advice || FreeFor(v.advice, p.body.adviceId, p.envelopeId)))
            && (r.Some? ==> r.value == Views(v.identity, v.cases, Filed(v.advice, p.body.adviceId, p))))
  {
  }

  /** A rejected entry is recorded as such; an accepted one claims its envelope and is filed,
      is a repeat of what the envelope has, or quarantines. */
  lemma RecordExactly(v: Views, sequence: int, j: Judgement)
    ensures var r := Record(v, sequence, j);
      match j
      case Reject(reason, _) => r == Some(Recorded(v, ApplyRejected, Rejected, reason))
      case Accept(p) =>
        if p.envelopeId !in v.identity then
          var identity := v.identity[p.envelopeId := Identity(p.commitment, sequence, false, None)];
          var claimed := Views(identity, v.cases, v.advice);
          && (r.Some? <==> Persist(claimed, p).Some?)
          && (r.Some? ==> r.value == Recorded(Persist(claimed, p).value, ApplyAccepted, Accepted, ""))
        else if v.identity[p.envelopeId].commitment == p.commitment then
          r == Some(Recorded(v, ApplyDuplicate, Accepted, ""))
        else
          && r.Some? && r.value.outcome == ApplyQuarantined && r.value.verdict == Quarantined
          && r.value.reason == "semantic_commitment_conflict"
  {
    hide Persist, QuarantineViews;
  }

  /** The first conflict of an envelope is the one that is remembered. */
  lemma ConflictRemembered(v: Views, sequence: int, p: Projection)
    requires p.envelopeId in v.identity && v.identity[p.envelopeId].commitment != p.commitment
    ensures var old' := v.identity[p.envelopeId]; var w := Record(v, sequence, Accept(p)).value.views.identity;
      && w.Keys == v.identity.Keys
      && w[p.envelopeId] == Identity(old'.commitment, old'.first, true,
           if old'.conflict.Some? then old'.conflict else Some((p.commitment, sequence)))
      && forall k | k in v.identity && k != p.envelopeId :: w[k] == v.identity[k]
  {
  }

  /** The delivery is the row that is stored under its sequence. */
  predicate Stored(t: Tables, d: EdgeStore.Delivery) {
    && d.sequence in t.rows
    && t.rows[d.sequence].digest == Sha256(d.raw) && t.rows[d.sequence].subject == d.subject
  }

  /** It is the next one, and the store is not waiting for reconciliation. */
  predicate IsNext(t: Tables, d: EdgeStore.Delivery, reconciling: bool) {
    d.sequence == ProgressOf(t).last + 1 && (ProgressOf(t).mode == Active || reconciling)
  }

  /** The same tables with this delivery state, and the high watermark at least at the delivery. */
  function Moved(t: Tables, d: EdgeStore.Delivery, last: int, mode: Mode, reason: string): Tables {
    var high := ProgressOf(t).high;
    Tables(Some(Progress(last, if d.sequence > high then d.sequence else high, mode, reason)), t.rows, t.views)
  }

  function Stopped(t: Tables, d: EdgeStore.Delivery, reason: string): Tables {
    Moved(t, d, ProgressOf(t).last, ReconciliationRequired, reason)
  }

  /** An application fails exactly on a malformed delivery and on one that cannot be
      recorded, and then changes nothing. */
  lemma ApplyFails(t: Tables, key: EdgeKey, d: EdgeStore.Delivery, j: Judgement, reconciling: bool)
    ensures var a := Apply(t, key, d, j, reconciling);
      && (a.outcome.None? ==> a.tables == t)
      && (a.outcome.None? <==>
            || !DeliveryOk(key, d, j)
            || (IsNext(t, d, reconciling) && d.sequence !in t.rows && Record(t.views, d.sequence, j).None?))
  {
    hide DeliveryOk, Record;
  }

  /** A stored delivery is a duplicate, which only reconciliation counts when it is the next
      one; a different or missing row and a gap stop the edge, each with its own reason. */
  lemma RepeatAndGapExactly(t: Tables, key: EdgeKey, d: EdgeStore.Delivery, j: Judgement, reconciling: bool)
    requires DeliveryOk(key, d, j)
    ensures var a := Apply(t, key, d, j, reconciling); var s := ProgressOf(t);
      if d.sequence > s.last && !IsNext(t, d, reconciling) then
        a == Applied(Stopped(t, d, "delivery_sequence_gap"), Some(ApplyReconciliationRequired))
      else if Stored(t, d) then
        a == Applied(if IsNext(t, d, reconciling) && reconciling then Moved(t, d, d.sequence, s.mode, s.reason) else t,
                     Some(ApplyDuplicate))
      else if d.sequence in t.rows then
        a == Applied(Stopped(t, d, "delivery_identity_conflict"), Some(ApplyIdentityConflict))
      else
        d.sequence <= s.last ==>
          a == Applied(Stopped(t, d, "missing_committed_delivery"), Some(ApplyReconciliationRequired))
  {
    hide DeliveryOk, Record;
  }

  /** The next delivery gets its row, with the verdict recorded for it, and moves the counter. */
  lemma NextIsRecorded(t: Tables, key: EdgeKey, d: EdgeStore.Delivery, j: Judgement, reconciling: bool)
    requires DeliveryOk(key, d, j) && IsNext(t, d, reconciling) && d.sequence !in t.rows
    requires Record(t.views, d.sequence, j).Some?
    ensures var r := Record(t.views, d.sequence, j).value; var s := ProgressOf(t);
      var receipt := match j case Accept(p) => Some(p) case Reject(_, receipt) => receipt;
      var row := Row(d.subject, Sha256(d.raw), receipt, r.verdict, r.reason);
      Apply(t, key, d, j, reconciling) ==
        Applied(Tables(Moved(t, d, d.sequence, s.mode, s.reason).progress, t.rows[d.sequence := row], r.views),
                Some(r.outcome))
  {
    hide DeliveryOk, Record;
  }

  // ----- Pages -----

  /** An entry is taken exactly with its identifiers, a positive revision and 1 to 65536 bytes. */
  lemma EntryMeans(e: LogEntry)
    ensures EntryOk(e) <==>
      |e.caseId| >= 1 && |e.envelopeId| >= 1 && |e.commitment| >= 1 && e.revision >= 1 && 1 <= |e.raw| <= 65536
  {
  }

  /** A pass is refused, with nothing changed, when the page ends before the cursor or the
      high watermark, claims to complete more than there is, or is not the numbered stretch
      after the cursor that it claims to be. */
  lemma PassRefuses(id: EdgeIdentity, oracle: Oracle, log: Log, t: Tables, page: Page, limit: int,
      faults: nat -> Fault, i: nat)
    requires var s := ProgressOf(t);
      || page.highWatermark < s.high || page.highWatermark < s.last || page.completeThrough < s.last
      || page.completeThrough > page.highWatermark || |page.entries| > limit
      || |page.entries| != page.completeThrough - s.last
      || (i < |page.entries| && (page.entries[i].sequence != s.last + 1 + i || !EntryOk(page.entries[i].delivery)))
    ensures ReconcilePass(id, oracle, log, t, page, limit, faults) == Pass(t, None)
  {
    hide EntryOk, ApplyAll;
  }
}
