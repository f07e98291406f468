/** The edge's projection store, internal/sspedge/store.go: one generation's delivery
    state and delivery rows, and the identity, case and advice tables they feed.
    Carrier coordinates and timestamps are not part of the model. */
module EdgeStore {
  import opened Common
  import Authority

  type EdgeKey = Authority.EdgeKey

  // ----- Tables -----

  /** Routing tokens and subjects are digests of what they name. */
  datatype Token = OpaqueToken(text: string) | EdgeToken(key: EdgeKey)
  datatype Subject = EdgeSubject(tenant: string, key: EdgeKey) | OtherSubject(text: string)

  /** What an advice must share with its case; token is the case's source token and the advice's route token. */
  datatype Binding = Binding(issuer: EdgeKey, token: Token, routingEpoch: int, registryRevision: int,
      registryHash: string)

  datatype Body =
    | CaseBody(caseId: string, binding: Binding, domain: string, route: Token, payload: Bytes, expiresAt: int)
    | AdviceBody(adviceId: string, caseId: string, caseCommitment: string, binding: Binding, text: Bytes,
        expiresAt: int)

  datatype Projection = Projection(envelopeId: string, commitment: string, body: Body)

  datatype Verdict = Accepted | Rejected | Quarantined
  datatype Row = Row(subject: Subject, digest: Digest, envelope: Option<Projection>, verdict: Verdict, reason: string)

  /** conflict is the first conflicting commitment and the delivery that brought it. */
  datatype Identity = Identity(commitment: string, first: int, quarantined: bool, conflict: Option<(string, int)>)
  datatype Entry = Entry(projection: Projection, quarantined: bool)
  datatype Views = Views(identity: map<string, Identity>, cases: map<string, Entry>, advice: map<string, Entry>)

  datatype Mode = Active | ReconciliationRequired
  datatype Progress = Progress(last: int, high: int, mode: Mode, reason: string)
  datatype Tables = Tables(progress: Option<Progress>, rows: map<int, Row>, views: Views)

  const NEW_PROGRESS := Progress(0, 0, Active, "")

  function ProgressOf(t: Tables): Progress {
    if t.progress.Some? then t.progress.value else NEW_PROGRESS
  }

  // ----- Deliveries and verdicts -----

  datatype Delivery = Delivery(sequence: int, subject: Subject, raw: Bytes)

  /** The verdict of the verifier and the route check on one delivery. */
  datatype Judgement = Accept(p: Projection) | Reject(reason: string, receipt: Option<Projection>)

  datatype Outcome = ApplyAccepted | ApplyRejected | ApplyQuarantined | ApplyDuplicate | ApplyReconciliationRequired
      | ApplyIdentityConflict

  predicate BodyOk(key: EdgeKey, b: Body) {
    && b.binding.issuer == key && b.binding.token == EdgeToken(key) && Authority.ValidCommitment(b.binding.registryHash)
    && b.expiresAt != Authority.ZERO_TIME
    && match b
       case CaseBody(caseId, _, domain, route, _, _) => caseId != "" && route == OpaqueToken(domain)
       case AdviceBody(adviceId, _, caseCommitment, _, _, _) =>
         adviceId != "" && Authority.ValidCommitment(caseCommitment)
  }

  predicate ReceiptOk(p: Projection) {
    p.envelopeId != "" && Authority.ValidCommitment(p.commitment)
  }

  /** validateDelivery. */
  predicate DeliveryOk(key: EdgeKey, d: Delivery, j: Judgement) {
    && d.sequence > 0 && d.raw != []
    && match j
       case Accept(p) => ReceiptOk(p) && BodyOk(key, p.body)
       case Reject(reason, receipt) => |reason| <= 256 && (receipt.Some? ==> ReceiptOk(receipt.value))
  }

  // ----- Projecting one accepted envelope -----

  function QuarantineIn(entries: map<string, Entry>, envelopeId: string): map<string, Entry> {
    map k | k in entries ::
      if entries[k].projection.envelopeId == envelopeId then entries[k].(quarantined := true) else entries[k]
  }

  /** A second commitment for a known envelope quarantines everything filed under it. */
  function QuarantineViews(v: Views, p: Projection, sequence: int): Views
    requires p.envelopeId in v.identity
  {
    var known := v.identity[p.envelopeId];
    var conflict := if known.conflict.Some? then known.conflict else Some((p.commitment, sequence));
    Views(v.identity[p.envelopeId := known.(quarantined := true, conflict := conflict)],
          QuarantineIn(v.cases, p.envelopeId), QuarantineIn(v.advice, p.envelopeId))
  }

  /** The unique index of a projection table on the envelope identifier. */
  predicate Filed(entries: map<string, Entry>, envelopeId: string) {
    exists k | k in entries :: entries[k].projection.envelopeId == envelopeId
  }

  function FileEntry(entries: map<string, Entry>, k: string, p: Projection): Option<map<string, Entry>> {
    if k in entries then Some(entries)
    else if Filed(entries, p.envelopeId) then None
    else Some(entries[k := Entry(p, false)])
  }

  /** An advice is filed only under an accepted case that it binds exactly. */
  predicate BindsAcceptedCase(v: Views, b: Body)
    requires b.AdviceBody?
  {
    && b.caseId in v.cases && !v.cases[b.caseId].quarantined
    && v.cases[b.caseId].projection.commitment == b.caseCommitment
    && v.cases[b.caseId].projection.body.binding == b.binding
  }

  /** persistProjection; None is an error, which rolls the transaction back. */
  function Persist(v: Views, p: Projection): Option<Views> {
    match p.body
    case CaseBody(caseId, _, _, _, _, _) =>
      var cases := FileEntry(v.cases, caseId, p);
      if cases.None? then None else Some(v.(cases := cases.value))
    case AdviceBody(adviceId, _, _, _, _, _) =>
      if !BindsAcceptedCase(v, p.body) then None
      else
        var advice := FileEntry(v.advice, adviceId, p);
        if advice.None? then None else Some(v.(advice := advice.value))
  }

  /** What recording one delivery at its place in the log does to the tables. */
  datatype Recorded = Recorded(views: Views, outcome: Outcome, verdict: Verdict, reason: string)

  function Record(v: Views, sequence: int, j: Judgement): Option<Recorded> {
    match j
    case Reject(reason, _) => Some(Recorded(v, ApplyRejected, Rejected, reason))
    case Accept(p) =>
      if p.envelopeId !in v.identity then
        var claimed := v.identity[p.envelopeId := Identity(p.commitment, sequence, false, None)];
        var filed := Persist(v.(identity := claimed), p);
        if filed.None? then None else Some(Recorded(filed.value, ApplyAccepted, Accepted, ""))
      else if v.identity[p.envelopeId].commitment == p.commitment then Some(Recorded(v, ApplyDuplicate, Accepted, ""))
      else Some(Recorded(QuarantineViews(v, p, sequence), ApplyQuarantined, Quarantined,
        "semantic_commitment_conflict"))
  }

  function RowOf(d: Delivery, j: Judgement, r: Recorded): Row {
    Row(d.subject, Sha256(d.raw), match j case Accept(p) => Some(p) case Reject(_, receipt) => receipt, r.verdict,
      r.reason)
  }

  // ----- The operations -----

  /** requireReconciliationTx. */
  function Halted(t: Tables, observed: int, reason: string): Tables {
    var s := ProgressOf(t);
    var high := if observed > s.high then observed else s.high;
    t.(progress := Some(Progress(s.last, high, ReconciliationRequired, reason)))
  }

  /** advanceDeliveryStateTx. */
  function Advanced(t: Tables, sequence: int): Tables {
    var s := ProgressOf(t);
    t.(progress := Some(s.(last := sequence, high := if sequence > s.high then sequence else s.high)))
  }

  datatype Applied = Applied(tables: Tables, outcome: Option<Outcome>)

  predicate SameRow(r: Row, d: Delivery) {
    r.digest == Sha256(d.raw) && r.subject == d.subject
  }

  /** A delivery at or below the contiguous counter is compared with its row. */
  function Repeated(t: Tables, d: Delivery): Applied {
    if d.sequence !in t.rows then Applied(Halted(t, d.sequence, "missing_committed_delivery"),
      Some(ApplyReconciliationRequired))
    else if !SameRow(t.rows[d.sequence], d) then Applied(Halted(t, d.sequence, "delivery_identity_conflict"),
      Some(ApplyIdentityConflict))
    else Applied(t, Some(ApplyDuplicate))
  }

  function RecordNext(t: Tables, d: Delivery, j: Judgement): Applied {
    var r := Record(t.views, d.sequence, j);
    if r.None? then Applied(t, None)
    else
      var row := RowOf(d, j, r.value);
      Applied(Advanced(t.(rows := t.rows[d.sequence := row], views := r.value.views), d.sequence),
        Some(r.value.outcome))
  }

  /** applyVerified; no outcome is an error, which leaves the tables as they were. */
  function Apply(t: Tables, key: EdgeKey, d: Delivery, j: Judgement, reconciling: bool): Applied {
    var s := ProgressOf(t);
    if !DeliveryOk(key, d, j) then Applied(t, None)
    else if d.sequence <= s.last then Repeated(t, d)
    else if d.sequence != s.last + 1 || (s.mode == ReconciliationRequired && !reconciling) then
      Applied(Halted(t, d.sequence, "delivery_sequence_gap"), Some(ApplyReconciliationRequired))
    else if d.sequence in t.rows then
      if !SameRow(t.rows[d.sequence], d) then Applied(Halted(t, d.sequence, "delivery_identity_conflict"),
        Some(ApplyIdentityConflict))
      else Applied(if reconciling then Advanced(t, d.sequence) else t, Some(ApplyDuplicate))
    else RecordNext(t, d, j)
  }

  /** The guard of CompleteReconciliation's update. */
  predicate Completes(t: Tables, through: int, high: int) {
    through == high >= 0 && t.progress.Some? && t.progress.value.mode == ReconciliationRequired
    && t.progress.value.last == through && t.progress.value.high == high
  }

  function Completed(t: Tables): Tables
    requires t.progress.Some?
  {
    t.(progress := Some(t.progress.value.(mode := Active, reason := "")))
  }

  /** The store as the source keeps it: tables changed in place, one transaction at a time. */
  class Db {
    const key: EdgeKey
    var progress: Option<Progress>
    var rows: map<int, Row>
    var identity: map<string, Identity>
    var cases: map<string, Entry>
    var advice: map<string, Entry>

    constructor (key: EdgeKey, t: Tables)
      ensures this.key == key && Contents() == t
    {
      this.key := key;
      progress, rows, identity, cases, advice := t.progress, t.rows, t.views.identity, t.views.cases, t.views.advice;
    }

    function Contents(): Tables
      reads this
    {
      Tables(progress, rows, Views(identity, cases, advice))
    }

    method RequireReconciliation(observed: int, reason: string)
      modifies this`progress
      ensures Contents() == Halted(old(Contents()), observed, reason)
    {
      var s := if progress.Some? then progress.value else NEW_PROGRESS;
      var high := s.high;
      if observed > high {
        high := observed;
      }
      progress := Some(Progress(s.last, high, ReconciliationRequired, reason));
    }

    method AdvanceDeliveryState(sequence: int)
      modifies this`progress
      ensures Contents() == Advanced(old(Contents()), sequence)
    {
      if progress.None? {
        progress := Some(Progress(sequence, if sequence > 0 then sequence else 0, Active, ""));
      } else {
        var s := progress.value;
        progress := Some(s.(last := sequence, high := if sequence > s.high then sequence else s.high));
      }
    }

    method CompleteReconciliation(through: int, high: int) returns (completed: bool)
      modifies this`progress
      ensures completed == Completes(old(Contents()), through, high)
      ensures Contents() == if completed then Completed(old(Contents())) else old(Contents())
    {
      if through < 0 || through != high || progress.None? {
        return false;
      }
      var s := progress.value;
      completed := s.mode == ReconciliationRequired && s.last == through && s.high == high;
      if completed {
        progress := Some(s.(mode := Active, reason := ""));
      }
    }

    /** Takes a free envelope identifier, recognises a repeat, or quarantines a conflict. */
    method ClaimIdentity(p: Projection, sequence: int) returns (outcome: Outcome)
      modifies this
      ensures progress == old(progress) && rows == old(rows)
      ensures p.envelopeId !in old(identity) ==>
        outcome == ApplyAccepted && cases == old(cases) && advice == old(advice) &&
        identity == old(identity)[p.envelopeId := Identity(p.commitment, sequence, false, None)]
      ensures p.envelopeId in old(identity) && old(identity)[p.envelopeId].commitment == p.commitment ==>
        outcome == ApplyDuplicate && Contents() == old(Contents())
      ensures p.envelopeId in old(identity) && old(identity)[p.envelopeId].commitment != p.commitment ==>
        outcome == ApplyQuarantined && Contents().views == QuarantineViews(old(Contents()).views, p, sequence)
    {
      if p.envelopeId !in identity {
        identity := identity[p.envelopeId := Identity(p.commitment, sequence, false, None)];
        return ApplyAccepted;
      }
      var known := identity[p.envelopeId];
      if known.commitment == p.commitment {
        return ApplyDuplicate;
      }
      var conflict := if known.conflict.Some? then known.conflict else Some((p.commitment, sequence));
      identity := identity[p.envelopeId := known.(quarantined := true, conflict := conflict)];
      cases := QuarantineIn(cases, p.envelopeId);
      advice := QuarantineIn(advice, p.envelopeId);
      outcome := ApplyQuarantined;
    }

    method PersistProjection(p: Projection) returns (ok: bool)
      modifies this
      ensures progress == old(progress) && rows == old(rows)
      ensures ok == Persist(old(Contents()).views, p).Some?
      ensures ok ==> Contents().views == Persist(old(Contents()).views, p).value
    {
      match p.body
      case CaseBody(caseId, _, _, _, _, _) =>
        if caseId in cases {
          return true;
        }
        if Filed(cases, p.envelopeId) {
          return false;
        }
        cases := cases[caseId := Entry(p, false)];
        ok := true;
      case AdviceBody(adviceId, caseId, caseCommitment, binding, _, _) =>
        if caseId !in cases || cases[caseId].quarantined {
          return false;
        }
        var c := cases[caseId].projection;
        if c.commitment != caseCommitment || c.body.binding != binding {
          return false;
        }
        if adviceId in advice {
          return true;
        }
        if Filed(advice, p.envelopeId) {
          return false;
        }
        advice := advice[adviceId := Entry(p, false)];
        ok := true;
    }

    method Rollback(t: Tables)
      modifies this
      ensures Contents() == t
    {
      progress, rows, identity, cases, advice := t.progress, t.rows, t.views.identity, t.views.cases, t.views.advice;
    }

    method ApplyVerified(d: Delivery, j: Judgement, reconciling: bool) returns (outcome: Option<Outcome>)
      modifies this
      ensures Applied(Contents(), outcome) == Apply(old(Contents()), key, d, j, reconciling)
    {
      hide DeliveryOk, Persist, QuarantineViews;
      if !DeliveryOk(key, d, j) {
        return None;
      }
      var s := if progress.Some? then progress.value else NEW_PROGRESS;
      if d.sequence <= s.last {
        if d.sequence !in rows {
          RequireReconciliation(d.sequence, "missing_committed_delivery");
          return Some(ApplyReconciliationRequired);
        }
        if !SameRow(rows[d.sequence], d) {
          RequireReconciliation(d.sequence, "delivery_identity_conflict");
          return Some(ApplyIdentityConflict);
        }
        return Some(ApplyDuplicate);
      }
      if d.sequence != s.last + 1 || (s.mode == ReconciliationRequired && !reconciling) {
        RequireReconciliation(d.sequence, "delivery_sequence_gap");
        return Some(ApplyReconciliationRequired);
      }
      if d.sequence in rows {
        if !SameRow(rows[d.sequence], d) {
          RequireReconciliation(d.sequence, "delivery_identity_conflict");
          return Some(ApplyIdentityConflict);
        }
        if reconciling {
          AdvanceDeliveryState(d.sequence);
        }
        return Some(ApplyDuplicate);
      }
      outcome := RecordDelivery(d, j);
    }

    method RecordDelivery(d: Delivery, j: Judgement) returns (outcome: Option<Outcome>)
      modifies this
      ensures Applied(Contents(), outcome) == RecordNext(old(Contents()), d, j)
    {
      hide Persist, QuarantineViews;
      var verdict, reason := Rejected, if j.Reject? then j.reason else "";
      var result := ApplyRejected;
      if j.Accept? {
        var before := Contents();
        verdict := Accepted;
        result := ClaimIdentity(j.p, d.sequence);
        if result == ApplyQuarantined {
          verdict, reason := Quarantined, "semantic_commitment_conflict";
        } else if result == ApplyAccepted {
          var ok := PersistProjection(j.p);
          if !ok {
            Rollback(before);
            return None;
          }
        }
      }
      rows := rows[d.sequence :=
        Row(d.subject, Sha256(d.raw), match j case Accept(p) => Some(p) case Reject(_, receipt) => receipt, verdict,
          reason)];
      AdvanceDeliveryState(d.sequence);
      outcome := Some(result);
    }
  }
}
