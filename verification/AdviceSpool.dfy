/** The dispatcher's spool of signed advice, internal/sspedge/edge_advice_spool.go: at most
    one exact wire per case, and one transition when the authority has accepted it. */
module AdviceSpool {
  import opened Common
  import Authority
  import Text = AuthorityAnswers

  datatype Pending = Pending(adviceId: string, caseId: string, caseCommitment: string, commitment: string, raw: Bytes,
      createdAt: int)

  /** accepted is the authority and the revision under which it accepted the wire. */
  datatype Spooled = Spooled(pending: Pending, accepted: Option<(string, int)>)

  type Spool = map<string, Spooled>

  predicate PendingOk(p: Pending) {
    && Authority.ValidText(p.adviceId) && Authority.ValidText(p.caseId)
    && Authority.ValidCommitment(p.caseCommitment) && Authority.ValidCommitment(p.commitment)
    && 0 < |p.raw| <= MAX_ENVELOPE_BYTES && p.createdAt != Authority.ZERO_TIME
  }

  /** The unique index on advice identifiers. */
  predicate AdviceTaken(s: Spool, adviceId: string) {
    exists c | c in s :: s[c].pending.adviceId == adviceId
  }

  /** The spool after a save, or None when the wire conflicts with what is stored. */
  function Save(s: Spool, p: Pending): Option<Spool> {
    if !PendingOk(p) then None
    else if p.caseId in s then if s[p.caseId].pending == p then Some(s) else None
    else if AdviceTaken(s, p.adviceId) then None
    else Some(s[p.caseId := Spooled(p, None)])
  }

  datatype Acceptance = Acceptance(adviceId: string, caseId: string, commitment: string, authority: string,
      receipt: Authority.Receipt)

  predicate AcceptanceOk(a: Acceptance) {
    && Authority.ValidText(a.adviceId) && Authority.ValidText(a.caseId) && Authority.ValidCommitment(a.commitment)
    && Authority.ValidText(a.authority) && a.receipt.revision > 0
    && a.receipt.envelopeId == a.adviceId && a.receipt.commitment == a.commitment
  }

  function Mark(s: Spool, a: Acceptance): Option<Spool> {
    if !AcceptanceOk(a) || a.caseId !in s then None
    else
      var row := s[a.caseId];
      if row.pending.adviceId != a.adviceId || row.pending.commitment != a.commitment then None
      else if row.accepted.Some? then if row.accepted.value == (a.authority, a.receipt.revision) then Some(s) else None
      else Some(s[a.caseId := row.(accepted := Some((a.authority, a.receipt.revision)))])
  }

  /** later keeps every wire and every acceptance of s. */
  ghost predicate Keeps(s: Spool, later: Spool) {
    forall c | c in s :: c in later && later[c].pending == s[c].pending
      && (s[c].accepted.Some? ==> later[c].accepted == s[c].accepted)
  }

  lemma SaveKeeps(s: Spool, p: Pending)
    requires Save(s, p).Some?
    ensures Keeps(s, Save(s, p).value) && p.caseId in Save(s, p).value && Save(s, p).value[p.caseId].pending == p
  {
  }

  lemma MarkKeeps(s: Spool, a: Acceptance)
    requires Mark(s, a).Some?
    ensures var later := Mark(s, a).value;
      && Keeps(s, later) && later.Keys == s.Keys && a.caseId in s
      && later[a.caseId].accepted == Some((a.authority, a.receipt.revision))
      && forall c | c in s && c != a.caseId :: later[c] == s[c]
  {
  }

  // ----- What is answered, told from the rows alone -----

  predicate Complete(p: Pending) {
    && !Text.Blank(p.adviceId) && !Text.Blank(p.caseId)
    && Text.CommitmentText(p.caseCommitment) && Text.CommitmentText(p.commitment)
    && 1 <= |p.raw| <= 65536 && p.createdAt != 0
  }

  /** A complete wire is saved exactly when its case has none and no case has its
      identifier, or when it is the very wire its case has. */
  lemma SaveAnswers(s: Spool, p: Pending)
    ensures Save(s, p).Some? <==>
      && Complete(p)
      && if p.caseId in s then s[p.caseId].pending == p else forall c | c in s :: s[c].pending.adviceId != p.adviceId
    ensures Save(s, p).Some? ==>
      Save(s, p).value == if p.caseId in s then s else s[p.caseId := Spooled(p, None)]
  {
    Text.TextMeans(p.adviceId);
    Text.TextMeans(p.caseId);
    Text.TextMeans(p.caseCommitment);
    Text.TextMeans(p.commitment);
    hide Authority.ValidText, Authority.ValidCommitment, Text.Blank, Text.CommitmentText;
  }

  /** The receipt names the wire, and the wire is the one its case has. */
  predicate Fits(s: Spool, a: Acceptance) {
    && a.caseId in s && s[a.caseId].pending.adviceId == a.adviceId == a.receipt.envelopeId
    && s[a.caseId].pending.commitment == a.commitment == a.receipt.commitment
    && !Text.Blank(a.adviceId) && !Text.Blank(a.caseId) && Text.CommitmentText(a.commitment)
    && !Text.Blank(a.authority) && a.receipt.revision >= 1
  }

  /** An acceptance is recorded exactly when it fits and the case has none, or the same. */
  lemma MarkAnswers(s: Spool, a: Acceptance)
    ensures Mark(s, a).Some? <==>
      && Fits(s, a)
      && (s[a.caseId].accepted == None || s[a.caseId].accepted == Some((a.authority, a.receipt.revision)))
    ensures Mark(s, a).Some? ==>
      Mark(s, a).value == s[a.caseId := Spooled(s[a.caseId].pending, Some((a.authority, a.receipt.revision)))]
  {
    Text.TextMeans(a.adviceId);
    Text.TextMeans(a.caseId);
    Text.TextMeans(a.commitment);
    Text.TextMeans(a.authority);
    hide Authority.ValidText, Authority.ValidCommitment, Text.Blank, Text.CommitmentText;
  }

  class Store {
    var rows: Spool

    constructor ()
      ensures rows == map[]
    {
      rows := map[];
    }

    method SavePendingAdvice(p: Pending) returns (ok: bool)
      modifies this
      ensures ok == Save(old(rows), p).Some?
      ensures rows == if ok then Save(old(rows), p).value else old(rows)
    {
      hide PendingOk;
      if !PendingOk(p) {
        return false;
      }
      if p.caseId in rows {
        return rows[p.caseId].pending == p;
      }
      if AdviceTaken(rows, p.adviceId) {
        return false;
      }
      rows := rows[p.caseId := Spooled(p, None)];
      ok := true;
    }

    method MarkAdviceAcceptedRemote(a: Acceptance) returns (ok: bool)
      modifies this
      ensures ok == Mark(old(rows), a).Some?
      ensures rows == if ok then Mark(old(rows), a).value else old(rows)
    {
      hide AcceptanceOk;
      if !AcceptanceOk(a) || a.caseId !in rows {
        return false;
      }
      var row := rows[a.caseId];
      if row.pending.adviceId != a.adviceId || row.pending.commitment != a.commitment {
        return false;
      }
      if row.accepted.Some? {
        return row.accepted.value == (a.authority, a.receipt.revision);
      }
      rows := rows[a.caseId := row.(accepted := Some((a.authority, a.receipt.revision)))];
      ok := true;
    }
  }
}
