/** Recovery against a fixed authority log: how it ends, in how many passes, and why a
    log the authority itself wrote never stops it. */
module EdgeRecovery {
  import opened Common
  import Authority
  import AuthorityInvariant
  import opened AuthorityTheorems
  import opened EdgeStore
  import opened EdgeConsumer
  import opened EdgeSystem

  // ----- One fault-free pass -----

  function Larger(a: int, b: int): int {
    if a > b then a else b
  }

  /** The log folds as far as n, and no entry from m on is quarantined. */
  ghost predicate Clean(c: Setup, log: Log, m: nat, n: nat)
    requires m <= n <= |log|
  {
    Fold(c, log[..n]).Some? && forall i | m <= i < n :: Fold(c, log[..n]).value.rows[i].verdict != Quarantined
  }

  lemma {:induction false} FoldPrefix(c: Setup, log: Log, m: nat, n: nat)
    requires m <= n <= |log| && Fold(c, log[..n]).Some?
    ensures Fold(c, log[..m]).Some? && Fold(c, log[..m]).value.rows == Fold(c, log[..n]).value.rows[..m]
    decreases n - m
  {
    hide Fold;
    if m < n {
      FoldLast(c, log, n);
      FoldPrefix(c, log, m, n - 1);
      var long := Fold(c, log[..n]).value.rows;
      assert long[..n - 1][..m] == long[..m];
    } else {
      assert Fold(c, log[..n]).value.rows == Fold(c, log[..n]).value.rows[..n];
    }
  }

  lemma FoldLast(c: Setup, log: Log, n: nat)
    requires 0 < n <= |log| && Fold(c, log[..n]).Some?
    ensures Fold(c, log[..n - 1]).Some? && Fold(c, log[..n - 1]).value.rows == Fold(c, log[..n]).value.rows[..n - 1]
  {
    assert log[..n][..n - 1] == log[..n - 1];
  }

  lemma CleanSplit(c: Setup, log: Log, l: nat, m: nat, n: nat)
    requires l <= m <= n <= |log|
    ensures Clean(c, log, l, n) <==> Clean(c, log, l, m) && Clean(c, log, m, n)
  {
    hide Fold;
    if Fold(c, log[..n]).Some? {
      FoldPrefix(c, log, m, n);
      var short, long := Fold(c, log[..m]).value.rows, Fold(c, log[..n]).value.rows;
      assert forall i | 0 <= i < m :: short[i] == long[i];
    }
  }

  predicate Quarantines(v: Views, sequence: int, j: Judgement) {
    var r := Record(v, sequence, j); r.Some? && r.value.outcome == ApplyQuarantined
  }

  /** The verdict recorded in the last row of a fold tells whether its step quarantined. */
  lemma LastVerdict(c: Setup, log: Log, n: nat)
    requires n < |log| && Fold(c, log[..n]).Some? && Fold(c, log[..n + 1]).Some?
    ensures Fold(c, log[..n + 1]).value.rows[n].verdict == Quarantined <==>
      Quarantines(Fold(c, log[..n]).value.views, n + 1, VerdictOn(c, log[n]))
  {
    FoldExtends(c, log, n);
  }

  lemma CleanOne(c: Setup, log: Log, n: nat)
    requires n < |log| && Fold(c, log[..n]).Some?
    ensures Clean(c, log, n, n + 1) <==>
      Fold(c, log[..n + 1]).Some? && !Quarantines(Fold(c, log[..n]).value.views, n + 1, VerdictOn(c, log[n]))
  {
    FoldExtends(c, log, n);
    hide Fold, Record;
    if Fold(c, log[..n + 1]).Some? {
      LastVerdict(c, log, n);
    }
  }

  /** While reconciling, applying the next entry succeeds exactly when it is clean. */
  lemma ApplyNext(c: Setup, log: Log, t: Tables)
    requires Follows(c, log, t) && ProgressOf(t).last < |log|
    ensures var n := ProgressOf(t).last;
      var a := Apply(t, c.id.key, Wire(c, n + 1, log[n]), VerdictOn(c, log[n]), true);
      && Follows(c, log, a.tables)
      && (a.outcome.Some? && !Halts(a.outcome.value) <==> Clean(c, log, n, n + 1))
      && (a.outcome.Some? && !Halts(a.outcome.value) ==>
            ProgressOf(a.tables) == ProgressOf(t).(last := n + 1, high := Larger(n + 1, ProgressOf(t).high)))
  {
    var n := ProgressOf(t).last;
    var d, j := Wire(c, n + 1, log[n]), VerdictOn(c, log[n]);
    NoRowAhead(c, log, t);
    FoldExtends(c, log, n);
    hide Fold, VerdictOn, DeliveryOk, Record, RowsAre, Clean, RowOf;
    RecordFollows(c, log, t);
    CleanOne(c, log, n);
    if Record(t.views, n + 1, j).Some? {
      RecordOutcome(t.views, n + 1, j);
    }
  }

  function NoFaults(): nat -> Fault {
    _ => NoFault
  }

  /** The batch holds the log's entries from m on. */
  ghost predicate BatchIs(c: Setup, log: Log, m: nat, batch: seq<EdgeStore.Delivery>) {
    m + |batch| <= |log| && forall i | 0 <= i < |batch| :: batch[i] == Wire(c, m + i + 1, log[m + i])
  }

  lemma ApplyDeliveryNext(c: Setup, log: Log, t: Tables)
    requires Follows(c, log, t) && ProgressOf(t).last < |log|
    ensures var n := ProgressOf(t).last; var d := Wire(c, n + 1, log[n]);
      ApplyDelivery(c.id, c.oracle, log, t, d, true, NoFault) == Apply(t, c.id.key, d, VerdictOn(c, log[n]), true)
  {
    hide Apply, Judged, Fold, RowsAre;
  }

  /** A fault-free batch goes through exactly when its stretch of the log is clean. */
  lemma {:induction false} ApplyAllClean(c: Setup, log: Log, t: Tables, m: nat, batch: seq<EdgeStore.Delivery>, i: nat)
    requires Follows(c, log, t) && BatchIs(c, log, m, batch) && i <= |batch| && ProgressOf(t).last == m + i
    ensures var a := ApplyAll(c.id, c.oracle, log, t, batch, NoFaults(), i); var s := ProgressOf(t);
      && Follows(c, log, a.tables)
      && (a.ok <==> Clean(c, log, m + i, m + |batch|))
      && (a.ok ==> ProgressOf(a.tables) == s.(last := m + |batch|, high := Larger(m + |batch|, s.high)))
    decreases |batch| - i
  {
    hide Apply, ApplyDelivery, Clean, Fold, RowsAre;
    if i == |batch| {
      CleanNothing(c, log, t, m + i);
    } else {
      ApplyNext(c, log, t);
      ApplyDeliveryNext(c, log, t);
      CleanSplit(c, log, m + i, m + i + 1, m + |batch|);
      var a := ApplyDelivery(c.id, c.oracle, log, t, batch[i], true, NoFault);
      if a.outcome.Some? && !Halts(a.outcome.value) {
        ApplyAllClean(c, log, a.tables, m, batch, i + 1);
      }
      hide Follows;
    }
  }

  lemma CleanNothing(c: Setup, log: Log, t: Tables, n: nat)
    requires Follows(c, log, t) && ProgressOf(t).last == n
    ensures Clean(c, log, n, n)
  {
  }

  ghost predicate LogOk(log: Log) {
    forall i | 0 <= i < |log| :: EntryOk(log[i])
  }

  function PageEnd(log: Log, after: nat, limit: nat): nat
    requires after <= |log|
  {
    if |log| - after < limit then |log| else after + limit
  }

  /** Every page of an authority log passes the edge's checks. */
  lemma PagePasses(c: Setup, log: Log, t: Tables, limit: nat)
    requires Follows(c, log, t) && LogOk(log)
    ensures var n := ProgressOf(t).last; var page := PageOf(log, n, limit);
      && PageOk(t, page, limit) && page.highWatermark == |log| && page.completeThrough == PageEnd(log, n, limit)
      && BatchIs(c, log, n, DeliveriesOf(c.id, page.entries)) && |page.entries| == PageEnd(log, n, limit) - n
  {
    hide Fold, RowsAre, EntryOk;
  }

  /** A pass without faults goes through exactly on a clean stretch, ends at the page's end
      and resumes when that is the log's; the last page is refused without a durable halt. */
  lemma FaultlessPass(c: Setup, log: Log, t: Tables, limit: nat)
    requires Follows(c, log, t) && LogOk(log)
    ensures var n := ProgressOf(t).last; var end := PageEnd(log, n, limit);
      var p := ReconcilePass(c.id, c.oracle, log, t, PageOf(log, n, limit), limit, NoFaults());
      && Follows(c, log, p.tables)
      && (p.resumed.Some? <==> Clean(c, log, n, end) && (end < |log| || ProgressOf(t).mode == ReconciliationRequired))
      && (p.resumed.Some? ==> p.resumed.value == (end == |log|) && ProgressOf(p.tables).last == end)
      && (p.resumed == Some(true) ==> p.tables.progress == Some(Progress(|log|, |log|, Active, "")))
      && (p.resumed == Some(false) ==> ProgressOf(p.tables).mode == ProgressOf(t).mode)
  {
    hide Follows, ApplyAll, PageOk, Clean, DeliveriesOf, BatchIs;
    Bounds(c, log, t);
    PagePasses(c, log, t, limit);
    var n := ProgressOf(t).last;
    var page := PageOf(log, n, limit);
    ApplyAllClean(c, log, t, n, DeliveriesOf(c.id, page.entries), 0);
    BatchLength(c.id, page.entries);
    var a := ApplyAll(c.id, c.oracle, log, t, DeliveriesOf(c.id, page.entries), NoFaults(), 0);
    if Completes(a.tables, |log|, |log|) {
      CompletedFollows(c, log, a.tables, |log|);
    }
  }

  lemma BatchLength(id: EdgeIdentity, entries: seq<AuthorityTheorems.Entry>)
    ensures |DeliveriesOf(id, entries)| == |entries|
  {
  }

  // ----- The reconcile loop -----

  /** How many passes it takes to read the remaining entries. */
  function Passes(remaining: nat, limit: nat): nat
    requires limit > 0
  {
    if remaining <= limit then 1 else 1 + Passes(remaining - limit, limit)
  }

  /** That is one, or the number of pages rounded up. */
  lemma {:induction false} PassesIsCeiling(remaining: nat, limit: nat)
    requires limit > 0
    ensures var p := Passes(remaining, limit);
      if remaining == 0 then p == 1 else (p - 1) * limit < remaining <= p * limit
  {
    if remaining > limit {
      PassesIsCeiling(remaining - limit, limit);
    }
  }

  /** reconcileAuthoritativeEdge against a fixed log, without faults: it ends active and
      level with the log exactly when the rest of the log is clean, after as many passes
      as there are pages. */
  method ReconcileAuthoritative(c: Setup, db: Db, log: Log, limit: nat) returns (resumed: bool, passes: nat)
    requires db.key == c.id.key && Follows(c, log, db.Contents()) && LogOk(log) && 0 < limit <= 1000
    modifies db
    ensures Follows(c, log, db.Contents())
    ensures 0 <= ProgressOf(old(db.Contents())).last <= |log|
    ensures resumed <==> Clean(c, log, ProgressOf(old(db.Contents())).last, |log|)
    ensures resumed ==> db.Contents().progress == Some(Progress(|log|, |log|, Active, ""))
    ensures resumed ==> passes == Passes(|log| - ProgressOf(old(db.Contents())).last, limit)
  {
    hide Follows, ReconcilePass, Clean, LogOk;
    Bounds(c, log, db.Contents());
    var start := ProgressOf(db.Contents());
    HaltedFollows(c, log, db.Contents(), start.high, "authoritative_reconciliation");
    db.RequireReconciliation(start.high, "authoritative_reconciliation");
    var consumer := new Consumer(c.id, c.oracle, db);
    CleanNothing(c, log, db.Contents(), start.last);
    passes := 0;
    while consumer.halted
      invariant consumer.halted && consumer.db == db && consumer.id == c.id && consumer.oracle == c.oracle
      invariant Follows(c, log, db.Contents()) && ProgressOf(db.Contents()).mode == ReconciliationRequired
      invariant start.last <= ProgressOf(db.Contents()).last <= |log|
      invariant Clean(c, log, start.last, ProgressOf(db.Contents()).last)
      invariant passes + Passes(|log| - ProgressOf(db.Contents()).last, limit) == Passes(|log| - start.last, limit)
      decreases |log| - ProgressOf(db.Contents()).last
    {
      ghost var t := db.Contents();
      var before := ProgressOf(db.Contents()).last;
      ghost var end := PageEnd(log, before, limit);
      FaultlessPass(c, log, t, limit);
      CleanSplit(c, log, start.last, before, end);
      CleanSplit(c, log, start.last, end, |log|);
      passes := passes + 1;
      var r := consumer.Reconcile(log, PageOf(log, before, limit), limit, NoFaults());
      if r.None? {
        return false, passes;
      }
      if r.value {
        return true, passes;
      }
      if ProgressOf(db.Contents()).last <= before {
        assert false;
        return false, passes;
      }
    }
    assert false;
  }

  /** reconcileEdge, the consuming loop's own recovery, against a fixed log and without
      faults: it resumes exactly when the halt is durable and the rest of the log is clean. */
  method ReconcileEdge(c: Setup, consumer: Consumer, log: Log, limit: nat) returns (resumed: bool)
    requires consumer.id == c.id && consumer.oracle == c.oracle && consumer.db.key == c.id.key && consumer.halted
    requires Follows(c, log, consumer.db.Contents()) && LogOk(log) && 0 < limit <= 1000
    modifies consumer`halted, consumer.db
    ensures Follows(c, log, consumer.db.Contents()) && consumer.halted == !resumed
    ensures var start := ProgressOf(old(consumer.db.Contents()));
      && 0 <= start.last <= |log|
      && (resumed <==> start.mode == ReconciliationRequired && Clean(c, log, start.last, |log|))
    ensures resumed ==> consumer.db.Contents().progress == Some(Progress(|log|, |log|, Active, ""))
  {
    hide Follows, ReconcilePass, Clean, LogOk;
    var db := consumer.db;
    Bounds(c, log, db.Contents());
    ghost var start := ProgressOf(db.Contents());
    CleanNothing(c, log, db.Contents(), start.last);
    while consumer.halted
      invariant consumer.halted && Follows(c, log, db.Contents()) && ProgressOf(db.Contents()).mode == start.mode
      invariant start.last <= ProgressOf(db.Contents()).last <= |log|
      invariant Clean(c, log, start.last, ProgressOf(db.Contents()).last)
      decreases |log| - ProgressOf(db.Contents()).last
    {
      var before := ProgressOf(db.Contents()).last;
      ghost var end := PageEnd(log, before, limit);
      FaultlessPass(c, log, db.Contents(), limit);
      CleanSplit(c, log, start.last, before, end);
      CleanSplit(c, log, start.last, end, |log|);
      var r := consumer.Reconcile(log, PageOf(log, before, limit), limit, NoFaults());
      if r.None? {
        return false;
      }
      if r.value {
        return true;
      }
    }
    assert false;
  }

  /** runEdge up to its consumer, against a fixed log and without faults: a fresh process
      comes up, and then not halted, exactly when the rest of the log is clean. */
  method StartEdge(c: Setup, db: Db, log: Log, limit: nat) returns (consumer: Consumer?)
    requires db.key == c.id.key && Follows(c, log, db.Contents()) && LogOk(log) && 0 < limit <= 1000
    modifies db
    ensures Follows(c, log, db.Contents())
    ensures 0 <= ProgressOf(old(db.Contents())).last <= |log|
    ensures consumer != null <==> Clean(c, log, ProgressOf(old(db.Contents())).last, |log|)
    ensures consumer != null ==>
      fresh(consumer) && consumer.db == db && !consumer.halted
        && ProgressOf(db.Contents()) == Progress(|log|, |log|, Active, "")
  {
    hide Follows, Clean, LogOk;
    var resumed, _ := ReconcileAuthoritative(c, db, log, limit);
    if !resumed {
      return null;
    }
    consumer := new Consumer(c.id, c.oracle, db);
  }

  // ----- The log the authority wrote -----

  /** No envelope and no case of the entry is known to the tables yet. */
  ghost predicate Absent(v: Views, e: LogEntry) {
    && e.envelopeId !in v.identity && !Filed(v.cases, e.envelopeId) && !Filed(v.advice, e.envelopeId)
    && (e.kind == Authority.CaseKind ==> e.caseId !in v.cases)
    && (e.kind == Authority.AdviceKind ==> e.envelopeId !in v.advice)
  }

  /** Envelopes are delivered once, cases once, and an advice after its case. */
  ghost predicate WellOrdered(log: Log) {
    && (forall i, j | 0 <= i < j < |log| :: log[i].envelopeId != log[j].envelopeId)
    && (forall i, j | 0 <= i < j < |log| && log[i].kind == log[j].kind == Authority.CaseKind ::
      log[i].caseId != log[j].caseId)
    && (forall j | 0 <= j < |log| && log[j].kind == Authority.AdviceKind :: exists i :: CaseOf(log, i, j))
  }

  ghost predicate CaseOf(log: Log, i: int, j: int) {
    0 <= i < j < |log| && log[i].kind == Authority.CaseKind && log[i].caseId == log[j].caseId
  }

  /** The verifier accepts an advice only together with the committed case it binds, and
      names it by its envelope; what it accepts is well formed. */
  ghost predicate Vouches(c: Setup, log: Log) {
    && (forall i | 0 <= i < |log| :: DeliveryOk(c.id.key, Wire(c, i + 1, log[i]), VerdictOn(c, log[i])))
    && (forall j | 0 <= j < |log| && VerdictOn(c, log[j]).Accept? && log[j].kind == Authority.AdviceKind ::
          VerdictOn(c, log[j]).p.body.adviceId == log[j].envelopeId)
    && (forall i, j | CaseOf(log, i, j) && log[j].kind == Authority.AdviceKind && VerdictOn(c, log[j]).Accept? ::
          VerdictOn(c, log[i]).Accept? && Binds(VerdictOn(c, log[j]).p, VerdictOn(c, log[i]).p))
  }

  predicate Binds(a: Projection, q: Projection) {
    a.body.AdviceBody? && q.commitment == a.body.caseCommitment && q.body.binding == a.body.binding
  }

  /** After n entries: the rest is still unknown, and what was accepted is filed. */
  ghost predicate Ready(c: Setup, log: Log, n: nat, v: Views) {
    && (forall i | n <= i < |log| :: Absent(v, log[i]))
    && (forall i | 0 <= i < n && i < |log| && log[i].kind == Authority.CaseKind && VerdictOn(c, log[i]).Accept? ::
          CaseFiled(v, log[i].caseId, VerdictOn(c, log[i]).p))
    && (forall i | 0 <= i < n && i < |log| && log[i].kind == Authority.AdviceKind && VerdictOn(c, log[i]).Accept? ::
          AdviceFiled(v, log[i].envelopeId, VerdictOn(c, log[i]).p))
  }

  predicate AdviceFiled(v: Views, adviceId: string, p: Projection) {
    adviceId in v.advice && v.advice[adviceId] == EdgeStore.Entry(p, false)
  }

  predicate CaseFiled(v: Views, caseId: string, p: Projection) {
    caseId in v.cases && v.cases[caseId] == EdgeStore.Entry(p, false)
  }

  lemma AcceptNames(c: Setup, e: LogEntry)
    requires VerdictOn(c, e).Accept?
    ensures NamesEntry(e, VerdictOn(c, e).p)
  {
  }

  /** Filing an entry's projection leaves the other entries as absent as they were. */
  lemma StillAbsent(v: Views, e: LogEntry, p: Projection, sequence: int, o: LogEntry)
    requires Absent(v, e) && NamesEntry(e, p) && Record(v, sequence, Accept(p)).Some?
    requires p.body.AdviceBody? ==> p.body.adviceId == e.envelopeId
    requires Absent(v, o) && o.envelopeId != e.envelopeId
    requires e.kind == o.kind == Authority.CaseKind ==> e.caseId != o.caseId
    ensures Absent(Record(v, sequence, Accept(p)).value.views, o)
  {
  }

  /** A case is always recorded as accepted and filed. */
  lemma CaseRecords(v: Views, e: LogEntry, p: Projection, sequence: int)
    requires Absent(v, e) && NamesEntry(e, p) && e.kind == Authority.CaseKind
    ensures var r := Record(v, sequence, Accept(p));
      r.Some? && r.value.outcome == ApplyAccepted && CaseFiled(r.value.views, e.caseId, p)
      && r.value.views.advice == v.advice
      && forall k, q | k != e.caseId && CaseFiled(v, k, q) :: CaseFiled(r.value.views, k, q)
  {
  }

  /** An advice is recorded as accepted when its case is filed. */
  lemma AdviceRecords(v: Views, e: LogEntry, p: Projection, sequence: int, q: Projection)
    requires Absent(v, e) && NamesEntry(e, p) && e.kind == Authority.AdviceKind && p.body.adviceId == e.envelopeId
    requires CaseFiled(v, e.caseId, q) && Binds(p, q)
    ensures var r := Record(v, sequence, Accept(p));
      && r.Some? && r.value.outcome == ApplyAccepted && r.value.views.cases == v.cases
      && AdviceFiled(r.value.views, e.envelopeId, p)
      && forall k, a | k != e.envelopeId && AdviceFiled(v, k, a) :: AdviceFiled(r.value.views, k, a)
  {
  }

  lemma ReadyStep(c: Setup, log: Log, n: nat, v: Views)
    requires n < |log| && WellOrdered(log) && Vouches(c, log) && Ready(c, log, n, v)
    ensures var r := Record(v, n + 1, VerdictOn(c, log[n]));
      r.Some? && r.value.outcome in {ApplyAccepted, ApplyRejected} && Ready(c, log, n + 1, r.value.views)
  {
    hide VerdictOn, Record, Absent, DeliveryOk, Binds, CaseFiled, AdviceFiled, NamesEntry;
    var e := log[n];
    if VerdictOn(c, e).Reject? {
      RejectRecords(v, n + 1, VerdictOn(c, e));
    } else {
      var p := VerdictOn(c, e).p;
      AcceptNames(c, e);
      AcceptRecords(c, log, n, v);
      var r := Record(v, n + 1, Accept(p)).value.views;
      KindOf(e, p);
      forall i | n + 1 <= i < |log|
        ensures Absent(r, log[i])
      {
        StillAbsent(v, e, p, n + 1, log[i]);
      }
    }
  }

  lemma KindOf(e: LogEntry, p: Projection)
    requires NamesEntry(e, p)
    ensures p.body.CaseBody? <==> e.kind == Authority.CaseKind
  {
  }

  lemma RejectRecords(v: Views, sequence: int, j: Judgement)
    requires j.Reject?
    ensures Record(v, sequence, j).Some? && Record(v, sequence, j).value.outcome == ApplyRejected
      && Record(v, sequence, j).value.views == v
  {
  }

  lemma AcceptRecords(c: Setup, log: Log, n: nat, v: Views)
    requires n < |log| && WellOrdered(log) && Vouches(c, log) && Ready(c, log, n, v) && VerdictOn(c, log[n]).Accept?
    ensures var r := Record(v, n + 1, VerdictOn(c, log[n]));
      && r.Some? && r.value.outcome == ApplyAccepted
      && (forall i | 0 <= i <= n && log[i].kind == Authority.CaseKind && VerdictOn(c, log[i]).Accept? ::
            CaseFiled(r.value.views, log[i].caseId, VerdictOn(c, log[i]).p))
      && forall i | 0 <= i <= n && log[i].kind == Authority.AdviceKind && VerdictOn(c, log[i]).Accept? ::
           AdviceFiled(r.value.views, log[i].envelopeId, VerdictOn(c, log[i]).p)
  {
    hide VerdictOn, Record, Absent, DeliveryOk, Binds, NamesEntry;
    var e := log[n];
    var p := VerdictOn(c, e).p;
    AcceptNames(c, e);
    if e.kind == Authority.CaseKind {
      hide CaseFiled;
      CaseRecords(v, e, p, n + 1);
    } else {
      var i :| CaseOf(log, i, n);
      AdviceRecords(v, e, p, n + 1, VerdictOn(c, log[i]).p);
    }
  }

  /** A log the authority wrote, judged by its verifier, is clean from end to end: no
      entry is quarantined and none blocks the edge. */
  lemma {:induction false} TruthfulLogIsClean(c: Setup, log: Log, n: nat)
    requires n <= |log| && WellOrdered(log) && Vouches(c, log) && forall i | 0 <= i < |log| :: Absent(c.base, log[i])
    ensures Clean(c, log, 0, n) && Ready(c, log, n, Fold(c, log[..n]).value.views)
    decreases n
  {
    hide Absent, DeliveryOk, VerdictOn, Record, WellOrdered, CaseFiled, AdviceFiled;
    if n > 0 {
      TruthfulLogIsClean(c, log, n - 1);
      FoldExtends(c, log, n - 1);
      ReadyStep(c, log, n - 1, Fold(c, log[..n - 1]).value.views);
      CleanOne(c, log, n - 1);
      CleanSplit(c, log, 0, n - 1, n);
    }
  }

  /** The authority's logs are well ordered in every valid state. */
  lemma AuthorityLogsAreWellOrdered(db: Authority.Db, top: int, key: EdgeKey)
    requires AuthorityInvariant.Valid(db, top)
    ensures WellOrdered(AuthorityTheorems.Log(db, key))
  {
    AuthorityInvariant.ValidNumbered(db, top);
    var log := AuthorityTheorems.Log(db, key);
    forall i, j | 0 <= i < j < |log|
      ensures log[i].envelopeId != log[j].envelopeId
    {
      LogsAreOrdered(db, top, key, i, j);
    }
    forall i, j | 0 <= i < j < |log| && log[i].kind == log[j].kind == Authority.CaseKind
      ensures log[i].caseId != log[j].caseId
    {
      CasesDiffer(db, top, key, i, j);
    }
    forall j | 0 <= j < |log| && log[j].kind == Authority.AdviceKind
      ensures exists i :: CaseOf(log, i, j)
    {
      var i := AdviceFollowsCase(db, top, key, j);
      assert CaseOf(log, i, j);
    }
  }

  lemma CasesDiffer(db: Authority.Db, top: int, key: EdgeKey, i: int, j: int)
    requires AuthorityInvariant.Valid(db, top) && 0 <= i < j < LogLength(db, key)
    requires var log := AuthorityTheorems.Log(db, key); log[i].kind == log[j].kind == Authority.CaseKind
    ensures var log := AuthorityTheorems.Log(db, key); log[i].caseId != log[j].caseId
  {
    AuthorityInvariant.ValidNumbered(db, top);
    var log := AuthorityTheorems.Log(db, key);
    CaseDeliveredOnce(db, top, log[i].caseId);
    assert Authority.Slot(key, i + 1) != Authority.Slot(key, j + 1);
  }

  /** What the authority answers is the page the edge reads. */
  lemma AuthorityServesPages(db: Authority.Db, top: int, key: EdgeKey, after: nat, limit: nat)
    requires AuthorityInvariant.Valid(db, top)
    ensures ReadPage(db, key, after, limit) == PageOf(AuthorityTheorems.Log(db, key), after, limit)
  {
    hide AuthorityInvariant.RevisionsBelow, AuthorityInvariant.RevisionsDistinct, AuthorityInvariant.OutboxExact,
         AuthorityInvariant.RegistryOk, AuthorityInvariant.Increasing, AuthorityInvariant.EnvelopesUnique,
         AuthorityInvariant.EntriesBacked, AuthorityInvariant.CasesLogged, AuthorityInvariant.AdviceLogged, ReadPage;
    PageIsSlice(db, top, key, after, limit);
  }

  /** The verifier's one-entry read finds the delivery exactly when the log holds it. */
  lemma GateReadsLog(db: Authority.Db, top: int, key: EdgeKey, d: EdgeStore.Delivery)
    requires AuthorityInvariant.Valid(db, top) && d.sequence > 0
    ensures var page := ReadPage(db, key, d.sequence - 1, 1);
      Exact(AuthorityTheorems.Log(db, key), d) <==>
        |page.entries| == 1 && page.entries[0].sequence == d.sequence && page.entries[0].delivery.raw == d.raw
  {
    hide ReadPage;
    AuthorityInvariant.ValidNumbered(db, top);
    hide AuthorityInvariant.Valid;
    AuthorityServesPages(db, top, key, d.sequence - 1, 1);
  }

  /** So an edge that follows any log of any run of the authority can always recover to
      its end, from wherever it stands. */
  lemma AuthorityLogsRecover(events: seq<Authority.Event>, key: EdgeKey, c: Setup, n: nat)
    requires var log := LogAfter(events, key);
      n <= |log| && Vouches(c, log) && forall i | 0 <= i < |log| :: Absent(c.base, log[i])
    ensures var log := LogAfter(events, key); Clean(c, log, n, |log|)
  {
    hide Authority.Run, AuthorityInvariant.Valid, AuthorityInvariant.Numbered, Vouches, Absent, WellOrdered, Clean;
    AuthorityInvariant.RunsAreValid(events);
    var s := Authority.Run(Authority.START, events);
    var log := LogAfter(events, key);
    AuthorityLogsAreWellOrdered(s.db, s.top, key);
    TruthfulLogIsClean(c, log, |log|);
    CleanSplit(c, log, 0, n, |log|);
  }
}
