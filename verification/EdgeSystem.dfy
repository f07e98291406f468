/** The edge as a follower of one authority log.  The carrier may lose, repeat, reorder
    or invent messages, any step may fail, the process may restart at any time, and
    pages and the verifier's view of the log may be stale or wrong. */
module EdgeSystem {
  import opened Common
  import opened AuthorityTheorems
  import opened EdgeStore
  import opened EdgeConsumer

  // ----- The reference: folding the verdicts over a prefix of the log -----

  /** What the edge is set up with: who it is, how it judges an entry, and what
      earlier generations left in the shared tables. */
  datatype Setup = Setup(id: EdgeIdentity, oracle: Oracle, base: Views)

  datatype Projected = Projected(views: Views, rows: seq<Row>)

  function VerdictOn(c: Setup, e: LogEntry): Judgement {
    Judged(c.id, c.oracle, e, OwnSubject(c.id))
  }

  function Wire(c: Setup, sequence: int, e: LogEntry): EdgeStore.Delivery {
    EdgeStore.Delivery(sequence, OwnSubject(c.id), e.raw)
  }

  /** One more entry; None when the edge cannot record it. */
  function Extend(c: Setup, p: Projected, e: LogEntry): Option<Projected> {
    var d, j := Wire(c, |p.rows| + 1, e), VerdictOn(c, e);
    if !DeliveryOk(c.id.key, d, j) then None
    else
      var r := Record(p.views, |p.rows| + 1, j);
      if r.None? then None else Some(Projected(r.value.views, p.rows + [RowOf(d, j, r.value)]))
  }

  function Fold(c: Setup, log: Log): (r: Option<Projected>)
    ensures r.Some? ==> |r.value.rows| == |log|
  {
    if log == [] then Some(Projected(c.base, []))
    else
      var p := Fold(c, log[..|log| - 1]);
      if p.None? then None else Extend(c, p.value, log[|log| - 1])
  }

  lemma FoldExtends(c: Setup, log: Log, n: nat)
    requires n < |log| && Fold(c, log[..n]).Some?
    ensures Fold(c, log[..n + 1]) == Extend(c, Fold(c, log[..n]).value, log[n])
  {
    assert log[..n + 1][..n] == log[..n];
  }

  ghost predicate RowsAre(rows: map<int, Row>, s: seq<Row>) {
    && (forall i :: i in rows <==> 1 <= i <= |s|)
    && (forall i | 1 <= i <= |s| :: rows[i] == s[i - 1])
  }

  /** The rows of a fold carry the log's own bytes. */
  lemma {:induction false} FoldRows(c: Setup, log: Log, i: nat)
    requires Fold(c, log).Some? && i < |log|
    ensures var row := Fold(c, log).value.rows[i]; row.digest == Sha256(log[i].raw) && row.subject == OwnSubject(c.id)
    decreases |log|
  {
    if i < |log| - 1 {
      FoldRows(c, log[..|log| - 1], i);
    }
  }

  // ----- What the tables are at all times -----

  ghost predicate Follows(c: Setup, log: Log, t: Tables) {
    var s := ProgressOf(t);
    && 0 <= s.last <= s.high <= |log| && (s.mode.Active? ==> s.last == s.high)
    && Fold(c, log[..s.last]).Some?
    && t.views == Fold(c, log[..s.last]).value.views && RowsAre(t.rows, Fold(c, log[..s.last]).value.rows)
  }

  lemma RecordedRow(c: Setup, log: Log, t: Tables, i: int)
    requires Follows(c, log, t) && 1 <= i <= ProgressOf(t).last
    ensures i in t.rows && t.rows[i].digest == Sha256(log[i - 1].raw) && t.rows[i].subject == OwnSubject(c.id)
  {
    var n := ProgressOf(t).last;
    FoldRows(c, log[..n], i - 1);
    assert log[..n][i - 1] == log[i - 1];
  }

  lemma NoRowAhead(c: Setup, log: Log, t: Tables)
    requires Follows(c, log, t)
    ensures ProgressOf(t).last + 1 !in t.rows
  {
  }

  lemma HaltedFollows(c: Setup, log: Log, t: Tables, observed: int, reason: string)
    requires Follows(c, log, t) && observed <= |log|
    ensures Follows(c, log, EdgeStore.Halted(t, observed, reason))
  {
    hide Fold, RowsAre;
  }

  lemma RowsExtend(rows: map<int, Row>, s: seq<Row>, r: Row)
    requires RowsAre(rows, s)
    ensures RowsAre(rows[|s| + 1 := r], s + [r])
  {
  }

  /** Recording the next entry of the log is one step of the fold, and fails when it does. */
  lemma RecordFollows(c: Setup, log: Log, t: Tables)
    requires Follows(c, log, t) && ProgressOf(t).last < |log|
    ensures var n := ProgressOf(t).last; var d, j := Wire(c, n + 1, log[n]), VerdictOn(c, log[n]);
      DeliveryOk(c.id.key, d, j) ==>
        && Follows(c, log, RecordNext(t, d, j).tables)
        && (RecordNext(t, d, j).outcome.Some? <==> Fold(c, log[..n + 1]).Some?)
        && (RecordNext(t, d, j).outcome.Some? ==>
              && ProgressOf(RecordNext(t, d, j).tables).last == n + 1
              && RecordNext(t, d, j).outcome.value == Record(t.views, n + 1, j).value.outcome)
  {
    hide Fold, RowsAre, Record, RowOf, DeliveryOk, VerdictOn;
    var n := ProgressOf(t).last;
    FoldExtends(c, log, n);
    var p := Fold(c, log[..n]).value;
    var d, j := Wire(c, n + 1, log[n]), VerdictOn(c, log[n]);
    var r := Record(p.views, n + 1, j);
    if r.Some? {
      RowsExtend(t.rows, p.rows, RowOf(d, j, r.value));
    }
  }

  /** Under the gate a delivery is the log's own, so no conflict and no missing row arises. */
  lemma ApplyFollows(c: Setup, log: Log, t: Tables, d: EdgeStore.Delivery, reconciling: bool)
    requires Follows(c, log, t) && Exact(log, d) && d.subject == OwnSubject(c.id)
    ensures var a := Apply(t, c.id.key, d, VerdictOn(c, log[d.sequence - 1]), reconciling);
      && Follows(c, log, a.tables)
      && ProgressOf(a.tables).high >= ProgressOf(t).high
      && (a.outcome.Some? ==> d.sequence <= ProgressOf(a.tables).high && a.outcome != Some(ApplyIdentityConflict))
  {
    hide Fold, RowsAre, Record, DeliveryOk, VerdictOn, Follows;
    var s := ProgressOf(t);
    Bounds(c, log, t);
    if d.sequence <= s.last {
      RecordedRow(c, log, t, d.sequence);
    } else if d.sequence != s.last + 1 || (s.mode == ReconciliationRequired && !reconciling) {
      HaltedFollows(c, log, t, d.sequence, "delivery_sequence_gap");
    } else {
      NoRowAhead(c, log, t);
      RecordFollows(c, log, t);
      if Record(t.views, d.sequence, VerdictOn(c, log[s.last])).Some? {
        RecordOutcome(t.views, d.sequence, VerdictOn(c, log[s.last]));
      }
      assert d == Wire(c, s.last + 1, log[s.last]);
    }
  }

  lemma RecordOutcome(v: Views, sequence: int, j: Judgement)
    requires Record(v, sequence, j).Some?
    ensures Record(v, sequence, j).value.outcome !in {ApplyIdentityConflict, ApplyReconciliationRequired}
  {
  }

  lemma Bounds(c: Setup, log: Log, t: Tables)
    requires Follows(c, log, t)
    ensures var s := ProgressOf(t); 0 <= s.last <= s.high <= |log| && (s.mode.Active? ==> s.last == s.high)
  {
  }

  lemma FollowsGrows(c: Setup, log: Log, more: Log, t: Tables)
    requires Follows(c, log, t)
    ensures Follows(c, log + more, t)
  {
    hide Fold, RowsAre;
    assert (log + more)[..ProgressOf(t).last] == log[..ProgressOf(t).last];
  }

  // ----- Steps and runs -----

  /** The edge process: not there, started and repaired from the authority but not yet
      consuming, or consuming. */
  datatype Phase = Down | Repaired | Live

  /** A message may be acknowledged and the acknowledgement lost, so acked is what may
      have been acknowledged. */
  datatype World = World(log: Log, phase: Phase, edge: Edge, acked: set<EdgeStore.Delivery>)

  /** known is how much of the log the verifier sees. */
  datatype Event =
    | Grow(more: Log)
    | Kill
    | BeginAuthoritative(fault: Fault)
    | FreshPass(page: Page, limit: int, faults: nat -> Fault, known: nat)
    | Connect
    | Deliver(m: Message, known: nat, fault: Fault)
    | PullPass(page: Page, limit: int, faults: nat -> Fault, known: nat)

  function Known(log: Log, known: nat): Log {
    if known < |log| then log[..known] else log
  }

  /** The authoritative reconciliation is entered at startup and, by the consuming loop,
      only while its own consumer is not halted. */
  predicate MayReconcileAfresh(w: World) {
    w.phase == Down || (w.phase == Live && !w.edge.halted)
  }

  function DeliverStep(c: Setup, w: World, m: Message, known: nat, f: Fault): World {
    var h := HandleMessage(c.id, c.oracle, Known(w.log, known), w.edge, m, f);
    w.(edge := h.edge, acked := if h.acked && m.generation.value == c.id.key.generation
      then w.acked + {EdgeStore.Delivery(m.sequence.value, m.subject, m.raw)} else w.acked)
  }

  function PassOn(c: Setup, w: World, page: Page, limit: int, faults: nat -> Fault, known: nat): Pass {
    ReconcilePass(c.id, c.oracle, Known(w.log, known), w.edge.tables, page, limit, faults)
  }

  /** A step that is not enabled changes nothing. */
  function Step(c: Setup, w: World, e: Event): World {
    match e
    case Grow(more) => w.(log := w.log + more)
    case Kill => w.(phase := Down)
    case BeginAuthoritative(f) =>
      if f.StoreFailed? || !MayReconcileAfresh(w) then w
      else
        var high := ProgressOf(w.edge.tables).high;
        w.(edge := w.edge.(tables := EdgeStore.Halted(w.edge.tables, high, "authoritative_reconciliation")))
    case FreshPass(page, limit, faults, known) =>
      if ProgressOf(w.edge.tables).mode.Active? || !MayReconcileAfresh(w) then w
      else
        var p := PassOn(c, w, page, limit, faults, known);
        w.(edge := w.edge.(tables := p.tables),
           phase := if w.phase == Down && p.resumed == Some(true) then Repaired else w.phase)
    case Connect =>
      if w.phase != Repaired then w
      else w.(phase := Live, edge := w.edge.(halted := ProgressOf(w.edge.tables).mode == ReconciliationRequired))
    case Deliver(m, known, f) => if w.phase == Live then DeliverStep(c, w, m, known, f) else w
    case PullPass(page, limit, faults, known) =>
      if w.phase != Live || !w.edge.halted then w
      else
        var p := PassOn(c, w, page, limit, faults, known);
        w.(edge := Edge(p.tables, p.resumed != Some(true)))
  }

  function Run(c: Setup, w: World, events: seq<Event>): World
    decreases |events|
  {
    if events == [] then w else Run(c, Step(c, w, events[0]), events[1..])
  }

  function Start(c: Setup): World {
    World([], Down, Edge(Tables(None, map[], c.base), false), {})
  }

  // ----- Every step keeps it -----

  /** The gate on a stale view passes only what the whole log holds. */
  lemma ExactKnown(log: Log, known: nat, d: EdgeStore.Delivery)
    requires Exact(Known(log, known), d)
    ensures Exact(log, d) && Known(log, known)[d.sequence - 1] == log[d.sequence - 1]
  {
  }

  lemma ApplyDeliveryFollows(c: Setup, log: Log, known: nat, t: Tables, d: EdgeStore.Delivery, reconciling: bool,
      f: Fault)
    requires Follows(c, log, t) && d.subject == OwnSubject(c.id)
    ensures var a := ApplyDelivery(c.id, c.oracle, Known(log, known), t, d, reconciling, f);
      && Follows(c, log, a.tables)
      && ProgressOf(a.tables).high >= ProgressOf(t).high
      && (a.outcome.Some? ==> Exact(log, d) && d.sequence <= ProgressOf(a.tables).high)
  {
    hide Follows, Apply, Known;
    if Exact(Known(log, known), d) {
      ExactKnown(log, known, d);
      ApplyFollows(c, log, t, d, reconciling);
    }
  }

  lemma {:induction false} ApplyAllFollows(c: Setup, log: Log, known: nat, t: Tables, batch: seq<EdgeStore.Delivery>,
      faults: nat -> Fault, i: nat)
    requires Follows(c, log, t) && i <= |batch| && forall d | d in batch :: d.subject == OwnSubject(c.id)
    ensures var a := ApplyAll(c.id, c.oracle, Known(log, known), t, batch, faults, i);
      Follows(c, log, a.tables) && ProgressOf(a.tables).high >= ProgressOf(t).high
    decreases |batch| - i
  {
    hide Follows, ApplyDelivery, Known;
    if i < |batch| {
      ApplyDeliveryFollows(c, log, known, t, batch[i], true, faults(i));
      var a := ApplyDelivery(c.id, c.oracle, Known(log, known), t, batch[i], true, faults(i));
      if a.outcome.Some? && !Halts(a.outcome.value) {
        ApplyAllFollows(c, log, known, a.tables, batch, faults, i + 1);
      }
    }
  }

  lemma CompletedFollows(c: Setup, log: Log, t: Tables, high: int)
    requires Follows(c, log, t) && Completes(t, high, high)
    ensures Follows(c, log, Completed(t)) && ProgressOf(Completed(t)).high == ProgressOf(t).high
  {
    hide Fold, RowsAre;
  }

  lemma PassFollows(c: Setup, log: Log, known: nat, t: Tables, page: Page, limit: int, faults: nat -> Fault)
    requires Follows(c, log, t)
    ensures var p := ReconcilePass(c.id, c.oracle, Known(log, known), t, page, limit, faults);
      Follows(c, log, p.tables) && ProgressOf(p.tables).high >= ProgressOf(t).high
  {
    hide Follows, ApplyAll, Known, PageBounds, EntriesOk;
    var batch := DeliveriesOf(c.id, page.entries);
    ApplyAllFollows(c, log, known, t, batch, faults, 0);
    var a := ApplyAll(c.id, c.oracle, Known(log, known), t, batch, faults, 0).tables;
    if Completes(a, page.highWatermark, page.highWatermark) {
      CompletedFollows(c, log, a, page.highWatermark);
    }
  }

  ghost predicate AckedCovered(log: Log, t: Tables, acked: set<EdgeStore.Delivery>) {
    forall d | d in acked :: Exact(log, d) && d.sequence <= ProgressOf(t).high
  }

  ghost predicate Inv(c: Setup, w: World) {
    && Follows(c, w.log, w.edge.tables) && AckedCovered(w.log, w.edge.tables, w.acked)
    && forall d | d in w.acked :: d.subject == OwnSubject(c.id)
  }

  lemma DeliverKeeps(c: Setup, w: World, m: Message, known: nat, f: Fault)
    requires Inv(c, w)
    ensures Inv(c, DeliverStep(c, w, m, known, f))
  {
    hide Follows, ApplyDelivery, Known, EdgeStore.Halted;
    if !w.edge.halted && MetadataOk(c.id, m) {
      if m.generation.value != c.id.key.generation {
        ForeignKeeps(c, w);
      } else {
        ApplyDeliveryFollows(c, w.log, known, w.edge.tables, EdgeStore.Delivery(m.sequence.value, m.subject, m.raw),
          false, f);
      }
    }
  }

  lemma ForeignKeeps(c: Setup, w: World)
    requires Inv(c, w)
    ensures var t := EdgeStore.Halted(w.edge.tables, 0, "delivery_identity_mismatch");
      Follows(c, w.log, t) && ProgressOf(t).high == ProgressOf(w.edge.tables).high
  {
    hide Follows;
    Bounds(c, w.log, w.edge.tables);
    HaltedFollows(c, w.log, w.edge.tables, 0, "delivery_identity_mismatch");
  }

  lemma StepKeeps(c: Setup, w: World, e: Event)
    requires Inv(c, w)
    ensures Inv(c, Step(c, w, e))
  {
    hide Follows, HandleMessage, ReconcilePass, Known, DeliverStep;
    match e
    case Grow(more) => FollowsGrows(c, w.log, more, w.edge.tables);
    case Deliver(m, known, f) => DeliverKeeps(c, w, m, known, f);
    case PullPass(page, limit, faults, known) => PassFollows(c, w.log, known, w.edge.tables, page, limit, faults);
    case BeginAuthoritative(f) =>
      Bounds(c, w.log, w.edge.tables);
      HaltedFollows(c, w.log, w.edge.tables, ProgressOf(w.edge.tables).high, "authoritative_reconciliation");
    case FreshPass(page, limit, faults, known) => PassFollows(c, w.log, known, w.edge.tables, page, limit, faults);
    case Kill =>
    case Connect =>
  }

  lemma {:induction false} RunKeeps(c: Setup, w: World, events: seq<Event>)
    requires Inv(c, w)
    ensures Inv(c, Run(c, w, events))
    decreases |events|
  {
    hide Inv, Step;
    if events != [] {
      StepKeeps(c, w, events[0]);
      RunKeeps(c, Step(c, w, events[0]), events[1..]);
    }
  }

  lemma StartInv(c: Setup)
    ensures Inv(c, Start(c))
  {
  }

  // ----- The theorems -----

  /** After every run the recorded rows are exactly the first last entries of the
      authority log, byte for byte, and last <= high <= the length of the log. */
  lemma EdgeFollowsLog(c: Setup, events: seq<Event>)
    ensures var w := Run(c, Start(c), events); var s := ProgressOf(w.edge.tables);
      && 0 <= s.last <= s.high <= |w.log|
      && (forall i :: i in w.edge.tables.rows <==> 1 <= i <= s.last)
      && (forall i | 1 <= i <= s.last :: SameRow(w.edge.tables.rows[i], Wire(c, i, w.log[i - 1])))
  {
    hide Run, Step;
    StartInv(c);
    RunKeeps(c, Start(c), events);
    var w := Run(c, Start(c), events);
    forall i | 1 <= i <= ProgressOf(w.edge.tables).last
      ensures SameRow(w.edge.tables.rows[i], Wire(c, i, w.log[i - 1]))
    {
      RecordedRow(c, w.log, w.edge.tables, i);
    }
  }

  /** Its tables are the fold of the verdicts over that prefix. */
  lemma EdgeIsFold(c: Setup, events: seq<Event>)
    ensures var w := Run(c, Start(c), events); var n := ProgressOf(w.edge.tables).last;
      0 <= n <= |w.log| && var p := Fold(c, w.log[..n]);
        p.Some? && w.edge.tables.views == p.value.views && RowsAre(w.edge.tables.rows, p.value.rows)
  {
    hide Run, Step, RowsAre;
    StartInv(c);
    RunKeeps(c, Start(c), events);
  }

  /** Two schedules over the same log that reach the same point hold the same tables. */
  lemma ScheduleIndependent(c: Setup, a: seq<Event>, b: seq<Event>)
    requires var v, w := Run(c, Start(c), a), Run(c, Start(c), b);
      && (v.log <= w.log || w.log <= v.log)
      && ProgressOf(v.edge.tables).last == ProgressOf(w.edge.tables).last
    ensures var v, w := Run(c, Start(c), a).edge.tables, Run(c, Start(c), b).edge.tables;
      v.views == w.views && v.rows == w.rows
  {
    hide Run, Step, Fold, RowsAre;
    var v, w := Run(c, Start(c), a), Run(c, Start(c), b);
    EdgeIsFold(c, a);
    EdgeIsFold(c, b);
    EdgeFollowsLog(c, a);
    EdgeFollowsLog(c, b);
    var n := ProgressOf(v.edge.tables).last;
    assert v.log[..n] == w.log[..n];
    SameRows(v.edge.tables.rows, w.edge.tables.rows, Fold(c, v.log[..n]).value.rows);
  }

  lemma SameRows(a: map<int, Row>, b: map<int, Row>, s: seq<Row>)
    requires RowsAre(a, s) && RowsAre(b, s)
    ensures a == b
  {
    forall i | i in a || i in b
      ensures i in a && i in b && a[i] == b[i]
    {
      assert i in a <==> i in b;
      assert a[i] == s[i - 1];
    }
  }

  /** While the durable mode is active nothing acknowledged is missing: every own
      delivery ever acknowledged has its row, whatever its outcome was at the time. */
  lemma ActiveLosesNothing(c: Setup, events: seq<Event>, d: EdgeStore.Delivery)
    requires var w := Run(c, Start(c), events); ProgressOf(w.edge.tables).mode.Active? && d in w.acked
    ensures var w := Run(c, Start(c), events); var s := ProgressOf(w.edge.tables);
      s.last == s.high && d.sequence in w.edge.tables.rows && SameRow(w.edge.tables.rows[d.sequence], d)
  {
    hide Run, Step, Fold, RowsAre;
    StartInv(c);
    RunKeeps(c, Start(c), events);
    var w := Run(c, Start(c), events);
    assert Exact(w.log, d) && d.sequence <= ProgressOf(w.edge.tables).high;
    RecordedRow(c, w.log, w.edge.tables, d.sequence);
  }

  // ----- How the tables develop along the log -----

  /** An envelope keeps its first commitment, an entry its projection, and a quarantine
      is never lifted. */
  ghost predicate ViewsGrow(v: Views, w: Views) {
    && (forall k | k in v.identity ::
          && k in w.identity && w.identity[k].commitment == v.identity[k].commitment
            && w.identity[k].first == v.identity[k].first
          && (v.identity[k].quarantined ==>
            w.identity[k].quarantined && w.identity[k].conflict == v.identity[k].conflict))
    && EntriesGrow(v.cases, w.cases) && EntriesGrow(v.advice, w.advice)
  }

  ghost predicate EntriesGrow(a: map<string, EdgeStore.Entry>, b: map<string, EdgeStore.Entry>) {
    forall k | k in a :: k in b && b[k].projection == a[k].projection && (a[k].quarantined ==> b[k].quarantined)
  }

  /** A quarantined identity has the conflict that caused it. */
  ghost predicate ConflictsKnown(v: Views) {
    forall k | k in v.identity :: v.identity[k].quarantined <==> v.identity[k].conflict.Some?
  }

  lemma RecordGrows(v: Views, sequence: int, j: Judgement)
    requires ConflictsKnown(v) && Record(v, sequence, j).Some?
    ensures ViewsGrow(v, Record(v, sequence, j).value.views) && ConflictsKnown(Record(v, sequence, j).value.views)
  {
    hide Persist, QuarantineViews, ViewsGrow, ConflictsKnown;
    ViewsGrowSelf(v);
    if j.Accept? {
      if j.p.envelopeId in v.identity {
        QuarantineGrows(v, j.p, sequence);
      } else {
        ClaimGrows(v, j.p, sequence);
        var claimed := v.(identity := v.identity[j.p.envelopeId := Identity(j.p.commitment, sequence, false, None)]);
        PersistGrows(claimed, j.p);
        ViewsGrowChain(v, claimed, Persist(claimed, j.p).value);
      }
    }
  }

  lemma ClaimGrows(v: Views, p: Projection, sequence: int)
    requires ConflictsKnown(v) && p.envelopeId !in v.identity
    ensures var claimed := v.(identity := v.identity[p.envelopeId := Identity(p.commitment, sequence, false, None)]);
      ViewsGrow(v, claimed) && ConflictsKnown(claimed)
  {
  }

  lemma PersistGrows(v: Views, p: Projection)
    requires ConflictsKnown(v) && Persist(v, p).Some?
    ensures ViewsGrow(v, Persist(v, p).value) && ConflictsKnown(Persist(v, p).value)
  {
    hide BindsAcceptedCase, Filed;
  }

  lemma QuarantineGrows(v: Views, p: Projection, sequence: int)
    requires ConflictsKnown(v) && p.envelopeId in v.identity
    ensures ViewsGrow(v, QuarantineViews(v, p, sequence)) && ConflictsKnown(QuarantineViews(v, p, sequence))
  {
  }

  lemma ViewsGrowChain(u: Views, v: Views, w: Views)
    requires ViewsGrow(u, v) && ViewsGrow(v, w)
    ensures ViewsGrow(u, w)
  {
  }

  /** Along the log tables only grow: whatever prefix the edge has reached, it keeps. */
  lemma {:induction false} FoldGrows(c: Setup, log: Log, m: nat, n: nat)
    requires m <= n <= |log| && ConflictsKnown(c.base) && Fold(c, log[..n]).Some?
    ensures Fold(c, log[..m]).Some? && ViewsGrow(Fold(c, log[..m]).value.views, Fold(c, log[..n]).value.views)
    ensures ConflictsKnown(Fold(c, log[..n]).value.views)
    decreases n
  {
    if n > 0 {
      assert log[..n][..n - 1] == log[..n - 1];
      FoldGrows(c, log, if m < n then m else n - 1, n - 1);
      var p := Fold(c, log[..n - 1]).value;
      var r := Record(p.views, n, VerdictOn(c, log[n - 1])).value;
      assert Fold(c, log[..n]).value.views == r.views;
      hide Fold, ViewsGrow, ConflictsKnown, Record;
      RecordGrows(p.views, n, VerdictOn(c, log[n - 1]));
      ViewsGrowSelf(r.views);
      if m < n {
        ViewsGrowChain(Fold(c, log[..m]).value.views, p.views, r.views);
      }
    } else {
      ViewsGrowSelf(c.base);
    }
  }

  lemma ViewsGrowSelf(v: Views)
    ensures ViewsGrow(v, v)
  {
  }

  /** A second commitment for a known envelope quarantines the envelope and everything
      filed under it, and nothing else; no advice can be filed under a quarantined case. */
  lemma ConflictQuarantines(v: Views, sequence: int, p: Projection)
    requires p.envelopeId in v.identity && v.identity[p.envelopeId].commitment != p.commitment
    ensures var r := Record(v, sequence, Accept(p));
      && r.Some? && r.value.outcome == ApplyQuarantined && r.value.verdict == Quarantined
      && r.value.views.identity[p.envelopeId].quarantined
      && (forall k | k in v.cases ::
            r.value.views.cases[k].quarantined == (v.cases[k].quarantined
              || v.cases[k].projection.envelopeId == p.envelopeId))
      && (forall k | k in v.advice ::
            r.value.views.advice[k].quarantined == (v.advice[k].quarantined
              || v.advice[k].projection.envelopeId == p.envelopeId))
      && (forall a: Projection | a.body.AdviceBody? && a.body.caseId in v.cases
        && v.cases[a.body.caseId].projection.envelopeId == p.envelopeId ::
            Persist(r.value.views, a).None?)
  {
    var r := Record(v, sequence, Accept(p));
    assert r.value.views == QuarantineViews(v, p, sequence);
  }
}
