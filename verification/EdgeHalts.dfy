/** Halts of the live consumer that reconciliation cannot lift.  The consumer's halted flag
    is in memory while completing a reconciliation asks for the durable halt, so a flag that
    is set over an active durable mode stays set until the process ends. */
module EdgeHalts {
  import opened Common
  import Authority
  import opened AuthorityTheorems
  import opened EdgeStore
  import opened EdgeConsumer
  import opened EdgeSystem
  import opened EdgeRecovery

  /** The consuming loop is halted, and the tables do not say so. */
  ghost predicate Stuck(c: Setup, w: World) {
    Inv(c, w) && w.phase == Live && w.edge.halted && ProgressOf(w.edge.tables).mode.Active?
  }

  /** Reconciling the next entry never changes the durable mode. */
  lemma ApplyNextMode(c: Setup, log: Log, known: nat, t: Tables, d: EdgeStore.Delivery, f: Fault)
    requires Follows(c, log, t) && d.subject == OwnSubject(c.id) && d.sequence == ProgressOf(t).last + 1
    ensures var a := ApplyDelivery(c.id, c.oracle, Known(log, known), t, d, true, f);
      ProgressOf(a.tables).mode == ProgressOf(t).mode && (a.outcome.Some? ==> ProgressOf(a.tables).last == d.sequence)
  {
    NoRowAhead(c, log, t);
    hide Follows, Record, RowOf, DeliveryOk, Known, Judged;
  }

  lemma {:induction false} ApplyAllMode(c: Setup, log: Log, known: nat, t: Tables, batch: seq<EdgeStore.Delivery>,
      faults: nat -> Fault, i: nat)
    requires Follows(c, log, t) && i <= |batch| && forall d | d in batch :: d.subject == OwnSubject(c.id)
    requires forall j | i <= j < |batch| :: batch[j].sequence == ProgressOf(t).last + 1 + j - i
    ensures ProgressOf(ApplyAll(c.id, c.oracle, Known(log, known), t, batch, faults, i).tables).mode ==
      ProgressOf(t).mode
    decreases |batch| - i
  {
    hide Follows, ApplyDelivery, Known;
    if i < |batch| {
      var a := ApplyDelivery(c.id, c.oracle, Known(log, known), t, batch[i], true, faults(i));
      ApplyNextMode(c, log, known, t, batch[i], faults(i));
      ApplyDeliveryFollows(c, log, known, t, batch[i], true, faults(i));
      if a.outcome.Some? && !Halts(a.outcome.value) {
        ApplyAllMode(c, log, known, a.tables, batch, faults, i + 1);
      }
    }
  }

  lemma PageBatch(id: EdgeIdentity, page: Page, last: int)
    requires EntriesOk(page, last, |page.entries|)
    ensures var batch := DeliveriesOf(id, page.entries);
      (forall d | d in batch :: d.subject == OwnSubject(id)) && forall j | 0 <= j < |batch| ::
        batch[j].sequence == last + 1 + j
  {
    hide EntryOk;
  }

  /** A pass keeps the mode, unless its last step completes the reconciliation. */
  lemma PassMode(c: Setup, w: World, page: Page, limit: int, faults: nat -> Fault, known: nat)
    requires Inv(c, w)
    ensures var t := w.edge.tables; var p := PassOn(c, w, page, limit, faults, known);
      && (ProgressOf(t).mode.Active? ==> ProgressOf(p.tables).mode.Active? && p.resumed != Some(true))
      && (p.resumed == Some(true) ==> ProgressOf(p.tables).mode.Active?)
  {
    hide Follows, ApplyAll, Known, PageBounds, DeliveryOf;
    var t := w.edge.tables;
    if PageOk(t, page, limit) {
      PageBatch(c.id, page, ProgressOf(t).last);
      ApplyAllMode(c, w.log, known, t, DeliveriesOf(c.id, page.entries), faults, 0);
    }
  }

  // ----- Only the end of the process helps -----

  lemma StepStaysStuck(c: Setup, w: World, e: Event)
    requires Stuck(c, w) && !e.Kill?
    ensures Stuck(c, Step(c, w, e))
  {
    StepKeeps(c, w, e);
    hide Inv, PassOn, EdgeStore.Halted, Known;
    if e.PullPass? {
      PassMode(c, w, e.page, e.limit, e.faults, e.known);
    }
  }

  /** While the process lives a stuck consumer stays stuck, whatever is delivered, committed,
      read or reconciled. */
  lemma {:induction false} StuckUntilKilled(c: Setup, w: World, events: seq<Event>)
    requires Stuck(c, w) && forall i | 0 <= i < |events| :: !events[i].Kill?
    ensures Stuck(c, Run(c, w, events))
    decreases |events|
  {
    hide Stuck, Step;
    if events != [] {
      StepStaysStuck(c, w, events[0]);
      StuckUntilKilled(c, Step(c, w, events[0]), events[1..]);
    }
  }

  // ----- What gets it stuck -----

  /** The live delivery of the next entry, which quarantines it. */
  ghost predicate QuarantiningDelivery(c: Setup, w: World, m: Message, known: nat, f: Fault) {
    && w.phase == Live && !w.edge.halted && f.NoFault?
    && MetadataOk(c.id, m) && m.generation.value == c.id.key.generation
    && QuarantinesNext(c, Known(w.log, known), w.edge.tables, EdgeStore.Delivery(m.sequence.value, m.subject, m.raw))
  }

  /** A pass whose completion took effect while its answer was lost. */
  predicate LostCompletion(c: Setup, w: World, page: Page, limit: int, faults: nat -> Fault, known: nat) {
    && w.phase == Live && w.edge.halted && PageOk(w.edge.tables, page, limit)
    && var batch := DeliveriesOf(c.id, page.entries);
       var a := ApplyAll(c.id, c.oracle, Known(w.log, known), w.edge.tables, batch, faults, 0);
       && a.ok && Completes(a.tables, page.completeThrough, page.highWatermark)
       && faults(|page.entries|).CommitUnknown?
  }

  ghost predicate Strands(c: Setup, w: World, e: Event) {
    match e
    case Deliver(m, known, f) => QuarantiningDelivery(c, w, m, known, f)
    case PullPass(page, limit, faults, known) => LostCompletion(c, w, page, limit, faults, known)
    case _ => false
  }

  /** Of all that can happen to a delivery only the quarantine of the next entry halts
      without saying so in the tables. */
  lemma ApplyStrands(c: Setup, log: Log, t: Tables, d: EdgeStore.Delivery)
    requires Follows(c, log, t) && Exact(log, d) && d.subject == OwnSubject(c.id)
    ensures var j := VerdictOn(c, log[d.sequence - 1]); var a := Apply(t, c.id.key, d, j, false);
      (a.outcome.Some? && Halts(a.outcome.value) && ProgressOf(a.tables).mode.Active?) <==>
        && ProgressOf(t).mode.Active? && d.sequence == ProgressOf(t).last + 1
        && DeliveryOk(c.id.key, d, j) && Quarantines(t.views, d.sequence, j)
  {
    hide Record, DeliveryOk, VerdictOn, Follows, RowOf;
    var s := ProgressOf(t);
    if d.sequence <= s.last {
      RecordedRow(c, log, t, d.sequence);
    } else if d.sequence == s.last + 1 {
      NoRowAhead(c, log, t);
      var j := VerdictOn(c, log[s.last]);
      if Record(t.views, d.sequence, j).Some? {
        RecordOutcome(t.views, d.sequence, j);
      }
    }
  }

  /** The delivery records the next entry and quarantines it. */
  ghost predicate QuarantinesNext(c: Setup, log: Log, t: Tables, d: EdgeStore.Delivery) {
    var s := ProgressOf(t);
    && s.mode.Active? && d.sequence == s.last + 1 && Exact(log, d)
    && DeliveryOk(c.id.key, d, VerdictOn(c, log[d.sequence - 1]))
    && Quarantines(t.views, d.sequence, VerdictOn(c, log[d.sequence - 1]))
  }

  lemma OwnStrands(c: Setup, log: Log, known: nat, e: Edge, d: EdgeStore.Delivery, f: Fault)
    requires Follows(c, log, e.tables) && d.subject == OwnSubject(c.id) && !e.halted
    ensures var h := HandleOwn(c.id, c.oracle, Known(log, known), e, d, f);
      h.edge.halted && ProgressOf(h.edge.tables).mode.Active? <==>
        f.NoFault? && QuarantinesNext(c, Known(log, known), e.tables, d)
  {
    hide Follows, Apply, Known, DeliveryOk, VerdictOn, Quarantines;
    if Exact(Known(log, known), d) {
      ExactKnown(log, known, d);
      ApplyStrands(c, log, e.tables, d);
      JudgedIs(c, Known(log, known)[d.sequence - 1]);
    }
  }

  lemma DeliverStrands(c: Setup, w: World, m: Message, known: nat, f: Fault)
    requires Inv(c, w) && !Stuck(c, w)
    ensures Stuck(c, Step(c, w, Deliver(m, known, f))) <==> QuarantiningDelivery(c, w, m, known, f)
  {
    StepKeeps(c, w, Deliver(m, known, f));
    InvFollows(c, w);
    hide Inv, Follows, HandleOwn, QuarantinesNext, Known, EdgeStore.Halted;
    ForeignMode(w.edge.tables);
    if MetadataOk(c.id, m) && !w.edge.halted {
      OwnStrands(c, w.log, known, w.edge, EdgeStore.Delivery(m.sequence.value, m.subject, m.raw), f);
    }
  }

  lemma ForeignMode(t: Tables)
    ensures !ProgressOf(EdgeStore.Halted(t, 0, "delivery_identity_mismatch")).mode.Active?
  {
  }

  lemma JudgedIs(c: Setup, e: LogEntry)
    ensures Judged(c.id, c.oracle, e, OwnSubject(c.id)) == VerdictOn(c, e)
  {
  }

  lemma PassStrands(c: Setup, w: World, page: Page, limit: int, faults: nat -> Fault, known: nat)
    requires Inv(c, w) && !Stuck(c, w)
    ensures Stuck(c, Step(c, w, PullPass(page, limit, faults, known))) <==>
      LostCompletion(c, w, page, limit, faults, known)
  {
    StepKeeps(c, w, PullPass(page, limit, faults, known));
    hide Inv, ApplyAll, Known, PageBounds, DeliveryOf;
    var t := w.edge.tables;
    if w.phase == Live && w.edge.halted && PageOk(t, page, limit) {
      PageBatch(c.id, page, ProgressOf(t).last);
      InvFollows(c, w);
      ApplyAllMode(c, w.log, known, t, DeliveriesOf(c.id, page.entries), faults, 0);
    }
  }

  lemma InvFollows(c: Setup, w: World)
    requires Inv(c, w)
    ensures Follows(c, w.log, w.edge.tables)
  {
  }

  /** Exactly two steps get a consumer stuck: a live delivery that quarantines, and a
      completion whose answer is lost. */
  lemma StrandsExactly(c: Setup, w: World, e: Event)
    requires Inv(c, w) && !Stuck(c, w)
    ensures Stuck(c, Step(c, w, e)) <==> Strands(c, w, e)
  {
    hide Inv, QuarantiningDelivery, LostCompletion, HandleMessage, PassOn, EdgeStore.Halted;
    match e
    case Deliver(m, known, f) => DeliverStrands(c, w, m, known, f);
    case PullPass(page, limit, faults, known) => PassStrands(c, w, page, limit, faults, known);
    case _ =>
  }

  // ----- Whole runs -----

  /** Step i strands the consumer, and no later step kills the process. */
  ghost predicate StrandedAt(c: Setup, w: World, events: seq<Event>, i: int) {
    && 0 <= i < |events|
    && !Stuck(c, Run(c, w, events[..i])) && Strands(c, Run(c, w, events[..i]), events[i])
    && forall j | i < j < |events| :: !events[j].Kill?
  }

  lemma {:induction false} RunLast(c: Setup, w: World, events: seq<Event>)
    requires events != []
    ensures Run(c, w, events) == Step(c, Run(c, w, events[..|events| - 1]), events[|events| - 1])
    decreases |events|
  {
    hide Step;
    if |events| > 1 {
      var rest := events[1..];
      RunLast(c, Step(c, w, events[0]), rest);
      assert events[..|events| - 1][1..] == rest[..|rest| - 1];
    } else {
      assert events[1..] == [] && events[..0] == [];
    }
  }

  lemma StrandedBefore(c: Setup, w: World, events: seq<Event>, i: int)
    requires events != [] && i < |events| - 1
    ensures var n := |events| - 1;
      StrandedAt(c, w, events, i) <==> StrandedAt(c, w, events[..n], i) && !events[n].Kill?
  {
    hide Stuck, Strands, Run;
    var n := |events| - 1;
    if 0 <= i {
      assert events[..n][..i] == events[..i];
      assert forall j | i < j < n :: events[..n][j] == events[j];
    }
  }

  lemma KillFrees(c: Setup, w: World)
    ensures !Stuck(c, Step(c, w, Kill))
  {
  }

  /** A run leaves the consumer stuck exactly when some step of it strands the consumer and
      the process is not killed after that step. */
  lemma {:induction false} StuckExactly(c: Setup, w: World, events: seq<Event>)
    requires Inv(c, w) && !Stuck(c, w)
    ensures Stuck(c, Run(c, w, events)) <==> exists i :: StrandedAt(c, w, events, i)
    decreases |events|
  {
    hide Stuck, Step, Strands, Inv;
    if events == [] {
      assert forall i :: !StrandedAt(c, w, events, i);
    } else {
      var n := |events| - 1;
      var v := Run(c, w, events[..n]);
      StuckExactly(c, w, events[..n]);
      RunLast(c, w, events);
      RunKeeps(c, w, events[..n]);
      hide Run;
      forall i | i < n
        ensures StrandedAt(c, w, events, i) <==> StrandedAt(c, w, events[..n], i) && !events[n].Kill?
      {
        StrandedBefore(c, w, events, i);
      }
      LastStep(c, v, events[n]);
      assert StrandedAt(c, w, events, n) <==> !Stuck(c, v) && Strands(c, v, events[n]);
      NoneBeyond(c, w, events);
    }
  }

  lemma NoneBeyond(c: Setup, w: World, events: seq<Event>)
    ensures forall i | StrandedAt(c, w, events, i) :: 0 <= i < |events|
  {
    hide Stuck, Strands, Run;
  }

  lemma LastStep(c: Setup, v: World, e: Event)
    requires Inv(c, v)
    ensures Stuck(c, Step(c, v, e)) <==> if Stuck(c, v) then !e.Kill? else Strands(c, v, e)
  {
    hide Stuck, Step, Strands, Inv;
    if !Stuck(c, v) {
      StrandsExactly(c, v, e);
    } else if e.Kill? {
      KillFrees(c, v);
    } else {
      StepStaysStuck(c, v, e);
    }
  }

  // ----- It happens -----

  /** An edge whose tables still hold an envelope of an earlier generation comes up over an
      empty log, and is then delivered that envelope with another commitment. */
  function ConflictRun(e: LogEntry, m: Message): seq<Event> {
    [BeginAuthoritative(NoFault), FreshPass(Page([], 0, 0), 1, NoFaults(), 0), Connect, Grow([e]),
      Deliver(m, 1, NoFault)]
  }

  function MessageOf(c: Setup, sequence: int, e: LogEntry): Message {
    Message(true, OwnSubject(c.id), e.raw, true, Some(1), Some(sequence), Some(c.id.key.generation))
  }

  /** The tables after an edge came up over an empty log. */
  function CameUp(c: Setup): World {
    World([], Live, Edge(Tables(Some(Progress(0, 0, Active, "")), map[], c.base), false), {})
  }

  lemma ComesUp(c: Setup)
    ensures var w := Step(c, Start(c), BeginAuthoritative(NoFault));
      Step(c, Step(c, w, FreshPass(Page([], 0, 0), 1, NoFaults(), 0)), Connect) == CameUp(c)
  {
    var t := EdgeStore.Halted(Tables(None, map[], c.base), 0, "authoritative_reconciliation");
    assert DeliveriesOf(c.id, []) == [];
    assert ApplyAll(c.id, c.oracle, Known([], 0), t, [], NoFaults(), 0) == All(t, true);
  }

  /** Whenever the verifier accepts an entry under an envelope that the tables know with
      another commitment, delivering it strands the consumer. */
  lemma ConflictStrands(c: Setup, e: LogEntry)
    requires VerdictOn(c, e).Accept? && c.id.key.generation > 0 && 0 < |e.raw| <= MAX_ENVELOPE_BYTES
    requires DeliveryOk(c.id.key, Wire(c, 1, e), VerdictOn(c, e))
    requires var p := VerdictOn(c, e).p;
      p.envelopeId in c.base.identity && c.base.identity[p.envelopeId].commitment != p.commitment
    ensures Stuck(c, Run(c, Start(c), ConflictRun(e, MessageOf(c, 1, e))))
  {
    var events := ConflictRun(e, MessageOf(c, 1, e));
    StartInv(c);
    RunKeeps(c, Start(c), events[..4]);
    RunFive(c, Start(c), events);
    ComesUp(c);
    hide Run, Inv, DeliveryOk, VerdictOn, Follows;
    var w := CameUp(c).(log := [e]);
    assert [] + [e] == [e];
    assert Step(c, CameUp(c), Grow([e])) == w;
    assert Quarantines(c.base, 1, VerdictOn(c, e));
    assert Known([e], 1) == [e];
    assert QuarantiningDelivery(c, w, MessageOf(c, 1, e), 1, NoFault);
    DeliverStrands(c, w, MessageOf(c, 1, e), 1, NoFault);
  }

  lemma RunFive(c: Setup, w: World, events: seq<Event>)
    requires |events| == 5
    ensures var v := Step(c, Step(c, Step(c, Step(c, w, events[0]), events[1]), events[2]), events[3]);
      Run(c, w, events[..4]) == v && Run(c, w, events) == Step(c, v, events[4])
  {
    hide Step;
    var four, three, two, one := events[..4], events[..3], events[..2], events[..1];
    RunLast(c, w, events);
    RunLast(c, w, four);
    assert four[..3] == three;
    RunLast(c, w, three);
    assert three[..2] == two;
    RunLast(c, w, two);
    assert two[..1] == one;
    RunLast(c, w, one);
    assert one[..0] == [];
  }

  function Commitment(digit: char): string {
    "sha256:" + seq(64, _ => digit)
  }

  lemma CommitmentValid(digit: char)
    requires '0' <= digit <= '9'
    ensures Authority.ValidCommitment(Commitment(digit)) && Commitment(digit)[7] == digit
  {
  }

  /** Such an edge and such an entry exist: a stuck consumer is reachable. */
  lemma StuckIsReachable()
    ensures exists c, events :: Stuck(c, Run(c, Start(c), events))
  {
    CommitmentValid('1');
    CommitmentValid('2');
    var key := Authority.EdgeKey("edge", 2);
    var binding := Binding(key, EdgeToken(key), 0, 1, Commitment('1'));
    var p := Projection("e", Commitment('2'), CaseBody("case", binding, "d", OpaqueToken("d"), [], 1));
    var base := Views(map["e" := Identity(Commitment('1'), 1, false, None)], map[], map[]);
    var c := Setup(EdgeIdentity("tenant", key), _ => Accept(p), base);
    var e := Authority.Delivery(Authority.CaseKind, "case", "e", Commitment('2'), [0], 1);
    hide Run, Stuck, Authority.ValidCommitment, Commitment;
    assert VerdictOn(c, e) == Accept(p);
    ConflictStrands(c, e);
  }

  /** Over a log the authority wrote no delivery quarantines, so only a lost completion can
      strand the consumer. */
  lemma TruthfulNeverQuarantines(c: Setup, w: World, m: Message, known: nat, f: Fault)
    requires Inv(c, w) && WellOrdered(w.log) && Vouches(c, w.log) && forall i | 0 <= i < |w.log| ::
      Absent(c.base, w.log[i])
    ensures !QuarantiningDelivery(c, w, m, known, f)
  {
    hide WellOrdered, Vouches, Absent, DeliveryOk, Record, VerdictOn, RowsAre, AckedCovered, Fold;
    var n := ProgressOf(w.edge.tables).last;
    if n < |w.log| {
      TruthfulLogIsClean(c, w.log, n + 1);
      CleanSplit(c, w.log, 0, n, n + 1);
      CleanOne(c, w.log, n);
    }
  }

  /** An edge that came up is sent a message of another generation, which halts it durably;
      the completion of its recovery takes effect and its answer is lost. */
  function LostCompletionRun(c: Setup): seq<Event> {
    var foreign := Message(true, OwnSubject(c.id), [0], true, Some(1), Some(1), Some(c.id.key.generation + 1));
    [BeginAuthoritative(NoFault), FreshPass(Page([], 0, 0), 1, NoFaults(), 0), Connect, Deliver(foreign, 0, NoFault),
     PullPass(Page([], 0, 0), 1, _ => CommitUnknown, 0)]
  }

  /** That strands every edge, whatever its verifier and its tables. */
  lemma LostCompletionStrands(c: Setup)
    requires c.id.key.generation > 0
    ensures Stuck(c, Run(c, Start(c), LostCompletionRun(c)))
  {
    var events := LostCompletionRun(c);
    StartInv(c);
    RunKeeps(c, Start(c), events[..4]);
    RunFive(c, Start(c), events);
    ComesUp(c);
    hide Run, Inv, Follows;
    var t := EdgeStore.Halted(CameUp(c).edge.tables, 0, "delivery_identity_mismatch");
    var w := CameUp(c).(edge := Edge(t, true));
    assert Step(c, CameUp(c), events[3]) == w;
    assert DeliveriesOf(c.id, []) == [];
    assert ApplyAll(c.id, c.oracle, Known([], 0), t, [], _ => CommitUnknown, 0) == All(t, true);
    PassStrands(c, w, Page([], 0, 0), 1, _ => CommitUnknown, 0);
  }

  // ----- What handling does to the flag -----

  /** Handling an own, exact and well-formed delivery halts a running consumer exactly on a
      gap, on the next entry while a durable halt stands, and on a quarantine; it is
      acknowledged unless it is the next entry and cannot be recorded. */
  lemma HandlingHaltsExactly(c: Setup, log: Log, e: Edge, d: EdgeStore.Delivery)
    requires Follows(c, log, e.tables) && !e.halted && d.subject == OwnSubject(c.id) && Exact(log, d)
    requires DeliveryOk(c.id.key, d, VerdictOn(c, log[d.sequence - 1]))
    ensures var h := HandleOwn(c.id, c.oracle, log, e, d, NoFault); var s := ProgressOf(e.tables);
      var recorded := Record(e.tables.views, d.sequence, VerdictOn(c, log[d.sequence - 1]));
      && (h.edge.halted <==>
            || d.sequence > s.last + 1
            || (d.sequence == s.last + 1 && s.mode == ReconciliationRequired)
            || (d.sequence == s.last + 1 && recorded.Some? && recorded.value.verdict == Quarantined))
      && (!h.acked <==> d.sequence == s.last + 1 && s.mode == Active && recorded.None?)
  {
    JudgedIs(c, log[d.sequence - 1]);
    var s := ProgressOf(e.tables);
    var j := VerdictOn(c, log[d.sequence - 1]);
    hide DeliveryOk, VerdictOn, Follows, RowOf, Persist;
    if d.sequence <= s.last {
      RecordedRow(c, log, e.tables, d.sequence);
    } else if d.sequence == s.last + 1 {
      NoRowAhead(c, log, e.tables);
    }
  }

  // ----- The way out -----

  /** Kill the process, start it again, read the rest of the log in one page and connect. */
  function Restarting(log: Log, last: nat, limit: nat): seq<Event> {
    [Kill, BeginAuthoritative(NoFault), FreshPass(PageOf(log, last, limit), limit, NoFaults(), |log|), Connect]
  }

  /** A restart brings every edge back, stuck or not, when the rest of the log is clean: it
      consumes again, not halted, and has the whole log. */
  lemma RestartResumes(c: Setup, w: World, limit: nat)
    requires Follows(c, w.log, w.edge.tables) && LogOk(w.log)
    requires 0 <= ProgressOf(w.edge.tables).last <= |w.log| < ProgressOf(w.edge.tables).last + limit
    requires Clean(c, w.log, ProgressOf(w.edge.tables).last, |w.log|)
    ensures var v := Run(c, w, Restarting(w.log, ProgressOf(w.edge.tables).last, limit));
      && v.phase == Live && !v.edge.halted && v.log == w.log && v.acked == w.acked && Follows(c, v.log, v.edge.tables)
      && v.edge.tables.progress == Some(Progress(|w.log|, |w.log|, Active, ""))
  {
    var n := ProgressOf(w.edge.tables).last;
    BeginsAfresh(c, w);
    hide Follows, LogOk, Clean, Step, Run;
    RunRestarting(c, w, Restarting(w.log, n, limit));
    var v := Step(c, Step(c, w, Kill), BeginAuthoritative(NoFault));
    FaultlessPass(c, w.log, v.edge.tables, limit);
    RepairsInOnePass(c, v, limit);
  }

  lemma BeginsAfresh(c: Setup, w: World)
    requires Follows(c, w.log, w.edge.tables)
    ensures var v := Step(c, Step(c, w, Kill), BeginAuthoritative(NoFault)); var s := ProgressOf(v.edge.tables);
      && v == World(w.log, Down, Edge(v.edge.tables, w.edge.halted), w.acked) && Follows(c, w.log, v.edge.tables)
      && s.mode == ReconciliationRequired && s.last == ProgressOf(w.edge.tables).last
  {
    Bounds(c, w.log, w.edge.tables);
    HaltedFollows(c, w.log, w.edge.tables, ProgressOf(w.edge.tables).high, "authoritative_reconciliation");
    hide Follows;
  }

  lemma RepairsInOnePass(c: Setup, v: World, limit: nat)
    requires v.phase == Down && ProgressOf(v.edge.tables).mode == ReconciliationRequired
    requires 0 <= ProgressOf(v.edge.tables).last <= |v.log|
    requires var page := PageOf(v.log, ProgressOf(v.edge.tables).last, limit);
      var p := ReconcilePass(c.id, c.oracle, v.log, v.edge.tables, page, limit, NoFaults());
      p.resumed == Some(true) && p.tables.progress == Some(Progress(|v.log|, |v.log|, Active, ""))
    ensures var page := PageOf(v.log, ProgressOf(v.edge.tables).last, limit);
      var u := Step(c, Step(c, v, FreshPass(page, limit, NoFaults(), |v.log|)), Connect);
      && u.phase == Live && !u.edge.halted && u.log == v.log && u.acked == v.acked
      && u.edge.tables == ReconcilePass(c.id, c.oracle, v.log, v.edge.tables, page, limit, NoFaults()).tables
  {
    hide ReconcilePass, PageOf;
  }

  lemma RunRestarting(c: Setup, w: World, events: seq<Event>)
    requires |events| == 4
    ensures Run(c, w, events) ==
      Step(c, Step(c, Step(c, Step(c, w, events[0]), events[1]), events[2]), events[3])
  {
    hide Step;
    var three, two, one := events[..3], events[..2], events[..1];
    RunLast(c, w, events);
    RunLast(c, w, three);
    assert three[..2] == two;
    RunLast(c, w, two);
    assert two[..1] == one;
    RunLast(c, w, one);
    assert one[..0] == [];
  }

  /** Every own delivery that is acknowledged is on record as such. */
  lemma AcknowledgedIsKept(c: Setup, w: World, m: Message, known: nat, f: Fault)
    requires w.phase == Live
    ensures var h := HandleMessage(c.id, c.oracle, Known(w.log, known), w.edge, m, f);
      var v := Step(c, w, Deliver(m, known, f));
      && v.edge == h.edge && v.log == w.log && v.phase == Live
      && (h.acked && m.generation == Some(c.id.key.generation) ==>
            v.acked == w.acked + {EdgeStore.Delivery(m.sequence.value, m.subject, m.raw)})
      && (!h.acked || m.generation != Some(c.id.key.generation) ==> v.acked == w.acked)
  {
    hide HandleOwn, HandleForeign, Known;
  }

  /** A process is repaired only by a pass that completed: its tables are active then, and
      hold everything up to the high watermark. */
  lemma RepairedIsActive(c: Setup, w: World, e: Event)
    requires w.phase != Repaired && Step(c, w, e).phase == Repaired
    ensures var s := ProgressOf(Step(c, w, e).edge.tables); s.mode == Active && s.last == s.high && w.phase == Down
  {
    hide ApplyAll, HandleMessage, Known;
  }

  /** What the process does not do: reconcile afresh once repaired or with a halted consumer,
      consume or pull before it is live, pull while it is not halted, connect unrepaired. */
  lemma NotEnabled(c: Setup, w: World, m: Message, page: Page, limit: int, faults: nat -> Fault, known: nat, f: Fault)
    ensures w.phase == Repaired || (w.phase == Live && w.edge.halted) ==>
      Step(c, w, BeginAuthoritative(f)) == w && Step(c, w, FreshPass(page, limit, faults, known)) == w
    ensures w.phase != Live ==> Step(c, w, Deliver(m, known, f)) == w
    ensures w.phase != Live || !w.edge.halted ==> Step(c, w, PullPass(page, limit, faults, known)) == w
    ensures w.phase != Repaired ==> Step(c, w, Connect) == w
  {
    hide ReconcilePass, HandleMessage;
  }
}
