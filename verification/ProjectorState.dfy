/** The durable state of the Buzz projector, internal/collab/buzz/state.go, and what it
    must satisfy at every moment, whichever step the process last took. */
module ProjectorState {
  import opened Common
  import Paging

  // ----- Facts, cards and events -----

  datatype Family = CaseFamily | AdviceFamily | OtherFamily

  /** A verified envelope; complete says that the fields a projection needs are there. */
  datatype Envelope = Envelope(id: string, family: Family, caseId: string, domain: string, text: string, complete: bool)

  datatype Fact = Fact(envelopeId: string, commitment: string, raw: Bytes)

  datatype Card = Card(family: Family, caseId: string, envelopeId: string, commitment: string, text: string)

  /** A signed event.  Its identifier is the digest of these fields, so an event stands
      for its identifier; root is the event it replies to. */
  datatype Event = Event(createdAt: int, channel: string, root: Option<Event>, card: Card)

  const SECOND := 1_000_000_000
  const PUBLISH_HORIZON := 840
  const CARD_TEXT := 1024

  function Bounded(text: string): string {
    if |text| <= CARD_TEXT then text else text[..CARD_TEXT]
  }

  function CardOf(e: Envelope, commitment: string): Card {
    Card(e.family, e.caseId, e.id, commitment, Bounded(e.text))
  }

  /** The write deadline, in nanoseconds. */
  function Deadline(e: Event): int {
    (e.createdAt + PUBLISH_HORIZON) * SECOND
  }

  predicate Expired(e: Event, now: int) {
    now >= Deadline(e)
  }

  /** An event may be sent for fourteen minutes from its date, and no longer. */
  lemma DeadlineMeans(e: Event, now: int)
    ensures Expired(e, now) <==> now - e.createdAt * 1_000_000_000 >= 14 * 60 * 1_000_000_000
  {
  }

  // ----- State -----

  datatype Status = New | Prepared | Published | Retry | Poison

  datatype Delivery = Delivery(wire: Option<Event>, root: Option<Event>, status: Status, attempts: nat,
      superseded: seq<Event>)

  const NO_DELIVERY := Delivery(None, None, New, 0, [])

  datatype State = State(checkpoint: int, high: int, roots: map<string, Event>, records: map<int, Delivery>)

  const EMPTY_STATE := State(0, 0, map[], map[])

  function EntryOf(records: map<int, Delivery>, q: int): Delivery {
    if q in records then records[q] else NO_DELIVERY
  }

  /** recordFailure. */
  function Failed(d: Delivery, maxAttempts: int): Delivery {
    d.(attempts := d.attempts + 1, status := if d.attempts + 1 >= maxAttempts then Poison else Retry)
  }

  /** caseDelivery: some record holds this event. */
  ghost predicate Holds(records: map<int, Delivery>, e: Event) {
    exists p :: HeldAt(records, p, e)
  }

  predicate HeldAt(records: map<int, Delivery>, p: int, e: Event) {
    p in records && records[p].wire == Some(e)
  }

  // ----- Setting -----

  /** facts is the authority's history by revision, verify the committed-bytes verifier. */
  datatype Setup = Setup(facts: map<int, Fact>, verify: Bytes -> Option<Envelope>, maxAttempts: int)

  predicate CaseFact(c: Setup, q: int, caseId: string) {
    q in c.facts && c.verify(c.facts[q].raw).Some? &&
    c.verify(c.facts[q].raw).value.family == CaseFamily && c.verify(c.facts[q].raw).value.caseId == caseId
  }

  /** What the authority guarantees of its facts: an envelope and a case are committed once. */
  ghost predicate SetupOk(c: Setup) {
    && c.maxAttempts > 0
    && (forall q | q in c.facts :: q > 0 && c.facts[q].raw != [])
    && (forall p, q | p in c.facts && q in c.facts && c.facts[p].envelopeId == c.facts[q].envelopeId :: p == q)
    && (forall p, q, id | CaseFact(c, p, id) && CaseFact(c, q, id) :: p == q)
  }

  /** The fact the projector works on next. */
  predicate Next(c: Setup, checkpoint: int, q: int) {
    Paging.LeastAbove(c.facts.Keys, checkpoint, q)
  }

  /** It has been taken up: the watermark has reached it. */
  predicate Due(c: Setup, s: State, q: int) {
    Next(c, s.checkpoint, q) && q <= s.high
  }

  // ----- The invariant -----

  /** The event answers a case event that an earlier record holds, in the same channel. */
  ghost predicate Answers(records: map<int, Delivery>, q: int, caseId: string, e: Event) {
    && e.root.Some? && e.root.value.card.family == CaseFamily && e.root.value.card.caseId == caseId
    && e.root.value.channel == e.channel
    && exists p :: p < q && HeldAt(records, p, e.root.value)
  }

  /** The event of record q is the card of its fact; a case is its own case's root, an
      advice answers its case's root. */
  ghost predicate WireOk(c: Setup, records: map<int, Delivery>, roots: map<string, Event>, q: int, e: Event) {
    && q in c.facts && c.verify(c.facts[q].raw).Some?
    && var env := c.verify(c.facts[q].raw).value;
       && env.id == c.facts[q].envelopeId && e.card == CardOf(env, c.facts[q].commitment)
       && match env.family
          case CaseFamily => e.root.None? && env.caseId in roots && roots[env.caseId] == e
          case AdviceFamily => Answers(records, q, env.caseId, e)
          case OtherFamily => false
  }

  /** Nothing superseded is at the relay or can be sent there again. */
  ghost predicate Retired(superseded: seq<Event>, relay: set<Event>, now: int) {
    forall i | 0 <= i < |superseded| :: Expired(superseded[i], now) && superseded[i] !in relay
  }

  predicate StatusOk(d: Delivery, maxAttempts: int, relay: set<Event>, now: int) {
    && (d.status != Poison ==> d.attempts < maxAttempts)
    && (d.wire.None? ==> d.root.None? && d.status != Published)
    && (d.wire.Some? ==> d.root == d.wire.value.root && d.wire.value.createdAt * SECOND <= now)
    && (d.status == Published ==> d.wire.Some? && d.wire.value in relay)
  }

  ghost predicate RecordOk(c: Setup, records: map<int, Delivery>, roots: map<string, Event>, q: int, relay: set<Event>,
      now: int)
    requires q in records
  {
    && StatusOk(records[q], c.maxAttempts, relay, now) && Retired(records[q].superseded, relay, now)
    && (records[q].wire.Some? ==> WireOk(c, records, roots, q, records[q].wire.value))
  }

  ghost predicate RecordsOk(c: Setup, records: map<int, Delivery>, roots: map<string, Event>, relay: set<Event>,
      now: int) {
    forall q | q in records :: RecordOk(c, records, roots, q, relay, now)
  }

  ghost predicate RootsOk(records: map<int, Delivery>, roots: map<string, Event>) {
    forall id | id in roots :: Holds(records, roots[id]) && roots[id].card.family == CaseFamily
      && roots[id].card.caseId == id
  }

  /** The relay accepted no event but those the state holds. */
  ghost predicate RelayOk(records: map<int, Delivery>, relay: set<Event>) {
    forall e | e in relay :: Holds(records, e)
  }

  predicate Settled(d: Delivery) {
    d.status == Published || d.status == Poison
  }

  /** Everything up to the checkpoint is published or parked; one record at most is beyond
      it; the watermark is the newest fact taken up. */
  ghost predicate PositionOk(c: Setup, s: State) {
    && (forall q | q in s.records :: q in c.facts && (q <= s.checkpoint || Next(c, s.checkpoint, q)))
    && (forall q | q in c.facts && q <= s.checkpoint :: q in s.records && Settled(s.records[q]))
    && (forall q | q in s.records :: q <= s.high)
    && s.checkpoint <= s.high && (s.high == s.checkpoint || Next(c, s.checkpoint, s.high))
  }

  ghost predicate Good(c: Setup, s: State, relay: set<Event>, now: int) {
    && PositionOk(c, s) && RecordsOk(c, s.records, s.roots, relay, now)
    && RootsOk(s.records, s.roots) && RelayOk(s.records, relay)
  }

  // ----- Time and the relay -----

  lemma LaterGood(c: Setup, s: State, relay: set<Event>, now: int, later: int)
    requires Good(c, s, relay, now) && now <= later
    ensures Good(c, s, relay, later)
  {
    hide PositionOk, RootsOk, RelayOk, WireOk;
    forall q | q in s.records
      ensures RecordOk(c, s.records, s.roots, q, relay, later)
    {
      assert RecordOk(c, s.records, s.roots, q, relay, now);
    }
  }

  /** No record lists the event as superseded. */
  ghost predicate Unretired(records: map<int, Delivery>, e: Event) {
    forall q | q in records :: e !in records[q].superseded
  }

  /** What was superseded had expired, so an event before its deadline was not. */
  lemma FreshUnretired(c: Setup, s: State, relay: set<Event>, now: int, e: Event)
    requires Good(c, s, relay, now) && !Expired(e, now)
    ensures Unretired(s.records, e)
  {
    hide PositionOk, RootsOk, RelayOk, WireOk, Expired;
    forall q | q in s.records
      ensures e !in s.records[q].superseded
    {
      assert RecordOk(c, s.records, s.roots, q, relay, now);
    }
  }

  /** The relay may come to accept any event that the state holds and never superseded. */
  lemma AcceptedGood(c: Setup, s: State, relay: set<Event>, now: int, e: Event)
    requires Good(c, s, relay, now) && Holds(s.records, e) && Unretired(s.records, e)
    ensures Good(c, s, relay + {e}, now)
  {
    hide PositionOk, RootsOk, WireOk, Holds, Expired;
    forall q | q in s.records
      ensures RecordOk(c, s.records, s.roots, q, relay + {e}, now)
    {
      assert RecordOk(c, s.records, s.roots, q, relay, now);
    }
  }

  // ----- Changing the record beyond the checkpoint -----

  lemma NextIsTop(c: Setup, s: State, q: int)
    requires PositionOk(c, s) && Next(c, s.checkpoint, q)
    ensures forall p | p in s.records && p != q :: p < q
  {
    forall p | p in s.records && p != q
      ensures p < q
    {
      assert p <= s.checkpoint || Next(c, s.checkpoint, p);
    }
  }

  lemma PositionReplaced(c: Setup, s: State, q: int, d: Delivery, roots: map<string, Event>)
    requires PositionOk(c, s) && Due(c, s, q)
    ensures PositionOk(c, s.(records := s.records[q := d], roots := roots))
  {
  }

  /** The other records do not depend on the record at the top, whose event alone may
      move its own case's root. */
  lemma OtherRecordOk(c: Setup, s: State, relay: set<Event>, now: int, q: int, d: Delivery, roots: map<string, Event>,
      p: int)
    requires SetupOk(c) && Good(c, s, relay, now) && Due(c, s, q) && p in s.records && p != q
    requires forall id | id in s.roots && !CaseFact(c, q, id) :: id in roots && roots[id] == s.roots[id]
    ensures RecordOk(c, s.records[q := d], roots, p, relay, now)
  {
    hide RootsOk, RelayOk, Retired, StatusOk;
    NextIsTop(c, s, q);
    assert RecordOk(c, s.records, s.roots, p, relay, now);
    if s.records[p].wire.Some? {
      OtherWireOk(c, s.records, s.roots, q, d, roots, p, s.records[p].wire.value);
    }
  }

  lemma OtherWireOk(c: Setup, records: map<int, Delivery>, former: map<string, Event>, q: int, d: Delivery,
      roots: map<string, Event>, p: int, e: Event)
    requires SetupOk(c) && p < q && WireOk(c, records, former, p, e)
    requires forall id | id in former && !CaseFact(c, q, id) :: id in roots && roots[id] == former[id]
    ensures WireOk(c, records[q := d], roots, p, e)
  {
    var env := c.verify(c.facts[p].raw).value;
    if env.family == CaseFamily {
      assert CaseFact(c, p, env.caseId);
    } else {
      var r :| r < p && HeldAt(records, r, e.root.value);
      assert HeldAt(records[q := d], r, e.root.value);
    }
  }

  /** The record beyond the checkpoint changes but keeps its event. */
  lemma TopUpdated(c: Setup, s: State, relay: set<Event>, now: int, q: int, d: Delivery)
    requires SetupOk(c) && Good(c, s, relay, now) && Due(c, s, q)
    requires d.wire == EntryOf(s.records, q).wire && d.superseded == EntryOf(s.records, q).superseded
    requires StatusOk(d, c.maxAttempts, relay, now)
    ensures Good(c, s.(records := s.records[q := d]), relay, now)
  {
    PositionReplaced(c, s, q, d, s.roots);
    TopHolds(s.records, q, d);
    hide PositionOk, StatusOk, Holds, SetupOk;
    var t := s.(records := s.records[q := d]);
    forall p | p in t.records
      ensures RecordOk(c, t.records, t.roots, p, relay, now)
    {
      if p != q {
        OtherRecordOk(c, s, relay, now, q, d, s.roots, p);
      } else {
        TopWireKept(c, s, relay, now, q, d);
      }
    }
  }

  lemma TopHolds(records: map<int, Delivery>, q: int, d: Delivery)
    requires d.wire == EntryOf(records, q).wire
    ensures forall e | Holds(records, e) :: Holds(records[q := d], e)
  {
    forall e | Holds(records, e)
      ensures Holds(records[q := d], e)
    {
      var p :| HeldAt(records, p, e);
      assert HeldAt(records[q := d], p, e);
    }
  }

  lemma TopWireKept(c: Setup, s: State, relay: set<Event>, now: int, q: int, d: Delivery)
    requires Good(c, s, relay, now)
    requires d.wire == EntryOf(s.records, q).wire && d.superseded == EntryOf(s.records, q).superseded
    ensures Retired(d.superseded, relay, now) && (d.wire.Some? ==>
      WireOk(c, s.records[q := d], s.roots, q, d.wire.value))
  {
    hide PositionOk, RelayOk, RootsOk, StatusOk, Retired;
    assert Retired([], relay, now) by {
      NothingRetired(relay, now);
    }
    if q in s.records {
      assert RecordOk(c, s.records, s.roots, q, relay, now);
      if d.wire.Some? {
        SelfWireOk(c, s.records, s.roots, q, d, s.roots, d.wire.value);
      }
    }
  }

  lemma NothingRetired(relay: set<Event>, now: int)
    ensures Retired([], relay, now)
  {
  }

  /** The events of other records are enough for a record's own event to be in order. */
  lemma SelfWireOk(c: Setup, records: map<int, Delivery>, former: map<string, Event>, q: int, d: Delivery,
      roots: map<string, Event>, e: Event)
    requires WireOk(c, records, former, q, e) && forall id | id in former && former[id] == e ::
      id in roots && roots[id] == e
    ensures WireOk(c, records[q := d], roots, q, e)
  {
    var env := c.verify(c.facts[q].raw).value;
    if env.family == AdviceFamily {
      var r :| r < q && HeldAt(records, r, e.root.value);
      assert HeldAt(records[q := d], r, e.root.value);
    }
  }

  /** The roots once an event is prepared: a case event becomes its case's root. */
  function RootsWith(roots: map<string, Event>, e: Event): map<string, Event> {
    if e.card.family == CaseFamily then roots[e.card.caseId := e] else roots
  }

  /** The record beyond the checkpoint gets a new event, its old one being nowhere. */
  lemma TopReplaced(c: Setup, s: State, relay: set<Event>, now: int, q: int, d: Delivery)
    requires SetupOk(c) && Good(c, s, relay, now) && Due(c, s, q)
    requires d.wire.Some? && WireOk(c, s.records, RootsWith(s.roots, d.wire.value), q, d.wire.value)
    requires StatusOk(d, c.maxAttempts, relay, now) && Retired(d.superseded, relay, now)
    requires EntryOf(s.records, q).wire.Some? ==> EntryOf(s.records, q).wire.value !in relay
    ensures Good(c, s.(records := s.records[q := d], roots := RootsWith(s.roots, d.wire.value)), relay, now)
  {
    hide PositionOk, StatusOk, RelayOk, RootsOk, WireOk, Retired, SetupOk, RootsWith, RecordsOk, Due;
    var e := d.wire.value;
    var roots := RootsWith(s.roots, e);
    PositionReplaced(c, s, q, d, roots);
    ReplacedRelay(s.records, relay, q, d);
    ReplacedRoots(c, s, relay, now, q, d);
    SelfWireOk(c, s.records, roots, q, d, roots, e);
    RootsFrame(c, s.records, s.roots, q, e);
    AllRecordsOk(c, s, relay, now, q, d, roots);
  }

  lemma RootsFrame(c: Setup, records: map<int, Delivery>, roots: map<string, Event>, q: int, e: Event)
    requires WireOk(c, records, RootsWith(roots, e), q, e)
    ensures forall id | id in roots && !CaseFact(c, q, id) ::
      id in RootsWith(roots, e) && RootsWith(roots, e)[id] == roots[id]
  {
    hide Answers;
  }

  lemma AllRecordsOk(c: Setup, s: State, relay: set<Event>, now: int, q: int, d: Delivery, roots: map<string, Event>)
    requires SetupOk(c) && Good(c, s, relay, now) && Due(c, s, q) && d.wire.Some?
    requires forall id | id in s.roots && !CaseFact(c, q, id) :: id in roots && roots[id] == s.roots[id]
    requires StatusOk(d, c.maxAttempts, relay, now) && Retired(d.superseded, relay, now)
    requires WireOk(c, s.records[q := d], roots, q, d.wire.value)
    ensures RecordsOk(c, s.records[q := d], roots, relay, now)
  {
    hide PositionOk, StatusOk, RelayOk, RootsOk, WireOk, Retired, SetupOk, Due;
    var records := s.records[q := d];
    forall p | p in records
      ensures RecordOk(c, records, roots, p, relay, now)
    {
      if p != q {
        OtherRecordOk(c, s, relay, now, q, d, roots, p);
      }
    }
  }

  lemma ReplacedRelay(records: map<int, Delivery>, relay: set<Event>, q: int, d: Delivery)
    requires RelayOk(records, relay) && (EntryOf(records, q).wire.Some? ==> EntryOf(records, q).wire.value !in relay)
    ensures RelayOk(records[q := d], relay)
  {
    forall e | e in relay
      ensures Holds(records[q := d], e)
    {
      var p :| HeldAt(records, p, e);
      assert HeldAt(records[q := d], p, e);
    }
  }

  lemma ReplacedRoots(c: Setup, s: State, relay: set<Event>, now: int, q: int, d: Delivery)
    requires SetupOk(c) && Good(c, s, relay, now) && d.wire.Some?
    requires WireOk(c, s.records, RootsWith(s.roots, d.wire.value), q, d.wire.value)
    ensures RootsOk(s.records[q := d], RootsWith(s.roots, d.wire.value))
  {
    hide PositionOk, RelayOk, StatusOk, Retired;
    var roots := RootsWith(s.roots, d.wire.value);
    forall id | id in roots
      ensures Holds(s.records[q := d], roots[id]) && roots[id].card.family == CaseFamily && roots[id].card.caseId == id
    {
      if id in s.roots && roots[id] == s.roots[id] {
        RootHolder(c, s, relay, now, id);
        var p :| HeldAt(s.records, p, roots[id]) && CaseFact(c, p, id);
        if p == q {
          assert HeldAt(s.records[q := d], q, d.wire.value);
        } else {
          assert HeldAt(s.records[q := d], p, roots[id]);
        }
      } else {
        assert HeldAt(s.records[q := d], q, d.wire.value);
      }
    }
  }

  /** A root is held by the record of its case's fact. */
  lemma RootHolder(c: Setup, s: State, relay: set<Event>, now: int, id: string)
    requires Good(c, s, relay, now) && id in s.roots
    ensures exists p :: HeldAt(s.records, p, s.roots[id]) && CaseFact(c, p, id)
  {
    hide PositionOk, RelayOk, StatusOk, Retired;
    var p :| HeldAt(s.records, p, s.roots[id]);
    assert RecordOk(c, s.records, s.roots, p, relay, now);
    assert CaseFact(c, p, id);
  }

  // ----- Moving on -----

  lemma CheckpointMoves(c: Setup, s: State, relay: set<Event>, now: int, q: int)
    requires Good(c, s, relay, now) && Due(c, s, q) && q in s.records && Settled(s.records[q])
    ensures Good(c, s.(checkpoint := q), relay, now)
  {
    hide RecordsOk, RootsOk, RelayOk;
  }

  /** How many more failed runs the record can cost before it is parked. */
  function Budget(d: Delivery, maxAttempts: int): int {
    if d.status == Poison then 0
    else if d.wire.None? then 2 * maxAttempts - 1 - d.attempts
    else maxAttempts - d.attempts
  }

  /** A failed run counts one failure: on the event the record has, or on one that this
      very run prepared, which starts the count afresh. */
  predicate FailsTo(d: Delivery, later: Delivery, maxAttempts: int) {
    d.status != Poison &&
    (later == Failed(d, maxAttempts) ||
     (d.wire.None? && later.wire.Some? &&
      later == Failed(Delivery(later.wire, later.wire.value.root, Prepared, 0, []), maxAttempts)))
  }

  lemma FailureSpends(d: Delivery, later: Delivery, maxAttempts: int)
    requires FailsTo(d, later, maxAttempts) && d.attempts < maxAttempts
    ensures Budget(later, maxAttempts) < Budget(d, maxAttempts)
  {
  }

  /** The slowest way to be parked: one failure short of the limit before the event is
      prepared, and then the limit. */
  function Slowest(e: Event, maxAttempts: nat, i: nat): Delivery {
    if i < maxAttempts then Delivery(None, None, if i == 0 then New else Retry, i, [])
    else
      var attempts := i - maxAttempts + 1;
      Delivery(Some(e), e.root, if attempts >= maxAttempts then Poison else Retry, attempts, [])
  }

  /** The budget can be used up to the last run: twice the limit less one failures, and
      parked only by the last. */
  lemma BudgetIsAttained(e: Event, maxAttempts: nat)
    requires maxAttempts > 0
    ensures Slowest(e, maxAttempts, 0) == NO_DELIVERY && Budget(NO_DELIVERY, maxAttempts) == 2 * maxAttempts - 1
    ensures forall i | 0 <= i < 2 * maxAttempts - 1 ::
      FailsTo(Slowest(e, maxAttempts, i), Slowest(e, maxAttempts, i + 1), maxAttempts)
    ensures Slowest(e, maxAttempts, 2 * maxAttempts - 1).status == Poison
  {
    forall i: nat | i < 2 * maxAttempts - 1
      ensures FailsTo(Slowest(e, maxAttempts, i), Slowest(e, maxAttempts, i + 1), maxAttempts)
    {
      if i == maxAttempts - 1 {
        var later := Slowest(e, maxAttempts, i + 1);
        assert later == Failed(Delivery(later.wire, later.wire.value.root, Prepared, 0, []), maxAttempts);
      } else {
        assert Slowest(e, maxAttempts, i + 1) == Failed(Slowest(e, maxAttempts, i), maxAttempts);
      }
    }
  }

  // ----- What it means -----

  /** The event tells the fact: its identifiers and commitment, the family and case of its
      verified envelope, and at most the first 1024 characters of its public text. */
  predicate Tells(c: Setup, q: int, e: Event) {
    && q in c.facts && c.verify(c.facts[q].raw).Some?
    && var env := c.verify(c.facts[q].raw).value;
       && env.id == c.facts[q].envelopeId == e.card.envelopeId && e.card.commitment == c.facts[q].commitment
       && e.card.family == env.family && e.card.caseId == env.caseId
       && (|env.text| <= 1024 ==> e.card.text == env.text)
       && (|env.text| > 1024 ==> |e.card.text| == 1024 && e.card.text <= env.text)
  }

  /** Every event the state holds tells the fact of its record. */
  lemma EventTellsFact(c: Setup, s: State, relay: set<Event>, now: int, q: int)
    requires Good(c, s, relay, now) && q in s.records && s.records[q].wire.Some?
    ensures Tells(c, q, s.records[q].wire.value)
  {
    hide PositionOk, RootsOk, RelayOk, Retired, StatusOk, Answers;
    assert RecordOk(c, s.records, s.roots, q, relay, now);
  }

  /** And so does every event the relay accepted. */
  lemma AcceptedTellsFact(c: Setup, s: State, relay: set<Event>, now: int, e: Event)
    requires Good(c, s, relay, now) && e in relay
    ensures exists q :: Tells(c, q, e)
  {
    hide PositionOk, RootsOk, RecordsOk, Tells;
    var q :| HeldAt(s.records, q, e);
    EventTellsFact(c, s, relay, now, q);
  }

  /** The relay holds at most one event for a fact. */
  lemma OneEventPerFact(c: Setup, s: State, relay: set<Event>, now: int, a: Event, b: Event)
    requires SetupOk(c) && Good(c, s, relay, now) && a in relay && b in relay && a.card.envelopeId == b.card.envelopeId
    ensures a == b
  {
    hide PositionOk, RootsOk, StatusOk, Retired;
    var p :| HeldAt(s.records, p, a);
    var q :| HeldAt(s.records, q, b);
    assert RecordOk(c, s.records, s.roots, p, relay, now) && RecordOk(c, s.records, s.roots, q, relay, now);
  }

  /** An advice replies to its case's current root, in that event's channel. */
  lemma AdviceRootIsCurrent(c: Setup, s: State, relay: set<Event>, now: int, q: int)
    requires SetupOk(c) && Good(c, s, relay, now) && q in s.records && s.records[q].wire.Some?
    requires s.records[q].wire.value.card.family == AdviceFamily
    ensures var e := s.records[q].wire.value;
      && e.card.caseId in s.roots && s.records[q].root == e.root == Some(s.roots[e.card.caseId])
      && e.channel == s.roots[e.card.caseId].channel
  {
    hide PositionOk, RootsOk, Retired, RelayOk;
    var e := s.records[q].wire.value;
    assert RecordOk(c, s.records, s.roots, q, relay, now);
    var p :| p < q && HeldAt(s.records, p, e.root.value);
    assert RecordOk(c, s.records, s.roots, p, relay, now);
  }
}
