/** The Buzz projector, internal/collab/buzz/projector.go, and the relay client it
    publishes through, internal/collab/buzz/stock_client.go.

    The store, the relay, the clock, the signer and the operator's channels are the
    environment: each may answer in any way, and the process may die at any of those
    calls.  The relay is honest about what it holds, and what a POST does it does
    before the call ends. */
module Projector {
  import opened Common
  import Paging
  import opened ProjectorState

  datatype Saved = Stored | StoreFailed | StoreCrashed
  datatype PostAnswer = Acknowledged | Ambiguous | NotSent | PostCrashed
  datatype QueryAnswer = Found | Absent | QueryFailed | QueryCrashed
  datatype PublishResult = PublishOk | PublishError | ExpiredAbsent | PublishCrashed

  /** How the work on one fact ended. */
  datatype Step = Done | StepFailed | StoreStopped | Crashed

  /** How a run ended: clean means that neither the store failed, nor the process died,
      nor an event was superseded. */
  datatype RunResult = RunResult(clean: bool, facts: nat)

  class Projector {
    const c: Setup

    /** A calm environment answers every call well, and no time passes; any other answers as
        it likes. */
    const calm: bool

    var durable: State
    var relay: set<Event>
    var now: nat
    var state: State

    /** The process has died; whatever it had in memory is lost. */
    var dead: bool

    constructor (c: Setup, calm: bool)
      requires SetupOk(c)
      ensures Valid() && this.c == c && this.calm == calm && durable == EMPTY_STATE && relay == {} && !dead
    {
      this.c, this.calm := c, calm;
      durable, state, relay, now, dead := EMPTY_STATE, EMPTY_STATE, {}, 0, false;
    }

    /** What is durable and what is being worked on are both in order. */
    ghost predicate Valid()
      reads this
    {
      SetupOk(c) && Good(c, durable, relay, now) && Good(c, state, relay, now)
    }

    // ----- The environment -----

    method Tick()
      requires Valid()
      modifies this`now
      ensures Valid() && now >= old(now) && (calm ==> now == old(now))
    {
      hide SetupOk, Good;
      var passed: int := *;
      passed := if passed < 0 || calm then 0 else passed;
      LaterGood(c, durable, relay, now, now + passed);
      LaterGood(c, state, relay, now, now + passed);
      now := now + passed;
    }

    /** A save that did not report success may still have taken effect. */
    method Save() returns (r: Saved)
      requires Valid() && !dead
      modifies this`durable, this`dead
      ensures Valid() && (r == Stored ==> durable == state) && (durable == old(durable) || durable == state)
      ensures dead == (r == StoreCrashed) && (calm ==> r == Stored)
    {
      hide SetupOk, Good;
      r := *;
      if calm {
        r := Stored;
      }
      var effect: bool := *;
      if r == Stored || effect {
        durable := state;
      }
      dead := r == StoreCrashed;
    }

    /** The POST of an event, which must be held durably and never have been superseded. */
    method Post(e: Event) returns (a: PostAnswer)
      requires Valid() && !dead && Holds(durable.records, e) && Holds(state.records, e)
      requires Unretired(durable.records, e) && Unretired(state.records, e)
      modifies this`relay, this`dead
      ensures Valid() && (a == Acknowledged ==> e in relay) && (relay == old(relay) || relay == old(relay) + {e})
      ensures dead == (a == PostCrashed) && (calm ==> a == Acknowledged)
    {
      hide SetupOk, Good, Holds, Unretired;
      a := *;
      if calm {
        a := Acknowledged;
      }
      var accepted: bool := *;
      if a != NotSent && (accepted || a == Acknowledged) {
        AcceptedGood(c, durable, relay, now, e);
        AcceptedGood(c, state, relay, now, e);
        relay := relay + {e};
      }
      dead := a == PostCrashed;
    }

    method Query(e: Event) returns (a: QueryAnswer)
      requires !dead
      modifies this`dead
      ensures a == Found ==> e in relay
      ensures a == Absent ==> e !in relay
      ensures dead == (a == QueryCrashed) && (calm ==> a == Found || a == Absent)
    {
      a := *;
      if calm {
        a := Found;
      }
      if a == Found && e !in relay {
        a := Absent;
      } else if a == Absent && e in relay {
        a := Found;
      }
      dead := a == QueryCrashed;
    }

    // ----- The relay client -----

    /** reconcilePublish: windowClosed says that the deadline had passed. */
    method ReconcilePublish(e: Event, windowClosed: bool) returns (r: PublishResult)
      requires !dead
      modifies this`dead
      ensures r == PublishOk ==> e in relay
      ensures r == ExpiredAbsent ==> windowClosed && e !in relay
      ensures dead == (r == PublishCrashed)
      ensures calm ==> r == if e in relay then PublishOk else if windowClosed then ExpiredAbsent else PublishError
    {
      var a := Query(e);
      match a
      case Found => r := PublishOk;
      case Absent => r := if windowClosed then ExpiredAbsent else PublishError;
      case QueryFailed => r := PublishError;
      case QueryCrashed => r := PublishCrashed;
    }

    /** Publish: past its deadline an event is looked up, never sent. */
    method Publish(e: Event) returns (r: PublishResult)
      requires Valid() && !dead && Holds(durable.records, e) && Holds(state.records, e)
      modifies this`relay, this`now, this`dead
      ensures Valid() && now >= old(now) && (relay == old(relay) || relay == old(relay) + {e})
      ensures Expired(e, old(now)) ==> relay == old(relay)
      ensures r == PublishOk ==> e in relay
      ensures r == ExpiredAbsent ==> e !in relay && Expired(e, now)
      ensures dead == (r == PublishCrashed) && (calm ==> now == old(now))
      ensures calm ==> r == if Expired(e, now) && e !in relay then ExpiredAbsent else PublishOk
    {
      hide SetupOk, Good, Holds, Expired, Unretired;
      Tick();
      if Expired(e, old(now)) {
        ExpiryLasts(e, old(now), now);
      }
      var valid: bool := *;
      if !valid && !calm {
        return PublishError;
      }
      if Expired(e, now) {
        r := ReconcilePublish(e, true);
        return;
      }
      Tick();
      if Expired(e, now) {
        r := ReconcilePublish(e, true);
        return;
      }
      FreshUnretired(c, durable, relay, now, e);
      FreshUnretired(c, state, relay, now, e);
      Tick();
      var a := Post(e);
      match a
      case Acknowledged => r := PublishOk;
      case Ambiguous => r := ReconcilePublish(e, false);
      case NotSent => r := PublishError;
      case PostCrashed => r := PublishCrashed;
    }

    // ----- One fact -----

    method RecordFailure(q: int)
      requires Valid() && !dead && Due(c, state, q) && EntryOf(state.records, q).status != Poison
      modifies this`state
      ensures Valid()
      ensures state == old(state).(records := old(state).records[q := Failed(EntryOf(old(state).records, q),
        c.maxAttempts)])
      ensures Elsewhere(old(state), state, q)
    {
      hide SetupOk, PositionOk, RootsOk, RelayOk;
      var d := Failed(EntryOf(state.records, q), c.maxAttempts);
      EntryStatus(c, state, relay, now, q);
      hide Good, RecordsOk;
      TopUpdated(c, state, relay, now, q, d);
      state := state.(records := state.records[q := d]);
    }

    method MarkPublished(q: int)
      requires Valid() && !dead && Due(c, state, q) && q in state.records
      requires state.records[q].wire.Some? && state.records[q].wire.value in relay
      requires state.records[q].status != Poison
      modifies this`state
      ensures Valid()
        && state == old(state).(records := old(state).records[q := old(state).records[q].(status := Published)])
      ensures Elsewhere(old(state), state, q)
    {
      hide SetupOk, PositionOk, RootsOk, RelayOk;
      var d := state.records[q].(status := Published);
      hide Good, RecordsOk;
      TopUpdated(c, state, relay, now, q, d);
      state := state.(records := state.records[q := d]);
    }

    /** prepare: the signed event of a card, dated now; None is a failure to sign. */
    method Prepare(channel: string, root: Option<Event>, card: Card) returns (e: Option<Event>)
      requires Valid() && !dead
      modifies this`now
      ensures Valid() && now >= old(now) && (calm ==> now == old(now) && e.Some?)
      ensures e.Some? ==>
        e.value == Event(now / SECOND, channel, root, card) && e.value.createdAt * SECOND <= now
        && !Expired(e.value, now)
    {
      hide SetupOk, Good;
      Tick();
      var signed: bool := *;
      if signed || calm {
        e := Some(Event(now / SECOND, channel, root, card));
      } else {
        e := None;
      }
    }

    /** The end of every preparation: the event is saved before it is sent. */
    method SaveAndPublish(q: int, e: Event) returns (r: Step)
      requires Valid() && !dead && state.checkpoint == durable.checkpoint && Due(c, state, q)
        && HeldAt(state.records, q, e) && state.records[q].status == Prepared && state.records[q].attempts == 0
      requires Elsewhere(state, durable, q)
      modifies this`durable, this`relay, this`now, this`state, this`dead
      ensures Valid() && old(relay) <= relay && dead == (r == Crashed)
      ensures state.checkpoint == durable.checkpoint == old(state).checkpoint && state.high == old(state).high
      ensures Elsewhere(old(state), state, q) && Elsewhere(old(state), durable, q) && state.roots == old(state).roots
      ensures r == Done ==> OutAs(state, q, old(state).records[q], relay)
      ensures r == StepFailed ==> EntryOf(state.records, q) == Failed(old(state).records[q], c.maxAttempts)
      ensures now >= old(now) && (calm ==> now == old(now)) && (calm && !Expired(e, now) ==> r == Done)
    {
      hide SetupOk, Good, Next, Expired;
      assert Holds(state.records, e);
      var saved := Save();
      if saved == StoreFailed {
        return StoreStopped;
      }
      if saved == StoreCrashed {
        return Crashed;
      }
      var p := Publish(e);
      match p
      case PublishOk =>
        MarkPublished(q);
        r := Done;
      case PublishCrashed => r := Crashed;
      case _ =>
        RecordFailure(q);
        r := StepFailed;
    }

    /** prepareAndPublishCase. */
    method PrepareAndPublishCase(q: int, env: Envelope) returns (r: Step)
      requires Valid() && !dead && state.checkpoint == durable.checkpoint && Due(c, state, q) && q in state.records
        && state.records[q].wire.None? && state.records[q].status != Poison
      requires c.verify(c.facts[q].raw) == Some(env) && env.id == c.facts[q].envelopeId && env.family == CaseFamily
      requires Elsewhere(state, durable, q)
      modifies this`durable, this`relay, this`now, this`state, this`dead
      ensures Valid() && old(relay) <= relay && dead == (r == Crashed)
      ensures state.checkpoint == durable.checkpoint == old(state).checkpoint && state.high == old(state).high
      ensures Elsewhere(old(state), state, q) && Elsewhere(old(state), durable, q)
      ensures r == Done ==> Out(state, q, relay)
      ensures r == Done ==> state.roots == old(state).roots[env.caseId := state.records[q].wire.value]
      ensures r == StepFailed ==> FailsTo(old(state).records[q], EntryOf(state.records, q), c.maxAttempts)
      ensures calm ==> now == old(now) && r == if env.complete then Done else StepFailed
    {
      hide SetupOk, Good, Next, Expired;
      NextIsFact(c, state.checkpoint, q);
      var mapped: bool := *;
      var channel: string := *;
      if calm {
        mapped, channel := true, if channel == "" then "general" else channel;
      }
      if !env.complete || !mapped || channel == "" {
        RecordFailure(q);
        return StepFailed;
      }
      var prepared := Prepare(channel, None, CardOf(env, c.facts[q].commitment));
      if prepared.None? {
        RecordFailure(q);
        return StepFailed;
      }
      var e := prepared.value;
      var d := Delivery(Some(e), None, Prepared, 0, []);
      PreparedGood(c, state, relay, now, q, d);
      state := state.(records := state.records[q := d], roots := state.roots[env.caseId := e]);
      r := SaveAndPublish(q, e);
    }

    /** prepareAndPublishAdvice: it replies to the event of its case. */
    method PrepareAndPublishAdvice(q: int, env: Envelope) returns (r: Step)
      requires Valid() && !dead && state.checkpoint == durable.checkpoint && Due(c, state, q) && q in state.records
        && state.records[q].wire.None? && state.records[q].status != Poison
      requires c.verify(c.facts[q].raw) == Some(env) && env.id == c.facts[q].envelopeId && env.family == AdviceFamily
      requires Elsewhere(state, durable, q)
      modifies this`durable, this`relay, this`now, this`state, this`dead
      ensures Valid() && old(relay) <= relay && dead == (r == Crashed)
      ensures state.checkpoint == durable.checkpoint == old(state).checkpoint && state.high == old(state).high
      ensures Elsewhere(old(state), state, q) && Elsewhere(old(state), durable, q)
      ensures r == Done ==> Out(state, q, relay) && state.roots == old(state).roots
      ensures r == StepFailed ==> FailsTo(old(state).records[q], EntryOf(state.records, q), c.maxAttempts)
      ensures calm ==>
        now == old(now) && r == if env.complete && Rooted(old(state), env.caseId) then Done else StepFailed
    {
      hide SetupOk, Good, Next, Expired;
      NextIsFact(c, state.checkpoint, q);
      if !env.complete || env.caseId !in state.roots {
        RecordFailure(q);
        return StepFailed;
      }
      var root := state.roots[env.caseId];
      RootHeld(c, state, relay, now, env.caseId);
      if !exists p | p in state.records :: state.records[p].wire == Some(root) {
        assert false;
      }
      if root.channel == "" {
        RecordFailure(q);
        return StepFailed;
      }
      var prepared := Prepare(root.channel, Some(root), CardOf(env, c.facts[q].commitment));
      if prepared.None? {
        RecordFailure(q);
        return StepFailed;
      }
      var e := prepared.value;
      AnswersRoot(c, state, relay, now, q, env.caseId, e);
      var d := Delivery(Some(e), Some(root), Prepared, 0, []);
      PreparedGood(c, state, relay, now, q, d);
      state := state.(records := state.records[q := d]);
      r := SaveAndPublish(q, e);
    }

    /** supersedeExpiredAbsent: the event had expired and the relay did not hold it. */
    method SupersedeExpiredAbsent(q: int) returns (r: Step)
      requires Valid() && !dead && state.checkpoint == durable.checkpoint && Due(c, state, q) && q in state.records
        && state.records[q].status != Poison
      requires state.records[q].wire.Some? && state.records[q].wire.value !in relay
        && Expired(state.records[q].wire.value, now)
      requires Elsewhere(state, durable, q)
      modifies this`durable, this`relay, this`now, this`state, this`dead
      ensures Valid() && old(relay) <= relay && dead == (r == Crashed)
      ensures state.checkpoint == durable.checkpoint == old(state).checkpoint && state.high == old(state).high
      ensures Elsewhere(old(state), state, q) && Elsewhere(old(state), durable, q)
      ensures r == Done ==> Out(state, q, relay) && Supersedes(old(state).records[q], state.records[q])
      ensures r == StepFailed ==>
        q in state.records && (state.records[q] == Failed(old(state).records[q], c.maxAttempts) ||
                               Supersedes(old(state).records[q], state.records[q]))
      ensures now >= old(now) && (calm ==> r == Done && now == old(now))
    {
      hide SetupOk, Good, Next, Unretired;
      var current := state.records[q];
      var expired := current.wire.value;
      RootsAgree(c, state, relay, now, q);
      if expired.card.family == AdviceFamily && state.roots[expired.card.caseId] != current.root.value {
        assert false;
      }
      var prepared := Prepare(expired.channel, current.root, expired.card);
      if prepared.None? {
        RecordFailure(q);
        return StepFailed;
      }
      var e := prepared.value;
      var d := Delivery(Some(e), current.root, Prepared, 0, current.superseded + [expired]);
      if expired.card.family == CaseFamily && state.roots[expired.card.caseId] != expired {
        assert false;
      }
      SupersededGood(c, state, relay, now, q, d);
      state := state.(records := state.records[q := d], roots := RootsWith(state.roots, e));
      r := SaveAndPublish(q, e);
    }

    /** The part of projectRecord for an event that an earlier run prepared. */
    method PublishPrepared(q: int) returns (r: Step, superseded: bool)
      requires Valid() && !dead && state.checkpoint == durable.checkpoint && Due(c, state, q) && q in state.records
        && state.records[q].status != Poison
      requires state.records[q].wire.Some? && Holds(durable.records, state.records[q].wire.value)
      requires Elsewhere(state, durable, q)
      modifies this`durable, this`relay, this`now, this`state, this`dead
      ensures Valid() && old(relay) <= relay && dead == (r == Crashed)
      ensures state.checkpoint == durable.checkpoint == old(state).checkpoint && state.high == old(state).high
      ensures Elsewhere(old(state), state, q) && Elsewhere(old(state), durable, q)
      ensures r == Done ==> Out(state, q, relay)
      ensures r == StepFailed && !superseded ==> FailsTo(old(state).records[q], EntryOf(state.records, q),
        c.maxAttempts)
      ensures superseded ==> Expired(old(state).records[q].wire.value, now)
      ensures calm ==> r == Done && now == old(now)
    {
      hide SetupOk, Good, Next, Expired;
      superseded := false;
      var e := state.records[q].wire.value;
      assert HeldAt(state.records, q, e);
      var p := Publish(e);
      match p
      case PublishOk =>
        MarkPublished(q);
        r := Done;
      case PublishCrashed => r := Crashed;
      case ExpiredAbsent =>
        superseded := true;
        ghost var before := now;
        r := SupersedeExpiredAbsent(q);
        ExpiryLasts(e, before, now);
      case PublishError =>
        RecordFailure(q);
        r := StepFailed;
    }

    method ProjectRecord(q: int) returns (r: Step, superseded: bool)
      requires Valid() && !dead && state.checkpoint == durable.checkpoint && Due(c, state, q)
        && durable.records == state.records
      modifies this`durable, this`relay, this`now, this`state, this`dead
      ensures Valid() && old(relay) <= relay && dead == (r == Crashed)
      ensures state.checkpoint == durable.checkpoint == old(state).checkpoint && state.high == old(state).high
      ensures Elsewhere(old(state), state, q) && Elsewhere(old(state), durable, q)
      ensures r == Done ==> q in state.records && Settled(state.records[q])
      ensures r == StepFailed && !superseded ==>
        FailsTo(EntryOf(old(state).records, q), EntryOf(state.records, q), c.maxAttempts)
      ensures EntryOf(old(state).records, q).status == Poison ==> r == Done && state == old(state)
      ensures EntryOf(old(state).records, q).status != Poison && r == Done ==> Out(state, q, relay)
      ensures calm && Publishable(c, old(state), q) ==> r == Done
      ensures superseded ==>
        var d := EntryOf(old(state).records, q); d.wire.Some? && Expired(d.wire.value, now)
      ensures calm ==> (r == Done || r == StepFailed) && now == old(now)
    {
      hide SetupOk, Good, Next, Expired;
      superseded := false;
      if q !in state.records {
        NewEntry(c, state, relay, now, q);
        state := state.(records := state.records[q := NO_DELIVERY]);
      }
      var entry := state.records[q];
      if entry.status == Poison {
        return Done, false;
      }
      if entry.wire.Some? {
        assert HeldAt(durable.records, q, entry.wire.value);
        r, superseded := PublishPrepared(q);
        return;
      }
      NextIsFact(c, state.checkpoint, q);
      var reachable: bool := *;
      var verified := c.verify(c.facts[q].raw);
      if (!reachable && !calm) || verified.None? || verified.value.id != c.facts[q].envelopeId {
        RecordFailure(q);
        return StepFailed, false;
      }
      match verified.value.family
      case CaseFamily => r := PrepareAndPublishCase(q, verified.value);
      case AdviceFamily => r := PrepareAndPublishAdvice(q, verified.value);
      case OtherFamily =>
        RecordFailure(q);
        r := StepFailed;
    }

    // ----- Runs -----

    /** One fact of a run: passed, or the run ends; clean as in RunResult. */
    method ProjectNext(q: int) returns (passed: bool, clean: bool)
      requires Valid() && !dead && state == durable && Next(c, state.checkpoint, q)
      modifies this`durable, this`relay, this`now, this`state, this`dead
      ensures Valid() && old(relay) <= relay && durable.checkpoint >= old(durable.checkpoint)
      ensures Elsewhere(old(durable), durable, q)
      ensures passed ==>
        state == durable && durable.checkpoint == q && q in durable.records && Settled(durable.records[q])
      ensures clean && !passed ==>
        durable.checkpoint == old(durable).checkpoint &&
        FailsTo(EntryOf(old(durable).records, q), EntryOf(durable.records, q), c.maxAttempts)
      ensures calm && Publishable(c, old(durable), q) ==> passed && Out(durable, q, relay)
      ensures calm ==> now == old(now) && (clean || !PendingFresh(old(durable), now))
      ensures passed ==> PendingFresh(durable, now) && !dead
      ensures dead ==> !passed && !clean
    {
      hide SetupOk, Good, Next, Expired, FailsTo, Settled;
      HighMoves(c, state, relay, now, q);
      NextAbove(c, state.checkpoint, q);
      if q > state.high {
        state := state.(high := q);
      }
      var r, superseded := ProjectRecord(q);
      clean := (r == Done || r == StepFailed) && !superseded;
      if r == Crashed {
        return false, clean;
      }
      if r != Done {
        var saved := Save();
        return false, clean && saved == Stored;
      }
      CheckpointMoves(c, state, relay, now, q);
      NonePassed(c, state, relay, now, q);
      state := state.(checkpoint := q);
      var saved := Save();
      passed, clean := saved == Stored, clean && saved == Stored;
    }

    /** One run.  Whatever happens in it, both states stay in order; a clean run over at
        least one fact passes that fact or counts one failure on its record, and in a calm
        environment it is published unless something is wrong with it. */
    method Project(limit: nat) returns (result: RunResult)
      requires Valid()
      modifies this
      ensures Valid() && durable.checkpoint >= old(durable.checkpoint) && old(relay) <= relay
      ensures forall q | result.clean && result.facts > 0 && Next(c, old(durable).checkpoint, q) ::
        durable.checkpoint >= q ||
        (durable.checkpoint == old(durable).checkpoint &&
         FailsTo(EntryOf(old(durable).records, q), EntryOf(durable.records, q), c.maxAttempts))
      ensures forall q | calm && limit > 0 && Next(c, old(durable).checkpoint, q) && Publishable(c, old(durable), q) ::
        durable.checkpoint >= q && Out(durable, q, relay)
      ensures calm && PendingFresh(old(durable), old(now)) ==> result.clean
      ensures forall q | calm && limit > 0 && Next(c, old(durable).checkpoint, q) :: result.facts > 0
    {
      hide SetupOk, Good, Next, Expired, FailsTo, Settled, Paging.Ordered, Publishable, Elsewhere, Out, PendingFresh;
      var available: bool := *;
      if !available && !calm {
        return RunResult(false, 0);
      }
      state, dead := durable, false;
      var horizon: int := *;
      if calm {
        horizon := Paging.Largest(c.facts.Keys);
      }
      var page := Paging.Ordered(Visible(c, horizon), state.checkpoint, limit);
      ghost var start := state.checkpoint;
      PageIsNext(c, horizon, start, limit);
      PageSeesNext(c, start, limit);
      assert Consecutive(c, start, page);
      result := RunResult(true, |page|);
      for i := 0 to |page|
        invariant Valid() && !dead && state == durable && old(relay) <= relay
        invariant state.checkpoint == Before(start, page, i)
        invariant i == 0 ==> durable == old(durable)
        invariant state.checkpoint >= old(durable.checkpoint)
        invariant i > 0 ==> forall q | Next(c, old(durable).checkpoint, q) :: durable.checkpoint >= q
        invariant i > 0 && calm && Publishable(c, old(durable), page[0]) ==> Out(durable, page[0], relay)
        invariant i > 0 ==> page[0] <= state.checkpoint
        invariant result == RunResult(result.clean, |page|) && (calm ==> now == old(now))
        invariant calm && PendingFresh(old(durable), old(now)) ==> result.clean && PendingFresh(durable, now)
      {
        var q := page[i];
        ghost var before, held := durable, relay;
        assert Next(c, Before(start, page, i), page[i]);
        NextUnique(c, before.checkpoint, q);
        NextAbove(c, before.checkpoint, q);
        var passed, clean := ProjectNext(q);
        result := RunResult(result.clean && clean, |page|);
        if i > 0 {
          StaysOut(before, durable, q, page[0], held, relay);
        }
        if !passed {
          return;
        }
      }
    }

    /** Any number of runs, each ending in any way, a crash included: the relay holds at
        most one event for a fact, the checkpoint has only published or parked facts
        behind it, and every advice replies to the root its case has now. */
    method Operate(runs: nat, limit: nat)
      requires Valid()
      modifies this
      ensures Valid() && old(relay) <= relay && durable.checkpoint >= old(durable.checkpoint)
      ensures forall a, b | a in relay && b in relay && a.card.envelopeId == b.card.envelopeId :: a == b
      ensures forall e | e in relay :: exists q :: Tells(c, q, e)
      ensures forall q | q in c.facts && q <= durable.checkpoint :: q in durable.records && Settled(durable.records[q])
      ensures forall q | q in durable.records && durable.records[q].status == Published ::
        durable.records[q].wire.Some? && durable.records[q].wire.value in relay
      ensures forall p, q | p in durable.records && q in durable.records && p > durable.checkpoint
        && q > durable.checkpoint :: p == q
      ensures forall q | q in durable.records && durable.records[q].wire.Some?
        && durable.records[q].wire.value.card.family == AdviceFamily ::
        RepliesToCurrent(durable, durable.records[q].wire.value)
    {
      hide SetupOk, Good, Next, Expired, Budget, Settled, RepliesToCurrent, Tells;
      for i := 0 to runs
        invariant Valid() && old(relay) <= relay && durable.checkpoint >= old(durable.checkpoint)
      {
        var r := Project(limit);
      }
      PositionMeans(c, durable, relay, now);
      forall q | q in durable.records && durable.records[q].status == Published
        ensures durable.records[q].wire.Some? && durable.records[q].wire.value in relay
      {
        EntryStatus(c, durable, relay, now, q);
      }
      forall e | e in relay
        ensures exists q :: Tells(c, q, e)
      {
        AcceptedTellsFact(c, durable, relay, now, e);
      }
      forall a, b | a in relay && b in relay && a.card.envelopeId == b.card.envelopeId
        ensures a == b
      {
        OneEventPerFact(c, durable, relay, now, a, b);
      }
      forall q | q in durable.records && durable.records[q].wire.Some?
        && durable.records[q].wire.value.card.family == AdviceFamily
        ensures RepliesToCurrent(durable, durable.records[q].wire.value)
      {
        AdviceReplies(c, durable, relay, now, q);
      }
    }

    /** Runs again and again, and keeps what the fact's record was before each run: a fact is
        passed after at most twice the attempt limit less one failed runs, unless a run is not
        clean or does not see it. */
    method PassNext(q: int, limit: nat) returns (history: seq<Delivery>, interrupted: bool)
      requires Valid() && Next(c, durable.checkpoint, q) && limit > 0
      modifies this
      ensures Valid() && Failures(history, EntryOf(old(durable).records, q), c.maxAttempts)
      ensures |history| <= 2 * c.maxAttempts
      ensures !interrupted ==> durable.checkpoint >= q
      ensures calm && Publishable(c, old(durable), q) && PendingFresh(old(durable), old(now)) ==>
        !interrupted && |history| == 1 && Out(durable, q, relay)
    {
      hide SetupOk, Good, Next, Expired, Budget, FailsTo, Publishable, PendingFresh, Out;
      history, interrupted := [EntryOf(durable.records, q)], false;
      NextAbove(c, durable.checkpoint, q);
      BudgetStart(c, durable, relay, now, q);
      while durable.checkpoint < q
        invariant Valid() && Failures(history, EntryOf(old(durable).records, q), c.maxAttempts)
        invariant durable.checkpoint < q ==>
          && Next(c, durable.checkpoint, q) && history[|history| - 1] == EntryOf(durable.records, q)
          && |history| + Budget(EntryOf(durable.records, q), c.maxAttempts) <= 2 * c.maxAttempts
        invariant |history| <= 2 * c.maxAttempts
        invariant calm && Publishable(c, old(durable), q) && PendingFresh(old(durable), old(now)) ==>
          |history| == 1 && if durable.checkpoint < q then durable == old(durable) && now == old(now)
                            else Out(durable, q, relay)
        decreases if durable.checkpoint < q then 1 + Budget(EntryOf(durable.records, q), c.maxAttempts) else 0
      {
        BudgetStart(c, durable, relay, now, q);
        AttemptsLeft(c, durable, relay, now, q);
        ghost var before := EntryOf(durable.records, q);
        var r := Project(limit);
        if !r.clean || r.facts == 0 {
          return history, true;
        }
        if durable.checkpoint < q {
          BeforePoison(before, EntryOf(durable.records, q), c.maxAttempts);
          FailureSpends(before, EntryOf(durable.records, q), c.maxAttempts);
          BudgetStart(c, durable, relay, now, q);
          history := history + [EntryOf(durable.records, q)];
        }
      }
    }
  }

  // ----- Facts the methods need -----

  /** Only the record of q may differ. */
  predicate Elsewhere(s: State, later: State, q: int) {
    s.records - {q} == later.records - {q}
  }

  /** The record of q is published, and the relay holds its event. */
  predicate Out(s: State, q: int, relay: set<Event>) {
    && q in s.records && s.records[q].status == Published
    && s.records[q].wire.Some? && s.records[q].wire.value in relay
  }

  /** It is this record, published. */
  predicate OutAs(s: State, q: int, d: Delivery, relay: set<Event>) {
    Out(s, q, relay) && s.records[q] == d.(status := Published)
  }

  /** No event that awaits its publication has expired. */
  predicate PendingFresh(s: State, now: int) {
    forall q | q in s.records && q > s.checkpoint && s.records[q].wire.Some? :: !Expired(s.records[q].wire.value, now)
  }

  /** A history of failed runs that starts with d: each counts one failure on the last. */
  predicate Failures(history: seq<Delivery>, d: Delivery, maxAttempts: int) {
    && |history| > 0 && history[0] == d
    && forall i | 0 <= i < |history| - 1 :: FailsTo(history[i], history[i + 1], maxAttempts)
  }

  predicate Rooted(s: State, caseId: string) {
    caseId in s.roots && s.roots[caseId].channel != ""
  }

  /** The record has a new event of the same card, channel and root, and keeps the old one
      among the superseded. */
  predicate Supersedes(d: Delivery, later: Delivery) {
    && d.wire.Some? && later.wire.Some? && later.root == d.root && later.superseded == d.superseded + [d.wire.value]
    && var e := later.wire.value;
       e.channel == d.wire.value.channel && e.root == d.root && e.card == d.wire.value.card
  }

  /** Nothing is wrong with the fact: an event is prepared for it, or its envelope is the
      announced one, complete and a case or an advice on a case that has a root. */
  predicate Publishable(c: Setup, s: State, q: int) {
    var d := EntryOf(s.records, q);
    && d.status != Poison
    && (d.wire.Some? ||
        (q in c.facts && var v := c.verify(c.facts[q].raw);
         && v.Some? && v.value.id == c.facts[q].envelopeId && v.value.complete
         && (v.value.family == CaseFamily || (v.value.family == AdviceFamily && Rooted(s, v.value.caseId)))))
  }

  lemma ExpiryLasts(e: Event, now: int, later: int)
    requires now <= later && Expired(e, now)
    ensures Expired(e, later)
  {
  }

  predicate RepliesToCurrent(s: State, e: Event) {
    e.card.caseId in s.roots && e.root == Some(s.roots[e.card.caseId])
  }

  lemma AdviceReplies(c: Setup, s: State, relay: set<Event>, now: int, q: int)
    requires SetupOk(c) && Good(c, s, relay, now) && q in s.records && s.records[q].wire.Some?
    requires s.records[q].wire.value.card.family == AdviceFamily
    ensures RepliesToCurrent(s, s.records[q].wire.value)
  {
    hide Good, SetupOk;
    AdviceRootIsCurrent(c, s, relay, now, q);
  }

  lemma PositionMeans(c: Setup, s: State, relay: set<Event>, now: int)
    requires Good(c, s, relay, now)
    ensures forall q | q in c.facts && q <= s.checkpoint :: q in s.records && Settled(s.records[q])
    ensures forall p, q | p in s.records && q in s.records && p > s.checkpoint && q > s.checkpoint :: p == q
  {
    hide RecordsOk, RootsOk, RelayOk;
  }

  lemma EntryStatus(c: Setup, s: State, relay: set<Event>, now: int, q: int)
    requires Good(c, s, relay, now) && SetupOk(c)
    ensures StatusOk(EntryOf(s.records, q), c.maxAttempts, relay, now)
  {
    hide PositionOk, RootsOk, RelayOk, WireOk, Retired;
    if q in s.records {
      assert RecordOk(c, s.records, s.roots, q, relay, now);
    }
  }

  lemma AttemptsLeft(c: Setup, s: State, relay: set<Event>, now: int, q: int)
    requires Good(c, s, relay, now) && SetupOk(c)
    ensures c.maxAttempts > 0 && (EntryOf(s.records, q).status != Poison ==>
      EntryOf(s.records, q).attempts < c.maxAttempts)
  {
    EntryStatus(c, s, relay, now, q);
  }

  /** A case's root is held by some record, so its delivery is never missing. */
  lemma RootHeld(c: Setup, s: State, relay: set<Event>, now: int, caseId: string)
    requires Good(c, s, relay, now) && caseId in s.roots
    ensures exists p | p in s.records :: s.records[p].wire == Some(s.roots[caseId])
  {
    hide PositionOk, RecordsOk, RelayOk;
    var p :| HeldAt(s.records, p, s.roots[caseId]);
  }

  lemma NewEntry(c: Setup, s: State, relay: set<Event>, now: int, q: int)
    requires SetupOk(c) && Good(c, s, relay, now) && Due(c, s, q) && q !in s.records
    ensures Good(c, s.(records := s.records[q := NO_DELIVERY]), relay, now)
  {
    hide Good, Next;
    TopUpdated(c, s, relay, now, q, NO_DELIVERY);
  }

  lemma NextIsFact(c: Setup, checkpoint: int, q: int)
    requires Next(c, checkpoint, q)
    ensures q in c.facts
  {
  }

  /** Once its record is passed, none is left beyond the checkpoint. */
  lemma NonePassed(c: Setup, s: State, relay: set<Event>, now: int, q: int)
    requires Good(c, s, relay, now) && Next(c, s.checkpoint, q)
    ensures forall p | p in s.records :: p <= q
  {
    hide RecordsOk, RootsOk, RelayOk;
    NextUnique(c, s.checkpoint, q);
  }

  lemma NextUnique(c: Setup, checkpoint: int, q: int)
    requires Next(c, checkpoint, q)
    ensures forall p | Next(c, checkpoint, p) :: p == q
  {
  }

  lemma NextAbove(c: Setup, checkpoint: int, q: int)
    requires Next(c, checkpoint, q)
    ensures q > checkpoint
  {
  }

  lemma HighMoves(c: Setup, s: State, relay: set<Event>, now: int, q: int)
    requires Good(c, s, relay, now) && Next(c, s.checkpoint, q)
    ensures q > s.high ==> Good(c, s.(high := q), relay, now)
  {
    hide RecordsOk, RootsOk, RelayOk;
  }

  lemma BeforePoison(d: Delivery, later: Delivery, maxAttempts: int)
    requires FailsTo(d, later, maxAttempts)
    ensures d.status != Poison
  {
  }

  lemma BudgetStart(c: Setup, s: State, relay: set<Event>, now: int, q: int)
    requires SetupOk(c) && Good(c, s, relay, now)
    ensures 0 <= Budget(EntryOf(s.records, q), c.maxAttempts) <= 2 * c.maxAttempts - 1
  {
    AttemptsLeft(c, s, relay, now, q);
  }

  lemma StaysOut(s: State, later: State, q: int, p: int, relay: set<Event>, more: set<Event>)
    requires p != q && Elsewhere(s, later, q) && relay <= more
    ensures Out(s, p, relay) ==> Out(later, p, more)
  {
    assert p in s.records ==> p in s.records - {q} && p in later.records && later.records[p] == s.records[p];
  }

  /** The facts committed so far; later ones have larger revisions. */
  function Visible(c: Setup, horizon: int): set<int> {
    set q | q in c.facts.Keys && q <= horizon
  }

  lemma VisibleLeast(c: Setup, horizon: int, after: int, q: int)
    requires Paging.LeastAbove(Visible(c, horizon), after, q)
    ensures Next(c, after, q)
  {
    forall k | k in c.facts.Keys && k > after
      ensures q <= k
    {
      if k <= horizon {
        assert k in Visible(c, horizon);
      }
    }
  }

  function Before(checkpoint: int, page: seq<int>, i: int): int
    requires 0 <= i <= |page|
  {
    if i == 0 then checkpoint else page[i - 1]
  }

  ghost predicate Consecutive(c: Setup, checkpoint: int, page: seq<int>) {
    forall i | 0 <= i < |page| :: Next(c, Before(checkpoint, page, i), page[i])
  }

  /** A page of the committed facts holds the next facts, one after the other. */
  lemma PageIsNext(c: Setup, horizon: int, checkpoint: int, limit: nat)
    ensures var page := Paging.Ordered(Visible(c, horizon), checkpoint, limit);
      Consecutive(c, checkpoint, page)
    decreases limit
  {
    var visible := Visible(c, horizon);
    var page := Paging.Ordered(visible, checkpoint, limit);
    if page != [] {
      PageIsNext(c, horizon, page[0], limit - 1);
      var rest := Paging.Ordered(visible, page[0], limit - 1);
      assert Paging.LeastAbove(visible, checkpoint, page[0]) && page == [page[0]] + rest;
      forall i | 0 <= i < |page|
        ensures Next(c, Before(checkpoint, page, i), page[i])
      {
        if i == 0 {
          VisibleLeast(c, horizon, checkpoint, page[0]);
        } else {
          assert page[i] == rest[i - 1] && Before(checkpoint, page, i) == Before(page[0], rest, i - 1);
        }
      }
    }
  }

  /** A page of all committed facts is empty only when there is no next one. */
  lemma PageSeesNext(c: Setup, checkpoint: int, limit: nat)
    ensures var page := Paging.Ordered(Visible(c, Paging.Largest(c.facts.Keys)), checkpoint, limit);
      forall q | limit > 0 && Next(c, checkpoint, q) :: page != [] && page[0] == q
  {
    var visible := Visible(c, Paging.Largest(c.facts.Keys));
    forall q | limit > 0 && Next(c, checkpoint, q)
      ensures var page := Paging.Ordered(visible, checkpoint, limit); page != [] && page[0] == q
    {
      assert q in c.facts.Keys;
      assert q in visible;
      assert Paging.LeastAbove(visible, checkpoint, q);
      Paging.OrderedFirst(visible, checkpoint, limit, q);
    }
  }

  lemma PreparedGood(c: Setup, s: State, relay: set<Event>, now: int, q: int, d: Delivery)
    requires SetupOk(c) && Good(c, s, relay, now) && Due(c, s, q) && EntryOf(s.records, q).wire.None?
    requires d.wire.Some? && d == Delivery(d.wire, d.wire.value.root, Prepared, 0, [])
    requires d.wire.value.createdAt * SECOND <= now
    requires WireOk(c, s.records, RootsWith(s.roots, d.wire.value), q, d.wire.value)
    ensures Good(c, s.(records := s.records[q := d], roots := RootsWith(s.roots, d.wire.value)), relay, now)
  {
    hide Good, Next, WireOk;
    TopReplaced(c, s, relay, now, q, d);
  }

  lemma AnswersRoot(c: Setup, s: State, relay: set<Event>, now: int, q: int, caseId: string, e: Event)
    requires SetupOk(c) && Good(c, s, relay, now) && Due(c, s, q) && caseId in s.roots
    requires EntryOf(s.records, q).wire.None? && e.root == Some(s.roots[caseId]) && e.channel == s.roots[caseId].channel
    ensures Answers(s.records, q, caseId, e)
  {
    NextIsTop(c, s, q);
    hide RecordsOk, PositionOk, RelayOk;
    var p :| HeldAt(s.records, p, s.roots[caseId]);
  }

  lemma RootsAgree(c: Setup, s: State, relay: set<Event>, now: int, q: int)
    requires SetupOk(c) && Good(c, s, relay, now) && q in s.records && s.records[q].wire.Some?
    ensures var e := s.records[q].wire.value;
      && s.records[q].root == e.root && e.card.family != OtherFamily && e.card.caseId in s.roots
      && (e.card.family == CaseFamily ==> s.roots[e.card.caseId] == e)
      && (e.card.family == AdviceFamily ==> e.root == Some(s.roots[e.card.caseId]))
  {
    assert RecordOk(c, s.records, s.roots, q, relay, now);
    if s.records[q].wire.value.card.family == AdviceFamily {
      AdviceRootIsCurrent(c, s, relay, now, q);
    }
  }

  lemma SupersededGood(c: Setup, s: State, relay: set<Event>, now: int, q: int, d: Delivery)
    requires SetupOk(c) && Good(c, s, relay, now) && Due(c, s, q) && q in s.records
      && s.records[q].wire.Some?
    requires s.records[q].wire.value !in relay && Expired(s.records[q].wire.value, now)
    requires var e := s.records[q].wire.value;
      && d.wire.Some? && d.wire.value == Event(d.wire.value.createdAt, e.channel, e.root, e.card)
      && d == Delivery(d.wire, e.root, Prepared, 0, s.records[q].superseded + [e])
      && d.wire.value.createdAt * SECOND <= now
    ensures Good(c, s.(records := s.records[q := d], roots := RootsWith(s.roots, d.wire.value)), relay, now)
  {
    assert RecordOk(c, s.records, s.roots, q, relay, now);
    assert WireOk(c, s.records, RootsWith(s.roots, d.wire.value), q, d.wire.value);
    hide Good, Next, WireOk, Expired;
    TopReplaced(c, s, relay, now, q, d);
  }
}
