/** Concurrent transactions of one tenant over its tables.  A transaction reads the tables
    when it gets the head lock, draws its revision later, writes what it worked out from
    what it read, and ends in any order with the others.  Where there is no head row there
    is nothing to lock; such a transaction cannot commit once a head exists, since its
    insert of the head row then fails (internal/authority/postgres/store.go). */
module Interleaving {
  import opened Common
  import opened Authority
  import AuthorityTheorems

  /** read is what the transaction saw. */
  datatype Phase = Begun | Reading(read: Db, locked: bool) | Drawn(read: Db, locked: bool, revision: int)
  datatype Tx = Tx(op: Operation, phase: Phase)

  /** history lists the committed writes in commit order. */
  datatype System = System(db: Db, counter: nat, holder: Option<nat>, txs: map<nat, Tx>, history: seq<Event>)

  datatype Action = Begin(x: nat, op: Operation) | Read(x: nat) | Draw(x: nat) | Elsewhere | Commit(x: nat)
      | Abort(x: nat)

  function Ended(s: System, x: nat): System {
    s.(txs := s.txs - {x}, holder := if s.holder == Some(x) then None else s.holder)
  }

  /** The head row is locked if it is there. */
  function ReadStep(s: System, x: nat): System
    requires x in s.txs
  {
    if !s.txs[x].phase.Begun? then s
    else if s.db.head.None? then s.(txs := s.txs[x := s.txs[x].(phase := Reading(s.db, false))])
    else if s.holder.Some? then s
    else s.(txs := s.txs[x := s.txs[x].(phase := Reading(s.db, true))], holder := Some(x))
  }

  function DrawStep(s: System, x: nat): System
    requires x in s.txs
  {
    var p := s.txs[x].phase;
    if !p.Reading? then s
    else s.(txs := s.txs[x := s.txs[x].(phase := Drawn(p.read, p.locked, s.counter + 1))], counter := s.counter + 1)
  }

  /** What a transaction worked out; one that needs a revision must have drawn it. */
  function WorkedOut(t: Tx): Work
    requires !t.phase.Begun?
  {
    WorkOf(t.phase.read, t.op, if t.phase.Drawn? then t.phase.revision else 0)
  }

  predicate MayWrite(s: System, t: Tx)
    requires !t.phase.Begun?
  {
    (t.phase.locked || s.db.head.None?) && (WorkedOut(t).drew ==> t.phase.Drawn?)
  }

  /** The gap before the revision a transaction drew; a halt draws none. */
  function EventOf(s: System, t: Tx): Event {
    var top := Run(START, s.history).top;
    Event(t.op, if t.phase.Drawn? && t.phase.revision > top then t.phase.revision - top - 1 else 0)
  }

  function CommitStep(s: System, x: nat): System
    requires x in s.txs
  {
    var t := s.txs[x];
    if t.phase.Begun? || !MayWrite(s, t) then Ended(s, x)
    else
      var later := Settled(t.phase.read, WorkedOut(t));
      if later == t.phase.read then Ended(s, x)
      else Ended(s.(db := later, history := s.history + [EventOf(s, t)]), x)
  }

  function Step(s: System, a: Action): System {
    match a
    case Begin(x, op) => if x in s.txs then s else s.(txs := s.txs[x := Tx(op, Begun)])
    case Read(x) => if x in s.txs then ReadStep(s, x) else s
    case Draw(x) => if x in s.txs then DrawStep(s, x) else s
    case Elsewhere => s.(counter := s.counter + 1)
    case Commit(x) => if x in s.txs then CommitStep(s, x) else s
    case Abort(x) => Ended(s, x)
  }

  function Interleave(s: System, actions: seq<Action>): System
    decreases |actions|
  {
    if actions == [] then s else Interleave(Step(s, actions[0]), actions[1..])
  }

  const IDLE: System := System(EMPTY, 0, None, map[], [])

  // ----- The invariant -----

  predicate Halted(db: Db) {
    db.head.Some? && db.head.value.halted
  }

  /** Who read under the lock holds it and read what is there; who found no head read the
      empty tables; what was drawn is above every revision committed. */
  ghost predicate TxOk(s: System, x: nat)
    requires x in s.txs
  {
    var p := s.txs[x].phase;
    && (!p.Begun? ==>
          if p.locked then s.holder == Some(x) && p.read == s.db && s.db.head.Some? else p.read == EMPTY)
    && (p.Drawn? ==> 0 < p.revision <= s.counter)
    && (p.Drawn? && p.locked && !Halted(s.db) ==> Run(START, s.history).top < p.revision)
  }

  ghost predicate Ok(s: System) {
    && s.db == Run(START, s.history).db
    && (s.db.head.None? ==> s.db == EMPTY && s.history == [])
    && (Halted(s.db) || Run(START, s.history).top <= s.counter)
    && (s.holder.Some? ==> s.holder.value in s.txs)
    && forall x | x in s.txs :: TxOk(s, x)
  }

  lemma {:induction false} RunMore(s: State, events: seq<Event>, e: Event)
    ensures Run(s, events + [e]) == Apply(Run(s, events), e)
    decreases |events|
  {
    hide Apply;
    if events == [] {
      assert [e][1..] == [];
    } else {
      assert (events + [e])[1..] == events[1..] + [e];
      RunMore(Apply(s, events[0]), events[1..], e);
    }
  }

  /** Without a head only a first registry writes, and it sets a live head; a halted head
      stops every write. */
  lemma WriteShape(db: Db, op: Operation, revision: int)
    ensures var w := WorkOf(db, op, revision); var later := Settled(db, w);
      && (Halted(db) ==> later == db)
      && (later != db ==> later.head.Some?)
      && (later != db && !w.drew ==> Halted(later))
  {
    hide CaseRequestOk, AdviceRequestOk, RegistryRequestOk, CaseWork, AdviceWork, RegistryWork;
    match op
    case CommitCaseOp(c) => CaseShape(db, c, revision);
    case CommitAdviceOp(a) => AdviceShape(db, a, revision);
    case CommitRegistryOp(r) => RegistryShape(db, r, revision);
  }

  lemma CaseShape(db: Db, q: CaseRequest, revision: int)
    ensures var w := CaseWork(db, q, revision); var later := Settled(db, w);
      later == db || (w.drew && later.head == db.head && db.head.Some? && !Halted(db))
  {
    hide CaseCollision, EnvelopeDelivered, CaseOutbox;
  }

  lemma AdviceShape(db: Db, q: AdviceRequest, revision: int)
    ensures var w := AdviceWork(db, q, revision); var later := Settled(db, w);
      later == db || (w.drew && later.head == db.head && db.head.Some? && !Halted(db))
  {
    hide AdviceCollision, EnvelopeDelivered, AdviceOutbox;
  }

  lemma RegistryShape(db: Db, q: RegistryRequest, revision: int)
    ensures var w := RegistryWork(db, q, revision); var later := Settled(db, w);
      later == db || (later.head.Some? && !Halted(db) && (w.drew || Halted(later)))
  {
    hide RegistryCollision, AnyEdgeRefused, SameRegistry, WriteRegistry, Halt;
    AuthorityTheorems.WrittenHead(db, RegistryRow(q, revision));
    if db.head.Some? {
      AuthorityTheorems.HaltedHead(db);
    }
  }

  /** A work that draws no revision does not depend on one. */
  lemma DrawnOrNot(db: Db, op: Operation, a: int, b: int)
    requires !WorkOf(db, op, a).drew
    ensures WorkOf(db, op, b) == WorkOf(db, op, a)
  {
    hide CaseRequestOk, AdviceRequestOk, RegistryRequestOk, CaseCollision, AdviceCollision, RegistryCollision,
         EnvelopeDelivered, AnyEdgeRefused, SameRegistry, WriteCase, WriteAdvice, WriteRegistry, Halt;
  }

  // ----- Every step keeps it -----

  lemma BeginOk(s: System, x: nat, op: Operation)
    requires Ok(s)
    ensures Ok(Step(s, Begin(x, op)))
  {
    hide Run, Halted;
    var n := Step(s, Begin(x, op));
    assert forall y | y in n.txs && y in s.txs :: TxOk(s, y) ==> TxOk(n, y);
  }

  lemma ReadOk(s: System, x: nat)
    requires Ok(s) && x in s.txs
    ensures Ok(ReadStep(s, x))
  {
    hide Run, Halted;
    var n := ReadStep(s, x);
    forall y | y in n.txs
      ensures TxOk(n, y)
    {
      assert TxOk(s, y);
    }
  }

  lemma DrawOk(s: System, x: nat)
    requires Ok(s) && x in s.txs
    ensures Ok(DrawStep(s, x))
  {
    hide Run, Halted;
    var n := DrawStep(s, x);
    forall y | y in n.txs
      ensures TxOk(n, y)
    {
      assert TxOk(s, y);
    }
  }

  lemma ElsewhereOk(s: System)
    requires Ok(s)
    ensures Ok(Step(s, Elsewhere))
  {
    hide Run, Halted;
    var n := Step(s, Elsewhere);
    forall y | y in n.txs
      ensures TxOk(n, y)
    {
      assert TxOk(s, y);
    }
  }

  lemma EndedOk(s: System, x: nat)
    requires Ok(s)
    ensures Ok(Ended(s, x))
  {
    hide Run, Halted;
    var n := Ended(s, x);
    forall y | y in n.txs
      ensures TxOk(n, y)
    {
      assert TxOk(s, y);
    }
  }

  /** A transaction that may write read the tables it is about to change. */
  lemma ReadIsCurrent(s: System, x: nat)
    requires Ok(s) && x in s.txs && !s.txs[x].phase.Begun? && MayWrite(s, s.txs[x])
    ensures s.txs[x].phase.read == s.db
    ensures s.db.head.Some? ==> s.holder == Some(x)
  {
    hide Run, Halted, WorkedOut;
    assert TxOk(s, x);
  }

  lemma CommittedIsRun(s: System)
    requires Ok(s)
    ensures s.db == Run(START, s.history).db
  {
  }

  lemma DrawnAbove(s: System, x: nat)
    requires Ok(s) && x in s.txs && !s.txs[x].phase.Begun? && MayWrite(s, s.txs[x])
    ensures s.txs[x].phase.Drawn? && !Halted(s.db) ==>
      Run(START, s.history).top < s.txs[x].phase.revision <= s.counter
  {
    hide Halted, WorkedOut;
    assert TxOk(s, x);
    assert s.history == [] ==> Run(START, s.history).top == 0;
  }

  /** What it worked out is what the sequential run works out next, at the same revision. */
  lemma AnswerIsSequential(s: System, x: nat)
    requires Ok(s) && x in s.txs && !s.txs[x].phase.Begun? && MayWrite(s, s.txs[x]) && s.txs[x].phase.read == s.db
    requires Settled(s.db, WorkedOut(s.txs[x])) != s.db
    ensures var t := s.txs[x]; var before := Run(START, s.history);
      && EventOf(s, t).op == t.op
      && WorkedOut(t) == WorkOf(before.db, t.op, before.top + 1 + EventOf(s, t).gap)
      && (WorkedOut(t).drew ==> t.phase.Drawn? && before.top + 1 + EventOf(s, t).gap == t.phase.revision <= s.counter)
  {
    hide Run, WorkOf, Settled, Halted, Ok;
    CommittedIsRun(s);
    DrawnAbove(s, x);
    var t := s.txs[x];
    var run := Run(START, s.history);
    var revision := if t.phase.Drawn? then t.phase.revision else 0;
    WriteShape(s.db, t.op, revision);
    if !WorkedOut(t).drew {
      DrawnOrNot(s.db, t.op, revision, run.top + 1 + EventOf(s, t).gap);
    }
  }

  /** Its write is the next event of the sequential history. */
  lemma WriteIsEvent(s: System, x: nat)
    requires Ok(s) && x in s.txs && !s.txs[x].phase.Begun? && MayWrite(s, s.txs[x]) && s.txs[x].phase.read == s.db
    requires Settled(s.db, WorkedOut(s.txs[x])) != s.db
    ensures var t := s.txs[x]; var later := Settled(s.db, WorkedOut(t));
      var r := Run(START, s.history + [EventOf(s, t)]);
      && r.db == later && later.head.Some?
      && (Halted(later) || (t.phase.Drawn? && r.top == t.phase.revision <= s.counter))
  {
    hide Run, WorkOf, Settled, Halted, EventOf, Ok, MayWrite;
    var t := s.txs[x];
    CommittedIsRun(s);
    RunMore(START, s.history, EventOf(s, t));
    AnswerIsSequential(s, x);
    WriteShape(s.db, t.op, if t.phase.Drawn? then t.phase.revision else 0);
  }

  lemma CommitOk(s: System, x: nat)
    requires Ok(s) && x in s.txs
    ensures Ok(CommitStep(s, x))
  {
    hide Run, WorkedOut, Settled, Halted;
    EndedOk(s, x);
    var t := s.txs[x];
    if !t.phase.Begun? && MayWrite(s, t) {
      ReadIsCurrent(s, x);
      if Settled(s.db, WorkedOut(t)) != s.db {
        WriteIsEvent(s, x);
        var n := CommitStep(s, x);
        forall y | y in n.txs
          ensures TxOk(n, y)
        {
          assert TxOk(s, y);
        }
      }
    }
  }

  lemma StepOk(s: System, a: Action)
    requires Ok(s)
    ensures Ok(Step(s, a))
  {
    hide Ok, ReadStep, DrawStep, CommitStep, Ended;
    match a
    case Begin(x, op) => BeginOk(s, x, op);
    case Read(x) =>
      if x in s.txs {
        ReadOk(s, x);
      }
    case Draw(x) =>
      if x in s.txs {
        DrawOk(s, x);
      }
    case Elsewhere => ElsewhereOk(s);
    case Commit(x) =>
      if x in s.txs {
        CommitOk(s, x);
      }
    case Abort(x) => EndedOk(s, x);
  }

  lemma {:induction false} InterleaveOk(s: System, actions: seq<Action>)
    requires Ok(s)
    ensures Ok(Interleave(s, actions))
    decreases |actions|
  {
    hide Ok, Step;
    if actions != [] {
      StepOk(s, actions[0]);
      InterleaveOk(Step(s, actions[0]), actions[1..]);
    }
  }

  /** The committed tables of every interleaving are those of a sequential run of the
      committed operations, in commit order, with the revisions they drew; so everything
      that holds of every run holds of every interleaving. */
  lemma InterleavingIsSequential(actions: seq<Action>)
    ensures var s := Interleave(IDLE, actions); s.db == Run(START, s.history).db
  {
    InterleaveOk(IDLE, actions);
  }

  /** And nothing is stuck: where the lock is free a transaction goes through with the next
      revision, has the effect it would have alone and leaves the lock free. */
  lemma FreeTransactionCommits(s: System, x: nat, op: Operation)
    requires x !in s.txs && s.holder == None
    ensures var read := Step(Step(s, Begin(x, op)), Read(x)); var done := Step(Step(read, Draw(x)), Commit(x));
      && done.db == Settled(s.db, WorkOf(s.db, op, s.counter + 1)) && done.counter == s.counter + 1
      && done.txs == s.txs && done.holder == None
      && |done.history| == |s.history| + if done.db == s.db then 0 else 1
  {
    hide Run, WorkOf, Settled;
    var begun := Step(s, Begin(x, op));
    assert x in begun.txs && begun.txs[x] == Tx(op, Begun);
    var read := Step(begun, Read(x));
    assert read.txs[x] == Tx(op, Reading(s.db, s.db.head.Some?));
    var drawn := Step(read, Draw(x));
    assert drawn.txs[x] == Tx(op, Drawn(s.db, s.db.head.Some?, s.counter + 1)) && drawn.db == s.db;
    assert drawn.history == s.history && MayWrite(drawn, drawn.txs[x]);
    assert drawn.txs - {x} == s.txs;
  }

  /** A transaction reads once, when it has begun: the empty tables where there is no head,
      and otherwise when it gets the lock. */
  lemma ReadsOnce(s: System, x: nat)
    requires x in s.txs
    ensures var n := Step(s, Read(x));
      && (s.txs[x].phase.Begun? && s.db.head.None? ==>
            n == s.(txs := s.txs[x := Tx(s.txs[x].op, Reading(s.db, false))]))
      && (s.txs[x].phase.Begun? && s.db.head.Some? && s.holder.None? ==>
            n == s.(txs := s.txs[x := Tx(s.txs[x].op, Reading(s.db, true))], holder := Some(x)))
      && (!s.txs[x].phase.Begun? || (s.db.head.Some? && s.holder.Some?) ==> n == s)
  {
  }
}
