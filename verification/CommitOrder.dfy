/** Concurrent authority transactions, step by step: they begin, lock their tenant's
    registry head, draw a revision from the one counter all tenants share, and
    commit or abort in any order (internal/authority/postgres/store.go).  A reader
    pages through one tenant's facts by revision while this goes on. */
module CommitOrder {
  import Paging

  /** A fact is a case or an advice; a registry also draws a revision but is no fact. */
  datatype Phase = Begun | Locked | Drawn(revision: int, fact: bool)
  datatype Tx = Tx(tenant: string, phase: Phase)

  /** The reader's cursor is the revision of the last fact it was given. */
  datatype Reader = Reader(tenant: string, cursor: int, seen: seq<int>)

  /** facts lists each tenant's committed case and advice revisions in commit order. */
  datatype State = State(counter: nat, txs: map<nat, Tx>, holder: map<string, nat>, facts: map<string, seq<int>>,
      reader: Reader)

  datatype Action = Begin(tx: nat, tenant: string) | Lock(tx: nat) | Draw(tx: nat, fact: bool) | Commit(tx: nat)
      | Abort(tx: nat) | Page(limit: nat)

  function Facts(s: State, tenant: string): seq<int> {
    if tenant in s.facts then s.facts[tenant] else []
  }

  /** The end of a transaction releases the head lock it holds. */
  function Ended(s: State, tx: nat): State {
    s.(txs := s.txs - {tx}, holder := map t | t in s.holder && s.holder[t] != tx :: s.holder[t])
  }

  /** A fact is drawn under the head lock when lockFirst holds, as the store does it.
      A registry may find no head row to lock. */
  predicate MayDraw(lockFirst: bool, phase: Phase, fact: bool) {
    phase.Locked? || (phase.Begun? && (fact ==> !lockFirst))
  }

  function CommitTx(s: State, x: nat): State
    requires x in s.txs
  {
    var t := s.txs[x];
    if t.phase.Drawn? && t.phase.fact
    then Ended(s.(facts := s.facts[t.tenant := Facts(s, t.tenant) + [t.phase.revision]]), x)
    else Ended(s, x)
  }

  function ReadPage(s: State, limit: nat): State {
    var page := Paging.Ordered(Paging.Elements(Facts(s, s.reader.tenant)), s.reader.cursor, limit);
    var cursor := if page == [] then s.reader.cursor else page[|page| - 1];
    s.(reader := s.reader.(seen := s.reader.seen + page, cursor := cursor))
  }

  /** A step that is not enabled waits: it changes nothing. */
  function Step(lockFirst: bool, s: State, a: Action): State {
    match a
    case Begin(x, tenant) => if x in s.txs then s else s.(txs := s.txs[x := Tx(tenant, Begun)])
    case Lock(x) =>
      if x in s.txs && s.txs[x].phase.Begun? && s.txs[x].tenant !in s.holder
      then s.(txs := s.txs[x := s.txs[x].(phase := Locked)], holder := s.holder[s.txs[x].tenant := x])
      else s
    case Draw(x, fact) =>
      if x in s.txs && MayDraw(lockFirst, s.txs[x].phase, fact)
      then s.(txs := s.txs[x := s.txs[x].(phase := Drawn(s.counter + 1, fact))], counter := s.counter + 1)
      else s
    case Commit(x) => if x in s.txs then CommitTx(s, x) else s
    case Abort(x) => Ended(s, x)
    case Page(limit) => ReadPage(s, limit)
  }

  function Run(lockFirst: bool, s: State, actions: seq<Action>): State
    decreases |actions|
  {
    if actions == [] then s else Run(lockFirst, Step(lockFirst, s, actions[0]), actions[1..])
  }

  function Start(tenant: string): State {
    State(0, map[], map[], map[], Reader(tenant, 0, []))
  }

  // ----- What every interleaving keeps -----

  ghost predicate Within(revisions: seq<int>, counter: int) {
    forall i | 0 <= i < |revisions| :: 0 < revisions[i] <= counter
  }

  ghost predicate Below(revisions: seq<int>, revision: int) {
    forall i | 0 <= i < |revisions| :: revisions[i] < revision
  }

  ghost predicate FactsOk(counter: int, facts: map<string, seq<int>>) {
    forall t | t in facts :: Paging.StrictlyIncreasing(facts[t]) && Within(facts[t], counter)
  }

  /** Who locked the head holds it, and a fact in flight is newer than the tenant's committed ones. */
  ghost predicate TxOk(t: Tx, x: nat, holder: map<string, nat>, counter: int, committed: seq<int>) {
    match t.phase
    case Begun => true
    case Locked => t.tenant in holder && holder[t.tenant] == x
    case Drawn(revision, fact) =>
      fact ==>
        && t.tenant in holder && holder[t.tenant] == x
        && 0 < revision <= counter && Below(committed, revision)
  }

  ghost predicate TxsOk(s: State) {
    forall x | x in s.txs :: TxOk(s.txs[x], x, s.holder, s.counter, Facts(s, s.txs[x].tenant))
  }

  ghost predicate ReaderOk(r: Reader, facts: seq<int>) {
    && r.seen <= facts
    && r.cursor == if r.seen == [] then 0 else r.seen[|r.seen| - 1]
  }

  ghost predicate Ok(s: State) {
    FactsOk(s.counter, s.facts) && TxsOk(s) && ReaderOk(s.reader, Facts(s, s.reader.tenant))
  }

  lemma EndedOk(s: State, x: nat)
    requires Ok(s)
    ensures Ok(Ended(s, x))
  {
    hide FactsOk, Below, ReaderOk;
  }

  lemma DrawOk(s: State, x: nat, fact: bool)
    requires Ok(s)
    ensures Ok(Step(true, s, Draw(x, fact)))
  {
    hide ReaderOk;
  }

  lemma AppendIncreasing(revisions: seq<int>, revision: int)
    requires Paging.StrictlyIncreasing(revisions) && Below(revisions, revision)
    ensures Paging.StrictlyIncreasing(revisions + [revision])
  {
  }

  /** A committing fact extends its tenant's facts; no other fact of the tenant is in flight. */
  lemma CommitOk(s: State, x: nat)
    requires Ok(s) && x in s.txs
    ensures Ok(CommitTx(s, x))
  {
    hide Paging.StrictlyIncreasing;
    var t := s.txs[x];
    if t.phase.Drawn? && t.phase.fact {
      AppendIncreasing(Facts(s, t.tenant), t.phase.revision);
    } else {
      EndedOk(s, x);
    }
  }

  /** A page gives the reader exactly the next facts in commit order. */
  lemma PageIsNext(r: Reader, facts: seq<int>, counter: int, limit: nat)
    requires ReaderOk(r, facts) && Paging.StrictlyIncreasing(facts) && Within(facts, counter)
    ensures var page := Paging.Ordered(Paging.Elements(facts), r.cursor, limit);
      var end := if |facts| - |r.seen| < limit then |facts| else |r.seen| + limit;
      r.seen + page == facts[..end] && page == facts[|r.seen|..end]
  {
    hide Paging.Ordered;
    var n := |r.seen|;
    assert forall i | 0 <= i < n :: r.seen[i] == facts[i];
    Paging.OrderedIsSlice(facts, n, r.cursor, limit);
  }

  lemma PageOk(s: State, limit: nat)
    requires Ok(s)
    ensures var facts := Facts(s, s.reader.tenant); var n := |s.reader.seen|;
      ReadPage(s, limit).reader.seen == facts[..if |facts| - n < limit then |facts| else n + limit]
    ensures Ok(ReadPage(s, limit))
  {
    hide Paging.Ordered, Paging.StrictlyIncreasing, Within, TxOk;
    assert Paging.StrictlyIncreasing([]) && Within([], s.counter) by {
      EmptyOk(s.counter);
    }
    PageIsNext(s.reader, Facts(s, s.reader.tenant), s.counter, limit);
  }

  lemma EmptyOk(counter: int)
    ensures Paging.StrictlyIncreasing([]) && Within([], counter)
  {
  }

  lemma StepOk(s: State, a: Action)
    requires Ok(s)
    ensures Ok(Step(true, s, a))
  {
    hide FactsOk, Below, ReaderOk, CommitTx, Ended, ReadPage;
    match a
    case Begin(_, _) =>
    case Lock(_) =>
    case Draw(x, fact) => DrawOk(s, x, fact);
    case Commit(x) =>
      if x in s.txs {
        CommitOk(s, x);
      }
    case Abort(x) => EndedOk(s, x);
    case Page(limit) => PageOk(s, limit);
  }

  lemma {:induction false} RunOk(s: State, actions: seq<Action>)
    requires Ok(s)
    ensures Ok(Run(true, s, actions))
    decreases |actions|
  {
    if actions != [] {
      StepOk(s, actions[0]);
      RunOk(Step(true, s, actions[0]), actions[1..]);
    }
  }

  /** Under every interleaving the facts of each tenant commit in revision order, what
      the reader saw is a prefix of them, and a page that is not full brings it level. */
  lemma ReaderNeverSkips(tenant: string, actions: seq<Action>, limit: nat)
    ensures var s := Run(true, Start(tenant), actions);
      && (forall t :: Paging.StrictlyIncreasing(Facts(s, t)))
      && s.reader.seen <= Facts(s, s.reader.tenant)
      && (|ReadPage(s, limit).reader.seen| < |s.reader.seen| + limit ==>
        ReadPage(s, limit).reader.seen == Facts(s, s.reader.tenant))
  {
    hide Run, ReadPage;
    RunOk(Start(tenant), actions);
    PageOk(Run(true, Start(tenant), actions), limit);
  }

  /** The lock is given exactly to a transaction that has just begun, while no one of its
      tenant holds it. */
  lemma LockExactly(s: State, x: nat)
    ensures var n := Step(true, s, Lock(x));
      if x in s.txs && s.txs[x].phase.Begun? && s.txs[x].tenant !in s.holder
      then n == s.(txs := s.txs[x := Tx(s.txs[x].tenant, Locked)], holder := s.holder[s.txs[x].tenant := x])
      else n == s
  {
  }

  /** And nothing is stuck: where the lock is free a transaction goes through, commits the
      next revision as the tenant's newest fact and leaves the lock free again. */
  lemma FreeTenantCommits(s: State, x: nat, tenant: string)
    requires x !in s.txs && tenant !in s.holder && forall t | t in s.holder :: s.holder[t] != x
    ensures var locked := Step(true, Step(true, s, Begin(x, tenant)), Lock(x));
      var done := Step(true, Step(true, locked, Draw(x, true)), Commit(x));
      && Facts(done, tenant) == Facts(s, tenant) + [s.counter + 1] && done.counter == s.counter + 1
      && done.txs == s.txs && done.holder == s.holder
  {
    var begun := Step(true, s, Begin(x, tenant));
    assert begun.txs[x] == Tx(tenant, Begun) && x in begun.txs;
    var locked := Step(true, begun, Lock(x));
    assert locked.txs[x] == Tx(tenant, Locked) && locked.holder == s.holder[tenant := x];
    var drawn := Step(true, locked, Draw(x, true));
    assert drawn.txs[x] == Tx(tenant, Drawn(s.counter + 1, true)) && drawn.holder == s.holder[tenant := x];
    assert drawn.facts == s.facts;
    var done := Step(true, drawn, Commit(x));
    assert done.txs == s.txs;
    assert done.holder == s.holder;
  }

  /** Drawing the revision before the lock is what would break it: a later fact commits
      first, the reader passes it, and the earlier one is never shown. */
  lemma UnlockedDrawSkips()
    ensures exists actions ::
      var s := Run(false, Start("t"), actions);
      s.reader == Reader("t", 2, [2]) && Facts(s, "t") == [2, 1] && forall limit ::
        ReadPage(s, limit).reader == s.reader
  {
    hide Run, Step, ReadPage;
    var actions := [Begin(1, "t"), Begin(2, "t"), Draw(1, true), Draw(2, true), Commit(2), Page(9), Commit(1)];
    RunTwo(Start("t"), actions);
    RunTwo(Step(false, Step(false, Start("t"), actions[0]), actions[1]), actions[2..]);
    BothDrawn();
    RunThree(BOTH_DRAWN, actions[4..]);
    LaterCommitted();
    LaterShown();
    EarlierCommitted();
    NothingMore();
    assert Run(false, Start("t"), actions) == LATE;
  }

  const BOTH_DRAWN := State(2, map[1 := Tx("t", Drawn(1, true)), 2 := Tx("t", Drawn(2, true))], map[], map[],
    Reader("t", 0, []))
  const SHOWN := State(2, map[1 := Tx("t", Drawn(1, true))], map[], map["t" := [2]], Reader("t", 2, [2]))
  const LATE := State(2, map[], map[], map["t" := [2, 1]], Reader("t", 2, [2]))

  lemma BothDrawn()
    ensures Step(false, Step(false, Step(false, Step(false, Start("t"), Begin(1, "t")), Begin(2, "t")), Draw(1, true)),
      Draw(2, true)) == BOTH_DRAWN
  {
    hide CommitTx, Ended, ReadPage;
  }

  const LATER_COMMITTED := State(2, map[1 := Tx("t", Drawn(1, true))], map[], map["t" := [2]], Reader("t", 0, []))

  lemma LaterCommitted()
    ensures Step(false, BOTH_DRAWN, Commit(2)) == LATER_COMMITTED
  {
    var c := CommitTx(BOTH_DRAWN, 2);
    assert Facts(BOTH_DRAWN, "t") + [2] == [2];
    assert c.txs == LATER_COMMITTED.txs && c.holder == map[] && c.facts == LATER_COMMITTED.facts;
  }

  lemma LaterShown()
    ensures Step(false, LATER_COMMITTED, Page(9)) == SHOWN
  {
    hide Paging.Ordered, Paging.Elements;
    Paging.OrderedIsSlice([2], 0, 0, 9);
    assert [2][0..1] == [2];
  }

  lemma EarlierCommitted()
    ensures Step(false, SHOWN, Commit(1)) == LATE
  {
    var c := CommitTx(SHOWN, 1);
    assert Facts(SHOWN, "t") + [1] == [2, 1];
    assert c.txs == map[] && c.holder == map[] && c.facts == LATE.facts;
  }

  lemma NothingMore()
    ensures forall limit :: ReadPage(LATE, limit).reader == LATE.reader
  {
    assert forall k | k in Paging.Elements([2, 1]) :: k <= 2;
  }

  lemma RunTwo(s: State, actions: seq<Action>)
    requires |actions| >= 2
    ensures Run(false, s, actions) == Run(false, Step(false, Step(false, s, actions[0]), actions[1]), actions[2..])
  {
    hide Step;
    assert actions[1..][1..] == actions[2..];
  }

  lemma RunThree(s: State, actions: seq<Action>)
    requires |actions| == 3
    ensures Run(false, s, actions) == Step(false, Step(false, Step(false, s, actions[0]), actions[1]), actions[2])
  {
    hide Step;
    RunTwo(s, actions);
    assert actions[2..][1..] == [];
  }
}
