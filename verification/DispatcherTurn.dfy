/** One dispatcher invocation as the source runs it, cmd/snagline-dispatcher/runtime.go and
    the finalizer of internal/edge/service.go, over the turn store, the spool and the
    authority.  Each effect is one step of module Dispatcher, so an invocation is a run of
    that machine and everything proved about its runs holds of it. */
module DispatcherTurn {
  import opened Common
  import Authority
  import AdviceSpool
  import TurnStore
  import opened Dispatcher
  import opened DispatcherRuns

  /** How the finalizer ends. */
  datatype Finalized = Submitted(p: AdviceSpool.Pending, revision: int) | AlreadyPending | PendingConflict
      | NotCommitted | Unavailable

  lemma {:induction false} RunMore(k: Codec, s: System, actions: seq<Action>, a: Action)
    ensures Run(k, s, actions + [a]) == Step(k, Run(k, s, actions), a)
    decreases |actions|
  {
    hide Step;
    if actions == [] {
      assert [a][1..] == [];
    } else {
      assert (actions + [a])[1..] == actions[1..] + [a];
      RunMore(k, Step(k, s, actions[0]), actions[1..], a);
    }
  }

  /** The system right after a submission, given the receipt that came back, if any. */
  lemma SubmitTakes(k: Codec, s: System, event: string, sub: Submission, token: string, p: AdviceSpool.Pending,
      lost: bool, receipt: Option<Authority.Receipt>)
    requires s.running == map[0 := Invocation(event, sub, token, Ready(p))]
    requires var answer := Authority.WorkOf(s.authority.db, Authority.CommitAdviceOp(k.decode(p.raw)),
      s.authority.top + 1).result;
      receipt == if lost || answer.Err? || answer.value.envelopeId != p.adviceId
        || answer.value.commitment != p.commitment || answer.value.revision <= 0
        then None else Some(answer.value)
    ensures Step(k, s, Action.Submit(0, 0, if lost then Unknown else NoFault)) == s.(
      authority := Authority.Apply(s.authority, Authority.Event(Authority.CommitAdviceOp(k.decode(p.raw)), 0)),
      submitted := s.submitted + {(sub.caseId, p.raw)},
      running := map[0 := Invocation(event, sub, token, if receipt.Some? then Answered(p, receipt.value)
        else Failing(false))])
  {
    hide Authority.WorkOf, Authority.Apply;
    assert forall stage ::
      s.running[0 := Invocation(event, sub, token, stage)] == map[0 := Invocation(event, sub, token, stage)];
  }

  class Process {
    const k: Codec
    const turns: TurnStore.Store
    const spool: AdviceSpool.Store
    /** A calm environment loses no answer and signs this advice; any other answers as it
        likes. */
    const calm: bool
    const signer: AdviceSpool.Pending

    var authority: Authority.State
    ghost var running: map<nat, Invocation>
    ghost var submitted: set<(string, Bytes)>
    ghost var outputs: set<(string, Bytes)>
    ghost var begun: System
    ghost var trace: seq<Action>

    constructor (k: Codec, turns: TurnStore.Store, spool: AdviceSpool.Store, authority: Authority.State, calm: bool,
        signer: AdviceSpool.Pending)
      ensures this.k == k && this.turns == turns && this.spool == spool && this.authority == authority
      ensures this.calm == calm && this.signer == signer
      ensures Traced() && running == map[] && trace == [] && submitted == {} && outputs == {}
    {
      this.k, this.turns, this.spool, this.authority := k, turns, spool, authority;
      this.calm, this.signer := calm, signer;
      running, submitted, outputs, trace := map[], {}, {}, [];
      begun := System(authority, spool.rows, turns.turns, map[], {}, {});
    }

    /** What a calm signer makes of a submission. */
    function WireFor(sub: Submission): AdviceSpool.Pending {
      AdviceSpool.Pending(signer.adviceId, sub.caseId, sub.caseCommitment, signer.commitment, signer.raw,
        signer.createdAt)
    }

    /** The spooled wire of the case, where there is one. */
    ghost function Pending(sub: Submission): AdviceSpool.Pending
      reads this, spool
    {
      if sub.caseId in spool.rows then spool.rows[sub.caseId].pending else WireFor(sub)
    }

    /** The calm signer's wire can be spooled and is then taken. */
    ghost predicate Signs(s: System, sub: Submission, revision: int) {
      && Replies(k, WireFor(sub), sub) && Spoolable(s.spool, WireFor(sub))
      && Takes(k, Spooling(k, s, 0, WireFor(sub)), WireFor(sub), revision)
    }

    ghost function View(): System
      reads this, turns, spool
    {
      System(authority, spool.rows, turns.turns, running, submitted, outputs)
    }

    /** What has happened so far is a run of the machine. */
    ghost predicate Traced()
      reads this, turns, spool
    {
      View() == Run(k, begun, trace)
    }

    /** Extends the trace by the step that was just taken. */
    ghost method Note(before: System, a: Action)
      requires before == Run(k, begun, trace) && View() == Step(k, before, a)
      modifies this`trace
      ensures Traced() && View() == old(View())
    {
      hide Step, Run;
      RunMore(k, begun, trace, a);
      trace := trace + [a];
    }

    ghost predicate AtStage(event: string, sub: Submission, token: string, stage: Stage)
      reads this
    {
      running == map[0 := Invocation(event, sub, token, stage)]
    }

    method Bind(event: string, sub: Submission, now: int, l: TurnStore.Limits, token: string)
        returns (b: Option<TurnStore.Binding>)
      requires Traced() && running == map[]
      modifies this, turns
      ensures Traced() && begun == old(begun)
      ensures b.Some? && b.value.Claimed? ==> AtStage(event, sub, b.value.token, Bound)
      ensures b.None? || !b.value.Claimed? ==> running == map[]
      ensures b.Some? && b.value.Completed? ==> (sub.caseId, b.value.result) in outputs
      ensures calm ==> View() == Step(k, old(View()), Action.Bind(0, event, sub, now, l, token, NoFault))
      ensures calm ==>
        var a := TurnStore.Bind(old(turns.turns), event, k.request(event, sub), now, l, token).result;
        b == if a.Ok? then Some(a.value) else None
    {
      hide Run, TurnStore.Bind;
      ghost var before := View();
      var lost: bool := *;
      lost := lost && !calm;
      var r := turns.BindDispatcherTurn(event, k.request(event, sub), now, l, token);
      if lost || r.Err? {
        Note(before, Action.Bind(0, event, sub, now, l, token, Unknown));
        return None;
      }
      if r.value.Completed? {
        outputs := outputs + {(sub.caseId, r.value.result)};
      } else if r.value.Claimed? {
        running := map[0 := Invocation(event, sub, r.value.token, Bound)];
      }
      Note(before, Action.Bind(0, event, sub, now, l, token, NoFault));
      b := Some(r.value);
    }

    /** LoadPendingAdvice, from FinalizeAdvice or from RetryAdvice. */
    method Load(event: string, sub: Submission, token: string, retrying: bool)
        returns (found: Option<AdviceSpool.Pending>)
      requires Traced() && AtStage(event, sub, token, if retrying then Retrying else Bound)
      modifies this
      ensures Traced() && begun == old(begun)
      ensures found.None? ==> AtStage(event, sub, token, if retrying then Failing(true) else Unspooled)
      ensures found.Some? ==> AtStage(event, sub, token,
        if retrying then Ready(found.value) else if k.matches(found.value.raw, sub) then Retrying else Failing(true))
      ensures View() == Step(k, old(View()), Action.Load(0))
      ensures found == if sub.caseId in spool.rows then Some(spool.rows[sub.caseId].pending) else None
    {
      hide Run;
      ghost var before := View();
      found := if sub.caseId in spool.rows then Some(spool.rows[sub.caseId].pending) else None;
      running := Step(k, before, Action.Load(0)).running;
      Note(before, Action.Load(0));
    }

    ghost method Abort(event: string, sub: Submission, token: string, stage: Stage, abandon: bool)
      requires Traced() && AtStage(event, sub, token, stage) && (stage.Bound? || stage.Unspooled? || stage.Retrying?)
      modifies this`running, this`trace
      ensures Traced() && AtStage(event, sub, token, Failing(abandon))
    {
      hide Run;
      ghost var before := View();
      running := Step(k, before, Action.Fail(0, abandon)).running;
      Note(before, Action.Fail(0, abandon));
    }

    /** FinalizeAdvice. */
    method FinalizeAdvice(event: string, sub: Submission, token: string) returns (r: Finalized)
      requires Traced() && AtStage(event, sub, token, Bound)
      modifies this, spool
      ensures Traced() && begun == old(begun)
      ensures r.Submitted? ==> AtStage(event, sub, token, Marked(r.p, r.revision))
      ensures r.AlreadyPending? ==> AtStage(event, sub, token, Retrying)
      ensures r.PendingConflict? || r.NotCommitted? ==> AtStage(event, sub, token, Failing(true))
      ensures r.Unavailable? ==> AtStage(event, sub, token, Failing(false))
      ensures Spooled(old(spool.rows), sub.caseId, old(Pending(sub))) ==>
        && r == (if k.matches(old(Pending(sub)).raw, sub) then AlreadyPending else PendingConflict)
        && View() == Step(k, old(View()), Action.Load(0)) && spool.rows == old(spool.rows)
      ensures forall revision | calm && Signs(old(View()), sub, revision) ::
        && r == Submitted(WireFor(sub), revision)
        && var m := Spooling(k, old(View()), 0, WireFor(sub));
           View() == Step(k, Step(k, m, Action.Submit(0, 0, NoFault)), Action.Mark(0, NoFault))
    {
      hide Run, Step, Takes;
      ghost var c := Call(event, sub, 0, TurnStore.Limits(0, 0, 0), token);
      ghost var before, wire := View(), WireFor(sub);
      ghost var well := calm && Replies(k, wire, sub) && Spoolable(before.spool, wire);
      if well {
        SpoolsFirst(k, before, 0, c, wire);
        RepliesMeans(k, wire, sub);
      }
      hide Replies, Faithful;
      var pending := Load(event, sub, token, false);
      if pending.Some? {
        return if k.matches(pending.value.raw, sub) then AlreadyPending else PendingConflict;
      }
      var committed: bool := *;
      if !committed && !calm {
        Abort(event, sub, token, Unspooled, true);
        return NotCommitted;
      }
      var p := SignAdvice(event, sub, token);
      if p.None? {
        return Unavailable;
      }
      assert well ==> p == Some(wire) && View() == Step(k, Step(k, before, Action.Load(0)), Action.Sign(0, wire));
      var saved := SavePending(event, sub, token, p.value);
      assert well ==> View() == Spooling(k, before, 0, wire) && 0 in running && running[0].stage == Ready(wire);
      if !saved {
        return Unavailable;
      }
      r := SubmitPendingAdvice(event, sub, token, p.value);
    }

    method SignAdvice(event: string, sub: Submission, token: string) returns (p: Option<AdviceSpool.Pending>)
      requires Traced() && AtStage(event, sub, token, Unspooled)
      modifies this
      ensures Traced() && begun == old(begun)
      ensures p.Some? ==> AtStage(event, sub, token, Signed(p.value))
      ensures p.None? ==> AtStage(event, sub, token, Failing(false))
      ensures calm && Faithful(k, WireFor(sub)) ==>
        p == Some(WireFor(sub)) && View() == Step(k, old(View()), Action.Sign(0, WireFor(sub)))
    {
      hide Run, Faithful;
      ghost var before := View();
      var id: string := *;
      var commitment: string := *;
      var raw: Bytes := *;
      var at: int := *;
      var pending := if calm then WireFor(sub)
        else AdviceSpool.Pending(id, sub.caseId, sub.caseCommitment, commitment, raw, at);
      if !Faithful(k, pending) {
        Abort(event, sub, token, Unspooled, false);
        return None;
      }
      running := map[0 := Invocation(event, sub, token, Signed(pending))];
      assert Step(k, before, Action.Sign(0, pending)).running == running;
      Note(before, Action.Sign(0, pending));
      p := Some(pending);
    }

    method SavePending(event: string, sub: Submission, token: string, p: AdviceSpool.Pending) returns (ok: bool)
      requires Traced() && AtStage(event, sub, token, Signed(p))
      modifies this, spool
      ensures Traced() && begun == old(begun)
      ensures AtStage(event, sub, token, if ok then Ready(p) else Failing(false))
      ensures calm ==> View() == Step(k, old(View()), Action.Save(0, NoFault))
    {
      hide Run, AdviceSpool.Save;
      ghost var before := View();
      ok := spool.SavePendingAdvice(p);
      var lost: bool := *;
      lost := lost && !calm;
      running := map[0 := Invocation(event, sub, token, if ok && !lost then Ready(p) else Failing(false))];
      ghost var a := Action.Save(0, if lost then Unknown else NoFault);
      assert Step(k, before, a).running == running;
      Note(before, a);
      ok := ok && !lost;
    }

    /** submitPendingAdvice: the wire goes to the authority, the receipt into the spool. */
    method SubmitPendingAdvice(event: string, sub: Submission, token: string, p: AdviceSpool.Pending)
        returns (r: Finalized)
      requires Traced() && AtStage(event, sub, token, Ready(p))
      modifies this, spool
      ensures Traced() && begun == old(begun)
      ensures r.Submitted? || r.Unavailable?
      ensures r.Submitted? ==> AtStage(event, sub, token, Marked(r.p, r.revision))
      ensures r.Unavailable? ==> AtStage(event, sub, token, Failing(false))
      ensures forall revision | calm && Takes(k, old(View()), p, revision) ::
        && r == Submitted(p, revision)
        && View() == Step(k, Step(k, old(View()), Action.Submit(0, 0, NoFault)), Action.Mark(0, NoFault))
    {
      hide Run, Step, Takes;
      ghost var c := Call(event, sub, 0, TurnStore.Limits(0, 0, 0), token);
      ghost var before := View();
      forall revision | Takes(k, before, p, revision)
        ensures var n := Step(k, before, Action.Submit(0, 0, NoFault));
          && 0 in n.running && n.running[0].stage == Answered(p, Authority.Receipt(revision, p.adviceId, p.commitment))
          && var m := Step(k, n, Action.Mark(0, NoFault)); 0 in m.running && m.running[0].stage == Marked(p, revision)
      {
        TakesMeans(k, before, 0, c, p, revision);
      }
      var receipt := Submit(event, sub, token, p);
      if receipt.None? {
        return Unavailable;
      }
      var marked := MarkAccepted(event, sub, token, p, receipt.value);
      r := if marked then Submitted(p, receipt.value.revision) else Unavailable;
    }

    method Submit(event: string, sub: Submission, token: string, p: AdviceSpool.Pending)
        returns (receipt: Option<Authority.Receipt>)
      requires Traced() && AtStage(event, sub, token, Ready(p))
      modifies this
      ensures Traced() && begun == old(begun)
      ensures AtStage(event, sub, token, if receipt.Some? then Answered(p, receipt.value) else Failing(false))
      ensures calm ==> View() == Step(k, old(View()), Action.Submit(0, 0, NoFault))
    {
      hide Run, Authority.WorkOf, Authority.Apply;
      ghost var before := View();
      var lost: bool := *;
      lost := lost && !calm;
      var op := Authority.CommitAdviceOp(k.decode(p.raw));
      var answer := Authority.WorkOf(authority.db, op, authority.top + 1).result;
      authority := Authority.Apply(authority, Authority.Event(op, 0));
      submitted := submitted + {(sub.caseId, p.raw)};
      if lost || answer.Err? || answer.value.envelopeId != p.adviceId || answer.value.commitment != p.commitment
        || answer.value.revision <= 0 {
        receipt := None;
      } else {
        receipt := Some(answer.value);
      }
      running := map[0 := Invocation(event, sub, token, if receipt.Some? then Answered(p, receipt.value)
        else Failing(false))];
      ghost var a := Action.Submit(0, 0, if lost then Unknown else NoFault);
      SubmitTakes(k, before, event, sub, token, p, lost, receipt);
      hide Step;
      Note(before, a);
    }

    method MarkAccepted(event: string, sub: Submission, token: string, p: AdviceSpool.Pending,
        receipt: Authority.Receipt) returns (ok: bool)
      requires Traced() && AtStage(event, sub, token, Answered(p, receipt))
      modifies this, spool
      ensures Traced() && begun == old(begun)
      ensures AtStage(event, sub, token, if ok then Marked(p, receipt.revision) else Failing(false))
      ensures calm ==> View() == Step(k, old(View()), Action.Mark(0, NoFault))
    {
      hide Run, AdviceSpool.Mark;
      ghost var before := View();
      ok := spool.MarkAdviceAcceptedRemote(AdviceSpool.Acceptance(p.adviceId, p.caseId, p.commitment, k.authority,
        receipt));
      var lost: bool := *;
      lost := lost && !calm;
      ghost var stage := if ok && !lost then Marked(p, receipt.revision) else Failing(false);
      running := map[0 := Invocation(event, sub, token, stage)];
      ghost var a := Action.Mark(0, if lost then Unknown else NoFault);
      assert Step(k, before, a).running == running;
      Note(before, a);
      ok := ok && !lost;
    }

    /** RetryAdvice. */
    method RetryAdvice(event: string, sub: Submission, token: string) returns (r: Finalized)
      requires Traced() && AtStage(event, sub, token, Retrying)
      modifies this, spool
      ensures Traced() && begun == old(begun)
      ensures !r.AlreadyPending? && !r.PendingConflict?
      ensures r.Submitted? ==> AtStage(event, sub, token, Marked(r.p, r.revision))
      ensures r.NotCommitted? ==> AtStage(event, sub, token, Failing(true))
      ensures r.Unavailable? ==> AtStage(event, sub, token, Failing(false))
      ensures forall revision | calm && Spooled(old(spool.rows), sub.caseId, old(Pending(sub)))
          && Takes(k, Step(k, old(View()), Action.Load(0)), old(Pending(sub)), revision) ::
        && r == Submitted(old(Pending(sub)), revision)
        && var l := Step(k, old(View()), Action.Load(0));
           View() == Step(k, Step(k, l, Action.Submit(0, 0, NoFault)), Action.Mark(0, NoFault))
    {
      hide Run, Step, Takes;
      var pending := Load(event, sub, token, true);
      if pending.None? {
        return NotCommitted;
      }
      r := SubmitPendingAdvice(event, sub, token, pending.value);
    }

    method GiveBack(event: string, sub: Submission, token: string, abandon: bool)
      requires Traced() && AtStage(event, sub, token, Failing(abandon))
      modifies this, turns
      ensures Traced() && begun == old(begun) && running == map[]
    {
      hide Run, TurnStore.GiveBack;
      ghost var before := View();
      var r := turns.UpdatePendingClaim(event, k.request(event, sub), token, abandon);
      running := map[];
      assert Step(k, before, Action.GiveBack(0)).running == running;
      Note(before, Action.GiveBack(0));
    }

    method Complete(event: string, sub: Submission, token: string, p: AdviceSpool.Pending, revision: int)
        returns (out: Option<Bytes>)
      requires Traced() && AtStage(event, sub, token, Marked(p, revision))
      modifies this, turns
      ensures Traced() && begun == old(begun) && running == map[]
      ensures out.Some? ==>
        (sub.caseId, out.value) in outputs && out.value == k.result(CommandResult(p.adviceId, revision))
      ensures calm ==> View() == Step(k, old(View()), Action.Complete(0, NoFault))
      ensures calm ==> (out.Some? <==> TurnStore.Complete(old(turns.turns), event, k.request(event, sub),
        k.result(CommandResult(p.adviceId, revision)), token).result.Ok?)
    {
      hide Run, TurnStore.Complete;
      ghost var before := View();
      var bytes := k.result(CommandResult(p.adviceId, revision));
      var r := turns.CompleteDispatcherTurn(event, k.request(event, sub), bytes, token);
      var lost: bool := *;
      lost := lost && !calm;
      running := map[];
      if r.Ok? && !lost {
        outputs := outputs + {(sub.caseId, bytes)};
      }
      ghost var a := Action.Complete(0, if lost then Unknown else NoFault);
      assert Step(k, before, a).running == running;
      Note(before, a);
      out := if r.Ok? && !lost then Some(bytes) else None;
    }

    /** The rest of an invocation once its wire is ready: the authority, the spool, the turn. */
    ghost function Ending(s: System): System {
      Step(k, Step(k, Step(k, s, Action.Submit(0, 0, NoFault)), Action.Mark(0, NoFault)), Action.Complete(0, NoFault))
    }

    ghost predicate CanComplete(t: TurnStore.Table, event: string, sub: Submission, token: string,
        p: AdviceSpool.Pending, revision: int) {
      TurnStore.Complete(t, event, k.request(event, sub), ResultOf(k, p, revision), token).result.Ok?
    }

    /** Nothing is spooled for the case, and all goes well with the calm signer's wire. */
    ghost predicate FirstGoesWell(s: System, event: string, sub: Submission, token: string, revision: int) {
      Signs(s, sub, revision) && CanComplete(s.turns, event, sub, token, WireFor(sub), revision)
    }

    /** A wire for the submission is spooled, and all goes well with it. */
    ghost predicate RetryGoesWell(s: System, event: string, sub: Submission, token: string, revision: int) {
      && sub.caseId in s.spool
      && var p := s.spool[sub.caseId].pending;
         && k.matches(p.raw, sub) && CanComplete(s.turns, event, sub, token, p, revision)
         && Takes(k, Step(k, Step(k, s, Action.Load(0)), Action.Load(0)), p, revision)
    }

    /** The invocation from its claim on. */
    method WorkOnTurn(event: string, sub: Submission, token: string) returns (out: Option<Bytes>)
      requires Traced() && AtStage(event, sub, token, Bound)
      modifies this, turns, spool
      ensures Traced() && begun == old(begun) && running == map[]
      ensures out.Some? ==> (sub.caseId, out.value) in outputs
      ensures forall revision | calm && FirstGoesWell(old(View()), event, sub, token, revision) ::
        out == Some(ResultOf(k, WireFor(sub), revision)) && View() == Ending(Spooling(k, old(View()), 0, WireFor(sub)))
      ensures forall revision | calm && RetryGoesWell(old(View()), event, sub, token, revision) ::
        && out == Some(ResultOf(k, old(Pending(sub)), revision))
        && View() == Ending(Step(k, Step(k, old(View()), Action.Load(0)), Action.Load(0)))
    {
      hide Run, Step, Takes, TurnStore.Complete, Spooling, Replies, Spoolable;
      ghost var before, pending := View(), Pending(sub);
      var result := FinalizeAdvice(event, sub, token);
      assert sub.caseId in before.spool ==> Pending(sub) == pending;
      if result.AlreadyPending? {
        ghost var loaded := View();
        result := RetryAdvice(event, sub, token);
        assert sub.caseId in before.spool ==> loaded == Step(k, before, Action.Load(0));
      }
      assert forall revision | calm && RetryGoesWell(before, event, sub, token, revision) ::
        result == Submitted(pending, revision);
      match result
      case PendingConflict => GiveBack(event, sub, token, true); out := None;
      case NotCommitted => GiveBack(event, sub, token, true); out := None;
      case Unavailable => GiveBack(event, sub, token, false); out := None;
      case Submitted(p, revision) => out := Complete(event, sub, token, p, revision);
    }

    /** A first turn goes well from its bind on. */
    ghost predicate FirstSteps(s: System, c: Call) {
      var n, revision := Step(k, s, BindCall(0, c, NoFault)), s.authority.top + 1;
      && n.running == map[0 := Called(c, Bound)] && FirstGoesWell(n, c.event, c.submission, c.token, revision)
      && Run(k, s, Opening(0, c, WireFor(c.submission)) + Closing(0, 0))
           == Ending(Spooling(k, n, 0, WireFor(c.submission)))
    }

    lemma FirstStepsGoWell(s: System, c: Call)
      requires s.running == map[] && FirstTurn(k, s, c, WireFor(c.submission))
      ensures FirstSteps(s, c)
    {
      hide Run, Step, Takes, FirstTurn, Replies, Spoolable, Spooling, Opening, Closing, CallOk, Holds,
        TurnStore.Complete, Commit, Answers.Blank, AdviceSpool.Complete;
      var p, revision := WireFor(c.submission), s.authority.top + 1;
      FirstIsTaken(k, s, 0, c, p);
      RunFirst(k, s, 0, c, p);
      CompletesHeld(k, Step(k, s, BindCall(0, c, NoFault)).turns, c, ResultOf(k, p, revision));
    }

    /** So does a turn that is taken up again. */
    ghost predicate RetakenSteps(s: System, c: Call, revision: int) {
      var n := Step(k, s, BindCall(0, c, NoFault));
      && n.running == map[0 := Called(c, Bound)] && n.spool == s.spool
      && RetryGoesWell(n, c.event, c.submission, c.token, revision)
      && Run(k, s, Reopening(0, c) + Closing(0, 0))
           == Ending(Step(k, Step(k, n, Action.Load(0)), Action.Load(0)))
    }

    lemma RetakenStepsGoWell(s: System, c: Call, p: AdviceSpool.Pending, revision: int)
      requires s.running == map[] && Retakes(k, s, c, p, revision)
      ensures RetakenSteps(s, c, revision) && Spooled(s.spool, c.submission.caseId, p)
    {
      RetakesMeans(k, s, c, p, revision);
      RetakenIsTaken(k, s, 0, c, p, revision);
      RunRetaken(k, s, 0, c);
      hide Run, Step, Takes, Retakes, Reopening, Closing, Markable, Committed, Authority.AdviceRequestOk, Faithful,
        AdviceSpool.Complete, Answers.Blank, Idle;
      CompletesHeld(k, Step(k, s, BindCall(0, c, NoFault)).turns, c, ResultOf(k, p, revision));
      hide TurnStore.Complete, CallOk, Holds;
    }

    /** runDispatcherTurn: what it prints as accepted is an output of the machine's run.  In a
        calm environment it prints the stored result of a completed turn, the revision drawn
        for a first advice, and the committed revision of a spooled one. */
    method RunDispatcherTurn(event: string, sub: Submission, now: int, l: TurnStore.Limits, token: string)
        returns (out: Option<Bytes>)
      requires Traced() && running == map[]
      modifies this, turns, spool
      ensures Traced() && begun == old(begun) && running == map[]
      ensures out.Some? ==> (sub.caseId, out.value) in outputs
      ensures forall r | calm && TurnStore.Bind(old(turns.turns), event, k.request(event, sub), now, l, token).result
          == Ok(TurnStore.Completed(r)) :: out == Some(r)
      ensures calm && FirstTurn(k, old(View()), Call(event, sub, now, l, token), WireFor(sub)) ==>
        && out == Some(ResultOf(k, WireFor(sub), old(authority).top + 1))
        && View() == Run(k, old(View()), Opening(0, Call(event, sub, now, l, token), WireFor(sub)) + Closing(0, 0))
      ensures forall p, revision | calm && Retakes(k, old(View()), Call(event, sub, now, l, token), p, revision) ::
        && out == Some(ResultOf(k, p, revision))
        && View() == Run(k, old(View()), Reopening(0, Call(event, sub, now, l, token)) + Closing(0, 0))
    {
      hide Run, Step, Takes, FirstTurn, Retakes, TurnStore.Bind, Opening, Closing, Reopening, Spooling, FirstGoesWell,
        RetryGoesWell, Ending, ResultOf;
      ghost var c, before := Call(event, sub, now, l, token), View();
      if FirstTurn(k, before, c, WireFor(sub)) {
        FirstStepsGoWell(before, c);
      }
      forall p, revision | Retakes(k, before, c, p, revision)
        ensures RetakenSteps(before, c, revision) && Spooled(before.spool, sub.caseId, p)
      {
        RetakenStepsGoWell(before, c, p, revision);
      }
      var binding := Bind(event, sub, now, l, token);
      ghost var bound := View();
      assert calm ==> bound == Step(k, before, BindCall(0, c, NoFault));
      assert calm && FirstSteps(before, c) ==> 0 in running && running[0] == Called(c, Bound);
      assert forall revision | calm && RetakenSteps(before, c, revision) ::
        0 in running && running[0] == Called(c, Bound);
      if binding.None? || binding.value.InFlight? {
        return None;
      }
      if binding.value.Completed? {
        return Some(binding.value.result);
      }
      out := WorkOnTurn(event, sub, binding.value.token);
    }
  }
}
