/** Racing dispatcher invocations over one turn store, one spool and one authority:
    runDispatcherTurn of cmd/snagline-dispatcher/runtime.go with the finalizer of
    internal/edge/service.go, one effect at a time.  Any invocation may die between two
    effects, any store may fail or lose its answer, and any reply may be lost. */
module Dispatcher {
  import opened Common
  import Authority
  import AuthorityInvariant
  import AuthorityTheorems
  import AdviceSpool
  import TurnStore

  datatype Submission = Submission(caseId: string, caseCommitment: string, text: string, publicSummary: string)
  datatype CommandResult = CommandResult(adviceId: string, revision: int)

  /** The encodings in use: canonical JSON of requests (event and submission) and results, the commit request
      that the control service reads from an advice wire, and the comparison of a wire
      with a submission. */
  datatype Codec = Codec(
    request: (string, Submission) -> Bytes, result: CommandResult -> Bytes,
    decode: Bytes -> Authority.AdviceRequest, matches: (Bytes, Submission) -> bool, authority: string)

  ghost predicate CodecOk(k: Codec) {
    && (forall e, f, a, b | k.request(e, a) == k.request(f, b) :: e == f && a == b)
    && (forall a, b | k.result(a) == k.result(b) :: a == b)
  }

  /** The wire is the advice it is filed as. */
  predicate Faithful(k: Codec, p: AdviceSpool.Pending) {
    var q := k.decode(p.raw);
    q.caseId == p.caseId && q.envelopeId == p.adviceId && q.commitment == p.commitment
  }

  // ----- One invocation -----

  datatype Stage =
    | Bound
    | Unspooled
    | Retrying
    | Signed(p: AdviceSpool.Pending)
    | Ready(p: AdviceSpool.Pending)
    | Answered(p: AdviceSpool.Pending, receipt: Authority.Receipt)
    | Marked(p: AdviceSpool.Pending, revision: int)
    | Failing(abandon: bool)

  datatype Invocation = Invocation(event: string, submission: Submission, token: string, stage: Stage)

  datatype System = System(
    authority: Authority.State, spool: AdviceSpool.Spool, turns: TurnStore.Table, running: map<nat, Invocation>,
    submitted: set<(string, Bytes)>, outputs: set<(string, Bytes)>)

  datatype Fault = NoFault | Failed | Unknown

  datatype Action =
    | Bind(x: nat, event: string, submission: Submission, now: int, limits: TurnStore.Limits, token: string,
        fault: Fault)
    | Load(x: nat)
    | Sign(x: nat, p: AdviceSpool.Pending)
    | Fail(x: nat, abandon: bool)
    | Save(x: nat, fault: Fault)
    | Submit(x: nat, gap: nat, fault: Fault)
    | Mark(x: nat, fault: Fault)
    | Complete(x: nat, fault: Fault)
    | GiveBack(x: nat)
    | Crash(x: nat)
    | Other(e: Authority.Event)

  function At(s: System, x: nat, stage: Stage): System
    requires x in s.running
  {
    s.(running := s.running[x := s.running[x].(stage := stage)])
  }

  function Gone(s: System, x: nat): System {
    s.(running := s.running - {x})
  }

  /** BindDispatcherTurn and what follows from its answer. */
  function BindStep(k: Codec, s: System, x: nat, event: string, sub: Submission, now: int, l: TurnStore.Limits,
      token: string, f: Fault): System {
    if x in s.running || f.Failed? then s
    else
      var a := TurnStore.Bind(s.turns, event, k.request(event, sub), now, l, token);
      var t := s.(turns := a.table);
      if f.Unknown? || a.result.Err? then t
      else match a.result.value
        case Completed(r) => t.(outputs := t.outputs + {(sub.caseId, r)})
        case InFlight => t
        case Claimed(token) => t.(running := t.running[x := Invocation(event, sub, token, Bound)])
  }

  /** LoadPendingAdvice at the head of FinalizeAdvice and of RetryAdvice. */
  function LoadStep(k: Codec, s: System, x: nat, i: Invocation): System
    requires x in s.running
  {
    var c := i.submission.caseId;
    match i.stage
    case Bound =>
      if c !in s.spool then At(s, x, Unspooled)
      else if k.matches(s.spool[c].pending.raw, i.submission) then At(s, x, Retrying)
      else At(s, x, Failing(true))
    case Retrying => if c in s.spool then At(s, x, Ready(s.spool[c].pending)) else At(s, x, Failing(true))
    case _ => s
  }

  /** Reading the case and signing an advice for it, after the load found none. */
  function SignStep(k: Codec, s: System, x: nat, i: Invocation, p: AdviceSpool.Pending): System
    requires x in s.running
  {
    if i.stage.Unspooled? && p.caseId == i.submission.caseId && p.caseCommitment == i.submission.caseCommitment
      && Faithful(k, p)
    then At(s, x, Signed(p)) else s
  }

  /** A step before the spool that fails gives the turn up or leaves it to a retry. */
  function FailStep(s: System, x: nat, i: Invocation, abandon: bool): System
    requires x in s.running
  {
    if i.stage.Bound? || i.stage.Unspooled? || i.stage.Retrying? then At(s, x, Failing(abandon)) else s
  }

  function SaveStep(s: System, x: nat, i: Invocation, f: Fault): System
    requires x in s.running
  {
    if !i.stage.Signed? then s
    else
      var saved := AdviceSpool.Save(s.spool, i.stage.p);
      if f.Failed? || saved.None? then At(s, x, Failing(false))
      else At(s.(spool := saved.value), x, if f.Unknown? then Failing(false) else Ready(i.stage.p))
  }

  /** The submission reaches the authority, whose answer may be lost. */
  function SubmitStep(k: Codec, s: System, x: nat, i: Invocation, gap: nat, f: Fault): System
    requires x in s.running
  {
    if !i.stage.Ready? then s
    else
      var p := i.stage.p;
      var t := s.(submitted := s.submitted + {(i.submission.caseId, p.raw)});
      if f.Failed? then At(t, x, Failing(false))
      else
        var op := Authority.CommitAdviceOp(k.decode(p.raw));
        var answer := Authority.WorkOf(s.authority.db, op, s.authority.top + 1 + gap).result;
        var u := t.(authority := Authority.Apply(s.authority, Authority.Event(op, gap)));
        if f.Unknown? || answer.Err? then At(u, x, Failing(false))
        else if answer.value.envelopeId != p.adviceId || answer.value.commitment != p.commitment
          || answer.value.revision <= 0 then At(u, x, Failing(false))
        else At(u, x, Answered(p, answer.value))
  }

  function MarkStep(k: Codec, s: System, x: nat, i: Invocation, f: Fault): System
    requires x in s.running
  {
    if !i.stage.Answered? then s
    else
      var p := i.stage.p;
      var marked := AdviceSpool.Mark(s.spool, AdviceSpool.Acceptance(p.adviceId, p.caseId, p.commitment, k.authority,
        i.stage.receipt));
      if f.Failed? || marked.None? then At(s, x, Failing(false))
      else At(s.(spool := marked.value), x, if f.Unknown? then Failing(false) else Marked(p, i.stage.receipt.revision))
  }

  /** The result is stored with the turn and only then put out. */
  function CompleteStep(k: Codec, s: System, x: nat, i: Invocation, f: Fault): System
    requires x in s.running
  {
    if !i.stage.Marked? then s
    else
      var r := k.result(CommandResult(i.stage.p.adviceId, i.stage.revision));
      var a := TurnStore.Complete(s.turns, i.event, k.request(i.event, i.submission), r, i.token);
      if f.Failed? then Gone(s, x)
      else if f.Unknown? || a.result.Err? then Gone(s.(turns := a.table), x)
      else Gone(s.(turns := a.table, outputs := s.outputs + {(i.submission.caseId, r)}), x)
  }

  function GiveBackStep(k: Codec, s: System, x: nat, i: Invocation): System
    requires x in s.running
  {
    if !i.stage.Failing? then s
    else Gone(s.(turns := TurnStore.GiveBack(s.turns, i.event, k.request(i.event, i.submission), i.token,
      i.stage.abandon).table), x)
  }

  function Step(k: Codec, s: System, a: Action): System {
    match a
    case Bind(x, event, sub, now, l, token, f) => BindStep(k, s, x, event, sub, now, l, token, f)
    case Other(e) => s.(authority := Authority.Apply(s.authority, e))
    case Crash(x) => Gone(s, x)
    case Load(x) => if x in s.running then LoadStep(k, s, x, s.running[x]) else s
    case Sign(x, p) => if x in s.running then SignStep(k, s, x, s.running[x], p) else s
    case Fail(x, abandon) => if x in s.running then FailStep(s, x, s.running[x], abandon) else s
    case Save(x, f) => if x in s.running then SaveStep(s, x, s.running[x], f) else s
    case Submit(x, gap, f) => if x in s.running then SubmitStep(k, s, x, s.running[x], gap, f) else s
    case Mark(x, f) => if x in s.running then MarkStep(k, s, x, s.running[x], f) else s
    case Complete(x, f) => if x in s.running then CompleteStep(k, s, x, s.running[x], f) else s
    case GiveBack(x) => if x in s.running then GiveBackStep(k, s, x, s.running[x]) else s
  }

  function Run(k: Codec, s: System, actions: seq<Action>): System
    decreases |actions|
  {
    if actions == [] then s else Run(k, Step(k, s, actions[0]), actions[1..])
  }

  function Start(): System {
    System(Authority.START, map[], map[], map[], {}, {})
  }

  // ----- What every interleaving keeps -----

  /** The spool holds this wire for the case. */
  predicate Spooled(spool: AdviceSpool.Spool, c: string, p: AdviceSpool.Pending) {
    c in spool && spool[c].pending == p
  }

  /** The authority holds exactly this advice for the case, under this revision. */
  predicate Committed(k: Codec, db: Authority.Db, c: string, p: AdviceSpool.Pending, revision: int) {
    c in db.advice && db.advice[c].request == k.decode(p.raw) && db.advice[c].revision == revision
  }

  ghost predicate SpoolOk(k: Codec, spool: AdviceSpool.Spool, db: Authority.Db) {
    forall c | c in spool ::
      && spool[c].pending.caseId == c && Faithful(k, spool[c].pending)
      && (spool[c].accepted.Some? ==> Committed(k, db, c, spool[c].pending, spool[c].accepted.value.1))
  }

  predicate InvocationOk(k: Codec, i: Invocation, spool: AdviceSpool.Spool, db: Authority.Db) {
    var c := i.submission.caseId;
    match i.stage
    case Signed(p) => p.caseId == c && Faithful(k, p)
    case Ready(p) => Spooled(spool, c, p)
    case Answered(p, receipt) => Spooled(spool, c, p) && Committed(k, db, c, p, receipt.revision)
    case Marked(p, revision) => Spooled(spool, c, p) && Accepted(spool, c, revision)
    case _ => true
  }

  predicate Accepted(spool: AdviceSpool.Spool, c: string, revision: int) {
    c in spool && spool[c].accepted.Some? && spool[c].accepted.value.1 == revision
  }

  ghost predicate RunningOk(k: Codec, running: map<nat, Invocation>, spool: AdviceSpool.Spool, db: Authority.Db) {
    forall x | x in running :: InvocationOk(k, running[x], spool, db)
  }

  ghost predicate SubmittedOk(submitted: set<(string, Bytes)>, spool: AdviceSpool.Spool) {
    forall w | w in submitted :: w.0 in spool && spool[w.0].pending.raw == w.1
  }

  /** These bytes report the one acceptance the spool has for the case. */
  predicate Reports(k: Codec, spool: AdviceSpool.Spool, c: string, r: Bytes) {
    && c in spool && spool[c].accepted.Some?
    && r == k.result(CommandResult(spool[c].pending.adviceId, spool[c].accepted.value.1))
  }

  ghost predicate TurnsOk(k: Codec, turns: TurnStore.Table, spool: AdviceSpool.Spool) {
    forall e, sub | e in turns && turns[e].request == k.request(e, sub) && turns[e].result.Some? ::
      Reports(k, spool, sub.caseId, turns[e].result.value)
  }

  ghost predicate OutputsOk(k: Codec, outputs: set<(string, Bytes)>, spool: AdviceSpool.Spool) {
    forall o | o in outputs :: Reports(k, spool, o.0, o.1)
  }

  ghost predicate Inv(k: Codec, s: System) {
    && AuthorityInvariant.Valid(s.authority.db, s.authority.top)
    && SpoolOk(k, s.spool, s.authority.db) && RunningOk(k, s.running, s.spool, s.authority.db)
    && SubmittedOk(s.submitted, s.spool) && TurnsOk(k, s.turns, s.spool) && OutputsOk(k, s.outputs, s.spool)
  }

  /** The authority may do anything in between. */
  lemma AuthorityKeeps(k: Codec, s: System, e: Authority.Event)
    requires Inv(k, s)
    ensures Inv(k, s.(authority := Authority.Apply(s.authority, e)))
  {
    hide AuthorityInvariant.Valid, SubmittedOk, TurnsOk, OutputsOk, Faithful, Authority.WorkOf, Authority.Settled;
    AuthorityInvariant.OperationKeeps(s.authority.db, e.op, s.authority.top + 1 + e.gap, s.authority.top);
  }

  /** Only the spool moves, and it keeps every wire and every acceptance. */
  lemma SpoolMoves(k: Codec, s: System, spool: AdviceSpool.Spool)
    requires Inv(k, s) && AdviceSpool.Keeps(s.spool, spool) && SpoolOk(k, spool, s.authority.db)
    ensures Inv(k, s.(spool := spool))
  {
    hide AuthorityInvariant.Valid, SpoolOk, Faithful;
    KeepsReports(k, s, spool);
    hide Reports;
  }

  lemma KeepsReports(k: Codec, s: System, spool: AdviceSpool.Spool)
    requires AdviceSpool.Keeps(s.spool, spool)
    ensures forall c, r | Reports(k, s.spool, c, r) :: Reports(k, spool, c, r)
  {
  }

  lemma StageMoves(k: Codec, s: System, x: nat, stage: Stage)
    requires Inv(k, s) && x in s.running && InvocationOk(k, s.running[x].(stage := stage), s.spool, s.authority.db)
    ensures Inv(k, At(s, x, stage))
  {
    hide AuthorityInvariant.Valid, SpoolOk, SubmittedOk, TurnsOk, OutputsOk, InvocationOk;
  }

  lemma GoneKeeps(k: Codec, s: System, x: nat)
    requires Inv(k, s)
    ensures Inv(k, Gone(s, x))
  {
    hide AuthorityInvariant.Valid, SpoolOk, SubmittedOk, TurnsOk, OutputsOk, InvocationOk;
  }

  /** Claims, pruning and giving back leave every result that remains as it was. */
  ghost predicate ResultsKept(turns: TurnStore.Table, later: TurnStore.Table) {
    forall e | e in later && later[e].result.Some? ::
      e in turns && turns[e].request == later[e].request && turns[e].result == later[e].result
  }

  lemma TurnsMove(k: Codec, s: System, turns: TurnStore.Table)
    requires Inv(k, s) && ResultsKept(s.turns, turns)
    ensures Inv(k, s.(turns := turns))
  {
    hide AuthorityInvariant.Valid, SpoolOk, SubmittedOk, RunningOk, OutputsOk, Reports;
  }

  lemma BindKept(t: TurnStore.Table, event: string, request: Bytes, now: int, l: TurnStore.Limits, token: string)
    ensures var a := TurnStore.Bind(t, event, request, now, l, token);
      && ResultsKept(t, a.table)
      && (a.result.Ok? && a.result.value.Completed? ==>
            event in t && t[event].request == request && t[event].result == Some(a.result.value.result))
  {
    hide TurnStore.RequestOk, TurnStore.LimitsOk;
  }

  lemma BindKeeps(k: Codec, s: System, x: nat, event: string, sub: Submission, now: int, l: TurnStore.Limits,
      token: string, f: Fault)
    requires Inv(k, s)
    ensures Inv(k, BindStep(k, s, x, event, sub, now, l, token, f))
  {
    hide AuthorityInvariant.Valid, SpoolOk, SubmittedOk, Reports, TurnStore.Bind, ResultsKept, Faithful, Committed;
    BindKept(s.turns, event, k.request(event, sub), now, l, token);
    TurnsMove(k, s, TurnStore.Bind(s.turns, event, k.request(event, sub), now, l, token).table);
  }

  lemma LoadKeeps(k: Codec, s: System, x: nat)
    requires Inv(k, s) && x in s.running
    ensures Inv(k, LoadStep(k, s, x, s.running[x]))
  {
    hide AuthorityInvariant.Valid, SpoolOk, SubmittedOk, TurnsOk, OutputsOk, RunningOk, Inv, At;
    var c := s.running[x].submission.caseId;
    StageMoves(k, s, x, Unspooled);
    StageMoves(k, s, x, Retrying);
    StageMoves(k, s, x, Failing(true));
    if c in s.spool {
      StageMoves(k, s, x, Ready(s.spool[c].pending));
    }
  }

  lemma SignKeeps(k: Codec, s: System, x: nat, p: AdviceSpool.Pending)
    requires Inv(k, s) && x in s.running
    ensures Inv(k, SignStep(k, s, x, s.running[x], p))
  {
    hide AuthorityInvariant.Valid, SpoolOk, SubmittedOk, TurnsOk, OutputsOk, RunningOk, Inv, At;
    if p.caseId == s.running[x].submission.caseId && Faithful(k, p) {
      StageMoves(k, s, x, Signed(p));
    }
  }

  lemma SavedOk(k: Codec, spool: AdviceSpool.Spool, db: Authority.Db, p: AdviceSpool.Pending)
    requires SpoolOk(k, spool, db) && Faithful(k, p) && AdviceSpool.Save(spool, p).Some?
    ensures SpoolOk(k, AdviceSpool.Save(spool, p).value, db)
  {
    hide AdviceSpool.PendingOk, AdviceSpool.AdviceTaken;
  }

  lemma SaveKeeps(k: Codec, s: System, x: nat, f: Fault)
    requires Inv(k, s) && x in s.running
    ensures Inv(k, SaveStep(s, x, s.running[x], f))
  {
    hide AuthorityInvariant.Valid, SubmittedOk, TurnsOk, OutputsOk, AdviceSpool.Save, AdviceSpool.Keeps, Faithful,
      SpoolOk;
    var i := s.running[x];
    if i.stage.Signed? {
      var p := i.stage.p;
      assert InvocationOk(k, i, s.spool, s.authority.db);
      hide RunningOk, At;
      StageMoves(k, s, x, Failing(false));
      if AdviceSpool.Save(s.spool, p).Some? {
        SavedOk(k, s.spool, s.authority.db, p);
        AdviceSpool.SaveKeeps(s.spool, p);
        var t := s.(spool := AdviceSpool.Save(s.spool, p).value);
        SpoolMoves(k, s, t.spool);
        StageMoves(k, t, x, Failing(false));
        StageMoves(k, t, x, Ready(p));
      }
    }
  }

  lemma SubmittedAdded(k: Codec, s: System, x: nat, p: AdviceSpool.Pending)
    requires Inv(k, s) && x in s.running && Spooled(s.spool, s.running[x].submission.caseId, p)
    ensures Inv(k, s.(submitted := s.submitted + {(s.running[x].submission.caseId, p.raw)}))
  {
    hide AuthorityInvariant.Valid, SpoolOk, TurnsOk, OutputsOk, RunningOk;
  }

  /** The authority's answer to an advice is the receipt of the row it then holds. */
  lemma AnswerCommits(k: Codec, a: Authority.State, p: AdviceSpool.Pending, gap: nat)
    requires Faithful(k, p)
    requires Authority.WorkOf(a.db, Authority.CommitAdviceOp(k.decode(p.raw)), a.top + 1 + gap).result.Ok?
    ensures var op := Authority.CommitAdviceOp(k.decode(p.raw));
      Committed(k, Authority.Apply(a, Authority.Event(op, gap)).db, p.caseId, p,
        Authority.WorkOf(a.db, op, a.top + 1 + gap).result.value.revision)
  {
    hide Authority.AdviceWork, Authority.AdviceRequestOk;
    AuthorityTheorems.AdviceStored(a.db, k.decode(p.raw), a.top + 1 + gap);
  }

  lemma SubmitKeeps(k: Codec, s: System, x: nat, gap: nat, f: Fault)
    requires Inv(k, s) && x in s.running
    ensures Inv(k, SubmitStep(k, s, x, s.running[x], gap, f))
  {
    hide AuthorityInvariant.Valid, SubmittedOk, TurnsOk, OutputsOk, Authority.WorkOf, Authority.Apply, Committed,
      Faithful;
    var i := s.running[x];
    if i.stage.Ready? {
      var p := i.stage.p;
      assert InvocationOk(k, i, s.spool, s.authority.db);
      assert Faithful(k, p) && p.caseId == i.submission.caseId;
      hide RunningOk, SpoolOk, At;
      SubmittedAdded(k, s, x, p);
      var t := s.(submitted := s.submitted + {(i.submission.caseId, p.raw)});
      StageMoves(k, t, x, Failing(false));
      var op := Authority.CommitAdviceOp(k.decode(p.raw));
      AuthorityKeeps(k, t, Authority.Event(op, gap));
      var u := t.(authority := Authority.Apply(s.authority, Authority.Event(op, gap)));
      StageMoves(k, u, x, Failing(false));
      var answer := Authority.WorkOf(s.authority.db, op, s.authority.top + 1 + gap).result;
      if answer.Ok? {
        AnswerCommits(k, s.authority, p, gap);
        StageMoves(k, u, x, Answered(p, answer.value));
      }
    }
  }

  lemma MarkedOk(k: Codec, s: System, a: AdviceSpool.Acceptance, p: AdviceSpool.Pending)
    requires SpoolOk(k, s.spool, s.authority.db) && AdviceSpool.Mark(s.spool, a).Some?
    requires Spooled(s.spool, a.caseId, p) && Committed(k, s.authority.db, a.caseId, p, a.receipt.revision)
    ensures SpoolOk(k, AdviceSpool.Mark(s.spool, a).value, s.authority.db)
  {
    AdviceSpool.MarkKeeps(s.spool, a);
    hide AdviceSpool.Mark, Faithful;
  }

  lemma MarkKeeps(k: Codec, s: System, x: nat, f: Fault)
    requires Inv(k, s) && x in s.running
    ensures Inv(k, MarkStep(k, s, x, s.running[x], f))
  {
    hide AuthorityInvariant.Valid, SubmittedOk, TurnsOk, OutputsOk, AdviceSpool.Mark, AdviceSpool.Keeps, Faithful,
      Committed;
    var i := s.running[x];
    if i.stage.Answered? {
      var p := i.stage.p;
      assert InvocationOk(k, i, s.spool, s.authority.db);
      assert p.caseId == i.submission.caseId;
      hide RunningOk, SpoolOk, At;
      StageMoves(k, s, x, Failing(false));
      var a := AdviceSpool.Acceptance(p.adviceId, p.caseId, p.commitment, k.authority, i.stage.receipt);
      if AdviceSpool.Mark(s.spool, a).Some? {
        AdviceSpool.MarkKeeps(s.spool, a);
        MarkedOk(k, s, a, p);
        var t := s.(spool := AdviceSpool.Mark(s.spool, a).value);
        SpoolMoves(k, s, t.spool);
        SpooledStays(s.spool, t.spool, p.caseId, p);
        StageMoves(k, t, x, Failing(false));
        StageMoves(k, t, x, Marked(p, i.stage.receipt.revision));
      }
    }
  }

  lemma SpooledStays(spool: AdviceSpool.Spool, later: AdviceSpool.Spool, c: string, p: AdviceSpool.Pending)
    requires AdviceSpool.Keeps(spool, later) && Spooled(spool, c, p)
    ensures Spooled(later, c, p)
  {
  }

  /** A completed turn reports what the spool holds for the submission's case. */
  lemma CompletedTurns(k: Codec, s: System, event: string, sub: Submission, r: Bytes, token: string)
    requires CodecOk(k) && TurnsOk(k, s.turns, s.spool) && Reports(k, s.spool, sub.caseId, r)
    ensures TurnsOk(k, TurnStore.Complete(s.turns, event, k.request(event, sub), r, token).table, s.spool)
  {
    hide TurnStore.RequestOk, TurnStore.HexId, Reports;
  }

  lemma CompleteKeeps(k: Codec, s: System, x: nat, f: Fault)
    requires CodecOk(k) && Inv(k, s) && x in s.running
    ensures Inv(k, CompleteStep(k, s, x, s.running[x], f))
  {
    hide AuthorityInvariant.Valid, SpoolOk, SubmittedOk, TurnStore.Complete, Faithful, Committed, Gone;
    GoneKeeps(k, s, x);
    var i := s.running[x];
    if i.stage.Marked? {
      assert InvocationOk(k, i, s.spool, s.authority.db);
      var r := k.result(CommandResult(i.stage.p.adviceId, i.stage.revision));
      assert Reports(k, s.spool, i.submission.caseId, r);
      hide Reports, InvocationOk, RunningOk;
      CompletedTurns(k, s, i.event, i.submission, r, i.token);
      hide TurnsOk, CodecOk;
      var t := s.(turns := TurnStore.Complete(s.turns, i.event, k.request(i.event, i.submission), r, i.token).table);
      GoneKeeps(k, t, x);
      GoneKeeps(k, t.(outputs := s.outputs + {(i.submission.caseId, r)}), x);
    }
  }

  lemma GiveBackKept(t: TurnStore.Table, event: string, request: Bytes, token: string, abandon: bool)
    ensures ResultsKept(t, TurnStore.GiveBack(t, event, request, token, abandon).table)
  {
    hide TurnStore.RequestOk, TurnStore.HexId;
  }

  lemma GiveBackKeeps(k: Codec, s: System, x: nat)
    requires Inv(k, s) && x in s.running
    ensures Inv(k, GiveBackStep(k, s, x, s.running[x]))
  {
    hide Inv, TurnStore.GiveBack, ResultsKept;
    var i := s.running[x];
    if i.stage.Failing? {
      var turns := TurnStore.GiveBack(s.turns, i.event, k.request(i.event, i.submission), i.token,
        i.stage.abandon).table;
      GiveBackKept(s.turns, i.event, k.request(i.event, i.submission), i.token, i.stage.abandon);
      TurnsMove(k, s, turns);
      GoneKeeps(k, s.(turns := turns), x);
    }
  }

  lemma StepKeeps(k: Codec, s: System, a: Action)
    requires CodecOk(k) && Inv(k, s)
    ensures Inv(k, Step(k, s, a))
  {
    hide Inv, CodecOk, BindStep, LoadStep, SignStep, SaveStep, SubmitStep, MarkStep, CompleteStep, GiveBackStep,
      Authority.Apply;
    match a
    case Bind(x, event, sub, now, l, token, f) => BindKeeps(k, s, x, event, sub, now, l, token, f);
    case Other(e) => AuthorityKeeps(k, s, e);
    case Crash(x) => GoneKeeps(k, s, x);
    case Load(x) => if x in s.running { LoadKeeps(k, s, x); }
    case Sign(x, p) => if x in s.running { SignKeeps(k, s, x, p); }
    case Fail(x, abandon) => if x in s.running { StageMoves(k, s, x, Failing(abandon)); }
    case Save(x, f) => if x in s.running { SaveKeeps(k, s, x, f); }
    case Submit(x, gap, f) => if x in s.running { SubmitKeeps(k, s, x, gap, f); }
    case Mark(x, f) => if x in s.running { MarkKeeps(k, s, x, f); }
    case Complete(x, f) => if x in s.running { CompleteKeeps(k, s, x, f); }
    case GiveBack(x) => if x in s.running { GiveBackKeeps(k, s, x); }
  }

  lemma {:induction false} RunKeeps(k: Codec, s: System, actions: seq<Action>)
    requires CodecOk(k) && Inv(k, s)
    ensures Inv(k, Run(k, s, actions))
    decreases |actions|
  {
    hide Inv, Step, CodecOk;
    if actions != [] {
      StepKeeps(k, s, actions[0]);
      RunKeeps(k, Step(k, s, actions[0]), actions[1..]);
    }
  }

  lemma StartInv(k: Codec)
    ensures Inv(k, Start())
  {
    AuthorityInvariant.EmptyValid();
    hide AuthorityInvariant.Valid;
  }

  // ----- The theorems -----

  /** However invocations race, crash and lose replies, all the bytes ever submitted for a
      case are the same. */
  lemma OneWirePerCase(k: Codec, actions: seq<Action>, c: string, a: Bytes, b: Bytes)
    requires CodecOk(k)
    requires var s := Run(k, Start(), actions); (c, a) in s.submitted && (c, b) in s.submitted
    ensures a == b
  {
    hide Run;
    StartInv(k);
    RunKeeps(k, Start(), actions);
    assert SubmittedOk(Run(k, Start(), actions).submitted, Run(k, Start(), actions).spool);
  }

  /** Every result put out for a case, at once or replayed from its turn, is the same, and
      names the advice and the revision that the authority holds for it. */
  lemma OneResultPerCase(k: Codec, actions: seq<Action>, c: string, r: Bytes)
    requires CodecOk(k)
    requires (c, r) in Run(k, Start(), actions).outputs
    ensures var db := Run(k, Start(), actions).authority.db;
      c in db.advice && r == k.result(CommandResult(db.advice[c].request.envelopeId, db.advice[c].revision))
  {
    hide Run, AuthorityInvariant.Valid;
    StartInv(k);
    RunKeeps(k, Start(), actions);
    var s := Run(k, Start(), actions);
    hide RunningOk, TurnsOk, SubmittedOk;
    assert Reports(k, s.spool, (c, r).0, (c, r).1);
  }
}
