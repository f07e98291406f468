/** What one invocation of the dispatcher gets done: an undisturbed one answers, and one
    whose reply was lost is taken up by the next and answers with the first commit. */
module DispatcherRuns {
  import opened Common
  import Authority
  import Answers = AuthorityAnswers
  import AuthorityInvariant
  import AdviceSpool
  import TurnStore
  import Turns = TurnAnswers
  import opened Dispatcher

  datatype Call = Call(event: string, submission: Submission, now: int, limits: TurnStore.Limits, token: string)

  function Request(k: Codec, c: Call): Bytes {
    k.request(c.event, c.submission)
  }

  function Called(c: Call, stage: Stage): Invocation {
    Invocation(c.event, c.submission, c.token, stage)
  }

  function BindCall(x: nat, c: Call, f: Fault): Action {
    Bind(x, c.event, c.submission, c.now, c.limits, c.token, f)
  }

  /** The store takes the call's request, limits and token. */
  predicate CallOk(k: Codec, c: Call) {
    TurnStore.RequestOk(c.event, Request(k, c)) && TurnStore.LimitsOk(c.limits) && TurnStore.HexId(c.token)
  }

  /** No living row, and room for one. */
  predicate Fresh(t: TurnStore.Table, c: Call) {
    !Turns.Alive(t, c.event, c.now) && |Turns.AliveEvents(t, c.now)| < c.limits.capacity
  }

  /** A living row of the same request that nobody works on. */
  predicate Idle(k: Codec, t: TurnStore.Table, c: Call) {
    && Turns.Bound(t, c.event, Request(k, c), c.now) && t[c.event].result.None?
    && !Turns.Busy(t, c.event, c.now)
  }

  /** The turn is pending for the call, and its token holds it. */
  predicate Holds(k: Codec, t: TurnStore.Table, c: Call) {
    && c.event in t && t[c.event].request == Request(k, c) && t[c.event].result.None?
    && Turns.HeldBy(t, c.event, c.token)
  }

  /** The authority takes this advice as the first of its case. */
  predicate Committable(db: Authority.Db, q: Authority.AdviceRequest) {
    && Authority.AdviceRequestOk(q) && q.caseId !in db.advice && Answers.Live(db) && Answers.BindsCase(db, q)
    && !Answers.AdviceTaken(db, q) && !Answers.Delivered(db, q.envelopeId)
  }

  function Commit(k: Codec, p: AdviceSpool.Pending): Authority.Operation {
    Authority.CommitAdviceOp(k.decode(p.raw))
  }

  /** The result that is put out for an advice that has this revision. */
  function ResultOf(k: Codec, p: AdviceSpool.Pending, revision: int): Bytes {
    k.result(CommandResult(p.adviceId, revision))
  }

  predicate ResultFits(k: Codec, p: AdviceSpool.Pending, revision: int) {
    0 < |ResultOf(k, p, revision)| <= 16384
  }

  /** The wire answers the submission and is complete. */
  predicate Replies(k: Codec, p: AdviceSpool.Pending, sub: Submission) {
    && p.caseId == sub.caseId && p.caseCommitment == sub.caseCommitment
    && Faithful(k, p) && AdviceSpool.Complete(p)
  }

  // ----- Parts of a run -----

  lemma {:induction false} RunBoth(k: Codec, s: System, a: seq<Action>, b: seq<Action>)
    ensures Run(k, s, a + b) == Run(k, Run(k, s, a), b)
    decreases |a|
  {
    hide Step;
    if a == [] {
      assert [] + b == b;
    } else {
      assert (a + b)[1..] == a[1..] + b;
      RunBoth(k, Step(k, s, a[0]), a[1..], b);
    }
  }

  lemma RunOne(k: Codec, s: System, a: Action)
    ensures Run(k, s, [a]) == Step(k, s, a)
  {
    hide Step;
    assert [a][1..] == [];
  }

  lemma RunThree(k: Codec, s: System, a: Action, b: Action, c: Action)
    ensures Run(k, s, [a, b, c]) == Step(k, Step(k, Step(k, s, a), b), c)
  {
    hide Step;
    assert [a, b, c] == [a] + ([b] + [c]);
    RunBoth(k, s, [a], [b] + [c]);
    RunOne(k, s, a);
    RunBoth(k, Step(k, s, a), [b], [c]);
    RunOne(k, Step(k, s, a), b);
    RunOne(k, Step(k, Step(k, s, a), b), c);
  }

  lemma RunFour(k: Codec, s: System, a: Action, b: Action, c: Action, d: Action)
    ensures Run(k, s, [a, b, c, d]) == Step(k, Step(k, Step(k, Step(k, s, a), b), c), d)
  {
    hide Step;
    assert [a, b, c, d] == [a] + [b, c, d];
    RunBoth(k, s, [a], [b, c, d]);
    RunOne(k, s, a);
    RunThree(k, Step(k, s, a), b, c, d);
  }

  /** A bind that finds the turn free leaves it held and the invocation bound. */
  lemma BindClaims(k: Codec, s: System, x: nat, c: Call)
    requires x !in s.running && CallOk(k, c) && (Fresh(s.turns, c) || Idle(k, s.turns, c))
    ensures var n := Step(k, s, BindCall(x, c, NoFault));
      && n == s.(turns := n.turns, running := s.running[x := Called(c, Bound)]) && Holds(k, n.turns, c)
      && (Fresh(s.turns, c) ==> n.turns[c.event].expires == c.now + c.limits.retention)
      && (Idle(k, s.turns, c) ==> n.turns[c.event].expires == s.turns[c.event].expires)
  {
    hide TurnStore.Bind, TurnStore.RequestOk, TurnStore.LimitsOk, TurnStore.HexId;
    Turns.BindAnswers(s.turns, c.event, Request(k, c), c.now, c.limits, c.token);
    Turns.BindLeaves(s.turns, c.event, Request(k, c), c.now, c.limits, c.token, c.event);
  }

  lemma RepliesMeans(k: Codec, p: AdviceSpool.Pending, sub: Submission)
    requires Replies(k, p, sub)
    ensures p.caseId == sub.caseId && p.caseCommitment == sub.caseCommitment
    ensures Faithful(k, p) && AdviceSpool.Complete(p)
  {
  }

  lemma SignsFirst(k: Codec, s: System, x: nat, c: Call, p: AdviceSpool.Pending)
    requires x in s.running && s.running[x] == Called(c, Bound) && p.caseId == c.submission.caseId
    requires p.caseCommitment == c.submission.caseCommitment && Faithful(k, p) && p.caseId !in s.spool
    ensures Step(k, Step(k, s, Load(x)), Sign(x, p)) == s.(running := s.running[x := Called(c, Signed(p))])
  {
    hide Faithful;
    assert Step(k, s, Load(x)) == s.(running := s.running[x := Called(c, Unspooled)]);
  }

  predicate Spoolable(spool: AdviceSpool.Spool, p: AdviceSpool.Pending) {
    p.caseId !in spool && !AdviceSpool.AdviceTaken(spool, p.adviceId)
  }

  lemma SavesFirst(k: Codec, s: System, x: nat, c: Call, p: AdviceSpool.Pending)
    requires x in s.running && s.running[x] == Called(c, Signed(p)) && AdviceSpool.Complete(p)
    requires p.caseId !in s.spool && !AdviceSpool.AdviceTaken(s.spool, p.adviceId)
    ensures Step(k, s, Save(x, NoFault)) == s.(spool := s.spool[p.caseId := AdviceSpool.Spooled(p, None)],
      running := s.running[x := Called(c, Ready(p))])
  {
    AdviceSpool.SaveAnswers(s.spool, p);
    hide AdviceSpool.Save, AdviceSpool.Complete;
  }

  function Opening(x: nat, c: Call, p: AdviceSpool.Pending): seq<Action> {
    [BindCall(x, c, NoFault), Load(x), Sign(x, p), Save(x, NoFault)]
  }

  lemma RunOpening(k: Codec, s: System, x: nat, c: Call, p: AdviceSpool.Pending)
    ensures Run(k, s, Opening(x, c, p)) ==
      Step(k, Step(k, Step(k, Step(k, s, BindCall(x, c, NoFault)), Load(x)), Sign(x, p)), Save(x, NoFault))
  {
    RunFour(k, s, BindCall(x, c, NoFault), Load(x), Sign(x, p), Save(x, NoFault));
    hide Step, Run;
  }

  /** A first invocation for a case comes to have its wire spooled. */
  lemma Opens(k: Codec, s: System, x: nat, c: Call, p: AdviceSpool.Pending)
    requires x !in s.running && CallOk(k, c) && Fresh(s.turns, c) && Replies(k, p, c.submission)
    requires p.caseId !in s.spool && !AdviceSpool.AdviceTaken(s.spool, p.adviceId)
    ensures var n := Run(k, s, Opening(x, c, p));
      && n == s.(spool := s.spool[p.caseId := AdviceSpool.Spooled(p, None)], turns := n.turns,
                 running := s.running[x := Called(c, Ready(p))])
      && Holds(k, n.turns, c) && n.turns[c.event].expires == c.now + c.limits.retention
  {
    hide *;
    RepliesMeans(k, p, c.submission);
    BindClaims(k, s, x, c);
    var s1 := Step(k, s, BindCall(x, c, NoFault));
    SignsFirst(k, s1, x, c, p);
    var s3 := Step(k, Step(k, s1, Load(x)), Sign(x, p));
    SavesFirst(k, s3, x, c, p);
    RunOpening(k, s, x, c, p);
  }

  function Closing(x: nat, gap: nat): seq<Action> {
    [Submit(x, gap, NoFault), Mark(x, NoFault), Complete(x, NoFault)]
  }

  /** A submission that is answered leaves the receipt with the invocation. */
  lemma SubmitIsAnswered(k: Codec, s: System, x: nat, c: Call, p: AdviceSpool.Pending, gap: nat,
      receipt: Authority.Receipt)
    requires x in s.running && s.running[x] == Called(c, Ready(p)) && receipt.revision > 0
    requires receipt.envelopeId == p.adviceId && receipt.commitment == p.commitment
    requires Authority.WorkOf(s.authority.db, Commit(k, p), s.authority.top + 1 + gap).result == Ok(receipt)
    ensures Step(k, s, Submit(x, gap, NoFault)) ==
      s.(authority := Authority.Apply(s.authority, Authority.Event(Commit(k, p), gap)),
         submitted := s.submitted + {(c.submission.caseId, p.raw)},
         running := s.running[x := Called(c, Answered(p, receipt))])
  {
    hide Authority.WorkOf, Authority.Apply;
  }

  /** The wire is spooled, and not accepted under another revision. */
  predicate Markable(spool: AdviceSpool.Spool, p: AdviceSpool.Pending, authority: string, revision: int) {
    && Spooled(spool, p.caseId, p)
    && (spool[p.caseId].accepted == None || spool[p.caseId].accepted == Some((authority, revision)))
  }

  /** The receipt is recorded with the wire it names. */
  lemma ReceiptIsMarked(k: Codec, s: System, x: nat, c: Call, p: AdviceSpool.Pending, receipt: Authority.Receipt)
    requires x in s.running && s.running[x] == Called(c, Answered(p, receipt)) && receipt.revision > 0
    requires receipt.envelopeId == p.adviceId && receipt.commitment == p.commitment
    requires AdviceSpool.Complete(p) && !Answers.Blank(k.authority)
    requires Markable(s.spool, p, k.authority, receipt.revision)
    ensures Step(k, s, Mark(x, NoFault)) ==
      s.(spool := s.spool[p.caseId := AdviceSpool.Spooled(p, Some((k.authority, receipt.revision)))],
         running := s.running[x := Called(c, Marked(p, receipt.revision))])
  {
    AdviceSpool.MarkAnswers(s.spool,
      AdviceSpool.Acceptance(p.adviceId, p.caseId, p.commitment, k.authority, receipt));
    hide AdviceSpool.Mark, Answers.Blank, Answers.CommitmentText;
  }

  lemma CompletesHeld(k: Codec, t: TurnStore.Table, c: Call, r: Bytes)
    requires CallOk(k, c) && Holds(k, t, c) && 0 < |r| <= 16384
    ensures TurnStore.Complete(t, c.event, Request(k, c), r, c.token) ==
      TurnStore.Answer(t[c.event := TurnStore.Turn(Request(k, c), Some(r), t[c.event].expires, None)], Ok(()))
  {
    hide TurnStore.RequestOk, TurnStore.HexId, TurnStore.LimitsOk, TurnStore.Complete;
    var a := TurnStore.Complete(t, c.event, Request(k, c), r, c.token);
    var n := t[c.event := TurnStore.Turn(Request(k, c), Some(r), t[c.event].expires, None)];
    forall e: string
      ensures (e in a.table <==> e in n) && (e in n ==> a.table[e] == n[e])
    {
      Turns.CompleteAnswers(t, c.event, Request(k, c), r, c.token, e);
    }
    Turns.CompleteAnswers(t, c.event, Request(k, c), r, c.token, c.event);
    assert a.table == n && a.result.value == ();
  }

  /** The result is stored with the turn and put out, and the invocation is over. */
  lemma ResultIsPutOut(k: Codec, s: System, x: nat, c: Call, p: AdviceSpool.Pending, revision: int)
    requires x in s.running && s.running[x] == Called(c, Marked(p, revision)) && CallOk(k, c) && Holds(k, s.turns, c)
    requires ResultFits(k, p, revision)
    ensures var r := ResultOf(k, p, revision);
      Step(k, s, Complete(x, NoFault)) ==
        s.(turns := s.turns[c.event := TurnStore.Turn(Request(k, c), Some(r), s.turns[c.event].expires, None)],
           outputs := s.outputs + {(c.submission.caseId, r)}, running := s.running - {x})
  {
    CompletesHeld(k, s.turns, c, ResultOf(k, p, revision));
    hide TurnStore.Complete, CallOk, Holds, ResultFits;
  }

  /** A spooled wire that the authority answers is marked, the turn completed and the result
      put out. */
  lemma Closes(k: Codec, s: System, x: nat, c: Call, p: AdviceSpool.Pending, gap: nat, revision: int)
    requires x in s.running && s.running[x] == Called(c, Ready(p)) && CallOk(k, c) && Holds(k, s.turns, c)
    requires p.caseId == c.submission.caseId && AdviceSpool.Complete(p) && !Answers.Blank(k.authority)
    requires Markable(s.spool, p, k.authority, revision)
    requires Authority.WorkOf(s.authority.db, Commit(k, p), s.authority.top + 1 + gap).result
      == Ok(Authority.Receipt(revision, p.adviceId, p.commitment))
    requires revision > 0 && ResultFits(k, p, revision)
    ensures var r := ResultOf(k, p, revision);
      Run(k, s, Closing(x, gap)) == System(
        Authority.Apply(s.authority, Authority.Event(Commit(k, p), gap)),
        s.spool[p.caseId := AdviceSpool.Spooled(p, Some((k.authority, revision)))],
        s.turns[c.event := TurnStore.Turn(Request(k, c), Some(r), s.turns[c.event].expires, None)],
        s.running - {x}, s.submitted + {(p.caseId, p.raw)}, s.outputs + {(p.caseId, r)})
  {
    hide Step, Run, Authority.WorkOf, Authority.Apply, CallOk, AdviceSpool.Complete, Answers.Blank, ResultFits,
      ResultOf, Markable;
    var receipt := Authority.Receipt(revision, p.adviceId, p.commitment);
    SubmitIsAnswered(k, s, x, c, p, gap, receipt);
    var s1 := Step(k, s, Submit(x, gap, NoFault));
    ReceiptIsMarked(k, s1, x, c, p, receipt);
    var s2 := Step(k, s1, Mark(x, NoFault));
    ResultIsPutOut(k, s2, x, c, p, revision);
    RunThree(k, s, Submit(x, gap, NoFault), Mark(x, NoFault), Complete(x, NoFault));
    assert s2.running - {x} == s.running - {x};
  }

  /** The authority answers the wire with a receipt for it, and the spool takes that. */
  predicate Takes(k: Codec, s: System, p: AdviceSpool.Pending, revision: int) {
    && Authority.WorkOf(s.authority.db, Commit(k, p), s.authority.top + 1).result
         == Ok(Authority.Receipt(revision, p.adviceId, p.commitment))
    && revision > 0 && AdviceSpool.Complete(p) && !Answers.Blank(k.authority)
    && Markable(s.spool, p, k.authority, revision)
  }

  lemma TakenWhen(k: Codec, s: System, p: AdviceSpool.Pending, revision: int)
    requires Authority.WorkOf(s.authority.db, Commit(k, p), s.authority.top + 1).result
      == Ok(Authority.Receipt(revision, p.adviceId, p.commitment))
    requires revision > 0 && AdviceSpool.Complete(p) && !Answers.Blank(k.authority)
    requires Markable(s.spool, p, k.authority, revision)
    ensures Takes(k, s, p, revision)
  {
  }

  lemma TakesMeans(k: Codec, s: System, x: nat, c: Call, p: AdviceSpool.Pending, revision: int)
    requires x in s.running && s.running[x] == Called(c, Ready(p)) && Takes(k, s, p, revision)
    ensures var receipt := Authority.Receipt(revision, p.adviceId, p.commitment);
      var n := Step(k, s, Submit(x, 0, NoFault)); var m := Step(k, n, Mark(x, NoFault));
      && x in n.running && n.running[x] == Called(c, Answered(p, receipt))
      && x in m.running && m.running[x] == Called(c, Marked(p, revision)) && m.turns == s.turns
  {
    hide Step, Authority.WorkOf, Authority.Apply, AdviceSpool.Complete, Answers.Blank, Markable;
    var receipt := Authority.Receipt(revision, p.adviceId, p.commitment);
    SubmitIsAnswered(k, s, x, c, p, 0, receipt);
    ReceiptIsMarked(k, Step(k, s, Submit(x, 0, NoFault)), x, c, p, receipt);
  }

  // ----- An undisturbed invocation -----

  lemma SpooledNow(spool: AdviceSpool.Spool, p: AdviceSpool.Pending, authority: string, revision: int)
    requires p.caseId in spool && spool[p.caseId] == AdviceSpool.Spooled(p, None)
    ensures Spooled(spool, p.caseId, p) && Markable(spool, p, authority, revision)
  {
  }

  /** The authority commits the wire under the revision it draws and answers with it. */
  lemma CommitAnswer(k: Codec, a: Authority.State, p: AdviceSpool.Pending, gap: nat)
    requires Faithful(k, p) && Committable(a.db, k.decode(p.raw))
    ensures Authority.WorkOf(a.db, Commit(k, p), a.top + 1 + gap).result
      == Ok(Authority.Receipt(a.top + 1 + gap, p.adviceId, p.commitment))
    ensures Committed(k, Authority.Apply(a, Authority.Event(Commit(k, p), gap)).db, p.caseId, p, a.top + 1 + gap)
    ensures Authority.AdviceRequestOk(k.decode(p.raw))
  {
    Answers.FirstAdviceAnswers(a.db, k.decode(p.raw), a.top + 1 + gap);
    hide Authority.AdviceRequestOk, Authority.WorkOf, Authority.Apply;
    AnswerCommits(k, a, p, gap);
  }

  /** The case is open, the turn free and the wire acceptable to spool and authority. */
  predicate FirstTurn(k: Codec, s: System, c: Call, p: AdviceSpool.Pending) {
    && CallOk(k, c) && Fresh(s.turns, c) && Replies(k, p, c.submission) && Spoolable(s.spool, p)
    && !Answers.Blank(k.authority) && Committable(s.authority.db, k.decode(p.raw))
    && ResultFits(k, p, s.authority.top + 1)
  }

  /** An undisturbed first invocation for a case commits its advice and answers with the
      revision it drew; wire, receipt and result are stored. */
  lemma TurnGoesThrough(k: Codec, s: System, x: nat, c: Call, p: AdviceSpool.Pending, gap: nat)
    requires x !in s.running && CallOk(k, c) && Fresh(s.turns, c) && Replies(k, p, c.submission)
    requires p.caseId !in s.spool && !AdviceSpool.AdviceTaken(s.spool, p.adviceId) && !Answers.Blank(k.authority)
    requires Committable(s.authority.db, k.decode(p.raw)) && ResultFits(k, p, s.authority.top + 1 + gap)
    ensures var n := Run(k, s, Opening(x, c, p) + Closing(x, gap)); var revision := s.authority.top + 1 + gap;
      var r := ResultOf(k, p, revision);
      && n.authority == Authority.Apply(s.authority, Authority.Event(Commit(k, p), gap))
      && Committed(k, n.authority.db, p.caseId, p, revision)
      && n.spool == s.spool[p.caseId := AdviceSpool.Spooled(p, Some((k.authority, revision)))]
      && c.event in n.turns
      && n.turns[c.event] == TurnStore.Turn(Request(k, c), Some(r), c.now + c.limits.retention, None)
      && n.running == s.running && n.submitted == s.submitted + {(p.caseId, p.raw)}
      && n.outputs == s.outputs + {(p.caseId, r)}
  {
    hide *;
    RepliesMeans(k, p, c.submission);
    Opens(k, s, x, c, p);
    CommitAnswer(k, s.authority, p, gap);
    var s1 := Run(k, s, Opening(x, c, p));
    SpooledNow(s1.spool, p, k.authority, s.authority.top + 1 + gap);
    Closes(k, s1, x, c, p, gap, s.authority.top + 1 + gap);
    RunBoth(k, s, Opening(x, c, p), Closing(x, gap));
    assert s1.running - {x} == s.running;
  }

  lemma FirstTurnMeans(k: Codec, s: System, c: Call, p: AdviceSpool.Pending)
    requires FirstTurn(k, s, c, p)
    ensures CallOk(k, c) && Fresh(s.turns, c) && Replies(k, p, c.submission) && Spoolable(s.spool, p)
    ensures !Answers.Blank(k.authority) && Committable(s.authority.db, k.decode(p.raw))
    ensures ResultFits(k, p, s.authority.top + 1)
  {
    hide CallOk, Fresh, Replies, Spoolable, Answers.Blank, Committable, ResultFits;
  }

  /** Signing and saving the first wire of a case. */
  function Spooling(k: Codec, s: System, x: nat, p: AdviceSpool.Pending): System {
    Step(k, Step(k, Step(k, s, Load(x)), Sign(x, p)), Save(x, NoFault))
  }

  lemma SpoolsFirst(k: Codec, s: System, x: nat, c: Call, p: AdviceSpool.Pending)
    requires x in s.running && s.running[x] == Called(c, Bound) && Replies(k, p, c.submission) && Spoolable(s.spool, p)
    ensures
      && Step(k, Step(k, s, Load(x)), Sign(x, p)) == s.(running := s.running[x := Called(c, Signed(p))])
      && Spooling(k, s, x, p) == s.(spool := s.spool[p.caseId := AdviceSpool.Spooled(p, None)],
           running := s.running[x := Called(c, Ready(p))])
  {
    hide Step, Faithful, AdviceSpool.Complete, AdviceSpool.AdviceTaken;
    SignsFirst(k, s, x, c, p);
    SavesFirst(k, Step(k, Step(k, s, Load(x)), Sign(x, p)), x, c, p);
  }

  /** After a first bind the wire can be spooled and taken. */
  lemma FirstIsTaken(k: Codec, s: System, x: nat, c: Call, p: AdviceSpool.Pending)
    requires x !in s.running && FirstTurn(k, s, c, p)
    ensures var n := Step(k, s, BindCall(x, c, NoFault)); var m := Spooling(k, n, x, p);
      && x in n.running && n == s.(turns := n.turns, running := s.running[x := Called(c, Bound)])
      && Holds(k, n.turns, c) && Replies(k, p, c.submission) && Spoolable(n.spool, p)
      && Takes(k, m, p, s.authority.top + 1) && m.turns == n.turns
      && x in m.running && m.running[x] == Called(c, Ready(p))
      && CallOk(k, c) && ResultFits(k, p, s.authority.top + 1)
  {
    hide *;
    FirstTurnMeans(k, s, c, p);
    RepliesMeans(k, p, c.submission);
    BindClaims(k, s, x, c);
    var n := Step(k, s, BindCall(x, c, NoFault));
    SpoolsFirst(k, n, x, c, p);
    CommitAnswer(k, s.authority, p, 0);
    var m := Spooling(k, n, x, p);
    SpooledNow(m.spool, p, k.authority, s.authority.top + 1);
    TakenWhen(k, m, p, s.authority.top + 1);
  }

  /** Seven steps of a first turn. */
  lemma RunFirst(k: Codec, s: System, x: nat, c: Call, p: AdviceSpool.Pending)
    ensures var m := Spooling(k, Step(k, s, BindCall(x, c, NoFault)), x, p);
      Run(k, s, Opening(x, c, p) + Closing(x, 0)) ==
        Step(k, Step(k, Step(k, m, Submit(x, 0, NoFault)), Mark(x, NoFault)), Complete(x, NoFault))
  {
    RunBoth(k, s, Opening(x, c, p), Closing(x, 0));
    RunOpening(k, s, x, c, p);
    RunThree(k, Run(k, s, Opening(x, c, p)), Submit(x, 0, NoFault), Mark(x, NoFault), Complete(x, NoFault));
    hide Step, Run;
  }

  // ----- A lost reply -----

  function Losing(x: nat, gap: nat): seq<Action> {
    [Submit(x, gap, Unknown), GiveBack(x)]
  }

  lemma ReleasesHeld(k: Codec, t: TurnStore.Table, c: Call)
    requires CallOk(k, c) && Holds(k, t, c)
    ensures TurnStore.GiveBack(t, c.event, Request(k, c), c.token, false).table ==
      t[c.event := TurnStore.Turn(Request(k, c), None, t[c.event].expires, None)]
  {
    hide TurnStore.RequestOk, TurnStore.HexId, TurnStore.LimitsOk, TurnStore.GiveBack;
    var a := TurnStore.GiveBack(t, c.event, Request(k, c), c.token, false).table;
    var n := t[c.event := TurnStore.Turn(Request(k, c), None, t[c.event].expires, None)];
    forall e: string
      ensures (e in a <==> e in n) && (e in n ==> a[e] == n[e])
    {
      Turns.GiveBackAnswers(t, c.event, Request(k, c), c.token, false, e);
    }
  }

  /** A submission whose reply is lost took effect; the turn is released. */
  lemma Loses(k: Codec, s: System, x: nat, c: Call, p: AdviceSpool.Pending, gap: nat)
    requires x in s.running && s.running[x] == Called(c, Ready(p)) && CallOk(k, c) && Holds(k, s.turns, c)
    ensures Run(k, s, Losing(x, gap)) ==
      s.(authority := Authority.Apply(s.authority, Authority.Event(Commit(k, p), gap)),
         turns := s.turns[c.event := TurnStore.Turn(Request(k, c), None, s.turns[c.event].expires, None)],
         submitted := s.submitted + {(c.submission.caseId, p.raw)}, running := s.running - {x})
  {
    ReleasesHeld(k, s.turns, c);
    hide Authority.WorkOf, Authority.Apply, CallOk, Holds, TurnStore.GiveBack;
    var s1 := Step(k, s, Submit(x, gap, Unknown));
    assert s1 == s.(authority := Authority.Apply(s.authority, Authority.Event(Commit(k, p), gap)),
                    submitted := s.submitted + {(c.submission.caseId, p.raw)},
                    running := s.running[x := Called(c, Failing(false))]);
    var s2 := Step(k, s1, GiveBack(x));
    assert s1.running - {x} == s.running - {x};
    assert Losing(x, gap) == [Submit(x, gap, Unknown)] + [GiveBack(x)];
    RunBoth(k, s, [Submit(x, gap, Unknown)], [GiveBack(x)]);
    RunOne(k, s, Submit(x, gap, Unknown));
    RunOne(k, s1, GiveBack(x));
  }

  function Reopening(x: nat, c: Call): seq<Action> {
    [BindCall(x, c, NoFault), Load(x), Load(x)]
  }

  /** A later invocation of the same request takes up the spooled wire. */
  lemma Reopens(k: Codec, s: System, x: nat, c: Call, p: AdviceSpool.Pending)
    requires x !in s.running && CallOk(k, c) && Idle(k, s.turns, c)
    requires Spooled(s.spool, c.submission.caseId, p) && k.matches(p.raw, c.submission)
    ensures var n := Run(k, s, Reopening(x, c));
      && n == s.(turns := n.turns, running := s.running[x := Called(c, Ready(p))])
      && Holds(k, n.turns, c) && n.turns[c.event].expires == s.turns[c.event].expires
  {
    BindClaims(k, s, x, c);
    hide CallOk, Holds, BindStep;
    var s1 := Step(k, s, BindCall(x, c, NoFault));
    var s2 := Step(k, s1, Load(x));
    assert s2 == s1.(running := s.running[x := Called(c, Retrying)]);
    var s3 := Step(k, s2, Load(x));
    assert s3 == s1.(running := s.running[x := Called(c, Ready(p))]);
    RunThree(k, s, BindCall(x, c, NoFault), Load(x), Load(x));
  }

  /** Whatever revision is drawn for it, the authority answers a committed wire with the
      revision it has, and keeps it. */
  lemma RepeatAnswer(k: Codec, a: Authority.State, p: AdviceSpool.Pending, revision: int, gap: nat)
    requires Faithful(k, p) && Authority.AdviceRequestOk(k.decode(p.raw)) && Committed(k, a.db, p.caseId, p, revision)
    ensures Authority.WorkOf(a.db, Commit(k, p), a.top + 1 + gap).result
      == Ok(Authority.Receipt(revision, p.adviceId, p.commitment))
    ensures Committed(k, Authority.Apply(a, Authority.Event(Commit(k, p), gap)).db, p.caseId, p, revision)
  {
    Answers.AnsweredCaseAnswers(a.db, k.decode(p.raw), a.top + 1 + gap);
    hide Authority.AdviceRequestOk, Authority.WorkOf, Authority.Apply;
    AnswerCommits(k, a, p, gap);
  }

  /** A held turn that is released is idle until it expires. */
  lemma HeldThenIdle(k: Codec, t: TurnStore.Table, c: Call, d: Call)
    requires Holds(k, t, c) && d.event == c.event && d.submission == c.submission && d.now < t[c.event].expires
    ensures Request(k, d) == Request(k, c) && c.event in t
    ensures Idle(k, t[c.event := TurnStore.Turn(Request(k, c), None, t[c.event].expires, None)], d)
  {
  }

  /** The wire of the request is spooled and committed, and nobody works on its turn. */
  predicate Retakes(k: Codec, s: System, c: Call, p: AdviceSpool.Pending, revision: int) {
    && CallOk(k, c) && Idle(k, s.turns, c) && Replies(k, p, c.submission) && k.matches(p.raw, c.submission)
    && Markable(s.spool, p, k.authority, revision) && !Answers.Blank(k.authority)
    && Authority.AdviceRequestOk(k.decode(p.raw)) && Committed(k, s.authority.db, p.caseId, p, revision)
    && revision > 0 && ResultFits(k, p, revision)
  }

  /** However far an earlier invocation got after its commit, an undisturbed one puts out the
      revision the authority has. */
  lemma RetakenGoesThrough(k: Codec, s: System, x: nat, c: Call, p: AdviceSpool.Pending, revision: int, gap: nat)
    requires x !in s.running && Retakes(k, s, c, p, revision)
    ensures var n := Run(k, s, Reopening(x, c) + Closing(x, gap)); var r := ResultOf(k, p, revision);
      && Committed(k, n.authority.db, p.caseId, p, revision)
      && n.spool == s.spool[p.caseId := AdviceSpool.Spooled(p, Some((k.authority, revision)))]
      && c.event in n.turns && c.event in s.turns
      && n.turns[c.event] == TurnStore.Turn(Request(k, c), Some(r), s.turns[c.event].expires, None)
      && n.running == s.running && n.outputs == s.outputs + {(p.caseId, r)}
  {
    RetakesMeans(k, s, c, p, revision);
    hide *;
    Reopens(k, s, x, c, p);
    var s1 := Run(k, s, Reopening(x, c));
    RepeatAnswer(k, s1.authority, p, revision, gap);
    Closes(k, s1, x, c, p, gap, revision);
    RunBoth(k, s, Reopening(x, c), Closing(x, gap));
    assert s1.running - {x} == s.running;
  }

  lemma RetakesMeans(k: Codec, s: System, c: Call, p: AdviceSpool.Pending, revision: int)
    requires Retakes(k, s, c, p, revision)
    ensures CallOk(k, c) && Idle(k, s.turns, c) && p.caseId == c.submission.caseId && Faithful(k, p)
    ensures AdviceSpool.Complete(p) && k.matches(p.raw, c.submission) && Spooled(s.spool, c.submission.caseId, p)
    ensures Markable(s.spool, p, k.authority, revision) && !Answers.Blank(k.authority) && c.event in s.turns
    ensures Authority.AdviceRequestOk(k.decode(p.raw)) && Committed(k, s.authority.db, p.caseId, p, revision)
    ensures revision > 0 && ResultFits(k, p, revision)
  {
    hide TurnStore.RequestOk, TurnStore.LimitsOk, TurnStore.HexId, Answers.Blank, AdviceSpool.Complete, Faithful;
  }

  /** After the bind of a retaken turn its wire is loaded and taken. */
  lemma RetakenIsTaken(k: Codec, s: System, x: nat, c: Call, p: AdviceSpool.Pending, revision: int)
    requires x !in s.running && Retakes(k, s, c, p, revision)
    ensures var n := Step(k, s, BindCall(x, c, NoFault)); var m := Step(k, n, Load(x)); var l := Step(k, m, Load(x));
      && x in n.running && n == s.(turns := n.turns, running := s.running[x := Called(c, Bound)])
      && Holds(k, n.turns, c) && m == n.(running := s.running[x := Called(c, Retrying)])
      && l == n.(running := s.running[x := Called(c, Ready(p))]) && Takes(k, l, p, revision)
      && CallOk(k, c) && ResultFits(k, p, revision)
  {
    RetakesMeans(k, s, c, p, revision);
    hide CallOk, Idle, Holds, Replies, Retakes, Markable, Answers.Blank, ResultFits, AdviceSpool.Complete, Faithful,
      Authority.AdviceRequestOk, Authority.WorkOf, Committed;
    BindClaims(k, s, x, c);
    hide BindStep;
    RepeatAnswer(k, s.authority, p, revision, 0);
  }

  lemma RunRetaken(k: Codec, s: System, x: nat, c: Call)
    ensures var l := Step(k, Step(k, Step(k, s, BindCall(x, c, NoFault)), Load(x)), Load(x));
      Run(k, s, Reopening(x, c) + Closing(x, 0)) ==
        Step(k, Step(k, Step(k, l, Submit(x, 0, NoFault)), Mark(x, NoFault)), Complete(x, NoFault))
  {
    RunBoth(k, s, Reopening(x, c), Closing(x, 0));
    RunThree(k, s, BindCall(x, c, NoFault), Load(x), Load(x));
    RunThree(k, Run(k, s, Reopening(x, c)), Submit(x, 0, NoFault), Mark(x, NoFault), Complete(x, NoFault));
    hide Step, Run;
  }

  function Others(events: seq<Authority.Event>): seq<Action> {
    seq(|events|, i requires 0 <= i < |events| => Other(events[i]))
  }

  lemma {:induction false} OthersRun(k: Codec, s: System, events: seq<Authority.Event>)
    ensures Run(k, s, Others(events)) == s.(authority := Authority.Run(s.authority, events))
    decreases |events|
  {
    hide Authority.Apply;
    if events != [] {
      assert Others(events)[1..] == Others(events[1..]);
      OthersRun(k, Step(k, s, Other(events[0])), events[1..]);
    }
  }

  lemma GrowsKeeps(k: Codec, db: Authority.Db, later: Authority.Db, c: string, p: AdviceSpool.Pending, revision: int)
    requires AuthorityInvariant.Grows(db, later) && Committed(k, db, c, p, revision)
    ensures Committed(k, later, c, p, revision)
  {
  }

  /** What the authority has committed it keeps, whatever it does. */
  lemma CommittedStays(k: Codec, a: Authority.State, op: Authority.Event, events: seq<Authority.Event>, c: string,
      p: AdviceSpool.Pending, revision: int)
    requires AuthorityInvariant.Valid(a.db, a.top) && Committed(k, Authority.Apply(a, op).db, c, p, revision)
    ensures Committed(k, Authority.Run(Authority.Apply(a, op), events).db, c, p, revision)
  {
    hide AuthorityInvariant.Valid, Authority.WorkOf, Authority.Settled, Authority.Run, AuthorityInvariant.Grows;
    AuthorityInvariant.OperationKeeps(a.db, op.op, a.top + 1 + op.gap, a.top);
    AuthorityInvariant.RunKeeps(Authority.Apply(a, op), events);
    GrowsKeeps(k, Authority.Apply(a, op).db, Authority.Run(Authority.Apply(a, op), events).db, c, p, revision);
  }

  /** An invocation loses the reply to its submission.  Whatever the authority does then, a
      halt included, the next invocation of the same request, before the turn expires,
      answers with the revision the first submission drew, and the same bytes were submitted
      both times. */
  lemma LostReplyIsTakenUp(k: Codec, s: System, x: nat, c: Call, p: AdviceSpool.Pending, gap: nat,
      others: seq<Authority.Event>, y: nat, d: Call, later: nat)
    requires x !in s.running && y !in s.running && CallOk(k, c) && Fresh(s.turns, c) && Replies(k, p, c.submission)
    requires p.caseId !in s.spool && !AdviceSpool.AdviceTaken(s.spool, p.adviceId) && !Answers.Blank(k.authority)
    requires Committable(s.authority.db, k.decode(p.raw)) && ResultFits(k, p, s.authority.top + 1 + gap)
    requires AuthorityInvariant.Valid(s.authority.db, s.authority.top)
    requires k.matches(p.raw, c.submission) && CallOk(k, d) && d.event == c.event && d.submission == c.submission
    requires d.now < c.now + c.limits.retention
    ensures
      var n := Run(k, s, Opening(x, c, p) + Losing(x, gap) + Others(others) + Reopening(y, d) + Closing(y, later));
      var revision := s.authority.top + 1 + gap; var r := ResultOf(k, p, revision);
      && Committed(k, n.authority.db, p.caseId, p, revision)
      && n.spool == s.spool[p.caseId := AdviceSpool.Spooled(p, Some((k.authority, revision)))]
      && c.event in n.turns
      && n.turns[c.event] == TurnStore.Turn(Request(k, c), Some(r), c.now + c.limits.retention, None)
      && n.running == s.running && n.submitted == s.submitted + {(p.caseId, p.raw)}
      && n.outputs == s.outputs + {(p.caseId, r)}
  {
    hide *;
    var revision := s.authority.top + 1 + gap;
    var committed := Authority.Event(Commit(k, p), gap);
    RepliesMeans(k, p, c.submission);
    Opens(k, s, x, c, p);
    CommitAnswer(k, s.authority, p, gap);
    CommittedStays(k, s.authority, committed, others, p.caseId, p, revision);
    var s1 := Run(k, s, Opening(x, c, p));
    Loses(k, s1, x, c, p, gap);
    var s2 := Run(k, s1, Losing(x, gap));
    assert s2.running == s.running;
    OthersRun(k, s2, others);
    var s3 := Run(k, s2, Others(others));
    HeldThenIdle(k, s1.turns, c, d);
    SpooledNow(s3.spool, p, k.authority, revision);
    Reopens(k, s3, y, d, p);
    var s4 := Run(k, s3, Reopening(y, d));
    RepeatAnswer(k, s4.authority, p, revision, later);
    Closes(k, s4, y, d, p, later, revision);
    assert s4.running - {y} == s.running;
    RunBoth(k, s, Opening(x, c, p), Losing(x, gap));
    RunBoth(k, s, Opening(x, c, p) + Losing(x, gap), Others(others));
    RunBoth(k, s, Opening(x, c, p) + Losing(x, gap) + Others(others), Reopening(y, d));
    RunBoth(k, s, Opening(x, c, p) + Losing(x, gap) + Others(others) + Reopening(y, d), Closing(y, later));
  }

  // ----- Failures -----

  /** The invocation moves on, and only it. */
  function Moves(s: System, x: nat, stage: Stage): System
    requires x in s.running
  {
    var i := s.running[x];
    s.(running := s.running[x := Invocation(i.event, i.submission, i.token, stage)])
  }

  /** A bind whose answer is lost, or that is answered with an error or with a turn in
      flight, starts nothing; a completed turn's result is put out again. */
  lemma BindOtherwise(k: Codec, s: System, x: nat, c: Call, f: Fault)
    requires x !in s.running
    ensures var a := TurnStore.Bind(s.turns, c.event, Request(k, c), c.now, c.limits, c.token);
      var n := Step(k, s, BindCall(x, c, f));
      && (f.Failed? ==> n == s)
      && (f.Unknown? ==> n == s.(turns := a.table))
      && (f.NoFault? && (a.result.Err? || a.result.value.InFlight?) ==> n == s.(turns := a.table))
      && (f.NoFault? && a.result.Ok? && a.result.value.Completed? ==>
            n == s.(turns := a.table, outputs := s.outputs + {(c.submission.caseId, a.result.value.result)}))
  {
    hide TurnStore.Bind;
  }

  /** The finalizer signs only where nothing is spooled, retries the spooled wire where it
      matches the submission, and gives up otherwise. */
  lemma LoadDecides(k: Codec, s: System, x: nat)
    requires x in s.running
    ensures var i := s.running[x]; var c := i.submission.caseId;
      Step(k, s, Load(x)) ==
        if i.stage == Bound then
          Moves(s, x, if c !in s.spool then Unspooled
                      else if k.matches(s.spool[c].pending.raw, i.submission) then Retrying else Failing(true))
        else if i.stage == Retrying then
          Moves(s, x, if c in s.spool then Ready(s.spool[c].pending) else Failing(true))
        else s
  {
  }

  /** Only a wire for the submission's case and commitment is signed. */
  lemma SignsOwn(k: Codec, s: System, x: nat, p: AdviceSpool.Pending, abandon: bool)
    requires x in s.running
    ensures var i := s.running[x];
      && Step(k, s, Sign(x, p)) ==
           (if i.stage == Unspooled && p.caseId == i.submission.caseId &&
               p.caseCommitment == i.submission.caseCommitment && Faithful(k, p)
            then Moves(s, x, Signed(p)) else s)
      && Step(k, s, Fail(x, abandon)) ==
           if i.stage in {Bound, Unspooled, Retrying} then Moves(s, x, Failing(abandon)) else s
  {
  }

  /** A save, submission or mark that fails, or whose answer is lost, leaves the turn to be
      released; a lost answer took effect and a failure did not. */
  lemma FailureReleases(k: Codec, s: System, x: nat, gap: nat, f: Fault)
    requires x in s.running && f != NoFault
    ensures var i := s.running[x]; var gone := Moves(s, x, Failing(false));
      match i.stage
      case Signed(p) =>
        var saved := AdviceSpool.Save(s.spool, p);
        Step(k, s, Save(x, f)) == gone.(spool := if f == Unknown && saved.Some? then saved.value else s.spool)
      case Ready(p) =>
        Step(k, s, Submit(x, gap, f)) == gone.(submitted := s.submitted + {(i.submission.caseId, p.raw)},
          authority := if f == Unknown then Authority.Apply(s.authority, Authority.Event(Commit(k, p), gap))
                       else s.authority)
      case Answered(p, receipt) =>
        var a := AdviceSpool.Acceptance(p.adviceId, p.caseId, p.commitment, k.authority, receipt);
        var marked := AdviceSpool.Mark(s.spool, a);
        Step(k, s, Mark(x, f)) == gone.(spool := if f == Unknown && marked.Some? then marked.value else s.spool)
      case Marked(p, revision) =>
        var r := ResultOf(k, p, revision);
        var a := TurnStore.Complete(s.turns, i.event, k.request(i.event, i.submission), r, i.token);
        Step(k, s, Complete(x, f)) ==
          s.(turns := if f == Unknown then a.table else s.turns, running := s.running - {x})
      case _ => true
  {
    hide AdviceSpool.Save, AdviceSpool.Mark, Authority.WorkOf, Authority.Apply, TurnStore.Complete;
  }

  /** The receipt is for this wire. */
  predicate ReceiptFor(p: AdviceSpool.Pending, r: Authority.Receipt) {
    r.envelopeId == p.adviceId && r.commitment == p.commitment && r.revision >= 1
  }

  /** A conflicting spool, a refusal, a receipt for something else and a turn that is no
      longer held stop the invocation; nothing is put out. */
  lemma RefusalReleases(k: Codec, s: System, x: nat, gap: nat)
    requires x in s.running
    ensures var i := s.running[x]; var gone := Moves(s, x, Failing(false));
      match i.stage
      case Signed(p) => AdviceSpool.Save(s.spool, p).None? ==> Step(k, s, Save(x, NoFault)) == gone
      case Ready(p) =>
        var answer := Authority.WorkOf(s.authority.db, Commit(k, p), s.authority.top + 1 + gap).result;
        answer.Err? || !ReceiptFor(p, answer.value) ==>
          Step(k, s, Submit(x, gap, NoFault)) == gone.(submitted := s.submitted + {(i.submission.caseId, p.raw)},
            authority := Authority.Apply(s.authority, Authority.Event(Commit(k, p), gap)))
      case Answered(p, receipt) =>
        var a := AdviceSpool.Acceptance(p.adviceId, p.caseId, p.commitment, k.authority, receipt);
        AdviceSpool.Mark(s.spool, a).None? ==> Step(k, s, Mark(x, NoFault)) == gone
      case Marked(p, revision) =>
        var r := ResultOf(k, p, revision);
        var a := TurnStore.Complete(s.turns, i.event, k.request(i.event, i.submission), r, i.token);
        a.result.Err? ==> Step(k, s, Complete(x, NoFault)) == s.(turns := a.table, running := s.running - {x})
      case _ => true
  {
    hide AdviceSpool.Save, AdviceSpool.Mark, Authority.WorkOf, Authority.Apply, TurnStore.Complete;
  }

  /** A failed invocation gives its turn back, released or abandoned, and is over. */
  lemma FailingGivesBack(k: Codec, s: System, x: nat, abandon: bool)
    requires x in s.running && s.running[x].stage == Failing(abandon)
    ensures var i := s.running[x];
      var a := TurnStore.GiveBack(s.turns, i.event, k.request(i.event, i.submission), i.token, abandon);
      Step(k, s, GiveBack(x)) == s.(turns := a.table, running := s.running - {x})
  {
    hide TurnStore.GiveBack;
  }

  /** A step of no running invocation does nothing. */
  lemma NobodysStep(k: Codec, s: System, x: nat, a: Action)
    requires !a.Other? && !a.Bind? && !a.Crash? && a.x == x && x !in s.running
    ensures Step(k, s, a) == s
  {
  }

  /** Nor does a step that is not the invocation's next one. */
  lemma OutOfTurn(k: Codec, s: System, x: nat, gap: nat, f: Fault)
    requires x in s.running
    ensures var stage := s.running[x].stage;
      && (!stage.Signed? ==> Step(k, s, Save(x, f)) == s)
      && (!stage.Ready? ==> Step(k, s, Submit(x, gap, f)) == s)
      && (!stage.Answered? ==> Step(k, s, Mark(x, f)) == s)
      && (!stage.Marked? ==> Step(k, s, Complete(x, f)) == s)
      && (!stage.Failing? ==> Step(k, s, GiveBack(x)) == s)
  {
    hide AdviceSpool.Save, AdviceSpool.Mark, Authority.WorkOf, Authority.Apply, TurnStore.Complete, TurnStore.GiveBack;
  }
}
