/** The dispatcher's replay guard, internal/sspedge/dispatcher_turn_store.go: one row per
    Buzz event that binds a request, a bounded claim to work on it, and its result. */
module TurnStore {
  import opened Common

  const MAX_REQUEST_BYTES := 65536
  const MAX_RESULT_BYTES := 16384
  const MAX_RETENTION := 30 * 24 * 3600 * 1_000_000_000
  const MAX_CAPACITY := 1048576
  const MAX_CLAIM_TTL := 600 * 1_000_000_000

  datatype Claim = Claim(token: string, expires: int)

  /** A row is completed when it has a result; only a pending row can be claimed. */
  datatype Turn = Turn(request: Bytes, result: Option<Bytes>, expires: int, claim: Option<Claim>)

  type Table = map<string, Turn>

  datatype Binding = Completed(result: Bytes) | InFlight | Claimed(token: string)
  datatype Error = Invalid | Mismatch | Capacity | NotFound | NotOwned | ResultConflict

  datatype Answer<+T> = Answer(table: Table, result: Result<T, Error>)

  predicate HexId(s: string) {
    |s| == 64 && forall i | 0 <= i < 64 :: '0' <= s[i] <= '9' || 'a' <= s[i] <= 'f'
  }

  /** The limits of one binding: how long rows and claims last and how many rows fit. */
  datatype Limits = Limits(retention: int, claimTtl: int, capacity: int)

  predicate LimitsOk(l: Limits) {
    0 < l.retention <= MAX_RETENTION && 0 < l.claimTtl <= MAX_CLAIM_TTL && 0 < l.capacity <= MAX_CAPACITY
  }

  predicate RequestOk(event: string, request: Bytes) {
    HexId(event) && 0 < |request| <= MAX_REQUEST_BYTES
  }

  function Pruned(t: Table, now: int): Table {
    map e | e in t && t[e].expires > now :: t[e]
  }

  /** BindDispatcherTurn; token is the random token drawn if one is needed.  An error rolls
      the pruning back too. */
  function Bind(t: Table, event: string, request: Bytes, now: int, l: Limits, token: string): Answer<Binding> {
    var p := Pruned(t, now);
    if !RequestOk(event, request) || !LimitsOk(l) then Answer(t, Err(Invalid))
    else if event in p then
      var turn := p[event];
      if turn.request != request then Answer(t, Err(Mismatch))
      else if turn.result.Some? then Answer(p, Ok(Completed(turn.result.value)))
      else if turn.claim.Some? && turn.claim.value.expires > now then Answer(p, Ok(InFlight))
      else Answer(p[event := turn.(claim := Some(Claim(token, now + l.claimTtl)))], Ok(Claimed(token)))
    else if |p| >= l.capacity then Answer(t, Err(Capacity))
    else Answer(p[event := Turn(request, None, now + l.retention, Some(Claim(token, now + l.claimTtl)))],
      Ok(Claimed(token)))
  }

  /** The row is pending and this token holds it. */
  predicate Owns(turn: Turn, token: string) {
    turn.result.None? && turn.claim.Some? && turn.claim.value.token == token
  }

  /** CompleteDispatcherTurn. */
  function Complete(t: Table, event: string, request: Bytes, result: Bytes, token: string): Answer<()> {
    if !RequestOk(event, request) || !HexId(token) || !(0 < |result| <= MAX_RESULT_BYTES) then Answer(t, Err(Invalid))
    else if event !in t then Answer(t, Err(NotFound))
    else if t[event].request != request then Answer(t, Err(Mismatch))
    else if t[event].result.Some? then
      if t[event].result.value != result then Answer(t, Err(ResultConflict)) else Answer(t, Ok(()))
    else if !Owns(t[event], token) then Answer(t, Err(NotOwned))
    else Answer(t[event := t[event].(result := Some(result), claim := None)], Ok(()))
  }

  /** ReleaseDispatcherTurnClaim and AbandonDispatcherTurn. */
  function GiveBack(t: Table, event: string, request: Bytes, token: string, abandon: bool): Answer<()> {
    if !RequestOk(event, request) || !HexId(token) then Answer(t, Err(Invalid))
    else if event !in t then Answer(t, Err(NotFound))
    else if t[event].request != request then Answer(t, Err(Mismatch))
    else if !Owns(t[event], token) then Answer(t, Err(NotOwned))
    else if abandon then Answer(t - {event}, Ok(()))
    else Answer(t[event := t[event].(claim := None)], Ok(()))
  }

  /** The table updated in place, one transaction at a time. */
  class Store {
    var turns: Table

    constructor ()
      ensures turns == map[]
    {
      turns := map[];
    }

    method BindDispatcherTurn(event: string, request: Bytes, now: int, l: Limits, token: string)
        returns (result: Result<Binding, Error>)
      modifies this
      ensures Answer(turns, result) == Bind(old(turns), event, request, now, l, token)
    {
      hide RequestOk, LimitsOk;
      if !RequestOk(event, request) || !LimitsOk(l) {
        return Err(Invalid);
      }
      var before := turns;
      turns := Pruned(turns, now);
      if event in turns {
        var turn := turns[event];
        if turn.request != request {
          turns := before;
          return Err(Mismatch);
        }
        if turn.result.Some? {
          return Ok(Completed(turn.result.value));
        }
        if turn.claim.Some? && turn.claim.value.expires > now {
          return Ok(InFlight);
        }
        turns := turns[event := turn.(claim := Some(Claim(token, now + l.claimTtl)))];
        return Ok(Claimed(token));
      }
      if |turns| >= l.capacity {
        turns := before;
        return Err(Capacity);
      }
      turns := turns[event := Turn(request, None, now + l.retention, Some(Claim(token, now + l.claimTtl)))];
      result := Ok(Claimed(token));
    }

    method CompleteDispatcherTurn(event: string, request: Bytes, answer: Bytes, token: string)
        returns (result: Result<(), Error>)
      modifies this
      ensures Answer(turns, result) == Complete(old(turns), event, request, answer, token)
    {
      hide RequestOk, HexId;
      if !RequestOk(event, request) || !HexId(token) || |answer| == 0 || |answer| > MAX_RESULT_BYTES {
        return Err(Invalid);
      }
      if event !in turns {
        return Err(NotFound);
      }
      var turn := turns[event];
      if turn.request != request {
        return Err(Mismatch);
      }
      if turn.result.Some? {
        if turn.result.value != answer {
          return Err(ResultConflict);
        }
        return Ok(());
      }
      if turn.claim.None? || turn.claim.value.token != token {
        return Err(NotOwned);
      }
      turns := turns[event := turn.(result := Some(answer), claim := None)];
      result := Ok(());
    }

    method UpdatePendingClaim(event: string, request: Bytes, token: string, abandon: bool)
        returns (result: Result<(), Error>)
      modifies this
      ensures Answer(turns, result) == GiveBack(old(turns), event, request, token, abandon)
    {
      hide RequestOk, HexId;
      if !RequestOk(event, request) || !HexId(token) {
        return Err(Invalid);
      }
      if event !in turns {
        return Err(NotFound);
      }
      var turn := turns[event];
      if turn.request != request {
        return Err(Mismatch);
      }
      if turn.result.Some? || turn.claim.None? || turn.claim.value.token != token {
        return Err(NotOwned);
      }
      if abandon {
        turns := turns - {event};
      } else {
        turns := turns[event := turn.(claim := None)];
      }
      result := Ok(());
    }
  }

  // ----- Runs -----

  /** The table and the token issued last for each event. */
  datatype State = State(turns: Table, latest: map<string, string>)

  datatype Op =
    | BindOp(event: string, request: Bytes, now: int, limits: Limits, token: string)
    | CompleteOp(event: string, request: Bytes, result: Bytes, token: string)
    | GiveBackOp(event: string, request: Bytes, token: string, abandon: bool)

  function Apply(s: State, op: Op): State {
    match op
    case BindOp(event, request, now, l, token) =>
      var a := Bind(s.turns, event, request, now, l, token);
      State(a.table, if a.result == Ok(Claimed(token)) then s.latest[event := token] else s.latest)
    case CompleteOp(event, request, result, token) =>
      s.(turns := Complete(s.turns, event, request, result, token).table)
    case GiveBackOp(event, request, token, abandon) =>
      s.(turns := GiveBack(s.turns, event, request, token, abandon).table)
  }

  function Run(s: State, ops: seq<Op>): State
    decreases |ops|
  {
    if ops == [] then s else Run(Apply(s, ops[0]), ops[1..])
  }

  const START := State(map[], map[])

  /** A completed row is unclaimed, and a claim on a pending row is the one issued last. */
  ghost predicate Consistent(s: State) {
    forall e | e in s.turns ::
      && (s.turns[e].result.Some? ==> s.turns[e].claim.None?)
      && (s.turns[e].claim.Some? ==> e in s.latest && s.latest[e] == s.turns[e].claim.value.token)
  }

  lemma ApplyConsistent(s: State, op: Op)
    requires Consistent(s)
    ensures Consistent(Apply(s, op))
  {
    hide RequestOk, LimitsOk, HexId;
  }

  ghost predicate SameCapacity(ops: seq<Op>, capacity: int) {
    forall i | 0 <= i < |ops| && ops[i].BindOp? :: ops[i].limits.capacity == capacity
  }

  lemma PrunedSize(t: Table, now: int)
    ensures |Pruned(t, now)| <= |t|
  {
    SubsetSize(Pruned(t, now).Keys, t.Keys);
  }

  lemma {:induction false} SubsetSize(a: set<string>, b: set<string>)
    requires a <= b
    ensures |a| <= |b|
    decreases a
  {
    if a != {} {
      var x :| x in a;
      SubsetSize(a - {x}, b - {x});
    }
  }

  lemma UpdatedSize(t: Table, e: string, turn: Turn)
    ensures |t[e := turn]| == if e in t then |t| else |t| + 1
  {
    assert t[e := turn].Keys == t.Keys + {e};
  }

  lemma RemovedSize(t: Table, e: string)
    ensures |t - {e}| <= |t|
  {
    SubsetSize((t - {e}).Keys, t.Keys);
  }

  lemma BindSize(t: Table, event: string, request: Bytes, now: int, l: Limits, token: string)
    requires |t| <= l.capacity
    ensures |Bind(t, event, request, now, l, token).table| <= l.capacity
  {
    hide RequestOk, LimitsOk, Pruned;
    PrunedSize(t, now);
    var p := Pruned(t, now);
    var next := Turn(request, None, now + l.retention, Some(Claim(token, now + l.claimTtl)));
    UpdatedSize(p, event, next);
    if event in p {
      UpdatedSize(p, event, p[event].(claim := Some(Claim(token, now + l.claimTtl))));
    }
  }

  lemma CompleteSize(t: Table, event: string, request: Bytes, result: Bytes, token: string)
    ensures |Complete(t, event, request, result, token).table| == |t|
  {
    hide RequestOk, HexId;
    if event in t {
      UpdatedSize(t, event, t[event].(result := Some(result), claim := None));
    }
  }

  lemma GiveBackSize(t: Table, event: string, request: Bytes, token: string, abandon: bool)
    ensures |GiveBack(t, event, request, token, abandon).table| <= |t|
  {
    hide RequestOk, HexId;
    RemovedSize(t, event);
    if event in t {
      UpdatedSize(t, event, t[event].(claim := None));
    }
  }

  lemma ApplySize(s: State, op: Op, capacity: nat)
    requires |s.turns| <= capacity && (op.BindOp? ==> op.limits.capacity == capacity)
    ensures |Apply(s, op).turns| <= capacity
  {
    hide Bind, Complete, GiveBack;
    match op
    case BindOp(event, request, now, l, token) => BindSize(s.turns, event, request, now, l, token);
    case CompleteOp(event, request, result, token) => CompleteSize(s.turns, event, request, result, token);
    case GiveBackOp(event, request, token, abandon) => GiveBackSize(s.turns, event, request, token, abandon);
  }

  /** Over every run the table is consistent and never exceeds the fixed capacity,
      whichever operations fail and roll their pruning back. */
  lemma {:induction false} RunKeeps(s: State, ops: seq<Op>, capacity: nat)
    requires Consistent(s) && |s.turns| <= capacity && SameCapacity(ops, capacity)
    ensures Consistent(Run(s, ops)) && |Run(s, ops).turns| <= capacity
    decreases |ops|
  {
    hide Apply, Consistent;
    if ops != [] {
      ApplyConsistent(s, ops[0]);
      ApplySize(s, ops[0], capacity);
      RunKeeps(Apply(s, ops[0]), ops[1..], capacity);
    }
  }

  lemma TurnsStayBounded(ops: seq<Op>, capacity: nat)
    requires SameCapacity(ops, capacity)
    ensures |Run(START, ops).turns| <= capacity
  {
    hide Run;
    RunKeeps(START, ops, capacity);
  }

  /** Only the token issued last moves a pending turn: completing, releasing or abandoning
      it with any other leaves every table entry as it was. */
  lemma OnlyLatestTokenMoves(ops: seq<Op>, op: Op)
    requires op.CompleteOp? || op.GiveBackOp?
    ensures var s := Run(START, ops);
      Apply(s, op).turns != s.turns ==> op.event in s.latest && op.token == s.latest[op.event]
  {
    hide Run, RequestOk, HexId;
    ConsistentRun(START, ops);
  }

  lemma {:induction false} ConsistentRun(s: State, ops: seq<Op>)
    requires Consistent(s)
    ensures Consistent(Run(s, ops))
    decreases |ops|
  {
    hide Apply, Consistent;
    if ops != [] {
      ApplyConsistent(s, ops[0]);
      ConsistentRun(Apply(s, ops[0]), ops[1..]);
    }
  }

  /** The operations of a run all happen before the row expires. */
  ghost predicate Before(ops: seq<Op>, expires: int) {
    forall i | 0 <= i < |ops| && ops[i].BindOp? :: ops[i].now < expires
  }

  lemma ApplyKeepsCompleted(s: State, op: Op, e: string)
    requires e in s.turns && s.turns[e].result.Some? && (op.BindOp? ==> op.now < s.turns[e].expires)
    ensures e in Apply(s, op).turns && Apply(s, op).turns[e] == s.turns[e]
  {
    hide RequestOk, LimitsOk, HexId;
  }

  /** A completed row outlives everything until it expires. */
  lemma {:induction false} CompletedStays(s: State, ops: seq<Op>, e: string)
    requires e in s.turns && s.turns[e].result.Some? && Before(ops, s.turns[e].expires)
    ensures e in Run(s, ops).turns && Run(s, ops).turns[e] == s.turns[e]
    decreases |ops|
  {
    hide Apply;
    if ops != [] {
      ApplyKeepsCompleted(s, ops[0], e);
      CompletedStays(Apply(s, ops[0]), ops[1..], e);
    }
  }

  /** After a completion every bind of the same event and request, until the row expires,
      returns the result stored first. */
  lemma FirstResultReturns(s: State, event: string, request: Bytes, result: Bytes, token: string, ops: seq<Op>,
      now: int, l: Limits, drawn: string)
    requires Complete(s.turns, event, request, result, token).result.Ok? && LimitsOk(l)
    requires var row := s.turns[event]; Before(ops, row.expires) && now < row.expires
    ensures var done := Apply(s, CompleteOp(event, request, result, token));
      Bind(Run(done, ops).turns, event, request, now, l, drawn).result == Ok(Completed(result))
  {
    var done := Apply(s, CompleteOp(event, request, result, token));
    hide RequestOk, HexId, LimitsOk, Run;
    CompletedStays(done, ops, event);
  }

  /** The operations happen before a time, and none on this event presents this token. */
  ghost predicate LeavesClaim(ops: seq<Op>, event: string, token: string, until: int) {
    forall i | 0 <= i < |ops| ::
      if ops[i].BindOp? then ops[i].now < until else ops[i].event == event ==> ops[i].token != token
  }

  predicate ClaimedBy(t: Table, event: string, token: string, until: int) {
    && event in t && Owns(t[event], token)
    && until <= t[event].expires && until <= t[event].claim.value.expires
  }

  lemma ApplyKeepsClaim(s: State, op: Op, event: string, token: string, until: int)
    requires ClaimedBy(s.turns, event, token, until) && LeavesClaim([op], event, token, until)
    ensures event in Apply(s, op).turns && Apply(s, op).turns[event] == s.turns[event]
  {
    hide RequestOk, LimitsOk, HexId;
    assert [op][0] == op;
  }

  lemma {:induction false} ClaimStays(s: State, ops: seq<Op>, event: string, token: string, until: int)
    requires ClaimedBy(s.turns, event, token, until) && LeavesClaim(ops, event, token, until)
    ensures event in Run(s, ops).turns && Run(s, ops).turns[event] == s.turns[event]
    decreases |ops|
  {
    hide Apply;
    if ops != [] {
      assert LeavesClaim([ops[0]], event, token, until);
      assert LeavesClaim(ops[1..], event, token, until);
      hide LeavesClaim;
      ApplyKeepsClaim(s, ops[0], event, token, until);
      ClaimStays(Apply(s, ops[0]), ops[1..], event, token, until);
    }
  }

  /** A claim shuts every other binder out, whatever else happens without its token, until
      it expires; from then on, while the row lasts, the next binder gets a claim of its own. */
  lemma ClaimExcludes(s: State, event: string, request: Bytes, now: int, l: Limits, token: string, ops: seq<Op>,
      later: int, drawn: string)
    requires Bind(s.turns, event, request, now, l, token).result == Ok(Claimed(token))
    requires var row := Bind(s.turns, event, request, now, l, token).table[event];
      LeavesClaim(ops, event, token, if row.expires < now + l.claimTtl then row.expires else now + l.claimTtl)
        && later < row.expires
    ensures var claimed := Apply(s, BindOp(event, request, now, l, token));
      Bind(Run(claimed, ops).turns, event, request, later, l, drawn).result ==
        Ok(if later < now + l.claimTtl then InFlight else Claimed(drawn))
  {
    var claimed := Apply(s, BindOp(event, request, now, l, token));
    var row := claimed.turns[event];
    hide RequestOk, LimitsOk, Run, LeavesClaim;
    ClaimStays(claimed, ops, event, token, if row.expires < now + l.claimTtl then row.expires else now + l.claimTtl);
  }
}
