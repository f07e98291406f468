/** What the turn store answers and leaves behind, told from the rows alone. */
module TurnAnswers {
  import opened Common
  import opened TurnStore

  /** The event has a row that has not expired. */
  predicate Alive(t: Table, event: string, now: int) {
    event in t && t[event].expires > now
  }

  function AliveEvents(t: Table, now: int): set<string> {
    set e | e in t && Alive(t, e, now)
  }

  predicate Bound(t: Table, event: string, request: Bytes, now: int) {
    Alive(t, event, now) && t[event].request == request
  }

  predicate Busy(t: Table, event: string, now: int) {
    event in t && t[event].claim.Some? && t[event].claim.value.expires > now
  }

  /** A bind of a valid request: another request is a mismatch, a finished turn returns its
      result, a claimed one is in flight, a new one needs room, and otherwise it is claimed. */
  lemma BindAnswers(t: Table, event: string, request: Bytes, now: int, l: Limits, token: string)
    requires RequestOk(event, request) && LimitsOk(l)
    ensures var a := Bind(t, event, request, now, l, token).result;
      var pending := Bound(t, event, request, now) && t[event].result.None?;
      && (a == Err(Mismatch) <==> Alive(t, event, now) && t[event].request != request)
      && (forall r :: a == Ok(Completed(r)) <==> Bound(t, event, request, now) && t[event].result == Some(r))
      && (a == Ok(InFlight) <==> pending && Busy(t, event, now))
      && (a == Err(Capacity) <==> !Alive(t, event, now) && |AliveEvents(t, now)| >= l.capacity)
      && (a == Ok(Claimed(token)) <==>
            (pending && !Busy(t, event, now)) || (!Alive(t, event, now) && |AliveEvents(t, now)| < l.capacity))
  {
    hide RequestOk, LimitsOk;
    PrunedAlive(t, now);
  }

  lemma PrunedAlive(t: Table, now: int)
    ensures Pruned(t, now).Keys == AliveEvents(t, now) && |Pruned(t, now)| == |AliveEvents(t, now)|
  {
    assert Pruned(t, now).Keys == AliveEvents(t, now);
  }

  /** What a bind leaves: after an error everything, otherwise the unexpired rows, with the
      event's own claimed for the claim's time and, if new, reserved for the retention. */
  lemma BindLeaves(t: Table, event: string, request: Bytes, now: int, l: Limits, token: string, e: string)
    ensures var a := Bind(t, event, request, now, l, token);
      && (a.result.Err? ==> a.table == t)
      && (a.result.Ok? && e != event ==> (e in a.table <==> Alive(t, e, now)) && (e in a.table ==> a.table[e] == t[e]))
      && (a.result == Ok(Claimed(token)) ==>
            && event in a.table && a.table[event].request == request && a.table[event].result.None?
            && a.table[event].claim == Some(Claim(token, now + l.claimTtl))
            && a.table[event].expires == if Alive(t, event, now) then t[event].expires else now + l.retention)
      && (a.result.Ok? && a.result != Ok(Claimed(token)) ==> event in a.table && a.table[event] == t[event])
  {
    hide RequestOk, LimitsOk;
  }

  /** Only the holder of the claim completes a pending turn; a completed one takes only its
      own result again. */
  lemma CompleteAnswers(t: Table, event: string, request: Bytes, result: Bytes, token: string, e: string)
    requires RequestOk(event, request) && HexId(token) && 0 < |result| <= 16384
    ensures var a := Complete(t, event, request, result, token);
      && (a.result == Err(NotFound) <==> event !in t)
      && (a.result == Err(Mismatch) <==> event in t && t[event].request != request)
      && (event in t && t[event].request == request ==>
            && (t[event].result.Some? ==>
                  a == Answer(t, if t[event].result == Some(result) then Ok(()) else Err(ResultConflict)))
            && (t[event].result.None? && !HeldBy(t, event, token) ==> a == Answer(t, Err(NotOwned)))
            && (t[event].result.None? && HeldBy(t, event, token) ==>
                  && a.result.Ok? && event in a.table
                  && a.table[event] == Turn(request, Some(result), t[event].expires, None)))
      && (a.result.Err? ==> a.table == t)
      && (e != event ==> (e in a.table <==> e in t) && (e in t ==> a.table[e] == t[e]))
  {
    hide RequestOk, HexId;
  }

  predicate HeldBy(t: Table, event: string, token: string) {
    event in t && t[event].claim.Some? && t[event].claim.value.token == token
  }

  /** The holder of the claim on a pending turn, and no one else, gives it back: released,
      the row stays with its request and expiry and no claim; abandoned, it is gone. */
  lemma GiveBackAnswers(t: Table, event: string, request: Bytes, token: string, abandon: bool, e: string)
    requires RequestOk(event, request) && HexId(token)
    ensures var a := GiveBack(t, event, request, token, abandon);
      && (a.result == Err(NotFound) <==> event !in t)
      && (a.result == Err(Mismatch) <==> event in t && t[event].request != request)
      && (a.result == Err(NotOwned) <==>
            event in t && t[event].request == request && (t[event].result.Some? || !HeldBy(t, event, token)))
      && (a.result.Ok? <==>
            event in t && t[event].request == request && t[event].result.None? && HeldBy(t, event, token))
      && (a.result.Err? ==> a.table == t)
      && (a.result.Ok? && abandon ==> event !in a.table)
      && (a.result.Ok? && !abandon ==>
            event in a.table && a.table[event] == Turn(request, None, t[event].expires, None))
      && (e != event ==> (e in a.table <==> e in t) && (e in t ==> a.table[e] == t[e]))
  {
    hide RequestOk, HexId;
  }

  // ----- Released turns over runs -----

  ghost predicate LeavesAlone(ops: seq<Op>, event: string, until: int) {
    forall i | 0 <= i < |ops| :: ops[i].event != event && (ops[i].BindOp? ==> ops[i].now < until)
  }

  lemma ApplyLeaves(s: State, op: Op, event: string)
    requires event in s.turns && op.event != event && (op.BindOp? ==> op.now < s.turns[event].expires)
    ensures event in Apply(s, op).turns && Apply(s, op).turns[event] == s.turns[event]
  {
    hide RequestOk, LimitsOk, HexId;
  }

  lemma {:induction false} RunLeaves(s: State, ops: seq<Op>, event: string)
    requires event in s.turns && LeavesAlone(ops, event, s.turns[event].expires)
    ensures event in Run(s, ops).turns && Run(s, ops).turns[event] == s.turns[event]
    decreases |ops|
  {
    hide Apply;
    if ops != [] {
      ApplyLeaves(s, ops[0], event);
      RunLeaves(Apply(s, ops[0]), ops[1..], event);
    }
  }

  /** A released turn is claimed by the next binder of its request, whatever happens to
      other events in between, until its row expires. */
  lemma ReleasedIsClaimable(s: State, event: string, request: Bytes, token: string, ops: seq<Op>, now: int, l: Limits,
      drawn: string)
    requires GiveBack(s.turns, event, request, token, false).result.Ok? && LimitsOk(l)
    requires LeavesAlone(ops, event, s.turns[event].expires) && now < s.turns[event].expires
    ensures var released := Apply(s, GiveBackOp(event, request, token, false));
      Bind(Run(released, ops).turns, event, request, now, l, drawn).result == Ok(Claimed(drawn))
  {
    var released := Apply(s, GiveBackOp(event, request, token, false));
    hide RequestOk, HexId, LimitsOk, Run, LeavesAlone;
    RunLeaves(released, ops, event);
  }

  // ----- Limits -----

  predicate Hexadecimal(s: string) {
    |s| == 64 && forall c | c in s :: c in "0123456789abcdef"
  }

  const HOUR := 3_600_000_000_000

  /** What the store takes: hexadecimal event identifiers, requests of up to 64 KiB,
      retention of up to 30 days, claims of up to ten minutes, up to 2^20 rows. */
  lemma InvalidBind(t: Table, event: string, request: Bytes, now: int, l: Limits, token: string)
    ensures Bind(t, event, request, now, l, token).result == Err(Invalid) <==>
      || !Hexadecimal(event) || |request| == 0 || |request| > 65536
      || l.retention <= 0 || l.retention > 720 * HOUR || l.claimTtl <= 0 || 6 * l.claimTtl > HOUR
      || l.capacity <= 0 || l.capacity > 1048576
  {
    HexMeans(event);
    hide HexId, Hexadecimal;
  }

  lemma InvalidComplete(t: Table, event: string, request: Bytes, result: Bytes, token: string)
    ensures Complete(t, event, request, result, token).result == Err(Invalid) <==>
      || !Hexadecimal(event) || !Hexadecimal(token) || |request| == 0 || |request| > 65536
      || |result| == 0 || |result| > 16384
  {
    HexMeans(event);
    HexMeans(token);
    hide HexId, Hexadecimal;
  }

  lemma InvalidGiveBack(t: Table, event: string, request: Bytes, token: string, abandon: bool)
    ensures GiveBack(t, event, request, token, abandon).result == Err(Invalid) <==>
      !Hexadecimal(event) || !Hexadecimal(token) || |request| == 0 || |request| > 65536
  {
    HexMeans(event);
    HexMeans(token);
    hide HexId, Hexadecimal;
  }

  lemma HexMeans(s: string)
    ensures HexId(s) <==> Hexadecimal(s)
  {
    if Hexadecimal(s) {
      forall i | 0 <= i < 64
        ensures '0' <= s[i] <= '9' || 'a' <= s[i] <= 'f'
      {
        assert s[i] in s;
      }
    }
  }
}
