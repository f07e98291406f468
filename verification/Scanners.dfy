/** The byte scanners of internal/ssp/envelope.go that remove the top-level
    signature member without decoding any signed value.

    Each index loop is proved equal to a recursive description of the same walk;
    the theorems then hold for every JSON object text, whatever its nesting,
    whitespace and escapes. */
module Scanners {
  import opened Common
  import opened Json
  import Escapes

  datatype Malformed =
    | RootNotObject
    | MalformedJson
    | BadString
    | UnterminatedString
    | BadKey
    | MissingValue
    | UnterminatedContainer

  // ----- skipSpace -----

  function SkipSpaceFrom(raw: Bytes, i: nat): (j: nat)
    requires i <= |raw|
    ensures i <= j <= |raw|
    decreases |raw| - i
  {
    if i < |raw| && IsSpace(raw[i]) then SkipSpaceFrom(raw, i + 1) else i
  }

  method SkipSpace(raw: Bytes, start: nat) returns (i: nat)
    requires start <= |raw|
    ensures i == SkipSpaceFrom(raw, start)
    ensures i <= |raw|
  {
    i := start;
    while i < |raw| && IsSpace(raw[i])
      invariant start <= i <= |raw|
      invariant SkipSpaceFrom(raw, i) == SkipSpaceFrom(raw, start)
    {
      i := i + 1;
    }
  }

  // ----- stringEnd -----

  /** The position after the first quote that no backslash escapes. */
  function StringEndFrom(raw: Bytes, i: nat, escaped: bool): (r: Option<nat>)
    requires i <= |raw|
    ensures r.Some? ==> i < r.value <= |raw|
    decreases |raw| - i
  {
    if i == |raw| then None
    else if escaped then StringEndFrom(raw, i + 1, false)
    else if raw[i] == BACKSLASH then StringEndFrom(raw, i + 1, true)
    else if raw[i] == QUOTE then Some(i + 1)
    else StringEndFrom(raw, i + 1, false)
  }

  function StringEndAt(raw: Bytes, start: nat): (r: Result<nat, Malformed>)
    ensures r.Ok? ==> start < r.value <= |raw|
  {
    if start >= |raw| || raw[start] != QUOTE then Err(BadString)
    else
      var end := StringEndFrom(raw, start + 1, false);
      if end.None? then Err(UnterminatedString) else Ok(end.value)
  }

  method StringEnd(raw: Bytes, start: nat) returns (r: Result<nat, Malformed>)
    ensures r == StringEndAt(raw, start)
  {
    if start >= |raw| || raw[start] != QUOTE {
      return Err(BadString);
    }
    var escaped := false;
    var i := start + 1;
    while i < |raw|
      invariant start + 1 <= i <= |raw|
      invariant StringEndFrom(raw, i, escaped) == StringEndFrom(raw, start + 1, false)
    {
      if escaped {
        escaped := false;
      } else if raw[i] == BACKSLASH {
        escaped := true;
      } else if raw[i] == QUOTE {
        return Ok(i + 1);
      }
      i := i + 1;
    }
    return Err(UnterminatedString);
  }

  // ----- valueEnd -----

  /** Where a container scan stands: how many containers are open and whether it is
      inside a string literal. */
  datatype Scan = Scan(depth: nat, inString: bool, escaped: bool)

  function ScanByte(s: Scan, c: byte): Scan {
    if s.inString then
      if s.escaped then s.(escaped := false)
      else if c == BACKSLASH then s.(escaped := true)
      else if c == QUOTE then s.(inString := false)
      else s
    else if c == QUOTE then s.(inString := true)
    else if c == OPEN_BRACE || c == OPEN_BRACKET then s.(depth := s.depth + 1)
    else if (c == CLOSE_BRACE || c == CLOSE_BRACKET) && s.depth > 0 then s.(depth := s.depth - 1)
    else s
  }

  function ContainerEndFrom(raw: Bytes, i: nat, s: Scan): (r: Option<nat>)
    requires i <= |raw|
    ensures r.Some? ==> i < r.value <= |raw|
    decreases |raw| - i
  {
    if i == |raw| then None
    else
      var next := ScanByte(s, raw[i]);
      if next.depth == 0 then Some(i + 1) else ContainerEndFrom(raw, i + 1, next)
  }

  predicate EndsScalar(c: byte) { c == COMMA || c == CLOSE_BRACE || c == CLOSE_BRACKET || IsSpace(c) }

  function ScalarEndFrom(raw: Bytes, i: nat): (j: nat)
    requires i <= |raw|
    ensures i <= j <= |raw|
    decreases |raw| - i
  {
    if i < |raw| && !EndsScalar(raw[i]) then ScalarEndFrom(raw, i + 1) else i
  }

  function ValueEndAt(raw: Bytes, start: nat): (r: Result<nat, Malformed>)
    ensures r.Ok? ==> start < r.value <= |raw|
  {
    if start >= |raw| then Err(MissingValue)
    else if raw[start] == QUOTE then StringEndAt(raw, start)
    else if raw[start] == OPEN_BRACE || raw[start] == OPEN_BRACKET then
      var end := ContainerEndFrom(raw, start + 1, Scan(1, false, false));
      if end.None? then Err(UnterminatedContainer) else Ok(end.value)
    else
      var end := ScalarEndFrom(raw, start);
      if end == start then Err(MissingValue) else Ok(end)
  }

  method ContainerEnd(raw: Bytes, start: nat) returns (r: Result<nat, Malformed>)
    requires start < |raw| && raw[start] in {OPEN_BRACE, OPEN_BRACKET}
    ensures r == ValueEndAt(raw, start)
  {
    var stack := [raw[start]];
    var inString, escaped := false, false;
    var i := start + 1;
    while i < |raw|
      invariant start + 1 <= i <= |raw| && |stack| > 0
      invariant ContainerEndFrom(raw, i, Scan(|stack|, inString, escaped)) ==
                ContainerEndFrom(raw, start + 1, Scan(1, false, false))
    {
      var c := raw[i];
      if inString {
        if escaped {
          escaped := false;
        } else if c == BACKSLASH {
          escaped := true;
        } else if c == QUOTE {
          inString := false;
        }
      } else if c == QUOTE {
        inString := true;
      } else if c == OPEN_BRACE || c == OPEN_BRACKET {
        stack := stack + [c];
      } else if c == CLOSE_BRACE || c == CLOSE_BRACKET {
        stack := stack[..|stack| - 1];
        if |stack| == 0 {
          return Ok(i + 1);
        }
      }
      i := i + 1;
    }
    return Err(UnterminatedContainer);
  }

  method ValueEnd(raw: Bytes, start: nat) returns (r: Result<nat, Malformed>)
    ensures r == ValueEndAt(raw, start)
  {
    if start >= |raw| {
      return Err(MissingValue);
    }
    if raw[start] == QUOTE {
      r := StringEnd(raw, start);
      return;
    }
    if raw[start] == OPEN_BRACE || raw[start] == OPEN_BRACKET {
      r := ContainerEnd(raw, start);
      return;
    }
    var i := start;
    while i < |raw| && !EndsScalar(raw[i])
      invariant start <= i <= |raw|
      invariant ScalarEndFrom(raw, i) == ScalarEndFrom(raw, start)
    {
      i := i + 1;
    }
    if i == start {
      return Err(MissingValue);
    }
    return Ok(i);
  }

  // ----- stripUnsignedTopLevel -----

  /** One member read at i: where it ends and whether its name is "signature". */
  datatype MemberRead = MemberRead(end: nat, signature: bool)

  function ReadMember(raw: Bytes, i: nat): (r: Result<MemberRead, Malformed>)
    requires i <= |raw|
    ensures r.Ok? ==> i < r.value.end <= |raw|
  {
    var keyEnd := StringEndAt(raw, i);
    if keyEnd.Err? then Err(keyEnd.error)
    else
      var key := DecodeKey(raw[i..keyEnd.value]);
      if key.None? then Err(BadKey)
      else
        var colon := SkipSpaceFrom(raw, keyEnd.value);
        if colon >= |raw| || raw[colon] != COLON then Err(MalformedJson)
        else
          var end := ValueEndAt(raw, SkipSpaceFrom(raw, colon + 1));
          if end.Err? then Err(end.error) else Ok(MemberRead(end.value, key.value == SIGNATURE))
  }

  function KeptFrom(raw: Bytes, i: nat, kept: seq<Bytes>): Result<seq<Bytes>, Malformed>
    requires i <= |raw|
    decreases |raw| - i
  {
    var start := SkipSpaceFrom(raw, i);
    if start == |raw| then Err(MalformedJson)
    else if raw[start] == CLOSE_BRACE then Ok(kept)
    else
      var member := ReadMember(raw, start);
      if member.Err? then Err(member.error)
      else
        var kept' := if member.value.signature then kept else kept + [raw[start..member.value.end]];
        var next := SkipSpaceFrom(raw, member.value.end);
        if next < |raw| && raw[next] == COMMA then KeptFrom(raw, next + 1, kept')
        else if next < |raw| && raw[next] == CLOSE_BRACE then Ok(kept')
        else Err(MalformedJson)
  }

  function Join(parts: seq<Bytes>): Bytes {
    if parts == [] then []
    else if |parts| == 1 then parts[0]
    else parts[0] + [COMMA] + Join(parts[1..])
  }

  function Braced(parts: seq<Bytes>): Bytes { [OPEN_BRACE] + Join(parts) + [CLOSE_BRACE] }

  function Stripped(raw: Bytes): Result<Bytes, Malformed> {
    var i := SkipSpaceFrom(raw, 0);
    if i >= |raw| || raw[i] != OPEN_BRACE then Err(RootNotObject)
    else
      var kept := KeptFrom(raw, i + 1, []);
      if kept.Err? then Err(kept.error) else Ok(Braced(kept.value))
  }

  /** The part of the loop body that reads one name, its colon and its value. */
  method ScanMember(raw: Bytes, start: nat) returns (r: Result<MemberRead, Malformed>)
    requires start <= |raw|
    ensures r == ReadMember(raw, start)
  {
    var keyEnd := StringEnd(raw, start);
    if keyEnd.Err? {
      return Err(keyEnd.error);
    }
    var key := DecodeKey(raw[start..keyEnd.value]);
    if key.None? {
      return Err(BadKey);
    }
    var i := SkipSpace(raw, keyEnd.value);
    if i >= |raw| || raw[i] != COLON {
      return Err(MalformedJson);
    }
    i := SkipSpace(raw, i + 1);
    var valueEnd := ValueEnd(raw, i);
    if valueEnd.Err? {
      return Err(valueEnd.error);
    }
    return Ok(MemberRead(valueEnd.value, key.value == SIGNATURE));
  }

  method StripUnsignedTopLevel(raw: Bytes) returns (r: Result<Bytes, Malformed>)
    ensures r == Stripped(raw)
  {
    hide ReadMember, SkipSpaceFrom, Join;
    var i := SkipSpace(raw, 0);
    if i >= |raw| || raw[i] != OPEN_BRACE {
      return Err(RootNotObject);
    }
    i := i + 1;
    ghost var first := i;
    var kept: seq<Bytes> := [];
    while true
      invariant first <= i <= |raw|
      invariant KeptFrom(raw, i, kept) == KeptFrom(raw, first, [])
      decreases |raw| - i
    {
      i := SkipSpace(raw, i);
      if i >= |raw| {
        return Err(MalformedJson);
      }
      if raw[i] == CLOSE_BRACE {
        return Ok(Braced(kept));
      }
      var member := ScanMember(raw, i);
      if member.Err? {
        return Err(member.error);
      }
      if !member.value.signature {
        kept := kept + [raw[i..member.value.end]];
      }
      i := SkipSpace(raw, member.value.end);
      if i < |raw| && raw[i] == COMMA {
        i := i + 1;
      } else if i < |raw| && raw[i] == CLOSE_BRACE {
        return Ok(Braced(kept));
      } else {
        return Err(MalformedJson);
      }
    }
  }

  // ----- The scanners stop where the grammar says -----

  lemma {:induction false} SkipSpaceOver(raw: Bytes, i: nat, blank: Bytes)
    requires Blank(blank) && At(raw, i, blank)
    requires i + |blank| < |raw| && !IsSpace(raw[i + |blank|])
    ensures SkipSpaceFrom(raw, i) == i + |blank|
    decreases |blank|
  {
    if blank != [] {
      assert blank[0] in blank;
      SkipSpaceOver(raw, i + 1, blank[1..]);
    }
  }

  /** Feeding bytes to the container scan without it ending. */
  function Feed(s: Scan, text: Bytes): Scan
    decreases |text|
  {
    if text == [] then s else Feed(ScanByte(s, text[0]), text[1..])
  }

  /** Between the first and the last byte of the text at least one container is open. */
  predicate StaysOpen(s: Scan, text: Bytes)
    decreases |text|
  {
    text == [] || (ScanByte(s, text[0]).depth > 0 && StaysOpen(ScanByte(s, text[0]), text[1..]))
  }

  lemma {:induction false} FeedConcat(s: Scan, a: Bytes, b: Bytes)
    ensures Feed(s, a + b) == Feed(Feed(s, a), b)
    ensures StaysOpen(s, a + b) <==> StaysOpen(s, a) && StaysOpen(Feed(s, a), b)
    decreases |a|
  {
    if a == [] {
      assert a + b == b;
    } else {
      assert (a + b)[1..] == a[1..] + b;
      FeedConcat(ScanByte(s, a[0]), a[1..], b);
    }
  }

  /** A text that a scan with `depth` open containers passes over and is left as it was. */
  predicate Neutral(text: Bytes, depth: nat) {
    Feed(Scan(depth, false, false), text) == Scan(depth, false, false) && StaysOpen(Scan(depth, false, false), text)
  }

  lemma NeutralConcat(a: Bytes, b: Bytes, depth: nat)
    requires Neutral(a, depth) && Neutral(b, depth)
    ensures Neutral(a + b, depth)
  {
    FeedConcat(Scan(depth, false, false), a, b);
  }

  /** Bytes that neither open nor close anything. */
  predicate Inert(c: byte) {
    c != QUOTE && c != OPEN_BRACE && c != OPEN_BRACKET && c != CLOSE_BRACE && c != CLOSE_BRACKET
  }

  lemma {:induction false} InertNeutral(text: Bytes, depth: nat)
    requires depth > 0 && forall c | c in text :: Inert(c)
    ensures Neutral(text, depth)
    decreases |text|
  {
    if text != [] {
      assert text[0] in text;
      InertNeutral(text[1..], depth);
    }
  }

  /** A string's characters keep a scan inside the literal. */
  lemma {:induction false} UnitsStayInside(us: seq<Unit>, depth: nat)
    requires UnitsOk(us) && depth > 0
    ensures var s := Scan(depth, true, false); Feed(s, UnitsText(us)) == s && StaysOpen(s, UnitsText(us))
    decreases |us|
  {
    if us != [] {
      var s := Scan(depth, true, false);
      assert us[0] in us;
      UnitStaysInside(us[0], depth);
      UnitsStayInside(us[1..], depth);
      FeedConcat(s, UnitText(us[0]), UnitsText(us[1..]));
    }
  }

  lemma UnitStaysInside(u: Unit, depth: nat)
    requires UnitOk(u) && depth > 0
    ensures var s := Scan(depth, true, false); Feed(s, UnitText(u)) == s && StaysOpen(s, UnitText(u))
  {
    var s := Scan(depth, true, false);
    match u
    case Plain(c) =>
      FeedOne(s, c);
    case Short(c) =>
      FeedOne(s, BACKSLASH);
      FeedOne(s.(escaped := true), c);
      FeedConcat(s, [BACKSLASH], [c]);
    case Unicode(quad) =>
      FeedOne(s, BACKSLASH);
      FeedOne(s.(escaped := true), Escapes.LETTER_U);
      FeedConcat(s, [BACKSLASH], [Escapes.LETTER_U]);
      QuadStaysInside(quad, s);
      FeedConcat(s, [BACKSLASH] + [Escapes.LETTER_U], quad);
      assert [BACKSLASH] + [Escapes.LETTER_U] == [BACKSLASH, Escapes.LETTER_U];
  }

  lemma FeedOne(s: Scan, c: byte)
    ensures Feed(s, [c]) == ScanByte(s, c)
    ensures StaysOpen(s, [c]) <==> ScanByte(s, c).depth > 0
  {
    assert [c][1..] == [];
  }

  lemma {:induction false} QuadStaysInside(quad: Bytes, s: Scan)
    requires forall k | 0 <= k < |quad| :: Escapes.HexDigit(quad[k]).Some?
    requires s.depth > 0 && s.inString && !s.escaped
    ensures Feed(s, quad) == s && StaysOpen(s, quad)
    decreases |quad|
  {
    if quad != [] {
      QuadStaysInside(quad[1..], s);
    }
  }

  lemma QuotedNeutral(us: seq<Unit>, depth: nat)
    requires UnitsOk(us) && depth > 0
    ensures Neutral(Quoted(us), depth)
  {
    var s := Scan(depth, false, false);
    FeedOne(s, QUOTE);
    UnitsStayInside(us, depth);
    FeedOne(Scan(depth, true, false), QUOTE);
    FeedConcat(s, [QUOTE], UnitsText(us));
    FeedConcat(s, [QUOTE] + UnitsText(us), [QUOTE]);
  }

  lemma BracketedNeutral(open: byte, inside: Bytes, close: byte, depth: nat)
    requires open in {OPEN_BRACE, OPEN_BRACKET} && close in {CLOSE_BRACE, CLOSE_BRACKET}
    requires depth > 0 && Neutral(inside, depth + 1)
    ensures Neutral([open] + inside + [close], depth)
  {
    var s := Scan(depth, false, false);
    FeedOne(s, open);
    FeedOne(Scan(depth + 1, false, false), close);
    FeedConcat(s, [open], inside);
    FeedConcat(s, [open] + inside, [close]);
  }

  lemma DigitsInert(s: Bytes)
    requires forall c | c in s :: IsDigit(c)
    ensures forall c | c in s :: Inert(c) && !EndsScalar(c)
  {
  }

  lemma ScalarInert(s: Scalar)
    requires ScalarOk(s)
    ensures forall c | c in ScalarText(s) :: Inert(c) && !EndsScalar(c)
    ensures ScalarText(s) != []
  {
    if s.Number? {
      DigitsInert(s.whole);
      if s.fraction.Some? {
        DigitsInert(s.fraction.value);
      }
      if s.exponent.Exponent? {
        DigitsInert(s.exponent.digits);
      }
    }
  }

  lemma BlankNeutral(blank: Bytes, depth: nat)
    requires Blank(blank) && depth > 0
    ensures Neutral(blank, depth)
  {
    InertNeutral(blank, depth);
  }

  lemma {:induction false} ValueNeutral(v: Value, depth: nat)
    requires depth > 0 && ValueOk(v)
    ensures Neutral(ValueText(v), depth)
    decreases v, 0
  {
    match v
    case ScalarValue(s) =>
      ScalarInert(s);
      InertNeutral(ScalarText(s), depth);
    case StringValue(us) =>
      QuotedNeutral(us, depth);
    case ArrayValue(blank, items) =>
      if items.NoItems? {
        BlankNeutral(blank, depth + 1);
        BracketedNeutral(OPEN_BRACKET, blank, CLOSE_BRACKET, depth);
      } else {
        ItemsNeutral(items, depth + 1);
        BracketedNeutral(OPEN_BRACKET, ItemsText(items), CLOSE_BRACKET, depth);
      }
    case ObjectValue(blank, members) =>
      if members.NoMembers? {
        BlankNeutral(blank, depth + 1);
        BracketedNeutral(OPEN_BRACE, blank, CLOSE_BRACE, depth);
      } else {
        MembersNeutral(members, depth + 1);
        BracketedNeutral(OPEN_BRACE, MembersText(members), CLOSE_BRACE, depth);
      }
  }

  lemma {:induction false} ItemsNeutral(items: Items, depth: nat)
    requires depth > 0 && items.Item? && ItemsOk(items)
    ensures Neutral(ItemsText(items), depth)
    decreases items, 1
  {
    BlankNeutral(items.before, depth);
    BlankNeutral(items.after, depth);
    ValueNeutral(items.value, depth);
    NeutralConcat(items.before, ValueText(items.value), depth);
    NeutralConcat(items.before + ValueText(items.value), items.after, depth);
    var tail := if items.rest.NoItems? then [] else [COMMA] + ItemsText(items.rest);
    InertNeutral([COMMA], depth);
    if items.rest.Item? {
      ItemsNeutral(items.rest, depth);
      NeutralConcat([COMMA], ItemsText(items.rest), depth);
    }
    NeutralConcat(items.before + ValueText(items.value) + items.after, tail, depth);
  }

  lemma CoreNeutral(ms: Members, depth: nat)
    requires depth > 0 && ms.Member? && MembersOk(ms) && Neutral(ValueText(ms.value), depth)
    ensures Neutral(CoreText(ms), depth)
  {
    QuotedNeutral(ms.key, depth);
    BlankNeutral(ms.beforeColon, depth);
    BlankNeutral(ms.afterColon, depth);
    InertNeutral([COLON], depth);
    NeutralConcat(Quoted(ms.key), ms.beforeColon, depth);
    NeutralConcat(Quoted(ms.key) + ms.beforeColon, [COLON], depth);
    NeutralConcat(Quoted(ms.key) + ms.beforeColon + [COLON], ms.afterColon, depth);
    NeutralConcat(Quoted(ms.key) + ms.beforeColon + [COLON] + ms.afterColon, ValueText(ms.value), depth);
  }

  lemma {:induction false} MembersNeutral(ms: Members, depth: nat)
    requires depth > 0 && ms.Member? && MembersOk(ms)
    ensures Neutral(MembersText(ms), depth)
    decreases ms, 1
  {
    BlankNeutral(ms.before, depth);
    BlankNeutral(ms.after, depth);
    ValueNeutral(ms.value, depth);
    CoreNeutral(ms, depth);
    NeutralConcat(ms.before, CoreText(ms), depth);
    NeutralConcat(ms.before + CoreText(ms), ms.after, depth);
    var tail := if ms.rest.NoMembers? then [] else [COMMA] + MembersText(ms.rest);
    InertNeutral([COMMA], depth);
    if ms.rest.Member? {
      MembersNeutral(ms.rest, depth);
      NeutralConcat([COMMA], MembersText(ms.rest), depth);
    }
    NeutralConcat(ms.before + CoreText(ms) + ms.after, tail, depth);
  }

  /** The container scan runs through a text that keeps it open. */
  lemma {:induction false} ContainerEndPast(raw: Bytes, i: nat, s: Scan, text: Bytes)
    requires At(raw, i, text) && StaysOpen(s, text)
    ensures ContainerEndFrom(raw, i, s) == ContainerEndFrom(raw, i + |text|, Feed(s, text))
    decreases |text|
  {
    if text != [] {
      ContainerEndPast(raw, i + 1, ScanByte(s, text[0]), text[1..]);
    }
  }

  lemma BracketedEnd(raw: Bytes, i: nat, open: byte, inside: Bytes, close: byte)
    requires open in {OPEN_BRACE, OPEN_BRACKET} && close in {CLOSE_BRACE, CLOSE_BRACKET}
    requires Neutral(inside, 1) && At(raw, i, [open] + inside + [close])
    ensures ValueEndAt(raw, i) == Ok(i + |inside| + 2)
  {
    var j := i + 1 + |inside|;
    BracketLayout(raw, i, open, inside, close);
    ContainerEndPast(raw, i + 1, Scan(1, false, false), inside);
    ContainerCloses(raw, j);
  }

  lemma BracketLayout(raw: Bytes, i: nat, open: byte, inside: Bytes, close: byte)
    requires At(raw, i, [open] + inside + [close])
    ensures raw[i] == open && At(raw, i + 1, inside)
    ensures i + 1 + |inside| < |raw| && raw[i + 1 + |inside|] == close
  {
    AtSplit(raw, i, [open] + inside, [close]);
    AtSplit(raw, i, [open], inside);
  }

  lemma ContainerCloses(raw: Bytes, j: nat)
    requires j < |raw| && raw[j] in {CLOSE_BRACE, CLOSE_BRACKET}
    ensures ContainerEndFrom(raw, j, Scan(1, false, false)) == Some(j + 1)
  {
  }

  lemma {:induction false} StringEndPast(raw: Bytes, i: nat, us: seq<Unit>)
    requires UnitsOk(us) && At(raw, i, UnitsText(us))
    ensures StringEndFrom(raw, i, false) == StringEndFrom(raw, i + |UnitsText(us)|, false)
    decreases |us|
  {
    hide StringEndFrom, UnitText, UnitOk, At;
    if us != [] {
      var u := us[0];
      assert u in us;
      AtSplit(raw, i, UnitText(u), UnitsText(us[1..]));
      StringEndPastUnit(raw, i, u);
      StringEndPast(raw, i + |UnitText(u)|, us[1..]);
    }
  }

  lemma StringEndPastUnit(raw: Bytes, i: nat, u: Unit)
    requires UnitOk(u) && At(raw, i, UnitText(u))
    ensures StringEndFrom(raw, i, false) == StringEndFrom(raw, i + |UnitText(u)|, false)
  {
    var text := UnitText(u);
    AtSlice(raw, i, text);
    if u.Unicode? {
      assert text[1..][1..] == u.quad;
      AtSlice(raw, i + 2, u.quad);
      StringEndPastHex(raw, i + 2, 4);
    } else if u.Short? {
      assert text[1..] == [u.c];
    }
  }

  lemma {:induction false} StringEndPastHex(raw: Bytes, i: nat, n: nat)
    requires i + n <= |raw| && forall k | i <= k < i + n :: Escapes.HexDigit(raw[k]).Some?
    ensures StringEndFrom(raw, i, false) == StringEndFrom(raw, i + n, false)
    decreases n
  {
    if n > 0 {
      StringEndPastHex(raw, i + 1, n - 1);
    }
  }

  /** A string literal ends at its own closing quote, whatever its escapes. */
  lemma StringEndOfText(raw: Bytes, i: nat, us: seq<Unit>)
    requires UnitsOk(us) && At(raw, i, Quoted(us))
    ensures StringEndAt(raw, i) == Ok(i + |Quoted(us)|)
  {
    AtSplit(raw, i, [QUOTE] + UnitsText(us), [QUOTE]);
    AtSplit(raw, i, [QUOTE], UnitsText(us));
    StringEndPast(raw, i + 1, us);
  }

  lemma {:induction false} ScalarEndPast(raw: Bytes, i: nat, text: Bytes)
    requires At(raw, i, text) && forall c | c in text :: !EndsScalar(c)
    ensures ScalarEndFrom(raw, i) == ScalarEndFrom(raw, i + |text|)
    decreases |text|
  {
    if text != [] {
      assert text[0] in text;
      ScalarEndPast(raw, i + 1, text[1..]);
    }
  }

  lemma ScalarEndOfText(raw: Bytes, i: nat, s: Scalar)
    requires ScalarOk(s) && At(raw, i, ScalarText(s))
    requires var j := i + |ScalarText(s)|; j == |raw| || EndsScalar(raw[j])
    ensures ValueEndAt(raw, i) == Ok(i + |ScalarText(s)|)
  {
    hide ContainerEndFrom, StringEndFrom, ScalarOk, ScalarText;
    ScalarInert(s);
    assert ScalarText(s)[0] in ScalarText(s);
    ScalarEndPast(raw, i, ScalarText(s));
  }

  lemma QuotedEndOfText(raw: Bytes, i: nat, us: seq<Unit>)
    requires UnitsOk(us) && At(raw, i, Quoted(us))
    ensures ValueEndAt(raw, i) == Ok(i + |Quoted(us)|)
  {
    hide ContainerEndFrom, StringEndAt, UnitsText, UnitsOk;
    AtFirst(raw, i, Quoted(us));
    StringEndOfText(raw, i, us);
  }

  /** valueEnd stops exactly at the end of the value that is written at i. */
  lemma ValueEndOfText(raw: Bytes, i: nat, v: Value)
    requires ValueOk(v) && At(raw, i, ValueText(v))
    requires v.ScalarValue? ==> var j := i + |ValueText(v)|; j == |raw| || EndsScalar(raw[j])
    ensures ValueEndAt(raw, i) == Ok(i + |ValueText(v)|)
  {
    hide ContainerEndFrom, StringEndFrom, Neutral, Quoted, ScalarText, ScalarOk, UnitsOk, At, ValueEndAt, ItemsText,
      MembersText;
    match v
    case ScalarValue(s) => ScalarEndOfText(raw, i, s);
    case StringValue(us) => QuotedEndOfText(raw, i, us);
    case ArrayValue(blank, items) =>
      if items.NoItems? {
        BlankNeutral(blank, 1);
        BracketedEnd(raw, i, OPEN_BRACKET, blank, CLOSE_BRACKET);
      } else {
        ItemsNeutral(items, 1);
        BracketedEnd(raw, i, OPEN_BRACKET, ItemsText(items), CLOSE_BRACKET);
      }
    case ObjectValue(blank, members) =>
      if members.NoMembers? {
        BlankNeutral(blank, 1);
        BracketedEnd(raw, i, OPEN_BRACE, blank, CLOSE_BRACE);
      } else {
        MembersNeutral(members, 1);
        BracketedEnd(raw, i, OPEN_BRACE, MembersText(members), CLOSE_BRACE);
      }
  }

  // ----- What is kept -----

  /** The members that are not the signature, without the whitespace around them. */
  function Kept(ms: Members): seq<Bytes>
    requires MembersOk(ms)
  {
    if ms.NoMembers? then []
    else (if NamesSignature(ms.key) then [] else [CoreText(ms)]) + Kept(ms.rest)
  }

  /** No value, name or colon begins with whitespace. */
  lemma TextStarts(v: Value)
    requires ValueOk(v)
    ensures ValueText(v) != [] && !IsSpace(ValueText(v)[0])
  {
    if v.ScalarValue? {
      ScalarInert(v.scalar);
      assert ValueText(v)[0] in ValueText(v);
    }
  }

  lemma CoreLength(ms: Members)
    requires ms.Member?
    ensures |CoreText(ms)| == |Quoted(ms.key)| + |ms.beforeColon| + 1 + |ms.afterColon| + |ValueText(ms.value)|
  {
    hide Quoted, ValueText;
  }

  /** Where the pieces of one member lie. */
  lemma CoreLayout(raw: Bytes, i: nat, ms: Members)
    requires ms.Member? && MembersOk(ms) && At(raw, i, CoreText(ms))
    ensures At(raw, i, Quoted(ms.key))
    ensures At(raw, i + |Quoted(ms.key)|, ms.beforeColon)
    ensures var c := i + |Quoted(ms.key)| + |ms.beforeColon|;
      c < |raw| && raw[c] == COLON && At(raw, c + 1, ms.afterColon)
    ensures At(raw, i + |Quoted(ms.key)| + |ms.beforeColon| + 1 + |ms.afterColon|, ValueText(ms.value))
  {
    var name := Quoted(ms.key);
    AtSplit(raw, i, name + ms.beforeColon + [COLON] + ms.afterColon, ValueText(ms.value));
    AtSplit(raw, i, name + ms.beforeColon + [COLON], ms.afterColon);
    AtSplit(raw, i, name + ms.beforeColon, [COLON]);
    AtSplit(raw, i, name, ms.beforeColon);
  }

  lemma ReadMemberBy(raw: Bytes, i: nat, key: nat, colon: nat, value: nat, end: nat, codes: seq<int>)
    requires i <= key <= |raw| && colon < |raw| && raw[colon] == COLON
    requires StringEndAt(raw, i) == Ok(key) && DecodeKey(raw[i..key]) == Some(codes)
    requires SkipSpaceFrom(raw, key) == colon && SkipSpaceFrom(raw, colon + 1) == value
    requires ValueEndAt(raw, value) == Ok(end)
    ensures ReadMember(raw, i) == Ok(MemberRead(end, codes == SIGNATURE))
  {
  }

  /** The value is read whole when whitespace, a comma or a bracket follows it. */
  lemma ReadValueText(raw: Bytes, i: nat, blank: Bytes, v: Value)
    requires Blank(blank) && ValueOk(v) && At(raw, i, blank) && At(raw, i + |blank|, ValueText(v))
    requires var j := i + |blank| + |ValueText(v)|; j < |raw| && EndsScalar(raw[j])
    ensures SkipSpaceFrom(raw, i) == i + |blank|
    ensures ValueEndAt(raw, i + |blank|) == Ok(i + |blank| + |ValueText(v)|)
  {
    TextStarts(v);
    SkipSpaceOver(raw, i, blank);
    ValueEndOfText(raw, i + |blank|, v);
  }

  /** The name is found and decoded, and the colon after it. */
  lemma ReadKeyText(raw: Bytes, i: nat, key: seq<Unit>, blank: Bytes)
    requires UnitsOk(key) && Blank(blank)
    requires At(raw, i, Quoted(key)) && At(raw, i + |Quoted(key)|, blank)
    requires var colon := i + |Quoted(key)| + |blank|; colon < |raw| && raw[colon] == COLON
    ensures var end := i + |Quoted(key)|;
      && StringEndAt(raw, i) == Ok(end) && DecodeKey(raw[i..end]) == Some(KeyCodes(key))
      && SkipSpaceFrom(raw, end) == end + |blank|
  {
    hide At, StringEndAt, DecodeKey, KeyCodes, SkipSpaceFrom, UnitsText;
    StringEndOfText(raw, i, key);
    DecodeQuoted(key);
    AtSlice(raw, i, Quoted(key));
    SkipSpaceOver(raw, i + |Quoted(key)|, blank);
  }

  lemma MemberKeyRead(raw: Bytes, i: nat, ms: Members)
    requires ms.Member? && MembersOk(ms) && At(raw, i, CoreText(ms))
    ensures
      var key := i + |Quoted(ms.key)|;
      var colon := key + |ms.beforeColon|;
      && colon < |raw| && raw[colon] == COLON
      && StringEndAt(raw, i) == Ok(key) && DecodeKey(raw[i..key]) == Some(KeyCodes(ms.key))
      && SkipSpaceFrom(raw, key) == colon
  {
    hide At, CoreText, ValueText, Quoted, StringEndAt, DecodeKey, KeyCodes, SkipSpaceFrom, ValueOk, UnitsOk, Blank;
    CoreLayout(raw, i, ms);
    ReadKeyText(raw, i, ms.key, ms.beforeColon);
  }

  lemma MemberValueRead(raw: Bytes, i: nat, ms: Members)
    requires ms.Member? && MembersOk(ms) && At(raw, i, CoreText(ms))
    requires var j := i + |CoreText(ms)|; j < |raw| && EndsScalar(raw[j])
    ensures
      var gap := i + |Quoted(ms.key)| + |ms.beforeColon| + 1;
      && gap <= |raw|
      && SkipSpaceFrom(raw, gap) == gap + |ms.afterColon|
      && ValueEndAt(raw, gap + |ms.afterColon|) == Ok(i + |CoreText(ms)|)
  {
    CoreLength(ms);
    hide At, CoreText, ValueText, Quoted, ValueEndAt, SkipSpaceFrom, ValueOk, UnitsOk, Blank;
    CoreLayout(raw, i, ms);
    ReadValueText(raw, i + |Quoted(ms.key)| + |ms.beforeColon| + 1, ms.afterColon, ms.value);
  }

  /** One member is read whole, and recognised by its decoded name. */
  lemma ReadMemberText(raw: Bytes, i: nat, ms: Members)
    requires ms.Member? && MembersOk(ms) && At(raw, i, CoreText(ms))
    requires var j := i + |CoreText(ms)|; j < |raw| && EndsScalar(raw[j])
    ensures ReadMember(raw, i) == Ok(MemberRead(i + |CoreText(ms)|, NamesSignature(ms.key)))
  {
    hide At, ReadMember, StringEndAt, ValueEndAt, DecodeKey, KeyCodes;
    var key := i + |Quoted(ms.key)|;
    var colon := key + |ms.beforeColon|;
    MemberKeyRead(raw, i, ms);
    MemberValueRead(raw, i, ms);
    ReadMemberBy(raw, i, key, colon, colon + 1 + |ms.afterColon|, i + |CoreText(ms)|, KeyCodes(ms.key));
  }

  lemma KeptFromBy(raw: Bytes, i: nat, start: nat, member: MemberRead, next: nat, kept: seq<Bytes>)
    requires i <= start < |raw| && SkipSpaceFrom(raw, i) == start && raw[start] != CLOSE_BRACE
    requires ReadMember(raw, start) == Ok(member) && SkipSpaceFrom(raw, member.end) == next < |raw|
    ensures
      var kept' := if member.signature then kept else kept + [raw[start..member.end]];
      && (raw[next] == COMMA ==> KeptFrom(raw, i, kept) == KeptFrom(raw, next + 1, kept'))
      && (raw[next] == CLOSE_BRACE ==> KeptFrom(raw, i, kept) == Ok(kept'))
  {
  }

  /** What the scanner makes of the first member of a list and what surrounds it. */
  ghost predicate FirstRead(raw: Bytes, i: nat, ms: Members)
    requires ms.Member? && MembersOk(ms)
  {
    var start := i + |ms.before|;
    var end := start + |CoreText(ms)|;
    && end + |ms.after| < |raw| && raw[start] != CLOSE_BRACE
    && SkipSpaceFrom(raw, i) == start
    && SkipSpaceFrom(raw, end) == end + |ms.after|
    && raw[start..end] == CoreText(ms)
    && ReadMember(raw, start) == Ok(MemberRead(end, NamesSignature(ms.key)))
  }

  lemma FirstMember(raw: Bytes, i: nat, ms: Members)
    requires ms.Member? && MembersOk(ms) && At(raw, i, MembersText(ms) + [CLOSE_BRACE])
    ensures FirstRead(raw, i, ms)
  {
    hide ReadMember, CoreText, ValueText, At, MembersText, SkipSpaceFrom, NamesSignature;
    var start := i + |ms.before|;
    var end := start + |CoreText(ms)|;
    MemberLayout(raw, i, ms);
    assert SkipSpaceFrom(raw, i) == start by {
      SkipSpaceOver(raw, i, ms.before);
    }
    assert EndsScalar(raw[end]) by {
      if ms.after != [] {
        AtFirst(raw, end, ms.after);
        assert ms.after[0] in ms.after;
      }
    }
    assert ReadMember(raw, start) == Ok(MemberRead(end, NamesSignature(ms.key))) by {
      ReadMemberText(raw, start, ms);
    }
    assert SkipSpaceFrom(raw, end) == end + |ms.after| by {
      SkipSpaceOver(raw, end, ms.after);
    }
    assert raw[start..end] == CoreText(ms) by {
      AtSlice(raw, start, CoreText(ms));
    }
  }

  lemma KeptFromFirst(raw: Bytes, i: nat, ms: Members, kept: seq<Bytes>)
    requires ms.Member? && MembersOk(ms) && FirstRead(raw, i, ms)
    ensures
      var stop := i + |ms.before| + |CoreText(ms)| + |ms.after|;
      var kept' := if NamesSignature(ms.key) then kept else kept + [CoreText(ms)];
      && (raw[stop] == COMMA ==> KeptFrom(raw, i, kept) == KeptFrom(raw, stop + 1, kept'))
      && (raw[stop] == CLOSE_BRACE ==> KeptFrom(raw, i, kept) == Ok(kept'))
  {
    hide ReadMember, CoreText, KeptFrom;
    var end := i + |ms.before| + |CoreText(ms)|;
    KeptFromBy(raw, i, i + |ms.before|, MemberRead(end, NamesSignature(ms.key)), end + |ms.after|, kept);
  }

  lemma {:induction false} KeptFromText(raw: Bytes, i: nat, ms: Members, kept: seq<Bytes>)
    requires ms.Member? && MembersOk(ms)
    requires At(raw, i, MembersText(ms) + [CLOSE_BRACE])
    ensures KeptFrom(raw, i, kept) == Ok(kept + Kept(ms))
    decreases ms
  {
    hide ReadMember, CoreText, ValueText, At, FirstRead, KeptFrom;
    var stop := i + |ms.before| + |CoreText(ms)| + |ms.after|;
    var kept' := if NamesSignature(ms.key) then kept else kept + [CoreText(ms)];
    assert kept' + Kept(ms.rest) == kept + Kept(ms);
    FirstMember(raw, i, ms);
    KeptFromFirst(raw, i, ms, kept);
    MemberLayout(raw, i, ms);
    if ms.rest.NoMembers? {
      assert kept' + [] == kept';
    } else {
      KeptFromText(raw, stop + 1, ms.rest, kept');
    }
  }

  /** What follows the first member and its whitespace. */
  function TailText(ms: Members): Bytes
    requires ms.Member?
  {
    (if ms.rest.NoMembers? then [] else [COMMA] + MembersText(ms.rest)) + [CLOSE_BRACE]
  }

  lemma MembersSplit(ms: Members)
    requires ms.Member?
    ensures MembersText(ms) + [CLOSE_BRACE] == ms.before + (CoreText(ms) + (ms.after + TailText(ms)))
  {
    hide CoreText;
  }

  lemma CoreStarts(raw: Bytes, i: nat, ms: Members)
    requires ms.Member? && At(raw, i, CoreText(ms))
    ensures raw[i] == QUOTE
  {
    hide UnitsText, ValueText;
  }

  lemma TailLayout(raw: Bytes, stop: nat, ms: Members)
    requires ms.Member? && At(raw, stop, TailText(ms))
    ensures stop < |raw| &&
      if ms.rest.Member? then raw[stop] == COMMA && At(raw, stop + 1, MembersText(ms.rest) + [CLOSE_BRACE])
      else raw[stop] == CLOSE_BRACE
  {
    hide MembersText;
    if ms.rest.Member? {
      assert TailText(ms) == [COMMA] + (MembersText(ms.rest) + [CLOSE_BRACE]);
    }
  }

  /** Where the pieces of the first member lie. */
  lemma MemberLayout(raw: Bytes, i: nat, ms: Members)
    requires ms.Member? && MembersOk(ms) && At(raw, i, MembersText(ms) + [CLOSE_BRACE])
    ensures At(raw, i, ms.before)
    ensures var start := i + |ms.before|; At(raw, start, CoreText(ms)) && raw[start] == QUOTE
    ensures var end := i + |ms.before| + |CoreText(ms)|; At(raw, end, ms.after) && end < |raw|
    ensures var stop := i + |ms.before| + |CoreText(ms)| + |ms.after|;
      stop < |raw| &&
      if ms.rest.Member? then raw[stop] == COMMA && At(raw, stop + 1, MembersText(ms.rest) + [CLOSE_BRACE])
      else raw[stop] == CLOSE_BRACE
  {
    hide At, CoreText, MembersText, TailText;
    var start := i + |ms.before|;
    var end := start + |CoreText(ms)|;
    MembersSplit(ms);
    AtSplit(raw, i, ms.before, CoreText(ms) + (ms.after + TailText(ms)));
    AtSplit(raw, start, CoreText(ms), ms.after + TailText(ms));
    AtSplit(raw, end, ms.after, TailText(ms));
    CoreStarts(raw, start, ms);
    TailLayout(raw, end + |ms.after|, ms);
  }

  /** The other members, in their order, with the whitespace around them dropped. */
  function Unsigned(ms: Members): (r: Members)
    requires MembersOk(ms)
    ensures MembersOk(r)
  {
    if ms.NoMembers? then NoMembers
    else if NamesSignature(ms.key) then Unsigned(ms.rest)
    else ms.(before := [], after := [], rest := Unsigned(ms.rest))
  }

  /** For every object text, strip returns exactly the text of the object holding
      the other members byte for byte and in order. */
  lemma StripKeepsOthers(lead: Bytes, blank: Bytes, ms: Members, trail: Bytes)
    requires Blank(lead) && Blank(blank) && MembersOk(ms)
    ensures Stripped(lead + ValueText(ObjectValue(blank, ms)) + trail) == Ok(ValueText(ObjectValue([], Unsigned(ms))))
  {
    hide At, KeptFrom, CoreText, Kept, Join, Unsigned;
    var raw := lead + ValueText(ObjectValue(blank, ms)) + trail;
    var i := |lead|;
    ObjectLayout(lead, blank, ms, trail);
    SkipSpaceOver(raw, 0, lead);
    if ms.NoMembers? {
      EmptyObject(raw, i + 1, blank);
    } else {
      KeptFromText(raw, i + 1, ms, []);
      assert [] + Kept(ms) == Kept(ms);
    }
    JoinKept(ms);
  }

  lemma EmptyObject(raw: Bytes, i: nat, blank: Bytes)
    requires Blank(blank) && At(raw, i, blank + [CLOSE_BRACE])
    ensures KeptFrom(raw, i, []) == Ok([]) && Kept(NoMembers) == []
  {
    AtSplit(raw, i, blank, [CLOSE_BRACE]);
    SkipSpaceOver(raw, i, blank);
  }

  lemma ObjectLayout(lead: Bytes, blank: Bytes, ms: Members, trail: Bytes)
    ensures
      var raw := lead + ValueText(ObjectValue(blank, ms)) + trail;
      var inside := if ms.NoMembers? then blank else MembersText(ms);
      && At(raw, 0, lead) && |lead| < |raw| && raw[|lead|] == OPEN_BRACE
      && At(raw, |lead| + 1, inside + [CLOSE_BRACE])
  {
    var inside := if ms.NoMembers? then blank else MembersText(ms);
    var text := [OPEN_BRACE] + (inside + [CLOSE_BRACE]);
    var raw := lead + text + trail;
    assert ValueText(ObjectValue(blank, ms)) == text;
    AtSlice(raw, 0, lead);
    AtSlice(raw, |lead|, text);
    assert raw[0..|lead|] == lead && raw[|lead|..|lead| + |text|] == text;
    assert text[1..] == inside + [CLOSE_BRACE];
  }

  /** Dropping the signature from the tree is what dropping it from the text does. */
  lemma {:induction false} JoinKept(ms: Members)
    requires MembersOk(ms)
    ensures Unsigned(ms).NoMembers? <==> Kept(ms) == []
    ensures Join(Kept(ms)) == (if Unsigned(ms).NoMembers? then [] else MembersText(Unsigned(ms)))
    decreases ms
  {
    if ms.Member? {
      JoinKept(ms.rest);
      if NamesSignature(ms.key) {
        assert Kept(ms) == [] + Kept(ms.rest) == Kept(ms.rest);
      } else {
        var core := CoreText(ms);
        assert Kept(ms) == [core] + Kept(ms.rest);
        JoinStep(core, Kept(ms.rest));
        var kept := ms.(before := [], after := [], rest := Unsigned(ms.rest));
        assert CoreText(kept) == core;
        assert [] + core + [] == core;
      }
    }
  }

  lemma JoinStep(first: Bytes, rest: seq<Bytes>)
    ensures Join([first] + rest) == first + if rest == [] then [] else [COMMA] + Join(rest)
  {
    assert ([first] + rest)[1..] == rest;
  }

  lemma {:induction false} UnsignedTwice(ms: Members)
    requires MembersOk(ms)
    ensures Unsigned(Unsigned(ms)) == Unsigned(ms)
    decreases ms
  {
    if ms.Member? {
      UnsignedTwice(ms.rest);
    }
  }

  /** A second strip changes nothing. */
  lemma StripIsIdempotent(lead: Bytes, blank: Bytes, ms: Members, trail: Bytes)
    requires Blank(lead) && Blank(blank) && MembersOk(ms)
    ensures var once := Stripped(lead + ValueText(ObjectValue(blank, ms)) + trail);
      once.Ok? && Stripped(once.value) == once
  {
    StripKeepsOthers(lead, blank, ms, trail);
    UnsignedTwice(ms);
    var once := ValueText(ObjectValue([], Unsigned(ms)));
    StripKeepsOthers([], [], Unsigned(ms), []);
    assert [] + once + [] == once;
  }

  // ----- Signing and verifying -----

  /** Members without whitespace around them, as json.Marshal writes them. */
  predicate Compact(ms: Members) {
    ms.Member? ==> ms.before == [] && ms.after == [] && Compact(ms.rest)
  }

  predicate WithoutSignature(ms: Members)
    requires MembersOk(ms)
  {
    ms.Member? ==> !NamesSignature(ms.key) && WithoutSignature(ms.rest)
  }

  /** The signed envelope: the unsigned members with the signature member last. */
  function Append(ms: Members, last: Members): (r: Members) {
    if ms.NoMembers? then last else ms.(rest := Append(ms.rest, last))
  }

  function Marshal(ms: Members): Bytes { ValueText(ObjectValue([], ms)) }

  lemma {:induction false} UnsignedOfSigned(ms: Members, signature: Members)
    requires MembersOk(ms) && MembersOk(signature) && Compact(ms) && WithoutSignature(ms)
    requires signature.Member? && signature.rest.NoMembers? && NamesSignature(signature.key)
    ensures MembersOk(Append(ms, signature)) && Unsigned(Append(ms, signature)) == ms
    decreases ms
  {
    if ms.Member? {
      UnsignedOfSigned(ms.rest, signature);
    }
  }

  /** The signed object has the text of the unsigned members and then the signature's. */
  lemma {:induction false} SignatureIsLast(ms: Members, signature: Members)
    requires signature.Member?
    ensures MembersText(Append(ms, signature)) ==
      if ms.NoMembers? then MembersText(signature) else MembersText(ms) + [COMMA] + MembersText(signature)
    decreases ms
  {
    if ms.Member? {
      SignatureIsLast(ms.rest, signature);
    }
  }

  /** Stripping Sign's wire gives back the very bytes that were canonicalized and
      signed, so a verifier that shares the canonicalizer checks the signed message. */
  lemma SignedWireVerifies(ms: Members, signature: Members, canonical: Bytes -> Bytes, checks: (Bytes, Members) -> bool)
    requires MembersOk(ms) && MembersOk(signature) && Compact(ms) && WithoutSignature(ms)
    requires signature.Member? && signature.rest.NoMembers? && NamesSignature(signature.key)
    requires checks(canonical(Marshal(ms)), signature)
    ensures var stripped := Stripped(Marshal(Append(ms, signature)));
      stripped == Ok(Marshal(ms)) && checks(canonical(stripped.value), signature)
  {
    UnsignedOfSigned(ms, signature);
    var wire := Marshal(Append(ms, signature));
    StripKeepsOthers([], [], Append(ms, signature), []);
    assert [] + wire + [] == wire;
  }
}
