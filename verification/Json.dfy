/** Concrete syntax of JSON texts, sections 2 to 7 of RFC 8259, with every byte of
    insignificant whitespace and every escape spelled out.  A byte sequence is a
    well-formed value exactly when it is the text of one of these trees. */
module Json {
  import opened Common
  import Escapes

  const COMMA: byte := 44
  const COLON: byte := 58
  const OPEN_BRACKET: byte := 91
  const CLOSE_BRACKET: byte := 93
  const OPEN_BRACE: byte := 123
  const CLOSE_BRACE: byte := 125

  predicate IsSpace(c: byte) { c == 32 || c == 9 || c == 13 || c == 10 }

  predicate IsDigit(c: byte) { 48 <= c <= 57 }

  predicate Blank(s: Bytes) { forall c | c in s :: IsSpace(c) }

  /** A run of digits; an integer part is 0 or does not start with 0. */
  predicate Digits(s: Bytes) { s != [] && forall c | c in s :: IsDigit(c) }

  datatype Exponent = NoExponent | Exponent(mark: byte, sign: Bytes, digits: Bytes)

  datatype Scalar =
    | True
    | False
    | Null
    | Number(negative: bool, whole: Bytes, fraction: Option<Bytes>, exponent: Exponent)

  predicate ExponentOk(e: Exponent) {
    e.NoExponent? ||
    ((e.mark == 101 || e.mark == 69) && (e.sign == [] || e.sign == [43] || e.sign == [45]) && Digits(e.digits))
  }

  predicate ScalarOk(s: Scalar) {
    s.Number? ==>
      && Digits(s.whole) && (s.whole[0] == 48 ==> |s.whole| == 1)
      && (s.fraction.Some? ==> Digits(s.fraction.value))
      && ExponentOk(s.exponent)
  }

  function ExponentText(e: Exponent): Bytes {
    if e.NoExponent? then [] else [e.mark] + e.sign + e.digits
  }

  function ScalarText(s: Scalar): Bytes {
    match s
    case True => [116, 114, 117, 101]
    case False => [102, 97, 108, 115, 101]
    case Null => [110, 117, 108, 108]
    case Number(negative, whole, fraction, exponent) =>
      (if negative then [45] else []) + whole +
      (if fraction.Some? then [46] + fraction.value else []) + ExponentText(exponent)
  }

  /** One character of a string literal: itself, a two-byte escape, or \uXXXX. */
  datatype Unit = Plain(c: byte) | Short(c: byte) | Unicode(quad: Bytes)

  predicate ShortEscape(c: byte) { c in {34, 92, 47, 98, 102, 110, 114, 116} }

  predicate UnitOk(u: Unit) {
    match u
    case Plain(c) => c >= 32 && c != QUOTE && c != BACKSLASH
    case Short(c) => ShortEscape(c)
    case Unicode(quad) => |quad| == 4 && Escapes.HexQuad(quad, 0)
  }

  function UnitText(u: Unit): Bytes {
    match u
    case Plain(c) => [c]
    case Short(c) => [BACKSLASH, c]
    case Unicode(quad) => [BACKSLASH, Escapes.LETTER_U] + quad
  }

  predicate UnitsOk(us: seq<Unit>) { forall u | u in us :: UnitOk(u) }

  function UnitsText(us: seq<Unit>): Bytes {
    if us == [] then [] else UnitText(us[0]) + UnitsText(us[1..])
  }

  function Quoted(us: seq<Unit>): Bytes { [QUOTE] + UnitsText(us) + [QUOTE] }

  datatype Value =
    | ScalarValue(scalar: Scalar)
    | StringValue(units: seq<Unit>)
    | ArrayValue(blank: Bytes, items: Items)
    | ObjectValue(blank: Bytes, members: Members)

  datatype Items = NoItems | Item(before: Bytes, value: Value, after: Bytes, rest: Items)

  datatype Members =
    | NoMembers
    | Member(before: Bytes, key: seq<Unit>, beforeColon: Bytes, afterColon: Bytes, value: Value, after: Bytes,
        rest: Members)

  predicate ValueOk(v: Value) {
    match v
    case ScalarValue(s) => ScalarOk(s)
    case StringValue(us) => UnitsOk(us)
    case ArrayValue(blank, items) => Blank(blank) && ItemsOk(items)
    case ObjectValue(blank, members) => Blank(blank) && MembersOk(members)
  }

  predicate ItemsOk(items: Items) {
    items.Item? ==> Blank(items.before) && ValueOk(items.value) && Blank(items.after) && ItemsOk(items.rest)
  }

  predicate MembersOk(ms: Members) {
    ms.Member? ==>
      && Blank(ms.before) && UnitsOk(ms.key) && Blank(ms.beforeColon) && Blank(ms.afterColon)
      && ValueOk(ms.value) && Blank(ms.after) && MembersOk(ms.rest)
  }

  function ValueText(v: Value): Bytes {
    match v
    case ScalarValue(s) => ScalarText(s)
    case StringValue(us) => Quoted(us)
    case ArrayValue(blank, items) => [OPEN_BRACKET] + (if items.NoItems? then blank
      else ItemsText(items)) + [CLOSE_BRACKET]
    case ObjectValue(blank, members) =>
      [OPEN_BRACE] + (if members.NoMembers? then blank else MembersText(members)) + [CLOSE_BRACE]
  }

  function ItemsText(items: Items): Bytes
    requires items.Item?
  {
    items.before + ValueText(items.value) + items.after +
    if items.rest.NoItems? then [] else [COMMA] + ItemsText(items.rest)
  }

  /** The member itself, without the whitespace around it. */
  function CoreText(ms: Members): Bytes
    requires ms.Member?
    decreases ms, 0
  {
    Quoted(ms.key) + ms.beforeColon + [COLON] + ms.afterColon + ValueText(ms.value)
  }

  function MembersText(ms: Members): Bytes
    requires ms.Member?
    decreases ms, 1
  {
    ms.before + CoreText(ms) + ms.after +
    if ms.rest.NoMembers? then [] else [COMMA] + MembersText(ms.rest)
  }

  /** The character a unit stands for, as far as comparing with an ASCII name goes:
      its code when that is ASCII, and a number above every ASCII code otherwise. */
  function UnitCode(u: Unit): int
    requires UnitOk(u)
  {
    match u
    case Plain(c) => if c < 128 then c as int else 0x110000 + c as int
    case Short(c) =>
      if c == 98 then 8 else if c == 102 then 12 else if c == 110 then 10
      else if c == 114 then 13 else if c == 116 then 9 else c as int
    case Unicode(quad) =>
      var code := Escapes.QuadValue(quad, 0);
      if code < 128 then code else 0x120000 + code
  }

  function KeyCodes(us: seq<Unit>): seq<int>
    requires UnitsOk(us)
  {
    if us == [] then [] else [UnitCode(us[0])] + KeyCodes(us[1..])
  }

  /** The name "signature". */
  const SIGNATURE: seq<int> := [115, 105, 103, 110, 97, 116, 117, 114, 101]

  predicate NamesSignature(us: seq<Unit>)
    requires UnitsOk(us)
  {
    KeyCodes(us) == SIGNATURE
  }

  /** Reads the characters of a string literal from position i up to its closing
      quote, as encoding/json does when it decodes a member name. */
  function ParseUnits(s: Bytes, i: nat): (r: Option<seq<Unit>>)
    requires i <= |s|
    ensures r.Some? ==> UnitsOk(r.value)
    decreases |s| - i
  {
    if i == |s| then None
    else if s[i] == QUOTE then if i + 1 == |s| then Some([]) else None
    else if s[i] == BACKSLASH then
      if i + 1 < |s| && ShortEscape(s[i + 1]) then Prepend(Short(s[i + 1]), ParseUnits(s, i + 2))
      else if i + 6 <= |s| && s[i + 1] == Escapes.LETTER_U && Escapes.HexQuad(s[i + 2..i + 6], 0) then
        Prepend(Unicode(s[i + 2..i + 6]), ParseUnits(s, i + 6))
      else None
    else if s[i] >= 32 then Prepend(Plain(s[i]), ParseUnits(s, i + 1))
    else None
  }

  function Prepend(u: Unit, rest: Option<seq<Unit>>): (r: Option<seq<Unit>>)
    requires UnitOk(u)
    requires rest.Some? ==> UnitsOk(rest.value)
    ensures r.Some? ==> UnitsOk(r.value)
  {
    if rest.None? then None else Some([u] + rest.value)
  }

  /** Decoding a quoted name: fails unless the bytes are one string literal. */
  function DecodeKey(quoted: Bytes): (r: Option<seq<int>>) {
    if quoted == [] || quoted[0] != QUOTE then None
    else
      var units := ParseUnits(quoted, 1);
      if units.None? then None else Some(KeyCodes(units.value))
  }

  /** s occurs in raw at position i. */
  predicate At(raw: Bytes, i: int, s: Bytes): (found: bool)
    ensures found ==> 0 <= i && i + |s| <= |raw|
    decreases |s|
  {
    if s == [] then 0 <= i <= |raw|
    else 0 <= i < |raw| && raw[i] == s[0] && At(raw, i + 1, s[1..])
  }

  lemma {:induction false} AtSplit(raw: Bytes, i: int, a: Bytes, b: Bytes)
    ensures At(raw, i, a + b) <==> At(raw, i, a) && At(raw, i + |a|, b)
    decreases |a|
  {
    if a == [] {
      assert a + b == b;
      AtSlice(raw, i, b);
    } else {
      assert (a + b)[1..] == a[1..] + b;
      AtSplit(raw, i + 1, a[1..], b);
    }
  }

  lemma AtFirst(raw: Bytes, i: int, s: Bytes)
    requires s != [] && At(raw, i, s)
    ensures raw[i] == s[0]
  {
  }

  lemma {:induction false} AtSlice(raw: Bytes, i: int, s: Bytes)
    ensures At(raw, i, s) <==> 0 <= i && i + |s| <= |raw| && raw[i..i + |s|] == s
    decreases |s|
  {
    if s != [] {
      AtSlice(raw, i + 1, s[1..]);
      if 0 <= i && i + |s| <= |raw| {
        assert raw[i..i + |s|] == [raw[i]] + raw[i + 1..i + 1 + |s[1..]|];
        assert s == [s[0]] + s[1..];
      }
    }
  }

  lemma {:induction false} ParseUnitsText(s: Bytes, i: nat, us: seq<Unit>)
    requires UnitsOk(us) && At(s, i, UnitsText(us) + [QUOTE]) && i + |UnitsText(us)| + 1 == |s|
    ensures ParseUnits(s, i) == Some(us)
    decreases |us|
  {
    if us == [] {
      assert UnitsText(us) + [QUOTE] == [QUOTE];
    } else {
      var u, rest := us[0], us[1..];
      assert u in us && us == [u] + rest;
      assert UnitsText(us) + [QUOTE] == UnitText(u) + (UnitsText(rest) + [QUOTE]);
      AtSplit(s, i, UnitText(u), UnitsText(rest) + [QUOTE]);
      ParseUnitsText(s, i + |UnitText(u)|, rest);
      ParseFirst(s, i, u);
    }
  }

  /** The parser takes exactly the unit that is written at i. */
  lemma ParseFirst(s: Bytes, i: nat, u: Unit)
    requires UnitOk(u) && At(s, i, UnitText(u))
    ensures i + |UnitText(u)| <= |s|
    ensures ParseUnits(s, i) == Prepend(u, ParseUnits(s, i + |UnitText(u)|))
  {
    AtSlice(s, i, UnitText(u));
    match u
    case Plain(c) =>
    case Short(c) =>
      assert UnitText(u)[1..] == [c];
    case Unicode(quad) =>
      assert UnitText(u)[1..][1..] == quad;
      AtSlice(s, i + 2, quad);
  }

  lemma DecodeQuoted(us: seq<Unit>)
    requires UnitsOk(us)
    ensures DecodeKey(Quoted(us)) == Some(KeyCodes(us))
  {
    hide At, UnitsText;
    var s := Quoted(us);
    AtSlice(s, 1, UnitsText(us) + [QUOTE]);
    assert s[1..1 + |UnitsText(us) + [QUOTE]|] == UnitsText(us) + [QUOTE];
    ParseUnitsText(s, 1, us);
  }
}
