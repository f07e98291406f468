/** Surrogate escape validation, internal/ssp/envelope.go.

    The rule is stated position by position over the raw bytes: a three-state
    automaton says which positions lie inside a string literal, and every escape
    that starts inside a literal has to be complete and, when it names a
    surrogate, paired as section 3.2.2.2 of RFC 8785 requires.  The scanner, which
    jumps over whole escapes and whole pairs, is proved to accept exactly that. */
module Escapes {
  import opened Common

  const LETTER_U: byte := 117

  datatype Mode = Outside | Inside | Escaped

  function NextMode(mode: Mode, c: byte): Mode {
    match mode
    case Outside => if c == QUOTE then Inside else Outside
    case Inside => if c == BACKSLASH then Escaped else if c == QUOTE then Outside else Inside
    case Escaped => Inside
  }

  /** The automaton's state just before position i. */
  function ModeAt(raw: Bytes, i: nat): Mode
    requires i <= |raw|
  {
    if i == 0 then Outside else NextMode(ModeAt(raw, i - 1), raw[i - 1])
  }

  function HexDigit(c: byte): Option<int> {
    if 48 <= c <= 57 then Some(c as int - 48)
    else if 97 <= c <= 102 then Some(c as int - 87)
    else if 65 <= c <= 70 then Some(c as int - 55)
    else None
  }

  predicate HexQuad(raw: Bytes, p: int) {
    0 <= p && p + 4 <= |raw| && forall k | p <= k < p + 4 :: HexDigit(raw[k]).Some?
  }

  function QuadValue(raw: Bytes, p: int): (unit: int)
    requires HexQuad(raw, p)
    ensures 0 <= unit <= 0xFFFF
  {
    4096 * HexDigit(raw[p]).value + 256 * HexDigit(raw[p + 1]).value +
    16 * HexDigit(raw[p + 2]).value + HexDigit(raw[p + 3]).value
  }

  predicate HighSurrogate(unit: int) { 0xD800 <= unit <= 0xDBFF }

  predicate LowSurrogate(unit: int) { 0xDC00 <= unit <= 0xDFFF }

  /** An escape starts at i: a backslash inside a literal that is not itself escaped. */
  predicate EscapeAt(raw: Bytes, i: int) {
    0 <= i < |raw| && ModeAt(raw, i) == Inside && raw[i] == BACKSLASH
  }

  /** A complete \uXXXX escape starts at i. */
  predicate UnitAt(raw: Bytes, i: int) {
    EscapeAt(raw, i) && i + 1 < |raw| && raw[i + 1] == LETTER_U && HexQuad(raw, i + 2)
  }

  predicate HighAt(raw: Bytes, i: int) { UnitAt(raw, i) && HighSurrogate(QuadValue(raw, i + 2)) }

  predicate LowAt(raw: Bytes, i: int) { UnitAt(raw, i) && LowSurrogate(QuadValue(raw, i + 2)) }

  predicate EscapeOk(raw: Bytes, i: int) {
    && 0 <= i
    && i + 1 < |raw|
    && (raw[i + 1] == LETTER_U ==> HexQuad(raw, i + 2))
    && (HighAt(raw, i) ==> LowAt(raw, i + 6))
    && (LowAt(raw, i) ==> HighAt(raw, i - 6))
  }

  ghost predicate WellEscaped(raw: Bytes) {
    forall i | EscapeAt(raw, i) :: EscapeOk(raw, i)
  }

  datatype Fault =
    | TruncatedEscape
    | TruncatedUnicode
    | BadDigit(digit: byte)
    | LoneLow(unit: int)
    | HighNotFollowed(unit: int)
    | HighThenNotLow(unit: int, second: int)

  /** What each refusal says about the input: the escape at i shows the fault. */
  ghost predicate Shows(raw: Bytes, i: int, fault: Fault) {
    EscapeAt(raw, i) && !EscapeOk(raw, i) &&
    match fault
    case TruncatedEscape => i + 1 == |raw|
    case TruncatedUnicode => i + 1 < |raw| && raw[i + 1] == LETTER_U && |raw| < i + 6
    case BadDigit(digit) =>
      || (i + 6 <= |raw| && raw[i + 1] == LETTER_U && digit in raw[i + 2..i + 6] && HexDigit(digit).None?)
      || (i + 12 <= |raw| && HighAt(raw, i) && digit in raw[i + 8..i + 12] && HexDigit(digit).None?)
    case LoneLow(unit) => LowAt(raw, i) && QuadValue(raw, i + 2) == unit && !HighAt(raw, i - 6)
    case HighNotFollowed(unit) => HighAt(raw, i) && QuadValue(raw, i + 2) == unit
    case HighThenNotLow(unit, second) =>
      HighAt(raw, i) && QuadValue(raw, i + 2) == unit &&
      UnitAt(raw, i + 6) && QuadValue(raw, i + 8) == second && !LowSurrogate(second)
  }

  method ReadHex4(raw: Bytes, pos: nat) returns (r: Result<int, Fault>)
    ensures r.Ok? <==> HexQuad(raw, pos)
    ensures r.Ok? ==> r.value == QuadValue(raw, pos)
    ensures r.Err? ==> if pos + 4 > |raw| then r.error == TruncatedUnicode
                       else r.error.BadDigit? && r.error.digit in raw[pos..pos + 4] && HexDigit(r.error.digit).None?
  {
    if pos + 4 > |raw| {
      return Err(TruncatedUnicode);
    }
    var value := 0;
    var offset := 0;
    while offset < 4
      invariant 0 <= offset <= 4
      invariant forall k | pos <= k < pos + offset :: HexDigit(raw[k]).Some?
      invariant offset == 0 ==> value == 0
      invariant offset == 1 ==> value == HexDigit(raw[pos]).value
      invariant offset == 2 ==> value == 16 * HexDigit(raw[pos]).value + HexDigit(raw[pos + 1]).value
      invariant offset == 3 ==>
        value == 256 * HexDigit(raw[pos]).value + 16 * HexDigit(raw[pos + 1]).value + HexDigit(raw[pos + 2]).value
      invariant offset == 4 ==> HexQuad(raw, pos) && value == QuadValue(raw, pos)
    {
      var digit := raw[pos + offset];
      if HexDigit(digit).None? {
        assert digit == raw[pos..pos + 4][offset];
        return Err(BadDigit(digit));
      }
      value := value * 16 + HexDigit(digit).value;
      offset := offset + 1;
    }
    return Ok(value);
  }

  /** No hexadecimal digit is a quote or a backslash, so a \u escape leaves the
      automaton inside the literal six bytes on, with no escape starting between. */
  lemma UnicodeEscapeModes(raw: Bytes, i: nat)
    requires EscapeAt(raw, i) && i + 1 < |raw| && raw[i + 1] == LETTER_U && HexQuad(raw, i + 2)
    ensures ModeAt(raw, i + 6) == Inside
    ensures forall k | i < k < i + 6 :: !EscapeAt(raw, k)
  {
    assert ModeAt(raw, i + 1) == Escaped;
    assert ModeAt(raw, i + 2) == Inside;
    assert HexDigit(raw[i + 2]).Some? && HexDigit(raw[i + 3]).Some? && HexDigit(raw[i + 4]).Some?
      && HexDigit(raw[i + 5]).Some?;
    assert ModeAt(raw, i + 3) == Inside;
    assert ModeAt(raw, i + 4) == Inside;
    assert ModeAt(raw, i + 5) == Inside;
  }

  /** Everything the scanner knows about the bytes before position i. */
  ghost predicate ScannedTo(raw: Bytes, i: int, inString: bool) {
    && 0 <= i <= |raw|
    && ModeAt(raw, i) == (if inString then Inside else Outside)
    && (forall k | 0 <= k < i && EscapeAt(raw, k) :: EscapeOk(raw, k))
    && (forall k | 0 <= k < i && UnitAt(raw, k) :: k + 6 <= i)
    && (forall k | 0 <= k < i && HighAt(raw, k) :: k + 12 <= i)
  }

  /** One byte that starts no escape. */
  lemma AdvanceByte(raw: Bytes, i: nat, inString: bool)
    requires ScannedTo(raw, i, inString) && i < |raw|
    requires !inString || raw[i] != BACKSLASH
    ensures ScannedTo(raw, i + 1, inString != (raw[i] == QUOTE))
  {
  }

  /** A two-byte escape other than \u. */
  lemma AdvanceShortEscape(raw: Bytes, i: nat)
    requires ScannedTo(raw, i, true) && EscapeAt(raw, i)
    requires i + 1 < |raw| && raw[i + 1] != LETTER_U
    ensures ScannedTo(raw, i + 2, true)
  {
    assert ModeAt(raw, i + 1) == Escaped;
    assert !UnitAt(raw, i) && !EscapeAt(raw, i + 1);
    assert EscapeOk(raw, i);
  }

  /** No unit that the scan already passed can be the high half of one starting at i. */
  lemma LonelyLow(raw: Bytes, i: nat)
    requires ScannedTo(raw, i, true) && LowAt(raw, i)
    ensures Shows(raw, i, LoneLow(QuadValue(raw, i + 2)))
  {
    assert !HighAt(raw, i - 6);
  }

  /** A \u escape that names no surrogate. */
  lemma AdvanceUnit(raw: Bytes, i: nat)
    requires ScannedTo(raw, i, true) && UnitAt(raw, i)
    requires !HighAt(raw, i) && !LowAt(raw, i)
    ensures ScannedTo(raw, i + 6, true)
  {
    UnicodeEscapeModes(raw, i);
    assert EscapeOk(raw, i);
  }

  /** A high unit directly before a low one. */
  lemma AdvancePair(raw: Bytes, i: nat)
    requires ScannedTo(raw, i, true) && HighAt(raw, i) && LowAt(raw, i + 6)
    ensures ScannedTo(raw, i + 12, true)
  {
    UnicodeEscapeModes(raw, i);
    UnicodeEscapeModes(raw, i + 6);
    assert EscapeOk(raw, i) && EscapeOk(raw, i + 6);
    forall k | 0 <= k < i + 12 && EscapeAt(raw, k)
      ensures k < i || k == i || k == i + 6
    {
    }
  }

  /** A high unit that nothing suitable follows: the refusal, and why it is right. */
  lemma LonelyHigh(raw: Bytes, i: nat)
    requires ScannedTo(raw, i, true) && HighAt(raw, i)
    requires i + 12 > |raw| || raw[i + 6] != BACKSLASH || raw[i + 7] != LETTER_U
    ensures Shows(raw, i, HighNotFollowed(QuadValue(raw, i + 2)))
  {
    assert !UnitAt(raw, i + 6);
  }

  lemma BadSecondUnit(raw: Bytes, i: nat, digit: byte)
    requires ScannedTo(raw, i, true) && HighAt(raw, i) && i + 12 <= |raw|
    requires digit in raw[i + 8..i + 12] && HexDigit(digit).None?
    ensures Shows(raw, i, BadDigit(digit))
  {
    var k :| 0 <= k < 4 && raw[i + 8..i + 12][k] == digit;
    assert raw[i + 8 + k] == digit;
    assert !HexQuad(raw, i + 8);
  }

  lemma SecondNotLow(raw: Bytes, i: nat)
    requires ScannedTo(raw, i, true) && HighAt(raw, i)
    requires i + 12 <= |raw| && raw[i + 6] == BACKSLASH && raw[i + 7] == LETTER_U && HexQuad(raw, i + 8)
    ensures UnitAt(raw, i + 6)
    ensures !LowAt(raw, i + 6) ==> Shows(raw, i, HighThenNotLow(QuadValue(raw, i + 2), QuadValue(raw, i + 8)))
  {
    UnicodeEscapeModes(raw, i);
  }

  lemma BadFirstUnit(raw: Bytes, i: nat, fault: Fault)
    requires ScannedTo(raw, i, true) && EscapeAt(raw, i) && i + 1 < |raw| && raw[i + 1] == LETTER_U
    requires if i + 6 > |raw| then fault == TruncatedUnicode
             else fault.BadDigit? && fault.digit in raw[i + 2..i + 6] && HexDigit(fault.digit).None?
    requires !HexQuad(raw, i + 2)
    ensures Shows(raw, i, fault)
  {
  }

  /** The \u branch: how far to move, or which fault to report. */
  method ScanUnicodeEscape(raw: Bytes, i: nat) returns (r: Result<nat, Fault>)
    requires ScannedTo(raw, i, true) && EscapeAt(raw, i) && i + 1 < |raw| && raw[i + 1] == LETTER_U
    ensures r.Ok? ==> r.value > i && ScannedTo(raw, r.value, true)
    ensures r.Err? ==> Shows(raw, i, r.error)
  {
    hide ScannedTo, Shows, EscapeOk, ModeAt, QuadValue;
    var first := ReadHex4(raw, i + 2);
    if first.Err? {
      BadFirstUnit(raw, i, first.error);
      return Err(first.error);
    }
    var next := i + 6;
    if LowSurrogate(first.value) {
      LonelyLow(raw, i);
      return Err(LoneLow(first.value));
    }
    if !HighSurrogate(first.value) {
      AdvanceUnit(raw, i);
      return Ok(next);
    }
    if next + 6 > |raw| || raw[next] != BACKSLASH || raw[next + 1] != LETTER_U {
      LonelyHigh(raw, i);
      return Err(HighNotFollowed(first.value));
    }
    var second := ReadHex4(raw, next + 2);
    if second.Err? {
      BadSecondUnit(raw, i, second.error.digit);
      return Err(second.error);
    }
    SecondNotLow(raw, i);
    if !LowSurrogate(second.value) {
      return Err(HighThenNotLow(first.value, second.value));
    }
    AdvancePair(raw, i);
    return Ok(next + 6);
  }

  /** Accepts exactly the byte sequences whose every in-literal escape is complete
      and whose surrogate escapes come as one high unit directly before one low unit. */
  method ValidateStringEscapes(raw: Bytes) returns (fault: Option<Fault>)
    ensures fault.None? <==> WellEscaped(raw)
    ensures fault.Some? ==> exists i :: Shows(raw, i, fault.value)
  {
    var inString := false;
    var i := 0;
    while i < |raw|
      invariant ScannedTo(raw, i, inString)
      decreases |raw| - i
    {
      if !inString || raw[i] != BACKSLASH {
        AdvanceByte(raw, i, inString);
        inString := inString != (raw[i] == QUOTE);
        i := i + 1;
      } else if i + 1 >= |raw| {
        assert Shows(raw, i, TruncatedEscape);
        return Some(TruncatedEscape);
      } else if raw[i + 1] != LETTER_U {
        AdvanceShortEscape(raw, i);
        i := i + 2;
      } else {
        var r := ScanUnicodeEscape(raw, i);
        if r.Err? {
          return Some(r.error);
        }
        i := r.value;
      }
    }
    return None;
  }
}
