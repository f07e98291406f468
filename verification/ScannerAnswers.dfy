/** What the scanners make of any bytes at all, malformed ones included. */
module ScannerAnswers {
  import opened Common
  import opened Json
  import opened Scanners
  import Escapes

  // ----- Strings -----

  /** How many backslashes stand directly before k, none of them before lo. */
  function Slashes(raw: Bytes, lo: nat, k: nat): nat
    requires k <= |raw|
    decreases k
  {
    if k > lo && raw[k - 1] == 92 then 1 + Slashes(raw, lo, k - 1) else 0
  }

  /** A quote that an even number of backslashes precedes. */
  predicate ClosesAt(raw: Bytes, lo: nat, k: nat) {
    lo <= k < |raw| && raw[k] == 34 && Slashes(raw, lo, k) % 2 == 0
  }

  lemma {:induction false} StringEndFirst(raw: Bytes, lo: nat, i: nat, escaped: bool)
    requires lo <= i <= |raw| && (escaped <==> Slashes(raw, lo, i) % 2 == 1)
    ensures var r := StringEndFrom(raw, i, escaped);
      && (r.None? ==> forall k | i <= k :: !ClosesAt(raw, lo, k))
      && (r.Some? ==> ClosesAt(raw, lo, r.value - 1) && forall k | i <= k < r.value - 1 :: !ClosesAt(raw, lo, k))
    decreases |raw| - i
  {
    if i < |raw| {
      if !(!escaped && raw[i] == QUOTE) {
        StringEndFirst(raw, lo, i + 1, !escaped && raw[i] == BACKSLASH);
      }
    }
  }

  /** A string ends behind the first quote that is not escaped, that is, preceded by an even
      number of backslashes; it is bad when no quote opens it and unterminated when none
      closes it. */
  lemma StringEndExactly(raw: Bytes, start: nat)
    ensures var r := StringEndAt(raw, start); var lo := start + 1;
      && (r == Err(BadString) <==> start >= |raw| || raw[start] != 34)
      && (r == Err(UnterminatedString) <==>
            start < |raw| && raw[start] == 34 && forall k | lo <= k :: !ClosesAt(raw, lo, k))
      && (r.Ok? ==> ClosesAt(raw, lo, r.value - 1) && forall k | lo <= k < r.value - 1 :: !ClosesAt(raw, lo, k))
      && (r.Err? ==> r.error in {BadString, UnterminatedString})
  {
    if start < |raw| && raw[start] == QUOTE {
      StringEndFirst(raw, start + 1, start + 1, false);
    }
  }

  /** The escape check and the scanner agree about strings: one that the scanner finds is
      just what the check takes to be inside a literal, up to the closing quote. */
  lemma StringsAgree(raw: Bytes, start: nat)
    requires start <= |raw| && Escapes.ModeAt(raw, start) == Escapes.Outside && StringEndAt(raw, start).Ok?
    ensures var end := StringEndAt(raw, start).value;
      && Escapes.ModeAt(raw, end) == Escapes.Outside
      && forall k | start < k < end :: Escapes.ModeAt(raw, k) != Escapes.Outside
  {
    ModesFollow(raw, start + 1, false);
  }

  lemma {:induction false} ModesFollow(raw: Bytes, i: nat, escaped: bool)
    requires i <= |raw| && Escapes.ModeAt(raw, i) == if escaped then Escapes.Escaped else Escapes.Inside
    requires StringEndFrom(raw, i, escaped).Some?
    ensures var end := StringEndFrom(raw, i, escaped).value;
      && Escapes.ModeAt(raw, end) == Escapes.Outside
      && forall k | i <= k < end :: Escapes.ModeAt(raw, k) != Escapes.Outside
    decreases |raw| - i
  {
    if i < |raw| && (escaped || raw[i] != QUOTE) {
      ModesFollow(raw, i + 1, !escaped && raw[i] == BACKSLASH);
    }
  }

  /** A hexadecimal digit in either case, and its value. */
  lemma HexDigitMeans(c: byte, v: int)
    ensures Escapes.HexDigit(c) == Some(v) <==>
      && 0 <= v < 16
      && (c as int as char == "0123456789abcdef"[v] || c as int as char == "0123456789ABCDEF"[v])
  {
    var lower, upper := "0123456789abcdef", "0123456789ABCDEF";
    assert forall k | 0 <= k < 10 :: lower[k] as int == upper[k] as int == 48 + k;
    assert forall k | 10 <= k < 16 :: lower[k] as int == 87 + k && upper[k] as int == 55 + k;
  }

  /** High and low surrogates are the 16-bit units whose upper six bits are 54 and 55. */
  lemma SurrogateMeans(unit: int)
    ensures Escapes.HighSurrogate(unit) <==> unit / 1024 == 54
    ensures Escapes.LowSurrogate(unit) <==> unit / 1024 == 55
  {
  }

  // ----- Values -----

  /** A byte that ends a number or a literal. */
  predicate Stops(c: byte) {
    c in {44, 125, 93, 32, 9, 10, 13}
  }

  lemma {:induction false} ScalarEndFirst(raw: Bytes, i: nat)
    requires i <= |raw|
    ensures var j := ScalarEndFrom(raw, i);
      (j == |raw| || Stops(raw[j])) && forall k | i <= k < j :: !Stops(raw[k])
    decreases |raw| - i
  {
    if i < |raw| && !EndsScalar(raw[i]) {
      ScalarEndFirst(raw, i + 1);
    }
  }

  /** After these bytes of a container all containers are closed. */
  predicate AllClosed(raw: Bytes, lo: nat, e: nat) {
    lo < e <= |raw| && Feed(Scan(1, false, false), raw[lo..e]).depth == 0
  }

  lemma {:induction false} ContainerEndFirst(raw: Bytes, lo: nat, i: nat)
    requires lo <= i <= |raw| && Feed(Scan(1, false, false), raw[lo..i]).depth > 0
    ensures var r := ContainerEndFrom(raw, i, Feed(Scan(1, false, false), raw[lo..i]));
      && (r.None? ==> forall e | i < e :: !AllClosed(raw, lo, e))
      && (r.Some? ==> AllClosed(raw, lo, r.value) && forall e | i < e < r.value :: !AllClosed(raw, lo, e))
    decreases |raw| - i
  {
    if i < |raw| {
      assert raw[lo..i + 1] == raw[lo..i] + [raw[i]];
      FeedConcat(Scan(1, false, false), raw[lo..i], [raw[i]]);
      assert [raw[i]][1..] == [];
      if Feed(Scan(1, false, false), raw[lo..i + 1]).depth > 0 {
        ContainerEndFirst(raw, lo, i + 1);
      }
    }
  }

  /** A value is missing exactly where nothing or a byte that ends one stands; a container
      ends where all are closed for the first time, and is unterminated if they never are;
      any other value ends before the first byte that stops it. */
  lemma ValueEndExactly(raw: Bytes, start: nat)
    ensures var r := ValueEndAt(raw, start); var lo := start + 1; var opens := start < |raw| && raw[start] in {123, 91};
      && (r == Err(MissingValue) <==> start >= |raw| || Stops(raw[start]))
      && (start < |raw| && raw[start] == 34 ==> r == StringEndAt(raw, start))
      && (r == Err(UnterminatedContainer) <==> opens && forall e | lo < e :: !AllClosed(raw, lo, e))
      && (opens && r.Ok? ==> AllClosed(raw, lo, r.value) && forall e | lo < e < r.value :: !AllClosed(raw, lo, e))
      && (!opens && start < |raw| && raw[start] != 34 && r.Ok? ==>
            (r.value == |raw| || Stops(raw[r.value])) && forall k | start <= k < r.value :: !Stops(raw[k]))
      && (opens ==> r.Ok? || r == Err(UnterminatedContainer))
  {
    StringEndExactly(raw, start);
    if start < |raw| {
      ScalarEndFirst(raw, start);
      if raw[start] == OPEN_BRACE || raw[start] == OPEN_BRACKET {
        assert raw[start + 1..start + 1] == [];
        ContainerEndFirst(raw, start + 1, start + 1);
      }
    }
  }

  // ----- Members and objects -----

  /** The first byte from i on that is no white space. */
  predicate FirstAt(raw: Bytes, i: nat, j: nat) {
    i <= j < |raw| && raw[j] !in {32, 9, 10, 13} && forall k | i <= k < j :: raw[k] in {32, 9, 10, 13}
  }

  lemma {:induction false} SkipSpaceFirst(raw: Bytes, i: nat)
    requires i <= |raw|
    ensures var j := SkipSpaceFrom(raw, i);
      (j < |raw| ==> FirstAt(raw, i, j)) && (j == |raw| ==> forall k | i <= k < |raw| :: raw[k] in {32, 9, 10, 13})
    decreases |raw| - i
  {
    if i < |raw| && IsSpace(raw[i]) {
      SkipSpaceFirst(raw, i + 1);
    }
  }

  lemma FirstIs(raw: Bytes, i: nat, j: nat)
    requires i <= |raw|
    ensures FirstAt(raw, i, j) <==> j == SkipSpaceFrom(raw, i) < |raw|
  {
    SkipSpaceFirst(raw, i);
    var n := SkipSpaceFrom(raw, i);
    assert i <= j < n ==> raw[j] in {32, 9, 10, 13};
    assert FirstAt(raw, i, j) ==> j <= n;
  }

  /** A member needs a string that decodes, a colon behind it and a value behind that; what
      is missing first is what is reported. */
  lemma ReadMemberExactly(raw: Bytes, i: nat)
    requires i <= |raw|
    ensures var r := ReadMember(raw, i); var key := StringEndAt(raw, i);
      if key.Err? then r == Err(key.error)
      else if DecodeKey(raw[i..key.value]).None? then r == Err(BadKey)
      else if !exists colon: nat :: FirstAt(raw, key.value, colon) && raw[colon] == 58 then r == Err(MalformedJson)
      else
        forall colon: nat | FirstAt(raw, key.value, colon) ::
          var end := ValueEndAt(raw, SkipSpaceFrom(raw, colon + 1));
          r == if end.Err? then Err(end.error)
               else Ok(MemberRead(end.value, DecodeKey(raw[i..key.value]).value == SIGNATURE))
  {
    var key := StringEndAt(raw, i);
    if key.Ok? {
      FirstIs(raw, key.value, SkipSpaceFrom(raw, key.value));
      forall colon: nat
        ensures FirstAt(raw, key.value, colon) <==> colon == SkipSpaceFrom(raw, key.value) < |raw|
      {
        FirstIs(raw, key.value, colon);
      }
    }
    hide DecodeKey, ValueEndAt, StringEndAt, FirstAt;
  }

  predicate BlankFrom(raw: Bytes, i: nat) {
    forall k | i <= k < |raw| :: raw[k] in {32, 9, 10, 13}
  }

  /** The object goes on with its closing brace or with a member. */
  lemma KeptStarts(raw: Bytes, i: nat, kept: seq<Bytes>, j: nat)
    requires i <= |raw|
    ensures var r := KeptFrom(raw, i, kept);
      && (BlankFrom(raw, i) ==> r == Err(MalformedJson))
      && (FirstAt(raw, i, j) && raw[j] == 125 ==> r == Ok(kept))
      && (FirstAt(raw, i, j) && raw[j] != 125 && ReadMember(raw, j).Err? ==> r == Err(ReadMember(raw, j).error))
  {
    FirstIs(raw, i, j);
    SkipSpaceFirst(raw, i);
    hide ReadMember;
  }

  /** Behind a member only a comma or the closing brace may stand; the closing brace may
      also stand behind a comma. */
  lemma KeptExactly(raw: Bytes, i: nat, kept: seq<Bytes>, j: nat, n: nat)
    requires i <= |raw| && FirstAt(raw, i, j) && raw[j] != 125 && ReadMember(raw, j).Ok?
    ensures var r := KeptFrom(raw, i, kept); var m := ReadMember(raw, j).value;
      var more := if m.signature then kept else kept + [raw[j..m.end]];
      && (BlankFrom(raw, m.end) ==> r == Err(MalformedJson))
      && (FirstAt(raw, m.end, n) ==>
            r == if raw[n] == 44 then KeptFrom(raw, n + 1, more)
                 else if raw[n] == 125 then Ok(more) else Err(MalformedJson))
  {
    FirstIs(raw, i, j);
    FirstIs(raw, ReadMember(raw, j).value.end, n);
    SkipSpaceFirst(raw, ReadMember(raw, j).value.end);
    hide ReadMember, FirstAt, SkipSpaceFrom;
  }

  lemma {:induction false} KeptErrors(raw: Bytes, i: nat, kept: seq<Bytes>)
    requires i <= |raw|
    ensures KeptFrom(raw, i, kept) != Err(RootNotObject)
    decreases |raw| - i
  {
    hide ReadMember;
    var start := SkipSpaceFrom(raw, i);
    MemberErrors(raw, start);
    if ReadMember(raw, start).Ok? {
      var m := ReadMember(raw, start).value;
      var next := SkipSpaceFrom(raw, m.end);
      if next < |raw| && raw[next] == COMMA {
        KeptErrors(raw, next + 1, if m.signature then kept else kept + [raw[start..m.end]]);
      }
    }
  }

  lemma MemberErrors(raw: Bytes, i: nat)
    requires i <= |raw|
    ensures ReadMember(raw, i) != Err(RootNotObject)
  {
    hide DecodeKey;
  }

  /** The text must begin, after white space, with an opening brace. */
  lemma RootIsObject(raw: Bytes)
    ensures var r := Stripped(raw);
      && (r == Err(RootNotObject) <==> !exists j: nat :: FirstAt(raw, 0, j) && raw[j] == 123)
      && forall j: nat | FirstAt(raw, 0, j) && raw[j] == 123 ::
           var kept := KeptFrom(raw, j + 1, []);
           if kept.Err? then r == Err(kept.error) else r == Ok(Braced(kept.value))
  {
    FirstIs(raw, 0, SkipSpaceFrom(raw, 0));
    if SkipSpaceFrom(raw, 0) < |raw| {
      KeptErrors(raw, SkipSpaceFrom(raw, 0) + 1, []);
    }
    forall j: nat
      ensures FirstAt(raw, 0, j) <==> j == SkipSpaceFrom(raw, 0) < |raw|
    {
      FirstIs(raw, 0, j);
    }
    hide FirstAt, KeptFrom;
  }
}
