/** The string functions the port mappings rely on: Split, TrimSpace, Atoi and Itoa, with the facts that connect them. */
module GoStrings {
  import opened Base

  ghost predicate Without(s: string, c: char) {
    forall i :: 0 <= i < |s| ==> s[i] != c
  }

  /** strings.Split with a one-character separator. */
  function Split(s: string, c: char): (parts: seq<string>)
    ensures |parts| >= 1
  {
    if s == "" then [""]
    else
      var rest := Split(s[1..], c);
      if s[0] == c then [""] + rest else [[s[0]] + rest[0]] + rest[1..]
  }

  lemma {:induction false} SplitWithout(s: string, c: char)
    requires Without(s, c)
    ensures Split(s, c) == [s]
  {
    if s != "" {
      SplitWithout(s[1..], c);
      assert [s[0]] + s[1..] == s;
    }
  }

  lemma {:induction false} SplitAt(a: string, c: char, b: string)
    requires Without(a, c)
    ensures Split(a + [c] + b, c) == [a] + Split(b, c)
  {
    var s := a + [c] + b;
    if a == "" {
      assert s[1..] == b;
    } else {
      assert s[1..] == a[1..] + [c] + b;
      SplitAt(a[1..], c, b);
      assert s[0] == a[0] && [a[0]] + a[1..] == a;
    }
  }

  /** unicode.IsSpace. */
  predicate IsSpace(c: char) {
    c == ' ' || '\t' <= c <= '\r' || c == '\U{0085}' || c == '\U{00A0}' || c == '\U{1680}' || '\U{2000}' <= c <= '\U{200A}'
    || c == '\U{2028}' || c == '\U{2029}' || c == '\U{202F}' || c == '\U{205F}' || c == '\U{3000}'
  }

  function TrimLeft(s: string): string {
    if s != "" && IsSpace(s[0]) then TrimLeft(s[1..]) else s
  }

  function TrimRight(s: string): string {
    if s != "" && IsSpace(s[|s| - 1]) then TrimRight(s[..|s| - 1]) else s
  }

  /** strings.TrimSpace. */
  function Trim(s: string): string {
    TrimRight(TrimLeft(s))
  }

  /** Trimming from either side stops at the first character that is not a space, whatever lies beyond. */
  lemma {:induction false} TrimLeftStops(a: string, c: char, b: string)
    requires !IsSpace(c)
    ensures TrimLeft(a + [c] + b) == TrimLeft(a) + [c] + b
  {
    var s := a + [c] + b;
    if a != "" && IsSpace(a[0]) {
      assert s[1..] == a[1..] + [c] + b;
      TrimLeftStops(a[1..], c, b);
    }
  }

  lemma {:induction false} TrimRightStops(a: string, c: char, b: string)
    requires !IsSpace(c)
    ensures TrimRight(a + [c] + b) == a + [c] + TrimRight(b)
  {
    var s := a + [c] + b;
    if b != "" && IsSpace(b[|b| - 1]) {
      assert s[..|s| - 1] == a + [c] + b[..|b| - 1];
      TrimRightStops(a, c, b[..|b| - 1]);
    }
  }

  lemma TrimAround(a: string, c: char, b: string)
    requires !IsSpace(c)
    ensures Trim(a + [c] + b) == TrimLeft(a) + [c] + TrimRight(b)
  {
    TrimLeftStops(a, c, b);
    TrimRightStops(TrimLeft(a), c, b);
  }

  lemma {:induction false} TrimLeftFixed(s: string)
    ensures TrimLeft(TrimLeft(s)) == TrimLeft(s) && Trim(TrimLeft(s)) == Trim(s)
    ensures forall c :: Without(s, c) ==> Without(TrimLeft(s), c)
  {
    if s != "" && IsSpace(s[0]) {
      TrimLeftFixed(s[1..]);
    }
  }

  /** Trimming both ends commutes, so a part trimmed once on its outer side trims to the same text. */
  lemma {:induction false} TrimOfTrimRight(s: string)
    ensures Trim(TrimRight(s)) == Trim(s)
    ensures forall c :: Without(s, c) ==> Without(TrimRight(s), c)
    decreases |s|
  {
    if s != "" && IsSpace(s[|s| - 1]) {
      TrimOfTrimRight(s[..|s| - 1]);
      TrimDropsLast(s);
    }
  }

  lemma {:induction false} TrimDropsLast(s: string)
    requires s != "" && IsSpace(s[|s| - 1])
    ensures Trim(s[..|s| - 1]) == Trim(s)
  {
    if IsSpace(s[0]) {
      if |s| > 1 {
        TrimDropsLast(s[1..]);
        assert s[..|s| - 1][1..] == s[1..][..|s| - 2];
      }
    }
  }

  lemma {:induction false} TrimWithout(s: string, c: char)
    requires Without(s, c)
    ensures Without(Trim(s), c)
  {
    TrimLeftFixed(s);
    TrimOfTrimRight(TrimLeft(s));
  }

  ghost predicate Blank(s: string) {
    forall i :: 0 <= i < |s| ==> IsSpace(s[i])
  }

  /** Among the ASCII characters, the spaces are the blank and the five control characters from tab to carriage return. */
  lemma AsciiSpaces(c: char)
    requires c as int < 128
    ensures IsSpace(c) <==> c as int == 32 || 9 <= c as int <= 13
  {
  }

  lemma {:induction false} TrimLeftBlank(a: string, s: string)
    requires Blank(a)
    ensures TrimLeft(a + s) == TrimLeft(s)
  {
    if a == "" {
      assert a + s == s;
    } else {
      assert (a + s)[1..] == a[1..] + s;
      TrimLeftBlank(a[1..], s);
    }
  }

  lemma {:induction false} TrimRightBlank(s: string, b: string)
    requires Blank(b)
    ensures TrimRight(s + b) == TrimRight(s)
  {
    if b == "" {
      assert s + b == s;
    } else {
      assert (s + b)[..|s + b| - 1] == s + b[..|b| - 1];
      TrimRightBlank(s, b[..|b| - 1]);
    }
  }

  /** Trimming leaves no space at either end, and what it takes away from the left is spaces. */
  lemma {:induction false} TrimLeftEnds(s: string)
    ensures TrimLeft(s) == "" || !IsSpace(TrimLeft(s)[0])
    ensures |TrimLeft(s)| <= |s| && Blank(s[..|s| - |TrimLeft(s)|]) && s[|s| - |TrimLeft(s)|..] == TrimLeft(s)
  {
    if s != "" && IsSpace(s[0]) {
      TrimLeftEnds(s[1..]);
    }
  }

  lemma {:induction false} TrimRightEnds(s: string)
    ensures TrimRight(s) == "" || !IsSpace(TrimRight(s)[|TrimRight(s)| - 1])
    ensures |TrimRight(s)| <= |s| && s[..|TrimRight(s)|] == TrimRight(s) && Blank(s[|TrimRight(s)|..])
  {
    if s != "" && IsSpace(s[|s| - 1]) {
      TrimRightEnds(s[..|s| - 1]);
      var r := TrimRight(s);
      forall i | 0 <= i < |s| - |r| ensures IsSpace(s[|r|..][i]) {
        assert i < |s| - 1 - |r| ==> s[..|s| - 1][|r|..][i] == s[|r|..][i];
      }
    }
  }

  /** Spaces around a text make no difference, and a text without spaces at its ends is left alone. */
  lemma TrimSpaces(a: string, s: string, b: string)
    requires Blank(a) && Blank(b)
    ensures Trim(a + s + b) == Trim(s)
    ensures s == "" || (!IsSpace(s[0]) && !IsSpace(s[|s| - 1])) ==> Trim(s) == s
  {
    assert a + s + b == a + (s + b);
    TrimLeftBlank(a, s + b);
    TrimLeftEnds(s);
    var lead, t := s[..|s| - |TrimLeft(s)|], TrimLeft(s);
    assert s + b == lead + (t + b);
    TrimLeftBlank(lead, t + b);
    if t == "" {
      assert t + b == b;
      TrimLeftBlank(b, "");
      assert b + "" == b;
    } else {
      assert TrimLeft(t + b) == t + b;
      TrimRightBlank(t, b);
    }
  }

  lemma TrimEnds(s: string)
    ensures Trim(s) == "" || (!IsSpace(Trim(s)[0]) && !IsSpace(Trim(s)[|Trim(s)| - 1]))
  {
    TrimLeftEnds(s);
    TrimRightEnds(TrimLeft(s));
  }

  // ---------------------------------------------------------------- numerals

  const MAX_INT: int := 0x7FFF_FFFF_FFFF_FFFF

  predicate IsDigit(c: char) { '0' <= c <= '9' }

  predicate Digits(s: string) {
    forall i :: 0 <= i < |s| ==> IsDigit(s[i])
  }

  function Value(s: string): nat
    requires Digits(s)
  {
    if s == "" then 0 else 10 * Value(s[..|s| - 1]) + (s[|s| - 1] as int - '0' as int)
  }

  /** strconv.Atoi: an optional sign and decimal digits, within 64 bits. */
  function Atoi(s: string): Option<int> {
    var signed := s != "" && (s[0] == '+' || s[0] == '-');
    var digits := if signed then s[1..] else s;
    if digits == "" || !Digits(digits) then None else
    var n: int := if signed && s[0] == '-' then 0 - Value(digits) else Value(digits);
    if -MAX_INT - 1 <= n <= MAX_INT then Some(n) else None
  }

  function Itoa(n: nat): (s: string)
    ensures s != "" && Digits(s)
  {
    var last := ('0' as int + n % 10) as char;
    if n < 10 then [last] else Itoa(n / 10) + [last]
  }

  /** fmt's %d of an int. */
  function Decimal(n: int): string {
    if n < 0 then "-" + Itoa(-n) else Itoa(n)
  }

  lemma {:induction false} ValueOfItoa(n: nat)
    ensures Value(Itoa(n)) == n
  {
    var last := ('0' as int + n % 10) as char;
    if n < 10 {
      assert [last][..0] == "";
    } else {
      ValueOfItoa(n / 10);
      assert (Itoa(n / 10) + [last])[..|Itoa(n / 10)|] == Itoa(n / 10);
    }
  }

  lemma AtoiItoa(n: nat)
    requires n <= MAX_INT
    ensures Atoi(Itoa(n)) == Some(n)
  {
    ValueOfItoa(n);
    assert IsDigit(Itoa(n)[0]);
  }

  /** Numerals contain no separator, so no text with one inside is a number. */
  lemma NumeralChars(s: string, c: char)
    requires Atoi(s).Some? && !IsDigit(c) && c != '+' && c != '-'
    ensures Without(s, c)
  {
    var digits := if s[0] == '+' || s[0] == '-' then s[1..] else s;
    assert Digits(digits);
    forall i | 0 <= i < |s| ensures s[i] != c {
      if s[0] == '+' || s[0] == '-' {
        assert i > 0 ==> s[i] == digits[i - 1];
      }
    }
  }

  /** Signs and leading zeros. */
  lemma AtoiSigned(n: nat)
    ensures n <= MAX_INT ==> Atoi("+" + Itoa(n)) == Some(n)
    ensures n <= MAX_INT + 1 ==> Atoi("-" + Itoa(n)) == Some(0 - n)
  {
    ValueOfItoa(n);
    assert ("+" + Itoa(n))[1..] == Itoa(n) && ("-" + Itoa(n))[1..] == Itoa(n);
  }

  lemma {:induction false} LeadingZero(s: string)
    requires Digits(s)
    ensures Value("0" + s) == Value(s)
  {
    if s == "" {
      assert ("0" + s)[..0] == "";
    } else {
      assert ("0" + s)[..|s|] == "0" + s[..|s| - 1];
      LeadingZero(s[..|s| - 1]);
    }
  }
}
