/** The few Go standard-library string routines the core relies on:
    `strings.TrimSpace`, the case mapping used by `strings.ToLower` /
    `strings.ToUpper` for the comparisons the core makes, `strconv.Atoi`,
    and Go's `<` on strings. */
module GoStrings {
  import opened Wrappers

  // ---------------------------------------------------------------------
  // Whitespace (Go's unicode.IsSpace) and strings.TrimSpace

  predicate IsSpace(c: char) {
    c == ' ' || c == '\t' || c == '\n' || c == '\U{000B}' || c == '\U{000C}' || c == '\r'
    || c == '\U{0085}' || c == '\U{00A0}' || c == '\U{1680}'
    || ('\U{2000}' <= c <= '\U{200A}')
    || c == '\U{2028}' || c == '\U{2029}' || c == '\U{202F}' || c == '\U{205F}' || c == '\U{3000}'
  }

  predicate AllSpace(s: string) {
    forall k :: 0 <= k < |s| ==> IsSpace(s[k])
  }

  /** The number of whitespace characters `s` starts with. */
  function LeadingSpace(s: string): (n: nat)
    ensures n <= |s|
    ensures forall k :: 0 <= k < n ==> IsSpace(s[k])
    ensures n == |s| || !IsSpace(s[n])
  {
    if s == [] || !IsSpace(s[0]) then 0
    else
      var n := LeadingSpace(s[1..]);
      assert forall k :: 1 <= k < n + 1 ==> s[k] == s[1..][k - 1];
      n + 1
  }

  /** The number of whitespace characters `s` ends with. */
  function TrailingSpace(s: string): (n: nat)
    ensures n <= |s|
    ensures forall k :: |s| - n <= k < |s| ==> IsSpace(s[k])
    ensures n == |s| || !IsSpace(s[|s| - n - 1])
  {
    if s == [] || !IsSpace(s[|s| - 1]) then 0
    else
      var n := TrailingSpace(s[..|s| - 1]);
      assert forall k :: |s| - 1 - n <= k < |s| - 1 ==> s[k] == s[..|s| - 1][k];
      n + 1
  }

  /** `strings.TrimSpace`: the result is a slice of `s` that neither starts
      nor ends with whitespace, and only whitespace was cut off on either
      side. */
  function TrimSpace(s: string): (r: string)
    ensures exists i, j :: 0 <= i <= j <= |s| && r == s[i..j]
                        && AllSpace(s[..i]) && AllSpace(s[j..])
    ensures r == [] || (!IsSpace(r[0]) && !IsSpace(r[|r| - 1]))
    ensures r == [] <==> AllSpace(s)
  {
    var i := LeadingSpace(s);
    var t := TrailingSpace(s[i..]);
    TrimSpaceSlice(s, i, t);
    s[i..|s| - t]
  }

  lemma TrimSpaceSlice(s: string, i: nat, t: nat)
    requires i <= |s| && (forall k :: 0 <= k < i ==> IsSpace(s[k])) && (i == |s| || !IsSpace(s[i]))
    requires t <= |s| - i && (forall k :: |s| - i - t <= k < |s| - i ==> IsSpace(s[i..][k]))
    requires t == |s| - i || !IsSpace(s[i..][|s| - i - t - 1])
    ensures var j := |s| - t;
            && AllSpace(s[..i]) && AllSpace(s[j..])
            && (s[i..j] == [] || (!IsSpace(s[i..j][0]) && !IsSpace(s[i..j][j - i - 1])))
            && (s[i..j] == [] <==> AllSpace(s))
  {
    var j := |s| - t;
    forall k | j <= k < |s| ensures IsSpace(s[k]) {
      assert s[k] == s[i..][k - i];
    }
    assert AllSpace(s[j..]);
    if i == |s| {
      assert s[..i] == s;
    } else {
      assert t < |s| - i;
      assert s[i..][|s| - i - t - 1] == s[j - 1];
      assert !AllSpace(s) by { assert !IsSpace(s[i]); }
    }
  }

  // ---------------------------------------------------------------------
  // Case mapping, restricted to what the comparisons in the core can see

  /** Go's simple lower-case mapping, for the result's ASCII letters:
      ASCII 'A'..'Z' lower to 'a'..'z'.  (The only other characters whose
      lower case is ASCII are U+0130 -> 'i' and U+212A -> 'k', which
      cannot take part in matching "http://" or "https://"; every other
      character is kept, standing in for its non-ASCII lower case.) */
  function LowerAscii(c: char): char {
    if 'A' <= c <= 'Z' then (c as int + 32) as char else c
  }

  /** Go's simple upper-case mapping, as far as results in ASCII go:
      'a'..'z', U+0131 (dotless i) -> 'I' and U+017F (long s) -> 'S'. */
  function UpperChar(c: char): char {
    if 'a' <= c <= 'z' then (c as int - 32) as char
    else if c == '\U{0131}' then 'I'
    else if c == '\U{017F}' then 'S'
    else c
  }

  function ToUpper(s: string): (r: string)
    ensures |r| == |s|
    ensures forall k :: 0 <= k < |s| ==> r[k] == UpperChar(s[k])
    ensures forall k :: 0 <= k < |r| ==> !('a' <= r[k] <= 'z')
  {
    seq(|s|, k requires 0 <= k < |s| => UpperChar(s[k]))
  }

  /** Upper-casing an upper-cased string changes nothing. */
  lemma ToUpperIdempotent(s: string)
    ensures ToUpper(ToUpper(s)) == ToUpper(s)
  {
  }

  /** `strings.HasPrefix(strings.ToLower(s), p)` for an all-lower-case
      ASCII prefix `p`. */
  predicate HasPrefixFold(s: string, p: string)
    ensures HasPrefixFold(s, p) ==> |p| <= |s|
    ensures ((forall k :: 0 <= k < |p| ==> !('A' <= p[k] <= 'Z')) && |p| <= |s| && s[..|p|] == p)
              ==> HasPrefixFold(s, p)
  {
    |p| <= |s| && forall k :: 0 <= k < |p| ==> LowerAscii(s[k]) == p[k]
  }

  // ---------------------------------------------------------------------
  // strconv.Atoi and its inverse strconv.Itoa (64-bit `int`)

  const MinInt: int := -0x8000_0000_0000_0000
  const MaxInt: int := 0x7FFF_FFFF_FFFF_FFFF

  predicate IsDigit(c: char) { '0' <= c <= '9' }

  predicate AllDigits(s: string) {
    forall k :: 0 <= k < |s| ==> IsDigit(s[k])
  }

  /** The value of a string of decimal digits, read left to right. */
  function DigitsValue(s: string): nat
    requires AllDigits(s)
  {
    if s == [] then 0
    else DigitsValue(s[..|s| - 1]) * 10 + (s[|s| - 1] as int - '0' as int)
  }

  /** What follows an optional leading '+' or '-'. */
  function Unsigned(s: string): string
    requires s != []
  {
    if s[0] == '-' || s[0] == '+' then s[1..] else s
  }

  /** The syntax `strconv.Atoi` accepts: an optional sign and at least one
      decimal digit. */
  predicate WellFormedInt(s: string)
  {
    s != [] && Unsigned(s) != [] && AllDigits(Unsigned(s))
  }

  /** The mathematical value of a well-formed decimal string. */
  function SignedValue(s: string): int
    requires WellFormedInt(s)
  {
    var d: int := DigitsValue(Unsigned(s));
    if s[0] == '-' then -d else d
  }

  /** `strconv.Atoi`: an optional '+' or '-' followed by at least one
      decimal digit, whose value fits a 64-bit int; anything else is an
      error (syntax or range). */
  function Atoi(s: string): (r: Option<int>)
    ensures r.Some? ==> MinInt <= r.value <= MaxInt
    ensures r.Some? <==> WellFormedInt(s) && MinInt <= SignedValue(s) <= MaxInt
    ensures r.Some? ==> r.value == SignedValue(s)
  {
    if s == [] then None
    else
      var neg := s[0] == '-';
      var body := if s[0] == '-' || s[0] == '+' then s[1..] else s;
      if body == [] || !AllDigits(body) then None
      else
        var d: int := DigitsValue(body);
        var v := if neg then -d else d;
        if MinInt <= v <= MaxInt then Some(v) else None
  }

  function DigitChar(d: nat): char
    requires d < 10
  {
    ('0' as int + d) as char
  }

  /** The decimal digits of `n`, without leading zeros (`strconv.Itoa`
      for a non-negative number). */
  function Digits(n: nat): (s: string)
    ensures |s| > 0 && AllDigits(s)
  {
    if n < 10 then [DigitChar(n)] else Digits(n / 10) + [DigitChar(n % 10)]
  }

  /** `strconv.Itoa`, which is also how a form renders an integer field. */
  function Itoa(v: int): (r: string)
    ensures r != [] && (r[0] == '-' <==> v < 0)
    ensures AllDigits(if v < 0 then r[1..] else r)
  {
    if v < 0 then "-" + Digits(-v) else Digits(v)
  }

  lemma {:induction false} DigitsValueOfDigits(n: nat)
    ensures DigitsValue(Digits(n)) == n
  {
    var s := Digits(n);
    if n >= 10 {
      DigitsValueOfDigits(n / 10);
      assert s[..|s| - 1] == Digits(n / 10);
    }
  }

  /** Parsing what Itoa printed gives the number back. */
  lemma AtoiItoa(v: int)
    requires MinInt <= v <= MaxInt
    ensures Atoi(Itoa(v)) == Some(v)
  {
    var s := Itoa(v);
    if v < 0 {
      DigitsValueOfDigits(-v);
      assert s[0] == '-' && s[1..] == Digits(-v);
      assert AllDigits(s[1..]) && DigitsValue(s[1..]) == -v;
    } else {
      DigitsValueOfDigits(v);
      assert s == Digits(v) && IsDigit(s[0]);
      assert s[0] != '-' && s[0] != '+';
    }
  }

  /** Signs are optional, "-0" is zero, and a sign alone is not a number. */
  lemma AtoiSigns()
    ensures Atoi("+5") == Some(5) && Atoi("-0") == Some(0) && Atoi("07") == Some(7)
    ensures Atoi("+") == None && Atoi("-") == None && Atoi("+-1") == None && Atoi(" 1") == None
  {
    assert "+5"[1..] == "5" && "-0"[1..] == "0" && "07"[..1] == "0";
    assert "+-1"[1..] == "-1" && !IsDigit("-1"[0]) && !IsDigit(" 1"[0]);
  }

  /** A decimal string whose value leaves the 64-bit range is rejected. */
  lemma AtoiRejectsOutOfRange(v: int)
    requires v < MinInt || MaxInt < v
    ensures Atoi(Itoa(v)) == None
  {
    var s := Itoa(v);
    if v < 0 {
      DigitsValueOfDigits(-v);
      assert s[0] == '-' && s[1..] == Digits(-v);
    } else {
      DigitsValueOfDigits(v);
      assert s == Digits(v) && IsDigit(s[0]);
    }
  }

  // ---------------------------------------------------------------------
  // Go's `<` on strings: lexicographic by bytes, which on valid UTF-8 is
  // the same as lexicographic by code points.

  predicate StrLess(a: string, b: string)
  {
    if b == [] then false
    else if a == [] then true
    else if a[0] != b[0] then a[0] < b[0]
    else StrLess(a[1..], b[1..])
  }

  lemma {:induction false} StrLessIrreflexive(a: string)
    ensures !StrLess(a, a)
  {
    if a != [] { StrLessIrreflexive(a[1..]); }
  }

  lemma {:induction false} StrLessTransitive(a: string, b: string, c: string)
    requires StrLess(a, b) && StrLess(b, c)
    ensures StrLess(a, c)
  {
    if a != [] && a[0] == b[0] && b[0] == c[0] {
      StrLessTransitive(a[1..], b[1..], c[1..]);
    }
  }

  /** At most one of two strings is below the other. */
  lemma StrLessAsymmetric(a: string, b: string)
    ensures StrLess(a, b) ==> !StrLess(b, a)
  {
    if StrLess(a, b) && StrLess(b, a) {
      StrLessTransitive(a, b, a);
      StrLessIrreflexive(a);
    }
  }

  /** Any two different strings are ordered one way or the other. */
  lemma {:induction false} StrLessTotal(a: string, b: string)
    requires a != b
    ensures StrLess(a, b) || StrLess(b, a)
  {
    if a != [] && b != [] && a[0] == b[0] {
      assert a == [a[0]] + a[1..] && b == [b[0]] + b[1..];
      StrLessTotal(a[1..], b[1..]);
    }
  }
}
