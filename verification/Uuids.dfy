/** How Python reads a UUID from text, and the one text it prints for it. */
module Uuids {
  import opened Common

  // ---------- Reading ----------

  function DigitValue(c: char): Option<nat> {
    if '0' <= c <= '9' then Some(c as int - '0' as int)
    else if 'a' <= c <= 'f' then Some(c as int - 'a' as int + 10)
    else if 'A' <= c <= 'F' then Some(c as int - 'A' as int + 10)
    else None
  }

  /** Hexadecimal digits, with single underscores allowed between them. */
  function DigitsValue(s: string, sum: nat, afterDigit: bool): Option<nat> {
    if s == "" then if afterDigit then Some(sum) else None
    else if s[0] == '_' then if afterDigit then DigitsValue(s[1..], sum, false) else None
    else if DigitValue(s[0]).None? then None
    else DigitsValue(s[1..], sum * 16 + DigitValue(s[0]).value, true)
  }

  /** int(s, 16) on ASCII text: surrounding space, a sign and a 0x prefix are tolerated. */
  function IntBase16(s: string): Option<int> {
    var t := Strip(s);
    var negative := t != "" && t[0] == '-';
    var unsigned := if t != "" && (t[0] == '-' || t[0] == '+') then t[1..] else t;
    var digits := if |unsigned| >= 2 && unsigned[0] == '0' && (unsigned[1] == 'x' || unsigned[1] == 'X')
                  then if |unsigned| > 2 && unsigned[2] == '_' then unsigned[3..] else unsigned[2..]
                  else unsigned;
    var n := DigitsValue(digits, 0, false);
    if n.None? then None else if negative then Some(0 - n.value) else Some(n.value)
  }

  /** s with every occurrence of the pattern removed, left to right. */
  function Without(s: string, pattern: string): string
    requires pattern != ""
    decreases |s|
  {
    if |s| < |pattern| then s
    else if s[..|pattern|] == pattern then Without(s[|pattern|..], pattern)
    else [s[0]] + Without(s[1..], pattern)
  }

  predicate IsBrace(c: char) {
    c == '{' || c == '}'
  }

  function StripBraces(s: string): string {
    if s != "" && IsBrace(s[0]) then StripBraces(s[1..])
    else if s != "" && IsBrace(s[|s| - 1]) then StripBraces(s[..|s| - 1])
    else s
  }

  function Bare(s: string): string {
    Without(StripBraces(Without(Without(s, "urn:"), "uuid:")), "-")
  }

  /** The number UUID(s) stands for; None for its ValueError. */
  function ParseUuid(s: string): Option<nat> {
    var hex := Bare(s);
    if |hex| != 32 then None
    else
      var n := IntBase16(hex);
      if n.None? || n.value < 0 || n.value >= Pow16(32) then None else Some(n.value)
  }

  // ---------- Printing ----------

  function Pow16(n: nat): nat {
    if n == 0 then 1 else 16 * Pow16(n - 1)
  }

  function HexDigit(n: nat): char
    requires n < 16
  {
    "0123456789abcdef"[n]
  }

  function PrintHex(n: nat, width: nat): (s: string)
    requires n < Pow16(width)
    ensures |s| == width
    ensures forall c <- s :: DigitValue(c).Some?
  {
    if width == 0 then ""
    else
      Leading(n, Pow16(width - 1));
      [HexDigit(n / Pow16(width - 1))] + PrintHex(n % Pow16(width - 1), width - 1)
  }

  lemma Leading(n: nat, p: nat)
    requires n < 16 * p
    ensures p > 0 && n / p < 16 && n % p < p && n == (n / p) * p + n % p
  {
    var q := n / p;
    assert n == p * q + n % p;
    assert (q - 16) * p == q * p - 16 * p;
    SignOfProduct(q - 16, p);
  }

  lemma SignOfProduct(x: int, y: int)
    requires y > 0
    ensures x >= 0 ==> x * y >= 0
  {
  }

  function PrintUuid(n: nat): (s: string)
    requires n < Pow16(32)
    ensures |s| == 36
  {
    Hyphenate(PrintHex(n, 32))
  }

  function Hyphenate(h: string): string
    requires |h| == 32
  {
    h[..8] + "-" + h[8..12] + "-" + h[12..16] + "-" + h[16..20] + "-" + h[20..]
  }

  // ---------- Round trip ----------

  lemma HexDigitValue(d: nat)
    requires d < 16
    ensures DigitValue(HexDigit(d)) == Some(d) && HexDigit(d) != '_'
  {
  }

  lemma TakeDigit(c: char, rest: string, sum: nat, afterDigit: bool)
    requires DigitValue(c).Some?
    ensures DigitsValue([c] + rest, sum, afterDigit) == DigitsValue(rest, sum * 16 + DigitValue(c).value, true)
  {
    assert ([c] + rest)[1..] == rest;
  }

  lemma PrintHexUnits(n: nat)
    requires n < Pow16(0)
    ensures n == 0 && PrintHex(n, 0) == ""
  {
  }

  /** The first digit and what follows it. */
  lemma SplitHex(n: nat, width: nat) returns (q: nat, r: nat)
    requires n < Pow16(width) && width > 0
    ensures q < 16 && r < Pow16(width - 1) && n == q * Pow16(width - 1) + r
    ensures PrintHex(n, width) == [HexDigit(q)] + PrintHex(r, width - 1)
  {
    hide HexDigit;
    Leading(n, Pow16(width - 1));
    q, r := n / Pow16(width - 1), n % Pow16(width - 1);
  }

  lemma {:induction false} DigitsOfPrintHex(n: nat, width: nat, sum: nat, afterDigit: bool)
    requires n < Pow16(width) && (width > 0 || afterDigit)
    ensures DigitsValue(PrintHex(n, width), sum, afterDigit) == Some(sum * Pow16(width) + n)
    decreases width
  {
    hide DigitValue, HexDigit, PrintHex;
    if width == 0 {
      PrintHexUnits(n);
    } else {
      hide DigitsValue;
      var p := Pow16(width - 1);
      var q, r := SplitHex(n, width);
      HexDigitValue(q);
      TakeDigit(HexDigit(q), PrintHex(r, width - 1), sum, afterDigit);
      DigitsOfPrintHex(r, width - 1, sum * 16 + q, true);
      Horner(sum, q, p, r);
    }
  }

  lemma Horner(sum: nat, q: nat, p: nat, r: nat)
    ensures (sum * 16 + q) * p + r == sum * (16 * p) + (q * p + r)
  {
  }

  lemma {:induction false} WithoutNothing(s: string, pattern: string)
    requires pattern != "" && pattern[0] !in s
    ensures Without(s, pattern) == s
    decreases |s|
  {
    if |s| >= |pattern| {
      assert s[..|pattern|][0] == s[0] && s[0] in s;
      WithoutNothing(s[1..], pattern);
    }
  }

  lemma {:induction false} WithoutHyphens(a: string, b: string)
    requires '-' !in a
    ensures Without(a + "-" + b, "-") == a + Without(b, "-")
    decreases |a|
  {
    var s := a + "-" + b;
    if a == "" {
      assert s[..1] == "-" && s[1..] == b;
    } else {
      assert s[..1][0] == a[0] && a[0] in a && s[1..] == a[1..] + "-" + b;
      WithoutHyphens(a[1..], b);
    }
  }

  lemma BareOfHyphenated(h: string)
    requires |h| == 32 && forall c <- h :: DigitValue(c).Some?
    ensures Bare(Hyphenate(h)) == h
  {
    var s := Hyphenate(h);
    assert forall c <- s :: c == '-' || DigitValue(c).Some?;
    WithoutNothing(s, "urn:");
    WithoutNothing(s, "uuid:");
    assert s[0] in s && s[35] in s && s[0] == h[0] && s[35] == h[31];
    assert StripBraces(s) == s;
    BareParts(h);
  }

  lemma BareParts(h: string)
    requires |h| == 32 && '-' !in h
    ensures Without(Hyphenate(h), "-") == h
  {
    hide Without;
    var s := Hyphenate(h);
    assert forall c <- h :: c != '-';
    var e, d, c, b := h[20..], h[16..20], h[12..16], h[8..12];
    assert '-' !in h[..8] && '-' !in b && '-' !in c && '-' !in d && '-' !in e;
    assert s == h[..8] + "-" + (b + "-" + (c + "-" + (d + "-" + e)));
    WithoutHyphens(h[..8], b + "-" + (c + "-" + (d + "-" + e)));
    WithoutHyphens(b, c + "-" + (d + "-" + e));
    WithoutHyphens(c, d + "-" + e);
    WithoutHyphens(d, e);
    WithoutNothing(e, "-");
    assert h == h[..8] + (b + (c + (d + e)));
  }

  lemma HexIsItsDigits(h: string)
    requires |h| == 32 && forall c <- h :: DigitValue(c).Some?
    ensures IntBase16(h) == match DigitsValue(h, 0, false) case None => None case Some(n) => Some(n)
  {
    assert h[0] in h && h[1] in h && h[31] in h;
    StripIsIdempotent(h);
    assert Strip(h) == h;
  }

  /** Printing then reading gives the same UUID, so reading and printing twice is the same as once. */
  lemma UuidRoundTrip(n: nat)
    requires n < Pow16(32)
    ensures ParseUuid(PrintUuid(n)) == Some(n)
  {
    var h := PrintHex(n, 32);
    hide Bare, IntBase16, Pow16, PrintHex, Hyphenate;
    BareOfHyphenated(h);
    HexIsItsDigits(h);
    DigitsOfPrintHex(n, 32, 0, false);
  }
}
