/** Small datatypes and functions shared by every module. */
module Common {

  /** Record keys: order, draft, request, authorization and attempt identifiers. */
  type Id = string

  datatype Option<+T> = None | Some(value: T)

  function Max(a: int, b: int): int {
    if a < b then b else a
  }

  function LowerChar(c: char): char {
    if 'A' <= c <= 'Z' then 'a' + (c - 'A') else c
  }

  /** ASCII letters only. */
  function Lower(s: string): string {
    seq(|s|, i requires 0 <= i < |s| => LowerChar(s[i]))
  }

  /** The characters that Python's str.strip() removes. */
  predicate IsSpace(c: char) {
    || '\U{0009}' <= c <= '\U{000D}'
    || '\U{001C}' <= c <= '\U{0020}'
    || c == '\U{0085}' || c == '\U{00A0}' || c == '\U{1680}'
    || '\U{2000}' <= c <= '\U{200A}'
    || c == '\U{2028}' || c == '\U{2029}' || c == '\U{202F}' || c == '\U{205F}' || c == '\U{3000}'
  }

  function StripLeft(s: string): string {
    if s != "" && IsSpace(s[0]) then StripLeft(s[1..]) else s
  }

  function StripRight(s: string): string {
    if s != "" && IsSpace(s[|s| - 1]) then StripRight(s[..|s| - 1]) else s
  }

  function Strip(s: string): string {
    StripRight(StripLeft(s))
  }

  predicate Stripped(s: string) {
    s == "" || (!IsSpace(s[0]) && !IsSpace(s[|s| - 1]))
  }

  lemma {:induction false} StripRightKeepsHead(s: string)
    requires s == "" || !IsSpace(s[0])
    ensures Stripped(StripRight(s))
  {
    if s != "" && IsSpace(s[|s| - 1]) {
      StripRightKeepsHead(s[..|s| - 1]);
    }
  }

  lemma {:induction false} StripLeftTrims(s: string)
    ensures StripLeft(s) == "" || !IsSpace(StripLeft(s)[0])
  {
    if s != "" && IsSpace(s[0]) {
      StripLeftTrims(s[1..]);
    }
  }

  predicate Blank(s: string) {
    forall c <- s :: IsSpace(c)
  }

  lemma {:induction false} StripLeftDrops(s: string) returns (left: string)
    ensures Blank(left) && s == left + StripLeft(s)
  {
    if s != "" && IsSpace(s[0]) {
      var rest := StripLeftDrops(s[1..]);
      left := [s[0]] + rest;
      LeadBy(s[0], s[1..], rest, StripLeft(s[1..]));
      assert s == [s[0]] + s[1..];
    } else {
      left := "";
    }
  }

  lemma LeadBy(c: char, s: string, left: string, right: string)
    requires s == left + right
    ensures [c] + s == ([c] + left) + right
  {
  }

  lemma {:induction false} StripRightDrops(s: string) returns (right: string)
    ensures Blank(right) && s == StripRight(s) + right
  {
    if s != "" && IsSpace(s[|s| - 1]) {
      var rest := StripRightDrops(s[..|s| - 1]);
      right := rest + [s[|s| - 1]];
    } else {
      right := "";
    }
  }

  /** Stripping drops blanks at both ends and nothing else. */
  lemma StripDropsBlanks(s: string)
    ensures exists left: string, right: string :: Blank(left) && Blank(right) && s == left + Strip(s) + right
  {
    var left := StripLeftDrops(s);
    var right := StripRightDrops(StripLeft(s));
    assert s == left + Strip(s) + right;
  }

  /** So nothing is left exactly of a blank text. */
  lemma StripOfBlank(s: string)
    ensures Strip(s) == "" <==> Blank(s)
  {
    var left := StripLeftDrops(s);
    var right := StripRightDrops(StripLeft(s));
    StripIsIdempotent(s);
    var t := Strip(s);
    if t != "" {
      assert s[|left|] == t[0] && s[|left|] in s;
    }
  }

  /** Stripping leaves nothing to strip, and does nothing to a string with nothing to strip. */
  lemma StripIsIdempotent(s: string)
    ensures Stripped(Strip(s))
    ensures Stripped(s) ==> Strip(s) == s
  {
    StripLeftTrims(s);
    StripRightKeepsHead(StripLeft(s));
  }
}
