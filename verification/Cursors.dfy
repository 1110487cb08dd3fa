/** The opaque tokens that carry a listing's cursor: JSON text in base64url without its padding
    (RFC 4648, sections 5 and 3.2). */
module Cursors {
  import opened Common
  import opened Uuids
  import opened EventCodec

  type Byte = n: int | 0 <= n < 256
  type Sextet = n: int | 0 <= n < 64

  // ---------- base64url ----------

  function Digits(b: seq<Byte>): seq<Sextet> {
    if b == [] then []
    else if |b| == 1 then [b[0] / 4, b[0] % 4 * 16]
    else if |b| == 2 then [b[0] / 4, b[0] % 4 * 16 + b[1] / 16, b[1] % 16 * 4]
    else [b[0] / 4, b[0] % 4 * 16 + b[1] / 16, b[1] % 16 * 4 + b[2] / 64, b[2] % 64] + Digits(b[3..])
  }

  /** None when one digit is left over. Bits beyond the last whole byte are ignored. */
  function Undigits(d: seq<Sextet>): Option<seq<Byte>> {
    if d == [] then Some([])
    else if |d| == 1 then None
    else if |d| == 2 then Some([First(d[0], d[1])])
    else if |d| == 3 then Some([First(d[0], d[1]), Second(d[1], d[2])])
    else
      var rest := Undigits(d[4..]);
      if rest.None? then None
      else Some([First(d[0], d[1]), Second(d[1], d[2]), Third(d[2], d[3])] + rest.value)
  }

  function First(a: Sextet, b: Sextet): Byte {
    a as int * 4 + b as int / 16
  }

  function Second(b: Sextet, c: Sextet): Byte {
    b as int % 16 * 16 + c as int / 4
  }

  function Third(c: Sextet, d: Sextet): Byte {
    c as int % 4 * 64 + d as int
  }

  function DigitChar(n: Sextet): char {
    if n < 26 then 'A' + n as char
    else if n < 52 then 'a' + (n - 26) as char
    else if n < 62 then '0' + (n - 52) as char
    else if n == 62 then '-' else '_'
  }

  function CharDigit(c: char): Option<Sextet> {
    if 'A' <= c <= 'Z' then Some(c as int - 'A' as int)
    else if 'a' <= c <= 'z' then Some(c as int - 'a' as int + 26)
    else if '0' <= c <= '9' then Some(c as int - '0' as int + 52)
    else if c == '-' then Some(62)
    else if c == '_' then Some(63)
    else None
  }

  function Chars(d: seq<Sextet>): (s: string)
    ensures |s| == |d|
  {
    if d == [] then "" else [DigitChar(d[0])] + Chars(d[1..])
  }

  /** None for a character outside the alphabet. */
  function Values(s: string): (d: Option<seq<Sextet>>)
    ensures d.Some? ==> |d.value| == |s|
  {
    if s == "" then Some([])
    else
      var rest := Values(s[1..]);
      if CharDigit(s[0]).None? || rest.None? then None else Some([CharDigit(s[0]).value] + rest.value)
  }

  function Equals(n: nat): (s: string)
    ensures |s| == n
  {
    if n == 0 then "" else "=" + Equals(n - 1)
  }

  function PadLength(n: nat): nat {
    (4 - n % 4) % 4
  }

  /** The padded form: always a whole number of four-character groups. */
  function Padded(b: seq<Byte>): string {
    Chars(Digits(b)) + Equals(PadLength(|Digits(b)|))
  }

  function RightStripped(s: string): string {
    if s != "" && s[|s| - 1] == '=' then RightStripped(s[..|s| - 1]) else s
  }

  /** What padded text decodes to: digits, then as many '=' as complete the last group. */
  function DecodePadded(digits: string, padding: nat): Option<seq<Byte>> {
    if Values(digits).None? || PadLength(|digits|) != padding then None else Undigits(Values(digits).value)
  }

  function EncodeToken(b: seq<Byte>): string {
    RightStripped(Padded(b))
  }

  const TOKEN_LIMIT := 2048

  function DecodeToken(token: string): Option<seq<Byte>> {
    if !(1 <= |token| <= TOKEN_LIMIT) || Values(token).None? then None
    else DecodePadded(token, PadLength(|token|))
  }

  lemma FirstByte(a: Byte, b: int)
    requires 0 <= b < 16
    ensures First(a / 4, a % 4 * 16 + b) == a
  {
  }

  lemma SecondByte(a: int, b: Byte, c: int)
    requires 0 <= a < 4 && 0 <= c < 4
    ensures Second(a * 16 + b / 16, b % 16 * 4 + c) == b
  {
  }

  lemma ThirdByte(b: int, c: Byte)
    requires 0 <= b < 16
    ensures Third(b * 4 + c / 64, c % 64) == c
  {
  }

  lemma {:induction false} DigitsRoundTrip(b: seq<Byte>)
    ensures Undigits(Digits(b)) == Some(b)
  {
    hide First, Second, Third;
    if |b| >= 3 {
      DigitsRoundTrip(b[3..]);
      FirstByte(b[0], b[1] / 16);
      SecondByte(b[0] % 4, b[1], b[2] / 64);
      ThirdByte(b[1] % 16, b[2]);
      assert Digits(b)[4..] == Digits(b[3..]);
      assert b == [b[0], b[1], b[2]] + b[3..];
    } else if |b| == 2 {
      FirstByte(b[0], b[1] / 16);
      SecondByte(b[0] % 4, b[1], 0);
      assert b == [b[0], b[1]];
    } else if |b| == 1 {
      FirstByte(b[0], 0);
      assert b == [b[0]];
    }
  }

  lemma {:induction false} CharsRoundTrip(d: seq<Sextet>)
    ensures Values(Chars(d)) == Some(d)
    ensures '=' !in Chars(d)
  {
    if d != [] {
      CharsRoundTrip(d[1..]);
      assert Chars(d)[1..] == Chars(d[1..]);
      assert d == [d[0]] + d[1..];
    }
  }

  lemma {:induction false} StripEquals(s: string, n: nat)
    requires '=' !in s
    ensures RightStripped(s + Equals(n)) == s
    decreases n
  {
    if n == 0 {
      assert s + Equals(0) == s;
      assert s != "" ==> s[|s| - 1] in s;
    } else {
      EqualsEnds(n);
      assert (s + Equals(n))[..|s| + n - 1] == s + Equals(n - 1);
      StripEquals(s, n - 1);
    }
  }

  lemma {:induction false} EqualsEnds(n: nat)
    requires n > 0
    ensures Equals(n) == Equals(n - 1) + "="
  {
    if n > 1 {
      EqualsEnds(n - 1);
    }
  }

  lemma {:induction false} DigitsLength(b: seq<Byte>)
    ensures |Digits(b)| == (4 * |b| + 2) / 3
  {
    if |b| >= 3 {
      DigitsLength(b[3..]);
    }
  }

  /** Stripping the padding loses nothing: restoring it gives the padded text back, and within the limit
      the token decodes to the very bytes. Its length is four thirds of theirs, rounded up. */
  lemma TokenRoundTrip(b: seq<Byte>)
    ensures var token := EncodeToken(b);
            && token + Equals(PadLength(|token|)) == Padded(b)
            && |token| == (4 * |b| + 2) / 3
            && (DecodeToken(token) == if 1 <= |token| <= TOKEN_LIMIT then Some(b) else None)
  {
    var d := Digits(b);
    hide Digits, Undigits, Chars, Values, RightStripped, Equals;
    CharsRoundTrip(d);
    StripEquals(Chars(d), PadLength(|d|));
    DigitsRoundTrip(b);
    DigitsLength(b);
  }

  // ---------- JSON text ----------

  predicate Ascii(s: string) {
    forall c <- s :: c < '\U{0080}'
  }

  function CodeUnit(n: nat): (s: string)
    requires n < 0x10000
    ensures Ascii(s) && |s| == 6
  {
    assert Pow16(4) == 0x10000;
    "\\u" + PrintHex(n, 4)
  }

  /** A character in an ASCII JSON text. */
  function Escaped(c: char): (s: string)
    ensures |s| == EscapedSize(c) && Ascii(s)
  {
    if c == '"' then "\\\""
    else if c == '\\' then "\\\\"
    else if c == '\U{0008}' then "\\b"
    else if c == '\U{0009}' then "\\t"
    else if c == '\U{000A}' then "\\n"
    else if c == '\U{000C}' then "\\f"
    else if c == '\U{000D}' then "\\r"
    else if ' ' <= c <= '\U{007E}' then [c]
    else if c < '\U{10000}' then CodeUnit(c as int)
    else CodeUnit(0xD800 + (c as int - 0x10000) / 0x400) + CodeUnit(0xDC00 + (c as int - 0x10000) % 0x400)
  }

  function Quoted(s: string): (q: string)
    ensures |q| == TextSize(s) + 2 && Ascii(q)
  {
    "\"" + EscapedText(s) + "\""
  }

  function EscapedText(s: string): (e: string)
    ensures |e| == TextSize(s) && Ascii(e)
  {
    if s == "" then "" else Escaped(s[0]) + EscapedText(s[1..])
  }

  /** The payload of a cursor token. */
  datatype Payload = Payload(version: int, kind: string, createdAt: string, orderId: string, digest: string)

  function FromOrderId(p: Payload): (s: string)
    ensures Ascii(s)
  {
    ",\"order_id\":" + (Quoted(p.orderId) + ",\"v\":1}")
  }

  function FromKind(p: Payload): (s: string)
    ensures Ascii(s)
  {
    ",\"kind\":" + (Quoted(p.kind) + FromOrderId(p))
  }

  function FromDigest(p: Payload): (s: string)
    ensures Ascii(s)
  {
    ",\"filter_digest\":" + (Quoted(p.digest) + FromKind(p))
  }

  /** The fields by name, without spaces. */
  function Dumps(p: Payload): (s: string)
    ensures Ascii(s)
  {
    "{\"created_at\":" + (Quoted(p.createdAt) + FromDigest(p))
  }

  lemma CodeUnitsDiffer(n: nat, m: nat)
    requires n < 0x10000 && m < 0x10000 && CodeUnit(n) == CodeUnit(m)
    ensures n == m
  {
    assert Pow16(4) == 0x10000;
    assert CodeUnit(n)[2..] == PrintHex(n, 4) && CodeUnit(m)[2..] == PrintHex(m, 4);
    hide PrintHex, DigitsValue, Pow16;
    DigitsOfPrintHex(n, 4, 0, false);
    DigitsOfPrintHex(m, 4, 0, false);
  }

  /** The units of a character outside the basic plane. */
  function High(c: char): nat
    requires c >= '\U{10000}'
    ensures 0xD800 <= High(c) < 0xDC00
  {
    0xD800 + (c as int - 0x10000) / 0x400
  }

  function Low(c: char): nat
    requires c >= '\U{10000}'
    ensures 0xDC00 <= Low(c) < 0xE000
  {
    0xDC00 + (c as int - 0x10000) % 0x400
  }

  predicate InUnits(c: char) {
    EscapedSize(c) >= 6
  }

  function FirstUnit(c: char): (n: nat)
    requires InUnits(c)
    ensures n < 0x10000 && (0xD800 <= n < 0xE000 <==> c >= '\U{10000}')
  {
    if c < '\U{10000}' then c as int else High(c)
  }

  lemma UnitsOf(c: char)
    requires InUnits(c)
    ensures c < '\U{10000}' ==> Escaped(c) == CodeUnit(c as int)
    ensures c >= '\U{10000}' ==> Escaped(c) == CodeUnit(High(c)) + CodeUnit(Low(c))
    ensures Escaped(c)[..6] == CodeUnit(FirstUnit(c))
  {
  }

  lemma SameUnitsSameChar(c: char, d: char, x: string, y: string)
    requires InUnits(c) && InUnits(d) && Escaped(c) + x == Escaped(d) + y
    ensures c == d
  {
    UnitsOf(c);
    UnitsOf(d);
    hide CodeUnit, EscapedSize, Escaped;
    assert (Escaped(c) + x)[..6] == Escaped(c)[..6] && (Escaped(d) + y)[..6] == Escaped(d)[..6];
    CodeUnitsDiffer(FirstUnit(c), FirstUnit(d));
    if c >= '\U{10000}' {
      assert (Escaped(c) + x)[6..12] == CodeUnit(Low(c)) && (Escaped(d) + y)[6..12] == CodeUnit(Low(d));
      CodeUnitsDiffer(Low(c), Low(d));
      assert c as int - 0x10000 == 0x400 * (High(c) - 0xD800) + (Low(c) - 0xDC00);
      assert d as int - 0x10000 == 0x400 * (High(d) - 0xD800) + (Low(d) - 0xDC00);
    }
  }

  /** No escaped character starts with a quote, and what follows one is determined. */
  lemma EscapedIsUnambiguous(c: char, d: char, x: string, y: string)
    requires Escaped(c) + x == Escaped(d) + y
    ensures c == d && x == y
  {
    var s := Escaped(c) + x;
    if InUnits(c) && InUnits(d) {
      SameUnitsSameChar(c, d, x, y);
    } else {
      ShortEscapes(c);
      ShortEscapes(d);
      assert s[0] == Escaped(c)[0] == Escaped(d)[0];
      if s[0] == '\\' {
        assert s[1] == Escaped(c)[1] == Escaped(d)[1];
      }
    }
    assert x == s[|Escaped(c)|..] && y == s[|Escaped(d)|..];
  }

  /** How an escape that is not a code unit looks, and that a code unit looks different. */
  lemma ShortEscapes(c: char)
    ensures Escaped(c) != "" && Escaped(c)[0] != '"'
    ensures InUnits(c) ==> Escaped(c)[0] == '\\' && Escaped(c)[1] == 'u'
    ensures !InUnits(c) && Escaped(c)[0] == '\\' ==> Escaped(c)[1] != 'u' && |Escaped(c)| == 2
    ensures !InUnits(c) && Escaped(c)[0] != '\\' ==> Escaped(c) == [c]
  {
    if InUnits(c) {
      UnitsOf(c);
    }
  }

  lemma StartsWithQuote(s: string, x: string)
    ensures (EscapedText(s) + "\"" + x)[0] == '"' <==> s == ""
  {
    hide Escaped;
    if s != "" {
      ShortEscapes(s[0]);
      assert EscapedText(s)[0] == Escaped(s[0])[0];
    }
  }

  lemma {:induction false} TextIsUnambiguous(s: string, t: string, x: string, y: string)
    requires EscapedText(s) + "\"" + x == EscapedText(t) + "\"" + y
    ensures s == t && x == y
    decreases |s|
  {
    hide Escaped;
    var all := EscapedText(s) + "\"" + x;
    StartsWithQuote(s, x);
    StartsWithQuote(t, y);
    if s == "" {
      assert x == all[1..] && y == all[1..];
    } else {
      var restS, restT := EscapedText(s[1..]) + "\"" + x, EscapedText(t[1..]) + "\"" + y;
      assert all == Escaped(s[0]) + restS && all == Escaped(t[0]) + restT;
      EscapedIsUnambiguous(s[0], t[0], restS, restT);
      TextIsUnambiguous(s[1..], t[1..], x, y);
      assert s == [s[0]] + s[1..] && t == [t[0]] + t[1..];
    }
  }

  lemma QuotedIsUnambiguous(s: string, t: string, x: string, y: string)
    requires Quoted(s) + x == Quoted(t) + y
    ensures s == t && x == y
  {
    hide EscapedText;
    assert (Quoted(s) + x)[1..] == EscapedText(s) + "\"" + x;
    assert (Quoted(t) + y)[1..] == EscapedText(t) + "\"" + y;
    TextIsUnambiguous(s, t, x, y);
  }

  lemma SamePrefix(prefix: string, x: string, y: string)
    requires prefix + x == prefix + y
    ensures x == y
  {
    assert x == (prefix + x)[|prefix|..] && y == (prefix + y)[|prefix|..];
  }

  /** The JSON text determines the payload, so a parser that reads back every cursor exists. */
  lemma DumpsIsUnambiguous(p: Payload, q: Payload)
    requires Dumps(p) == Dumps(q) && p.version == q.version
    ensures p == q
  {
    hide Quoted;
    SamePrefix("{\"created_at\":", Quoted(p.createdAt) + FromDigest(p), Quoted(q.createdAt) + FromDigest(q));
    QuotedIsUnambiguous(p.createdAt, q.createdAt, FromDigest(p), FromDigest(q));
    SamePrefix(",\"filter_digest\":", Quoted(p.digest) + FromKind(p), Quoted(q.digest) + FromKind(q));
    QuotedIsUnambiguous(p.digest, q.digest, FromKind(p), FromKind(q));
    SamePrefix(",\"kind\":", Quoted(p.kind) + FromOrderId(p), Quoted(q.kind) + FromOrderId(q));
    QuotedIsUnambiguous(p.kind, q.kind, FromOrderId(p), FromOrderId(q));
    SamePrefix(",\"order_id\":", Quoted(p.orderId) + ",\"v\":1}", Quoted(q.orderId) + ",\"v\":1}");
    QuotedIsUnambiguous(p.orderId, q.orderId, ",\"v\":1}", ",\"v\":1}");
  }

  function AsBytes(s: string): (b: seq<Byte>)
    requires Ascii(s)
    ensures |b| == |s|
  {
    if s == "" then []
    else
      assert s[0] in s && forall c <- s[1..] :: c in s;
      [s[0] as int] + AsBytes(s[1..])
  }

  // ---------- Order cursors ----------

  /** A time from outside: its UTC instant and its offset, or no zone at all. */
  datatype Moment = Zoned(at: int, offset: int) | Unzoned

  datatype Cursor = Cursor(createdAt: Moment, orderId: string, digest: string)

  const MAX_ID := 128

  function CursorPayload(c: Cursor, show: int -> string): Payload
    requires c.createdAt.Zoned?
  {
    Payload(1, "orders", show(c.createdAt.at), c.orderId, c.digest)
  }

  /** None for a time without a zone. `show` prints a UTC instant. */
  function EncodeCursor(c: Cursor, show: int -> string): Option<string> {
    if c.createdAt.Unzoned? then None else Some(EncodeToken(AsBytes(Dumps(CursorPayload(c, show)))))
  }

  /** `loads` parses the JSON text, `read` parses a printed time, `expected` is the digest of the filters
      and the limit of the request at hand. */
  function DecodeCursor(token: string, expected: string, loads: seq<Byte> -> Option<Payload>,
                        read: string -> Option<Moment>): Option<Cursor> {
    var raw := DecodeToken(token);
    if raw.None? then None
    else
      var p := loads(raw.value);
      if p.None? || p.value.kind != "orders" || p.value.version != 1 || p.value.digest != expected then None
      else
        var at := read(p.value.createdAt);
        if at.None? || at.value.Unzoned? || !(1 <= |p.value.orderId| <= MAX_ID) then None
        else Some(Cursor(at.value, p.value.orderId, p.value.digest))
  }

  /** The parsers read back what was printed for this cursor. */
  ghost predicate ReadsBack(c: Cursor, show: int -> string, loads: seq<Byte> -> Option<Payload>,
                            read: string -> Option<Moment>)
    requires c.createdAt.Zoned?
  {
    && loads(AsBytes(Dumps(CursorPayload(c, show)))) == Some(CursorPayload(c, show))
    && read(show(c.createdAt.at)) == Some(Zoned(c.createdAt.at, 0))
  }

  /** Decoding an encoded cursor returns it, its time in UTC, exactly when its id has 1 to 128 characters,
      its token stays within the limit and the request has the filters it was issued for. */
  lemma CursorRoundTrip(c: Cursor, expected: string, show: int -> string, loads: seq<Byte> -> Option<Payload>,
                        read: string -> Option<Moment>)
    requires c.createdAt.Zoned? && ReadsBack(c, show, loads, read)
    ensures var token := EncodeCursor(c, show).value;
            DecodeCursor(token, expected, loads, read)
            == if 1 <= |c.orderId| <= MAX_ID && |token| <= TOKEN_LIMIT && c.digest == expected
               then Some(c.(createdAt := Zoned(c.createdAt.at, 0))) else None
  {
    hide DecodeToken, EncodeToken, Dumps, AsBytes;
    var p := CursorPayload(c, show);
    TokenRoundTrip(AsBytes(Dumps(p)));
    DumpsLength(p);
  }

  lemma DumpsLength(p: Payload)
    ensures |Dumps(p)| == 66 + TextSize(p.createdAt) + TextSize(p.digest) + TextSize(p.kind) + TextSize(p.orderId)
  {
    hide Quoted, TextSize;
  }

  lemma {:induction false} AsciiSize(s: string)
    requires Ascii(s)
    ensures TextSize(s) <= 6 * |s|
  {
    if s != "" {
      assert s[0] in s && forall c <- s[1..] :: c in s;
      AsciiSize(s[1..]);
    }
  }

  /** The digest and the printed time of an ordinary cursor. */
  predicate Ordinary(c: Cursor, show: int -> string) {
    c.createdAt.Zoned? && |c.digest| == 64 && Plain(c.digest) && |show(c.createdAt.at)| <= 40
      && Plain(show(c.createdAt.at))
  }

  /** An ASCII id of at most 128 characters always fits, whatever has to be escaped. */
  lemma AsciiCursorsFit(c: Cursor, show: int -> string)
    requires Ordinary(c, show) && Ascii(c.orderId) && |c.orderId| <= MAX_ID
    ensures |EncodeCursor(c, show).value| <= TOKEN_LIMIT
  {
    hide TextSize, EscapedSize, Dumps, EncodeToken, Plain, AsBytes;
    CursorLength(c, show);
    AsciiSize(c.orderId);
  }

  lemma CursorLength(c: Cursor, show: int -> string)
    requires Ordinary(c, show)
    ensures var size := 72 + |show(c.createdAt.at)| + 64 + TextSize(c.orderId);
            |EncodeCursor(c, show).value| == (4 * size + 2) / 3
  {
    hide EscapedSize, Dumps, EncodeToken, AsBytes;
    var p := CursorPayload(c, show);
    TokenRoundTrip(AsBytes(Dumps(p)));
    DumpsLength(p);
    PlainSize(c.digest);
    PlainSize(show(c.createdAt.at));
    assert Plain("orders") by { PlainKind(); }
    PlainSize("orders");
  }

  /** The token fits exactly when the escaped id and the printed time take at most 1400 characters. */
  lemma FitsExactly(c: Cursor, show: int -> string)
    requires Ordinary(c, show)
    ensures |EncodeCursor(c, show).value| <= TOKEN_LIMIT <==> TextSize(c.orderId) + |show(c.createdAt.at)| <= 1400
  {
    hide TextSize, EncodeCursor, Ordinary;
    CursorLength(c, show);
  }

  /** So an ordinary cursor survives the round trip exactly when its id is 1 to 128 characters long, the
      escaped id and the printed time take at most 1400, and the request has its filters. */
  lemma OrdinaryCursorRoundTrip(c: Cursor, expected: string, show: int -> string, loads: seq<Byte> -> Option<Payload>,
                                read: string -> Option<Moment>)
    requires Ordinary(c, show) && ReadsBack(c, show, loads, read)
    ensures DecodeCursor(EncodeCursor(c, show).value, expected, loads, read)
            == if 1 <= |c.orderId| <= MAX_ID && TextSize(c.orderId) + |show(c.createdAt.at)| <= 1400
              && c.digest == expected
               then Some(c.(createdAt := Zoned(c.createdAt.at, 0))) else None
  {
    hide TextSize, EncodeToken, DecodeCursor, ReadsBack, Plain;
    FitsExactly(c, show);
    CursorRoundTrip(c, expected, show, loads, read);
  }

  lemma PlainKind()
    ensures Plain("orders")
  {
  }

  function Repeated(c: char, n: nat): (s: string)
    ensures |s| == n
  {
    if n == 0 then "" else [c] + Repeated(c, n - 1)
  }

  lemma {:induction false} RepeatedSize(c: char, n: nat)
    ensures TextSize(Repeated(c, n)) == n * EscapedSize(c)
  {
    if n > 0 {
      RepeatedSize(c, n - 1);
      assert Repeated(c, n)[1..] == Repeated(c, n - 1);
    }
  }

  /** Without the restriction to ASCII it fails: an id of 128 characters beyond the basic plane is within
      the length limit, but its own cursor cannot be decoded. */
  lemma LongForeignIdsDoNotFit(c: Cursor, show: int -> string, loads: seq<Byte> -> Option<Payload>,
                               read: string -> Option<Moment>)
    requires Ordinary(c, show) && c.orderId == Repeated('\U{10000}', MAX_ID) && ReadsBack(c, show, loads, read)
    ensures |c.orderId| <= MAX_ID && DecodeCursor(EncodeCursor(c, show).value, c.digest, loads, read) == None
  {
    hide TextSize, Dumps, EncodeToken, DecodeToken, Plain, AsBytes;
    RepeatedSize('\U{10000}', MAX_ID);
    CursorLength(c, show);
    CursorRoundTrip(c, c.digest, show, loads, read);
  }
}
