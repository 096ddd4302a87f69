/** `encodeURI` and `decodeURI`, as in section 19.2.6 of ECMA-262, on strings of Unicode characters. */
module Uris {
  import opened Options
  import opened Sequences

  type Byte = b: nat | b < 0x100

  const RESERVED := {';', '/', '?', ':', '@', '&', '=', '+', '$', ','}

  /** The characters that `encodeURI` leaves alone. */
  predicate Kept(c: char) {
    'a' <= c <= 'z' || 'A' <= c <= 'Z' || '0' <= c <= '9'
    || c in {'-', '_', '.', '!', '~', '*', '\'', '(', ')'} || c in RESERVED || c == '#'
  }

  // ---- UTF-8 ----------------------------------------------------------------------------------------

  function Utf8(c: char): (octets: seq<Byte>)
    ensures 1 <= |octets| <= 4
  {
    var v := c as int;
    if v < 0x80 then [v]
    else if v < 0x800 then [0xC0 + v / 64, 0x80 + v % 64]
    else if v < 0x10000 then [0xE0 + v / 4096, 0x80 + v / 64 % 64, 0x80 + v % 64]
    else [0xF0 + v / 262144, 0x80 + v / 4096 % 64, 0x80 + v / 64 % 64, 0x80 + v % 64]
  }

  function LeadingOnes(b: Byte): nat {
    if b < 0x80 then 0 else if b < 0xC0 then 1 else if b < 0xE0 then 2 else if b < 0xF0 then 3 else if b < 0xF8 then 4 else 5
  }

  /** The character that octets stand for, if they are the shortest ones for it. */
  function FromUtf8(octets: seq<Byte>): Option<char>
    requires |octets| > 0
  {
    var n := LeadingOnes(octets[0]);
    if n == 0 && |octets| == 1 then Some(octets[0] as char)
    else if n !in {2, 3, 4} || |octets| != n || exists i :: 1 <= i < n && LeadingOnes(octets[i]) != 1 then None
    else
      var v := Value(octets[1..], octets[0] - [0xC0, 0xE0, 0xF0][n - 2]);
      if v < [0x80, 0x800, 0x10000][n - 2] || 0xD800 <= v < 0xE000 || v >= 0x110000 then None
      else Some(v as char)
  }

  function Value(octets: seq<Byte>, v: int): int {
    if octets == [] then v else Value(octets[1..], v * 64 + Low(octets[0]))
  }

  /** The six low bits of an octet that goes on. */
  function Low(octet: Byte): int {
    octet - 0x80
  }

  lemma ValueUnfolds(octets: seq<Byte>, v: int)
    requires 1 <= |octets| <= 3
    ensures |octets| == 1 ==> Value(octets, v) == v * 64 + Low(octets[0])
    ensures |octets| == 2 ==> Value(octets, v) == (v * 64 + Low(octets[0])) * 64 + Low(octets[1])
    ensures |octets| == 3 ==> Value(octets, v) == ((v * 64 + Low(octets[0])) * 64 + Low(octets[1])) * 64 + Low(octets[2])
  {
    var w := v * 64 + Low(octets[0]);
    assert Value(octets, v) == Value(octets[1..], w);
    if |octets| > 1 {
      var x := w * 64 + Low(octets[1]);
      assert Value(octets[1..], w) == Value(octets[1..][1..], x);
      if |octets| > 2 {
        assert Value(octets[1..][1..], x) == x * 64 + Low(octets[2]);
      }
    }
  }

  /** The digits of v to base 64. */
  lemma Base64(v: nat)
    ensures v / 64 * 64 + v % 64 == v
    ensures v / 4096 * 64 + v / 64 % 64 == v / 64
    ensures v / 262144 * 64 + v / 4096 % 64 == v / 4096
  {
  }

  lemma Utf8Value(c: char)
    requires c as int >= 0x80
    ensures var o := Utf8(c); |o| > 1 && Value(o[1..], o[0] - [0xC0, 0xE0, 0xF0][|o| - 2]) == c as int
  {
    var o := Utf8(c);
    var v := c as int;
    Base64(v);
    if |o| == 2 {
      assert o[1..] == [o[1]];
      ValueUnfolds([o[1]], v / 64);
    } else if |o| == 3 {
      assert o[1..] == [o[1], o[2]];
      ValueUnfolds([o[1], o[2]], v / 4096);
    } else {
      assert o[1..] == [o[1], o[2], o[3]];
      ValueUnfolds([o[1], o[2], o[3]], v / 262144);
    }
    hide Value;
  }

  lemma Utf8RoundTrip(c: char)
    ensures FromUtf8(Utf8(c)) == Some(c)
    ensures LeadingOnes(Utf8(c)[0]) == if |Utf8(c)| == 1 then 0 else |Utf8(c)|
  {
    if c as int >= 0x80 {
      Utf8Value(c);
    }
    hide Value;
  }

  /** No other octets stand for a character than the ones it is encoded as. */
  lemma OnlyUtf8(octets: seq<Byte>)
    requires |octets| > 0
    ensures FromUtf8(octets).Some? ==> Utf8(FromUtf8(octets).value) == octets
  {
    var n := LeadingOnes(octets[0]);
    var o := octets;
    if FromUtf8(o).Some? {
      if n == 2 {
        assert o[1..] == [o[1]] && LeadingOnes(o[1]) == 1;
        ValueUnfolds([o[1]], o[0] - 0xC0);
      } else if n == 3 {
        assert o[1..] == [o[1], o[2]] && LeadingOnes(o[1]) == 1 && LeadingOnes(o[2]) == 1;
        ValueUnfolds([o[1], o[2]], o[0] - 0xE0);
        RestOf64(o[0] - 0xE0, Low(o[1]), Low(o[2]));
      } else if n == 4 {
        OnlyUtf8OfFour(o);
      }
    }
  }

  lemma OnlyUtf8OfFour(o: seq<Byte>)
    requires |o| > 0 && LeadingOnes(o[0]) == 4 && FromUtf8(o).Some?
    ensures Utf8(FromUtf8(o).value) == o
  {
    assert o[1..] == [o[1], o[2], o[3]] && LeadingOnes(o[1]) == 1 && LeadingOnes(o[2]) == 1 && LeadingOnes(o[3]) == 1;
    ValueUnfolds([o[1], o[2], o[3]], o[0] - 0xF0);
    RestOf64(o[0] - 0xF0, Low(o[1]), Low(o[2]));
    RestOf64((o[0] - 0xF0) * 64 + Low(o[1]), Low(o[2]), Low(o[3]));
    var v := ((o[0] - 0xF0) * 64 + Low(o[1])) * 64 + Low(o[2]);
    assert (v * 64 + Low(o[3])) / 262144 == o[0] - 0xF0;
  }

  lemma RestOf64(a: int, b: int, c: int)
    requires 0 <= b < 64 && 0 <= c < 64
    ensures var v := (a * 64 + b) * 64 + c; v / 4096 == a && v / 64 == a * 64 + b && v / 64 % 64 == b && v % 64 == c
  {
  }

  // ---- escapes --------------------------------------------------------------------------------------

  function Digit(n: nat): char
    requires n < 16
  {
    "0123456789ABCDEF"[n]
  }

  function DigitValue(c: char): Option<nat> {
    if '0' <= c <= '9' then Some(c as int - '0' as int)
    else if 'A' <= c <= 'F' then Some(c as int - 'A' as int + 10)
    else if 'a' <= c <= 'f' then Some(c as int - 'a' as int + 10)
    else None
  }

  function Escape(b: Byte): (e: string)
    ensures |e| == 3
  {
    ['%', Digit(b / 16), Digit(b % 16)]
  }

  function Escapes(octets: seq<Byte>): string {
    if octets == [] then "" else Escape(octets[0]) + Escapes(octets[1..])
  }

  /** The octet of the escape that s begins with. */
  function OctetAt(s: string): (octet: Option<Byte>)
    ensures octet.Some? ==> |s| >= 3
  {
    if |s| < 3 || s[0] != '%' then None
    else
      match (DigitValue(s[1]), DigitValue(s[2]))
      case (Some(high), Some(low)) => if high < 16 && low < 16 then Some(high * 16 + low) else None
      case _ => None
  }

  /** The octets of the n escapes that s begins with. */
  function OctetsAt(s: string, n: nat): (octets: Option<seq<Byte>>)
    ensures octets.Some? ==> |octets.value| == n && |s| >= 3 * n
  {
    if n == 0 then Some([])
    else
      match OctetAt(s)
      case None => None
      case Some(octet) =>
        match OctetsAt(s[3..], n - 1)
        case None => None
        case Some(rest) => Some([octet] + rest)
  }

  lemma OctetRoundTrip(b: Byte, rest: string)
    ensures OctetAt(Escape(b) + rest) == Some(b)
  {
    DigitRoundTrip(b / 16);
    DigitRoundTrip(b % 16);
  }

  lemma DigitRoundTrip(n: nat)
    requires n < 16
    ensures DigitValue(Digit(n)) == Some(n)
  {
  }

  lemma OneMoreOctet(b: Byte, s: string, n: nat, octets: seq<Byte>)
    requires OctetsAt(s, n) == Some(octets)
    ensures OctetsAt(Escape(b) + s, n + 1) == Some([b] + octets)
  {
    OctetRoundTrip(b, s);
    assert (Escape(b) + s)[3..] == s;
    hide OctetAt, Escape;
  }

  lemma {:induction false} OctetsRoundTrip(octets: seq<Byte>, rest: string)
    ensures OctetsAt(Escapes(octets) + rest, |octets|) == Some(octets) && |Escapes(octets)| == 3 * |octets|
    ensures octets != [] ==> OctetAt(Escapes(octets) + rest) == Some(octets[0])
    decreases |octets|
  {
    if octets != [] {
      OctetsRoundTrip(octets[1..], rest);
      var head, tail := Escape(octets[0]), Escapes(octets[1..]);
      OctetRoundTrip(octets[0], tail + rest);
      OneMoreOctet(octets[0], tail + rest, |octets| - 1, octets[1..]);
      Regroup(head, tail, rest);
      assert Escapes(octets) == head + tail;
      HeadAndTail(octets, []);
      hide OctetsAt, OctetAt, Escape, Escapes;
    }
  }

  // ---- whole strings --------------------------------------------------------------------------------

  function EncodeChar(c: char): string {
    if Kept(c) then [c] else Escapes(Utf8(c))
  }

  function EncodeUri(s: string): string {
    if s == "" then "" else EncodeChar(s[0]) + EncodeUri(s[1..])
  }

  /** Decodes all escapes but those of preserved characters; `None` where the original throws. */
  function Decode(s: string, preserved: set<char>): Option<string>
    decreases |s|
  {
    if s == "" then Some("")
    else if s[0] != '%' then Prepend([s[0]], Decode(s[1..], preserved))
    else
      match OctetAt(s)
      case None => None
      case Some(first) =>
        var n := if LeadingOnes(first) == 0 then 1 else LeadingOnes(first);
        match OctetsAt(s, n)
        case None => None
        case Some(octets) =>
          match FromUtf8(octets)
          case None => None
          case Some(c) => Prepend(if c in preserved then s[..3 * n] else [c], Decode(s[3 * n..], preserved))
  }

  function Prepend(a: string, b: Option<string>): Option<string> {
    match b
    case None => None
    case Some(s) => Some(a + s)
  }

  function DecodeUri(s: string): Option<string> {
    Decode(s, RESERVED + {'#'})
  }

  function DecodeUriComponent(s: string): Option<string> {
    Decode(s, {})
  }

  /** An escaped character decodes to itself, unless it is preserved. */
  lemma DecodeEscapes(c: char, rest: string, preserved: set<char>)
    ensures Decode(Escapes(Utf8(c)) + rest, preserved)
            == Prepend(if c in preserved then Escapes(Utf8(c)) else [c], Decode(rest, preserved))
  {
    Utf8RoundTrip(c);
    OctetsRoundTrip(Utf8(c), rest);
    var e := Escapes(Utf8(c));
    assert (e + rest)[..|e|] == e && (e + rest)[|e|..] == rest;
  }

  lemma DecodeEncodeChar(c: char, rest: string, preserved: set<char>)
    requires preserved <= RESERVED + {'#'}
    ensures Decode(EncodeChar(c) + rest, preserved) == Prepend([c], Decode(rest, preserved))
  {
    if Kept(c) {
      assert ([c] + rest)[1..] == rest;
    } else {
      DecodeEscapes(c, rest, preserved);
    }
  }

  /** Whatever the text, decoding undoes encoding. */
  lemma {:induction false} DecodeUndoesEncode(s: string)
    ensures DecodeUri(EncodeUri(s)) == Some(s)
    decreases |s|
  {
    if s != "" {
      DecodeUndoesEncode(s[1..]);
      DecodeEncodeChar(s[0], EncodeUri(s[1..]), RESERVED + {'#'});
      hide Decode, EncodeChar;
      assert [s[0]] + s[1..] == s;
    }
  }

  // ---- what the encoded text looks like -----------------------------------------------------------------

  /** A letter, a digit, or one of the marks that may stand in a URI. */
  predicate Literal(c: char) {
    'a' <= c <= 'z' || 'A' <= c <= 'Z' || '0' <= c <= '9' || c in "-_.!~*'();/?:@&=+$,#"
  }

  predicate UpperHex(c: char) {
    '0' <= c <= '9' || 'A' <= c <= 'F'
  }

  /** Nothing but such characters, and escapes of two upper-case digits. */
  predicate Encoded(t: string) {
    t == ""
    || (Literal(t[0]) && Encoded(t[1..]))
    || (|t| >= 3 && t[0] == '%' && UpperHex(t[1]) && UpperHex(t[2]) && Encoded(t[3..]))
  }

  lemma {:induction false} EncodedConcat(a: string, b: string)
    requires Encoded(a) && Encoded(b)
    ensures Encoded(a + b)
    decreases |a|
  {
    hide Literal, UpperHex;
    if a == "" {
      EmptyFirst(b);
    } else if Literal(a[0]) && Encoded(a[1..]) {
      EncodedConcat(a[1..], b);
      HeadAndTail(a, b);
    } else {
      EncodedConcat(a[3..], b);
      ThreeAndTail(a, b);
    }
  }

  lemma ThreeAndTail(a: string, b: string)
    requires |a| >= 3
    ensures (a + b)[..3] == a[..3] && (a + b)[3..] == a[3..] + b
    ensures (a + b)[0] == a[0] && (a + b)[1] == a[1] && (a + b)[2] == a[2]
  {
  }

  lemma {:induction false} EscapesAreEncoded(octets: seq<Byte>)
    ensures Encoded(Escapes(octets))
    decreases |octets|
  {
    if octets != [] {
      EscapesAreEncoded(octets[1..]);
      var e := Escape(octets[0]);
      assert e[3..] == "" && UpperHex(e[1]) && UpperHex(e[2]);
      EncodedConcat(e, Escapes(octets[1..]));
    }
  }

  /** Only characters that may stand in a URI come out of encoding, whatever goes in. */
  lemma {:induction false} EncodingEncodes(s: string)
    ensures Encoded(EncodeUri(s))
    decreases |s|
  {
    if s != "" {
      EncodingEncodes(s[1..]);
      EscapesAreEncoded(Utf8(s[0]));
      assert [s[0]][1..] == "";
      EncodedConcat(EncodeChar(s[0]), EncodeUri(s[1..]));
    }
  }

  /** And those that may stay. */
  lemma {:induction false} LiteralsStay(s: string)
    requires forall c :: c in s ==> Literal(c)
    ensures EncodeUri(s) == s
    decreases |s|
  {
    if s != "" {
      LiteralsStay(s[1..]);
      assert Literal(s[0]) && s == [s[0]] + s[1..];
    }
  }

  lemma {:induction false} EncodeConcat(a: string, b: string)
    ensures EncodeUri(a + b) == EncodeUri(a) + EncodeUri(b)
    decreases |a|
  {
    hide EncodeChar;
    if a == "" {
      EmptyFirst(b);
    } else {
      EncodeConcat(a[1..], b);
      HeadAndTail(a, b);
      Regroup(EncodeChar(a[0]), EncodeUri(a[1..]), EncodeUri(b));
    }
  }

  lemma EscapesOfOne(c: char)
    ensures EncodeUri([c]) == if Literal(c) then [c] else Escapes(Utf8(c))
  {
    assert [c][1..] == "";
  }

  /** A space, the escape sign, and a character of two octets. */
  lemma SomeEscapes()
    ensures EncodeUri(" ") == "%20" && EncodeUri("%") == "%25" && EncodeUri("\U{E9}") == "%C3%A9"
  {
    hide EncodeUri, Utf8, Escapes;
    EscapesOfOne(' ');
    EscapesOfOne('%');
    EscapesOfOne('\U{E9}');
    SomeOctets();
    EscapedOctets();
  }

  /** Characters of three and four octets. */
  lemma LongEscapes()
    ensures EncodeUri("\U{20AC}") == "%E2%82%AC" && EncodeUri("\U{1F600}") == "%F0%9F%98%80"
  {
    hide EncodeUri, Utf8, Escapes;
    EscapesOfOne('\U{20AC}');
    EscapesOfOne('\U{1F600}');
    SomeOctets();
    EscapedOctets();
  }

  lemma SomeOctets()
    ensures Utf8(' ') == [0x20] && Utf8('%') == [0x25] && Utf8('\U{E9}') == [0xC3, 0xA9]
    ensures Utf8('\U{20AC}') == [0xE2, 0x82, 0xAC] && Utf8('\U{1F600}') == [0xF0, 0x9F, 0x98, 0x80]
  {
  }

  lemma EscapedOctets()
    ensures Escapes([0x20]) == "%20" && Escapes([0x25]) == "%25" && Escapes([0xC3, 0xA9]) == "%C3%A9"
    ensures Escapes([0xE2, 0x82, 0xAC]) == "%E2%82%AC" && Escapes([0xF0, 0x9F, 0x98, 0x80]) == "%F0%9F%98%80"
  {
    SomeEscape();
    EscapesUnfold([0x20]);
    EscapesUnfold([0x25]);
    EscapesUnfold([0xC3, 0xA9]);
    EscapesUnfold([0xE2, 0x82, 0xAC]);
    EscapesUnfold([0xF0, 0x9F, 0x98, 0x80]);
    hide *;
    assert "%C3" + "%A9" == "%C3%A9";
    assert "%E2" + "%82" + "%AC" == "%E2%82%AC";
    assert "%F0" + "%9F" + "%98" + "%80" == "%F0%9F%98%80";
  }

  lemma SomeEscape()
    ensures Escape(0x20) == "%20" && Escape(0x25) == "%25" && Escape(0xC3) == "%C3" && Escape(0xA9) == "%A9"
    ensures Escape(0xE2) == "%E2" && Escape(0x82) == "%82" && Escape(0xAC) == "%AC" && Escape(0xF0) == "%F0"
    ensures Escape(0x9F) == "%9F" && Escape(0x98) == "%98" && Escape(0x80) == "%80"
  {
  }

  lemma EscapesUnfold(o: seq<Byte>)
    requires 1 <= |o| <= 4
    ensures |o| == 1 ==> Escapes(o) == Escape(o[0])
    ensures |o| == 2 ==> Escapes(o) == Escape(o[0]) + Escape(o[1])
    ensures |o| == 3 ==> Escapes(o) == Escape(o[0]) + Escape(o[1]) + Escape(o[2])
    ensures |o| == 4 ==> Escapes(o) == Escape(o[0]) + Escape(o[1]) + Escape(o[2]) + Escape(o[3])
    decreases |o|
  {
    hide Escape;
    if |o| > 1 {
      EscapesUnfold(o[1..]);
    }
  }

  /** Of the escapes, `decodeURI` leaves those of reserved characters and of the number sign alone. */
  lemma EscapesDecode(c: char, rest: string)
    ensures DecodeUri(Escapes(Utf8(c)) + rest)
            == Prepend(if c in ";/?:@&=+$,#" then Escapes(Utf8(c)) else [c], DecodeUri(rest))
  {
    DecodeEscapes(c, rest, RESERVED + {'#'});
    hide Decode, Escapes, Utf8;
  }
}
