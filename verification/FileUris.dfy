/** From a path to a file URI and back. */
module FileUris {
  import opened Options
  import opened Uris
  import opened Sequences

  // ---- replacing ------------------------------------------------------------------------------------

  /** Slashes for backslashes. */
  function Slashed(s: string): (r: string)
    ensures |r| == |s| && forall i :: 0 <= i < |s| ==> r[i] == if s[i] == '\\' then '/' else s[i]
  {
    seq(|s|, i requires 0 <= i < |s| => if s[i] == '\\' then '/' else s[i])
  }

  const HASH_ESCAPE := ['%', '2', '3']

  /** `%23` for each number sign. */
  function EscapeHash(s: string): string {
    if s == "" then ""
    else (if s[0] == '#' then HASH_ESCAPE else [s[0]]) + EscapeHash(s[1..])
  }

  predicate AtHashEscape(s: string) {
    |s| >= 3 && s[0] == '%' && s[1] == '2' && s[2] == '3'
  }

  /** A number sign for each `%23`. */
  function UnescapeHash(s: string): string
    decreases |s|
  {
    if s == "" then ""
    else if AtHashEscape(s) then ['#'] + UnescapeHash(s[3..])
    else [s[0]] + UnescapeHash(s[1..])
  }

  ghost predicate HasHashEscape(s: string) {
    exists i :: 0 <= i <= |s| && AtHashEscape(s[i..])
  }

  lemma HasHashEscapeUnfolds(s: string)
    requires s != ""
    ensures HasHashEscape(s) <==> AtHashEscape(s) || HasHashEscape(s[1..])
  {
    hide AtHashEscape;
    if HasHashEscape(s) {
      var i :| 0 <= i <= |s| && AtHashEscape(s[i..]);
      assert i > 0 ==> s[i..] == s[1..][i - 1..];
      assert s[0..] == s;
    }
    if AtHashEscape(s) {
      assert s[0..] == s;
    }
    if HasHashEscape(s[1..]) {
      var i :| 0 <= i <= |s[1..]| && AtHashEscape(s[1..][i..]);
      assert s[i + 1..] == s[1..][i..];
    }
  }

  /** Unescaping the number sign changes exactly the texts that spell out its escape. */
  lemma {:induction false} UnescapeChangesEscapes(s: string)
    ensures if HasHashEscape(s) then |UnescapeHash(s)| < |s| else UnescapeHash(s) == s
    decreases |s|
  {
    if s == "" {
      assert !AtHashEscape(s[0..]);
    } else {
      HasHashEscapeUnfolds(s);
      UnescapeChangesEscapes(if AtHashEscape(s) then s[3..] else s[1..]);
      assert s == [s[0]] + s[1..];
    }
  }

  /** Escapes put in for number signs are all taken out again, and so are those that were there. */
  lemma {:induction false} UnescapeAfterEscape(s: string)
    ensures UnescapeHash(EscapeHash(s)) == UnescapeHash(s)
    decreases |s|
  {
    if s != "" {
      var e := EscapeHash(s);
      if s[0] == '#' {
        UnescapeAfterEscape(s[1..]);
        assert e[3..] == EscapeHash(s[1..]);
      } else if AtHashEscape(s) {
        EscapesAlign(s);
        UnescapeAfterEscape(s[3..]);
      } else {
        EscapesAlign(s);
        UnescapeAfterEscape(s[1..]);
        assert e[1..] == EscapeHash(s[1..]);
      }
    }
  }

  /** Escaping the number signs makes no other escapes of them. */
  lemma EscapesAlign(s: string)
    requires s != "" && s[0] != '#'
    ensures AtHashEscape(EscapeHash(s)) == AtHashEscape(s)
    ensures AtHashEscape(s) ==> EscapeHash(s)[3..] == EscapeHash(s[3..])
  {
    var s1 := s[1..];
    EscapeStarts(s);
    if s1 != "" && s1[0] != '#' {
      EscapeStarts(s1);
      var s2 := s1[1..];
      EscapeStarts(s2);
      assert s2 == s[2..] && s2[..] == s2;
      assert AtHashEscape(s) ==> s2[1..] == s[3..];
    } else {
      EscapeStarts(s1);
    }
  }

  lemma EscapeStarts(s: string)
    ensures s == "" ==> EscapeHash(s) == ""
    ensures s != "" ==> EscapeHash(s) != "" && EscapeHash(s)[0] == if s[0] == '#' then '%' else s[0]
    ensures s != "" && s[0] != '#' ==> EscapeHash(s)[1..] == EscapeHash(s[1..])
  {
  }

  // ---- the printer and the parser -------------------------------------------------------------------

  /** The path of the URI: slashes only, and one in front unless there is nothing. */
  function PathName(path: string): string {
    var pathName := Slashed(path);
    if |pathName| > 0 && pathName[0] != '/' then "/" + pathName else pathName
  }

  /** What is encoded; an empty scheme or authority is one that was not given. */
  function PlainUri(path: string, isWindows: bool, scheme: string, fallbackAuthority: string): string {
    var start := (if scheme == "" then "file" else scheme) + ":";
    if isWindows && "//" <= PathName(path) then start + PathName(path)
    else start + "//" + fallbackAuthority + PathName(path)
  }

  function FileUriFromPath(path: string, isWindows: bool, scheme: string, fallbackAuthority: string): string {
    EscapeHash(EncodeUri(PlainUri(path, isWindows, scheme, fallbackAuthority)))
  }

  function FileUriToFilePath(isWindows: bool, uri: string): Option<string> {
    match DecodeUri(uri)
    case None => None
    case Some(decoded) => Some(PathOfUri(isWindows, UnescapeHash(decoded)))
  }

  function PathOfUri(isWindows: bool, uri: string): string {
    if isWindows && "file:///" <= uri then uri[8..]
    else if isWindows && "file://" <= uri then uri[5..]
    else if !isWindows && "file://" <= uri then uri[7..]
    else uri
  }

  // ---- decoding what was printed --------------------------------------------------------------------

  lemma {:induction false} EscapeHashConcat(a: string, b: string)
    ensures EscapeHash(a + b) == EscapeHash(a) + EscapeHash(b)
    decreases |a|
  {
    if a == "" {
      assert a + b == b;
    } else {
      assert (a + b)[1..] == a[1..] + b;
      EscapeHashConcat(a[1..], b);
      hide Escape;
    }
  }

  lemma {:induction false} NothingToEscape(s: string)
    requires '#' !in s
    ensures EscapeHash(s) == s
    decreases |s|
  {
    if s != "" {
      NothingToEscape(s[1..]);
      assert s == [s[0]] + s[1..];
    }
  }

  lemma {:induction false} EscapesHaveNoHash(octets: seq<Byte>)
    ensures '#' !in Escapes(octets)
    decreases |octets|
  {
    if octets != [] {
      EscapesHaveNoHash(octets[1..]);
    }
  }

  lemma HashIsEscaped()
    ensures Escapes(Utf8('#')) == HASH_ESCAPE && EscapeHash("#") == HASH_ESCAPE
  {
    assert Escapes([0x23]) == Escape(0x23) + Escapes([]);
  }

  /** `decodeURI` leaves the escapes of number signs; `decodeURIComponent` brings back the very text. */
  lemma {:induction false} DecodePrinted(s: string, preserved: set<char>)
    requires preserved <= RESERVED + {'#'}
    ensures Decode(EscapeHash(EncodeUri(s)), preserved) == Some(if '#' in preserved then EscapeHash(s) else s)
    decreases |s|
  {
    if s != "" {
      var rest := EscapeHash(EncodeUri(s[1..]));
      DecodePrinted(s[1..], preserved);
      EscapeHashConcat(EncodeChar(s[0]), EncodeUri(s[1..]));
      assert s == [s[0]] + s[1..];
      if s[0] == '#' {
        HashIsEscaped();
        DecodeEscapes('#', rest, preserved);
        hide Decode, Escapes, Utf8, Escape;
      } else {
        EscapesHaveNoHash(Utf8(s[0]));
        NothingToEscape(EncodeChar(s[0]));
        DecodeEncodeChar(s[0], rest, preserved);
        hide Decode, Escapes, Utf8, Escape;
      }
    }
  }

  lemma {:induction false} UnescapeBehind(prefix: string, s: string)
    requires '%' !in prefix
    ensures UnescapeHash(prefix + s) == prefix + UnescapeHash(s)
    decreases |prefix|
  {
    if prefix == "" {
      assert prefix + s == s;
    } else {
      assert (prefix + s)[1..] == prefix[1..] + s;
      assert (prefix + s)[0] == prefix[0] && prefix == [prefix[0]] + prefix[1..];
      assert !AtHashEscape(prefix + s);
      UnescapeBehind(prefix[1..], s);
    }
  }

  function LeadingSlashes(s: string): (n: nat)
    ensures n <= |s|
  {
    if s == "" || s[0] != '/' then 0 else 1 + LeadingSlashes(s[1..])
  }

  lemma SlashesAhead(s: string)
    ensures "/" <= s <==> LeadingSlashes(s) >= 1
    ensures "//" <= s <==> LeadingSlashes(s) >= 2
    ensures "///" <= s <==> LeadingSlashes(s) >= 3
  {
    assert |s| >= 2 ==> LeadingSlashes(s[1..]) == if s[1] == '/' then 1 + LeadingSlashes(s[2..]) else 0 by {
      assert |s| >= 2 ==> s[1..][1..] == s[2..];
    }
  }

  lemma {:induction false} UnescapeKeepsSlashes(s: string)
    ensures LeadingSlashes(UnescapeHash(s)) == LeadingSlashes(s)
    decreases |s|
  {
    if s != "" && s[0] == '/' {
      assert !AtHashEscape(s);
      UnescapeKeepsSlashes(s[1..]);
      assert UnescapeHash(s)[1..] == UnescapeHash(s[1..]);
    }
  }

  /** What stands before the path name when neither scheme nor authority is given. */
  function Start(isWindows: bool, pathName: string): string {
    if isWindows && LeadingSlashes(pathName) >= 2 then "file:" else "file://"
  }

  lemma PlainUriStarts(path: string, isWindows: bool)
    ensures PlainUri(path, isWindows, "", "") == Start(isWindows, PathName(path)) + PathName(path)
  {
    SlashesAhead(PathName(path));
    hide PathName, LeadingSlashes;
  }

  /** What the parser makes of a printed URI: the plain one, with number signs for their escapes, cut behind `file:`. */
  lemma ParsePrinted(path: string, printWindows: bool, parseWindows: bool, scheme: string, fallbackAuthority: string)
    ensures FileUriToFilePath(parseWindows, FileUriFromPath(path, printWindows, scheme, fallbackAuthority))
            == Some(PathOfUri(parseWindows, UnescapeHash(PlainUri(path, printWindows, scheme, fallbackAuthority))))
  {
    var plain := PlainUri(path, printWindows, scheme, fallbackAuthority);
    DecodePrinted(plain, RESERVED + {'#'});
    UnescapeAfterEscape(plain);
    hide Decode, UnescapeHash, EscapeHash, PlainUri, EncodeUri, PathOfUri;
  }

  /** The parser decodes, puts number signs for their escapes, and cuts off what stands before the path, if it knows it. */
  lemma ParserCutsTheScheme(isWindows: bool, uri: string)
    ensures FileUriToFilePath(isWindows, uri).None? <==> DecodeUri(uri).None?
    ensures DecodeUri(uri).Some? ==>
              var text, path := UnescapeHash(DecodeUri(uri).value), FileUriToFilePath(isWindows, uri).value;
              if isWindows && "file:///" <= text then text == "file:///" + path
              else if isWindows && "file://" <= text then text == "file:" + path
              else if !isWindows && "file://" <= text then text == "file://" + path
              else text == path
  {
    assert "file:" <= "file://";
    hide UnescapeHash, Decode;
  }

  /** The same when neither scheme nor authority is given. */
  lemma ParsePlainlyPrinted(path: string, isWindows: bool)
    ensures var p := PathName(path);
            FileUriToFilePath(isWindows, FileUriFromPath(path, isWindows, "", ""))
            == Some(PathOfUri(isWindows, Start(isWindows, p) + UnescapeHash(p)))
  {
    var p := PathName(path);
    ParsePrinted(path, isWindows, isWindows, "", "");
    PlainUriStarts(path, isWindows);
    UnescapeBehind(Start(isWindows, p), p);
    hide UnescapeHash, PathName, PlainUri, PathOfUri, LeadingSlashes, FileUriFromPath, FileUriToFilePath;
  }

  lemma PrefixBehind(a: string, b: string, s: string)
    ensures a + b <= a + s <==> b <= s
  {
    if a + b <= a + s {
      forall i | 0 <= i < |b| ensures b[i] == s[i] {
        assert (a + b)[|a| + i] == (a + s)[|a| + i];
      }
    }
  }

  lemma PathBehindScheme(isWindows: bool, u: string)
    ensures !isWindows ==> PathOfUri(isWindows, "file://" + u) == u
    ensures isWindows && LeadingSlashes(u) >= 1 ==> PathOfUri(isWindows, "file://" + u) == u[1..]
    ensures isWindows && LeadingSlashes(u) == 2 ==> PathOfUri(isWindows, "file:" + u) == u
    ensures isWindows && LeadingSlashes(u) >= 3 ==> PathOfUri(isWindows, "file:" + u) == u[3..]
    ensures isWindows && u == "" ==> PathOfUri(isWindows, "file://" + u) == "//"
  {
    SlashesAhead(u);
    var a, b := "file://" + u, "file:" + u;
    PrefixBehind("file://", "/", u);
    PrefixBehind("file:", "//", u);
    PrefixBehind("file:", "///", u);
    assert "file:" + "//" == "file://" && "file:" + "///" == "file:///" && "file://" + "/" == "file:///";
    assert a[7..] == u && b[5..] == u && |a| == 7 + |u| && |b| == 5 + |u|;
    assert u != "" ==> a[8..] == u[1..];
    assert |u| >= 3 ==> b[8..] == u[3..];
    assert u == "" ==> a[5..] == "//";
  }

  // ---- theorems -------------------------------------------------------------------------------------

  /** The URI says which path name, scheme and authority it was made of: nothing is lost in printing. */
  lemma PrintedUriIsDecodable(path: string, isWindows: bool, scheme: string, fallbackAuthority: string)
    ensures var uri := FileUriFromPath(path, isWindows, scheme, fallbackAuthority);
            DecodeUriComponent(uri) == Some(PlainUri(path, isWindows, scheme, fallbackAuthority))
  {
    DecodePrinted(PlainUri(path, isWindows, scheme, fallbackAuthority), {});
  }

  /**
   Two paths share a URI exactly if their path names agree, or one of them, on Windows, is a network
   path that spells out the authority the other one is given.
   */
  lemma SameUri(path: string, other: string, isWindows: bool, scheme: string, authority: string)
    ensures FileUriFromPath(path, isWindows, scheme, authority) == FileUriFromPath(other, isWindows, scheme, authority)
            <==> PathName(path) == PathName(other)
                 || (isWindows && IsNetworkForm(PathName(path), PathName(other), authority))
                 || (isWindows && IsNetworkForm(PathName(other), PathName(path), authority))
  {
    PrintedUriIsDecodable(path, isWindows, scheme, authority);
    PrintedUriIsDecodable(other, isWindows, scheme, authority);
    hide Decode, DecodeUriComponent, PathName, EncodeUri, EscapeHash;
    var start := (if scheme == "" then "file" else scheme) + ":";
    var p, q := PathName(path), PathName(other);
    var network := "//" + authority;
    assert start + "//" + authority + p == start + (network + p);
    assert start + "//" + authority + q == start + (network + q);
    SamePrefix(start, if isWindows && "//" <= p then p else network + p, if isWindows && "//" <= q then q else network + q);
    SamePrefix(network, p, q);
  }

  predicate IsNetworkForm(network: string, plain: string, authority: string) {
    !("//" <= plain) && network == "//" + authority + plain
  }

  lemma SamePrefix(prefix: string, a: string, b: string)
    ensures prefix + a == prefix + b <==> a == b
  {
    assert (prefix + a)[|prefix|..] == a && (prefix + b)[|prefix|..] == b;
  }

  /** The paths that come back. */
  predicate ComesBack(isWindows: bool, path: string) {
    if isWindows then path != "" && LeadingSlashes(path) in {0, 2}
    else path == "" || LeadingSlashes(path) > 0
  }

  /**
   With neither scheme nor authority given, parsing the printed URI gives the path, with slashes,
   exactly if the path does not spell out the escape of a number sign and either starts with a slash
   (or is empty), or, on Windows, starts with none or with exactly two.
   */
  lemma RoundTrip(path: string, isWindows: bool)
    ensures FileUriToFilePath(isWindows, FileUriFromPath(path, isWindows, "", "")) == Some(Slashed(path))
            <==> ComesBack(isWindows, Slashed(path)) && !HasHashEscape(Slashed(path))
  {
    var s := Slashed(path);
    ParsePlainlyPrinted(path, isWindows);
    UnescapeChangesEscapes(s);
    UnescapeKeepsSlashes(s);
    UnescapeBehind("/", s);
    PathBehindScheme(isWindows, UnescapeHash(s));
    PathBehindScheme(isWindows, "/" + UnescapeHash(s));
    hide FileUriToFilePath, FileUriFromPath, PathOfUri, UnescapeHash, HasHashEscape, Slashed;
  }

  /** A path that spells out the escape, and on Windows no path at all, one slash, and three. */
  lemma SomeDoNotComeBack()
    ensures FileUriToFilePath(false, FileUriFromPath("/a%23", false, "", "")) != Some("/a%23")
    ensures forall path :: path in ["", "/a", "///a"] ==>
              FileUriToFilePath(true, FileUriFromPath(path, true, "", "")) != Some(path)
  {
    hide FileUriToFilePath, FileUriFromPath;
    assert "/a%23"[2..] == "%23";
    assert AtHashEscape("/a%23"[2..]);
    assert Slashed("/a%23") == "/a%23";
    RoundTrip("/a%23", false);
    forall path | path in ["", "/a", "///a"]
      ensures FileUriToFilePath(true, FileUriFromPath(path, true, "", "")) != Some(path)
    {
      assert Slashed(path) == path;
      RoundTrip(path, true);
    }
  }

  // ---- what the printed URI looks like --------------------------------------------------------------------

  lemma {:induction false} HashesGoEncoded(t: string)
    requires Encoded(t)
    ensures Encoded(EscapeHash(t)) && '#' !in EscapeHash(t)
    decreases |t|
  {
    if t != "" && t[0] == '#' {
      HashesGoEncoded(t[1..]);
      assert EscapeHash(t)[3..] == EscapeHash(t[1..]);
    } else if t != "" && Literal(t[0]) {
      HashesGoEncoded(t[1..]);
      assert EscapeHash(t)[1..] == EscapeHash(t[1..]);
    } else if t != "" {
      HashesGoEncoded(t[3..]);
      assert EscapeHash(t) == t[..3] + EscapeHash(t[3..]) by {
        NothingToEscape(t[..3]);
        EscapeHashConcat(t[..3], t[3..]);
        assert t == t[..3] + t[3..];
      }
      assert EscapeHash(t)[3..] == EscapeHash(t[3..]);
    }
  }

  /** Whatever the path, what is printed consists of URI characters and escapes, and has no fragment. */
  lemma PrintedUriIsEncoded(path: string, isWindows: bool, scheme: string, fallbackAuthority: string)
    ensures var uri := FileUriFromPath(path, isWindows, scheme, fallbackAuthority);
            Encoded(uri) && '#' !in uri
  {
    var plain := PlainUri(path, isWindows, scheme, fallbackAuthority);
    EncodingEncodes(plain);
    HashesGoEncoded(EncodeUri(plain));
  }

  /** May stand in a URI in front of a fragment. */
  ghost predicate Unescaped(s: string) {
    forall c :: c in s ==> Literal(c) && c != '#'
  }

  lemma UnescapedIsPrinted(s: string)
    requires Unescaped(s)
    ensures EscapeHash(EncodeUri(s)) == s
  {
    LiteralsStay(s);
    NothingToEscape(s);
  }

  lemma UnescapedHasNoBackslash(path: string)
    requires Unescaped(path)
    ensures Slashed(path) == path
  {
    assert forall i :: 0 <= i < |path| ==> path[i] in path;
  }

  /** The path behind a slash, with slashes for backslashes, unless it is empty. */
  lemma RootedPath(path: string)
    ensures PathName(path) == if path != "" && path[0] != '/' && path[0] != '\\' then "/" + Slashed(path) else Slashed(path)
    ensures "//" <= PathName(path) <==> "//" <= Slashed(path)
  {
    var s := Slashed(path);
    if s != "" && s[0] != '/' {
      assert ("/" + s)[1] == s[0] && !("//" <= s);
    }
  }

  /** Parts that need no escapes are printed as they are: the scheme, the authority, and the path behind a slash. */
  lemma PlainPartsStay(path: string, isWindows: bool, scheme: string, fallbackAuthority: string)
    requires Unescaped(path) && Unescaped(scheme) && Unescaped(fallbackAuthority)
    ensures var rooted := if path != "" && path[0] != '/' then "/" + path else path;
            FileUriFromPath(path, isWindows, scheme, fallbackAuthority)
            == (if scheme == "" then "file" else scheme) + ":"
               + (if isWindows && "//" <= path then path else "//" + fallbackAuthority + rooted)
  {
    UnescapedHasNoBackslash(path);
    RootedPath(path);
    var start := if scheme == "" then "file" else scheme;
    var rooted := PathName(path);
    assert path != "" ==> path[0] in path && path[0] != '\\';
    assert Unescaped(start) && Unescaped(rooted) && Unescaped(":") && Unescaped("//");
    hide Unescaped, EncodeUri, EscapeHash, PathName, Slashed;
    UnescapedConcat(start, ":");
    UnescapedConcat(start + ":", rooted);
    UnescapedConcat("//", fallbackAuthority);
    UnescapedConcat("//" + fallbackAuthority, rooted);
    UnescapedConcat(start + ":", "//" + fallbackAuthority + rooted);
    PlainUriIs(path, isWindows, scheme, fallbackAuthority);
    hide PlainUri;
    UnescapedIsPrinted(PlainUri(path, isWindows, scheme, fallbackAuthority));
  }

  lemma PlainUriIs(path: string, isWindows: bool, scheme: string, authority: string)
    ensures PlainUri(path, isWindows, scheme, authority)
            == (if scheme == "" then "file" else scheme) + ":"
               + (if isWindows && "//" <= PathName(path) then PathName(path) else "//" + authority + PathName(path))
  {
    var start := (if scheme == "" then "file" else scheme) + ":";
    hide PathName;
    Regroup(start + "//", authority, PathName(path));
    Regroup(start, "//", authority + PathName(path));
    Regroup("//", authority, PathName(path));
  }

  lemma UnescapedConcat(a: string, b: string)
    requires Unescaped(a) && Unescaped(b)
    ensures Unescaped(a + b)
  {
    hide Literal;
  }

  /** Any parts are printed one after the other, each by itself. */
  lemma PartsAreEncoded(path: string, isWindows: bool, scheme: string, fallbackAuthority: string)
    requires !(isWindows && "//" <= Slashed(path))
    ensures var rooted := if path != "" && path[0] != '/' && path[0] != '\\' then "/" + Slashed(path) else Slashed(path);
            FileUriFromPath(path, isWindows, scheme, fallbackAuthority)
            == Printed(if scheme == "" then "file" else scheme) + "://" + Printed(fallbackAuthority) + Printed(rooted)
  {
    RootedPath(path);
    PlainUriIs(path, isWindows, scheme, fallbackAuthority);
    hide PathName, PlainUri, Slashed;
    var rooted := PathName(path);
    var start := if scheme == "" then "file" else scheme;
    assert Unescaped(":") && Unescaped("//");
    UnescapedIsPrinted(":");
    UnescapedIsPrinted("//");
    hide EncodeUri, EscapeHash, Unescaped;
    PrintedConcat(start + ":", "//" + fallbackAuthority + rooted);
    PrintedConcat(start, ":");
    PrintedConcat("//" + fallbackAuthority, rooted);
    PrintedConcat("//", fallbackAuthority);
    hide Printed;
    var e := Printed(start);
    Regroup(e, ":", "//" + Printed(fallbackAuthority) + Printed(rooted));
    assert ":" + ("//" + Printed(fallbackAuthority) + Printed(rooted)) == "://" + Printed(fallbackAuthority) + Printed(rooted);
    Regroup(e, "://" + Printed(fallbackAuthority), Printed(rooted));
    Regroup(e, "://", Printed(fallbackAuthority));
  }

  function Printed(s: string): string {
    EscapeHash(EncodeUri(s))
  }

  lemma PrintedConcat(a: string, b: string)
    ensures Printed(a + b) == Printed(a) + Printed(b)
  {
    hide EncodeUri, EscapeHash;
    EncodeConcat(a, b);
    EscapeHashConcat(EncodeUri(a), EncodeUri(b));
  }

  lemma SpacePrinted()
    ensures Printed("/a b") == "/a%20b"
  {
    UnescapedIsPrinted("/a");
    UnescapedIsPrinted("b");
    SomeEscapes();
    NothingToEscape("%20");
    hide EncodeUri, EscapeHash, Unescaped;
    PrintedConcat("/a", " ");
    PrintedConcat("/a" + " ", "b");
    SpaceJoined();
  }

  lemma SpaceJoined()
    ensures "/a" + " " + "b" == "/a b" && "/a" + "%20" + "b" == "/a%20b" && "file" + "://" + "" + "/a%20b" == "file:///a%20b"
  {
  }

  /** A path with a space. */
  lemma SpaceIsEscaped()
    ensures FileUriFromPath("/a b", false, "", "") == "file:///a%20b"
  {
    assert Slashed("/a b") == "/a b";
    UnescapedIsPrinted("file");
    UnescapedIsPrinted("");
    hide FileUriFromPath, Slashed, EncodeUri, EscapeHash, Unescaped;
    PartsAreEncoded("/a b", false, "", "");
    SpacePrinted();
    SpaceJoined();
  }
}
