/** Rewriting the urls of a style sheet that moves to another file. */
module CssUrls {
  import opened Sequences
  import opened Segments
  import opened Pieces
  import opened ModuleIdResolvers

  // ---- the operations -----------------------------------------------------------------------------

  method FindSlashIndexAfterPrefix(haystack: string, prefix: string) returns (index: nat)
    ensures index == SlashAfterPrefix(haystack, prefix)
  {
    if StartsWith(haystack, prefix) {
      var i := |prefix|;
      while i < |haystack| && haystack[i] != '/'
        invariant |prefix| <= i <= |haystack|
        invariant IndexFrom(haystack, '/', i) == IndexFrom(haystack, '/', |prefix|)
      {
        i := i + 1;
      }
      index := if i < |haystack| && i > |prefix| then i else |prefix|;
    } else {
      index := 0;
    }
  }

  method PushPieceOnto(pieces: seq<string>, piece: string) returns (result: seq<string>)
    ensures result == PushPiece(pieces, piece)
  {
    result := pieces;
    if piece == "./" {
      return;
    }
    if piece == "../" && |pieces| > 0 {
      var prevPiece := pieces[|pieces| - 1];
      if prevPiece == "/" {
        return;
      }
      if prevPiece != "../" {
        result := pieces[..|pieces| - 1];
        return;
      }
    }
    result := pieces + [piece];
  }

  /** Takes piece after piece off the path and pushes it. */
  method PushPath(pieces: seq<string>, path: string) returns (result: seq<string>)
    ensures result == PushAll(pieces, PathPieces(path))
  {
    result := pieces;
    var rest := path;
    while |rest| > 0
      invariant PushAll(result, PathPieces(rest)) == PushAll(pieces, PathPieces(path))
      decreases |rest|
    {
      var slashIndex := 0;
      while slashIndex < |rest| && rest[slashIndex] != '/'
        invariant slashIndex <= |rest| && Plain(rest[..slashIndex])
      {
        assert rest[..slashIndex + 1] == rest[..slashIndex] + [rest[slashIndex]];
        slashIndex := slashIndex + 1;
      }
      var piece := if slashIndex < |rest| then rest[..slashIndex + 1] else rest;
      var next := if slashIndex < |rest| then rest[slashIndex + 1..] else "";
      FirstPiece(rest, slashIndex);
      result := PushPieceOnto(result, piece);
      rest := next;
    }
  }

  lemma FirstPiece(rest: string, slashIndex: nat)
    requires rest != "" && slashIndex <= |rest| && Plain(rest[..slashIndex])
    requires slashIndex < |rest| ==> rest[slashIndex] == '/'
    ensures slashIndex < |rest| ==>
              PathPieces(rest) == [rest[..slashIndex + 1]] + PathPieces(rest[slashIndex + 1..])
    ensures slashIndex == |rest| ==> PathPieces(rest) == [rest] + PathPieces("")
  {
    if slashIndex < |rest| {
      var name, more := rest[..slashIndex], rest[slashIndex + 1..];
      assert rest == name + "/" + more;
      SplitAtSlash(name, more);
      SplitPlain(name);
      assert ([name] + Split(more))[1..] == Split(more);
      assert rest[..slashIndex + 1] == name + "/";
    } else {
      assert rest[..slashIndex] == rest;
      SplitPlain(rest);
    }
  }

  method JoinPaths(a: string, b: string) returns (result: string)
    ensures result == JoinedPath(a, b)
  {
    var start := FindSlashIndexAfterPrefix(a, "//");
    if start == 0 {
      start := FindSlashIndexAfterPrefix(a, "http://");
    }
    if start == 0 {
      start := FindSlashIndexAfterPrefix(a, "https://");
    }
    ProtocolEndInside(a);
    var pieces := PushPath([], a[start..]);
    if |b| > 0 && b[0] == '/' {
      pieces := [];
    }
    SlashFirst(b);
    pieces := PushPath(pieces, b);
    result := a[..start];
    var i := 0;
    while i < |pieces|
      invariant i <= |pieces| && result + Flatten(pieces[i..]) == a[..start] + Flatten(pieces)
    {
      assert pieces[i..][1..] == pieces[i + 1..];
      assert result + (pieces[i] + Flatten(pieces[i + 1..])) == result + pieces[i] + Flatten(pieces[i + 1..]);
      result := result + pieces[i];
      i := i + 1;
    }
    assert result + "" == result;
  }

  lemma SlashFirst(b: string)
    ensures StartsWith(b, "/") <==> |b| > 0 && b[0] == '/'
  {
  }

  /** The longest common prefix. */
  function CommonPrefixOf(a: string, b: string): (p: string)
    ensures p <= a && p <= b
    ensures |p| < |a| && |p| < |b| ==> a[|p|] != b[|p|]
  {
    if a == "" || b == "" || a[0] != b[0] then "" else [a[0]] + CommonPrefixOf(a[1..], b[1..])
  }

  lemma {:induction false} PrefixIsLongest(a: string, b: string, p: string)
    requires p <= a && p <= b && (|p| < |a| && |p| < |b| ==> a[|p|] != b[|p|])
    ensures CommonPrefixOf(a, b) == p
  {
    if p != "" {
      PrefixIsLongest(a[1..], b[1..], p[1..]);
    }
  }

  method CommonPrefix(str1: string, str2: string) returns (prefix: string)
    ensures prefix == CommonPrefixOf(str1, str2)
  {
    var len := if |str1| < |str2| then |str1| else |str2|;
    var i := 0;
    while i < len && str1[i] == str2[i]
      invariant i <= len && str1[..i] == str2[..i]
    {
      i := i + 1;
    }
    prefix := str1[..i];
    PrefixIsLongest(str1, str2, prefix);
  }

  function CommonFolderPrefix(fromPath: string, toPath: string): string {
    PathOf(CommonPrefixOf(fromPath, toPath))
  }

  /** `relativePath` */
  function RelativeTo(fromPath: string, toPath: string): string {
    if StartsWith(toPath, "/") || StartsWith(toPath, "http://") || StartsWith(toPath, "https://") then toPath
    else
      var prefix := CommonFolderPrefix(fromPath, toPath);
      Flatten(Ups(|Split(fromPath[|prefix|..])| - 1)) + toPath[|prefix|..]
  }

  method RelativePath(fromPath: string, toPath: string) returns (result: string)
    ensures result == RelativeTo(fromPath, toPath)
    ensures IsAbsolute(toPath) ==> result == toPath
    ensures !IsAbsolute(toPath) ==> exists c: nat ::
              SharedFolders(Split(fromPath), Split(toPath), c)
              && result == Flatten(Ups(|Split(fromPath)| - 1 - c)) + Join(Split(toPath)[c..])
  {
    hide SharedFolders, Join, Split, CommonPrefixOf, PathOf;
    if !IsAbsolute(toPath) {
      ghost var c := RelativeIsShort(fromPath, toPath);
    }
    if StartsWith(toPath, "/") || StartsWith(toPath, "http://") || StartsWith(toPath, "https://") {
      return toPath;
    }
    var common := CommonPrefix(fromPath, toPath);
    var prefix := PathOf(common);
    var upCount := |Split(fromPath[|prefix|..])|;
    result := "";
    var i := 1;
    while i < upCount
      invariant 1 <= i <= upCount && result == Flatten(Ups(i - 1))
    {
      assert Ups(i) == Ups(i - 1) + ["../"];
      FlattenConcat(Ups(i - 1), ["../"]);
      assert ["../"][1..] == [];
      result := result + "../";
      i := i + 1;
    }
    result := result + toPath[|prefix|..];
  }

  // ---- joining behind a protocol ------------------------------------------------------------------------

  /** A protocol and a host. */
  ghost predicate IsServer(server: string) {
    exists protocol, host ::
      (protocol == "//" || protocol == "http://" || protocol == "https://") && '/' !in host && server == protocol + host
  }

  lemma {:induction false} FirstIndex(a: string, host: string, from: nat)
    requires from <= |a| && '/' !in host && |a| > from + |host| && a[from..from + |host|] == host && a[from + |host|] == '/'
    ensures IndexFrom(a, '/', from) == from + |host|
    decreases |host|
  {
    if host != "" {
      assert a[from] == host[0];
      assert a[from + 1..from + |host|] == a[from..from + |host|][1..];
      FirstIndex(a, host[1..], from + 1);
    }
  }

  lemma ServerEnds(server: string, path: string)
    requires IsServer(server) && StartsWith(path, "/")
    ensures ProtocolEnd(server + path) == |server|
  {
    var protocol, host :|
      (protocol == "//" || protocol == "http://" || protocol == "https://") && '/' !in host && server == protocol + host;
    var a := server + path;
    SlashBehindHost(protocol, host, path);
    assert a == protocol + host + path;
    hide SlashAfterPrefix, StartsWith;
    if protocol != "//" {
      NoSuchPrefix(a, "//", 0);
      if protocol == "https://" {
        NoSuchPrefix(a, "http://", 4);
      }
    }
  }

  lemma SlashBehindHost(protocol: string, host: string, path: string)
    requires '/' !in host && StartsWith(path, "/")
    ensures SlashAfterPrefix(protocol + host + path, protocol) == |protocol + host|
  {
    var a := protocol + host + path;
    assert a[|protocol|..|protocol| + |host|] == host && a[..|protocol|] == protocol;
    assert path[0] == path[..1][0] == '/';
    FirstIndex(a, host, |protocol|);
  }

  lemma NoSuchPrefix(a: string, prefix: string, i: nat)
    requires i < |a| && i < |prefix| && a[i] != prefix[i]
    ensures SlashAfterPrefix(a, prefix) == 0
  {
    assert |a| >= |prefix| ==> a[..|prefix|][i] == a[i];
  }

  /** Joining onto a path behind a server happens behind the server; an absolute path goes right behind it. */
  lemma ServerIsKept(server: string, path: string, b: string)
    requires IsServer(server) && StartsWith(path, "/")
    ensures !StartsWith(path, "//") ==> JoinedPath(server + path, b) == server + JoinedPath(path, b)
    ensures StartsWith(b, "/") && StablePieces(PathPieces(b)) ==> JoinedPath(server + path, b) == server + b
  {
    ServerEnds(server, path);
    assert (server + path)[..|server|] == server && (server + path)[|server|..] == path;
    if !StartsWith(path, "//") {
      PathHasNoProtocol(path);
      assert path[..0] == "" && path[0..] == path;
    }
    hide StartsWith, ProtocolEnd, PathPieces;
    if StartsWith(b, "/") && StablePieces(PathPieces(b)) {
      EmptyFirst(PathPieces(b));
      StablePiecesPass([], PathPieces(b));
      FlattenPathPieces(b);
    }
  }

  lemma PathHasNoProtocol(path: string)
    requires StartsWith(path, "/") && !StartsWith(path, "//")
    ensures ProtocolEnd(path) == 0
  {
    assert path[0] == path[..1][0] == '/';
    assert "http://"[0] == 'h' && "https://"[0] == 'h';
  }

  // ---- joining and normalising ----------------------------------------------------------------------

  /** No empty segment, the last one excepted. */
  ghost predicate NoEmpty(segments: seq<string>) {
    forall k :: 0 <= k < |segments| - 1 ==> segments[k] != ""
  }

  function Slashed(segments: seq<string>): seq<string> {
    if segments == [] then [] else [segments[0] + "/"] + Slashed(segments[1..])
  }

  lemma {:induction false} SlashedConcat(a: seq<string>, b: seq<string>)
    ensures Slashed(a + b) == Slashed(a) + Slashed(b)
  {
    if a == [] {
      assert a + b == b;
    } else {
      assert (a + b)[1..] == a[1..] + b;
      SlashedConcat(a[1..], b);
    }
  }

  lemma {:induction false} SlashedAt(segments: seq<string>)
    ensures |Slashed(segments)| == |segments|
    ensures forall k :: 0 <= k < |segments| ==> Slashed(segments)[k] == segments[k] + "/"
  {
    if segments != [] {
      SlashedAt(segments[1..]);
    }
  }

  lemma SlashEqual(x: string, y: string)
    ensures x + "/" == y + "/" <==> x == y
  {
    assert (x + "/")[..|x|] == x && (y + "/")[..|y|] == y;
  }

  lemma SlashedPush(stack: seq<string>, segment: string)
    ensures Slashed(stack + [segment]) == Slashed(stack) + [segment + "/"]
  {
    SlashedConcat(stack, [segment]);
    assert [segment][1..] == [];
  }

  lemma SlashedLast(stack: seq<string>)
    requires stack != []
    ensures var n := |stack| - 1;
            |Slashed(stack)| == |stack| && Slashed(stack)[n] == stack[n] + "/" && Slashed(stack)[..n] == Slashed(stack[..n])
  {
    var n := |stack| - 1;
    SlashedAt(stack);
    SlashedPush(stack[..n], stack[n]);
    SlashedAt(stack[..n]);
    assert stack == stack[..n] + [stack[n]];
  }

  lemma SlashedDots(segment: string)
    ensures segment + "/" == "./" <==> segment == "."
    ensures segment + "/" == "../" <==> segment == ".."
    ensures segment + "/" == "/" <==> segment == ""
  {
    SlashEqual(segment, ".");
    SlashEqual(segment, "..");
    SlashEqual(segment, "");
    assert "." + "/" == "./" && ".." + "/" == "../" && "" + "/" == "/";
  }

  /** On pieces and on segments the two normalisers take the same step. */
  lemma SameStep(stack: seq<string>, segment: string)
    requires "" !in stack && segment != ""
    ensures PushPiece(Slashed(stack), segment + "/") == Slashed(PushSegment(stack, segment))
    ensures "" !in PushSegment(stack, segment)
  {
    SlashedDots(segment);
    SlashedPush(stack, segment);
    if stack == [] {
      assert Slashed(stack) == [];
    } else {
      SlashedLast(stack);
      SlashedDots(stack[|stack| - 1]);
      hide Slashed;
      assert stack[|stack| - 1] in stack;
    }
  }

  lemma {:induction false} SameNormalForm(stack: seq<string>, segments: seq<string>)
    requires "" !in stack && |segments| >= 1 && NoEmpty(segments) && forall k :: 0 <= k < |segments| ==> Plain(segments[k])
    ensures PushAll(Slashed(stack), PiecesOf(segments))
         == Slashed(Reduce(stack, segments[..|segments| - 1])) + PiecesOf([segments[|segments| - 1]])
    decreases |segments|
  {
    var n := |segments| - 1;
    if n == 0 {
      LastIsPushed(Slashed(stack), segments);
      assert segments[..0] == [] && segments == [segments[0]];
    } else {
      SameStep(stack, segments[0]);
      FirstIsPushed(Slashed(stack), segments);
      assert segments[..n][1..] == segments[1..][..n - 1];
      assert segments[1..][n - 1] == segments[n];
      hide PushPiece, PushSegment, Slashed, PiecesOf, PushAll;
      SameNormalForm(PushSegment(stack, segments[0]), segments[1..]);
    }
  }

  lemma LastIsPushed(pieces: seq<string>, segments: seq<string>)
    requires |segments| == 1 && Plain(segments[0])
    ensures PushAll(pieces, PiecesOf(segments)) == pieces + PiecesOf(segments)
  {
    if segments[0] != "" {
      assert segments[0] != "./" && segments[0] != "../" by {
        assert "./"[1] == '/' && "../"[2] == '/';
      }
      assert [segments[0]][1..] == [];
    } else {
      assert pieces + [] == pieces;
    }
  }

  lemma FirstIsPushed(pieces: seq<string>, segments: seq<string>)
    requires |segments| > 1
    ensures PushAll(pieces, PiecesOf(segments)) == PushAll(PushPiece(pieces, segments[0] + "/"), PiecesOf(segments[1..]))
  {
    assert ([segments[0] + "/"] + PiecesOf(segments[1..]))[1..] == PiecesOf(segments[1..]);
  }

  lemma {:induction false} PiecesOfInit(init: seq<string>, last: string)
    ensures PiecesOf(init + [last]) == Slashed(init) + PiecesOf([last])
  {
    if init == [] {
      assert init + [last] == [last];
    } else {
      assert (init + [last])[1..] == init[1..] + [last];
      PiecesOfInit(init[1..], last);
    }
  }

  /** A protocol, or a network path, has an empty segment. */
  lemma ProtocolHasEmpty(s: string, head: string)
    requires Plain(head) && StartsWith(s, head + "//")
    ensures !NoEmpty(Split(s))
  {
    var rest := s[|head| + 2..];
    assert s == head + "/" + ("" + "/" + rest) by {
      assert s == (head + "//") + rest;
      assert head + "//" == head + "/" + "/";
    }
    SplitAtSlash(head, "" + "/" + rest);
    SplitAtSlash("", rest);
    SplitPlain(head);
    SplitPlain("");
    assert Split(s)[1] == "";
  }

  lemma NoProtocol(s: string)
    requires NoEmpty(Split(s))
    ensures !StartsWith(s, "//") && !StartsWith(s, "http://") && !StartsWith(s, "https://")
  {
    if StartsWith(s, "//") {
      assert "" + "//" == "//";
      ProtocolHasEmpty(s, "");
    }
    if StartsWith(s, "http://") {
      assert "http:" + "//" == "http://";
      ProtocolHasEmpty(s, "http:");
    }
    if StartsWith(s, "https://") {
      assert "https:" + "//" == "https://";
      ProtocolHasEmpty(s, "https:");
    }
  }

  lemma LeadingSlashHasEmpty(s: string)
    requires StartsWith(s, "/")
    ensures !NoEmpty(Split(s))
  {
    assert s == "" + "/" + s[1..];
    SplitAtSlash("", s[1..]);
    SplitPlain("");
    assert Split(s)[0] == "";
  }

  /** Without empty segments, joining onto a folder is normalising the concatenation. */
  lemma JoinIsNormalise(a: string, b: string)
    requires IsFolder(a) && NoEmpty(Split(a + b))
    ensures JoinedPath(a, b) == NormalId(a + b)
  {
    var segments := Split(a + b);
    NoProtocolInFolder(a, b);
    NoSlashBehindFolder(a, b);
    assert a[0..] == a && a[..0] == "";
    PathPiecesConcat(a, b);
    PushAllConcat([], PathPieces(a), PathPieces(b));
    SameNormalForm([], segments);
    var n := |segments| - 1;
    var reduced := Reduce([], segments[..n]);
    PiecesOfInit(reduced, segments[n]);
    FlattenPieces(Normal(segments));
    hide Split, Normal, Flatten, PiecesOf, PathPieces, PushAll;
    assert "" + Flatten(PiecesOf(Normal(segments))) == Flatten(PiecesOf(Normal(segments)));
  }

  lemma StartsBoth(a: string, b: string, needle: string)
    requires StartsWith(a, needle)
    ensures StartsWith(a + b, needle)
  {
    assert (a + b)[..|needle|] == a[..|needle|];
  }

  lemma NoProtocolInFolder(a: string, b: string)
    requires NoEmpty(Split(a + b))
    ensures ProtocolEnd(a) == 0
  {
    NoProtocol(a + b);
    if StartsWith(a, "//") {
      StartsBoth(a, b, "//");
    }
    if StartsWith(a, "http://") {
      StartsBoth(a, b, "http://");
    }
    if StartsWith(a, "https://") {
      StartsBoth(a, b, "https://");
    }
  }

  lemma NoSlashBehindFolder(a: string, b: string)
    requires IsFolder(a) && NoEmpty(Split(a + b))
    ensures !StartsWith(b, "/")
  {
    SplitBehindFolder(a, b);
    hide Split;
    forall k | 0 <= k < |Split(b)| - 1 ensures Split(b)[k] != "" {
      assert Split(a + b)[|Split(a)| - 1 + k] == Split(b)[k];
    }
    if StartsWith(b, "/") {
      LeadingSlashHasEmpty(b);
    }
  }

  // ---- rewriting ------------------------------------------------------------------------------------

  /** What `rewriteUrls` makes of one url. */
  function RewrittenUrl(originalFile: string, newFile: string, url: string): string {
    RelativeTo(newFile, JoinedPath(PathOf(originalFile), url))
  }

  /** A relative path in normal form that does not leave its root. */
  ghost predicate CleanFile(file: string) {
    forall k :: 0 <= k < |Split(file)| - 1 ==> Split(file)[k] != "" && Split(file)[k] != "." && Split(file)[k] != ".."
  }

  /** A joined path without a protocol falls apart into the stable pieces it was made of. */
  lemma JoinedPieces(a: string, b: string)
    requires ProtocolEnd(a) == 0 && IsFolder(a)
    ensures StablePieces(PathPieces(JoinedPath(a, b)))
  {
    assert a[0..] == a && a[..0] == "";
    var pieces := if StartsWith(b, "/") then [] else PushAll([], PathPieces(a));
    SplitBehindFolder(a, "");
    PushAllWellFormed([], Split(a));
    PushAllIsStable([], PathPieces(a));
    PushAllWellFormed(pieces, Split(b));
    PushAllIsStable(pieces, PathPieces(b));
    var all := PushAll(pieces, PathPieces(b));
    PiecesOfFlatten(all);
    assert "" + Flatten(all) == Flatten(all);
  }

  /** If the joined path has no empty segment, no protocol was involved. */
  lemma JoinedWithoutProtocol(a: string, b: string)
    requires NoEmpty(Split(JoinedPath(a, b)))
    ensures ProtocolEnd(a) == 0
  {
    ProtocolEndInside(a);
    var joined := JoinedPath(a, b);
    var start := ProtocolEnd(a);
    assert joined[..start] == a[..start];
    NoProtocol(joined);
    KeepsPrefix(a, joined, start, "//");
    KeepsPrefix(a, joined, start, "http://");
    KeepsPrefix(a, joined, start, "https://");
    SlashAfterIsLong(a, "//");
    SlashAfterIsLong(a, "http://");
    SlashAfterIsLong(a, "https://");
  }

  lemma SlashAfterIsLong(a: string, prefix: string)
    ensures SlashAfterPrefix(a, prefix) != 0 ==> StartsWith(a, prefix) && SlashAfterPrefix(a, prefix) >= |prefix|
  {
  }

  lemma KeepsPrefix(a: string, joined: string, start: nat, prefix: string)
    requires start <= |a| && start <= |joined| && joined[..start] == a[..start]
    ensures start >= |prefix| && StartsWith(a, prefix) ==> StartsWith(joined, prefix)
  {
    if start >= |prefix| && StartsWith(a, prefix) {
      assert joined[..start][..|prefix|] == joined[..|prefix|];
      assert a[..start][..|prefix|] == a[..|prefix|];
    }
  }

  lemma {:induction false} PathOfConcat(prefix: string, rest: string)
    requires IsFolder(prefix)
    ensures PathOf(prefix + rest) == prefix + PathOf(rest)
    decreases |rest|
  {
    if rest == "" {
      assert prefix + rest == prefix;
    } else {
      var n := |rest| - 1;
      assert (prefix + rest)[|prefix + rest| - 1] == rest[n];
      assert (prefix + rest)[..|prefix + rest| - 1] == prefix + rest[..n];
      PathOfConcat(prefix, rest[..n]);
    }
  }

  /** The folder part of a path holds all its segments but the last. */
  lemma SplitOfPath(file: string)
    ensures Split(PathOf(file)) == Split(file)[..|Split(file)| - 1] + [""]
  {
    var folder := PathOf(file);
    var name := file[|folder|..];
    assert file == folder + name;
    SplitBehindFolder(folder, name);
    SplitPlain(name);
    var init := Split(folder)[..|Split(folder)| - 1];
    assert Split(file) == init + [name];
    assert init + [""] == Split(folder);
  }

  lemma NamesOfPath(file: string)
    requires CleanFile(file)
    ensures Names(PathPieces(PathOf(file))) && |PathPieces(PathOf(file))| == |Split(file)| - 1
  {
    SplitOfPath(file);
    var init := Split(file)[..|Split(file)| - 1];
    PiecesOfInit(init, "");
    assert Slashed(init) + [] == Slashed(init);
    SlashedAt(init);
    forall k | 0 <= k < |init| ensures Slashed(init)[k] != "./" && Slashed(init)[k] != "../" && Slashed(init)[k] != "/" {
      SlashedDots(init[k]);
      assert init[k] == Split(file)[k];
    }
  }

  lemma NamesAreStable(pieces: seq<string>)
    requires Names(pieces)
    ensures StablePieces(pieces)
  {
  }

  /** Behind a common folder, a clean file stays clean. */
  lemma CleanBehind(prefix: string, rest: string)
    requires IsFolder(prefix) && CleanFile(prefix + rest)
    ensures CleanFile(rest)
  {
    hide Split;
    SplitBehindFolder(prefix, rest);
    assert forall k :: 0 <= k < |Split(rest)| ==> Split(prefix + rest)[|Split(prefix)| - 1 + k] == Split(rest)[k];
  }

  lemma UpPiece(more: string)
    ensures PathPieces("../" + more) == ["../"] + PathPieces(more) && !StartsWith("../" + more, "/")
  {
    var all := "../" + more;
    assert all == ".." + "/" + more;
    SplitAtSlash("..", more);
    SplitPlain("..");
    assert ([".."] + Split(more))[1..] == Split(more);
    assert ".." + "/" == "../";
    assert all[0] == '.';
  }

  lemma {:induction false} UpsPieces(n: nat, rest: string)
    ensures PathPieces(Flatten(Ups(n)) + rest) == Ups(n) + PathPieces(rest)
    ensures StartsWith(Flatten(Ups(n)) + rest, "/") <==> n == 0 && StartsWith(rest, "/")
  {
    hide PathPieces, StartsWith;
    if n == 0 {
      assert Flatten(Ups(0)) + rest == rest;
      assert Ups(0) + PathPieces(rest) == PathPieces(rest);
    } else {
      UpsPieces(n - 1, rest);
      var more := Flatten(Ups(n - 1)) + rest;
      assert Ups(n)[1..] == Ups(n - 1);
      assert Flatten(Ups(n)) + rest == "../" + more;
      UpPiece(more);
      assert Ups(n) == ["../"] + Ups(n - 1);
    }
  }

  /** Paths that `relativePath` leaves alone. */
  predicate IsAbsolute(path: string) {
    StartsWith(path, "/") || IsRemote(path)
  }

  predicate IsRemote(path: string) {
    StartsWith(path, "http://") || StartsWith(path, "https://")
  }

  /** Where the relative path comes from, and when it begins with a slash. */
  lemma RelativeParts(newFile: string, target: string) returns (prefix: string, from: string, to: string)
    requires !IsAbsolute(target)
    ensures prefix == CommonFolderPrefix(newFile, target) && IsFolder(prefix)
    ensures newFile == prefix + from && target == prefix + to
    ensures RelativeTo(newFile, target) == Flatten(Ups(|Split(from)| - 1)) + to
    ensures |Split(from)| == 1 && StartsWith(to, "/") <==> StartsWith(target, PathOf(newFile) + "/")
  {
    prefix := CommonFolderPrefix(newFile, target);
    CommonFolderIsPrefix(newFile, target);
    hide Split, PathOf, CommonFolderPrefix, Flatten, StartsWith;
    from, to := newFile[|prefix|..], target[|prefix|..];
    SlashInFolder(newFile, target, prefix, from, to);
  }

  lemma CommonFolderIsPrefix(a: string, b: string)
    ensures var prefix := CommonFolderPrefix(a, b);
            IsFolder(prefix) && prefix <= a && prefix <= b && a == prefix + a[|prefix|..] && b == prefix + b[|prefix|..]
  {
    var prefix, common := CommonFolderPrefix(a, b), CommonPrefixOf(a, b);
    hide PathOf, CommonPrefixOf;
    assert prefix <= common;
  }

  lemma SlashInFolder(newFile: string, target: string, prefix: string, from: string, to: string)
    requires prefix == CommonFolderPrefix(newFile, target) && IsFolder(prefix)
    requires newFile == prefix + from && target == prefix + to
    ensures |Split(from)| == 1 && StartsWith(to, "/") <==> StartsWith(target, PathOf(newFile) + "/")
  {
    var folder := PathOf(newFile);
    hide PathOf, Split, CommonFolderPrefix, StartsWith;
    OneSegment(from);
    PathOfConcat(prefix, from);
    SlashBehind(prefix, to);
    assert prefix + "" == prefix;
    if StartsWith(target, folder + "/") {
      FolderIsTheCommonOne(newFile, target);
      SameRest(prefix, PathOf(from));
    }
  }

  lemma SameRest(a: string, b: string)
    ensures a + b == a ==> b == ""
  {
    assert |a + b| == |a| + |b|;
  }

  lemma FolderIsTheCommonOne(newFile: string, target: string)
    requires StartsWith(target, PathOf(newFile) + "/")
    ensures CommonFolderPrefix(newFile, target) == PathOf(newFile)
  {
    var folder := PathOf(newFile);
    hide PathOf, CommonFolderPrefix;
    var name, rest := newFile[|folder|..], target[|folder|..];
    assert newFile == folder + name;
    assert target == folder + rest by {
      assert target[..|folder + "/"|] == folder + "/";
      assert (folder + "/")[..|folder|] == folder;
      assert target[..|folder|] == target[..|folder + "/"|][..|folder|];
    }
    SlashBehind(folder, rest);
    hide StartsWith;
    FolderIsCommon(folder, name, rest);
  }

  lemma SlashBehind(a: string, b: string)
    ensures StartsWith(a + b, a + "/") <==> StartsWith(b, "/")
  {
    assert (a + "/")[|a|] == '/';
    if |b| > 0 {
      assert (a + b)[|a|] == b[0];
      assert (a + b)[..|a| + 1] == a + [b[0]];
    }
  }

  lemma OneSegment(s: string)
    ensures |Split(s)| == 1 <==> PathOf(s) == ""
  {
    SplitOfPath(s);
    if PathOf(s) == "" {
      assert Split("") == [""];
    } else {
      var folder := PathOf(s);
      SplitBehindFolder(folder, "");
      var x := folder[..|folder| - 1];
      assert folder == x + "/" + "";
      SplitAtSlash(x, "");
    }
  }

  /** The paths have their first c folders in common, and no more. */
  ghost predicate SharedFolders(from: seq<string>, to: seq<string>, c: nat) {
    && c < |from| && c < |to| && from[..c] == to[..c]
    && (c == |from| - 1 || c == |to| - 1 || from[c] != to[c])
  }

  /** The shortest way: up from the folders that are not shared, and down what is not shared of the target. */
  lemma RelativeIsShort(fromPath: string, toPath: string) returns (c: nat)
    requires !IsAbsolute(toPath)
    ensures SharedFolders(Split(fromPath), Split(toPath), c)
    ensures RelativeTo(fromPath, toPath) == Flatten(Ups(|Split(fromPath)| - 1 - c)) + Join(Split(toPath)[c..])
  {
    hide Split, RelativeTo, Flatten, IsAbsolute;
    var prefix, from, to := RelativeParts(fromPath, toPath);
    c := |Split(prefix)| - 1;
    SplitBehindFolder(prefix, from);
    SplitBehindFolder(prefix, to);
    JoinSplit(to);
    assert Split(toPath)[c..] == Split(to);
    assert Split(fromPath)[c] == Split(from)[0] && Split(toPath)[c] == Split(to)[0];
    FoldersPartBehind(prefix, from, to);
  }

  lemma FirstFolder(path: string) returns (rest: string)
    requires |Split(path)| > 1
    ensures path == Split(path)[0] + "/" + rest
  {
    JoinSplit(path);
    rest := Join(Split(path)[1..]);
  }

  /** Behind the common folder prefix no folder is shared. */
  lemma FoldersPartBehind(prefix: string, from: string, to: string)
    requires prefix == CommonFolderPrefix(prefix + from, prefix + to)
    ensures |Split(from)| > 1 && |Split(to)| > 1 ==> Split(from)[0] != Split(to)[0]
  {
    if |Split(from)| > 1 && |Split(to)| > 1 && Split(from)[0] == Split(to)[0] {
      var x := FirstFolder(from);
      var y := FirstFolder(to);
      var folder := Split(from)[0] + "/";
      hide Split, CommonFolderPrefix;
      Regroup(prefix, folder, x);
      Regroup(prefix, folder, y);
      FolderIsShared(prefix + folder, x, y);
    }
  }

  lemma FolderIsShared(folder: string, a: string, b: string)
    requires folder != "" && IsFolder(folder)
    ensures |CommonFolderPrefix(folder + a, folder + b)| >= |folder|
  {
    var common := CommonPrefixOf(folder + a, folder + b);
    CommonIsLongest(folder, folder + a, folder + b);
    hide PathOf, CommonPrefixOf;
    assert common == folder + common[|folder|..];
    PathOfConcat(folder, common[|folder|..]);
  }

  lemma {:induction false} CommonIsLongest(prefix: string, a: string, b: string)
    requires prefix <= a && prefix <= b
    ensures prefix <= CommonPrefixOf(a, b)
  {
    if prefix != "" {
      CommonIsLongest(prefix[1..], a[1..], b[1..]);
    }
  }

  /** The relative path leads from the folder of the file to the target, unless it begins with a slash. */
  lemma RelativeLeadsBack(newFile: string, target: string)
    requires CleanFile(newFile) && !IsAbsolute(target) && StablePieces(PathPieces(target))
    requires !StartsWith(target, PathOf(newFile) + "/")
    ensures JoinedPath(PathOf(newFile), RelativeTo(newFile, target)) == target
  {
    hide Split, PathPieces, PathOf, RelativeTo, StablePieces, Names, CleanFile, Flatten, PushAll, ProtocolEnd, StartsWith,
      IsAbsolute;
    var prefix, from, to := RelativeParts(newFile, target);
    var up := |Split(from)| - 1;
    var folder := PathOf(newFile);
    PathOfConcat(prefix, from);
    CleanBehind(prefix, from);
    NamesOfPath(from);
    NamesOfPath(newFile);
    PathIsFolder(from);
    PathPiecesConcat(prefix, PathOf(from));
    PathPiecesConcat(prefix, to);
    UpsPieces(up, to);
    FolderHasNoProtocol(newFile);
    assert folder[0..] == folder && folder[..0] == "";
    JoinsToTarget(PathPieces(prefix), PathPieces(PathOf(from)), PathPieces(to));
    FlattenPathPieces(target);
    assert "" + target == target;
  }

  lemma PathIsFolder(file: string)
    ensures IsFolder(PathOf(file))
  {
  }

  /** Down through the names and up again, then on to the target. */
  lemma JoinsToTarget(prefix: seq<string>, names: seq<string>, to: seq<string>)
    requires Names(prefix + names) && Names(names) && StablePieces(prefix + to)
    ensures PushAll(PushAll([], prefix + names), Ups(|names|) + to) == prefix + to
  {
    NamesAreStable(prefix + names);
    assert [] + (prefix + names) == prefix + names;
    StablePiecesPass([], prefix + names);
    PushAllConcat(prefix + names, Ups(|names|), to);
    UpsTakeNames(prefix, names);
    StablePiecesPass(prefix, to);
  }

  lemma FolderHasNoProtocol(file: string)
    requires CleanFile(file)
    ensures ProtocolEnd(PathOf(file)) == 0
  {
    SplitOfPath(file);
    var folder := PathOf(file);
    assert NoEmpty(Split(folder)) by {
      forall k | 0 <= k < |Split(folder)| - 1 ensures Split(folder)[k] != "" {
        assert Split(folder)[k] == Split(file)[k];
      }
    }
    assert folder + "" == folder;
    NoProtocolInFolder(folder, "");
  }

  /** A leading slash stays in front, whatever is pushed behind it. */
  lemma {:induction false} LeadingSlashStays(pieces: seq<string>, more: seq<string>)
    requires pieces != [] && pieces[0] == "/"
    ensures Flatten(PushAll(pieces, more)) != "" && Flatten(PushAll(pieces, more))[0] == '/'
    decreases |more|
  {
    if more != [] {
      LeadingSlashStays(PushPiece(pieces, more[0]), more[1..]);
    }
  }

  lemma AbsoluteJoinsAbsolute(a: string, b: string)
    requires ProtocolEnd(a) == 0 && StartsWith(b, "/")
    ensures StartsWith(JoinedPath(a, b), "/")
  {
    var rest := b[1..];
    assert b == "" + "/" + rest;
    SplitAtSlash("", rest);
    SplitPlain("");
    assert ([""] + Split(rest))[1..] == Split(rest);
    assert "" + "/" == "/";
    assert PathPieces(b) == ["/"] + PathPieces(rest);
    assert (["/"] + PathPieces(rest))[1..] == PathPieces(rest);
    var all := PushAll([], PathPieces(b));
    assert PushPiece([], "/") == ["/"];
    assert all == PushAll(["/"], PathPieces(rest));
    LeadingSlashStays(["/"], PathPieces(rest));
    assert a[..0] + Flatten(all) == Flatten(all);
  }

  /** A target in the folder of the new file, behind another slash, is lost: the rewritten url is absolute. */
  lemma SlashLosesTarget(newFile: string, target: string)
    requires CleanFile(newFile) && !IsAbsolute(target) && StartsWith(target, PathOf(newFile) + "/")
    ensures JoinedPath(PathOf(newFile), RelativeTo(newFile, target)) != target
  {
    var folder := PathOf(newFile);
    hide Split, CleanFile, PathOf, RelativeTo, JoinedPath, CommonFolderPrefix;
    var prefix, from, to := RelativeParts(newFile, target);
    assert Flatten(Ups(0)) + to == to;
    FolderHasNoProtocol(newFile);
    AbsoluteJoinsAbsolute(folder, to);
  }

  /** An absolute path of the same server is kept. */
  lemma AbsoluteIsKept(newFile: string, target: string)
    requires CleanFile(newFile) && StartsWith(target, "/") && StablePieces(PathPieces(target))
    ensures JoinedPath(PathOf(newFile), RelativeTo(newFile, target)) == target
  {
    FolderHasNoProtocol(newFile);
    assert PathOf(newFile)[..0] == "";
    assert [] + PathPieces(target) == PathPieces(target);
    StablePiecesPass([], PathPieces(target));
    FlattenPathPieces(target);
    assert "" + target == target;
  }

  lemma RemoteFirstPiece(target: string)
    requires IsRemote(target)
    ensures var pieces := PathPieces(target); pieces != [] && pieces[0] != "../" && pieces[0] != "./"
  {
    var n := if StartsWith(target, "http://") then 5 else 6;
    var scheme := target[..n];
    var rest := target[n + 1..];
    assert target[n] == '/' && target == scheme + "/" + rest;
    assert Plain(scheme) by {
      if StartsWith(target, "http://") {
        assert target[..7] == "http://" && scheme == target[..7][..5] == "http:";
      } else {
        assert target[..8] == "https://" && scheme == target[..8][..6] == "https:";
      }
    }
    SplitAtSlash(scheme, rest);
    SplitPlain(scheme);
    assert ([scheme] + Split(rest))[0] == scheme;
    assert PathPieces(target)[0] == scheme + "/" && |scheme + "/"| > 3;
  }

  /** A path with a protocol is taken for a relative one when it is joined: kept only at the root. */
  lemma RemoteIsAppended(newFile: string, target: string)
    requires CleanFile(newFile) && IsRemote(target) && !StartsWith(target, "/") && StablePieces(PathPieces(target))
    ensures JoinedPath(PathOf(newFile), RelativeTo(newFile, target)) == PathOf(newFile) + target
  {
    var folder := PathOf(newFile);
    var names, pieces := PathPieces(folder), PathPieces(target);
    RemoteFirstPiece(target);
    FolderHasNoProtocol(newFile);
    NamesOfPath(newFile);
    assert RelativeTo(newFile, target) == target;
    hide PathPieces, PathOf, CleanFile, ProtocolEnd, StartsWith;
    JoinedRelative(folder, target);
    hide JoinedPath, RelativeTo;
    assert [] + names == names;
    NamesAreStable(names);
    StablePiecesPass([], names);
    assert StablePieces(names + pieces);
    StablePiecesPass(names, pieces);
    FlattenConcat(names, pieces);
    FlattenPathPieces(folder);
    FlattenPathPieces(target);
  }

  lemma JoinedRelative(a: string, b: string)
    requires ProtocolEnd(a) == 0 && !StartsWith(b, "/")
    ensures JoinedPath(a, b) == Flatten(PushAll(PushAll([], PathPieces(a)), PathPieces(b)))
  {
    hide ProtocolEnd, StartsWith, PushAll, PathPieces, Flatten;
    assert a[0..] == a && a[..0] == "";
    assert "" + Flatten(PushAll(PushAll([], PathPieces(a)), PathPieces(b)))
        == Flatten(PushAll(PushAll([], PathPieces(a)), PathPieces(b)));
  }

  /** The targets that a rewritten url still reaches from the new file. */
  predicate IsKept(newFile: string, target: string) {
    if StartsWith(target, "/") then true
    else if IsRemote(target) then PathOf(newFile) == ""
    else !StartsWith(target, PathOf(newFile) + "/")
  }

  /**
   The rewritten url means in the new file what the url meant in the original one, exactly unless the
   target has a slash right behind the folder of the new file, or a protocol: for a new file below its
   root, and an original file without a protocol.
   */
  lemma RewritingKeepsTheTarget(originalFile: string, newFile: string, url: string)
    requires CleanFile(newFile) && ProtocolEnd(PathOf(originalFile)) == 0
    ensures var target := JoinedPath(PathOf(originalFile), url);
            JoinedPath(PathOf(newFile), RewrittenUrl(originalFile, newFile, url)) == target <==> IsKept(newFile, target)
  {
    var target := JoinedPath(PathOf(originalFile), url);
    JoinedPieces(PathOf(originalFile), url);
    hide JoinedPath, PathOf, CleanFile, ProtocolEnd, StablePieces, PathPieces, RelativeTo, StartsWith;
    if StartsWith(target, "/") {
      AbsoluteIsKept(newFile, target);
    } else if IsRemote(target) {
      RemoteIsAppended(newFile, target);
    } else if StartsWith(target, PathOf(newFile) + "/") {
      SlashLosesTarget(newFile, target);
    } else {
      RelativeLeadsBack(newFile, target);
    }
  }

  /** The url to write into the new file; it leads to the old target exactly if that can be kept. */
  method RewriteUrl(originalFile: string, newFile: string, url: string) returns (result: string)
    ensures result == RewrittenUrl(originalFile, newFile, url)
    ensures CleanFile(newFile) && ProtocolEnd(PathOf(originalFile)) == 0 ==>
              var target := JoinedPath(PathOf(originalFile), url);
              JoinedPath(PathOf(newFile), result) == target <==> IsKept(newFile, target)
  {
    var absoluteUrl := JoinPaths(PathOf(originalFile), url);
    result := RelativePath(newFile, absoluteUrl);
    if CleanFile(newFile) && ProtocolEnd(PathOf(originalFile)) == 0 {
      RewritingKeepsTheTarget(originalFile, newFile, url);
    }
  }

  /** A target without empty segments is kept. */
  lemma CleanTargetsAreKept(originalFile: string, newFile: string, url: string)
    requires CleanFile(newFile) && NoEmpty(Split(JoinedPath(PathOf(originalFile), url)))
    ensures JoinedPath(PathOf(newFile), RewrittenUrl(originalFile, newFile, url)) == JoinedPath(PathOf(originalFile), url)
  {
    var target, folder := JoinedPath(PathOf(originalFile), url), PathOf(newFile);
    JoinedWithoutProtocol(PathOf(originalFile), url);
    NoProtocol(target);
    if StartsWith(target, "/") {
      LeadingSlashHasEmpty(target);
    }
    hide JoinedPath, PathOf, CleanFile, ProtocolEnd, Split;
    if StartsWith(target, folder + "/") {
      var rest := target[|folder|..];
      assert target == folder + rest;
      SlashBehind(folder, rest);
      PathIsFolder(newFile);
      NoSlashBehindFolder(folder, rest);
    }
    RewritingKeepsTheTarget(originalFile, newFile, url);
  }

  /** The folder of a file is the common folder with anything else in it. */
  lemma FolderIsCommon(folder: string, name: string, rest: string)
    requires IsFolder(folder) && '/' !in name && StartsWith(rest, "/")
    ensures CommonFolderPrefix(folder + name, folder + rest) == folder
  {
    var common := CommonPrefixOf(folder + name, folder + rest);
    FolderIsPrefix(folder, name, rest);
    assert PathOf(folder) == folder;
    hide CommonPrefixOf, PathOf;
    var more := common[|folder|..];
    assert common == folder + more;
    assert more <= name && more <= rest;
    assert name != "" ==> name[0] in name;
    assert more == "";
    assert common == folder;
  }

  lemma {:induction false} FolderIsPrefix(folder: string, a: string, b: string)
    ensures folder <= CommonPrefixOf(folder + a, folder + b)
    ensures CommonPrefixOf(folder + a, folder + b)[|folder|..] <= a
    ensures CommonPrefixOf(folder + a, folder + b)[|folder|..] <= b
    decreases |folder|
  {
    if folder == "" {
      assert folder + a == a && folder + b == b;
    } else {
      assert (folder + a)[1..] == folder[1..] + a && (folder + b)[1..] == folder[1..] + b;
      FolderIsPrefix(folder[1..], a, b);
    }
  }

  lemma SlashTooManySplits()
    ensures Split("a/") == ["a", ""] && Split("a/y") == ["a", "y"] && Split(".//b") == [".", "", "b"]
  {
    SplitPlain("");
    SplitPlain("b");
    SplitPlain("y");
    SplitPlain("a");
    SplitPlain(".");
    SplitAtSlash("a", "");
    SplitAtSlash("a", "y");
    SplitAtSlash("", "b");
    SplitAtSlash(".", "/b");
    hide Split;
    assert "a" + "/" + "" == "a/" && "a" + "/" + "y" == "a/y" && "" + "/" + "b" == "/b" && "." + "/" + "/b" == ".//b";
    assert ["a"] + [""] == ["a", ""] && [""] + ["b"] == ["", "b"] && ["."] + ["", "b"] == [".", "", "b"];
  }

  lemma SlashTooManyPieces()
    ensures PathPieces("a/") == ["a/"] && PathPieces(".//b") == ["./", "/", "b"]
  {
    SlashTooManySplits();
    hide Split;
    assert ["a", ""][1..] == [""] && [".", "", "b"][1..] == ["", "b"] && ["", "b"][1..] == ["b"];
    assert "a" + "/" == "a/" && PiecesOf([""]) == [];
    assert PiecesOf(["a", ""]) == ["a/"] + [];
    assert "" + "/" == "/" && "." + "/" == "./" && PiecesOf(["b"]) == ["b"];
    assert PiecesOf(["", "b"]) == ["/"] + ["b"];
    assert PiecesOf([".", "", "b"]) == ["./"] + ["/", "b"];
  }

  lemma SlashTooManyPushed()
    ensures Flatten(PushAll(PushAll([], ["a/"]), ["./", "/", "b"])) == "a//b"
  {
    assert [] + ["a/"] == ["a/"];
    assert ["./", "/", "b"][1..] == ["/", "b"] && ["/", "b"][1..] == ["b"];
    assert PushAll([], ["a/"]) == ["a/"];
    assert PushAll(["a/"], ["./", "/", "b"]) == ["a/", "/", "b"];
    assert Flatten(["a/", "/", "b"]) == "a//b";
  }

  lemma SlashTooManyJoined()
    ensures PathOf("a/x") == "a/" && PathOf("a/y") == "a/" && JoinedPath("a/", ".//b") == "a//b"
  {
    assert "a/x"[..2] == "a/" && "a/y"[..2] == "a/";
    SlashTooManySplits();
    FolderHasNoProtocol("a/y");
    SlashTooManyPieces();
    SlashTooManyPushed();
    hide PathPieces, PushAll, Flatten, ProtocolEnd, Split;
    assert "a/"[0..] == "a/" && !StartsWith(".//b", "/") && "a/"[..0] + "a//b" == "a//b";
  }

  /** A url with a slash too many, moved from one file to another in the same folder, leads elsewhere. */
  lemma SlashTooMany()
    ensures var target := JoinedPath(PathOf("a/x"), ".//b");
            && CleanFile("a/y") && target == "a//b" && !IsKept("a/y", target)
            && JoinedPath(PathOf("a/y"), RewrittenUrl("a/x", "a/y", ".//b")) != target
  {
    SlashTooManyJoined();
    SlashTooManySplits();
    hide JoinedPath, PathPieces, PathOf, Split;
    assert CleanFile("a/y") && "a//b"[..1][0] == 'a' && "a//b"[..3] == "a/" + "/";
    SlashLosesTarget("a/y", "a//b");
  }
}
