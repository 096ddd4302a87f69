/** Joining and relating paths piece by piece, a piece being a segment with the slash behind it. */
module Pieces {
  import opened Segments

  function PiecesOf(segments: seq<string>): seq<string>
    requires |segments| >= 1
  {
    if |segments| == 1 then if segments[0] == "" then [] else [segments[0]]
    else [segments[0] + "/"] + PiecesOf(segments[1..])
  }

  /** The pieces `push` takes off a path, one after the other. */
  function PathPieces(path: string): seq<string> {
    PiecesOf(Split(path))
  }

  function Flatten(pieces: seq<string>): string {
    if pieces == [] then "" else pieces[0] + Flatten(pieces[1..])
  }

  /** `pushPiece` */
  function PushPiece(pieces: seq<string>, piece: string): seq<string> {
    if piece == "./" then pieces
    else if piece == "../" && pieces != [] && pieces[|pieces| - 1] == "/" then pieces
    else if piece == "../" && pieces != [] && pieces[|pieces| - 1] != "../" then pieces[..|pieces| - 1]
    else pieces + [piece]
  }

  function PushAll(pieces: seq<string>, more: seq<string>): seq<string>
    decreases |more|
  {
    if more == [] then pieces else PushAll(PushPiece(pieces, more[0]), more[1..])
  }

  function IndexFrom(s: string, c: char, from: nat): int
    requires from <= |s|
    decreases |s| - from
  {
    if from == |s| then -1 else if s[from] == c then from else IndexFrom(s, c, from + 1)
  }

  /** `findSlashIndexAfterPrefix` */
  function SlashAfterPrefix(haystack: string, prefix: string): nat {
    if StartsWith(haystack, prefix) then
      var index := IndexFrom(haystack, '/', |prefix|);
      if index > |prefix| then index else |prefix|
    else 0
  }

  /** Where the path of a begins, behind a protocol. */
  function ProtocolEnd(a: string): nat {
    if SlashAfterPrefix(a, "//") != 0 then SlashAfterPrefix(a, "//")
    else if SlashAfterPrefix(a, "http://") != 0 then SlashAfterPrefix(a, "http://")
    else SlashAfterPrefix(a, "https://")
  }

  lemma {:induction false} IndexInside(s: string, c: char, from: nat)
    requires from <= |s|
    ensures IndexFrom(s, c, from) < |s|
    ensures IndexFrom(s, c, from) >= 0 ==> from <= IndexFrom(s, c, from) && s[IndexFrom(s, c, from)] == c
                                           && c !in s[from..IndexFrom(s, c, from)]
    ensures IndexFrom(s, c, from) < 0 ==> c !in s[from..]
    decreases |s| - from
  {
    if from < |s| && s[from] != c {
      IndexInside(s, c, from + 1);
      var i := IndexFrom(s, c, from + 1);
      if i >= 0 {
        assert s[from..i] == [s[from]] + s[from + 1..i];
      } else {
        assert s[from..] == [s[from]] + s[from + 1..];
      }
    }
  }

  lemma ProtocolEndInside(a: string)
    ensures ProtocolEnd(a) <= |a|
  {
    forall prefix | StartsWith(a, prefix) ensures SlashAfterPrefix(a, prefix) <= |a| {
      IndexInside(a, '/', |prefix|);
    }
  }

  /** `joinPaths` */
  function JoinedPath(a: string, b: string): string {
    ProtocolEndInside(a);
    var start := ProtocolEnd(a);
    var pieces := if StartsWith(b, "/") then [] else PushAll([], PathPieces(a[start..]));
    a[..start] + Flatten(PushAll(pieces, PathPieces(b)))
  }

  // ---- pieces and segments ------------------------------------------------------------------------

  lemma {:induction false} FlattenPieces(segments: seq<string>)
    requires |segments| >= 1
    ensures Flatten(PiecesOf(segments)) == Join(segments)
  {
    if |segments| > 1 {
      FlattenPieces(segments[1..]);
      assert ([segments[0] + "/"] + PiecesOf(segments[1..]))[1..] == PiecesOf(segments[1..]);
    } else if segments[0] != "" {
      assert [segments[0]][1..] == [];
    }
  }

  lemma FlattenPathPieces(path: string)
    ensures Flatten(PathPieces(path)) == path
  {
    FlattenPieces(Split(path));
    JoinSplit(path);
  }

  lemma {:induction false} FlattenConcat(a: seq<string>, b: seq<string>)
    ensures Flatten(a + b) == Flatten(a) + Flatten(b)
  {
    if a == [] {
      assert a + b == b;
    } else {
      assert (a + b)[1..] == a[1..] + b;
      FlattenConcat(a[1..], b);
    }
  }

  lemma {:induction false} PiecesOfConcat(a: seq<string>, b: seq<string>)
    requires |b| >= 1
    ensures PiecesOf(a + b) == PiecesOf(a + [""]) + PiecesOf(b)
    decreases |a|
  {
    if a == [] {
      assert a + b == b && a + [""] == [""];
    } else {
      assert (a + b)[1..] == a[1..] + b && (a + [""])[1..] == a[1..] + [""];
      PiecesOfConcat(a[1..], b);
    }
  }

  ghost predicate IsFolder(path: string) {
    path == "" || path[|path| - 1] == '/'
  }

  /** A folder splits off cleanly. */
  lemma SplitBehindFolder(a: string, b: string)
    requires IsFolder(a)
    ensures Split(a)[|Split(a)| - 1] == ""
    ensures Split(a + b) == Split(a)[..|Split(a)| - 1] + Split(b)
  {
    if a == "" {
      assert a + b == b;
      assert Split(a)[..0] + Split(b) == Split(b);
    } else {
      var x := a[..|a| - 1];
      assert a == x + "/" + "";
      SplitAtSlash(x, "");
      assert a + b == x + "/" + b;
      SplitAtSlash(x, b);
      assert (Split(x) + [""])[..|Split(x) + [""]| - 1] == Split(x);
    }
  }

  lemma PathPiecesConcat(a: string, b: string)
    requires IsFolder(a)
    ensures PathPieces(a + b) == PathPieces(a) + PathPieces(b)
  {
    SplitBehindFolder(a, b);
    var init := Split(a)[..|Split(a)| - 1];
    PiecesOfConcat(init, Split(b));
    assert init + [""] == Split(a);
  }

  // ---- pushing ------------------------------------------------------------------------------------

  lemma {:induction false} PushAllConcat(pieces: seq<string>, a: seq<string>, b: seq<string>)
    ensures PushAll(pieces, a + b) == PushAll(PushAll(pieces, a), b)
    decreases |a|
  {
    if a == [] {
      assert a + b == b;
    } else {
      assert (a + b)[1..] == a[1..] + b;
      PushAllConcat(PushPiece(pieces, a[0]), a[1..], b);
    }
  }

  /** No "./", and no "../" but behind another "../". */
  ghost predicate StablePieces(pieces: seq<string>) {
    && (forall k :: 0 <= k < |pieces| ==> pieces[k] != "./")
    && (forall k :: 0 < k < |pieces| && pieces[k] == "../" ==> pieces[k - 1] == "../")
  }

  lemma {:induction false} PushAllIsStable(pieces: seq<string>, more: seq<string>)
    requires StablePieces(pieces)
    ensures StablePieces(PushAll(pieces, more))
    decreases |more|
  {
    if more != [] {
      PushAllIsStable(PushPiece(pieces, more[0]), more[1..]);
    }
  }

  lemma {:induction false} StablePiecesPass(pieces: seq<string>, more: seq<string>)
    requires StablePieces(pieces + more)
    ensures PushAll(pieces, more) == pieces + more
    decreases |more|
  {
    if more == [] {
      assert pieces + more == pieces;
    } else {
      var all := pieces + more;
      assert more[0] == all[|pieces|];
      assert pieces != [] ==> pieces[|pieces| - 1] == all[|pieces| - 1];
      assert PushPiece(pieces, more[0]) == pieces + [more[0]];
      assert pieces + [more[0]] + more[1..] == all;
      StablePiecesPass(pieces + [more[0]], more[1..]);
    }
  }

  /** Ordinary folder names. */
  ghost predicate Names(pieces: seq<string>) {
    forall k :: 0 <= k < |pieces| ==> pieces[k] != "./" && pieces[k] != "../" && pieces[k] != "/"
  }

  function Ups(n: nat): seq<string> {
    seq(n, _ => "../")
  }

  /** As many "../" as there are names take the names away. */
  lemma {:induction false} UpsTakeNames(pieces: seq<string>, names: seq<string>)
    requires Names(names)
    ensures PushAll(pieces + names, Ups(|names|)) == pieces
    decreases |names|
  {
    if names == [] {
      assert pieces + names == pieces;
    } else {
      var n := |names| - 1;
      assert (pieces + names)[|pieces + names| - 1] == names[n];
      assert (pieces + names)[..|pieces + names| - 1] == pieces + names[..n];
      assert Ups(n + 1)[1..] == Ups(n);
      UpsTakeNames(pieces, names[..n]);
    }
  }

  // ---- well-formed pieces -------------------------------------------------------------------------

  ghost predicate FolderPiece(piece: string) {
    piece != "" && piece[|piece| - 1] == '/' && Plain(piece[..|piece| - 1])
  }

  ghost predicate Folders(pieces: seq<string>) {
    forall k :: 0 <= k < |pieces| ==> FolderPiece(pieces[k])
  }

  /** Folder pieces, the last one possibly without its slash. */
  ghost predicate WellFormed(pieces: seq<string>) {
    pieces == [] ||
    (Folders(pieces[..|pieces| - 1]) &&
     var last := pieces[|pieces| - 1]; FolderPiece(last) || (last != "" && Plain(last)))
  }

  lemma {:induction false} PiecesOfFlatten(pieces: seq<string>)
    requires WellFormed(pieces)
    ensures PathPieces(Flatten(pieces)) == pieces
    decreases |pieces|
  {
    if pieces != [] {
      var p := pieces[0];
      var rest := pieces[1..];
      if FolderPiece(p) {
        assert WellFormed(rest) by {
          if rest != [] {
            assert rest[|rest| - 1] == pieces[|pieces| - 1];
            assert forall k :: 0 <= k < |rest| - 1 ==> rest[k] == pieces[..|pieces| - 1][k + 1];
          }
        }
        PiecesOfFlatten(rest);
        var name := p[..|p| - 1];
        assert p + Flatten(rest) == name + "/" + Flatten(rest) && p == name + "/";
        SplitAtSlash(name, Flatten(rest));
        SplitPlain(name);
        assert ([name] + Split(Flatten(rest)))[1..] == Split(Flatten(rest));
      } else {
        assert |pieces| == 1;
        assert pieces == [p];
        assert Flatten(rest) == "" && p + "" == p;
        SplitPlain(p);
      }
    }
  }

  lemma {:induction false} PushAllWellFormed(pieces: seq<string>, segments: seq<string>)
    requires Folders(pieces) && |segments| >= 1 && forall k :: 0 <= k < |segments| ==> Plain(segments[k])
    ensures WellFormed(PushAll(pieces, PiecesOf(segments)))
    ensures segments[|segments| - 1] == "" ==> Folders(PushAll(pieces, PiecesOf(segments)))
    decreases |segments|
  {
    if |segments| == 1 {
      if segments[0] != "" {
        assert segments[0] != "./" && segments[0] != "../" by {
          assert "./"[1] == '/' && "../"[2] == '/';
        }
        assert [segments[0]][1..] == [];
        assert (pieces + [segments[0]])[..|pieces|] == pieces;
      }
    } else {
      var p := segments[0] + "/";
      assert p[..|p| - 1] == segments[0];
      assert FolderPiece(p);
      assert Folders(PushPiece(pieces, p));
      assert ([p] + PiecesOf(segments[1..]))[1..] == PiecesOf(segments[1..]);
      PushAllWellFormed(PushPiece(pieces, p), segments[1..]);
    }
  }
}
