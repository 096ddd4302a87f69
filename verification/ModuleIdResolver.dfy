/** Relative module ids. */
module ModuleIdResolvers {
  import opened Segments

  /** What `_normalizeModuleId` computes, in one pass. */
  function NormalId(moduleId: string): string {
    Join(Normal(Split(moduleId)))
  }

  // ---- what the patterns match ------------------------------------------------------------------

  /** "/./" at i */
  predicate DotAt(r: string, i: nat) {
    i + 3 <= |r| && r[i] == '/' && r[i + 1] == '.' && r[i + 2] == '/'
  }

  /** "segment/../" from i to j + 4, with a segment that is not empty and not ".." */
  predicate NameAt(r: string, i: nat, j: nat) {
    i <= j && j + 4 <= |r| && Plain(r[i..j]) && Poppable(r[i..j]) && r[j..j + 4] == "/../"
  }

  /** "/segment/../" at i */
  predicate ParentAt(r: string, i: nat, j: nat) {
    i < |r| && r[i] == '/' && NameAt(r, i + 1, j)
  }

  // ---- searches ---------------------------------------------------------------------------------

  /** The leftmost "/./". */
  method FindDot(r: string) returns (i: int)
    ensures i >= 0 ==> DotAt(r, i) && forall k :: 0 <= k < i ==> !DotAt(r, k)
    ensures i < 0 ==> forall k :: 0 <= k ==> !DotAt(r, k)
  {
    i := 0;
    while i + 3 <= |r|
      invariant 0 <= i && forall k :: 0 <= k < i ==> !DotAt(r, k)
    {
      if r[i] == '/' && r[i + 1] == '.' && r[i + 2] == '/' {
        return;
      }
      i := i + 1;
    }
    i := -1;
  }

  /** Where the segment that begins at i ends. */
  method SegmentEnd(r: string, i: nat) returns (j: nat)
    requires i <= |r|
    ensures i <= j <= |r| && Plain(r[i..j]) && (j < |r| ==> r[j] == '/')
  {
    j := i;
    while j < |r| && r[j] != '/'
      invariant i <= j <= |r| && forall k :: i <= k < j ==> r[k] != '/'
    {
      j := j + 1;
    }
  }

  lemma SameEnd(r: string, i: nat, j: nat, j': nat)
    requires i <= j <= |r| && Plain(r[i..j]) && (j < |r| ==> r[j] == '/')
    requires NameAt(r, i, j')
    ensures j == j'
  {
    assert r[j'..j' + 4][0] == r[j'];
    assert forall k :: i <= k < j ==> r[i..j][k - i] == r[k];
    assert forall k :: i <= k < j' ==> r[i..j'][k - i] == r[k];
  }

  /** Does a name followed by "/../" begin at i, and where does the name end? */
  method MatchName(r: string, i: nat) returns (found: bool, j: nat)
    requires i <= |r|
    ensures found ==> NameAt(r, i, j)
    ensures !found ==> forall k :: !NameAt(r, i, k)
  {
    j := SegmentEnd(r, i);
    found := r[i..j] != "" && r[i..j] != ".." && j + 4 <= |r| && r[j..j + 4] == "/../";
    forall k | NameAt(r, i, k) ensures k == j {
      SameEnd(r, i, j, k);
    }
  }

  /** The leftmost "/segment/../". */
  method FindParent(r: string) returns (found: bool, i: nat, j: nat)
    ensures found ==> ParentAt(r, i, j) && forall i', j' :: 0 <= i' < i ==> !ParentAt(r, i', j')
    ensures !found ==> forall i', j' :: !ParentAt(r, i', j')
  {
    i, j := 0, 0;
    while i < |r|
      invariant i <= |r|
      invariant forall i', j' :: 0 <= i' < i ==> !ParentAt(r, i', j')
    {
      if r[i] == '/' {
        found, j := MatchName(r, i + 1);
        if found {
          return;
        }
      }
      i := i + 1;
    }
    found := false;
  }

  // ---- rewriting --------------------------------------------------------------------------------

  lemma DotRewrites(r: string, i: nat)
    requires DotAt(r, i)
    ensures var a, b := r[..i], r[i + 3..];
            && Split(r) == Split(a) + ["."] + Split(b)
            && Split(a + "/" + b) == Split(a) + Split(b)
            && NormalId(r) == NormalId(a + "/" + b)
  {
    var a, b := r[..i], r[i + 3..];
    assert r == a + "/" + ("." + "/" + b);
    SplitAtSlash(a, "." + "/" + b);
    SplitAtSlash(".", b);
    SplitPlain(".");
    SplitAtSlash(a, b);
    assert Split(a) + (["."] + Split(b)) == Split(a) + ["."] + Split(b);
    DotIsNothing(Split(a), Split(b));
  }

  lemma {:induction false} LeadingDotRewrites(r: string)
    requires |r| >= 2 && r[..2] == "./"
    ensures Split(r) == ["."] + Split(r[2..]) && NormalId(r) == NormalId(r[2..])
  {
    hide Normal, Join, Split;
    assert r == "." + "/" + r[2..];
    SplitAtSlash(".", r[2..]);
    SplitPlain(".");
    var b := Split(r[2..]);
    assert [] + ["."] + b == ["."] + b;
    assert [] + b == b;
    DotIsNothing([], b);
  }

  lemma NameString(r: string, i: nat, j: nat)
    requires NameAt(r, i, j)
    ensures r[i..] == r[i..j] + "/" + (".." + "/" + r[j + 4..]) && '/' !in r[i..j]
  {
  }

  lemma {:induction false} NameSplits(r: string, i: nat, j: nat)
    requires NameAt(r, i, j)
    ensures Split(r[i..]) == [r[i..j], ".."] + Split(r[j + 4..])
  {
    var name, b := r[i..j], r[j + 4..];
    NameString(r, i, j);
    hide Split, NameAt;
    SplitAtSlash(name, ".." + "/" + b);
    SplitAtSlash("..", b);
    SplitPlain(name);
    SplitPlain("..");
    assert [name] + ([".."] + Split(b)) == [name, ".."] + Split(b);
  }

  lemma ParentSplits(r: string, i: nat, j: nat)
    requires ParentAt(r, i, j)
    ensures var a, b := r[..i], r[j + 4..];
            && Split(r) == Split(a) + [r[i + 1..j], ".."] + Split(b)
            && Split(a + "/" + b) == Split(a) + Split(b)
  {
    var a, b := r[..i], r[j + 4..];
    assert r == a + "/" + r[i + 1..];
    SplitAtSlash(a, r[i + 1..]);
    NameSplits(r, i + 1, j);
    SplitAtSlash(a, b);
    assert Split(a) + ([r[i + 1..j], ".."] + Split(b)) == Split(a) + [r[i + 1..j], ".."] + Split(b);
  }

  lemma ParentRewrites(r: string, i: nat, j: nat)
    requires ParentAt(r, i, j) && NoDots(Split(r), 0)
    ensures var s := r[..i] + "/" + r[j + 4..];
            NormalId(r) == NormalId(s) && NoDots(Split(s), 0)
  {
    var a, b := r[..i], r[j + 4..];
    var sa, sb := Split(a), Split(b);
    var name := r[i + 1..j];
    ParentSplits(r, i, j);
    assert Split(r)[|sa|] == name;
    NameAndParentAreNothing(sa, name, sb);
    forall k | 0 <= k < |sa + sb| - 1 ensures (sa + sb)[k] != "." {
      if k < |sa| {
        assert Split(r)[k] == sa[k];
      } else {
        assert Split(r)[k + 2] == sb[k - |sa|];
      }
    }
  }

  lemma LeadingParentRewrites(r: string, j: nat)
    requires NameAt(r, 0, j) && NoDots(Split(r), 0) && NoPairs(Split(r))
    ensures NormalId(r) == NormalId(r[j + 4..]) && NormalId(r[j + 4..]) == r[j + 4..]
  {
    hide Normal, Join, Split;
    NameSplits(r, 0, j);
    assert r[0..] == r;
    var name := r[0..j];
    var s := r[j + 4..];
    var b := Split(s);
    assert Split(r)[0] == name;
    assert [] + [name, ".."] + b == [name, ".."] + b && [] + b == b;
    NameAndParentAreNothing([], name, b);
    assert forall k :: 0 <= k < |b| ==> Split(r)[k + 2] == b[k];
    assert NoDots(b, 0);
    forall k | 0 < k < |b| - 2 && b[k + 1] == ".." ensures !Poppable(b[k]) {
      assert Split(r)[k + 2] == b[k] && Split(r)[k + 2 + 1] == b[k + 1];
    }
    if |b| >= 3 && b[1] == ".." {
      assert Split(r)[2] == b[0] && Split(r)[2 + 1] == b[1];
    }
    NoMatchIsNormal(s);
  }

  // ---- when no pattern matches ------------------------------------------------------------------

  /** No "." among the segments, the last one excepted, from index k on. */
  ghost predicate NoDots(segments: seq<string>, from: nat) {
    forall k :: from <= k < |segments| - 1 ==> segments[k] != "."
  }

  lemma SegmentPosition(r: string, k: nat)
    requires 0 < k < |Split(r)| - 1
    ensures var segments := Split(r);
            var a := Join(segments[..k]);
            var b := Join(segments[k + 1..]);
            r == a + "/" + segments[k] + "/" + b
  {
    var segments := Split(r);
    JoinSplit(r);
    assert segments == segments[..k] + ([segments[k]] + segments[k + 1..]);
    JoinConcat(segments[..k], [segments[k]] + segments[k + 1..]);
    JoinConcat([segments[k]], segments[k + 1..]);
  }

  lemma NoDotMatch(r: string)
    requires forall i: nat :: !DotAt(r, i)
    ensures NoDots(Split(r), 1)
  {
    var segments := Split(r);
    forall k | 1 <= k < |segments| - 1 ensures segments[k] != "." {
      if segments[k] == "." {
        SegmentPosition(r, k);
        var a := Join(segments[..k]);
        assert r[|a|..|a| + 3] == "/./";
        assert DotAt(r, |a|);
        assert false;
      }
    }
  }

  lemma NoLeadingDotMatch(r: string)
    requires !(|r| >= 2 && r[..2] == "./") && |Split(r)| >= 2
    ensures Split(r)[0] != "."
  {
    var segments := Split(r);
    JoinSplit(r);
    assert segments == [segments[0]] + segments[1..];
    JoinConcat([segments[0]], segments[1..]);
  }

  /** From index 1 on, no ".." stands behind a segment it could take away. */
  ghost predicate NoPairs(segments: seq<string>) {
    forall k :: 0 < k < |segments| - 2 && segments[k + 1] == ".." ==> !Poppable(segments[k])
  }

  /** Where the pieces of a + "/" + name + "/../" + b lie. */
  lemma Parts(r: string, a: string, name: string, b: string)
    requires r == a + "/" + name + "/" + (".." + "/" + b)
    ensures var i, j := |a|, |a| + 1 + |name|; j + 4 <= |r| && r[i] == '/' && r[i + 1..j] == name && r[j..j + 4] == "/../"
  {
    assert r == a + ("/" + (name + ("/" + (".." + ("/" + b)))));
  }

  lemma NoParentMatch(r: string)
    requires forall i: nat, j: nat :: !ParentAt(r, i, j)
    ensures NoPairs(Split(r))
  {
    hide Split;
    var segments := Split(r);
    forall k | 0 < k < |segments| - 2 && segments[k + 1] == ".." ensures !Poppable(segments[k]) {
      SegmentPosition(r, k);
      var a := Join(segments[..k]);
      var rest := segments[k + 1..];
      assert rest == [".."] + segments[k + 2..];
      JoinConcat([".."], segments[k + 2..]);
      var b := Join(segments[k + 2..]);
      var i, j := |a|, |a| + 1 + |segments[k]|;
      Parts(r, a, segments[k], b);
      assert !ParentAt(r, i, j);
    }
  }

  lemma NoLeadingParentMatch(r: string)
    requires (forall j: nat :: !NameAt(r, 0, j)) && |Split(r)| >= 3 && Split(r)[1] == ".."
    ensures !Poppable(Split(r)[0])
  {
    var segments := Split(r);
    JoinSplit(r);
    assert segments == [segments[0]] + ([".."] + segments[2..]);
    JoinConcat([segments[0]], [".."] + segments[2..]);
    JoinConcat([".."], segments[2..]);
    var b := Join(segments[2..]);
    hide Split, Join;
    LeadingParts(r, segments[0], b);
    assert !NameAt(r, 0, |segments[0]|);
  }

  lemma LeadingParts(r: string, name: string, b: string)
    requires r == name + "/" + (".." + "/" + b)
    ensures var j := |name|; j + 4 <= |r| && r[0..j] == name && r[j..j + 4] == "/../"
  {
    assert r == name + ("/" + (".." + ("/" + b)));
  }

  /** The id takes no detour: no ".", and no ".." behind a segment it could take away. */
  ghost predicate IsDirect(id: string) {
    var segments := Split(id);
    Stable(segments[..|segments| - 1])
  }

  lemma {:induction false} DirectIsNormal(id: string)
    requires IsDirect(id)
    ensures NormalId(id) == id
  {
    hide Split, Join, Stable, Normal;
    StableIsNormal(Split(id));
    JoinSplit(id);
  }

  /** A string none of the patterns matches is in normal form. */
  lemma {:induction false} NoMatchIsNormal(r: string)
    requires NoDots(Split(r), 0) && NoPairs(Split(r))
    requires |Split(r)| >= 3 && Split(r)[1] == ".." ==> !Poppable(Split(r)[0])
    ensures NormalId(r) == r
  {
    var segments := Split(r);
    hide Split, Normal, Join;
    var init := segments[..|segments| - 1];
    forall k | 0 < k < |init| && init[k] == ".." ensures !Poppable(init[k - 1]) {
      assert segments[k] == "..";
      if k > 1 {
        assert 0 < k - 1 < |segments| - 2 && segments[k - 1 + 1] == "..";
      }
    }
    assert Stable(init);
    DirectIsNormal(r);
  }

  // ---- the resolver -----------------------------------------------------------------------------

  /** Rewrites until no pattern matches, leftmost match first: the one-pass normal form. */
  method NormalizeModuleId(moduleId: string) returns (r: string)
    ensures r == NormalId(moduleId)
  {
    r := moduleId;
    // first every "." between two slashes goes
    var i := FindDot(r);
    while i >= 0
      invariant NormalId(r) == NormalId(moduleId)
      invariant i >= 0 ==> DotAt(r, i)
      invariant i < 0 ==> forall k: nat :: !DotAt(r, k)
      decreases |r|
    {
      DotRewrites(r, i);
      r := r[..i] + "/" + r[i + 3..];
      i := FindDot(r);
    }
    NoDotMatch(r);
    // then one at the very start
    NoDotsLeft(r);
    if |r| >= 2 && r[..2] == "./" {
      LeadingDotRewrites(r);
      r := r[2..];
    }
    // then every name that a ".." follows, both of them, leftmost first; a ".." is no name
    var found, start, end := FindParent(r);
    while found
      invariant NormalId(r) == NormalId(moduleId) && NoDots(Split(r), 0)
      invariant found ==> ParentAt(r, start, end)
      invariant !found ==> forall i': nat, j': nat :: !ParentAt(r, i', j')
      decreases |r|
    {
      ParentRewrites(r, start, end);
      r := r[..start] + "/" + r[end + 4..];
      found, start, end := FindParent(r);
    }
    NoParentMatch(r);
    // and at last such a name at the very start
    found, end := MatchName(r, 0);
    if found {
      LeadingParentRewrites(r, end);
      r := r[end + 4..];
    } else {
      NoLeadingMatchIsNormal(r);
    }
  }

  lemma NoDotsLeft(r: string)
    requires NoDots(Split(r), 1)
    ensures |r| >= 2 && r[..2] == "./" ==> NoDots(Split(r[2..]), 0)
    ensures !(|r| >= 2 && r[..2] == "./") ==> NoDots(Split(r), 0)
  {
    hide *;
    if |r| >= 2 && r[..2] == "./" {
      LeadingDotRewrites(r);
      NoDotsBehind(Split(r), Split(r[2..]));
    } else if |Split(r)| >= 2 {
      NoLeadingDotMatch(r);
      NoDotsInFront(Split(r));
    } else {
      NoDotsInFront(Split(r));
    }
  }

  lemma NoDotsBehind(segments: seq<string>, rest: seq<string>)
    requires NoDots(segments, 1) && segments == ["."] + rest
    ensures NoDots(rest, 0)
  {
    assert forall k :: 0 <= k < |rest| ==> segments[k + 1] == rest[k];
  }

  lemma NoDotsInFront(segments: seq<string>)
    requires NoDots(segments, 1) && (|segments| >= 2 ==> segments[0] != ".")
    ensures NoDots(segments, 0)
  {
  }

  lemma NoLeadingMatchIsNormal(r: string)
    requires NoDots(Split(r), 0) && NoPairs(Split(r)) && forall j: nat :: !NameAt(r, 0, j)
    ensures NormalId(r) == r
  {
    if |Split(r)| >= 3 && Split(r)[1] == ".." {
      NoLeadingParentMatch(r);
    }
    NoMatchIsNormal(r);
  }

  /** Normalising twice is normalising once. */
  lemma NormalIdIsIdempotent(moduleId: string)
    ensures NormalId(NormalId(moduleId)) == NormalId(moduleId)
  {
    var segments := Split(moduleId);
    ReduceIsPlain([], segments[..|segments| - 1]);
    SplitJoin(Normal(segments));
    NormalIsIdempotent(segments);
  }

  /** In the normal form no pattern matches any more, so the rewriting has nothing left to do. */
  lemma NormalIdIsStable(moduleId: string)
    ensures var segments := Split(NormalId(moduleId));
            Stable(segments[..|segments| - 1])
  {
    var segments := Split(moduleId);
    ReduceIsPlain([], segments[..|segments| - 1]);
    SplitJoin(Normal(segments));
    ReduceIsStable([], segments[..|segments| - 1]);
    var n := Normal(segments);
    assert n[..|n| - 1] == Reduce([], segments[..|segments| - 1]);
  }

  /** `isAbsolutePath` */
  predicate IsAbsolutePath(url: string) {
    StartsWith(url, "http://") || StartsWith(url, "https://") || StartsWith(url, "file://") || StartsWith(url, "/")
  }

  predicate IsRelative(moduleId: string) {
    !IsAbsolutePath(moduleId) && (StartsWith(moduleId, "./") || StartsWith(moduleId, "../"))
  }

  /** The two ids lead to the same place. */
  predicate SamePlace(a: string, b: string) {
    NormalId(a) == NormalId(b)
  }

  /** There is only one direct id for a place. */
  lemma OneDirectId(a: string, b: string)
    requires SamePlace(a, b) && IsDirect(a) && IsDirect(b)
    ensures a == b
  {
    DirectIsNormal(a);
    DirectIsNormal(b);
  }

  /** `resolveModule` of the resolver for module `fromModuleId`: the direct way from its folder. */
  method ResolveModule(fromModuleId: string, moduleId: string) returns (result: string)
    ensures !IsRelative(moduleId) ==> result == moduleId
    ensures IsRelative(moduleId) ==> IsDirect(result) && SamePlace(result, PathOf(fromModuleId) + moduleId)
    ensures result == ResolvedId(fromModuleId, moduleId)
  {
    result := moduleId;
    if !IsAbsolutePath(result) {
      if StartsWith(result, "./") || StartsWith(result, "../") {
        result := NormalizeModuleId(PathOf(fromModuleId) + result);
        NormalIdIsStable(PathOf(fromModuleId) + moduleId);
        NormalIdIsIdempotent(PathOf(fromModuleId) + moduleId);
      }
    }
  }

  function ResolvedId(fromModuleId: string, moduleId: string): string {
    if IsRelative(moduleId) then NormalId(PathOf(fromModuleId) + moduleId) else moduleId
  }
}
