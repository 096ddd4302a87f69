/** Paths as segments between slashes. */
module Segments {
  import opened Sequences

  predicate Plain(segment: string) {
    '/' !in segment
  }

  /** Cuts at every slash; there is always at least one segment. */
  function Split(s: string): (segments: seq<string>)
    ensures |segments| >= 1 && forall k :: 0 <= k < |segments| ==> Plain(segments[k])
  {
    if s == "" then [""]
    else
      var rest := Split(s[1..]);
      if s[0] == '/' then [""] + rest
      else [[s[0]] + rest[0]] + rest[1..]
  }

  function Join(segments: seq<string>): string
    requires |segments| >= 1
  {
    if |segments| == 1 then segments[0]
    else segments[0] + "/" + Join(segments[1..])
  }

  lemma SplitUnfolds(s: string)
    requires s != ""
    ensures var rest := Split(s[1..]);
            Split(s) == if s[0] == '/' then [""] + rest else [[s[0]] + rest[0]] + rest[1..]
  {
  }

  lemma {:induction false} JoinSplit(s: string)
    ensures Join(Split(s)) == s
  {
    if s != "" {
      JoinSplit(s[1..]);
      var rest := Split(s[1..]);
      if s[0] == '/' {
        assert ([""] + rest)[1..] == rest;
        assert Join([""] + rest) == "/" + Join(rest);
      } else {
        var head := [s[0]] + rest[0];
        assert ([head] + rest[1..])[1..] == rest[1..];
        if |rest| > 1 {
          assert Join([head] + rest[1..]) == head + "/" + Join(rest[1..]);
          assert head + "/" + Join(rest[1..]) == [s[0]] + (rest[0] + "/" + Join(rest[1..]));
        }
      }
      assert s == [s[0]] + s[1..];
    }
  }

  lemma {:induction false} SplitPlain(s: string)
    requires Plain(s)
    ensures Split(s) == [s]
  {
    if s != "" {
      SplitPlain(s[1..]);
      assert s == [s[0]] + s[1..];
    }
  }

  /** A slash separates. */
  lemma {:induction false} SplitAtSlash(a: string, b: string)
    ensures Split(a + "/" + b) == Split(a) + Split(b)
  {
    var s := a + "/" + b;
    if a == "" {
      assert s == "/" + b && s[1..] == b;
      assert Split(s) == [""] + Split(b);
    } else {
      SplitAtSlash(a[1..], b);
      Regroup(a, "/", b);
      Regroup(a[1..], "/", b);
      HeadAndTail(a, "/" + b);
      var ra, rb := Split(a[1..]), Split(b);
      SplitUnfolds(s);
      SplitUnfolds(a);
      HeadAndTail(ra, rb);
      hide Plain, Split;
      Regroup([""], ra, rb);
      Regroup([[a[0]] + ra[0]], ra[1..], rb);
    }
  }

  lemma {:induction false} SplitJoin(segments: seq<string>)
    requires |segments| >= 1 && forall k :: 0 <= k < |segments| ==> Plain(segments[k])
    ensures Split(Join(segments)) == segments
  {
    SplitPlain(segments[0]);
    if |segments| > 1 {
      SplitJoin(segments[1..]);
      SplitAtSlash(segments[0], Join(segments[1..]));
      assert segments == [segments[0]] + segments[1..];
    }
  }

  lemma {:induction false} JoinConcat(a: seq<string>, b: seq<string>)
    requires |a| >= 1 && |b| >= 1
    ensures Join(a + b) == Join(a) + "/" + Join(b)
  {
    assert (a + b)[1..] == a[1..] + b;
    if |a| > 1 {
      JoinConcat(a[1..], b);
      assert a[0] + "/" + (Join(a[1..]) + "/" + Join(b)) == (a[0] + "/" + Join(a[1..])) + "/" + Join(b);
    }
  }

  predicate StartsWith(haystack: string, needle: string) {
    |haystack| >= |needle| && haystack[..|needle|] == needle
  }

  /** Everything up to the last slash. */
  function PathOf(filename: string): (path: string)
    ensures path <= filename && (path == "" || path[|path| - 1] == '/')
    ensures '/' !in filename[|path|..]
  {
    if filename == "" then ""
    else if filename[|filename| - 1] == '/' then filename
    else
      assert filename == filename[..|filename| - 1] + [filename[|filename| - 1]];
      var path := PathOf(filename[..|filename| - 1]);
      assert filename[|path|..] == filename[..|filename| - 1][|path|..] + [filename[|filename| - 1]];
      path
  }

  // ---- the normal form -----------------------------------------------------------------------------

  /** May a ".." that follows this segment take it away? */
  predicate Poppable(segment: string) {
    segment != "" && segment != ".."
  }

  /** One step of the one-pass normaliser, for a segment that is not the last one. */
  function PushSegment(stack: seq<string>, segment: string): seq<string> {
    if segment == "." then stack
    else if segment == ".." && stack != [] && Poppable(stack[|stack| - 1]) then stack[..|stack| - 1]
    else stack + [segment]
  }

  function Reduce(stack: seq<string>, segments: seq<string>): seq<string>
    decreases |segments|
  {
    if segments == [] then stack
    else Reduce(PushSegment(stack, segments[0]), segments[1..])
  }

  /** All segments but the last go over the stack; the last one is kept as it is. */
  function Normal(segments: seq<string>): seq<string>
    requires |segments| >= 1
  {
    Reduce([], segments[..|segments| - 1]) + [segments[|segments| - 1]]
  }

  /** No "." and no ".." right behind a segment it could take away. */
  ghost predicate Stable(segments: seq<string>) {
    && (forall k :: 0 <= k < |segments| ==> segments[k] != ".")
    && (forall k :: 0 < k < |segments| && segments[k] == ".." ==> !Poppable(segments[k - 1]))
  }

  lemma {:induction false} ReduceConcat(stack: seq<string>, a: seq<string>, b: seq<string>)
    ensures Reduce(stack, a + b) == Reduce(Reduce(stack, a), b)
    decreases |a|
  {
    if a == [] {
      assert a + b == b;
    } else {
      assert (a + b)[1..] == a[1..] + b;
      ReduceConcat(PushSegment(stack, a[0]), a[1..], b);
    }
  }

  lemma {:induction false} ReduceIsStable(stack: seq<string>, segments: seq<string>)
    requires Stable(stack)
    ensures Stable(Reduce(stack, segments))
    decreases |segments|
  {
    if segments != [] {
      ReduceIsStable(PushSegment(stack, segments[0]), segments[1..]);
    }
  }

  /** Stable segments pass unchanged. */
  lemma {:induction false} StablePasses(stack: seq<string>, segments: seq<string>)
    requires Stable(stack + segments)
    ensures Reduce(stack, segments) == stack + segments
    decreases |segments|
  {
    if segments == [] {
      assert stack + segments == stack;
    } else {
      assert segments[0] == (stack + segments)[|stack|];
      assert stack != [] ==> stack[|stack| - 1] == (stack + segments)[|stack| - 1];
      assert PushSegment(stack, segments[0]) == stack + [segments[0]];
      assert stack + [segments[0]] + segments[1..] == stack + segments;
      StablePasses(stack + [segments[0]], segments[1..]);
    }
  }

  lemma {:induction false} ReduceIsPlain(stack: seq<string>, segments: seq<string>)
    requires forall k :: 0 <= k < |stack| ==> Plain(stack[k])
    requires forall k :: 0 <= k < |segments| ==> Plain(segments[k])
    ensures forall k :: 0 <= k < |Reduce(stack, segments)| ==> Plain(Reduce(stack, segments)[k])
    decreases |segments|
  {
    if segments != [] {
      ReduceIsPlain(PushSegment(stack, segments[0]), segments[1..]);
    }
  }

  /** Dropping a "." that is not last does not change the normal form. */
  lemma DotIsNothing(a: seq<string>, b: seq<string>)
    requires |b| >= 1
    ensures Normal(a + ["."] + b) == Normal(a + b)
  {
    var init := b[..|b| - 1];
    assert (a + ["."] + b)[..|a + ["."] + b| - 1] == a + (["."] + init);
    assert (a + b)[..|a + b| - 1] == a + init;
    ReduceConcat([], a, ["."] + init);
    ReduceConcat([], a, init);
    assert (["."] + init)[1..] == init;
  }

  /** Dropping a name and the ".." behind it does not change the normal form. */
  lemma NameAndParentAreNothing(a: seq<string>, name: string, b: seq<string>)
    requires |b| >= 1 && Poppable(name) && name != "."
    ensures Normal(a + [name, ".."] + b) == Normal(a + b)
  {
    var init := b[..|b| - 1];
    var pair := [name, ".."];
    assert (a + pair + b)[..|a + pair + b| - 1] == a + (pair + init);
    assert (a + b)[..|a + b| - 1] == a + init;
    ReduceConcat([], a, pair + init);
    ReduceConcat([], a, init);
    var stack := Reduce([], a);
    assert (pair + init)[1..] == [".."] + init && ([".."] + init)[1..] == init;
    assert PushSegment(stack, name) == stack + [name];
    assert (stack + [name])[..|stack + [name]| - 1] == stack;
  }

  /** Stable segments are their own normal form. */
  lemma {:induction false} StableIsNormal(segments: seq<string>)
    requires |segments| >= 1 && Stable(segments[..|segments| - 1])
    ensures Normal(segments) == segments
  {
    hide Stable, Reduce;
    EmptyFirst(segments[..|segments| - 1]);
    StablePasses([], segments[..|segments| - 1]);
    InitAndLast(segments);
  }

  /** The normal form is a fixed point. */
  lemma NormalIsIdempotent(segments: seq<string>)
    requires |segments| >= 1
    ensures Normal(Normal(segments)) == Normal(segments)
  {
    var init := segments[..|segments| - 1];
    ReduceIsStable([], init);
    StablePasses([], Reduce([], init));
    var n := Normal(segments);
    assert n[..|n| - 1] == Reduce([], init);
  }
}
