/** Positions in a text, and edits that replace several ranges at once. */
module TextPositions {

  datatype Position = Position(line: nat, character: nat)

  datatype Range = Range(start: Position, end: Position)

  datatype Edit = Edit(range: Range, text: string)

  const ORIGIN := Position(0, 0)

  predicate Before(a: Position, b: Position) {
    a.line < b.line || (a.line == b.line && a.character < b.character)
  }

  predicate AtMost(a: Position, b: Position) {
    a == b || Before(a, b)
  }

  /** The position behind text t that begins at p. */
  function Advance(p: Position, t: string): Position
    decreases |t|
  {
    if t == "" then p
    else if t[0] == '\n' then Advance(Position(p.line + 1, 0), t[1..])
    else Advance(Position(p.line, p.character + 1), t[1..])
  }

  lemma {:induction false} AdvanceConcat(p: Position, a: string, b: string)
    ensures Advance(p, a + b) == Advance(Advance(p, a), b)
    decreases |a|
  {
    if a == "" {
      assert a + b == b;
    } else {
      assert (a + b)[1..] == a[1..] + b;
      AdvanceConcat(if a[0] == '\n' then Position(p.line + 1, 0) else Position(p.line, p.character + 1), a[1..], b);
    }
  }

  lemma {:induction false} AdvanceGoesOn(p: Position, t: string)
    ensures t != "" ==> Before(p, Advance(p, t))
    ensures AtMost(p, Advance(p, t))
    decreases |t|
  {
    if t != "" {
      AdvanceGoesOn(if t[0] == '\n' then Position(p.line + 1, 0) else Position(p.line, p.character + 1), t[1..]);
    }
  }

  // ---- lines ----------------------------------------------------------------------------------------

  /** `split('\n')` */
  function Lines(t: string): (lines: seq<string>)
    ensures |lines| >= 1
  {
    if t == "" then [""]
    else
      var rest := Lines(t[1..]);
      if t[0] == '\n' then [""] + rest else [[t[0]] + rest[0]] + rest[1..]
  }

  function LastLength(lines: seq<string>): nat
    requires |lines| >= 1
  {
    |lines[|lines| - 1]|
  }

  /** Text moves the position down by its line breaks, and to the end of its last line. */
  lemma {:induction false} AdvanceByLines(p: Position, t: string)
    ensures var lines := Lines(t);
            Advance(p, t) == if |lines| == 1 then Position(p.line, p.character + LastLength(lines))
                             else Position(p.line + |lines| - 1, LastLength(lines))
    decreases |t|
  {
    if t != "" {
      AdvanceByLines(if t[0] == '\n' then Position(p.line + 1, 0) else Position(p.line, p.character + 1), t[1..]);
      var rest := Lines(t[1..]);
      assert Lines(t) == if t[0] == '\n' then [""] + rest else [[t[0]] + rest[0]] + rest[1..];
      hide Lines;
      if t[0] == '\n' {
        assert ([""] + rest)[|rest|] == rest[|rest| - 1];
      } else {
        assert |rest| > 1 ==> ([[t[0]] + rest[0]] + rest[1..])[|rest| - 1] == rest[|rest| - 1];
      }
    }
  }

  lemma {:induction false} OneLine(t: string)
    ensures |Lines(t)| == 1 <==> '\n' !in t
    decreases |t|
  {
    if t != "" {
      OneLine(t[1..]);
    }
  }

  /** Two positions lead to the same one exactly if they are on one line, at one column or before a line break. */
  lemma {:induction false} SameAdvance(p: Position, q: Position, t: string)
    ensures Advance(p, t) == Advance(q, t) <==> p.line == q.line && (p.character == q.character || '\n' in t)
  {
    hide *;
    AdvanceByLines(p, t);
    AdvanceByLines(q, t);
    OneLine(t);
  }

  // ---- offsets --------------------------------------------------------------------------------------

  /** How far behind `at` position p lies in doc; the end of its line, or of doc, if it lies behind that. */
  function OffsetFrom(doc: string, at: Position, p: Position): nat {
    if at == p || doc == "" || (doc[0] == '\n' && at.line == p.line) then 0
    else 1 + OffsetFrom(doc[1..], Advance(at, doc[..1]), p)
  }

  function OffsetAt(doc: string, p: Position): nat {
    OffsetFrom(doc, ORIGIN, p)
  }

  lemma {:induction false} OffsetIsLength(a: string, b: string, at: Position)
    ensures OffsetFrom(a + b, at, Advance(at, a)) == |a|
    decreases |a|
  {
    if a != "" {
      var step := Advance(at, a[..1]);
      assert a == a[..1] + a[1..];
      AdvanceConcat(at, a[..1], a[1..]);
      AdvanceGoesOn(at, a);
      AdvanceGoesOn(step, a[1..]);
      assert a[0] == '\n' ==> step == Position(at.line + 1, 0);
      assert (a + b)[1..] == a[1..] + b && (a + b)[..1] == a[..1];
      OffsetIsLength(a[1..], b, step);
    }
  }

  lemma OffsetOfPrefix(a: string, b: string)
    ensures OffsetAt(a + b, Advance(ORIGIN, a)) == |a|
  {
    OffsetIsLength(a, b, ORIGIN);
  }

  lemma {:induction false} OffsetFromIsLast(doc: string, at: Position, p: Position, j: nat)
    requires AtMost(at, p) && j <= |doc|
    ensures var k := OffsetFrom(doc, at, p);
            k <= |doc| && AtMost(Advance(at, doc[..k]), p) && (AtMost(Advance(at, doc[..j]), p) ==> j <= k)
    decreases |doc|
  {
    var k := OffsetFrom(doc, at, p);
    if k == 0 {
      assert doc[..0] == "";
      if j > 0 {
        AdvanceStep(doc, at, j);
        AdvanceGoesOn(Advance(at, doc[..1]), doc[1..][..j - 1]);
      }
    } else {
      AdvanceStep(doc, at, 1);
      OffsetFromIsLast(doc[1..], Advance(at, doc[..1]), p, if j > 0 then j - 1 else 0);
      AdvanceStep(doc, at, k);
      if j > 0 {
        AdvanceStep(doc, at, j);
      }
    }
  }

  lemma AdvanceStep(doc: string, at: Position, j: nat)
    requires 0 < j <= |doc|
    ensures Advance(at, doc[..j]) == Advance(Advance(at, doc[..1]), doc[1..][..j - 1])
    ensures Advance(at, doc[..1]) == if doc[0] == '\n' then Position(at.line + 1, 0) else Position(at.line, at.character + 1)
  {
    assert doc[..j] == doc[..1] + doc[1..][..j - 1];
    AdvanceConcat(at, doc[..1], doc[1..][..j - 1]);
    assert doc[..1][1..] == "";
  }

  /** Any position stands for the last one of the text that is not behind it: its line end, or the end of the text. */
  lemma OffsetIsLast(doc: string, p: Position, j: nat)
    requires j <= |doc|
    ensures var k := OffsetAt(doc, p);
            k <= |doc| && AtMost(Advance(ORIGIN, doc[..k]), p) && (AtMost(Advance(ORIGIN, doc[..j]), p) ==> j <= k)
  {
    OffsetFromIsLast(doc, ORIGIN, p, j);
  }

  function TextIn(doc: string, range: Range): string {
    var s, e := OffsetAt(doc, range.start), OffsetAt(doc, range.end);
    if s <= e <= |doc| then doc[s..e] else ""
  }

  /** All ranges are replaced at once, in order; they refer to the text before. */
  function Splice(doc: string, from: nat, edits: seq<Edit>): string
    requires from <= |doc|
    decreases |edits|
  {
    if edits == [] then doc[from..]
    else
      var s, e := OffsetAt(doc, edits[0].range.start), OffsetAt(doc, edits[0].range.end);
      if from <= s <= e <= |doc| then doc[from..s] + edits[0].text + Splice(doc, e, edits[1..])
      else doc[from..]
  }

  predicate SortsFirst(a: Range, b: Range) {
    Before(a.end, b.end) || (a.end == b.end && AtMost(a.start, b.start))
  }

  function InsertEdit(edit: Edit, sorted: seq<Edit>): seq<Edit> {
    if sorted == [] || SortsFirst(edit.range, sorted[0].range) then [edit] + sorted
    else [sorted[0]] + InsertEdit(edit, sorted[1..])
  }

  function SortEdits(edits: seq<Edit>): seq<Edit> {
    if edits == [] then [] else InsertEdit(edits[0], SortEdits(edits[1..]))
  }

  predicate Overlap(sorted: seq<Edit>) {
    exists i :: 0 <= i < |sorted| - 1 && Before(sorted[i + 1].range.start, sorted[i].range.end)
  }

  /** One edit of the document: rejected as a whole if two of its ranges overlap. */
  function EditAll(doc: string, edits: seq<Edit>): string {
    var sorted := SortEdits(edits);
    if Overlap(sorted) then doc else Splice(doc, 0, sorted)
  }

  ghost predicate InEndOrder(edits: seq<Edit>) {
    forall i, j :: 0 <= i < j < |edits| ==> SortsFirst(edits[i].range, edits[j].range)
  }

  lemma HeadInEndOrder(edit: Edit, rest: seq<Edit>)
    requires InEndOrder(rest) && forall x :: x in rest ==> SortsFirst(edit.range, x.range)
    ensures InEndOrder([edit] + rest)
  {
    hide SortsFirst;
    forall i, j | 0 <= i < j < |rest| + 1 ensures SortsFirst(([edit] + rest)[i].range, ([edit] + rest)[j].range) {
      assert rest[j - 1] in rest;
    }
  }

  lemma OneInEndOrder(edit: Edit)
    ensures InEndOrder([edit])
  {
  }

  lemma FirstInEndOrder(sorted: seq<Edit>, edit: Edit)
    requires InEndOrder(sorted) && sorted != []
    ensures InEndOrder(sorted[1..])
    ensures SortsFirst(edit.range, sorted[0].range) ==> forall x :: x in sorted ==> SortsFirst(edit.range, x.range)
    ensures !SortsFirst(edit.range, sorted[0].range) ==> SortsFirst(sorted[0].range, edit.range)
    ensures forall x :: x in sorted[1..] ==> SortsFirst(sorted[0].range, x.range)
  {
  }

  lemma {:induction false} InsertKeepsSorted(edit: Edit, sorted: seq<Edit>)
    requires InEndOrder(sorted)
    ensures var all := InsertEdit(edit, sorted);
            && multiset(all) == multiset{edit} + multiset(sorted) && InEndOrder(all)
            && forall x :: x in all <==> x == edit || x in sorted
  {
    hide InEndOrder, SortsFirst;
    if sorted == [] {
      OneInEndOrder(edit);
      assert [edit] + sorted == [edit];
    } else {
      FirstInEndOrder(sorted, edit);
      if SortsFirst(edit.range, sorted[0].range) {
        HeadInEndOrder(edit, sorted);
      } else {
        InsertKeepsSorted(edit, sorted[1..]);
        HeadInEndOrder(sorted[0], InsertEdit(edit, sorted[1..]));
        assert sorted == [sorted[0]] + sorted[1..];
      }
    }
  }

  /** Sorting keeps the edits, and puts their ends in order. */
  lemma {:induction false} SortEditsSorts(edits: seq<Edit>)
    ensures multiset(SortEdits(edits)) == multiset(edits) && InEndOrder(SortEdits(edits))
  {
    hide SortsFirst;
    if edits != [] {
      SortEditsSorts(edits[1..]);
      hide InEndOrder;
      InsertKeepsSorted(edits[0], SortEdits(edits[1..]));
      assert edits == [edits[0]] + edits[1..];
    }
  }

  /** An edit is rejected exactly if any of its ranges, in the order of their ends, begins before another has ended. */
  lemma RejectedIfAnyOverlap(doc: string, edits: seq<Edit>)
    ensures var sorted := SortEdits(edits);
            Overlap(sorted) <==> exists i, j :: 0 <= i < j < |sorted| && Before(sorted[j].range.start, sorted[i].range.end)
    ensures Overlap(SortEdits(edits)) ==> EditAll(doc, edits) == doc
  {
    SortEditsSorts(edits);
    var sorted := SortEdits(edits);
    hide SortEdits;
    if i, j :| 0 <= i < j < |sorted| && Before(sorted[j].range.start, sorted[i].range.end) {
      assert i == j - 1 || SortsFirst(sorted[i].range, sorted[j - 1].range);
      assert Before(sorted[j - 1 + 1].range.start, sorted[j - 1].range.end);
    }
    if i :| 0 <= i < |sorted| - 1 && Before(sorted[i + 1].range.start, sorted[i].range.end) {
      assert 0 <= i < i + 1 < |sorted|;
    }
  }

  /** Each range ends before the next one begins. */
  ghost predicate Consecutive(edits: seq<Edit>) {
    && (forall i :: 0 <= i < |edits| ==> AtMost(edits[i].range.start, edits[i].range.end))
    && (forall i :: 0 <= i < |edits| - 1 ==> AtMost(edits[i].range.end, edits[i + 1].range.start))
  }

  lemma {:induction false} ConsecutiveIsSorted(edits: seq<Edit>)
    requires Consecutive(edits)
    ensures SortEdits(edits) == edits && !Overlap(edits)
  {
    if edits != [] {
      var rest := edits[1..];
      assert forall i :: 0 <= i < |rest| ==> rest[i] == edits[i + 1];
      ConsecutiveIsSorted(rest);
      assert rest != [] ==> SortsFirst(edits[0].range, rest[0].range);
      assert edits == [edits[0]] + rest;
    }
  }

  // ---- a text made of gaps and contents -----------------------------------------------------------

  ghost predicate Fits(gaps: seq<string>, contents: seq<string>) {
    |gaps| == |contents| + 1
  }

  function Weave(gaps: seq<string>, contents: seq<string>): string
    requires Fits(gaps, contents)
  {
    if contents == [] then gaps[0]
    else gaps[0] + contents[0] + Weave(gaps[1..], contents[1..])
  }

  /** Where the contents lie when the text begins at p. */
  function Places(p: Position, gaps: seq<string>, contents: seq<string>): (places: seq<Range>)
    requires Fits(gaps, contents)
    ensures |places| == |contents|
    decreases |contents|
  {
    if contents == [] then []
    else
      var start := Advance(p, gaps[0]);
      var end := Advance(start, contents[0]);
      [Range(start, end)] + Places(end, gaps[1..], contents[1..])
  }

  /** Each place begins one gap behind the end of the place before it. */
  lemma {:induction false} PlaceAfterPlace(p: Position, gaps: seq<string>, contents: seq<string>, i: nat)
    requires Fits(gaps, contents) && i < |contents|
    ensures var places := Places(p, gaps, contents);
            && places[i].start == Advance(if i == 0 then p else places[i - 1].end, gaps[i])
            && places[i].end == Advance(places[i].start, contents[i])
    decreases i
  {
    if i > 0 {
      var end := Advance(Advance(p, gaps[0]), contents[0]);
      PlaceAfterPlace(end, gaps[1..], contents[1..], i - 1);
      assert Places(p, gaps, contents)[1..] == Places(end, gaps[1..], contents[1..]);
      assert gaps[1..][i - 1] == gaps[i] && contents[1..][i - 1] == contents[i];
    }
  }

  /** The places depend only on what lies before them. */
  lemma {:induction false} PlacesAgree(p: Position, gaps: seq<string>, a: seq<string>, b: seq<string>, i: nat)
    requires Fits(gaps, a) && Fits(gaps, b) && i <= |a| && a[..i] == b[..i]
    ensures Places(p, gaps, a)[..i] == Places(p, gaps, b)[..i]
    decreases i
  {
    if i > 0 {
      assert a[0] == a[..i][0] && b[0] == b[..i][0];
      assert a[1..][..i - 1] == a[..i][1..] && b[1..][..i - 1] == b[..i][1..];
      var end := Advance(Advance(p, gaps[0]), a[0]);
      PlacesAgree(end, gaps[1..], a[1..], b[1..], i - 1);
      assert Places(p, gaps, a)[..i] == [Places(p, gaps, a)[0]] + Places(end, gaps[1..], a[1..])[..i - 1];
      assert Places(p, gaps, b)[..i] == [Places(p, gaps, b)[0]] + Places(end, gaps[1..], b[1..])[..i - 1];
    }
  }

  /** From the same start on, the same contents lie in the same places. */
  lemma {:induction false} SamePlacesFrom(gaps: seq<string>, a: seq<string>, b: seq<string>, n: nat, k: nat)
    requires Fits(gaps, a) && Fits(gaps, b) && n <= k < |a| && a[n..] == b[n..]
    requires Places(ORIGIN, gaps, a)[n].start == Places(ORIGIN, gaps, b)[n].start
    ensures Places(ORIGIN, gaps, a)[k] == Places(ORIGIN, gaps, b)[k]
    decreases k
  {
    assert a[k] == a[n..][k - n] && b[k] == b[n..][k - n];
    PlaceAfterPlace(ORIGIN, gaps, a, k);
    PlaceAfterPlace(ORIGIN, gaps, b, k);
    hide Places, Advance;
    if k > n {
      SamePlacesFrom(gaps, a, b, n, k - 1);
    }
  }

  function Edits(ranges: seq<Range>, texts: seq<string>): seq<Edit>
    requires |texts| <= |ranges|
  {
    seq(|texts|, k requires 0 <= k < |texts| => Edit(ranges[k], texts[k]))
  }

  lemma OneMoreEdit(ranges: seq<Range>, texts: seq<string>, text: string)
    requires |texts| < |ranges|
    ensures Edits(ranges, texts + [text]) == Edits(ranges, texts) + [Edit(ranges[|texts|], text)]
  {
  }

  /** The contents with the first ones replaced by texts. */
  function Replaced(contents: seq<string>, texts: seq<string>): (all: seq<string>)
    requires |texts| <= |contents|
    ensures |all| == |contents|
  {
    texts + contents[|texts|..]
  }

  /** Replacing the first contents at their places gives the text with those contents. */
  lemma {:induction false} SpliceReplaces(before: string, gaps: seq<string>, contents: seq<string>, texts: seq<string>)
    requires Fits(gaps, contents) && |texts| <= |contents|
    ensures var doc := before + Weave(gaps, contents);
            var places := Places(Advance(ORIGIN, before), gaps, contents);
            Splice(doc, |before|, Edits(places, texts)) == Weave(gaps, texts + contents[|texts|..])
    decreases |contents|
  {
    var doc := before + Weave(gaps, contents);
    var p := Advance(ORIGIN, before);
    var places := Places(p, gaps, contents);
    if texts == [] {
      assert texts + contents[0..] == contents;
      assert doc[|before|..] == Weave(gaps, contents);
    } else {
      var rest := Weave(gaps[1..], contents[1..]);
      var upToStart := before + gaps[0];
      var upToEnd := upToStart + contents[0];
      assert doc == upToStart + (contents[0] + rest);
      assert doc == upToEnd + rest;
      AdvanceConcat(ORIGIN, before, gaps[0]);
      AdvanceConcat(ORIGIN, upToStart, contents[0]);
      OffsetOfPrefix(upToStart, contents[0] + rest);
      OffsetOfPrefix(upToEnd, rest);
      SpliceReplaces(upToEnd, gaps[1..], contents[1..], texts[1..]);
      assert Edits(places, texts)[1..] == Edits(places[1..], texts[1..]);
      assert places[1..] == Places(places[0].end, gaps[1..], contents[1..]);
      var all := texts + contents[|texts|..];
      assert all[0] == texts[0] && all[1..] == texts[1..] + contents[1..][|texts| - 1..];
      assert doc[|before|..|upToStart|] == gaps[0];
    }
  }

  lemma PlacesAreConsecutive(gaps: seq<string>, contents: seq<string>, texts: seq<string>)
    requires Fits(gaps, contents) && |texts| <= |contents|
    ensures Consecutive(Edits(Places(ORIGIN, gaps, contents), texts))
  {
    var places := Places(ORIGIN, gaps, contents);
    forall i | 0 <= i < |contents|
      ensures AtMost(places[i].start, places[i].end) && (i > 0 ==> AtMost(places[i - 1].end, places[i].start))
    {
      PlaceAfterPlace(ORIGIN, gaps, contents, i);
      AdvanceGoesOn(if i == 0 then ORIGIN else places[i - 1].end, gaps[i]);
      AdvanceGoesOn(places[i].start, contents[i]);
    }
  }

  /** An edit of the places of the first contents replaces exactly these. */
  lemma EditReplaces(gaps: seq<string>, contents: seq<string>, texts: seq<string>)
    requires Fits(gaps, contents) && |texts| <= |contents|
    ensures EditAll(Weave(gaps, contents), Edits(Places(ORIGIN, gaps, contents), texts))
            == Weave(gaps, Replaced(contents, texts))
  {
    assert "" + Weave(gaps, contents) == Weave(gaps, contents);
    SpliceReplaces("", gaps, contents, texts);
    PlacesAreConsecutive(gaps, contents, texts);
    ConsecutiveIsSorted(Edits(Places(ORIGIN, gaps, contents), texts));
  }

  /** A place delimits its content. */
  lemma {:induction false} PlaceDelimits(before: string, gaps: seq<string>, contents: seq<string>, i: nat)
    requires Fits(gaps, contents) && i < |contents|
    ensures var doc := before + Weave(gaps, contents);
            TextIn(doc, Places(Advance(ORIGIN, before), gaps, contents)[i]) == contents[i]
    decreases i
  {
    var doc := before + Weave(gaps, contents);
    var rest := Weave(gaps[1..], contents[1..]);
    var upToStart := before + gaps[0];
    var upToEnd := upToStart + contents[0];
    assert doc == upToStart + (contents[0] + rest);
    assert doc == upToEnd + rest;
    AdvanceConcat(ORIGIN, before, gaps[0]);
    AdvanceConcat(ORIGIN, upToStart, contents[0]);
    if i == 0 {
      OffsetOfPrefix(upToStart, contents[0] + rest);
      OffsetOfPrefix(upToEnd, rest);
      assert doc[|upToStart|..|upToEnd|] == contents[0];
    } else {
      PlaceDelimits(upToEnd, gaps[1..], contents[1..], i - 1);
    }
  }

  lemma EditDelimits(gaps: seq<string>, contents: seq<string>, i: nat)
    requires Fits(gaps, contents) && i < |contents|
    ensures TextIn(Weave(gaps, contents), Places(ORIGIN, gaps, contents)[i]) == contents[i]
  {
    assert "" + Weave(gaps, contents) == Weave(gaps, contents);
    PlaceDelimits("", gaps, contents, i);
  }

  // ---- every choice of separate ranges is such a text -----------------------------------------------

  /** Positions of the text, in order. */
  ghost predicate InOrder(doc: string, at: Position, ranges: seq<Range>) {
    ranges == [] ||
    exists gap: nat, length: nat ::
      gap + length <= |doc| && ranges[0] == RangeFrom(at, doc, gap, length)
      && InOrder(doc[gap + length..], ranges[0].end, ranges[1..])
  }

  function RangeFrom(at: Position, doc: string, gap: nat, length: nat): Range
    requires gap + length <= |doc|
  {
    Range(Advance(at, doc[..gap]), Advance(at, doc[..gap + length]))
  }

  lemma {:induction false} RangesFit(doc: string, at: Position, ranges: seq<Range>)
      returns (gaps: seq<string>, contents: seq<string>)
    requires InOrder(doc, at, ranges)
    ensures Fits(gaps, contents) && Weave(gaps, contents) == doc && Places(at, gaps, contents) == ranges
    decreases |ranges|
  {
    if ranges == [] {
      gaps, contents := [doc], [];
    } else {
      var gap: nat, length: nat :|
        gap + length <= |doc| && ranges[0] == RangeFrom(at, doc, gap, length)
        && InOrder(doc[gap + length..], ranges[0].end, ranges[1..]);
      var g, c := RangesFit(doc[gap + length..], ranges[0].end, ranges[1..]);
      gaps, contents := [doc[..gap]] + g, [doc[gap..gap + length]] + c;
      assert gaps[1..] == g && contents[1..] == c;
      assert doc == doc[..gap] + doc[gap..gap + length] + doc[gap + length..];
      assert doc[..gap + length] == doc[..gap] + doc[gap..gap + length];
      AdvanceConcat(at, doc[..gap], doc[gap..gap + length]);
    }
  }

  ghost predicate InText(doc: string, at: Position, p: Position) {
    exists k: nat :: k <= |doc| && p == Advance(at, doc[..k])
  }

  /** Ranges of the text, each behind the one before. */
  ghost predicate Sorted(doc: string, at: Position, ranges: seq<Range>) {
    && (forall i :: 0 <= i < |ranges| ==>
          InText(doc, at, ranges[i].start) && InText(doc, at, ranges[i].end) && AtMost(ranges[i].start, ranges[i].end))
    && (forall i, j :: 0 <= i < j < |ranges| ==> AtMost(ranges[i].end, ranges[j].start))
  }

  /** Offsets are ordered as positions are. */
  lemma LaterOffset(doc: string, at: Position, m: nat, k: nat)
    requires m <= |doc| && k <= |doc| && AtMost(Advance(at, doc[..m]), Advance(at, doc[..k]))
    ensures m <= k
  {
    if k < m {
      assert doc[..m] == doc[..k] + doc[k..m];
      AdvanceConcat(at, doc[..k], doc[k..m]);
      AdvanceGoesOn(Advance(at, doc[..k]), doc[k..m]);
    }
  }

  lemma InRest(doc: string, at: Position, m: nat, p: Position)
    requires m <= |doc| && InText(doc, at, p) && AtMost(Advance(at, doc[..m]), p)
    ensures InText(doc[m..], Advance(at, doc[..m]), p)
  {
    var k: nat :| k <= |doc| && p == Advance(at, doc[..k]);
    LaterOffset(doc, at, m, k);
    assert doc[..k] == doc[..m] + doc[m..][..k - m];
    AdvanceConcat(at, doc[..m], doc[m..][..k - m]);
  }

  lemma AtMostIsTransitive(a: Position, b: Position, c: Position)
    requires AtMost(a, b) && AtMost(b, c)
    ensures AtMost(a, c)
  {
  }

  lemma {:induction false} SortedIsInOrder(doc: string, at: Position, ranges: seq<Range>)
    requires Sorted(doc, at, ranges)
    ensures InOrder(doc, at, ranges)
    decreases |ranges|
  {
    if ranges != [] {
      var s: nat :| s <= |doc| && ranges[0].start == Advance(at, doc[..s]);
      var e: nat :| e <= |doc| && ranges[0].end == Advance(at, doc[..e]);
      LaterOffset(doc, at, s, e);
      var rest := ranges[1..];
      forall i | 0 <= i < |rest|
        ensures InText(doc[e..], ranges[0].end, rest[i].start) && InText(doc[e..], ranges[0].end, rest[i].end)
        ensures AtMost(rest[i].start, rest[i].end)
      {
        assert rest[i] == ranges[i + 1];
        AtMostIsTransitive(ranges[0].end, rest[i].start, rest[i].end);
        InRest(doc, at, e, rest[i].start);
        InRest(doc, at, e, rest[i].end);
      }
      SortedIsInOrder(doc[e..], ranges[0].end, rest);
      assert s + (e - s) <= |doc| && ranges[0] == RangeFrom(at, doc, s, e - s);
      assert InOrder(doc[s + (e - s)..], ranges[0].end, ranges[1..]);
    }
  }

  /** Whatever separate ranges of a text are replaced, what lies outside of them stays as it is. */
  lemma OutsideIsKept(doc: string, ranges: seq<Range>, texts: seq<string>) returns (gaps: seq<string>, contents: seq<string>)
    requires Sorted(doc, ORIGIN, ranges) && |texts| == |ranges|
    ensures Fits(gaps, contents) && Weave(gaps, contents) == doc && Places(ORIGIN, gaps, contents) == ranges
    ensures Fits(gaps, texts) && EditAll(doc, Edits(ranges, texts)) == Weave(gaps, texts)
  {
    SortedIsInOrder(doc, ORIGIN, ranges);
    gaps, contents := RangesFit(doc, ORIGIN, ranges);
    hide Weave, Places, EditAll, Sorted, InOrder;
    EditReplaces(gaps, contents, texts);
    assert Replaced(contents, texts) == texts;
  }
}
