/** The preview of "wrap with abbreviation": several ranges replaced at once, again and again. */
module WrapPreviews {
  import opened Options
  import opened TextPositions

  // ---- the ranges to replace ------------------------------------------------------------------------

  ghost predicate Proper(range: Range) {
    AtMost(range.start, range.end)
  }

  ghost predicate IsIn(document: string, range: Range) {
    InText(document, ORIGIN, range.start) && InText(document, ORIGIN, range.end)
  }

  ghost predicate Holds(range: Range, p: Position) {
    AtMost(range.start, p) && AtMost(p, range.end)
  }

  ghost predicate Covers(ranges: seq<Range>, p: Position) {
    exists i :: 0 <= i < |ranges| && Holds(ranges[i], p)
  }

  function Later(a: Position, b: Position): Position {
    if AtMost(a, b) then b else a
  }

  function Earlier(a: Position, b: Position): Position {
    if AtMost(a, b) then a else b
  }

  /** `Range.intersection`: ranges that touch have an empty one. */
  function Intersection(a: Range, b: Range): Option<Range> {
    var start, end := Later(a.start, b.start), Earlier(a.end, b.end);
    if Before(end, start) then None else Some(Range(start, end))
  }

  function Union(a: Range, b: Range): Range {
    Range(Earlier(a.start, b.start), Later(a.end, b.end))
  }

  lemma OneMoreCovers(ranges: seq<Range>, range: Range)
    ensures forall p :: Covers(ranges + [range], p) <==> Covers(ranges, p) || Holds(range, p)
  {
    var all := ranges + [range];
    forall p ensures Covers(all, p) <==> Covers(ranges, p) || Holds(range, p) {
      if Covers(ranges, p) {
        var i :| 0 <= i < |ranges| && Holds(ranges[i], p);
        assert all[i] == ranges[i];
      }
      if Holds(range, p) {
        assert all[|ranges|] == range;
      }
    }
  }

  /** Ranges of the text. */
  ghost predicate AllIn(document: string, ranges: seq<Range>) {
    forall i :: 0 <= i < |ranges| ==> Proper(ranges[i]) && IsIn(document, ranges[i])
  }

  /** In order and without touching. */
  ghost predicate Apart(ranges: seq<Range>) {
    forall i, j :: 0 <= i < j < |ranges| ==> Before(ranges[i].end, ranges[j].start)
  }

  ghost predicate StartSorted(ranges: seq<Range>) {
    forall i, j :: 0 <= i < j < |ranges| ==> AtMost(ranges[i].start, ranges[j].start)
  }

  lemma UnionCovers(a: Range, b: Range)
    requires Proper(a) && Proper(b) && Intersection(b, a).Some?
    ensures forall p :: Holds(Union(b, a), p) <==> Holds(a, p) || Holds(b, p)
  {
  }

  /** A range that touches the last one can be united with it; if it begins no earlier, they stay apart. */
  lemma WidenLast(document: string, merged: seq<Range>, range: Range)
    requires AllIn(document, merged) && Proper(range) && IsIn(document, range)
    requires merged != [] && Intersection(range, merged[|merged| - 1]).Some?
    ensures var n := |merged| - 1;
            var union := Union(range, merged[n]);
            && AllIn(document, merged[..n] + [union])
            && (Apart(merged) && AtMost(merged[n].start, range.start) ==>
                  Apart(merged[..n] + [union]) && union.start == merged[n].start)
            && forall p :: Covers(merged[..n] + [union], p) <==> Covers(merged, p) || Holds(range, p)
  {
    var n := |merged| - 1;
    var last := merged[n];
    assert merged == merged[..n] + [last];
    OneMoreCovers(merged[..n], last);
    OneMoreCovers(merged[..n], Union(range, last));
    UnionCovers(last, range);
    hide Covers;
  }

  /** A range that does not touch the last one is added; if it begins no earlier, it touches none. */
  lemma AddRange(document: string, merged: seq<Range>, range: Range)
    requires AllIn(document, merged) && Proper(range) && IsIn(document, range)
    requires merged != [] ==> Intersection(range, merged[|merged| - 1]).None?
    ensures AllIn(document, merged + [range])
    ensures Apart(merged) && (merged != [] ==> AtMost(merged[|merged| - 1].start, range.start)) ==> Apart(merged + [range])
    ensures forall p :: Covers(merged + [range], p) <==> Covers(merged, p) || Holds(range, p)
  {
    OneMoreCovers(merged, range);
    hide Covers;
    if Apart(merged) && merged != [] && AtMost(merged[|merged| - 1].start, range.start) {
      var n := |merged| - 1;
      assert Before(merged[n].end, range.start);
      forall j | 0 <= j < |merged| ensures Before(merged[j].end, range.start) {
        assert AtMost(merged[n].start, merged[n].end);
      }
    }
  }

  /**
   Merges ranges of a document: what is left covers exactly what the given ranges covered. If they
   were sorted by their starts, it is apart and in order.
   */
  method MergeRanges(ghost document: string, ranges: seq<Range>) returns (merged: seq<Range>)
    requires forall i :: 0 <= i < |ranges| ==> Proper(ranges[i]) && IsIn(document, ranges[i])
    ensures AllIn(document, merged)
    ensures forall p :: Covers(merged, p) <==> Covers(ranges, p)
    ensures StartSorted(ranges) ==> Apart(merged) && Sorted(document, ORIGIN, merged)
  {
    merged := [];
    assert ranges[..0] == [];
    ghost var sorted := StartSorted(ranges);
    for i := 0 to |ranges|
      invariant AllIn(document, merged)
      invariant sorted ==> Apart(merged)
      invariant sorted && merged != [] ==> i > 0 && AtMost(merged[|merged| - 1].start, ranges[i - 1].start)
      invariant forall p :: Covers(merged, p) <==> Covers(ranges[..i], p)
    {
      hide Covers, Apart, AllIn, InText;
      var range := ranges[i];
      assert ranges[..i + 1] == ranges[..i] + [range];
      OneMoreCovers(ranges[..i], range);
      if |merged| > 0 && Intersection(range, merged[|merged| - 1]).Some? {
        WidenLast(document, merged, range);
        merged := merged[..|merged| - 1] + [Union(range, merged[|merged| - 1])];
      } else {
        AddRange(document, merged, range);
        merged := merged + [range];
      }
    }
    assert ranges[..|ranges|] == ranges;
    if sorted {
      ApartIsSorted(document, merged);
    }
  }

  lemma ApartIsSorted(document: string, ranges: seq<Range>)
    requires AllIn(document, ranges) && Apart(ranges)
    ensures Sorted(document, ORIGIN, ranges)
  {
    hide InText;
  }

  // ---- the preview ----------------------------------------------------------------------------------

  datatype PreviewRange = PreviewRange(previewRange: Range, originalRange: Range, originalContent: string)

  function PreviewRangesOf(ranges: seq<PreviewRange>): seq<Range> {
    seq(|ranges|, i requires 0 <= i < |ranges| => ranges[i].previewRange)
  }

  /** Where the preview of a range goes when the ones before it have gone to their new places. */
  lemma NextStart(lastOld: Position, lastNew: Position, gap: string)
    ensures var old_, new_ := Advance(lastOld, gap), Advance(lastNew, gap);
            && new_.line - lastNew.line == old_.line - lastOld.line
            && lastOld.line <= old_.line
            && (old_.line == lastOld.line ==> new_.character == lastNew.character + (old_.character - lastOld.character)
                                              && old_.character >= lastOld.character)
            && (old_.line != lastOld.line ==> new_.character == old_.character)
  {
    AdvanceByLines(lastOld, gap);
    AdvanceByLines(lastNew, gap);
  }

  class WrapPreview {
    var document: string
    var rangesToReplace: array<PreviewRange>
    var inPreviewMode: bool
    ghost var gaps: seq<string>
    ghost var original: seq<string>
    ghost var current: seq<string>

    /** The document is the gaps with the current contents between them, and every range is exact. */
    ghost predicate Valid()
      reads this, rangesToReplace
    {
      && Fits(gaps, original) && Fits(gaps, current) && |original| == rangesToReplace.Length
      && document == Weave(gaps, current)
      && (forall i :: 0 <= i < rangesToReplace.Length ==>
            rangesToReplace[i].previewRange == Places(ORIGIN, gaps, current)[i])
      && Originals()
    }

    /** Between changes: out of preview mode the document is the original one. */
    ghost predicate Settled()
      reads this, rangesToReplace
    {
      Valid() && (!inPreviewMode ==> current == original)
    }

    lemma Opened()
      requires Valid()
      ensures Fits(gaps, original) && Fits(gaps, current) && |original| == |current| == rangesToReplace.Length && Originals()
      ensures forall k :: 0 <= k < rangesToReplace.Length ==>
                rangesToReplace[k].previewRange == Places(ORIGIN, gaps, current)[k]
    {
    }

    ghost predicate Originals()
      requires Fits(gaps, original) && |original| == rangesToReplace.Length
      reads this, rangesToReplace
    {
      forall i :: 0 <= i < rangesToReplace.Length ==>
        rangesToReplace[i].originalRange == Places(ORIGIN, gaps, original)[i]
        && rangesToReplace[i].originalContent == original[i]
    }

    constructor (document: string, operationRanges: seq<Range>)
      requires Sorted(document, ORIGIN, operationRanges)
      ensures Settled() && !inPreviewMode && fresh(rangesToReplace) && this.document == document
      ensures rangesToReplace.Length == |operationRanges|
      ensures Places(ORIGIN, gaps, original) == operationRanges && Weave(gaps, original) == document
    {
      this.document := document;
      inPreviewMode := false;
      SortedIsInOrder(document, ORIGIN, operationRanges);
      ghost var g, c := RangesFit(document, ORIGIN, operationRanges);
      gaps, original, current := g, c, c;
      forall i | 0 <= i < |c| ensures TextIn(document, operationRanges[i]) == c[i] {
        PlaceDelimits("", g, c, i);
        assert "" + Weave(g, c) == document;
      }
      rangesToReplace := new PreviewRange[|operationRanges|](i requires 0 <= i < |operationRanges| =>
        PreviewRange(operationRanges[i], operationRanges[i], TextIn(document, operationRanges[i])));
    }

    /** The preview range to use from now on for the i-th text; gap and content are what the old one lies behind and around. */
    static method NewPreviewRange(i: nat, oldPreviewRange: Range, newText: string, lastOldPreviewRange: Range,
                                  lastNewPreviewRange: Range, totalNewLinesInserted: int, ghost gap: string, ghost content: string)
        returns (newPreviewRange: Range, newLinesInserted: int)
      requires i == 0 ==> lastOldPreviewRange.end == ORIGIN && lastNewPreviewRange.end == ORIGIN
      requires oldPreviewRange == PlaceBehind(lastOldPreviewRange.end, gap, content)
      requires totalNewLinesInserted == lastNewPreviewRange.end.line - lastOldPreviewRange.end.line
      ensures newPreviewRange == PlaceBehind(lastNewPreviewRange.end, gap, newText)
      ensures totalNewLinesInserted + newLinesInserted == newPreviewRange.end.line - oldPreviewRange.end.line
    {
      NewRangeIsPlace(lastOldPreviewRange.end, lastNewPreviewRange.end, gap, content, newText);
      hide Advance, Lines;
      // the previous expansions could have moved lines, or be on the same line
      var expandedTextLines := Lines(newText);
      var oldPreviewLines := oldPreviewRange.end.line - oldPreviewRange.start.line + 1;
      newLinesInserted := |expandedTextLines| - oldPreviewLines;
      var newPreviewLineStart := oldPreviewRange.start.line + totalNewLinesInserted;
      var newPreviewStart: int := oldPreviewRange.start.character;
      var newPreviewLineEnd := oldPreviewRange.end.line + totalNewLinesInserted + newLinesInserted;
      var newPreviewEnd: int := LastLength(expandedTextLines);
      if i > 0 && newPreviewLineEnd == lastNewPreviewRange.end.line {
        newPreviewStart := lastNewPreviewRange.end.character
                           + (oldPreviewRange.start.character - lastOldPreviewRange.end.character);
        newPreviewEnd := newPreviewEnd + newPreviewStart;
      } else if i > 0 && newPreviewLineStart == lastNewPreviewRange.end.line {
        newPreviewStart := lastNewPreviewRange.end.character
                           + (oldPreviewRange.start.character - lastOldPreviewRange.end.character);
      } else if |expandedTextLines| == 1 {
        newPreviewEnd := newPreviewEnd + oldPreviewRange.start.character;
      }
      ghost var place := PlaceBehind(lastNewPreviewRange.end, gap, newText);
      assert newPreviewLineStart == place.start.line && newPreviewStart == place.start.character;
      assert newPreviewLineEnd == place.end.line && newPreviewEnd == place.end.character;
      newPreviewRange := Range(Position(newPreviewLineStart, newPreviewStart), Position(newPreviewLineEnd, newPreviewEnd));
    }

    method SetPreviewRange(i: nat, range: Range)
      requires i < rangesToReplace.Length && Fits(gaps, original) && |original| == rangesToReplace.Length
      modifies rangesToReplace
      ensures rangesToReplace[i] == old(rangesToReplace[i]).(previewRange := range)
      ensures forall k :: 0 <= k < rangesToReplace.Length && k != i ==> rangesToReplace[k] == old(rangesToReplace[k])
      ensures Originals() == old(Originals())
    {
      rangesToReplace[i] := rangesToReplace[i].(previewRange := range);
    }

    /**
     The edits that replace the current contents by new texts, up to the first expansion that failed;
     every range to be replaced is already moved to the place its new text will have.
     */
    method CollectEdits(expansions: seq<Option<string>>) returns (applied: nat, edits: seq<Edit>, ghost texts: seq<string>)
      requires Valid() && |expansions| == rangesToReplace.Length
      modifies rangesToReplace
      ensures |texts| == applied <= |expansions| && (applied < |expansions| ==> expansions[applied].None?)
      ensures forall k :: 0 <= k < applied ==> expansions[k] == Some(texts[k])
      ensures edits == Edits(Places(ORIGIN, gaps, current), texts)
      ensures Fits(gaps, Replaced(current, texts))
      ensures forall k :: 0 <= k < applied ==>
                rangesToReplace[k].previewRange == Places(ORIGIN, gaps, Replaced(current, texts))[k]
      ensures forall k :: applied <= k < |expansions| ==> rangesToReplace[k] == old(rangesToReplace[k])
      ensures Originals()
    {
      hide Valid;
      Opened();
      assert Edits(Places(ORIGIN, gaps, current), []) == [];
      assert Replaced(current, []) == current;
      ghost var g, c, ranges := gaps, current, rangesToReplace[..];
      hide Advance, Places, Weave, PlaceBehind, Edits, Originals, Replaced;
      ghost var olds := Places(ORIGIN, g, c);
      ghost var news := olds;
      texts := [];
      edits := [];
      var lastOldPreviewRange := Range(ORIGIN, ORIGIN);
      var lastNewPreviewRange := Range(ORIGIN, ORIGIN);
      var totalNewLinesInserted: int := 0;
      applied := 0;
      while applied < |expansions| && expansions[applied].Some?
        invariant applied <= |expansions| && |texts| == applied
        invariant forall k :: 0 <= k < applied ==> expansions[k] == Some(texts[k])
        invariant Fits(g, Replaced(c, texts)) && news == Places(ORIGIN, g, Replaced(c, texts))
        invariant forall k :: 0 <= k < applied ==> rangesToReplace[k].previewRange == news[k]
        invariant forall k :: applied <= k < |expansions| ==> rangesToReplace[k] == ranges[k]
        invariant Originals() && edits == Edits(olds, texts)
        invariant applied == 0 ==> lastOldPreviewRange.end == ORIGIN && lastNewPreviewRange.end == ORIGIN
        invariant applied > 0 ==> lastOldPreviewRange == olds[applied - 1] && lastNewPreviewRange == news[applied - 1]
        invariant totalNewLinesInserted == lastNewPreviewRange.end.line - lastOldPreviewRange.end.line
        decreases |expansions| - applied
      {
        var i := applied;
        var newText := expansions[i].value;
        var oldPreviewRange := rangesToReplace[i].previewRange;
        edits := edits + [Edit(oldPreviewRange, newText)];
        OneMoreEdit(olds, texts, newText);
        PlacesWithNext(g, c, texts, newText);
        var newPreviewRange, newLinesInserted :=
          NewPreviewRange(i, oldPreviewRange, newText, lastOldPreviewRange, lastNewPreviewRange, totalNewLinesInserted,
                          g[i], c[i]);
        lastOldPreviewRange := oldPreviewRange;
        lastNewPreviewRange := newPreviewRange;
        SetPreviewRange(i, lastNewPreviewRange);
        totalNewLinesInserted := totalNewLinesInserted + newLinesInserted;
        texts := texts + [newText];
        news := Places(ORIGIN, g, Replaced(c, texts));
        applied := applied + 1;
      }
    }

    /**
     Every replaced range ends up exactly around its new text. All the others are still exact, too, and
     the preview can be replaced or reverted, exactly if what comes behind the replaced texts did not move.
     */
    method ApplyPreview(expansions: seq<Option<string>>) returns (applied: nat)
      requires Valid() && |expansions| == rangesToReplace.Length
      modifies this`document, this`current, rangesToReplace
      ensures applied <= |expansions| && (applied < |expansions| ==> expansions[applied].None?)
      ensures forall k :: 0 <= k < applied ==> expansions[k].Some?
      ensures Fits(gaps, current) && current == Replaced(old(current), Texts(expansions[..applied]))
      ensures document == Weave(gaps, current)
      ensures forall k :: 0 <= k < applied ==> rangesToReplace[k].previewRange == Places(ORIGIN, gaps, current)[k]
      ensures forall k :: applied <= k < |expansions| ==> rangesToReplace[k] == old(rangesToReplace[k])
      ensures Fits(gaps, original) && Originals()
      ensures current == Shown(old(current), expansions) && (Valid() <==> StillExact(gaps, old(current), expansions))
    {
      assert document == Weave(gaps, current);
      hide Valid;
      Opened();
      hide Advance, Places, Weave, EditAll, Edits, StillExact, Replaced, Originals, Applied;
      var edits;
      ghost var before, texts := current, [];
      applied, edits, texts := CollectEdits(expansions);
      AppliedIs(expansions, applied);
      assert Texts(expansions[..applied]) == texts;
      EditReplaces(gaps, current, texts);
      document := EditAll(document, edits);
      current := Replaced(current, Texts(expansions[..applied]));
      OpenAgain(before, expansions);
    }

    lemma OpenAgain(before: seq<string>, expansions: seq<Option<string>>)
      requires Fits(gaps, original) && |original| == |before| == |expansions| == rangesToReplace.Length && Originals()
      requires Fits(gaps, before) && Fits(gaps, current) && current == Shown(before, expansions) && document == Weave(gaps, current)
      requires forall k :: 0 <= k < Applied(expansions) ==> rangesToReplace[k].previewRange == Places(ORIGIN, gaps, current)[k]
      requires forall k :: Applied(expansions) <= k < |before| ==>
                 rangesToReplace[k].previewRange == Places(ORIGIN, gaps, before)[k]
      ensures Valid() <==> StillExact(gaps, before, expansions)
    {
      StillExactMeansSamePlaces(gaps, before, expansions);
      var n, places, olds := Applied(expansions), Places(ORIGIN, gaps, current), Places(ORIGIN, gaps, before);
      hide *;
      ExactPlaces(places);
      assert (forall k :: 0 <= k < |before| ==> rangesToReplace[k].previewRange == places[k])
        <==> forall k :: n <= k < |before| ==> places[k] == olds[k];
    }

    lemma ExactPlaces(places: seq<Range>)
      requires Fits(gaps, original) && |original| == rangesToReplace.Length && Originals()
      requires Fits(gaps, current) && document == Weave(gaps, current)
      requires places == Places(ORIGIN, gaps, current) && |places| == |original|
      ensures Valid() <==> forall k :: 0 <= k < |original| ==> rangesToReplace[k].previewRange == places[k]
    {
      hide Originals, Places, Weave, Fits;
    }

    /** What holds even if a preview left ranges out of place. */
    ghost predicate Known()
      reads this, rangesToReplace
    {
      Fits(gaps, original) && |original| == rangesToReplace.Length && Originals()
    }

    /**
     Puts the original contents into the preview ranges, wherever these lie. If they were exact, the
     document is the original one; otherwise they are exact again if and only if it is so by chance.
     */
    method RevertPreview()
      requires Known()
      modifies this`document, this`current, rangesToReplace
      ensures Known() && current == original && document == EditAll(old(document), Edits(old(PreviewRangesOf(rangesToReplace[..])), original))
      ensures forall k :: 0 <= k < rangesToReplace.Length ==>
                rangesToReplace[k] == old(rangesToReplace[k]).(previewRange := old(rangesToReplace[k].originalRange))
      ensures Valid() <==> document == Weave(gaps, original)
      ensures old(Valid()) ==> Valid()
    {
      hide Advance, Places, Weave, EditAll;
      var edits: seq<Edit> := [];
      ghost var olds, exact := PreviewRangesOf(rangesToReplace[..]), Valid();
      assert exact ==> Fits(gaps, current) && document == Weave(gaps, current) && olds == Places(ORIGIN, gaps, current);
      var i := 0;
      while i < rangesToReplace.Length
        invariant i <= rangesToReplace.Length
        invariant document == old(document) && current == old(current) && Known() && edits == Edits(olds, original[..i])
        invariant forall k :: 0 <= k < i ==>
                    rangesToReplace[k] == old(rangesToReplace[k]).(previewRange := old(rangesToReplace[k].originalRange))
        invariant forall k :: i <= k < rangesToReplace.Length ==> rangesToReplace[k] == old(rangesToReplace[k])
      {
        edits := edits + [Edit(rangesToReplace[i].previewRange, rangesToReplace[i].originalContent)];
        rangesToReplace[i] := rangesToReplace[i].(previewRange := rangesToReplace[i].originalRange);
        i := i + 1;
      }
      assert original[..i] == original;
      if exact {
        EditReplaces(gaps, current, original);
        assert Replaced(current, original) == original;
      }
      document := EditAll(document, edits);
      current := original;
    }

    /** Every preview range is around the text of its range, every original range was. */
    lemma RangesDelimit()
      requires Valid()
      ensures forall k :: 0 <= k < |current| ==>
                TextIn(document, rangesToReplace[k].previewRange) == current[k]
                && TextIn(Weave(gaps, original), rangesToReplace[k].originalRange) == original[k]
    {
      forall k | 0 <= k < |current|
        ensures TextIn(document, Places(ORIGIN, gaps, current)[k]) == current[k]
        ensures TextIn(Weave(gaps, original), Places(ORIGIN, gaps, original)[k]) == original[k]
      {
        EditDelimits(gaps, current, k);
        EditDelimits(gaps, original, k);
      }
    }

    /**
     A preview shows the expansions, in the place of the original contents and nowhere else; anything
     but a preview puts the original contents back, which gives the original document if the ranges were
     exact. Returns whether there is something to expand.
     */
    method MakeChanges(input: Input, previewChanges: bool) returns (isAbbreviation: bool)
      requires Known() && |input.expansions| == rangesToReplace.Length
      requires !inPreviewMode || (input.isAbbreviation && previewChanges) ==> Settled()
      modifies this`document, this`current, this`inPreviewMode, rangesToReplace
      ensures Known() && isAbbreviation == input.isAbbreviation && inPreviewMode == (input.isAbbreviation && previewChanges)
      ensures !inPreviewMode && old(Settled()) ==> Settled() && document == Weave(gaps, original)
      ensures !inPreviewMode ==> forall k :: 0 <= k < rangesToReplace.Length ==>
                rangesToReplace[k].previewRange == rangesToReplace[k].originalRange
      ensures !inPreviewMode && old(inPreviewMode) ==>
                && document == EditAll(old(document), Edits(old(PreviewRangesOf(rangesToReplace[..])), original))
                && (Settled() <==> document == Weave(gaps, original))
      ensures inPreviewMode ==>
                && current == Shown(old(current), input.expansions) && document == Weave(gaps, current)
                && (Settled() <==> StillExact(gaps, old(current), input.expansions))
      ensures inPreviewMode && (forall k :: 0 <= k < |input.expansions| ==> input.expansions[k].Some?) ==>
                && Settled() && document == Weave(gaps, Texts(input.expansions))
                && forall k :: 0 <= k < |input.expansions| ==>
                     TextIn(document, rangesToReplace[k].previewRange) == input.expansions[k].value
    {
      isAbbreviation := input.isAbbreviation;
      if isAbbreviation && previewChanges {
        inPreviewMode := true;
        AllShown(gaps, current, input.expansions);
        hide Advance, Places, Weave, EditAll, Shown, StillExact;
        var applied := ApplyPreview(input.expansions);
        if Valid() {
          RangesDelimit();
        }
      } else if inPreviewMode {
        hide Advance, Places, Weave, EditAll;
        inPreviewMode := false;
        RevertPreview();
      }
    }

    /**
     The whole prompt: any values typed, each previewed, then the one accepted. Every preview range is
     the original one again, and all is as before the prompt if and only if the document is; it is if no
     preview leaves ranges out of place. Only the last one may.
     */
    method Prompt(typed: seq<Input>, accepted: Input) returns (isAbbreviation: bool)
      requires Settled() && !inPreviewMode
      requires forall k :: 0 <= k < |typed| ==> |typed[k].expansions| == rangesToReplace.Length
      requires |accepted.expansions| == rangesToReplace.Length
      requires typed != [] ==> StaysExact(gaps, original, original, typed[..|typed| - 1])
      modifies this`document, this`current, this`inPreviewMode, rangesToReplace
      ensures Known() && !inPreviewMode && isAbbreviation == accepted.isAbbreviation
      ensures Settled() <==> document == old(document)
      ensures StaysExact(gaps, original, original, typed) ==> document == old(document)
      ensures forall k :: 0 <= k < rangesToReplace.Length ==>
                rangesToReplace[k].previewRange == rangesToReplace[k].originalRange
                && rangesToReplace[k].originalRange == old(rangesToReplace[k].originalRange)
    {
      hide Advance, Places, Weave, EditAll, StillExact, Shown;
      ghost var n, exact := |typed| - 1, StaysExact(gaps, original, original, typed);
      assert typed[0..] == typed && (typed != [] ==> typed[0..n] == typed[..n]);
      for i := 0 to |typed|
        invariant Known() && (Settled() || (i == |typed| && inPreviewMode))
        invariant i < |typed| ==> StaysExact(gaps, original, current, typed[i..n])
        invariant exact ==> Settled() && StaysExact(gaps, original, current, typed[i..])
      {
        assert i < n ==> typed[i..n][0] == typed[i] && typed[i..n][1..] == typed[i + 1..n];
        assert typed[i..][0] == typed[i] && typed[i..][1..] == typed[i + 1..];
        var _ := MakeChanges(typed[i], true);
      }
      isAbbreviation := MakeChanges(accepted, false);
    }
  }

  // ---- previews that fail on the way ------------------------------------------------------------------

  /** How many ranges a preview replaces: it stops at the first expansion that fails. */
  function Applied(expansions: seq<Option<string>>): (n: nat)
    ensures n <= |expansions| && forall k :: 0 <= k < n ==> expansions[k].Some?
    ensures n < |expansions| ==> expansions[n].None?
  {
    if expansions == [] || expansions[0].None? then 0 else 1 + Applied(expansions[1..])
  }

  /** The contents that a preview leaves. */
  function Shown(contents: seq<string>, expansions: seq<Option<string>>): seq<string>
    requires |expansions| == |contents|
  {
    Replaced(contents, Texts(expansions[..Applied(expansions)]))
  }

  /**
   Nothing behind the replaced texts moves: the last of them ends on the same line as what it replaces,
   and at the same column, unless a line break follows before the next range.
   */
  ghost predicate StillExact(gaps: seq<string>, contents: seq<string>, expansions: seq<Option<string>>)
    requires Fits(gaps, contents) && |expansions| == |contents|
  {
    var n := Applied(expansions);
    n == 0 || n == |expansions| ||
    (var before, after := Places(ORIGIN, gaps, contents)[n - 1].end, Places(ORIGIN, gaps, Shown(contents, expansions))[n - 1].end;
     after.line == before.line && (after.character == before.character || '\n' in gaps[n]))
  }

  /** Every preview of the prompt leaves all ranges exact. */
  ghost predicate StaysExact(gaps: seq<string>, original: seq<string>, contents: seq<string>, typed: seq<Input>)
    requires Fits(gaps, original) && Fits(gaps, contents)
    requires forall k :: 0 <= k < |typed| ==> |typed[k].expansions| == |contents|
    decreases |typed|
  {
    typed == [] ||
    if typed[0].isAbbreviation then
      StillExact(gaps, contents, typed[0].expansions)
      && StaysExact(gaps, original, Shown(contents, typed[0].expansions), typed[1..])
    else
      StaysExact(gaps, original, original, typed[1..])
  }

  lemma {:induction false} AppliedIs(expansions: seq<Option<string>>, n: nat)
    requires n <= |expansions| && forall k :: 0 <= k < n ==> expansions[k].Some?
    requires n < |expansions| ==> expansions[n].None?
    ensures Applied(expansions) == n
  {
    if n > 0 {
      AppliedIs(expansions[1..], n - 1);
    }
  }

  lemma AllShown(gaps: seq<string>, contents: seq<string>, expansions: seq<Option<string>>)
    requires Fits(gaps, contents) && |expansions| == |contents|
    ensures (forall k :: 0 <= k < |expansions| ==> expansions[k].Some?) ==>
              Shown(contents, expansions) == Texts(expansions) && StillExact(gaps, contents, expansions)
  {
    if forall k :: 0 <= k < |expansions| ==> expansions[k].Some? {
      AppliedIs(expansions, |expansions|);
      assert expansions[..|expansions|] == expansions;
    }
  }

  /** The ranges behind the replaced ones keep their places exactly under that condition. */
  lemma StillExactMeansSamePlaces(gaps: seq<string>, contents: seq<string>, expansions: seq<Option<string>>)
    requires Fits(gaps, contents) && |expansions| == |contents|
    ensures var n := Applied(expansions);
            StillExact(gaps, contents, expansions) <==>
              forall k :: n <= k < |contents| ==> Places(ORIGIN, gaps, Shown(contents, expansions))[k] == Places(ORIGIN, gaps, contents)[k]
  {
    var n := Applied(expansions);
    var shown := Shown(contents, expansions);
    assert shown[n..] == contents[n..];
    if n == 0 {
      assert shown == contents;
    } else if n < |contents| {
      PlaceAfterPlace(ORIGIN, gaps, contents, n);
      PlaceAfterPlace(ORIGIN, gaps, shown, n);
      var before, after := Places(ORIGIN, gaps, contents), Places(ORIGIN, gaps, shown);
      SameAdvance(after[n - 1].end, before[n - 1].end, gaps[n]);
      hide Places, Advance, Shown;
      if StillExact(gaps, contents, expansions) {
        forall k | n <= k < |contents| ensures after[k] == before[k] {
          SamePlacesFrom(gaps, shown, contents, n, k);
        }
      }
    }
  }

  /**
   With a line break in the first expansion and none for the second, the second range is left inside the
   first text, and the revert, whose ranges overlap, leaves the expansion where it is.
   */
  lemma FailureCanMisplace()
    ensures var gaps, original, expansions := ["", "\n", ""], ["a", "b"], [Some("x\ny"), None];
            var document := Weave(gaps, Shown(original, expansions));
            var ranges := [Places(ORIGIN, gaps, Shown(original, expansions))[0], Places(ORIGIN, gaps, original)[1]];
            && !StillExact(gaps, original, expansions)
            && EditAll(document, Edits(ranges, original)) == document == "x\ny\nb" && document != Weave(gaps, original)
  {
    var gaps, original, expansions := ["", "\n", ""], ["a", "b"], [Some("x\ny"), None];
    AppliedIs(expansions, 1);
    assert Texts(expansions[..1]) == ["x\ny"];
    assert Shown(original, expansions) == ["x\ny", "b"];
    MisplacedDocument();
    MisplacedPlaces();
    hide Places, Weave, Applied, Shown;
    var ranges := [Places(ORIGIN, gaps, ["x\ny", "b"])[0], Places(ORIGIN, gaps, original)[1]];
    var edits := Edits(ranges, original);
    assert edits[0].range == Range(ORIGIN, Position(1, 1)) && edits[1].range == Range(Position(1, 0), Position(1, 1));
    assert SortEdits([edits[1]]) == [edits[1]] && edits == [edits[0]] + [edits[1]] && edits[1..] == [edits[1]];
    assert SortEdits(edits) == edits;
  }

  lemma MisplacedDocument()
    ensures Weave(["", "\n", ""], ["x\ny", "b"]) == "x\ny\nb" && Weave(["", "\n", ""], ["a", "b"]) == "a\nb"
  {
    assert Weave([""], []) == "";
    assert ["\n", ""][1..] == [""] && ["b"][1..] == [] && "\n" + "b" + "" == "\nb";
    assert Weave(["\n", ""], ["b"]) == "\nb";
    assert ["", "\n", ""][1..] == ["\n", ""] && ["x\ny", "b"][1..] == ["b"] && ["a", "b"][1..] == ["b"];
    assert "" + "x\ny" + "\nb" == "x\ny\nb" && "" + "a" + "\nb" == "a\nb";
  }

  lemma MisplacedPlaces()
    ensures Places(ORIGIN, ["", "\n", ""], ["x\ny", "b"])[0] == Range(ORIGIN, Position(1, 1))
    ensures Places(ORIGIN, ["", "\n", ""], ["a", "b"])[0] == Range(ORIGIN, Position(0, 1))
    ensures Places(ORIGIN, ["", "\n", ""], ["a", "b"])[1] == Range(Position(1, 0), Position(1, 1))
  {
    assert "x\ny"[1..] == "\ny" && "\ny"[1..] == "y" && "y"[1..] == "" && "a"[1..] == "" && "b"[1..] == "" && "\n"[1..] == "";
    assert Advance(ORIGIN, "x\ny") == Position(1, 1) && Advance(ORIGIN, "a") == Position(0, 1);
    assert Advance(Position(0, 1), "\n") == Position(1, 0) && Advance(Position(1, 0), "b") == Position(1, 1);
    assert ["", "\n", ""][1..] == ["\n", ""] && ["x\ny", "b"][1..] == ["b"] && ["a", "b"][1..] == ["b"];
    hide Advance;
    assert Advance(ORIGIN, "") == ORIGIN by { AdvanceGoesNowhere(ORIGIN); }
  }

  lemma AdvanceGoesNowhere(p: Position)
    ensures Advance(p, "") == p
  {
  }

  /** One value typed into the prompt: whether it is an abbreviation, and what each range expands to. */
  datatype Input = Input(isAbbreviation: bool, expansions: seq<Option<string>>)

  function Texts(expansions: seq<Option<string>>): seq<string>
    requires forall k :: 0 <= k < |expansions| ==> expansions[k].Some?
  {
    seq(|expansions|, k requires 0 <= k < |expansions| => expansions[k].value)
  }

  function PlaceBehind(p: Position, gap: string, content: string): Range {
    Range(Advance(p, gap), Advance(Advance(p, gap), content))
  }

  /**
   One more text put in: the places before it stay, its own lies behind the new place of the text
   before it just as the old one lay behind the old place.
   */
  lemma PlacesWithNext(gaps: seq<string>, current: seq<string>, texts: seq<string>, newText: string)
    requires Fits(gaps, current) && |texts| < |current|
    ensures var i := |texts|;
            var olds := Places(ORIGIN, gaps, current);
            var before := Places(ORIGIN, gaps, Replaced(current, texts));
            var after := Places(ORIGIN, gaps, Replaced(current, texts + [newText]));
            && olds[i] == PlaceBehind(if i == 0 then ORIGIN else olds[i - 1].end, gaps[i], current[i])
            && after[i] == PlaceBehind(if i == 0 then ORIGIN else before[i - 1].end, gaps[i], newText)
            && forall k :: 0 <= k < i ==> before[k] == after[k]
  {
    var i := |texts|;
    var before, after := Replaced(current, texts), Replaced(current, texts + [newText]);
    assert before[..i] == texts && after[..i] == texts && after[i] == newText;
    PlacesAgree(ORIGIN, gaps, before, after, i);
    PlaceAfterPlace(ORIGIN, gaps, current, i);
    PlaceAfterPlace(ORIGIN, gaps, after, i);
    var b, a := Places(ORIGIN, gaps, before), Places(ORIGIN, gaps, after);
    hide Places, Advance;
    forall k | 0 <= k < i ensures b[k] == a[k] {
      assert b[..i][k] == a[..i][k];
    }
  }

  /** The arithmetic of the four cases, in one statement. */
  lemma NewRangeIsPlace(lastOld: Position, lastNew: Position, gap: string, content: string, text: string)
    ensures var oldStart := Advance(lastOld, gap);
            var oldEnd := Advance(oldStart, content);
            var newStart := Advance(lastNew, gap);
            var newEnd := Advance(newStart, text);
            var lines := Lines(text);
            && newStart.line == oldStart.line + (lastNew.line - lastOld.line)
            && newEnd.line == newStart.line + |lines| - 1
            && oldStart.line >= lastOld.line && newStart.line >= lastNew.line
            && newStart.character == (if newStart.line == lastNew.line
                                      then lastNew.character + (oldStart.character - lastOld.character)
                                      else oldStart.character)
            && newEnd.character == LastLength(lines) + (if |lines| == 1 then newStart.character else 0)
            && oldEnd.line >= oldStart.line
  {
    NextStart(lastOld, lastNew, gap);
    AdvanceByLines(Advance(lastNew, gap), text);
    AdvanceByLines(Advance(lastOld, gap), content);
  }
}
