/** Selecting the next and the previous word of an attribute or property value. */
module Words {
  import opened Options

  datatype Span = Span(start: int, end: int)

  /** Outside the value there is no space, as `undefined` is none. */
  predicate SpaceAt(value: string, i: int) {
    0 <= i < |value| && value[i] == ' '
  }

  /** A run without spaces that cannot be made longer. */
  ghost predicate IsWord(value: string, w: Span) {
    && 0 <= w.start < w.end <= |value|
    && (forall i :: w.start <= i < w.end ==> !SpaceAt(value, i))
    && (w.start == 0 || SpaceAt(value, w.start - 1))
    && (w.end == |value| || SpaceAt(value, w.end))
  }

  /** The words that can be next: all of them from -1, else those behind a space behind pos. */
  predicate Behind(pos: int, w: Span) {
    pos == -1 || (w.start > 0 && w.start - 1 > pos)
  }

  /** The words that can be previous: all of them from the end, else those before a space before pos. */
  predicate Ahead(value: string, pos: int, w: Span) {
    pos == |value| || (w.end < |value| && w.end < pos)
  }

  /** The first of the words that can be next, if there is one. */
  ghost predicate IsNext(value: string, pos: int, found: Option<Span>) {
    match found
    case None => forall w :: IsWord(value, w) ==> !Behind(pos, w)
    case Some(n) => IsWord(value, n) && Behind(pos, n)
                    && forall w :: IsWord(value, w) && Behind(pos, w) ==> n.start <= w.start
  }

  /** Where the first word behind pos begins. */
  ghost predicate IsStart(value: string, pos: int, start: int) {
    && 0 <= start < |value| && !SpaceAt(value, start)
    && (start == 0 || SpaceAt(value, start - 1))
    && Behind(pos, Span(start, start))
    && NoStart(value, pos, start - 1)
  }

  /** No word behind pos begins up to at. */
  ghost predicate NoStart(value: string, pos: int, at: int) {
    forall w :: IsWord(value, w) && Behind(pos, w) ==> w.start > at
  }

  method FindNextWord(propertyValue: string, pos: int) returns (found: Option<Span>)
    ensures IsNext(propertyValue, pos, found)
  {
    var at := pos;
    var foundSpace := pos == -1;
    var foundStart := false;
    var foundEnd := false;
    var newSelectionStart, newSelectionEnd := 0, 0;
    while at < |propertyValue| - 1 && !foundEnd
      invariant !foundSpace ==> !foundStart && pos != -1 && pos <= at && NoSpace(propertyValue, pos + 1, at + 1)
      invariant foundSpace && !foundStart ==> NoStart(propertyValue, pos, at)
      invariant foundSpace && !foundStart ==> at == pos == -1 || (at > pos && at >= 0 && SpaceAt(propertyValue, at))
      invariant foundStart ==> foundSpace && newSelectionStart <= at < |propertyValue|
      invariant foundStart ==> IsStart(propertyValue, pos, newSelectionStart)
      invariant foundStart ==> NoSpace(propertyValue, newSelectionStart, if foundEnd then at else at + 1)
      invariant foundEnd ==> foundStart && newSelectionEnd == at && SpaceAt(propertyValue, at)
      decreases |propertyValue| - at
    {
      at := at + 1;
      if !foundSpace {
        if SpaceAt(propertyValue, at) {
          foundSpace := true;
        }
        continue;
      }
      if !foundStart && SpaceAt(propertyValue, at) {
        continue;
      }
      if !foundStart {
        newSelectionStart := at;
        foundStart := true;
        continue;
      }
      if SpaceAt(propertyValue, at) {
        newSelectionEnd := at;
        foundEnd := true;
      }
    }
    if foundStart && !foundEnd {
      newSelectionEnd := |propertyValue|;
    }
    found := if foundStart then Some(Span(newSelectionStart, newSelectionEnd)) else None;
  }

  predicate NoSpace(value: string, from: int, to: int) {
    forall i :: from <= i < to ==> !SpaceAt(value, i)
  }

  /** The last of the words that can be previous; without one, the empty span if a space was passed. */
  ghost predicate IsPrev(value: string, pos: int, found: Option<Span>) {
    if exists w :: IsWord(value, w) && Ahead(value, pos, w) then
      found.Some? && IsWord(value, found.value) && Ahead(value, pos, found.value)
      && forall w :: IsWord(value, w) && Ahead(value, pos, w) ==> w.end <= found.value.end
    else if pos == |value| || exists i :: i < pos && SpaceAt(value, i) then
      found == Some(Span(0, 0))
    else
      found == None
  }

  ghost predicate IsEnd(value: string, pos: int, end: int) {
    && 0 < end <= |value| && !SpaceAt(value, end - 1)
    && (end == |value| || SpaceAt(value, end))
    && Ahead(value, pos, Span(0, end))
    && NoEnd(value, pos, end + 1)
  }

  /** No word ahead of pos ends from at on. */
  ghost predicate NoEnd(value: string, pos: int, at: int) {
    forall w :: IsWord(value, w) && Ahead(value, pos, w) ==> w.end < at
  }

  method FindPrevWord(propertyValue: string, pos: int) returns (found: Option<Span>)
    ensures IsPrev(propertyValue, pos, found)
  {
    var at := pos;
    var foundSpace := pos == |propertyValue|;
    var foundStart := false;
    var foundEnd := false;
    var newSelectionStart, newSelectionEnd := 0, 0;
    while at > -1 && !foundStart
      invariant !foundSpace ==> !foundEnd && pos != |propertyValue| && at <= pos && NoSpace(propertyValue, at, pos)
      invariant foundSpace ==> pos == |propertyValue| || exists i :: i < pos && SpaceAt(propertyValue, i)
      invariant foundSpace && !foundEnd ==> at >= 0 && NoEnd(propertyValue, pos, at + 1)
      invariant foundSpace && !foundEnd ==> at == pos == |propertyValue| || (at < pos && SpaceAt(propertyValue, at))
      invariant foundEnd && newSelectionEnd == 0 ==> at == -1 && NoEnd(propertyValue, pos, 1)
      invariant foundEnd && newSelectionEnd != 0 ==> -1 <= at < newSelectionEnd && IsEnd(propertyValue, pos, newSelectionEnd)
      invariant foundEnd ==> foundSpace && NoSpace(propertyValue, if foundStart then at + 1 else at, newSelectionEnd)
      invariant foundStart ==> foundEnd && newSelectionStart == at + 1 < newSelectionEnd && SpaceAt(propertyValue, at)
      decreases at
    {
      at := at - 1;
      if !foundSpace {
        if SpaceAt(propertyValue, at) {
          foundSpace := true;
        }
        continue;
      }
      if !foundEnd && SpaceAt(propertyValue, at) {
        continue;
      }
      if !foundEnd {
        newSelectionEnd := at + 1;
        foundEnd := true;
        continue;
      }
      if SpaceAt(propertyValue, at) {
        newSelectionStart := at + 1;
        foundStart := true;
      }
    }
    if foundEnd && !foundStart {
      newSelectionStart := 0;
    }
    found := if foundEnd then Some(Span(newSelectionStart, newSelectionEnd)) else None;
    assert foundEnd && newSelectionEnd != 0 ==> IsWord(propertyValue, found.value);
  }

  // ---- going through all words ----------------------------------------------------------------------

  /** Words of the value, from left to right. */
  ghost predicate Listed(value: string, words: seq<Span>) {
    && (forall i :: 0 <= i < |words| ==> IsWord(value, words[i]))
    && InOrder(words)
  }

  ghost predicate InOrder(words: seq<Span>) {
    forall i, j :: 0 <= i < j < |words| ==> words[i].start < words[j].start
  }

  /** All the words of the value, from left to right. */
  ghost predicate AreWords(value: string, words: seq<Span>) {
    Listed(value, words) && forall w :: IsWord(value, w) ==> w in words
  }

  /** Two words are the same or a space lies between them. */
  lemma WordsAreApart(value: string, a: Span, b: Span)
    requires IsWord(value, a) && IsWord(value, b)
    ensures a == b || a.end < b.start || b.end < a.start
  {
  }

  /** There is only one way to list them. */
  lemma OneListOfWords(value: string, a: seq<Span>, b: seq<Span>)
    requires AreWords(value, a) && AreWords(value, b)
    ensures a == b
  {
    SameInOrder(a, b);
  }

  lemma {:induction false} SameInOrder(a: seq<Span>, b: seq<Span>)
    requires InOrder(a) && InOrder(b) && forall w :: w in a <==> w in b
    ensures a == b
    decreases |a|
  {
    assert a != [] ==> a[0] in b;
    assert b != [] ==> b[0] in a;
    if a != [] {
      assert a[0] == b[0];
      forall w ensures w in a[1..] <==> w in b[1..] {
        assert w in a[1..] ==> w in a && w.start > a[0].start;
        assert w in b[1..] ==> w in b && w.start > b[0].start;
      }
      SameInOrder(a[1..], b[1..]);
      assert a == [a[0]] + a[1..] && b == [b[0]] + b[1..];
    }
  }

  /** The words that cannot be next any more are listed, up to pos. */
  ghost predicate ListedUpTo(value: string, pos: int, words: seq<Span>) {
    && Listed(value, words)
    && (forall w :: IsWord(value, w) ==> (!Behind(pos, w) <==> w in words))
  }

  lemma NextIsListed(value: string, pos: int, words: seq<Span>, word: Span)
    requires ListedUpTo(value, pos, words) && IsNext(value, pos, Some(word)) && pos >= -1
    ensures ListedUpTo(value, word.end - 1, words + [word]) && word.end - 1 > pos
  {
    var all := words + [word];
    forall w | IsWord(value, w) ensures !Behind(word.end - 1, w) <==> w in all {
      WordsAreApart(value, word, w);
    }
    assert forall i :: 0 <= i < |words| ==> words[i] in words;
    forall i | 0 <= i < |words| ensures words[i].start < word.start {
      WordsAreApart(value, words[i], word);
    }
  }

  /** Selecting the next word again and again, each time from the last character of the one before. */
  method AllNextWords(value: string) returns (words: seq<Span>)
    ensures AreWords(value, words)
  {
    words := [];
    var pos := -1;
    var found := FindNextWord(value, pos);
    while found.Some?
      invariant -1 <= pos && IsNext(value, pos, found) && ListedUpTo(value, pos, words)
      decreases |value| - pos
    {
      NextIsListed(value, pos, words, found.value);
      words := words + [found.value];
      pos := found.value.end - 1;
      found := FindNextWord(value, pos);
    }
  }

  /** The words that cannot be previous any more are listed, from pos on. */
  ghost predicate ListedFrom(value: string, pos: int, words: seq<Span>) {
    && Listed(value, words)
    && (forall w :: IsWord(value, w) ==> (!Ahead(value, pos, w) <==> w in words))
  }

  lemma PrevIsListed(value: string, pos: int, words: seq<Span>, word: Span)
    requires ListedFrom(value, pos, words) && IsPrev(value, pos, Some(word)) && pos <= |value|
    requires IsWord(value, word)
    ensures ListedFrom(value, word.start, [word] + words) && word.start < pos
  {
    var all := [word] + words;
    assert Ahead(value, pos, word);
    forall w | IsWord(value, w) ensures !Ahead(value, word.start, w) <==> w in all {
      WordsAreApart(value, word, w);
    }
    assert forall i :: 0 <= i < |words| ==> words[i] in words;
    forall i | 0 <= i < |words| ensures word.start < words[i].start {
      WordsAreApart(value, words[i], word);
    }
  }

  /**
   Selecting the previous word again and again, each time from the start of the one before, gives the
   same words from the last to the first; if the value begins with a space, an empty selection at its
   start follows. They are returned from left to right.
   */
  method AllPrevWords(value: string) returns (words: seq<Span>)
    requires value != ""
    ensures value[0] != ' ' ==> AreWords(value, words)
    ensures value[0] == ' ' ==> words != [] && words[0] == Span(0, 0) && AreWords(value, words[1..])
  {
    words := [];
    var pos := |value|;
    var found := FindPrevWord(value, pos);
    while found.Some? && found.value != Span(0, 0)
      invariant 0 <= pos <= |value| && IsPrev(value, pos, found) && ListedFrom(value, pos, words)
      invariant pos == if words == [] then |value| else words[0].start
      decreases pos
    {
      PrevIsListed(value, pos, words, found.value);
      words := [found.value] + words;
      pos := found.value.start;
      found := FindPrevWord(value, pos);
    }
    NothingBefore(value, pos, words, found);
    if found.Some? {
      words := [found.value] + words;
      found := FindPrevWord(value, 0);
      assert found.None?;
    }
  }

  /** What is found before the first word tells whether the value begins with a space. */
  lemma NothingBefore(value: string, pos: int, words: seq<Span>, found: Option<Span>)
    requires value != "" && IsPrev(value, pos, found) && ListedFrom(value, pos, words)
    requires pos == if words == [] then |value| else words[0].start
    requires found.Some? ==> found.value == Span(0, 0)
    ensures AreWords(value, words) && (found.Some? <==> value[0] == ' ')
  {
    assert forall w :: IsWord(value, w) ==> !Ahead(value, pos, w);
    assert words != [] ==> IsWord(value, words[0]) && 0 <= pos < |value|;
    assert value[0] == ' ' <==> SpaceAt(value, 0);
    assert words != [] && pos > 0 ==> SpaceAt(value, pos - 1);
    if value[0] != ' ' && (pos == |value| || pos > 0) {
      var e := WordEnd(value, 0);
      assert IsWord(value, Span(0, e)) && Ahead(value, pos, Span(0, e)) by {
        if pos < |value| {
          WordsAreApart(value, Span(0, e), words[0]);
        }
      }
    }
  }

  function WordEnd(value: string, i: nat): (e: nat)
    requires i <= |value|
    ensures i <= e <= |value| && NoSpace(value, i, e) && (e == |value| || SpaceAt(value, e))
    decreases |value| - i
  {
    if i == |value| || value[i] == ' ' then i else WordEnd(value, i + 1)
  }

  /** The empty value is the other exception: its end is found as an empty word, every time one asks. */
  lemma EmptyValueRepeats(found: Option<Span>)
    ensures IsPrev("", 0, found) <==> found == Some(Span(0, 0))
  {
    assert forall w :: !IsWord("", w);
  }
}
