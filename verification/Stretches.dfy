/** Where an oversized text is cut: its pieces are stretches of it, in order, and each is filled. */
module Stretches {
  import opened Segmentation

  // ----- Splitting and joining

  function Join(parts: seq<string>, separator: string): string {
    if parts == [] then []
    else if |parts| == 1 then parts[0]
    else Join(parts[..|parts| - 1], separator) + separator + parts[|parts| - 1]
  }

  lemma {:induction false} JoinFirst(first: string, rest: seq<string>, separator: string)
    requires rest != []
    ensures Join([first] + rest, separator) == first + separator + Join(rest, separator)
  {
    var parts := [first] + rest;
    if |rest| == 1 {
      assert parts[..1] == [first];
    } else {
      var front := rest[..|rest| - 1];
      assert parts[..|parts| - 1] == [first] + front;
      JoinFirst(first, front, separator);
    }
  }

  lemma {:induction false} CutJoins(text: string, separator: string, current: string)
    requires separator != []
    ensures Cut(text, separator, current) != []
    ensures Join(Cut(text, separator, current), separator) == current + text
    decreases |text|
  {
    if text == [] {
    } else if separator <= text {
      var rest := text[|separator|..];
      CutJoins(rest, separator, []);
      JoinFirst(current, Cut(rest, separator, []), separator);
      Regroup(current, separator, rest);
      assert text == separator + rest && [] + rest == rest;
    } else {
      CutJoins(text[1..], separator, current + [text[0]]);
      Regroup(current, [text[0]], text[1..]);
      assert text == [text[0]] + text[1..];
    }
  }

  /** Joining the parts with the separator gives back the text. */
  lemma SplitThenJoin(text: string, separator: string)
    requires separator != []
    ensures SplitOn(text, separator) != []
    ensures Join(SplitOn(text, separator), separator) == text
  {
    CutJoins(text, separator, []);
  }

  lemma {:induction false} SpacesSeparate(text: string, current: string)
    requires ' ' !in current
    ensures forall part :: part in Cut(text, SPACE, current) ==> ' ' !in part
    decreases |text|
  {
    if text == [] {
    } else if SPACE <= text {
      SpacesSeparate(text[1..], []);
    } else {
      assert text[0] != ' ' by {
        assert text[..1] == [text[0]];
      }
      SpacesSeparate(text[1..], current + [text[0]]);
    }
  }

  predicate NoBlankLine(text: string) {
    forall k :: 0 <= k < |text| - 1 ==> !(text[k] == '\n' && text[k + 1] == '\n')
  }

  lemma {:induction false} BlankLinesSeparate(text: string, current: string)
    requires NoBlankLine(current) && (text != [] ==> NoBlankLine(current + text[..1]))
    ensures forall part :: part in Cut(text, BLANK_LINE, current) ==> NoBlankLine(part)
    decreases |text|
  {
    if text == [] {
    } else if BLANK_LINE <= text {
      BlankLinesSeparate(text[2..], []);
    } else {
      var longer := current + [text[0]];
      assert longer == current + text[..1];
      if |text| > 1 {
        assert text[1..][..1] == [text[1]];
        assert !(text[0] == '\n' && text[1] == '\n') by {
          assert text[..2] == [text[0], text[1]];
        }
        assert NoBlankLine(longer + [text[1]]);
      }
      BlankLinesSeparate(text[1..], longer);
    }
  }

  // ----- Pieces and the white space between them

  predicate Blank(text: string) {
    forall c :: c in text ==> IsSpace(c)
  }

  predicate AllBlank(gaps: seq<string>) {
    forall g :: g in gaps ==> Blank(g)
  }

  /** The pieces with a gap before, between and after them. */
  function Woven(gaps: seq<string>, pieces: seq<string>): string
    requires |gaps| == |pieces| + 1
  {
    if pieces == [] then gaps[0]
    else
      var last := |pieces| - 1;
      Woven(gaps[..last + 1], pieces[..last]) + pieces[last] + gaps[last + 1]
  }

  /** Where a piece ends in the woven text. */
  function EndOf(gaps: seq<string>, pieces: seq<string>, i: nat): nat
    requires |gaps| == |pieces| + 1 && i < |pieces|
  {
    |Woven(gaps[..i + 1], pieces[..i])| + |pieces[i]|
  }

  lemma {:induction false} PrefixOfWoven(gaps: seq<string>, pieces: seq<string>, i: nat)
    requires |gaps| == |pieces| + 1 && i <= |pieces|
    ensures Woven(gaps[..i + 1], pieces[..i]) <= Woven(gaps, pieces)
    ensures i < |pieces| ==> Woven(gaps[..i + 1], pieces[..i]) + pieces[i] <= Woven(gaps, pieces)
  {
    var last := |pieces| - 1;
    if i <= last {
      PrefixOfWoven(gaps[..last + 1], pieces[..last], i);
      assert gaps[..last + 1][..i + 1] == gaps[..i + 1] && pieces[..last][..i] == pieces[..i];
      assert i < last ==> pieces[..last][i] == pieces[i];
    } else {
      assert gaps[..i + 1] == gaps && pieces[..i] == pieces;
    }
  }

  /** What follows up to the next space does not fit behind the piece; or the piece ends a paragraph,
      and the next paragraph does not fit behind it and another blank line. */
  predicate NoRoom(piece: string, following: string, budget: int) {
    || (exists n :: 0 < n <= |following| && ' ' !in following[1..n] && budget < ByteSize(piece + following[..n]))
    || (exists n :: EndsParagraph(piece) && 0 < n <= |following| && following[0] == ' ' && NoBlankLine(following[1..n])
         && budget < ByteSize(piece + BLANK_LINE + following[1..n]))
  }

  predicate EndsParagraph(piece: string) {
    2 <= |piece| && piece[|piece| - 2..] == BLANK_LINE
  }

  /** Each of the first count pieces ends where what comes next has no room. */
  predicate Filled(full: string, gaps: seq<string>, pieces: seq<string>, count: nat, budget: int)
    requires |gaps| == |pieces| + 1 && count <= |pieces|
  {
    forall i :: 0 <= i < count ==>
      EndOf(gaps, pieces, i) <= |full| && NoRoom(pieces[i], full[EndOf(gaps, pieces, i)..], budget)
  }

  // ----- What holds while a text is cut

  /** The pieces and the current one lay out the text seen so far. */
  predicate Laid(f: Filling, gaps: seq<string>, seen: string, full: string, budget: int) {
    && |gaps| == |f.pieces| + 1 && AllBlank(gaps)
    && Woven(gaps, f.pieces) + f.current == seen
    && seen <= full
    && Filled(full, gaps, f.pieces, |f.pieces|, budget)
  }

  lemma FlushLays(f: Filling, gaps: seq<string>, seen: string, full: string, budget: int) returns (more: seq<string>)
    requires Laid(f, gaps, seen, full, budget) && NoRoom(f.current, full[|seen|..], budget)
    ensures Laid(Flushed(f), more, seen, full, budget)
  {
    more := gaps + [[]];
    var pieces := f.pieces + [f.current];
    assert more[..|gaps|] == gaps && pieces[..|f.pieces|] == f.pieces;
    forall i | 0 <= i < |pieces|
      ensures EndOf(more, pieces, i) <= |full| && NoRoom(pieces[i], full[EndOf(more, pieces, i)..], budget)
    {
      FlushedEnds(f, gaps, i);
    }
  }

  lemma FlushedEnds(f: Filling, gaps: seq<string>, i: nat)
    requires |gaps| == |f.pieces| + 1 && i <= |f.pieces|
    ensures EndOf(gaps + [[]], f.pieces + [f.current], i)
            == if i < |f.pieces| then EndOf(gaps, f.pieces, i) else |Woven(gaps, f.pieces) + f.current|
  {
    var more, pieces := gaps + [[]], f.pieces + [f.current];
    assert more[..i + 1] == gaps[..i + 1] && pieces[..i] == f.pieces[..i];
    if i == |f.pieces| {
      assert gaps[..i + 1] == gaps && f.pieces[..i] == f.pieces;
    }
  }

  lemma GrowLays(f: Filling, gaps: seq<string>, seen: string, text: string, full: string, budget: int)
    requires Laid(f, gaps, seen, full, budget) && seen + text <= full
    ensures Laid(Filling(f.pieces, f.current + text), gaps, seen + text, full, budget)
  {
  }

  lemma CharLays(f: Filling, c: char, gaps: seq<string>, seen: string, full: string, budget: int)
    returns (more: seq<string>)
    requires Laid(f, gaps, seen, full, budget) && seen + [c] <= full
    ensures Laid(AddChar(f, c, budget), more, seen + [c], full, budget)
  {
    more := gaps;
    if budget < ByteSize(f.current + [c]) {
      var following := full[|seen|..];
      assert following[..1] == [c];
      more := FlushLays(f, gaps, seen, full, budget);
      GrowLays(Flushed(f), more, seen, [c], full, budget);
    } else {
      GrowLays(f, gaps, seen, [c], full, budget);
    }
  }

  lemma {:induction false} CharsLay(f: Filling, text: string, gaps: seq<string>, seen: string, full: string,
                                    budget: int)
    returns (more: seq<string>)
    requires Laid(f, gaps, seen, full, budget) && seen + text <= full
    ensures Laid(AddChars(f, text, budget), more, seen + text, full, budget)
  {
    more := gaps;
    if text == [] {
      assert seen + text == seen;
    } else {
      var front, last := text[..|text| - 1], text[|text| - 1];
      assert seen + text == seen + front + [last];
      assert seen + front <= full;
      more := CharsLay(f, front, gaps, seen, full, budget);
      more := CharLays(AddChars(f, front, budget), last, more, seen + front, full, budget);
    }
  }

  /** Before a new piece white space belongs to the gap. */
  lemma SkipLays(f: Filling, gaps: seq<string>, seen: string, blank: string, full: string, budget: int)
    returns (more: seq<string>)
    requires Laid(f, gaps, seen, full, budget) && f.current == [] && Blank(blank) && seen + blank <= full
    ensures Laid(f, more, seen + blank, full, budget)
  {
    var n := |f.pieces|;
    more := gaps[n := gaps[n] + blank];
    WiderGap(gaps, f.pieces, blank);
    forall g | g in more
      ensures Blank(g)
    {
      assert g in gaps || g == gaps[n] + blank;
      assert gaps[n] in gaps;
    }
    forall i | 0 <= i < n
      ensures EndOf(more, f.pieces, i) == EndOf(gaps, f.pieces, i)
    {
      assert more[..i + 1] == gaps[..i + 1];
    }
  }

  lemma WiderGap(gaps: seq<string>, pieces: seq<string>, blank: string)
    requires |gaps| == |pieces| + 1
    ensures Woven(gaps[|pieces| := gaps[|pieces|] + blank], pieces) == Woven(gaps, pieces) + blank
  {
    var n := |pieces|;
    if n > 0 {
      assert gaps[n := gaps[n] + blank][..n] == gaps[..n];
    }
  }

  /** The space that comes before a word: none at the start of the text. */
  predicate LeadOf(f: Filling, lead: string) {
    lead == SPACE || (lead == [] && f.current == [])
  }

  lemma Following(seen: string, next: string, full: string)
    requires seen + next <= full
    ensures full[|seen|..][..|next|] == next
  {
  }

  lemma WordHasNoRoom(current: string, word: string, seen: string, full: string, budget: int)
    requires ' ' !in word && seen + (SPACE + word) <= full && budget < ByteSize(current + SPACE + word)
    ensures NoRoom(current, full[|seen|..], budget)
  {
    var following := full[|seen|..];
    Following(seen, SPACE + word, full);
    assert following[1..1 + |word|] == word;
    assert current + following[..1 + |word|] == current + SPACE + word;
  }

  lemma ParagraphHasNoRoom(current: string, paragraph: string, seen: string, full: string, budget: int)
    requires NoBlankLine(paragraph) && EndsParagraph(current)
    requires seen + (SPACE + paragraph) <= full && budget < ByteSize(current + BLANK_LINE + paragraph)
    ensures NoRoom(current, full[|seen|..], budget)
  {
    var following := full[|seen|..];
    Following(seen, SPACE + paragraph, full);
    assert following[1..1 + |paragraph|] == paragraph;
    assert following[..1 + |paragraph|][0] == ' ';
  }

  lemma WordLays(f: Filling, word: string, lead: string, gaps: seq<string>, seen: string, full: string, budget: int)
    returns (more: seq<string>)
    requires Laid(f, gaps, seen, full, budget) && LeadOf(f, lead) && ' ' !in word && seen + lead + word <= full
    ensures Laid(AddWord(f, word, budget), more, seen + lead + word, full, budget)
  {
    var g := f;
    more := gaps;
    assert seen + (lead + word) == seen + lead + word;
    if f.current != [] && budget < ByteSize(f.current + SPACE + word) {
      WordHasNoRoom(f.current, word, seen, full, budget);
      more := FlushLays(f, gaps, seen, full, budget);
      g := Flushed(f);
    }
    more := PaddedWordLays(g, word, lead, more, seen, full, budget);
  }

  lemma PaddedWordLays(g: Filling, word: string, lead: string, gaps: seq<string>, seen: string, full: string,
                       budget: int)
    returns (more: seq<string>)
    requires Laid(g, gaps, seen, full, budget) && LeadOf(g, lead) && seen + lead + word <= full
    ensures Laid(AddChars(g, (if g.current != [] then SPACE else []) + word, budget), more, seen + lead + word, full,
                 budget)
  {
    if g.current != [] {
      assert seen + (SPACE + word) == seen + lead + word;
      more := CharsLay(g, SPACE + word, gaps, seen, full, budget);
    } else {
      assert [] + word == word;
      more := SkipLays(g, gaps, seen, lead, full, budget);
      more := CharsLay(g, word, more, seen + lead, full, budget);
    }
  }

  lemma {:induction false} WordsLay(f: Filling, words: seq<string>, lead: string, gaps: seq<string>, seen: string,
                                    full: string, budget: int)
    returns (more: seq<string>)
    requires Laid(f, gaps, seen, full, budget) && LeadOf(f, lead) && words != []
    requires (forall w :: w in words ==> ' ' !in w) && seen + lead + Join(words, SPACE) <= full
    ensures Laid(AddWords(f, words, budget), more, seen + lead + Join(words, SPACE), full, budget)
  {
    var front, last := words[..|words| - 1], words[|words| - 1];
    if front == [] {
      more := WordLays(f, last, lead, gaps, seen, full, budget);
    } else {
      var before := seen + lead + Join(front, SPACE);
      assert seen + lead + Join(words, SPACE) == before + SPACE + last;
      assert before <= full;
      more := WordsLay(f, front, lead, gaps, seen, full, budget);
      more := WordLays(AddWords(f, front, budget), last, SPACE, more, before, full, budget);
    }
  }

  lemma ParagraphLays(f: Filling, paragraph: string, lead: string, gaps: seq<string>, seen: string, full: string,
                      budget: int)
    returns (more: seq<string>)
    requires Laid(f, gaps, seen, full, budget) && LeadOf(f, lead) && NoBlankLine(paragraph)
    requires f.current != [] ==> EndsParagraph(f.current)
    requires seen + lead + paragraph + BLANK_LINE <= full
    ensures Laid(AddParagraph(f, paragraph, budget), more, seen + lead + paragraph + BLANK_LINE, full, budget)
    ensures EndsParagraph(AddParagraph(f, paragraph, budget).current)
  {
    var g, words := f, SplitOn(paragraph, SPACE);
    more := gaps;
    if f.current != [] && budget < ByteSize(f.current + BLANK_LINE + paragraph) {
      assert seen + (SPACE + paragraph) == seen + lead + paragraph;
      ParagraphHasNoRoom(f.current, paragraph, seen, full, budget);
      more := FlushLays(f, gaps, seen, full, budget);
      g := Flushed(f);
    }
    SplitThenJoin(paragraph, SPACE);
    SpacesSeparate(paragraph, []);
    assert seen + lead + paragraph <= full;
    more := WordsLay(g, words, lead, more, seen, full, budget);
    GrowLays(AddWords(g, words, budget), more, seen + lead + paragraph, BLANK_LINE, full, budget);
  }

  /** The text as it is laid out: a blank line closes each paragraph and a space opens each but the
      first. */
  function Spaced(paragraphs: seq<string>): string {
    if paragraphs == [] then []
    else
      var last := |paragraphs| - 1;
      Spaced(paragraphs[..last]) + (if last == 0 then [] else SPACE) + paragraphs[last] + BLANK_LINE
  }

  lemma {:induction false} SpacedGrows(paragraphs: seq<string>, count: nat)
    requires count <= |paragraphs|
    ensures Spaced(paragraphs[..count]) <= Spaced(paragraphs)
  {
    if count < |paragraphs| {
      var front := paragraphs[..|paragraphs| - 1];
      SpacedGrows(front, count);
      assert front[..count] == paragraphs[..count];
    } else {
      assert paragraphs[..count] == paragraphs;
    }
  }

  lemma {:induction false} ParagraphsLay(paragraphs: seq<string>, count: nat, budget: int) returns (gaps: seq<string>)
    requires count <= |paragraphs| && forall p :: p in paragraphs ==> NoBlankLine(p)
    ensures var f := AddParagraphs(Filling([], []), paragraphs[..count], budget);
      && Laid(f, gaps, Spaced(paragraphs[..count]), Spaced(paragraphs), budget)
      && if count == 0 then f.current == [] else EndsParagraph(f.current)
  {
    if count == 0 {
      gaps := [[]];
      assert Woven([[]], []) + [] == [];
    } else {
      var done, last := paragraphs[..count], count - 1;
      gaps := ParagraphsLay(paragraphs, last, budget);
      SpacedGrows(paragraphs, count);
      assert done[..last] == paragraphs[..last];
      var f := AddParagraphs(Filling([], []), paragraphs[..last], budget);
      gaps := ParagraphLays(f, paragraphs[last], if last == 0 then [] else SPACE, gaps, Spaced(paragraphs[..last]),
                            Spaced(paragraphs), budget);
    }
  }

  // ----- The whole split

  lemma {:induction false} StripRightEnds(text: string)
    ensures var t := StripRight(text);
      (t != [] ==> !IsSpace(t[|t| - 1])) && t <= text
  {
    if text != [] && IsSpace(text[|text| - 1]) {
      StripRightEnds(text[..|text| - 1]);
    }
  }

  lemma {:induction false} StripLeftEnds(text: string)
    ensures var t := StripLeft(text);
      (t != [] ==> !IsSpace(t[0]) && t[|t| - 1] == text[|text| - 1])
  {
    if text != [] && IsSpace(text[0]) {
      StripLeftEnds(text[1..]);
    }
  }

  lemma StripTwice(text: string)
    ensures Strip(Strip(text)) == Strip(text)
  {
    StripRightEnds(text);
    StripLeftEnds(StripRight(text));
  }

  lemma StripAllTwice(pieces: seq<string>, last: string)
    ensures StripAll(pieces + [Strip(last)]) == StripAll(pieces + [last])
  {
    StripTwice(last);
  }

  lemma NothingLeft(text: string)
    requires Strip(text) == []
    ensures Blank(text)
  {
    StripInk(text);
    InkElements(text);
  }

  lemma SameCuts(full: string, gaps: seq<string>, pieces: seq<string>, more: seq<string>, others: seq<string>,
                 count: nat, budget: int)
    requires |gaps| == |pieces| + 1 && |more| == |others| + 1 && count <= |pieces| && count <= |others|
    requires gaps[..count] == more[..count] && pieces[..count] == others[..count]
    requires Filled(full, gaps, pieces, count, budget)
    ensures Filled(full, more, others, count, budget)
  {
    forall i | 0 <= i < count
      ensures EndOf(more, others, i) == EndOf(gaps, pieces, i) && others[i] == pieces[i]
    {
      assert more[..i + 1] == more[..count][..i + 1] && gaps[..i + 1] == gaps[..count][..i + 1];
      assert others[..i] == others[..count][..i] && pieces[..i] == pieces[..count][..i];
      assert others[i] == others[..count][i] && pieces[i] == pieces[..count][i];
    }
  }

  lemma LastPieceLies(f: Filling, gaps: seq<string>, full: string, budget: int) returns (more: seq<string>)
    requires Laid(f, gaps, full, full, budget)
    ensures var raw := f.pieces + [f.current];
      && |more| == |raw| + 1 && AllBlank(more) && Woven(more, raw) == full && Filled(full, more, raw, |raw| - 1, budget)
  {
    more := gaps + [[]];
    var raw := f.pieces + [f.current];
    assert more[..|gaps|] == gaps && raw[..|f.pieces|] == f.pieces;
    SameCuts(full, gaps, f.pieces, more, raw, |f.pieces|, budget);
  }

  lemma LastBlankLies(f: Filling, gaps: seq<string>, full: string, budget: int) returns (more: seq<string>)
    requires Laid(f, gaps, full, full, budget) && Blank(f.current)
    ensures |more| == |f.pieces| + 1 && AllBlank(more) && Woven(more, f.pieces) == full
    ensures Filled(full, more, f.pieces, |f.pieces|, budget)
  {
    var n := |f.pieces|;
    more := gaps[n := gaps[n] + f.current];
    WiderGap(gaps, f.pieces, f.current);
    assert gaps[n] in gaps;
    SameCuts(full, gaps, f.pieces, more, f.pieces, n, budget);
  }

  /** The pieces before stripping: they lie in the text in order with only white space around them,
      and each but the last ends where what comes next has no room. */
  predicate CutsOf(text: string, budget: int, raw: seq<string>, gaps: seq<string>) {
    && SplitText(text, budget) == StripAll(raw)
    && |gaps| == |raw| + 1 && AllBlank(gaps)
    && Woven(gaps, raw) == Spaced(SplitOn(text, BLANK_LINE))
    && Filled(Spaced(SplitOn(text, BLANK_LINE)), gaps, raw, if raw == [] then 0 else |raw| - 1, budget)
  }

  lemma CutsOfFilling(f: Filling, gaps: seq<string>, full: string, budget: int)
    returns (raw: seq<string>, more: seq<string>)
    requires Laid(f, gaps, full, full, budget)
    ensures StripAll(Finished(f)) == StripAll(raw)
    ensures |more| == |raw| + 1 && AllBlank(more) && Woven(more, raw) == full
    ensures Filled(full, more, raw, if raw == [] then 0 else |raw| - 1, budget)
  {
    if Strip(f.current) != [] {
      raw := f.pieces + [f.current];
      StripAllTwice(f.pieces, f.current);
      more := LastPieceLies(f, gaps, full, budget);
    } else {
      raw := f.pieces;
      NothingLeft(f.current);
      assert Finished(f) == f.pieces;
      more := LastBlankLies(f, gaps, full, budget);
    }
  }

  lemma FindCuts(text: string, budget: int) returns (raw: seq<string>, gaps: seq<string>)
    ensures CutsOf(text, budget, raw, gaps)
  {
    var paragraphs := SplitOn(text, BLANK_LINE);
    BlankLinesSeparate(text, []);
    gaps := ParagraphsLay(paragraphs, |paragraphs|, budget);
    assert paragraphs[..|paragraphs|] == paragraphs;
    var f := AddParagraphs(Filling([], []), paragraphs, budget);
    raw, gaps := CutsOfFilling(f, gaps, Spaced(paragraphs), budget);
  }

  /** The pieces of a text are stretches of it, in order: with a space put after each blank line, the
      text is made of the pieces and of white space before, between and after them. None ends early:
      behind each but the last there is no room for what comes next. */
  lemma PiecesAreFilledStretches(text: string, budget: int)
    ensures exists raw, gaps :: CutsOf(text, budget, raw, gaps)
  {
    var raw, gaps := FindCuts(text, budget);
  }

  // ----- Neighbours

  /** Somewhere in the text the two characters stand next to each other. */
  predicate Beside(text: string, a: char, b: char) {
    exists k :: 0 <= k < |text| - 1 && text[k] == a && text[k + 1] == b
  }

  lemma PartBeside(part: string, text: string, at: nat, a: char, b: char)
    requires at + |part| <= |text| && text[at..at + |part|] == part && Beside(part, a, b)
    ensures Beside(text, a, b)
  {
    var k :| 0 <= k < |part| - 1 && part[k] == a && part[k + 1] == b;
    assert text[at + k] == part[k] && text[at + k + 1] == part[k + 1];
  }

  lemma SuffixBeside(text: string, at: nat, a: char, b: char)
    requires at <= |text| && Beside(text[at..], a, b)
    ensures Beside(text, a, b)
  {
    PartBeside(text[at..], text, at, a, b);
  }

  lemma PrefixBeside(prefix: string, text: string, a: char, b: char)
    requires prefix <= text && Beside(prefix, a, b)
    ensures Beside(text, a, b)
  {
    PartBeside(prefix, text, 0, a, b);
  }

  lemma StripBeside(text: string, a: char, b: char)
    requires Beside(Strip(text), a, b)
    ensures Beside(text, a, b)
  {
    StripRightEnds(text);
    StripLeftSuffix(StripRight(text));
    var k :| 0 <= k <= |StripRight(text)| && StripLeft(StripRight(text)) == StripRight(text)[k..];
    SuffixBeside(StripRight(text), k, a, b);
    PrefixBeside(StripRight(text), text, a, b);
  }

  lemma WovenBeside(gaps: seq<string>, pieces: seq<string>, i: nat, a: char, b: char)
    requires |gaps| == |pieces| + 1 && i < |pieces| && Beside(pieces[i], a, b)
    ensures Beside(Woven(gaps, pieces), a, b)
  {
    PrefixOfWoven(gaps, pieces, i);
    var before := Woven(gaps[..i + 1], pieces[..i]);
    PartBeside(pieces[i], before + pieces[i], |before|, a, b);
    PrefixBeside(before + pieces[i], Woven(gaps, pieces), a, b);
  }

  lemma {:induction false} JoinBeside(parts: seq<string>, separator: string, p: nat, a: char, b: char)
    requires p < |parts| && Beside(parts[p], a, b)
    ensures Beside(Join(parts, separator), a, b)
  {
    var last := |parts| - 1;
    if last > 0 {
      var before := Join(parts[..last], separator) + separator;
      if p < last {
        JoinBeside(parts[..last], separator, p, a, b);
        PrefixBeside(Join(parts[..last], separator), Join(parts, separator), a, b);
      } else {
        PartBeside(parts[last], before + parts[last], |before|, a, b);
      }
    }
  }

  lemma SpacedEnds(paragraphs: seq<string>)
    ensures var s := Spaced(paragraphs);
      s != [] ==> 2 <= |s| && IsSpace(s[|s| - 1])
  {
  }

  /** The spaces put in separate nothing that was not separate before. */
  lemma {:induction false} SpacedBeside(paragraphs: seq<string>, k: nat)
    requires k + 1 < |Spaced(paragraphs)| && !IsSpace(Spaced(paragraphs)[k]) && !IsSpace(Spaced(paragraphs)[k + 1])
    ensures exists p :: 0 <= p < |paragraphs| && Beside(paragraphs[p], Spaced(paragraphs)[k], Spaced(paragraphs)[k + 1])
  {
    var last, s := |paragraphs| - 1, Spaced(paragraphs);
    var front := Spaced(paragraphs[..last]);
    var before := front + (if last == 0 then [] else SPACE);
    assert s == before + paragraphs[last] + BLANK_LINE;
    if k + 1 < |front| {
      SpacedBeside(paragraphs[..last], k);
      var p :| 0 <= p < last && Beside(paragraphs[..last][p], front[k], front[k + 1]);
      assert Beside(paragraphs[p], s[k], s[k + 1]);
    } else {
      SpacedEnds(paragraphs[..last]);
      assert |before| <= k;
      var i := k - |before|;
      assert i + 1 < |paragraphs[last]|;
      assert paragraphs[last][i] == s[k] && paragraphs[last][i + 1] == s[k + 1];
    }
  }

  /** Two visible characters stand next to each other in a piece only if they do in the text. */
  lemma NeighboursWereNeighbours(text: string, budget: int, i: nat, k: nat)
    requires i < |SplitText(text, budget)| && k + 1 < |SplitText(text, budget)[i]|
    requires !IsSpace(SplitText(text, budget)[i][k]) && !IsSpace(SplitText(text, budget)[i][k + 1])
    ensures Beside(text, SplitText(text, budget)[i][k], SplitText(text, budget)[i][k + 1])
  {
    var raw, gaps := FindCuts(text, budget);
    var paragraphs := SplitOn(text, BLANK_LINE);
    var a, b := SplitText(text, budget)[i][k], SplitText(text, budget)[i][k + 1];
    assert Beside(Strip(raw[i]), a, b);
    StripBeside(raw[i], a, b);
    WovenBeside(gaps, raw, i, a, b);
    var at :| 0 <= at < |Spaced(paragraphs)| - 1 && Spaced(paragraphs)[at] == a && Spaced(paragraphs)[at + 1] == b;
    SpacedBeside(paragraphs, at);
    var p :| 0 <= p < |paragraphs| && Beside(paragraphs[p], a, b);
    JoinBeside(paragraphs, BLANK_LINE, p, a, b);
    SplitThenJoin(text, BLANK_LINE);
  }
}
