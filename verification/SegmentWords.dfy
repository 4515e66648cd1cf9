/** Which words survive segmentation, and what it leaves alone. */
module SegmentWords {
  import opened Segmentation
  import opened Stretches

  predicate EndsVisible(text: string) {
    text != [] && !IsSpace(text[|text| - 1])
  }

  /** The words of a text: its maximal runs of visible characters, in order. */
  function Words(text: string): (words: seq<string>)
    ensures EndsVisible(text) ==> words != []
  {
    if text == [] then []
    else
      var front, last := text[..|text| - 1], text[|text| - 1];
      if IsSpace(last) then Words(front)
      else if EndsVisible(front) then Lengthened(Words(front), last)
      else Words(front) + [[last]]
  }

  /** The words with a character added to the last one. */
  function Lengthened(words: seq<string>, c: char): (longer: seq<string>)
    requires words != []
    ensures longer != []
  {
    words[..|words| - 1] + [words[|words| - 1] + [c]]
  }

  function WordsOf(texts: seq<string>): seq<string> {
    if texts == [] then [] else WordsOf(texts[..|texts| - 1]) + Words(texts[|texts| - 1])
  }

  // ----- Words of texts put together

  /** The two texts meet at white space, or one of them is empty. */
  predicate MeetApart(a: string, b: string) {
    !EndsVisible(a) || b == [] || IsSpace(b[0])
  }

  lemma LengthenedLast(before: seq<string>, words: seq<string>, c: char)
    requires words != []
    ensures Lengthened(before + words, c) == before + Lengthened(words, c)
  {
  }

  lemma RegroupWords(a: seq<string>, b: seq<string>, c: seq<string>)
    ensures (a + b) + c == a + (b + c)
  {
  }

  lemma {:induction false} WordsConcat(a: string, b: string)
    requires MeetApart(a, b)
    ensures Words(a + b) == Words(a) + Words(b)
  {
    if b == [] {
      assert a + b == a;
    } else {
      var front, last := b[..|b| - 1], b[|b| - 1];
      var joined := a + front;
      assert (a + b)[..|a + b| - 1] == joined && (a + b)[|a + b| - 1] == last;
      WordsConcat(a, front);
      if IsSpace(last) {
      } else if EndsVisible(front) {
        assert joined[|joined| - 1] == front[|front| - 1];
        LengthenedLast(Words(a), Words(front), last);
      } else {
        assert !EndsVisible(joined) by {
          assert front != [] ==> joined[|joined| - 1] == front[|front| - 1];
          assert front == [] ==> joined == a;
        }
        RegroupWords(Words(a), Words(front), [[last]]);
      }
    }
  }

  lemma {:induction false} BlankHasNoWords(text: string)
    requires Blank(text)
    ensures Words(text) == [] && !EndsVisible(text)
  {
    if text != [] {
      BlankHasNoWords(text[..|text| - 1]);
    }
  }

  lemma SeparatorsAreBlank()
    ensures Blank(SPACE) && Blank(BLANK_LINE)
    ensures Words(SPACE) == [] && Words(BLANK_LINE) == []
  {
    BlankHasNoWords(SPACE);
    BlankHasNoWords(BLANK_LINE);
  }

  lemma WordsOfAppend(front: seq<string>, last: string)
    ensures WordsOf(front + [last]) == WordsOf(front) + Words(last)
  {
    assert (front + [last])[..|front|] == front;
  }

  lemma {:induction false} WordsOfConcat(a: seq<string>, b: seq<string>)
    ensures WordsOf(a + b) == WordsOf(a) + WordsOf(b)
  {
    if b == [] {
      assert a + b == a;
    } else {
      WordsOfConcat(a, b[..|b| - 1]);
      assert (a + b)[..|a + b| - 1] == a + b[..|b| - 1];
    }
  }

  lemma WordsOfOne(text: string)
    ensures WordsOf([text]) == Words(text)
  {
    assert [text][..0] == [];
  }

  lemma {:induction false} StripRightWords(text: string)
    ensures Words(StripRight(text)) == Words(text)
  {
    if text != [] && IsSpace(text[|text| - 1]) {
      StripRightWords(text[..|text| - 1]);
    }
  }

  lemma {:induction false} StripLeftWords(text: string)
    ensures Words(StripLeft(text)) == Words(text)
  {
    if text != [] && IsSpace(text[0]) {
      StripLeftWords(text[1..]);
      assert text == text[..1] + text[1..];
      BlankHasNoWords(text[..1]);
      WordsConcat(text[..1], text[1..]);
    }
  }

  lemma {:induction false} StripAllWords(texts: seq<string>)
    ensures WordsOf(StripAll(texts)) == WordsOf(texts)
  {
    if texts != [] {
      StripAllWords(texts[..|texts| - 1]);
      StripRightWords(texts[|texts| - 1]);
      StripLeftWords(StripRight(texts[|texts| - 1]));
      assert StripAll(texts)[..|texts| - 1] == StripAll(texts[..|texts| - 1]);
    }
  }

  /** The words of the joined parts are those of the parts when the separator is white space. */
  lemma {:induction false} JoinWords(parts: seq<string>, separator: string)
    requires separator != [] && Blank(separator)
    ensures Words(Join(parts, separator)) == WordsOf(parts)
  {
    if |parts| == 1 {
      WordsOfOne(parts[0]);
      assert parts == [parts[0]];
    } else if parts != [] {
      var front, last := parts[..|parts| - 1], parts[|parts| - 1];
      JoinWords(front, separator);
      WordsAcross(Join(front, separator), separator, last);
    }
  }

  lemma WordsAcross(a: string, separator: string, b: string)
    requires separator != [] && Blank(separator)
    ensures Words(a + separator + b) == Words(a) + Words(b)
  {
    BlankHasNoWords(separator);
    WordsConcat(a, separator);
    assert !EndsVisible(a + separator);
    WordsConcat(a + separator, b);
  }

  // ----- Words while a text is cut

  function FillingWords(f: Filling): seq<string> {
    WordsOf(f.pieces) + Words(f.current)
  }

  lemma FlushKeepsWords(f: Filling)
    ensures FillingWords(Flushed(f)) == FillingWords(f)
  {
    WordsOfAppend(f.pieces, f.current);
  }

  lemma OneMoreWidth(text: string, c: char)
    ensures ByteSize(text + [c]) == ByteSize(text) + Width(c)
  {
    assert (text + [c])[..|text|] == text;
  }

  /** Text that fits behind the current piece is added to it as it is. */
  lemma {:induction false} CharsThatFit(f: Filling, text: string, budget: int)
    requires ByteSize(f.current + text) <= budget
    ensures AddChars(f, text, budget) == Filling(f.pieces, f.current + text)
  {
    if text == [] {
      assert f.current + text == f.current;
    } else {
      var front, last := text[..|text| - 1], text[|text| - 1];
      Regroup(f.current, front, [last]);
      assert text == front + [last];
      OneMoreWidth(f.current + front, last);
      CharsThatFit(f, front, budget);
    }
  }

  lemma WordKeepsWords(f: Filling, word: string, budget: int)
    requires ByteSize(word) <= budget
    ensures FillingWords(AddWord(f, word, budget)) == FillingWords(f) + Words(word)
  {
    if f.current != [] && budget < ByteSize(f.current + SPACE + word) {
      FlushKeepsWords(f);
      PaddedWordKeepsWords(Flushed(f), word, budget);
    } else {
      PaddedWordKeepsWords(f, word, budget);
    }
  }

  lemma PaddedWordKeepsWords(g: Filling, word: string, budget: int)
    requires ByteSize(if g.current != [] then g.current + SPACE + word else word) <= budget
    ensures FillingWords(AddChars(g, (if g.current != [] then SPACE else []) + word, budget))
            == FillingWords(g) + Words(word)
  {
    if g.current != [] {
      assert g.current + (SPACE + word) == g.current + SPACE + word;
      CharsThatFit(g, SPACE + word, budget);
      SeparatorsAreBlank();
      WordsAcross(g.current, SPACE, word);
      RegroupWords(WordsOf(g.pieces), Words(g.current), Words(word));
    } else {
      assert [] + word == word;
      CharsThatFit(g, word, budget);
      RegroupWords(WordsOf(g.pieces), Words(g.current), Words(word));
    }
  }

  predicate AllWithin(parts: seq<string>, budget: int) {
    forall p :: p in parts ==> ByteSize(p) <= budget
  }

  lemma {:induction false} WordsKeepWords(f: Filling, words: seq<string>, budget: int)
    requires AllWithin(words, budget)
    ensures FillingWords(AddWords(f, words, budget)) == FillingWords(f) + WordsOf(words)
  {
    if words != [] {
      var front, last := words[..|words| - 1], words[|words| - 1];
      assert words == front + [last];
      WordsKeepWords(f, front, budget);
      WordKeepsWords(AddWords(f, front, budget), last, budget);
      RegroupWords(FillingWords(f), WordsOf(front), Words(last));
    }
  }

  lemma ParagraphKeepsWords(f: Filling, paragraph: string, budget: int)
    requires AllWithin(SplitOn(paragraph, SPACE), budget)
    ensures FillingWords(AddParagraph(f, paragraph, budget)) == FillingWords(f) + Words(paragraph)
  {
    var full := f.current != [] && budget < ByteSize(f.current + BLANK_LINE + paragraph);
    FlushKeepsWords(f);
    ClosedKeepsWords(if full then Flushed(f) else f, paragraph, budget);
  }

  lemma ClosedKeepsWords(g: Filling, paragraph: string, budget: int)
    requires AllWithin(SplitOn(paragraph, SPACE), budget)
    ensures FillingWords(Closed(g, paragraph, budget)) == FillingWords(g) + Words(paragraph)
  {
    var h := AddWords(g, SplitOn(paragraph, SPACE), budget);
    WordsKeepWords(g, SplitOn(paragraph, SPACE), budget);
    SeparatorsAreBlank();
    SplitThenJoin(paragraph, SPACE);
    JoinWords(SplitOn(paragraph, SPACE), SPACE);
    WordsConcat(h.current, BLANK_LINE);
    assert Words(h.current) + [] == Words(h.current);
  }

  lemma {:induction false} ParagraphsKeepWords(f: Filling, paragraphs: seq<string>, budget: int)
    requires forall p :: p in paragraphs ==> AllWithin(SplitOn(p, SPACE), budget)
    ensures FillingWords(AddParagraphs(f, paragraphs, budget)) == FillingWords(f) + WordsOf(paragraphs)
  {
    if paragraphs != [] {
      var front, last := paragraphs[..|paragraphs| - 1], paragraphs[|paragraphs| - 1];
      assert paragraphs == front + [last];
      ParagraphsKeepWords(f, front, budget);
      ParagraphKeepsWords(AddParagraphs(f, front, budget), last, budget);
      RegroupWords(FillingWords(f), WordsOf(front), Words(last));
    }
  }

  /** No part of the text between blank lines and spaces is wider than the budget. */
  predicate PartsWithin(text: string, budget: int) {
    forall p :: p in SplitOn(text, BLANK_LINE) ==> AllWithin(SplitOn(p, SPACE), budget)
  }

  /** The words of the pieces are then exactly the words of the text, in order. */
  lemma SplitKeepsWords(text: string, budget: int)
    requires PartsWithin(text, budget)
    ensures WordsOf(SplitText(text, budget)) == Words(text)
  {
    var paragraphs := SplitOn(text, BLANK_LINE);
    var f := AddParagraphs(Filling([], []), paragraphs, budget);
    ParagraphsKeepWords(Filling([], []), paragraphs, budget);
    FinishedWords(f);
    StripAllWords(Finished(f));
    SeparatorsAreBlank();
    SplitThenJoin(text, BLANK_LINE);
    JoinWords(paragraphs, BLANK_LINE);
  }

  lemma FinishedWords(f: Filling)
    ensures WordsOf(Finished(f)) == FillingWords(f)
  {
    StripRightWords(f.current);
    StripLeftWords(StripRight(f.current));
    if Strip(f.current) != [] {
      WordsOfAppend(f.pieces, Strip(f.current));
    } else {
      assert Finished(f) == f.pieces;
    }
  }

  // ----- Documents

  /** The words of a document survive when no part of an oversized section is wider than the budget. */
  lemma {:induction false} SegmentsKeepWords(sections: seq<DocumentSection>, budget: int)
    requires forall s :: s in sections && budget < ByteSize(s.text) ==> PartsWithin(s.text, budget)
    ensures WordsOf(TextsOf(Segmented(sections, budget))) == WordsOf(TextsOf(sections))
  {
    if sections != [] {
      var front, last := sections[..|sections| - 1], sections[|sections| - 1];
      assert sections == front + [last];
      SegmentsKeepWords(front, budget);
      SectionKeepsWords(last, budget);
      TextsConcat(Segmented(front, budget), SectionPieces(last, budget));
      WordsOfConcat(TextsOf(Segmented(front, budget)), TextsOf(SectionPieces(last, budget)));
      assert TextsOf(sections)[..|sections| - 1] == TextsOf(front);
    }
  }

  lemma SectionKeepsWords(section: DocumentSection, budget: int)
    requires budget < ByteSize(section.text) ==> PartsWithin(section.text, budget)
    ensures WordsOf(TextsOf(SectionPieces(section, budget))) == Words(section.text)
  {
    if ByteSize(section.text) <= budget {
      assert TextsOf([section]) == [section.text];
      WordsOfOne(section.text);
    } else {
      SplitKeepsWords(section.text, budget);
      assert TextsOf(SectionPieces(section, budget)) == SplitText(section.text, budget);
    }
  }

  lemma {:induction false} SegmentedConcat(a: seq<DocumentSection>, b: seq<DocumentSection>, budget: int)
    ensures Segmented(a + b, budget) == Segmented(a, budget) + Segmented(b, budget)
  {
    if b == [] {
      assert a + b == a;
    } else {
      var front, last := b[..|b| - 1], b[|b| - 1];
      assert (a + b)[..|a + b| - 1] == a + front;
      SegmentedConcat(a, front, budget);
      RegroupSections(Segmented(a, budget), Segmented(front, budget), SectionPieces(last, budget));
    }
  }

  lemma RegroupSections(a: seq<DocumentSection>, b: seq<DocumentSection>, c: seq<DocumentSection>)
    ensures (a + b) + c == a + (b + c)
  {
  }

  /** Sections are cut one by one: those within the budget stay as they are, and a wider one becomes
      the pieces of its text. */
  lemma SectionsAreCutAlone(before: seq<DocumentSection>, section: DocumentSection, after: seq<DocumentSection>,
                            budget: int)
    ensures var pieces := Segmented([section], budget);
      && Segmented(before + [section] + after, budget) == Segmented(before, budget) + pieces + Segmented(after, budget)
      && (ByteSize(section.text) <= budget ==> pieces == [section])
      && (budget < ByteSize(section.text) ==> TextsOf(pieces) == SplitText(section.text, budget))
  {
    SegmentedConcat(before + [section], after, budget);
    SegmentedConcat(before, [section], budget);
    assert [section][..0] == [];
    assert [] + SectionPieces(section, budget) == SectionPieces(section, budget);
  }
}
