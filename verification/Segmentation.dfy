/** Splitting document sections into pieces under a UTF-8 byte budget. */
module Segmentation {
  import opened Wrappers

  datatype DocumentSection = DocumentSection(
    id: string,
    heading: Option<string>,
    level: Option<int>,
    text: string,
    order: int,
    pageStart: Option<int>,
    pageEnd: Option<int>)

  /** Bytes of a character in UTF-8. */
  function Width(c: char): nat {
    var code := c as int;
    if code < 0x80 then 1 else if code < 0x800 then 2 else if code < 0x1_0000 then 3 else 4
  }

  /** The budget measure: the length of the text in UTF-8 bytes. */
  function ByteSize(text: string): nat {
    if text == [] then 0 else ByteSize(text[..|text| - 1]) + Width(text[|text| - 1])
  }

  /** The characters that stripping removes. */
  predicate IsSpace(c: char) {
    var code := c as int;
    || 9 <= code <= 13 || 28 <= code <= 32 || code == 0x85 || code == 0xA0 || code == 0x1680
    || 0x2000 <= code <= 0x200A || code == 0x2028 || code == 0x2029 || code == 0x202F
    || code == 0x205F || code == 0x3000
  }

  function StripLeft(text: string): string {
    if text != [] && IsSpace(text[0]) then StripLeft(text[1..]) else text
  }

  function StripRight(text: string): string {
    if text != [] && IsSpace(text[|text| - 1]) then StripRight(text[..|text| - 1]) else text
  }

  function Strip(text: string): string {
    StripLeft(StripRight(text))
  }

  function Cut(text: string, separator: string, current: string): seq<string>
    requires separator != []
    decreases |text|
  {
    if text == [] then [current]
    else if separator <= text then [current] + Cut(text[|separator|..], separator, [])
    else Cut(text[1..], separator, current + [text[0]])
  }

  /** The parts between the separators, scanned from the left. */
  function SplitOn(text: string, separator: string): seq<string>
    requires separator != []
  {
    Cut(text, separator, [])
  }

  const BLANK_LINE := "\n\n"
  const SPACE := " "

  // ----- One oversized section

  /** The finished pieces and the piece being filled. */
  datatype Filling = Filling(pieces: seq<string>, current: string)

  function Flushed(f: Filling): Filling {
    Filling(f.pieces + [f.current], [])
  }

  function AddChar(f: Filling, c: char, budget: int): Filling {
    var g := if budget < ByteSize(f.current + [c]) then Flushed(f) else f;
    Filling(g.pieces, g.current + [c])
  }

  function AddChars(f: Filling, text: string, budget: int): Filling {
    if text == [] then f
    else AddChar(AddChars(f, text[..|text| - 1], budget), text[|text| - 1], budget)
  }

  function AddWord(f: Filling, word: string, budget: int): Filling {
    var g := if f.current != [] && budget < ByteSize(f.current + SPACE + word) then Flushed(f) else f;
    AddChars(g, (if g.current != [] then SPACE else []) + word, budget)
  }

  function AddWords(f: Filling, words: seq<string>, budget: int): Filling {
    if words == [] then f
    else AddWord(AddWords(f, words[..|words| - 1], budget), words[|words| - 1], budget)
  }

  /** The words of a paragraph and the blank line that closes it. */
  function Closed(g: Filling, paragraph: string, budget: int): Filling {
    var h := AddWords(g, SplitOn(paragraph, SPACE), budget);
    Filling(h.pieces, h.current + BLANK_LINE)
  }

  function AddParagraph(f: Filling, paragraph: string, budget: int): Filling {
    var full := f.current != [] && budget < ByteSize(f.current + BLANK_LINE + paragraph);
    Closed(if full then Flushed(f) else f, paragraph, budget)
  }

  function AddParagraphs(f: Filling, paragraphs: seq<string>, budget: int): Filling {
    if paragraphs == [] then f
    else AddParagraph(AddParagraphs(f, paragraphs[..|paragraphs| - 1], budget), paragraphs[|paragraphs| - 1], budget)
  }

  function StripAll(texts: seq<string>): seq<string> {
    seq(|texts|, i requires 0 <= i < |texts| => Strip(texts[i]))
  }

  function Finished(f: Filling): seq<string> {
    f.pieces + if Strip(f.current) != [] then [Strip(f.current)] else []
  }

  function SplitText(text: string, budget: int): seq<string> {
    StripAll(Finished(AddParagraphs(Filling([], []), SplitOn(text, BLANK_LINE), budget)))
  }

  // ----- A whole document

  function WithTexts(section: DocumentSection, texts: seq<string>): seq<DocumentSection> {
    seq(|texts|, i requires 0 <= i < |texts| => section.(text := texts[i]))
  }

  function SectionPieces(section: DocumentSection, budget: int): seq<DocumentSection> {
    if ByteSize(section.text) <= budget then [section] else WithTexts(section, SplitText(section.text, budget))
  }

  function Segmented(sections: seq<DocumentSection>, budget: int): seq<DocumentSection> {
    if sections == [] then []
    else Segmented(sections[..|sections| - 1], budget) + SectionPieces(sections[|sections| - 1], budget)
  }

  method FillParagraph(f: Filling, paragraph: string, budget: int) returns (g: Filling)
    ensures g == AddParagraph(f, paragraph, budget)
  {
    var pieces, current := f.pieces, f.current;
    if current != [] && budget < ByteSize(current + BLANK_LINE + paragraph) {
      pieces := pieces + [current];
      current := [];
    }
    ghost var begun := Filling(pieces, current);
    var words := SplitOn(paragraph, SPACE);
    for w := 0 to |words|
      invariant Filling(pieces, current) == AddWords(begun, words[..w], budget)
    {
      assert words[..w + 1][..w] == words[..w];
      pieces, current := FillWord(pieces, current, words[w], budget);
    }
    assert words[..|words|] == words;
    g := Filling(pieces, current + BLANK_LINE);
  }

  method FillWord(startPieces: seq<string>, startCurrent: string, word: string, budget: int)
    returns (pieces: seq<string>, current: string)
    ensures Filling(pieces, current) == AddWord(Filling(startPieces, startCurrent), word, budget)
  {
    pieces, current := startPieces, startCurrent;
    if current != [] && budget < ByteSize(current + SPACE + word) {
      pieces := pieces + [current];
      current := [];
    }
    ghost var begun := Filling(pieces, current);
    var chars := (if current != [] then SPACE else []) + word;
    for i := 0 to |chars|
      invariant Filling(pieces, current) == AddChars(begun, chars[..i], budget)
    {
      assert chars[..i + 1][..i] == chars[..i];
      if budget < ByteSize(current + [chars[i]]) {
        pieces := pieces + [current];
        current := [];
      }
      current := current + [chars[i]];
    }
    assert chars[..|chars|] == chars;
  }

  method SplitOversized(text: string, budget: int) returns (pieces: seq<string>)
    ensures pieces == SplitText(text, budget)
  {
    var filling := Filling([], []);
    var paragraphs := SplitOn(text, BLANK_LINE);
    for p := 0 to |paragraphs|
      invariant filling == AddParagraphs(Filling([], []), paragraphs[..p], budget)
    {
      assert paragraphs[..p + 1][..p] == paragraphs[..p];
      filling := FillParagraph(filling, paragraphs[p], budget);
    }
    assert paragraphs[..|paragraphs|] == paragraphs;
    pieces := StripAll(Finished(filling));
  }

  /** Keeps a section that fits; splits the others at blank lines, then at spaces, then between
      characters. */
  method Segment(sections: seq<DocumentSection>, budget: int) returns (result: seq<DocumentSection>)
    ensures result == Segmented(sections, budget)
  {
    result := [];
    for s := 0 to |sections|
      invariant result == Segmented(sections[..s], budget)
    {
      assert sections[..s + 1][..s] == sections[..s];
      var section := sections[s];
      if ByteSize(section.text) <= budget {
        result := result + [section];
      } else {
        var pieces := SplitOversized(section.text, budget);
        result := result + WithTexts(section, pieces);
      }
    }
    assert sections[..|sections|] == sections;
  }

  // ----- Sizes

  lemma {:induction false} ByteSizeConcat(a: string, b: string)
    ensures ByteSize(a + b) == ByteSize(a) + ByteSize(b)
  {
    if b == [] {
      assert a + b == a;
    } else {
      ByteSizeConcat(a, b[..|b| - 1]);
      assert (a + b)[..|a + b| - 1] == a + b[..|b| - 1];
    }
  }

  lemma {:induction false} StripLeftSuffix(text: string)
    ensures exists k :: 0 <= k <= |text| && StripLeft(text) == text[k..]
    ensures ByteSize(StripLeft(text)) <= ByteSize(text)
  {
    if text != [] && IsSpace(text[0]) {
      StripLeftSuffix(text[1..]);
      var k :| 0 <= k <= |text[1..]| && StripLeft(text[1..]) == text[1..][k..];
      assert text[1..][k..] == text[k + 1..];
      assert text == [text[0]] + text[1..];
      ByteSizeConcat([text[0]], text[1..]);
    } else {
      assert text[0..] == text;
    }
  }

  lemma {:induction false} StripRightSmaller(text: string)
    ensures ByteSize(StripRight(text)) <= ByteSize(text)
  {
    if text != [] && IsSpace(text[|text| - 1]) {
      StripRightSmaller(text[..|text| - 1]);
    }
  }

  lemma StripSmaller(text: string)
    ensures ByteSize(Strip(text)) <= ByteSize(text)
  {
    StripRightSmaller(text);
    StripLeftSuffix(StripRight(text));
  }

  lemma {:induction false} CharacterWithinText(text: string, c: char)
    requires c in text
    ensures Width(c) <= ByteSize(text)
  {
    if text[|text| - 1] != c {
      var front := text[..|text| - 1];
      assert text == front + [text[|text| - 1]];
      CharacterWithinText(front, c);
    }
  }

  // ----- Content

  /** The characters of a text that are not white space, in order. */
  function Ink(text: string): string {
    if text == [] then []
    else
      var last := text[|text| - 1];
      Ink(text[..|text| - 1]) + if IsSpace(last) then [] else [last]
  }

  function InkOf(texts: seq<string>): string {
    if texts == [] then [] else InkOf(texts[..|texts| - 1]) + Ink(texts[|texts| - 1])
  }

  lemma Regroup(a: string, b: string, c: string)
    ensures (a + b) + c == a + (b + c)
  {
  }

  lemma {:induction false} InkConcat(a: string, b: string)
    ensures Ink(a + b) == Ink(a) + Ink(b)
  {
    if b == [] {
      assert a + b == a;
    } else {
      InkConcat(a, b[..|b| - 1]);
      assert (a + b)[..|a + b| - 1] == a + b[..|b| - 1];
    }
  }

  lemma InkOfAppend(front: seq<string>, last: string)
    ensures InkOf(front + [last]) == InkOf(front) + Ink(last)
  {
    assert (front + [last])[..|front|] == front;
  }

  lemma {:induction false} InkOfConcat(a: seq<string>, b: seq<string>)
    ensures InkOf(a + b) == InkOf(a) + InkOf(b)
  {
    if b == [] {
      assert a + b == a;
    } else {
      var front, last := b[..|b| - 1], b[|b| - 1];
      InkOfConcat(a, front);
      assert b == front + [last] && a + b == (a + front) + [last];
      InkOfAppend(a + front, last);
      InkOfAppend(front, last);
      Regroup(InkOf(a), InkOf(front), Ink(last));
    }
  }

  lemma {:induction false} InkElements(text: string)
    ensures forall c :: c in Ink(text) <==> c in text && !IsSpace(c)
  {
    if text != [] {
      InkElements(text[..|text| - 1]);
      assert text == text[..|text| - 1] + [text[|text| - 1]];
    }
  }

  lemma {:induction false} StripLeftInk(text: string)
    ensures Ink(StripLeft(text)) == Ink(text)
  {
    if text != [] && IsSpace(text[0]) {
      StripLeftInk(text[1..]);
      assert text == [text[0]] + text[1..];
      InkConcat([text[0]], text[1..]);
      assert Ink([text[0]]) == [];
    }
  }

  lemma {:induction false} StripRightInk(text: string)
    ensures Ink(StripRight(text)) == Ink(text)
  {
    if text != [] && IsSpace(text[|text| - 1]) {
      StripRightInk(text[..|text| - 1]);
    }
  }

  lemma StripInk(text: string)
    ensures Ink(Strip(text)) == Ink(text)
  {
    StripRightInk(text);
    StripLeftInk(StripRight(text));
  }

  lemma {:induction false} StripAllInk(texts: seq<string>)
    ensures InkOf(StripAll(texts)) == InkOf(texts)
  {
    if texts != [] {
      StripAllInk(texts[..|texts| - 1]);
      StripInk(texts[|texts| - 1]);
      assert StripAll(texts)[..|texts| - 1] == StripAll(texts[..|texts| - 1]);
    }
  }

  lemma InkOfOne(text: string)
    ensures InkOf([text]) == Ink(text)
  {
    assert [text][..0] == [];
    assert InkOf([]) == [];
    assert [] + Ink(text) == Ink(text);
  }

  lemma InkOfFirst(first: string, rest: seq<string>)
    ensures InkOf([first] + rest) == Ink(first) + InkOf(rest)
  {
    InkOfConcat([first], rest);
    InkOfOne(first);
  }

  lemma {:induction false} CutInk(text: string, separator: string, current: string)
    requires separator != [] && Ink(separator) == []
    ensures InkOf(Cut(text, separator, current)) == Ink(current) + Ink(text)
    ensures Cut(text, separator, current) != []
    decreases |text|
  {
    if text == [] {
      InkOfOne(current);
    } else if separator <= text {
      var rest := text[|separator|..];
      CutInk(rest, separator, []);
      InkOfFirst(current, Cut(rest, separator, []));
      assert text == separator + rest;
      InkConcat(separator, rest);
    } else {
      CutInk(text[1..], separator, current + [text[0]]);
      assert text == [text[0]] + text[1..];
      InkConcat(current, [text[0]]);
      InkConcat([text[0]], text[1..]);
      Regroup(Ink(current), Ink([text[0]]), Ink(text[1..]));
    }
  }

  /** All the ink seen so far: finished pieces, then the current one. */
  function FillingInk(f: Filling): string {
    InkOf(f.pieces) + Ink(f.current)
  }

  lemma FlushKeepsInk(f: Filling)
    ensures FillingInk(Flushed(f)) == FillingInk(f)
  {
    InkOfConcat(f.pieces, [f.current]);
    assert InkOf([f.current]) == InkOf([]) + Ink(f.current);
  }

  lemma AddCharInk(f: Filling, c: char, budget: int)
    ensures FillingInk(AddChar(f, c, budget)) == FillingInk(f) + Ink([c])
  {
    if budget < ByteSize(f.current + [c]) {
      FlushKeepsInk(f);
      assert [] + [c] == [c];
    } else {
      InkConcat(f.current, [c]);
      Regroup(InkOf(f.pieces), Ink(f.current), Ink([c]));
    }
  }

  lemma AppendInk(ink: string, front: string, last: char)
    ensures (ink + Ink(front)) + Ink([last]) == ink + Ink(front + [last])
  {
    InkConcat(front, [last]);
    Regroup(ink, Ink(front), Ink([last]));
  }

  lemma {:induction false} AddCharsInk(f: Filling, text: string, budget: int)
    ensures FillingInk(AddChars(f, text, budget)) == FillingInk(f) + Ink(text)
  {
    if text != [] {
      var front, last := text[..|text| - 1], text[|text| - 1];
      var h := AddChars(f, front, budget);
      AddCharsInk(f, front, budget);
      AddCharInk(h, last, budget);
      AppendInk(FillingInk(f), front, last);
      assert text == front + [last];
    }
  }

  lemma SeparatorsHaveNoInk()
    ensures Ink(SPACE) == [] && Ink(BLANK_LINE) == []
  {
    assert Ink("") == [];
    assert SPACE[..0] == [];
    assert BLANK_LINE[..1] == "\n" && "\n"[..0] == [];
    assert Ink("\n") == [];
  }

  lemma AddPaddedWordInk(g: Filling, word: string, budget: int)
    ensures FillingInk(AddChars(g, (if g.current != [] then SPACE else []) + word, budget)) == FillingInk(g) + Ink(word)
  {
    var lead := if g.current != [] then SPACE else [];
    AddCharsInk(g, lead + word, budget);
    InkConcat(lead, word);
    assert Ink(lead) == [] by {
      SeparatorsHaveNoInk();
    }
    assert [] + Ink(word) == Ink(word);
  }

  lemma AddWordInk(f: Filling, word: string, budget: int)
    ensures FillingInk(AddWord(f, word, budget)) == FillingInk(f) + Ink(word)
  {
    if f.current != [] && budget < ByteSize(f.current + SPACE + word) {
      FlushKeepsInk(f);
      AddPaddedWordInk(Flushed(f), word, budget);
    } else {
      AddPaddedWordInk(f, word, budget);
    }
  }

  lemma {:induction false} AddWordsInk(f: Filling, words: seq<string>, budget: int)
    ensures FillingInk(AddWords(f, words, budget)) == FillingInk(f) + InkOf(words)
  {
    if words != [] {
      var front, last := words[..|words| - 1], words[|words| - 1];
      AddWordsInk(f, front, budget);
      AddWordInk(AddWords(f, front, budget), last, budget);
      Regroup(FillingInk(f), InkOf(front), Ink(last));
    }
  }

  lemma BlankLineKeepsInk(f: Filling)
    ensures FillingInk(Filling(f.pieces, f.current + BLANK_LINE)) == FillingInk(f)
  {
    SeparatorsHaveNoInk();
    InkConcat(f.current, BLANK_LINE);
  }

  lemma WordsOfParagraphInk(paragraph: string)
    ensures InkOf(SplitOn(paragraph, SPACE)) == Ink(paragraph)
  {
    SeparatorsHaveNoInk();
    CutInk(paragraph, SPACE, []);
    assert [] + paragraph == paragraph;
  }

  lemma ClosedInk(g: Filling, paragraph: string, budget: int)
    ensures FillingInk(Closed(g, paragraph, budget)) == FillingInk(g) + Ink(paragraph)
  {
    WordsOfParagraphInk(paragraph);
    AddWordsInk(g, SplitOn(paragraph, SPACE), budget);
    BlankLineKeepsInk(AddWords(g, SplitOn(paragraph, SPACE), budget));
  }

  lemma AddParagraphInk(f: Filling, paragraph: string, budget: int)
    ensures FillingInk(AddParagraph(f, paragraph, budget)) == FillingInk(f) + Ink(paragraph)
  {
    if f.current != [] && budget < ByteSize(f.current + BLANK_LINE + paragraph) {
      FlushKeepsInk(f);
      ClosedInk(Flushed(f), paragraph, budget);
    } else {
      ClosedInk(f, paragraph, budget);
    }
  }

  lemma {:induction false} AddParagraphsInk(f: Filling, paragraphs: seq<string>, budget: int)
    ensures FillingInk(AddParagraphs(f, paragraphs, budget)) == FillingInk(f) + InkOf(paragraphs)
  {
    if paragraphs != [] {
      var front, last := paragraphs[..|paragraphs| - 1], paragraphs[|paragraphs| - 1];
      AddParagraphsInk(f, front, budget);
      AddParagraphInk(AddParagraphs(f, front, budget), last, budget);
      Regroup(FillingInk(f), InkOf(front), Ink(last));
    }
  }

  lemma FinishedInk(f: Filling)
    ensures InkOf(Finished(f)) == FillingInk(f)
  {
    StripInk(f.current);
    if Strip(f.current) != [] {
      InkOfConcat(f.pieces, [Strip(f.current)]);
      InkOfOne(Strip(f.current));
    } else {
      assert Finished(f) == f.pieces;
    }
  }

  /** Splitting keeps every character that is not white space, in order. */
  lemma SplitKeepsInk(text: string, budget: int)
    ensures InkOf(SplitText(text, budget)) == Ink(text)
  {
    var start := Filling([], []);
    var end := AddParagraphs(start, SplitOn(text, BLANK_LINE), budget);
    SeparatorsHaveNoInk();
    CutInk(text, BLANK_LINE, []);
    AddParagraphsInk(start, SplitOn(text, BLANK_LINE), budget);
    FinishedInk(end);
    StripAllInk(Finished(end));
  }

  // ----- The budget

  /** Every visible character is no wider than the budget. */
  predicate Narrow(text: string, budget: int) {
    forall c :: c in text && !IsSpace(c) ==> Width(c) <= budget
  }

  /** A text that fits, or a single space character that is itself wider than the budget. */
  predicate Tidy(text: string, budget: int) {
    ByteSize(text) <= budget || (|text| == 1 && IsSpace(text[0]))
  }

  /** A tidy text, possibly followed by the blank line that closes a paragraph. */
  predicate NearlyTidy(text: string, budget: int) {
    || Tidy(text, budget)
    || (2 <= |text| && text[|text| - 2..] == BLANK_LINE && Tidy(text[..|text| - 2], budget))
  }

  lemma TidyStripped(text: string, budget: nat)
    requires Tidy(text, budget)
    ensures ByteSize(Strip(text)) <= budget
  {
    StripSmaller(text);
    if |text| == 1 && IsSpace(text[0]) {
      assert text[..0] == [];
      assert StripRight([]) == [];
      assert StripRight(text) == [];
    }
  }

  lemma StripRightDrops(text: string, c: char)
    requires IsSpace(c)
    ensures StripRight(text + [c]) == StripRight(text)
  {
    assert (text + [c])[..|text|] == text;
  }

  lemma StripDropsBlankLine(text: string)
    ensures Strip(text + BLANK_LINE) == Strip(text)
  {
    assert text + BLANK_LINE == (text + ['\n']) + ['\n'];
    StripRightDrops(text + ['\n'], '\n');
    StripRightDrops(text, '\n');
  }

  lemma NearlyTidyStripped(text: string, budget: nat)
    requires NearlyTidy(text, budget)
    ensures ByteSize(Strip(text)) <= budget
  {
    if Tidy(text, budget) {
      TidyStripped(text, budget);
    } else {
      var body := text[..|text| - 2];
      assert text == body + BLANK_LINE;
      StripDropsBlankLine(body);
      TidyStripped(body, budget);
    }
  }

  predicate PiecesFit(pieces: seq<string>, budget: int) {
    forall p :: p in pieces ==> ByteSize(Strip(p)) <= budget
  }

  lemma AddCharFits(f: Filling, c: char, budget: nat)
    requires PiecesFit(f.pieces, budget) && NearlyTidy(f.current, budget)
    requires IsSpace(c) || Width(c) <= budget
    ensures PiecesFit(AddChar(f, c, budget).pieces, budget) && Tidy(AddChar(f, c, budget).current, budget)
  {
    NearlyTidyStripped(f.current, budget);
    assert [] + [c] == [c];
    assert [c][..0] == [];
    assert ByteSize([c]) == Width(c);
  }

  lemma {:induction false} AddCharsFit(f: Filling, text: string, budget: nat)
    requires PiecesFit(f.pieces, budget) && NearlyTidy(f.current, budget) && Narrow(text, budget)
    ensures PiecesFit(AddChars(f, text, budget).pieces, budget)
    ensures NearlyTidy(AddChars(f, text, budget).current, budget)
    ensures text != [] ==> Tidy(AddChars(f, text, budget).current, budget)
  {
    if text != [] {
      var front, last := text[..|text| - 1], text[|text| - 1];
      assert text == front + [last];
      AddCharsFit(f, front, budget);
      AddCharFits(AddChars(f, front, budget), last, budget);
    }
  }

  lemma AddWordFits(f: Filling, word: string, budget: nat)
    requires PiecesFit(f.pieces, budget) && NearlyTidy(f.current, budget) && Narrow(word, budget)
    ensures PiecesFit(AddWord(f, word, budget).pieces, budget) && Tidy(AddWord(f, word, budget).current, budget)
  {
    var g := if f.current != [] && budget < ByteSize(f.current + SPACE + word) then Flushed(f) else f;
    NearlyTidyStripped(f.current, budget);
    AddCharsFit(g, (if g.current != [] then SPACE else []) + word, budget);
  }

  lemma {:induction false} AddWordsFit(f: Filling, words: seq<string>, budget: nat)
    requires PiecesFit(f.pieces, budget) && NearlyTidy(f.current, budget)
    requires forall w :: w in words ==> Narrow(w, budget)
    ensures PiecesFit(AddWords(f, words, budget).pieces, budget)
    ensures NearlyTidy(AddWords(f, words, budget).current, budget)
    ensures words != [] ==> Tidy(AddWords(f, words, budget).current, budget)
  {
    if words != [] {
      var front, last := words[..|words| - 1], words[|words| - 1];
      assert words == front + [last];
      AddWordsFit(f, front, budget);
      AddWordFits(AddWords(f, front, budget), last, budget);
    }
  }

  lemma {:induction false} CutNarrow(text: string, separator: string, current: string, budget: int)
    requires separator != [] && Narrow(text, budget) && Narrow(current, budget)
    ensures forall part :: part in Cut(text, separator, current) ==> Narrow(part, budget)
    ensures Cut(text, separator, current) != []
    decreases |text|
  {
    if text == [] {
    } else if separator <= text {
      assert forall c :: c in text[|separator|..] ==> c in text;
      CutNarrow(text[|separator|..], separator, [], budget);
    } else {
      assert forall c :: c in text[1..] ==> c in text;
      CutNarrow(text[1..], separator, current + [text[0]], budget);
    }
  }

  lemma AddParagraphFits(f: Filling, paragraph: string, budget: nat)
    requires PiecesFit(f.pieces, budget) && NearlyTidy(f.current, budget) && Narrow(paragraph, budget)
    ensures PiecesFit(AddParagraph(f, paragraph, budget).pieces, budget)
    ensures NearlyTidy(AddParagraph(f, paragraph, budget).current, budget)
  {
    var g := if f.current != [] && budget < ByteSize(f.current + BLANK_LINE + paragraph) then Flushed(f) else f;
    NearlyTidyStripped(f.current, budget);
    CutNarrow(paragraph, SPACE, [], budget);
    AddWordsFit(g, SplitOn(paragraph, SPACE), budget);
    var body := AddWords(g, SplitOn(paragraph, SPACE), budget).current;
    assert (body + BLANK_LINE)[|body|..] == BLANK_LINE && (body + BLANK_LINE)[..|body|] == body;
  }

  lemma {:induction false} AddParagraphsFit(f: Filling, paragraphs: seq<string>, budget: nat)
    requires PiecesFit(f.pieces, budget) && NearlyTidy(f.current, budget)
    requires forall p :: p in paragraphs ==> Narrow(p, budget)
    ensures PiecesFit(AddParagraphs(f, paragraphs, budget).pieces, budget)
    ensures NearlyTidy(AddParagraphs(f, paragraphs, budget).current, budget)
  {
    if paragraphs != [] {
      var front, last := paragraphs[..|paragraphs| - 1], paragraphs[|paragraphs| - 1];
      assert paragraphs == front + [last];
      AddParagraphsFit(f, front, budget);
      AddParagraphFits(AddParagraphs(f, front, budget), last, budget);
    }
  }

  lemma SplitFits(text: string, budget: nat)
    requires Narrow(text, budget)
    ensures forall piece :: piece in SplitText(text, budget) ==> ByteSize(piece) <= budget
  {
    var start := Filling([], []);
    var end := AddParagraphs(start, SplitOn(text, BLANK_LINE), budget);
    CutNarrow(text, BLANK_LINE, [], budget);
    AddParagraphsFit(start, SplitOn(text, BLANK_LINE), budget);
    NearlyTidyStripped(end.current, budget);
    StripSmaller(Strip(end.current));
    var finished := Finished(end);
    forall i | 0 <= i < |finished|
      ensures ByteSize(Strip(finished[i])) <= budget
    {
      assert i < |end.pieces| ==> finished[i] in end.pieces;
    }
  }

  lemma {:induction false} InkInSomePiece(texts: seq<string>, c: char)
    requires c in InkOf(texts)
    ensures exists t :: t in texts && c in t
  {
    var front, last := texts[..|texts| - 1], texts[|texts| - 1];
    assert texts == front + [last];
    if c in Ink(last) {
      InkElements(last);
    } else {
      InkInSomePiece(front, c);
    }
  }

  lemma FittingMeansNarrow(text: string, budget: int)
    requires forall piece :: piece in SplitText(text, budget) ==> ByteSize(piece) <= budget
    ensures Narrow(text, budget)
  {
    SplitKeepsInk(text, budget);
    InkElements(text);
    forall c | c in text && !IsSpace(c)
      ensures Width(c) <= budget
    {
      InkInSomePiece(SplitText(text, budget), c);
      var piece :| piece in SplitText(text, budget) && c in piece;
      CharacterWithinText(piece, c);
    }
  }

  predicate AllFit(sections: seq<DocumentSection>, budget: int) {
    forall s :: s in sections ==> ByteSize(s.text) <= budget
  }

  lemma SectionPiecesFitIff(section: DocumentSection, budget: nat)
    ensures AllFit(SectionPieces(section, budget), budget)
            <==> ByteSize(section.text) <= budget || Narrow(section.text, budget)
  {
    if budget < ByteSize(section.text) {
      var texts := SplitText(section.text, budget);
      var pieces := SectionPieces(section, budget);
      assert forall i :: 0 <= i < |texts| ==> pieces[i].text == texts[i];
      if Narrow(section.text, budget) {
        SplitFits(section.text, budget);
      }
      if AllFit(pieces, budget) {
        forall piece | piece in texts
          ensures ByteSize(piece) <= budget
        {
          var i :| 0 <= i < |texts| && texts[i] == piece;
          assert pieces[i] in pieces;
        }
        FittingMeansNarrow(section.text, budget);
      }
    }
  }

  /** Every emitted piece fits the budget exactly when no oversized section contains a visible
      character wider than the budget. */
  lemma {:induction false} SegmentsFitIff(sections: seq<DocumentSection>, budget: nat)
    ensures AllFit(Segmented(sections, budget), budget)
            <==> forall s :: s in sections && budget < ByteSize(s.text) ==> Narrow(s.text, budget)
  {
    if sections != [] {
      var front, last := sections[..|sections| - 1], sections[|sections| - 1];
      assert sections == front + [last];
      SegmentsFitIff(front, budget);
      SectionPiecesFitIff(last, budget);
    }
  }

  /** A budget of four bytes is enough for every document. */
  lemma FourBytesSuffice(sections: seq<DocumentSection>, budget: nat)
    requires 4 <= budget
    ensures AllFit(Segmented(sections, budget), budget)
  {
    SegmentsFitIff(sections, budget);
  }

  function TextsOf(sections: seq<DocumentSection>): seq<string> {
    seq(|sections|, i requires 0 <= i < |sections| => sections[i].text)
  }

  lemma SectionKeepsInk(section: DocumentSection, budget: int)
    ensures InkOf(TextsOf(SectionPieces(section, budget))) == Ink(section.text)
  {
    if ByteSize(section.text) <= budget {
      assert TextsOf([section]) == [section.text];
      InkOfOne(section.text);
    } else {
      SplitKeepsInk(section.text, budget);
      assert TextsOf(SectionPieces(section, budget)) == SplitText(section.text, budget);
    }
  }

  lemma TextsConcat(a: seq<DocumentSection>, b: seq<DocumentSection>)
    ensures TextsOf(a + b) == TextsOf(a) + TextsOf(b)
  {
  }

  /** Segmentation keeps the visible characters of the document, in order. */
  lemma {:induction false} SegmentsKeepInk(sections: seq<DocumentSection>, budget: int)
    ensures InkOf(TextsOf(Segmented(sections, budget))) == InkOf(TextsOf(sections))
  {
    if sections != [] {
      var front, last := sections[..|sections| - 1], sections[|sections| - 1];
      SegmentsKeepInk(front, budget);
      SectionKeepsInk(last, budget);
      TextsConcat(Segmented(front, budget), SectionPieces(last, budget));
      InkOfConcat(TextsOf(Segmented(front, budget)), TextsOf(SectionPieces(last, budget)));
      assert TextsOf(sections)[..|sections| - 1] == TextsOf(front);
    }
  }

  /** A piece carries everything of its section but the text. */
  predicate PieceOf(piece: DocumentSection, section: DocumentSection) {
    piece == section.(text := piece.text)
  }

  lemma {:induction false} SegmentsKeepProvenance(sections: seq<DocumentSection>, budget: int)
    ensures forall p :: p in Segmented(sections, budget) ==> exists s :: s in sections && PieceOf(p, s)
  {
    if sections != [] {
      var front, last := sections[..|sections| - 1], sections[|sections| - 1];
      assert sections == front + [last];
      SegmentsKeepProvenance(front, budget);
      forall p | p in SectionPieces(last, budget)
        ensures PieceOf(p, last) && last in sections
      {
      }
    }
  }
}
