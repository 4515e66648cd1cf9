/** Summaries of a document: their source references and the aggregation of partial summaries. */
module References {
  import opened Wrappers
  import opened Segmentation
  import opened Packing
  import Stretches
  import opened SessionIds

  datatype SourceReference = SourceReference(sectionId: string, page: Option<int>)

  /** A concept, section, definition, formula, example or quiz question of a summary. */
  datatype Item = Item(name: string, detail: Option<string>, refs: seq<SourceReference>)

  datatype LectureSummary = LectureSummary(
    title: string,
    overview: string,
    keyConcepts: seq<Item>,
    sections: seq<Item>,
    definitions: seq<Item>,
    formulas: seq<Item>,
    examples: seq<Item>,
    takeaways: seq<string>,
    reviewQuestions: seq<string>,
    quizQuestions: seq<Item>)
  {
    predicate Valid() {
      1 <= |title| <= 255 && overview != []
    }
  }

  /** The items whose references are checked; quiz questions are not among them. */
  function CheckedItems(summary: LectureSummary): seq<Item> {
    summary.keyConcepts + summary.sections + summary.definitions + summary.formulas + summary.examples
  }

  /** The section that a table keyed by id ends up holding. */
  function LastWithId(sections: seq<DocumentSection>, id: string): Option<DocumentSection> {
    if sections == [] then None
    else if sections[|sections| - 1].id == id then Some(sections[|sections| - 1])
    else LastWithId(sections[..|sections| - 1], id)
  }

  predicate PageWithin(page: Option<int>, source: DocumentSection) {
    page.Some? ==>
      && source.pageStart.Some?
      && source.pageEnd.Some?
      && source.pageStart.value <= page.value <= source.pageEnd.value
  }

  predicate Resolves(ref: SourceReference, sections: seq<DocumentSection>) {
    var source := LastWithId(sections, ref.sectionId);
    source.Some? && PageWithin(ref.page, source.value)
  }

  predicate AllResolve(refs: seq<SourceReference>, sections: seq<DocumentSection>) {
    forall r :: r in refs ==> Resolves(r, sections)
  }

  predicate ItemsResolve(items: seq<Item>, sections: seq<DocumentSection>) {
    forall item :: item in items ==> AllResolve(item.refs, sections)
  }

  predicate ReferencesValid(summary: LectureSummary, sections: seq<DocumentSection>) {
    ItemsResolve(CheckedItems(summary), sections)
  }

  ghost predicate TableOf(table: map<string, DocumentSection>, sections: seq<DocumentSection>) {
    forall id :: LastWithId(sections, id) == if id in table then Some(table[id]) else None
  }

  method SourceTable(sections: seq<DocumentSection>) returns (table: map<string, DocumentSection>)
    ensures TableOf(table, sections)
  {
    table := map[];
    for i := 0 to |sections|
      invariant TableOf(table, sections[..i])
    {
      assert sections[..i + 1][..i] == sections[..i];
      table := table[sections[i].id := sections[i]];
    }
    assert sections[..|sections|] == sections;
  }

  method CheckReferences(refs: seq<SourceReference>, table: map<string, DocumentSection>,
                         ghost sections: seq<DocumentSection>)
    returns (ok: bool)
    requires TableOf(table, sections)
    ensures ok <==> AllResolve(refs, sections)
  {
    for r := 0 to |refs|
      invariant AllResolve(refs[..r], sections)
    {
      var ref := refs[r];
      if ref.sectionId !in table || !PageWithin(ref.page, table[ref.sectionId]) {
        assert !Resolves(ref, sections);
        return false;
      }
    }
    return true;
  }

  method ValidateReferences(summary: LectureSummary, sections: seq<DocumentSection>) returns (ok: bool)
    ensures ok <==> ReferencesValid(summary, sections)
  {
    var table := SourceTable(sections);
    var items := CheckedItems(summary);
    for i := 0 to |items|
      invariant ItemsResolve(items[..i], sections)
    {
      var good := CheckReferences(items[i].refs, table, sections);
      if !good {
        return false;
      }
    }
    return true;
  }

  // ----- What a reference means

  predicate SamePages(a: DocumentSection, b: DocumentSection) {
    a.pageStart == b.pageStart && a.pageEnd == b.pageEnd
  }

  /** Sections that share an id cover the same pages; distinct ids are the usual case. */
  predicate Consistent(sections: seq<DocumentSection>) {
    forall a, b :: a in sections && b in sections && a.id == b.id ==> SamePages(a, b)
  }

  predicate DistinctIds(sections: seq<DocumentSection>) {
    forall i, j :: 0 <= i < j < |sections| ==> sections[i].id != sections[j].id
  }

  lemma DistinctIsConsistent(sections: seq<DocumentSection>)
    requires DistinctIds(sections)
    ensures Consistent(sections)
  {
    forall a, b | a in sections && b in sections && a.id == b.id
      ensures SamePages(a, b)
    {
      var i :| 0 <= i < |sections| && sections[i] == a;
      var j :| 0 <= j < |sections| && sections[j] == b;
      assert i == j;
    }
  }

  predicate Points(ref: SourceReference, section: DocumentSection) {
    section.id == ref.sectionId && PageWithin(ref.page, section)
  }

  lemma {:induction false} LastIsMember(sections: seq<DocumentSection>, id: string)
    ensures LastWithId(sections, id).Some?
            ==> LastWithId(sections, id).value in sections && LastWithId(sections, id).value.id == id
    ensures LastWithId(sections, id).None? ==> forall s :: s in sections ==> s.id != id
  {
    if sections != [] {
      var front, last := sections[..|sections| - 1], sections[|sections| - 1];
      assert sections == front + [last];
      LastIsMember(front, id);
    }
  }

  /** A reference resolves exactly when some section has its id and covers its page. */
  lemma ResolvesIff(ref: SourceReference, sections: seq<DocumentSection>)
    requires Consistent(sections)
    ensures Resolves(ref, sections) <==> exists s :: s in sections && Points(ref, s)
  {
    LastIsMember(sections, ref.sectionId);
    var source := LastWithId(sections, ref.sectionId);
    if source.Some? {
      assert source.value in sections;
      forall s | s in sections && Points(ref, s)
        ensures Points(ref, source.value)
      {
        assert SamePages(s, source.value);
      }
      assert Resolves(ref, sections) <==> Points(ref, source.value);
    }
  }

  // ----- Parts of a document

  lemma ChunkSectionsArePieces(sections: seq<DocumentSection>, budget: int, chunk: seq<DocumentSection>,
                               piece: DocumentSection)
    requires chunk in Packed(Segmented(sections, budget), budget) && piece in chunk
    ensures exists s :: s in sections && PieceOf(piece, s)
  {
    var segments := Segmented(sections, budget);
    FlattenElements(Packed(segments, budget), chunk, piece);
    PackingKeepsSections(segments, budget);
    SegmentsKeepProvenance(sections, budget);
  }

  /** A reference that resolves within a part resolves within the document. */
  lemma PartReferenceHolds(sections: seq<DocumentSection>, budget: int, chunk: seq<DocumentSection>,
                           ref: SourceReference)
    requires Consistent(sections)
    requires chunk in Packed(Segmented(sections, budget), budget)
    requires Resolves(ref, chunk)
    ensures Resolves(ref, sections)
  {
    LastIsMember(chunk, ref.sectionId);
    var piece := LastWithId(chunk, ref.sectionId).value;
    ChunkSectionsArePieces(sections, budget, chunk, piece);
    var s :| s in sections && PieceOf(piece, s);
    assert Points(ref, s);
    ResolvesIff(ref, sections);
  }

  /** The sections that keep at least one piece: those that fit, and those with a visible character. */
  predicate Survives(section: DocumentSection, budget: int) {
    ByteSize(section.text) <= budget || Ink(section.text) != []
  }

  lemma {:induction false} SurvivorHasPiece(sections: seq<DocumentSection>, budget: int, section: DocumentSection)
    requires section in sections && Survives(section, budget)
    ensures exists p :: p in Segmented(sections, budget) && PieceOf(p, section)
  {
    var front, last := sections[..|sections| - 1], sections[|sections| - 1];
    assert sections == front + [last];
    if section == last {
      var pieces := SectionPieces(section, budget);
      SectionKeepsInk(section, budget);
      assert TextsOf([]) == [] && InkOf([]) == [];
      assert pieces != [];
      assert PieceOf(pieces[0], section) && pieces[0] in pieces;
    } else {
      SurvivorHasPiece(front, budget, section);
    }
  }

  predicate SomePartResolves(chunks: Chunks, ref: SourceReference) {
    exists c :: c in chunks && Resolves(ref, c)
  }

  /** Conversely, every reference that the document supports is available to some part. */
  lemma DocumentReferenceHasPart(sections: seq<DocumentSection>, budget: int, ref: SourceReference)
    requires Consistent(sections) && forall s :: s in sections ==> Survives(s, budget)
    ensures Resolves(ref, sections) <==> SomePartResolves(Packed(Segmented(sections, budget), budget), ref)
  {
    var segments := Segmented(sections, budget);
    var chunks := Packed(segments, budget);
    if Resolves(ref, sections) {
      ResolvesIff(ref, sections);
      var s :| s in sections && Points(ref, s);
      SurvivorHasPiece(sections, budget, s);
      var p :| p in segments && PieceOf(p, s);
      PackingKeepsSections(segments, budget);
      MemberHasChunk(chunks, p);
      var c :| c in chunks && p in c;
      PartsAreConsistent(sections, budget, c);
      assert Points(ref, p);
      ResolvesIff(ref, c);
    }
    if SomePartResolves(chunks, ref) {
      var c :| c in chunks && Resolves(ref, c);
      PartReferenceHolds(sections, budget, c, ref);
    }
  }

  lemma PartsAreConsistent(sections: seq<DocumentSection>, budget: int, chunk: seq<DocumentSection>)
    requires Consistent(sections) && chunk in Packed(Segmented(sections, budget), budget)
    ensures Consistent(chunk)
  {
    forall a, b | a in chunk && b in chunk && a.id == b.id
      ensures SamePages(a, b)
    {
      ChunkSectionsArePieces(sections, budget, chunk, a);
      ChunkSectionsArePieces(sections, budget, chunk, b);
      var s :| s in sections && PieceOf(a, s);
      var t :| t in sections && PieceOf(b, t);
      assert SamePages(s, t);
    }
  }

  // ----- Aggregation

  function Joined<T>(lists: seq<seq<T>>): seq<T> {
    if lists == [] then [] else Joined(lists[..|lists| - 1]) + lists[|lists| - 1]
  }

  function JoinOverviews(parts: seq<LectureSummary>): string {
    if parts == [] then []
    else if |parts| == 1 then parts[0].overview
    else JoinOverviews(parts[..|parts| - 1]) + BLANK_LINE + parts[|parts| - 1].overview
  }

  function Pick<T>(parts: seq<LectureSummary>, field: LectureSummary -> seq<T>): seq<seq<T>> {
    seq(|parts|, i requires 0 <= i < |parts| => field(parts[i]))
  }

  /** One summary from the summaries of the parts, in order. */
  function Aggregate(title: Option<string>, parts: seq<LectureSummary>): LectureSummary
    requires parts != []
  {
    LectureSummary(
      if title.Some? && title.value != [] then title.value else parts[0].title,
      JoinOverviews(parts),
      Joined(Pick(parts, (s: LectureSummary) => s.keyConcepts)),
      Joined(Pick(parts, (s: LectureSummary) => s.sections)),
      Joined(Pick(parts, (s: LectureSummary) => s.definitions)),
      Joined(Pick(parts, (s: LectureSummary) => s.formulas)),
      Joined(Pick(parts, (s: LectureSummary) => s.examples)),
      Joined(Pick(parts, (s: LectureSummary) => s.takeaways)),
      Joined(Pick(parts, (s: LectureSummary) => s.reviewQuestions)),
      [])
  }

  lemma {:induction false} JoinedItem(lists: seq<seq<Item>>, item: Item)
    ensures item in Joined(lists) <==> exists k :: 0 <= k < |lists| && item in lists[k]
  {
    if lists != [] {
      var front := lists[..|lists| - 1];
      JoinedItem(front, item);
      if item in Joined(front) {
        var k :| 0 <= k < |front| && item in front[k];
        assert item in lists[k];
      }
      if exists k :: 0 <= k < |lists| && item in lists[k] {
        var k :| 0 <= k < |lists| && item in lists[k];
        assert k < |front| ==> item in front[k];
      }
    }
  }

  lemma PickedItem(parts: seq<LectureSummary>, field: LectureSummary -> seq<Item>, item: Item)
    ensures item in Joined(Pick(parts, field)) <==> exists k :: 0 <= k < |parts| && item in field(parts[k])
  {
    JoinedItem(Pick(parts, field), item);
    if exists k :: 0 <= k < |parts| && item in field(parts[k]) {
      var k :| 0 <= k < |parts| && item in field(parts[k]);
      assert item in Pick(parts, field)[k];
    }
    if exists k :: 0 <= k < |parts| && item in Pick(parts, field)[k] {
      var k :| 0 <= k < |parts| && item in Pick(parts, field)[k];
      assert item in field(parts[k]);
    }
  }

  /** The aggregate's checked items are exactly those of its parts. */
  lemma AggregateItems(title: Option<string>, parts: seq<LectureSummary>, item: Item)
    requires parts != []
    ensures item in CheckedItems(Aggregate(title, parts))
            <==> exists k :: 0 <= k < |parts| && item in CheckedItems(parts[k])
  {
    PickedItem(parts, (s: LectureSummary) => s.keyConcepts, item);
    PickedItem(parts, (s: LectureSummary) => s.sections, item);
    PickedItem(parts, (s: LectureSummary) => s.definitions, item);
    PickedItem(parts, (s: LectureSummary) => s.formulas, item);
    PickedItem(parts, (s: LectureSummary) => s.examples, item);
  }

  /** Where the items of the k-th list begin when the lists follow each other. */
  function Offset<T>(lists: seq<seq<T>>, k: nat): nat
    requires k <= |lists|
  {
    if k == 0 then 0 else Offset(lists, k - 1) + |lists[k - 1]|
  }

  /** All the items of all the lists, each once, list by list. */
  predicate InOrder<T(==)>(all: seq<T>, lists: seq<seq<T>>) {
    && |all| == Offset(lists, |lists|)
    && forall k, j :: 0 <= k < |lists| && 0 <= j < |lists[k]| ==> InPlace(all, lists, k, j)
  }

  /** The j-th item of the k-th list comes right after all items before it. */
  predicate InPlace<T(==)>(all: seq<T>, lists: seq<seq<T>>, k: nat, j: nat)
    requires k < |lists| && j < |lists[k]|
  {
    Offset(lists, k) + j < |all| && all[Offset(lists, k) + j] == lists[k][j]
  }

  lemma {:induction false} OffsetOfFront<T>(lists: seq<seq<T>>, k: nat)
    requires lists != [] && k < |lists|
    ensures Offset(lists, k) == Offset(lists[..|lists| - 1], k)
  {
    if k != 0 {
      OffsetOfFront(lists, k - 1);
    }
  }

  lemma AppendInOrder<T>(all: seq<T>, front: seq<seq<T>>, last: seq<T>)
    requires InOrder(all, front)
    ensures InOrder(all + last, front + [last])
  {
    var lists := front + [last];
    assert lists[..|lists| - 1] == front;
    OffsetOfFront(lists, |front|);
    forall k, j | 0 <= k < |lists| && 0 <= j < |lists[k]|
      ensures InPlace(all + last, lists, k, j)
    {
      OffsetOfFront(lists, k);
      if k < |front| {
        assert InPlace(all, front, k, j);
      }
    }
  }

  lemma {:induction false} JoinedInOrder<T>(lists: seq<seq<T>>)
    ensures InOrder(Joined(lists), lists)
  {
    if lists != [] {
      var front, last := lists[..|lists| - 1], lists[|lists| - 1];
      assert lists == front + [last];
      JoinedInOrder(front);
      AppendInOrder(Joined(front), front, last);
    }
  }

  function Overviews(parts: seq<LectureSummary>): seq<string> {
    seq(|parts|, i requires 0 <= i < |parts| => parts[i].overview)
  }

  lemma {:induction false} OverviewsJoined(parts: seq<LectureSummary>)
    ensures JoinOverviews(parts) == Stretches.Join(Overviews(parts), "\n\n")
  {
    if |parts| >= 2 {
      OverviewsJoined(parts[..|parts| - 1]);
      assert Overviews(parts)[..|parts| - 1] == Overviews(parts[..|parts| - 1]);
    }
  }

  /** Every field of the aggregate follows the parts in their order and keeps all they hold; only quiz
      questions are left out. */
  lemma AggregateFollowsParts(title: Option<string>, parts: seq<LectureSummary>)
    requires parts != []
    ensures var whole := Aggregate(title, parts);
      && whole.title == (if title.Some? && |title.value| > 0 then title.value else parts[0].title)
      && whole.overview == Stretches.Join(Overviews(parts), "\n\n")
      && InOrder(whole.keyConcepts, Pick(parts, (s: LectureSummary) => s.keyConcepts))
      && InOrder(whole.sections, Pick(parts, (s: LectureSummary) => s.sections))
      && InOrder(whole.definitions, Pick(parts, (s: LectureSummary) => s.definitions))
      && InOrder(whole.formulas, Pick(parts, (s: LectureSummary) => s.formulas))
      && InOrder(whole.examples, Pick(parts, (s: LectureSummary) => s.examples))
      && InOrder(whole.takeaways, Pick(parts, (s: LectureSummary) => s.takeaways))
      && InOrder(whole.reviewQuestions, Pick(parts, (s: LectureSummary) => s.reviewQuestions))
      && whole.quizQuestions == []
  {
    OverviewsJoined(parts);
    JoinedInOrder(Pick(parts, (s: LectureSummary) => s.keyConcepts));
    JoinedInOrder(Pick(parts, (s: LectureSummary) => s.sections));
    JoinedInOrder(Pick(parts, (s: LectureSummary) => s.definitions));
    JoinedInOrder(Pick(parts, (s: LectureSummary) => s.formulas));
    JoinedInOrder(Pick(parts, (s: LectureSummary) => s.examples));
    JoinedInOrder(Pick(parts, (s: LectureSummary) => s.takeaways));
    JoinedInOrder(Pick(parts, (s: LectureSummary) => s.reviewQuestions));
  }

  predicate PartsValid(parts: seq<LectureSummary>, chunks: Chunks) {
    && |parts| == |chunks|
    && forall k :: 0 <= k < |parts| ==> ReferencesValid(parts[k], chunks[k])
  }

  /** Summaries that are valid for their own parts aggregate to a summary that is valid for the
      document: the final check never refuses what the checks of the parts let through. */
  lemma AggregateIsValid(title: Option<string>, parts: seq<LectureSummary>, sections: seq<DocumentSection>, budget: int)
    requires parts != [] && Consistent(sections)
    requires PartsValid(parts, Packed(Segmented(sections, budget), budget))
    ensures ReferencesValid(Aggregate(title, parts), sections)
  {
    var chunks := Packed(Segmented(sections, budget), budget);
    forall item | item in CheckedItems(Aggregate(title, parts))
      ensures AllResolve(item.refs, sections)
    {
      AggregateItems(title, parts, item);
      var k :| 0 <= k < |parts| && item in CheckedItems(parts[k]);
      assert ReferencesValid(parts[k], chunks[k]);
      forall r | r in item.refs
        ensures Resolves(r, sections)
      {
        PartReferenceHolds(sections, budget, chunks[k], r);
      }
    }
  }

  /** Quiz questions of the parts are lost in the aggregate. */
  lemma QuizQuestionsAreDropped(title: Option<string>, parts: seq<LectureSummary>)
    requires parts != []
    ensures Aggregate(title, parts).quizQuestions == []
    ensures Joined(Pick(parts, (s: LectureSummary) => s.quizQuestions)) == Aggregate(title, parts).quizQuestions
            <==> forall k :: 0 <= k < |parts| ==> parts[k].quizQuestions == []
  {
    var field := (s: LectureSummary) => s.quizQuestions;
    var joined := Joined(Pick(parts, field));
    if k :| 0 <= k < |parts| && parts[k].quizQuestions != [] {
      PickedItem(parts, field, parts[k].quizQuestions[0]);
      assert parts[k].quizQuestions[0] in field(parts[k]);
      assert parts[k].quizQuestions[0] in joined;
    }
    if joined != [] {
      PickedItem(parts, field, joined[0]);
      assert joined[0] in joined;
    }
  }

  // ----- Generating a summary

  datatype Strategy = Direct | Hierarchical

  function StrategyFor(sections: seq<DocumentSection>, directBudget: int): Strategy {
    if SizeOf(sections) <= directBudget then Direct else Hierarchical
  }

  /** The language model's answer to the n-th call; None is a failed call or an unreadable answer.
      Two calls with the same sections may be answered differently. */
  type Model = nat -> Option<LectureSummary>

  predicate Accepted(answer: Option<LectureSummary>, sections: seq<DocumentSection>) {
    answer.Some? && answer.value.Valid() && ReferencesValid(answer.value, sections)
  }

  /** One call: the answer, if it is well formed and refers only to the sections it was given. */
  method Call(sections: seq<DocumentSection>, answer: Option<LectureSummary>) returns (summary: Option<LectureSummary>)
    ensures summary == if Accepted(answer, sections) then answer else None
  {
    summary := answer;
    if summary.Some? {
      var ok := ValidateReferences(summary.value, sections);
      if !summary.value.Valid() || !ok {
        summary := None;
      }
    }
  }

  predicate PartsAccepted(chunks: Chunks, model: Model) {
    forall k :: 0 <= k < |chunks| ==> Accepted(model(k), chunks[k])
  }

  function Answers(chunks: Chunks, model: Model): seq<LectureSummary>
    requires PartsAccepted(chunks, model)
  {
    seq(|chunks|, k requires 0 <= k < |chunks| => model(k).value)
  }

  method CallParts(chunks: Chunks, model: Model) returns (parts: Option<seq<LectureSummary>>)
    ensures parts.Some? <==> PartsAccepted(chunks, model)
    ensures parts.Some? ==> parts.value == Answers(chunks, model) && PartsValid(parts.value, chunks)
  {
    var done: seq<LectureSummary> := [];
    for i := 0 to |chunks|
      invariant |done| == i
      invariant forall k :: 0 <= k < i ==> Accepted(model(k), chunks[k]) && done[k] == model(k).value
    {
      var answer := Call(chunks[i], model(i));
      if answer.None? {
        assert !Accepted(model(i), chunks[i]);
        return None;
      }
      done := done + [answer.value];
    }
    return Some(done);
  }

  /** Generates the summary of a document directly or part by part. With consistent ids the
      hierarchical result depends only on the answers for the parts and on the title and overview:
      its own reference check cannot fail. */
  method Generate(title: Option<string>, sections: seq<DocumentSection>, model: Model,
                  directBudget: int, sectionBudget: int)
    returns (summary: Option<LectureSummary>)
    ensures summary.Some? ==> summary.value.Valid() && ReferencesValid(summary.value, sections)
    ensures StrategyFor(sections, directBudget).Direct? ==>
      summary == if Accepted(model(0), sections) then model(0) else None
    ensures StrategyFor(sections, directBudget).Hierarchical? && Consistent(sections) ==>
      var chunks := Packed(Segmented(sections, sectionBudget), sectionBudget);
      summary == if PartsAccepted(chunks, model) && chunks != [] && Aggregate(title, Answers(chunks, model)).Valid()
                 then Some(Aggregate(title, Answers(chunks, model)))
                 else None
  {
    if StrategyFor(sections, directBudget).Direct? {
      summary := Call(sections, model(0));
    } else {
      var chunks := ChunkSections(sections, sectionBudget);
      var parts := CallParts(chunks, model);
      if parts.None? || parts.value == [] {
        return None;
      }
      var result := Aggregate(title, parts.value);
      var ok := ValidateReferences(result, sections);
      if Consistent(sections) {
        AggregateIsValid(title, parts.value, sections, sectionBudget);
      }
      summary := if result.Valid() && ok then Some(result) else None;
    }
  }

  // ----- The ids that parsers give

  /** What a parser appends: each section gets the next number, whatever it says. */
  function Parsed(drafts: seq<DocumentSection>): seq<DocumentSection> {
    if drafts == [] then []
    else
      var before := Parsed(drafts[..|drafts| - 1]);
      before + [drafts[|drafts| - 1].(id := "s" + Decimal(|before| + 1), order := |before|)]
  }

  lemma {:induction false} ParsedIds(drafts: seq<DocumentSection>)
    ensures |Parsed(drafts)| == |drafts|
    ensures forall i :: 0 <= i < |drafts| ==> Parsed(drafts)[i].id == "s" + Decimal(i + 1)
  {
    if drafts != [] {
      ParsedIds(drafts[..|drafts| - 1]);
    }
  }

  lemma SameNumber(a: nat, b: nat)
    requires "s" + Decimal(a) == "s" + Decimal(b)
    ensures a == b
  {
    assert ("s" + Decimal(a))[1..] == Decimal(a) && ("s" + Decimal(b))[1..] == Decimal(b);
    DecimalInjective(a, b);
  }

  /** The sections of a parsed document have distinct ids. */
  lemma ParsedIdsDistinct(drafts: seq<DocumentSection>)
    ensures DistinctIds(Parsed(drafts))
  {
    ParsedIds(drafts);
    forall i, j | 0 <= i < j < |drafts|
      ensures Parsed(drafts)[i].id != Parsed(drafts)[j].id
    {
      if Parsed(drafts)[i].id == Parsed(drafts)[j].id {
        SameNumber(i + 1, j + 1);
      }
    }
  }

  // ----- When parts can be trusted

  /** Every reference that resolves in a part resolves in the document. */
  ghost predicate PartsFaithful(sections: seq<DocumentSection>, budget: int) {
    forall chunk, ref :: chunk in Packed(Segmented(sections, budget), budget) && Resolves(ref, chunk)
      ==> Resolves(ref, sections)
  }

  /** For a parsed document the parts can always be trusted. */
  lemma ParsedPartsFaithful(drafts: seq<DocumentSection>, budget: int)
    ensures PartsFaithful(Parsed(drafts), budget)
  {
    ParsedIdsDistinct(drafts);
    DistinctIsConsistent(Parsed(drafts));
    forall chunk, ref | chunk in Packed(Segmented(Parsed(drafts), budget), budget) && Resolves(ref, chunk)
      ensures Resolves(ref, Parsed(drafts))
    {
      PartReferenceHolds(Parsed(drafts), budget, chunk, ref);
    }
  }

  /** The source covers every page that the piece covers. */
  predicate Covers(source: DocumentSection, piece: DocumentSection) {
    piece.pageStart.Some? && piece.pageEnd.Some? && piece.pageStart.value <= piece.pageEnd.value ==>
      && source.pageStart.Some? && source.pageEnd.Some?
      && source.pageStart.value <= piece.pageStart.value && piece.pageEnd.value <= source.pageEnd.value
  }

  lemma CoversMeansPages(source: DocumentSection, piece: DocumentSection, page: Option<int>)
    requires Covers(source, piece) && PageWithin(page, piece)
    ensures PageWithin(page, source)
  {
  }

  /** The section that answers for an id in a part is covered by the one that answers in the document. */
  predicate AnswersCovered(sections: seq<DocumentSection>, chunk: seq<DocumentSection>, piece: DocumentSection) {
    LastWithId(chunk, piece.id) == Some(piece) ==>
      var source := LastWithId(sections, piece.id);
      source.Some? && Covers(source.value, piece)
  }

  lemma PieceHasSource(sections: seq<DocumentSection>, budget: int, chunk: seq<DocumentSection>, piece: DocumentSection)
    requires chunk in Packed(Segmented(sections, budget), budget) && piece in chunk
    ensures LastWithId(sections, piece.id).Some?
  {
    ChunkSectionsArePieces(sections, budget, chunk, piece);
    LastIsMember(sections, piece.id);
  }

  lemma CoveredWhenFaithful(sections: seq<DocumentSection>, budget: int, chunk: seq<DocumentSection>,
                            piece: DocumentSection)
    requires PartsFaithful(sections, budget)
    requires chunk in Packed(Segmented(sections, budget), budget) && piece in chunk
    ensures AnswersCovered(sections, chunk, piece)
  {
    PieceHasSource(sections, budget, chunk, piece);
    if LastWithId(chunk, piece.id) == Some(piece) && piece.pageStart.Some? && piece.pageEnd.Some?
       && piece.pageStart.value <= piece.pageEnd.value
    {
      var first, last := SourceReference(piece.id, piece.pageStart), SourceReference(piece.id, piece.pageEnd);
      assert Resolves(first, chunk) && Resolves(last, chunk);
      assert Resolves(first, sections) && Resolves(last, sections);
    }
  }

  lemma FaithfulWhenCovered(sections: seq<DocumentSection>, chunk: seq<DocumentSection>, ref: SourceReference)
    requires Resolves(ref, chunk)
    requires forall piece :: piece in chunk ==> AnswersCovered(sections, chunk, piece)
    ensures Resolves(ref, sections)
  {
    LastIsMember(chunk, ref.sectionId);
    var piece := LastWithId(chunk, ref.sectionId).value;
    assert AnswersCovered(sections, chunk, piece);
    CoversMeansPages(LastWithId(sections, ref.sectionId).value, piece, ref.page);
  }

  /** For any ids, the parts can be trusted exactly when, in every part, the section that answers for
      an id covers no page that the document's section of that id does not. */
  lemma PartsFaithfulIff(sections: seq<DocumentSection>, budget: int)
    ensures PartsFaithful(sections, budget)
            <==> forall chunk, piece :: chunk in Packed(Segmented(sections, budget), budget) && piece in chunk
                   ==> AnswersCovered(sections, chunk, piece)
  {
    var chunks := Packed(Segmented(sections, budget), budget);
    if PartsFaithful(sections, budget) {
      forall chunk, piece | chunk in chunks && piece in chunk
        ensures AnswersCovered(sections, chunk, piece)
      {
        CoveredWhenFaithful(sections, budget, chunk, piece);
      }
    }
    if forall chunk, piece :: chunk in chunks && piece in chunk ==> AnswersCovered(sections, chunk, piece) {
      forall chunk, ref | chunk in chunks && Resolves(ref, chunk)
        ensures Resolves(ref, sections)
      {
        FaithfulWhenCovered(sections, chunk, ref);
      }
    }
  }

  // ----- Repeated ids

  const FIRST := DocumentSection("a", None, None, "xyz", 0, Some(1), Some(1))
  const SECOND := DocumentSection("a", None, None, "xyz", 1, Some(2), Some(2))

  /** With an id repeated over different pages, which no parser produces, a reference accepted for a
      part can be refused for the document. */
  lemma RepeatedIdsMislead()
    ensures [FIRST] in Packed(Segmented([FIRST, SECOND], 4), 4)
    ensures Resolves(SourceReference("a", Some(1)), [FIRST])
    ensures !Resolves(SourceReference("a", Some(1)), [FIRST, SECOND])
  {
    assert ByteSize("xyz") == 3 by {
      assert "xyz"[..2] == "xy" && "xy"[..1] == "x" && "x"[..0] == "";
      assert ByteSize("") == 0 && ByteSize("x") == 1 && ByteSize("xy") == 2;
    }
    assert [FIRST, SECOND][..1] == [FIRST] && [FIRST][..0] == [];
    assert Segmented([], 4) == [] && Segmented([FIRST], 4) == [FIRST];
    assert Segmented([FIRST, SECOND], 4) == [FIRST, SECOND];
    assert Packed([], 4) == [] && Packed([FIRST], 4) == [[FIRST]];
    SizeOfOne(FIRST);
    assert Packed([FIRST, SECOND], 4) == [[FIRST], [SECOND]];
    assert LastWithId([FIRST, SECOND], "a") == Some(SECOND);
    assert LastWithId([FIRST], "a") == Some(FIRST);
  }
}
