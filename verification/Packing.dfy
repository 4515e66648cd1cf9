/** Packing the pieces of a document, in order, into chunks under a byte budget. */
module Packing {
  import opened Segmentation

  type Chunks = seq<seq<DocumentSection>>

  function SizeOf(sections: seq<DocumentSection>): nat {
    if sections == [] then 0 else SizeOf(sections[..|sections| - 1]) + ByteSize(sections[|sections| - 1].text)
  }

  function Flatten(chunks: Chunks): seq<DocumentSection> {
    if chunks == [] then [] else Flatten(chunks[..|chunks| - 1]) + chunks[|chunks| - 1]
  }

  /** The greedy rule for one more section: join the last chunk when it still fits there. */
  function Place(chunks: Chunks, section: DocumentSection, budget: int): Chunks {
    if chunks != [] && SizeOf(chunks[|chunks| - 1]) + ByteSize(section.text) <= budget
    then chunks[..|chunks| - 1] + [chunks[|chunks| - 1] + [section]]
    else chunks + [[section]]
  }

  function Packed(sections: seq<DocumentSection>, budget: int): Chunks {
    if sections == [] then []
    else Place(Packed(sections[..|sections| - 1], budget), sections[|sections| - 1], budget)
  }

  /** The finished chunks together with the one being filled. */
  function Together(chunks: Chunks, current: seq<DocumentSection>): Chunks {
    if current == [] then chunks else chunks + [current]
  }

  lemma PlaceTogether(chunks: Chunks, current: seq<DocumentSection>, section: DocumentSection, budget: int)
    requires current == [] ==> chunks == []
    ensures Place(Together(chunks, current), section, budget)
            == if current != [] && budget < SizeOf(current) + ByteSize(section.text)
               then Together(chunks + [current], [section])
               else Together(chunks, current + [section])
  {
    if current == [] {
      assert [] + [section] == [section];
    } else {
      var both := chunks + [current];
      assert both[|both| - 1] == current && both[..|both| - 1] == chunks;
    }
  }

  lemma SizeAppend(sections: seq<DocumentSection>, last: DocumentSection)
    ensures SizeOf(sections + [last]) == SizeOf(sections) + ByteSize(last.text)
  {
    assert (sections + [last])[..|sections|] == sections;
  }

  lemma PackedAppend(sections: seq<DocumentSection>, last: DocumentSection, budget: int)
    ensures Packed(sections + [last], budget) == Place(Packed(sections, budget), last, budget)
  {
    assert (sections + [last])[..|sections|] == sections;
  }

  /** What the next section does to the chunks so far. */
  lemma PackStep(done: seq<DocumentSection>, section: DocumentSection, chunks: Chunks, current: seq<DocumentSection>,
                 budget: int)
    requires (current == [] ==> chunks == []) && Together(chunks, current) == Packed(done, budget)
    ensures Packed(done + [section], budget)
            == if current != [] && budget < SizeOf(current) + ByteSize(section.text)
               then Together(chunks + [current], [section])
               else Together(chunks, current + [section])
  {
    PackedAppend(done, section, budget);
    PlaceTogether(chunks, current, section, budget);
  }

  method ChunkSections(sections: seq<DocumentSection>, budget: int) returns (chunks: Chunks)
    ensures chunks == Packed(Segmented(sections, budget), budget)
  {
    var segments := Segment(sections, budget);
    chunks := Pack(segments, budget);
  }

  method Pack(segments: seq<DocumentSection>, budget: int) returns (chunks: Chunks)
    ensures chunks == Packed(segments, budget)
  {
    chunks := [];
    var current: seq<DocumentSection> := [];
    var currentSize := 0;
    for i := 0 to |segments|
      invariant currentSize == SizeOf(current)
      invariant current == [] ==> chunks == []
      invariant Together(chunks, current) == Packed(segments[..i], budget)
    {
      PackStep(segments[..i], segments[i], chunks, current, budget);
      assert segments[..i + 1] == segments[..i] + [segments[i]];
      var size := ByteSize(segments[i].text);
      if current != [] && budget < currentSize + size {
        chunks := chunks + [current];
        current := [];
        currentSize := 0;
      }
      SizeAppend(current, segments[i]);
      assert [] + [segments[i]] == [segments[i]];
      current := current + [segments[i]];
      currentSize := currentSize + size;
    }
    chunks := Together(chunks, current);
    assert segments[..|segments|] == segments;
  }

  lemma PlacedChunks(chunks: Chunks, section: DocumentSection, budget: int)
    ensures forall c :: c in Place(chunks, section, budget) ==> c in chunks || section in c
  {
  }

  lemma {:induction false} NoEmptyChunk(sections: seq<DocumentSection>, budget: int)
    ensures forall c :: c in Packed(sections, budget) ==> c != []
  {
    if sections != [] {
      var front, last := sections[..|sections| - 1], sections[|sections| - 1];
      NoEmptyChunk(front, budget);
      PlacedChunks(Packed(front, budget), last, budget);
    }
  }

  lemma FlattenAppend(chunks: Chunks, last: seq<DocumentSection>)
    ensures Flatten(chunks + [last]) == Flatten(chunks) + last
  {
    assert (chunks + [last])[..|chunks|] == chunks;
  }

  lemma PlaceAddsOne(chunks: Chunks, section: DocumentSection, budget: int)
    ensures Flatten(Place(chunks, section, budget)) == Flatten(chunks) + [section]
  {
    if chunks != [] && SizeOf(chunks[|chunks| - 1]) + ByteSize(section.text) <= budget {
      var first, end := chunks[..|chunks| - 1], chunks[|chunks| - 1];
      FlattenAppend(first, end + [section]);
      assert Flatten(first) + (end + [section]) == (Flatten(first) + end) + [section];
    } else {
      FlattenAppend(chunks, [section]);
    }
  }

  /** Every section is in exactly one chunk, and reading the chunks in turn gives back the order. */
  lemma {:induction false} PackingKeepsSections(sections: seq<DocumentSection>, budget: int)
    ensures Flatten(Packed(sections, budget)) == sections
  {
    if sections == [] {
      assert Packed(sections, budget) == [];
    } else {
      var front, last := sections[..|sections| - 1], sections[|sections| - 1];
      var before := Packed(front, budget);
      var after := Place(before, last, budget);
      assert Packed(sections, budget) == after;
      assert Flatten(after) == front + [last] by {
        PackingKeepsSections(front, budget);
        PlaceAddsOne(before, last, budget);
      }
      assert front + [last] == sections;
    }
  }

  lemma SizeOfOne(section: DocumentSection)
    ensures SizeOf([section]) == ByteSize(section.text)
  {
    SizeAppend([], section);
    assert [] + [section] == [section];
  }

  /** A chunk is over the budget only when it is one section that is over the budget by itself. */
  lemma {:induction false} ChunksFitOrStandAlone(sections: seq<DocumentSection>, budget: int)
    ensures forall c :: c in Packed(sections, budget) ==> SizeOf(c) <= budget || |c| == 1
  {
    if sections != [] {
      var front, last := sections[..|sections| - 1], sections[|sections| - 1];
      ChunksFitOrStandAlone(front, budget);
      var before := Packed(front, budget);
      if before != [] {
        SizeAppend(before[|before| - 1], last);
      }
    }
  }

  /** A chunk ends only where the next section does not fit behind it. */
  predicate EndsFull(chunks: Chunks, k: nat, budget: int)
    requires k + 1 < |chunks|
  {
    chunks[k + 1] != [] && budget < SizeOf(chunks[k]) + ByteSize(chunks[k + 1][0].text)
  }

  /** For every budget, even one that some section exceeds: no chunk is empty, none but the last ends
      before it is full, and one of several sections is within the budget. */
  lemma {:induction false} ChunksAreFull(sections: seq<DocumentSection>, budget: int)
    ensures forall c :: c in Packed(sections, budget) ==> c != [] && (SizeOf(c) <= budget || |c| == 1)
    ensures forall k :: 0 <= k < |Packed(sections, budget)| - 1 ==> EndsFull(Packed(sections, budget), k, budget)
  {
    NoEmptyChunk(sections, budget);
    ChunksFitOrStandAlone(sections, budget);
    if sections != [] {
      var front, last := sections[..|sections| - 1], sections[|sections| - 1];
      var before, after := Packed(front, budget), Packed(sections, budget);
      ChunksAreFull(front, budget);
      NoEmptyChunk(front, budget);
      forall k | 0 <= k < |after| - 1
        ensures EndsFull(after, k, budget)
      {
        if k + 1 < |before| {
          assert EndsFull(before, k, budget);
          assert before[k + 1] in before;
        }
      }
    }
  }

  predicate Within(chunks: Chunks, budget: int) {
    forall c :: c in chunks ==> SizeOf(c) <= budget
  }

  lemma {:induction false} FlattenElements(chunks: Chunks, chunk: seq<DocumentSection>, section: DocumentSection)
    requires chunk in chunks && section in chunk
    ensures section in Flatten(chunks)
  {
    if chunk != chunks[|chunks| - 1] {
      FlattenElements(chunks[..|chunks| - 1], chunk, section);
    }
  }

  lemma {:induction false} SizeOfMember(sections: seq<DocumentSection>, section: DocumentSection)
    requires section in sections
    ensures ByteSize(section.text) <= SizeOf(sections)
  {
    if section != sections[|sections| - 1] {
      SizeOfMember(sections[..|sections| - 1], section);
    }
  }

  /** Packing stays within the budget exactly when every section fits by itself. */
  lemma PackingFitsIff(sections: seq<DocumentSection>, budget: int)
    ensures Within(Packed(sections, budget), budget) <==> AllFit(sections, budget)
  {
    PackingKeepsSections(sections, budget);
    ChunksFitOrStandAlone(sections, budget);
    var chunks := Packed(sections, budget);
    if AllFit(sections, budget) {
      forall c | c in chunks
        ensures SizeOf(c) <= budget
      {
        if |c| == 1 {
          FlattenElements(chunks, c, c[0]);
          SizeOfOne(c[0]);
          assert c == [c[0]];
        }
      }
    }
    if Within(chunks, budget) {
      forall s | s in sections
        ensures ByteSize(s.text) <= budget
      {
        MemberHasChunk(chunks, s);
        var c :| c in chunks && s in c;
        SizeOfMember(c, s);
      }
    }
  }

  lemma {:induction false} MemberHasChunk(chunks: Chunks, section: DocumentSection)
    requires section in Flatten(chunks)
    ensures exists c :: c in chunks && section in c
  {
    if section !in chunks[|chunks| - 1] {
      MemberHasChunk(chunks[..|chunks| - 1], section);
    }
  }

  // ----- The fewest chunks

  /** No more chunks than parts, and with as many, a last chunk that is no fuller. */
  predicate Ahead(chunks: Chunks, parts: Chunks) {
    && |chunks| <= |parts|
    && (chunks != [] && |chunks| == |parts| ==> SizeOf(chunks[|chunks| - 1]) <= SizeOf(parts[|parts| - 1]))
  }

  lemma PlaceStaysAhead(before: Chunks, rest: Chunks, shorter: seq<DocumentSection>, last: DocumentSection, budget: int)
    requires Ahead(before, rest + [shorter]) && SizeOf(shorter + [last]) <= budget
    ensures Ahead(Place(before, last, budget), rest + [shorter + [last]])
  {
    SizeAppend(shorter, last);
    SizeOfOne(last);
    if before != [] {
      SizeAppend(before[|before| - 1], last);
    }
  }

  /** Packing one more part of another cutting stays ahead of it. */
  lemma {:induction false} PartStaysAhead(sections: seq<DocumentSection>, rest: Chunks, part: seq<DocumentSection>,
                                          budget: int)
    requires Ahead(Packed(sections, budget), rest) && SizeOf(part) <= budget
    ensures Ahead(Packed(sections + part, budget), rest + [part])
  {
    if part == [] {
      assert sections + part == sections;
    } else {
      var front, last := part[..|part| - 1], part[|part| - 1];
      assert part == front + [last] && sections + part == (sections + front) + [last];
      PartStaysAhead(sections, rest, front, budget);
      PackedAppend(sections + front, last, budget);
      PlaceStaysAhead(Packed(sections + front, budget), rest, front, last, budget);
    }
  }

  /** Greedy is ahead of any other way of cutting the same sections, in the same order, into parts
      within the budget. */
  lemma {:induction false} GreedyStaysAhead(sections: seq<DocumentSection>, parts: Chunks, budget: int)
    requires Within(parts, budget) && Flatten(parts) == sections
    ensures Ahead(Packed(sections, budget), parts)
    decreases |parts|
  {
    if parts == [] {
      assert Packed(sections, budget) == [];
    } else {
      var rest, last := parts[..|parts| - 1], parts[|parts| - 1];
      assert last in parts && forall c :: c in rest ==> c in parts;
      GreedyStaysAhead(Flatten(rest), rest, budget);
      PartStaysAhead(Flatten(rest), rest, last, budget);
      assert rest + [last] == parts;
    }
  }

  /** The chunks of a document: every segment once and in order, within the budget when it is at
      least four bytes, in the fewest chunks possible. */
  lemma ChunkingIsOptimal(sections: seq<DocumentSection>, parts: Chunks, budget: nat)
    requires 4 <= budget
    requires Within(parts, budget) && Flatten(parts) == Segmented(sections, budget)
    ensures Within(Packed(Segmented(sections, budget), budget), budget)
    ensures |Packed(Segmented(sections, budget), budget)| <= |parts|
  {
    FourBytesSuffice(sections, budget);
    PackingFitsIff(Segmented(sections, budget), budget);
    GreedyStaysAhead(Segmented(sections, budget), parts, budget);
  }
}
