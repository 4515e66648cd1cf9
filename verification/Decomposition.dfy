/** Splitting a task's remaining minutes into session-sized pieces. */
module Decomposition {
  import opened Timeline
  import opened Sorting
  import opened Arithmetic

  function Chunks(remaining: int, target: int): seq<int>
    requires 0 < target
    decreases remaining
  {
    if target < remaining then [target] + Chunks(remaining - target, target)
    else if 0 < remaining then [remaining]
    else []
  }

  /** A last piece shorter than a slot is merged into the piece before it when the maximum allows,
      and otherwise borrows from it. */
  function Balance(chunks: seq<int>, maximum: int): seq<int> {
    var n := |chunks|;
    if n < 2 || SLOT_MINUTES <= chunks[n - 1] then chunks
    else if chunks[n - 2] + chunks[n - 1] <= maximum then chunks[..n - 2] + [chunks[n - 2] + chunks[n - 1]]
    else
      var borrowed := SLOT_MINUTES - chunks[n - 1];
      chunks[..n - 2] + [chunks[n - 2] - borrowed, chunks[n - 1] + borrowed]
  }

  function Pieces(total: int, preferred: int, maximum: int): seq<int>
    requires 0 < preferred && 0 < maximum
  {
    if total <= 0 then [] else Balance(Chunks(total, Min(preferred, maximum)), maximum)
  }

  method DecomposeMinutes(total: int, preferred: int, maximum: int) returns (chunks: seq<int>)
    requires 0 < preferred && 0 < maximum
    ensures chunks == Pieces(total, preferred, maximum)
  {
    if total <= 0 {
      return [];
    }
    var target := Min(preferred, maximum);
    chunks := [];
    var remaining := total;
    while target < remaining
      invariant 0 < remaining
      invariant chunks + Chunks(remaining, target) == Chunks(total, target)
    {
      chunks := chunks + [target];
      remaining := remaining - target;
    }
    if 0 < remaining {
      chunks := chunks + [remaining];
    }
    assert chunks == Chunks(total, target);
    var n := |chunks|;
    if 2 <= n && chunks[n - 1] < SLOT_MINUTES {
      if chunks[n - 2] + chunks[n - 1] <= maximum {
        chunks := chunks[n - 2 := chunks[n - 2] + chunks[n - 1]];
        chunks := chunks[..n - 1];
      } else {
        var borrowed := SLOT_MINUTES - chunks[n - 1];
        chunks := chunks[n - 2 := chunks[n - 2] - borrowed];
        chunks := chunks[n - 1 := chunks[n - 1] + borrowed];
      }
    }
  }

  function Minutes(piece: int): int {
    piece
  }

  function CeilDiv(total: int, size: int): int
    requires 0 < size
  {
    (total + size - 1) / size
  }

  /** What is left for the last piece once every other piece has the target length. */
  function LastChunk(total: int, target: int): int
    requires 0 < target
  {
    total - target * (CeilDiv(total, target) - 1)
  }

  lemma CeilDivStep(total: int, size: int)
    requires 0 < size
    ensures CeilDiv(total, size) == CeilDiv(total - size, size) + 1
    ensures 0 < total <= size ==> CeilDiv(total, size) == 1
  {
    var raised := total + size - 1;
    var quotient, rest := raised / size, raised % size;
    DivisionLaw(raised, size);
    assert raised - size == (quotient - 1) * size + rest;
    QuotientIs(raised - size, size, quotient - 1, rest);
    if 0 < total <= size {
      QuotientIs(raised, size, 1, total - 1);
    }
  }

  lemma LastChunkStep(total: int, target: int)
    requires 0 < target
    ensures LastChunk(total, target) == LastChunk(total - target, target)
    ensures 0 < total <= target ==> LastChunk(total, target) == total
  {
    CeilDivStep(total, target);
    var count := CeilDiv(total - target, target);
    assert target * (count + 1 - 1) == target * (count - 1) + target;
  }

  lemma {:induction false} ChunksShape(total: int, target: int)
    requires 0 < total && 0 < target
    ensures |Chunks(total, target)| == CeilDiv(total, target) && 0 < |Chunks(total, target)|
    ensures forall i :: 0 <= i < |Chunks(total, target)| - 1 ==> Chunks(total, target)[i] == target
    ensures Chunks(total, target)[|Chunks(total, target)| - 1] == LastChunk(total, target)
    ensures 0 < LastChunk(total, target) <= target
    ensures SumOf(Chunks(total, target), Minutes) == total
    decreases total
  {
    CeilDivStep(total, target);
    LastChunkStep(total, target);
    if target < total {
      ChunksShape(total - target, target);
      SumConcat([target], Chunks(total - target, target), Minutes);
      assert SumOf([target], Minutes) == target;
    } else {
      assert SumOf([total], Minutes) == total;
    }
  }

  /** Every piece is usable: positive and no longer than the maximum. */
  predicate Usable(pieces: seq<int>, maximum: int) {
    forall i :: 0 <= i < |pieces| ==> 0 < pieces[i] <= maximum
  }

  lemma BalanceSum(chunks: seq<int>, maximum: int)
    ensures SumOf(Balance(chunks, maximum), Minutes) == SumOf(chunks, Minutes)
  {
    var n := |chunks|;
    if 2 <= n && chunks[n - 1] < SLOT_MINUTES {
      var front, a, b := chunks[..n - 2], chunks[n - 2], chunks[n - 1];
      assert chunks == (front + [a]) + [b];
      SumAppend(front + [a], b, Minutes);
      SumAppend(front, a, Minutes);
      var borrowed := SLOT_MINUTES - b;
      SumAppend(front, a + b, Minutes);
      assert front + [a - borrowed, b + borrowed] == (front + [a - borrowed]) + [b + borrowed];
      SumAppend(front + [a - borrowed], b + borrowed, Minutes);
      SumAppend(front, a - borrowed, Minutes);
    }
  }

  /** The pieces add up to the total and number the fewest possible, or one fewer after a merge. */
  lemma PiecesAddUp(total: int, preferred: int, maximum: int)
    requires 0 < preferred && 0 < maximum && 0 < total
    ensures SumOf(Pieces(total, preferred, maximum), Minutes) == total
    ensures CeilDiv(total, Min(preferred, maximum)) - 1 <= |Pieces(total, preferred, maximum)|
            <= CeilDiv(total, Min(preferred, maximum))
  {
    ChunksShape(total, Min(preferred, maximum));
    BalanceSum(Chunks(total, Min(preferred, maximum)), maximum);
  }

  /** How many pieces there are and how long each is, from the numbers alone: every piece has the
      target length but the last, a last one shorter than a slot is merged into the piece before it
      exactly when the maximum allows, and otherwise takes what it lacks from it. */
  lemma PiecesShape(total: int, preferred: int, maximum: int)
    requires 0 < preferred && 0 < maximum && 0 < total
    ensures var target := Min(preferred, maximum);
      var n, last, pieces := CeilDiv(total, target), LastChunk(total, target), Pieces(total, preferred, maximum);
      && total == target * (n - 1) + last && 0 < last <= target
      && if 2 <= n && last < 15 && target + last <= maximum then
           && |pieces| == n - 1 && pieces[n - 2] == target + last
           && forall i :: 0 <= i < n - 2 ==> pieces[i] == target
         else if 2 <= n && last < 15 then
           && |pieces| == n && pieces[n - 2] == target + last - 15 && pieces[n - 1] == 15
           && forall i :: 0 <= i < n - 2 ==> pieces[i] == target
         else
           && |pieces| == n && pieces[n - 1] == last
           && forall i :: 0 <= i < n - 1 ==> pieces[i] == target
  {
    ChunksShape(total, Min(preferred, maximum));
  }

  /** Exactly when the pieces are usable: the maximum is at least one slot, or there is a single
      piece, or the short last piece can be merged. */
  lemma PiecesUsableIff(total: int, preferred: int, maximum: int)
    requires 0 < preferred && 0 < maximum && 0 < total
    ensures var target := Min(preferred, maximum);
            Usable(Pieces(total, preferred, maximum), maximum)
            <==> SLOT_MINUTES <= maximum || total <= target || target + LastChunk(total, target) <= maximum
  {
    var target := Min(preferred, maximum);
    var chunks := Chunks(total, target);
    var pieces := Pieces(total, preferred, maximum);
    ChunksShape(total, target);
    CeilDivStep(total, target);
    var n := |chunks|;
    if total <= target {
      assert n == 1;
    } else {
      CeilDivStep(total - target, target);
      assert 2 <= n by {
        ChunksShape(total - target, target);
      }
      assert chunks[n - 2] == target && chunks[n - 1] == LastChunk(total, target);
      if SLOT_MINUTES <= maximum || target + LastChunk(total, target) <= maximum {
        assert Usable(pieces, maximum);
      } else {
        assert pieces[n - 1] == SLOT_MINUTES > maximum;
      }
    }
  }

  /** With preferred at least 15 and maximum at least 29, splitting never leaves a piece shorter
      than a slot. */
  lemma NoTinyPieces(total: int, preferred: int, maximum: int)
    requires SLOT_MINUTES <= preferred && 2 * SLOT_MINUTES - 1 <= maximum && 0 < total
    requires 2 <= |Pieces(total, preferred, maximum)|
    ensures forall i :: 0 <= i < |Pieces(total, preferred, maximum)|
             ==> SLOT_MINUTES <= Pieces(total, preferred, maximum)[i]
  {
    ChunksShape(total, Min(preferred, maximum));
  }

  /** The bound 29 is sharp: with a maximum of 28 a piece of 14 minutes can appear. */
  lemma TinyPieceBelowTheBound()
    ensures Pieces(29, 15, 28) == [14, 15]
  {
    assert Chunks(14, 15) == [14];
    assert Chunks(29, 15) == [15, 14];
  }

  /** Below one slot the pieces can be unusable: a negative first piece. */
  lemma NegativePieceBelowOneSlot()
    ensures Pieces(10, 5, 5) == [-5, 15]
  {
    assert Chunks(5, 5) == [5];
    assert Chunks(10, 5) == [5, 5];
  }
}
