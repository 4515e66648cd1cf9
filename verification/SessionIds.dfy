/** The text ids of generated sessions: task id, fragment number and start, joined by colons. */
module SessionIds {

  function Digit(d: int): char
    requires 0 <= d < 10
  {
    ('0' as int + d) as char
  }

  function Decimal(n: nat): string {
    if n < 10 then [Digit(n)] else Decimal(n / 10) + [Digit(n % 10)]
  }

  function FixedDigits(value: int, width: nat): string
    decreases width
  {
    if width == 0 then "" else FixedDigits(value / 10, width - 1) + [Digit(value % 10)]
  }

  const ISO_SHAPE := "2026-01-01T00:00:00+00:00"
  const ISO_WIDTH := |ISO_SHAPE|

  /** Stands for the ISO text of a whole-minute instant with an offset: always 25 characters. */
  function IsoText(start: int): string {
    FixedDigits(start, ISO_WIDTH)
  }

  function IdText(taskId: string, fragmentId: nat, start: int): string {
    taskId + ":" + Decimal(fragmentId) + ":" + IsoText(start)
  }

  lemma {:induction false} FixedWidth(value: int, width: nat)
    ensures |FixedDigits(value, width)| == width
    decreases width
  {
    if 0 < width {
      FixedWidth(value / 10, width - 1);
    }
  }

  lemma {:induction false} DecimalHasNoColon(n: nat)
    ensures ':' !in Decimal(n) && Decimal(n) != []
  {
    if 10 <= n {
      DecimalHasNoColon(n / 10);
    }
  }

  lemma {:induction false} DecimalInjective(a: nat, b: nat)
    requires Decimal(a) == Decimal(b)
    ensures a == b
  {
    var x, y := Decimal(a), Decimal(b);
    DecimalHasNoColon(a / 10);
    DecimalHasNoColon(b / 10);
    assert x[|x| - 1] == Digit(a % 10) && y[|y| - 1] == Digit(b % 10);
    if 10 <= a && 10 <= b {
      assert x[..|x| - 1] == Decimal(a / 10) && y[..|y| - 1] == Decimal(b / 10);
      DecimalInjective(a / 10, b / 10);
    }
  }

  lemma ColonIsLast(head: string, tail: string)
    requires ':' !in tail
    ensures var text := head + ":" + tail;
            text[|head|] == ':' && forall k :: |head| < k < |text| ==> text[k] != ':'
  {
    var text := head + ":" + tail;
    forall k | |head| < k < |text|
      ensures text[k] != ':'
    {
      assert text[k] == tail[k - |head| - 1];
    }
  }

  lemma LastColon(a: string, b: string, x: string, y: string)
    requires a + ":" + x == b + ":" + y && ':' !in x && ':' !in y
    ensures a == b && x == y
  {
    var left, right := a + ":" + x, b + ":" + y;
    ColonIsLast(a, x);
    ColonIsLast(b, y);
    assert |a| == |b|;
    assert left[..|a|] == a && right[..|b|] == b;
    assert left[|a| + 1..] == x && right[|b| + 1..] == y;
  }

  /** Dropping the start and its colon leaves the task and the piece. */
  lemma IdHead(taskId: string, fragmentId: nat, start: int)
    ensures var text := IdText(taskId, fragmentId, start);
      |text| > ISO_WIDTH && text[..|text| - ISO_WIDTH - 1] == taskId + ":" + Decimal(fragmentId)
  {
    FixedWidth(start, ISO_WIDTH);
    var head := taskId + ":" + Decimal(fragmentId);
    assert IdText(taskId, fragmentId, start) == head + (":" + IsoText(start));
  }

  lemma HeadNamesOnePiece(taskA: string, fragmentA: nat, taskB: string, fragmentB: nat)
    requires taskA + ":" + Decimal(fragmentA) == taskB + ":" + Decimal(fragmentB)
    ensures taskA == taskB && fragmentA == fragmentB
  {
    DecimalHasNoColon(fragmentA);
    DecimalHasNoColon(fragmentB);
    LastColon(taskA, taskB, Decimal(fragmentA), Decimal(fragmentB));
    DecimalInjective(fragmentA, fragmentB);
  }

  /** Even when task ids contain colons, two sessions share an id only if they are the same piece
      of the same task. */
  lemma IdNamesOnePiece(taskA: string, fragmentA: nat, startA: int, taskB: string, fragmentB: nat, startB: int)
    requires IdText(taskA, fragmentA, startA) == IdText(taskB, fragmentB, startB)
    ensures taskA == taskB && fragmentA == fragmentB
  {
    IdHead(taskA, fragmentA, startA);
    IdHead(taskB, fragmentB, startB);
    HeadNamesOnePiece(taskA, fragmentA, taskB, fragmentB);
  }

  // ----- Written instants

  function Power(width: nat): nat {
    if width == 0 then 1 else 10 * Power(width - 1)
  }

  lemma {:induction false} FixedInjective(a: int, b: int, width: nat)
    requires 0 <= a < Power(width) && 0 <= b < Power(width) && FixedDigits(a, width) == FixedDigits(b, width)
    ensures a == b
    decreases width
  {
    if 0 < width {
      var x, y := FixedDigits(a, width), FixedDigits(b, width);
      FixedWidth(a / 10, width - 1);
      FixedWidth(b / 10, width - 1);
      assert x[width - 1] == Digit(a % 10) && y[width - 1] == Digit(b % 10);
      assert x[..width - 1] == FixedDigits(a / 10, width - 1) && y[..width - 1] == FixedDigits(b / 10, width - 1);
      FixedInjective(a / 10, b / 10, width - 1);
    }
  }

  lemma SameTail(headA: string, tailA: string, headB: string, tailB: string)
    requires headA + tailA == headB + tailB && |tailA| == |tailB|
    ensures tailA == tailB
  {
    assert (headA + tailA)[|headA|..] == tailA && (headB + tailB)[|headB|..] == tailB;
  }

  /** Texts that end in an instant are equal only for the same instant. */
  lemma IsoTextLast(headA: string, startA: int, headB: string, startB: int)
    requires 0 <= startA < Power(ISO_WIDTH) && 0 <= startB < Power(ISO_WIDTH)
    requires headA + IsoText(startA) == headB + IsoText(startB)
    ensures startA == startB
  {
    FixedWidth(startA, ISO_WIDTH);
    FixedWidth(startB, ISO_WIDTH);
    SameTail(headA, IsoText(startA), headB, IsoText(startB));
    FixedInjective(startA, startB, ISO_WIDTH);
  }

  /** Within the range of written instants, the id also tells the start. */
  lemma IdNamesOnePlacement(taskA: string, fragmentA: nat, startA: int, taskB: string, fragmentB: nat, startB: int)
    requires 0 <= startA < Power(ISO_WIDTH) && 0 <= startB < Power(ISO_WIDTH)
    ensures IdText(taskA, fragmentA, startA) == IdText(taskB, fragmentB, startB)
            <==> taskA == taskB && fragmentA == fragmentB && startA == startB
  {
    if IdText(taskA, fragmentA, startA) == IdText(taskB, fragmentB, startB) {
      IdNamesOnePiece(taskA, fragmentA, startA, taskB, fragmentB, startB);
      var head := taskA + ":" + Decimal(fragmentA) + ":";
      assert IdText(taskA, fragmentA, startA) == head + IsoText(startA);
      assert IdText(taskB, fragmentB, startB) == head + IsoText(startB);
      IsoTextLast(head, startA, head, startB);
    }
  }
}
