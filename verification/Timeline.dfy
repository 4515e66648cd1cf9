/** Instants as whole microseconds on one timeline: the local clock of the planning time zone,
    with tick 0 at the midnight that starts a Monday. */
module Timeline {

  const MINUTE := 60_000_000
  const HOUR := 60 * MINUTE
  const DAY := 24 * HOUR
  const SLOT_MINUTES := 15
  const SLOT := SLOT_MINUTES * MINUTE

  /** The `minute` field of an instant. */
  function MinuteField(moment: int): int {
    moment / MINUTE % 60
  }

  function HourField(moment: int): int {
    moment / HOUR % 24
  }

  /** The date of an instant, as a count of days. */
  function DayOf(moment: int): int {
    moment / DAY
  }

  function Midnight(moment: int): int {
    DayOf(moment) * DAY
  }

  /** The wall-clock time of an instant, as ticks since its midnight. */
  function TimeOfDay(moment: int): int {
    moment % DAY
  }

  /** Monday is 0, Sunday is 6. */
  function Weekday(moment: int): int {
    DayOf(moment) % 7
  }

  function CeilToSlot(moment: int): int {
    var remainder := MinuteField(moment) % SLOT_MINUTES;
    if remainder == 0 && moment % MINUTE == 0 then
      moment
    else
      var moved := moment + (SLOT_MINUTES - remainder) * MINUTE;
      moved - moved % MINUTE
  }

  function FloorToSlot(moment: int): int {
    var moved := moment - MinuteField(moment) % SLOT_MINUTES * MINUTE;
    moved - moved % MINUTE
  }

  predicate Aligned(moment: int) {
    moment % SLOT == 0
  }

  function Min(a: int, b: int): int {
    if a <= b then a else b
  }

  function Max(a: int, b: int): int {
    if a <= b then b else a
  }

  /** Two half-open spans share an instant. */
  predicate Overlaps(start: int, end: int, otherStart: int, otherEnd: int) {
    start < otherEnd && otherStart < end
  }

  /** Rounding up finds the first slot boundary at or after the instant. */
  lemma CeilIsLeastBoundary(moment: int)
    ensures Aligned(CeilToSlot(moment)) && moment <= CeilToSlot(moment)
    ensures forall t :: Aligned(t) && moment <= t ==> CeilToSlot(moment) <= t
  {
    var slot, minutes, ticks := SlotParts(moment);
    if minutes == 0 && ticks == 0 {
      MultipleIsAligned(slot);
    } else {
      var moved := moment + (SLOT_MINUTES - minutes) * MINUTE;
      assert moved == (slot * SLOT_MINUTES + SLOT_MINUTES) * MINUTE + ticks;
      RemainderOf(slot * SLOT_MINUTES + SLOT_MINUTES, ticks);
      assert CeilToSlot(moment) == (slot + 1) * SLOT;
      MultipleIsAligned(slot + 1);
      forall t | Aligned(t) && moment <= t
        ensures CeilToSlot(moment) <= t
      {
        if t < CeilToSlot(moment) {
          BoundariesAreSpaced(t, CeilToSlot(moment));
        }
      }
    }
  }

  /** Rounding down finds the last slot boundary at or before the instant. */
  lemma FloorIsGreatestBoundary(moment: int)
    ensures Aligned(FloorToSlot(moment)) && FloorToSlot(moment) <= moment
    ensures forall t :: Aligned(t) && t <= moment ==> t <= FloorToSlot(moment)
  {
    var slot, minutes, ticks := SlotParts(moment);
    RemainderOf(slot * SLOT_MINUTES, ticks);
    assert FloorToSlot(moment) == slot * SLOT;
    MultipleIsAligned(slot);
    forall t | Aligned(t) && t <= moment
      ensures t <= FloorToSlot(moment)
    {
      if FloorToSlot(moment) < t {
        BoundariesAreSpaced(FloorToSlot(moment), t);
      }
    }
  }

  /** An instant splits into whole slots, whole minutes and a rest of less than a minute. */
  lemma SlotParts(moment: int) returns (slot: int, minutes: int, ticks: int)
    ensures moment == slot * SLOT + minutes * MINUTE + ticks
    ensures 0 <= minutes < SLOT_MINUTES && 0 <= ticks < MINUTE
    ensures MinuteField(moment) % SLOT_MINUTES == minutes && moment % MINUTE == ticks
  {
    var total := moment / MINUTE;
    slot, minutes, ticks := total / SLOT_MINUTES, total % SLOT_MINUTES, moment % MINUTE;
    assert total % 60 % 15 == total % 15;
  }

  lemma RemainderOf(minutes: int, ticks: int)
    requires 0 <= ticks < MINUTE
    ensures (minutes * MINUTE + ticks) % MINUTE == ticks
  {
  }

  lemma MultipleIsAligned(slot: int)
    ensures Aligned(slot * SLOT)
  {
  }

  lemma BoundariesAreSpaced(a: int, b: int)
    requires Aligned(a) && Aligned(b) && a < b
    ensures a + SLOT <= b
  {
  }
}
