/** Objective weights and the score of a single candidate placement. */
module Objectives {
  import opened Arithmetic
  import opened Timeline
  import opened SchedulingModels

  const UNSCHEDULED_MINUTE := 1000
  const DEADLINE_URGENCY := 40
  const PRIORITY := 30
  const PREFERRED_PERIOD := 12
  const FRAGMENTATION := 8
  const EARLINESS := 1
  const DAILY_BALANCE := 8
  const SAME_TASK_SECOND_SESSION := 250
  const SAME_TASK_ADDITIONAL_SESSION := 1500

  function PeriodBonus(period: Period, start: int): int {
    var hour := HourField(start);
    if period == Morning && 7 <= hour < 12 then PREFERRED_PERIOD
    else if period == Afternoon && 12 <= hour < 17 then PREFERRED_PERIOD
    else if period == Evening && 17 <= hour < 22 then PREFERRED_PERIOD
    else 0
  }

  function SlotScore(task: AcademicTask, start: int, minutes: int, preferences: SchedulingPreference,
                     anchor: int): int {
    var hoursUntilDeadline := Max(1, (task.deadline - anchor) / HOUR);
    var urgency := Max(0, 168 - hoursUntilDeadline) * DEADLINE_URGENCY;
    var priority := (6 - task.priority) * PRIORITY;
    var minutesAfterNow := Max(0, (start - anchor) / MINUTE);
    var earliness := -(minutesAfterNow / SLOT_MINUTES) * EARLINESS;
    var fragmentation := if preferences.preferredSession <= minutes then FRAGMENTATION else 0;
    urgency + priority + earliness + PeriodBonus(preferences.preferredPeriod, start) + fragmentation
  }

  /** The score of a slot that starts at or after the anchor can only fall by one point for every
      whole slot it lies after it. */
  lemma ScoreAtLeast(task: AcademicTask, start: int, minutes: int, preferences: SchedulingPreference, anchor: int)
    requires task.Valid() && anchor <= start
    ensures PRIORITY - (start - anchor) / MINUTE / SLOT_MINUTES
            <= SlotScore(task, start, minutes, preferences, anchor)
  {
  }

  const HIGHEST_SCORE := 6850

  /** No slot scores more than 6850: the most urgent deadline, the highest priority, the preferred
      period and no fragmentation. */
  lemma ScoreAtMost(task: AcademicTask, start: int, minutes: int, preferences: SchedulingPreference, anchor: int)
    requires task.Valid() && anchor <= start
    ensures SlotScore(task, start, minutes, preferences, anchor) <= HIGHEST_SCORE
  {
    assert 0 <= (start - anchor) / MINUTE / SLOT_MINUTES;
  }

  // ----- What the score orders

  /** The start lies in the hours of the preferred part of the day. */
  predicate InPreferredHours(period: Period, start: int) {
    match period
    case Morning => 7 * HOUR <= TimeOfDay(start) < 12 * HOUR
    case Afternoon => 12 * HOUR <= TimeOfDay(start) < 17 * HOUR
    case Evening => 17 * HOUR <= TimeOfDay(start) < 22 * HOUR
    case AnyPeriod => false
  }

  lemma HourOfDay(moment: int)
    ensures HourField(moment) == TimeOfDay(moment) / HOUR
  {
    var days, hours, rest := moment / DAY, TimeOfDay(moment) / HOUR, TimeOfDay(moment) % HOUR;
    DivisionLaw(moment, DAY);
    DivisionLaw(TimeOfDay(moment), HOUR);
    assert moment == (days * 24 + hours) * HOUR + rest;
    QuotientIs(moment, HOUR, days * 24 + hours, rest);
    QuotientIs(days * 24 + hours, 24, days, hours);
  }

  /** The preferred part of the day is worth twelve points, and nothing else is. */
  lemma PreferredHoursCount(task: AcademicTask, start: int, minutes: int, preferences: SchedulingPreference,
                            anchor: int)
    ensures SlotScore(task, start, minutes, preferences, anchor)
            - SlotScore(task, start, minutes, preferences.(preferredPeriod := AnyPeriod), anchor)
            == if InPreferredHours(preferences.preferredPeriod, start) then 12 else 0
  {
    HourOfDay(start);
  }

  /** Each level of priority nearer to 1 is worth thirty points. */
  lemma PriorityCounts(task: AcademicTask, other: int, start: int, minutes: int, preferences: SchedulingPreference,
                       anchor: int)
    ensures SlotScore(task, start, minutes, preferences, anchor)
            - SlotScore(task.(priority := other), start, minutes, preferences, anchor)
            == 30 * (other - task.priority)
  {
  }

  /** A deadline one hour sooner is worth forty points when at least two hours and at most 168 whole
      hours are left, and nothing otherwise. */
  lemma DeadlineCounts(task: AcademicTask, start: int, minutes: int, preferences: SchedulingPreference, anchor: int)
    ensures SlotScore(task.(deadline := task.deadline - HOUR), start, minutes, preferences, anchor)
            - SlotScore(task, start, minutes, preferences, anchor)
            == if 2 * HOUR <= task.deadline - anchor < 169 * HOUR then 40 else 0
  {
    var left := task.deadline - anchor;
    DivisionLaw(left, HOUR);
    QuotientIs(left - HOUR, HOUR, left / HOUR - 1, left % HOUR);
  }

  /** Parts of an hour do not count: two deadlines in the same hour from now score alike. */
  lemma DeadlineHoursCount(task: AcademicTask, other: int, start: int, minutes: int,
                           preferences: SchedulingPreference, anchor: int)
    requires (task.deadline - anchor) / HOUR == (other - anchor) / HOUR
    ensures SlotScore(task, start, minutes, preferences, anchor)
            == SlotScore(task.(deadline := other), start, minutes, preferences, anchor)
  {
  }

  /** Starting whole slots later costs one point a slot, apart from the preferred hours. */
  lemma EarlierStartsCount(task: AcademicTask, start: int, slots: nat, minutes: int,
                           preferences: SchedulingPreference, anchor: int)
    requires anchor <= start
    requires var period := preferences.preferredPeriod;
      InPreferredHours(period, start) == InPreferredHours(period, start + slots * SLOT)
    ensures SlotScore(task, start + slots * SLOT, minutes, preferences, anchor)
            == SlotScore(task, start, minutes, preferences, anchor) - slots
  {
    HourOfDay(start);
    HourOfDay(start + slots * SLOT);
    ElapsedSlots(start - anchor, slots);
  }

  lemma ElapsedSlots(elapsed: nat, slots: nat)
    ensures (elapsed + slots * SLOT) / MINUTE / SLOT_MINUTES == elapsed / MINUTE / SLOT_MINUTES + slots
  {
    var total := elapsed / MINUTE;
    DivisionLaw(elapsed, MINUTE);
    assert elapsed + slots * SLOT == (total + slots * SLOT_MINUTES) * MINUTE + elapsed % MINUTE;
    QuotientIs(elapsed + slots * SLOT, MINUTE, total + slots * SLOT_MINUTES, elapsed % MINUTE);
    DivisionLaw(total, SLOT_MINUTES);
    QuotientIs(total + slots * SLOT_MINUTES, SLOT_MINUTES, total / SLOT_MINUTES + slots, total % SLOT_MINUTES);
  }

  /** A piece of at least the preferred length is worth eight points more than any shorter one. */
  lemma FullLengthCounts(task: AcademicTask, start: int, minutes: int, shorter: int,
                         preferences: SchedulingPreference, anchor: int)
    requires shorter < preferences.preferredSession
    ensures SlotScore(task, start, minutes, preferences, anchor)
            - SlotScore(task, start, shorter, preferences, anchor)
            == if preferences.preferredSession <= minutes then 8 else 0
  {
  }

  /** From here the differences above give every score: the least urgent task of the lowest priority,
      in its first slot, short and at no preferred hour. */
  lemma PlainScore(task: AcademicTask, start: int, minutes: int, preferences: SchedulingPreference, anchor: int)
    requires task.priority == 5 && anchor + 168 * HOUR <= task.deadline
    requires anchor <= start < anchor + SLOT && minutes < preferences.preferredSession
    requires preferences.preferredPeriod == AnyPeriod
    ensures SlotScore(task, start, minutes, preferences, anchor) == 30
  {
    DivisionLaw(task.deadline - anchor, HOUR);
    var elapsed := start - anchor;
    QuotientIs(elapsed / MINUTE, SLOT_MINUTES, 0, elapsed / MINUTE);
  }
}
