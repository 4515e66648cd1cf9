/** Interval algebra of the study scheduler: availability clipped to study hours, then carved
    around busy and locked time. */
module FreeTime {
  import opened Timeline
  import opened SchedulingModels

  /** Some window holds the whole block. */
  predicate Fits(windows: seq<Interval>, start: int, end: int) {
    exists w :: w in windows && w.Contains(start, end)
  }

  predicate AllAligned(windows: seq<Interval>) {
    forall w :: w in windows ==> Aligned(w.start) && Aligned(w.end)
  }

  /** In order and without overlap. */
  predicate Ordered(windows: seq<Interval>) {
    forall i, j :: 0 <= i < j < |windows| ==> windows[i].end <= windows[j].start
  }

  predicate AllNonEmpty(windows: seq<Interval>) {
    forall w :: w in windows ==> w.start < w.end
  }

  function NonEmpty(windows: seq<Interval>): seq<Interval> {
    if windows == [] then []
    else
      var last := windows[|windows| - 1];
      NonEmpty(windows[..|windows| - 1]) + if last.start < last.end then [last] else []
  }

  // ----- Clipping to study hours

  function ClipDay(window: Interval, preferences: SchedulingPreference, day: int): seq<Interval> {
    if preferences.weekendAvailable || Weekday(day) < 5 then
      var start := Max(window.start, day + preferences.earliest);
      var end := Min(window.end, day + preferences.latest);
      if start < end then [Interval(CeilToSlot(start), FloorToSlot(end))] else []
    else
      []
  }

  function ClipDays(window: Interval, preferences: SchedulingPreference, day: int, lastDay: int): seq<Interval>
    decreases lastDay - day
  {
    if lastDay < day then []
    else ClipDay(window, preferences, day) + ClipDays(window, preferences, day + DAY, lastDay)
  }

  function ClipWindow(window: Interval, preferences: SchedulingPreference): seq<Interval> {
    ClipDays(window, preferences, Midnight(window.start), Midnight(window.end))
  }

  function ClipAll(windows: seq<Interval>, preferences: SchedulingPreference): seq<Interval> {
    if windows == [] then []
    else ClipAll(windows[..|windows| - 1], preferences) + ClipWindow(windows[|windows| - 1], preferences)
  }

  function Clipped(windows: seq<Interval>, preferences: SchedulingPreference): seq<Interval> {
    NonEmpty(ClipAll(windows, preferences))
  }

  /** Availability windows cut to the study hours of every local day they touch. */
  method ClipToStudyWindows(windows: seq<Interval>, preferences: SchedulingPreference) returns (free: seq<Interval>)
    ensures free == Clipped(windows, preferences)
  {
    var clipped: seq<Interval> := [];
    for i := 0 to |windows|
      invariant clipped == ClipAll(windows[..i], preferences)
    {
      var days := ClipEachDay(windows[i], preferences);
      clipped := clipped + days;
      assert windows[..i + 1][..i] == windows[..i];
    }
    assert windows[..|windows|] == windows;
    free := DropEmpty(clipped);
  }

  method ClipEachDay(window: Interval, preferences: SchedulingPreference) returns (clipped: seq<Interval>)
    ensures clipped == ClipWindow(window, preferences)
  {
    clipped := [];
    var cursor, last := Midnight(window.start), Midnight(window.end);
    while cursor <= last
      invariant clipped + ClipDays(window, preferences, cursor, last) == ClipWindow(window, preferences)
      decreases last - cursor
    {
      var piece := ClipDay(window, preferences, cursor);
      AppendStep(clipped, piece, ClipDays(window, preferences, cursor + DAY, last));
      clipped := clipped + piece;
      cursor := cursor + DAY;
    }
  }

  lemma AppendStep(done: seq<Interval>, piece: seq<Interval>, rest: seq<Interval>)
    ensures done + (piece + rest) == (done + piece) + rest
  {
  }

  method DropEmpty(windows: seq<Interval>) returns (kept: seq<Interval>)
    ensures kept == NonEmpty(windows)
  {
    kept := [];
    for i := 0 to |windows|
      invariant kept == NonEmpty(windows[..i])
    {
      assert windows[..i + 1][..i] == windows[..i];
      if windows[i].start < windows[i].end {
        kept := kept + [windows[i]];
      }
    }
    assert windows[..|windows|] == windows;
  }

  // ----- Carving busy time out

  function Carve(window: Interval, busy: Interval): seq<Interval> {
    if !Overlaps(window.start, window.end, busy.start, busy.end) then [window]
    else
      (if window.start < busy.start then [Interval(window.start, Min(window.end, FloorToSlot(busy.start)))] else [])
      + (if busy.end < window.end then [Interval(Max(window.start, CeilToSlot(busy.end)), window.end)] else [])
  }

  function CarveAll(windows: seq<Interval>, busy: Interval): seq<Interval> {
    if windows == [] then []
    else CarveAll(windows[..|windows| - 1], busy) + Carve(windows[|windows| - 1], busy)
  }

  function Without(windows: seq<Interval>, busy: seq<Interval>): seq<Interval> {
    if busy == [] then windows
    else NonEmpty(CarveAll(Without(windows, busy[..|busy| - 1]), busy[|busy| - 1]))
  }

  /** Removes every busy interval, widened to slot boundaries, from the windows. */
  method SubtractBusy(windows: seq<Interval>, busyIntervals: seq<Interval>) returns (free: seq<Interval>)
    ensures free == Without(windows, busyIntervals)
  {
    free := windows;
    for i := 0 to |busyIntervals|
      invariant free == Without(windows, busyIntervals[..i])
    {
      var busy := busyIntervals[i];
      var updated: seq<Interval> := [];
      for j := 0 to |free|
        invariant updated == CarveAll(free[..j], busy)
      {
        assert free[..j + 1][..j] == free[..j];
        var window := free[j];
        if !Overlaps(window.start, window.end, busy.start, busy.end) {
          updated := updated + [window];
          continue;
        }
        if window.start < busy.start {
          updated := updated + [Interval(window.start, Min(window.end, FloorToSlot(busy.start)))];
        }
        if busy.end < window.end {
          updated := updated + [Interval(Max(window.start, CeilToSlot(busy.end)), window.end)];
        }
      }
      assert free[..|free|] == free;
      assert busyIntervals[..i + 1][..i] == busyIntervals[..i];
      free := DropEmpty(updated);
    }
    assert busyIntervals[..|busyIntervals|] == busyIntervals;
  }

  function LockedTime(locked: seq<StudySession>): seq<Interval> {
    seq(|locked|, i requires 0 <= i < |locked| => Interval(locked[i].start, locked[i].end))
  }

  method SubtractLocked(windows: seq<Interval>, locked: seq<StudySession>) returns (free: seq<Interval>)
    ensures free == Without(windows, LockedTime(locked))
  {
    free := SubtractBusy(windows, LockedTime(locked));
  }

  /** All the time left for new sessions. */
  function FreeWindows(problem: SchedulingProblem): seq<Interval> {
    Without(Without(Clipped(problem.windows, problem.preferences), problem.busy), LockedTime(problem.locked))
  }

  // ----- What clipping keeps

  lemma {:induction false} NonEmptyElements(windows: seq<Interval>)
    ensures forall w :: w in NonEmpty(windows) <==> w in windows && w.start < w.end
  {
    if windows != [] {
      NonEmptyElements(windows[..|windows| - 1]);
      assert windows == windows[..|windows| - 1] + [windows[|windows| - 1]];
    }
  }

  lemma {:induction false} NonEmptyOrdered(windows: seq<Interval>)
    requires Ordered(windows)
    ensures Ordered(NonEmpty(windows))
  {
    if windows != [] {
      var front, last := windows[..|windows| - 1], windows[|windows| - 1];
      NonEmptyOrdered(front);
      NonEmptyElements(front);
      forall i | 0 <= i < |NonEmpty(front)|
        ensures NonEmpty(front)[i].end <= last.start
      {
        assert NonEmpty(front)[i] in front;
      }
    }
  }

  lemma SameDayBounds(preferences: SchedulingPreference, start: int, end: int)
    requires preferences.Valid()
    ensures InStudyHours(preferences, start, end) && start < end
            <==> && start < end
                 && Midnight(start) + preferences.earliest <= start
                 && end <= Midnight(start) + preferences.latest
                 && (preferences.weekendAvailable || Weekday(start) < 5)
  {
    assert start == DayOf(start) * DAY + TimeOfDay(start);
    assert end == DayOf(end) * DAY + TimeOfDay(end);
    if start < end && Midnight(start) + preferences.earliest <= start && end <= Midnight(start) + preferences.latest {
      assert DayOf(start) * DAY <= end < (DayOf(start) + 1) * DAY;
      assert DayOf(end) == DayOf(start);
    }
  }

  lemma DayOfWindow(preferences: SchedulingPreference, day: int, start: int, end: int)
    requires preferences.Valid() && day % DAY == 0
    requires start < end && day + preferences.earliest <= start && end <= day + preferences.latest
    ensures Midnight(start) == day && Weekday(start) == Weekday(day)
  {
    assert day == day / DAY * DAY;
    assert day <= start < day + DAY;
    assert DayOf(start) == day / DAY;
  }

  lemma ClipDayFits(window: Interval, preferences: SchedulingPreference, day: int, start: int, end: int)
    requires preferences.Valid() && day % DAY == 0
    requires Aligned(start) && Aligned(end) && start < end
    ensures Fits(ClipDay(window, preferences, day), start, end)
            <==> window.Contains(start, end) && InStudyHours(preferences, start, end) && Midnight(start) == day
  {
    SameDayBounds(preferences, start, end);
    var from := Max(window.start, day + preferences.earliest);
    var to := Min(window.end, day + preferences.latest);
    CeilIsLeastBoundary(from);
    FloorIsGreatestBoundary(to);
    var piece := Interval(CeilToSlot(from), FloorToSlot(to));
    assert piece.Contains(start, end) <==> from <= start && end <= to;
    if from <= start && end <= to {
      DayOfWindow(preferences, day, start, end);
      assert (preferences.weekendAvailable || Weekday(day) < 5) ==> piece in ClipDay(window, preferences, day);
    }
  }

  lemma FitsConcat(a: seq<Interval>, b: seq<Interval>, start: int, end: int)
    ensures Fits(a + b, start, end) <==> Fits(a, start, end) || Fits(b, start, end)
  {
    if Fits(a, start, end) {
      var w :| w in a && w.Contains(start, end);
      assert w in a + b;
    }
    if Fits(b, start, end) {
      var w :| w in b && w.Contains(start, end);
      assert w in a + b;
    }
  }

  lemma MidnightSteps(moment: int, day: int)
    requires day % DAY == 0 && day < Midnight(moment)
    ensures day + DAY <= Midnight(moment)
  {
    assert day == day / DAY * DAY;
  }

  lemma DaySplits(moment: int, day: int, lastDay: int)
    requires day % DAY == 0 && day <= lastDay
    ensures day <= Midnight(moment) <= lastDay <==> Midnight(moment) == day || day + DAY <= Midnight(moment) <= lastDay
    ensures (day + DAY) % DAY == 0
  {
    if day < Midnight(moment) {
      MidnightSteps(moment, day);
    }
  }

  lemma {:induction false} ClipDaysFits(window: Interval, preferences: SchedulingPreference, day: int, lastDay: int,
                                        start: int, end: int)
    requires preferences.Valid() && day % DAY == 0
    requires Aligned(start) && Aligned(end) && start < end
    ensures Fits(ClipDays(window, preferences, day, lastDay), start, end)
            <==> && window.Contains(start, end)
                 && InStudyHours(preferences, start, end)
                 && day <= Midnight(start) <= lastDay
    decreases lastDay - day
  {
    if day <= lastDay {
      DaySplits(start, day, lastDay);
      ClipDayFits(window, preferences, day, start, end);
      ClipDaysFits(window, preferences, day + DAY, lastDay, start, end);
      FitsConcat(ClipDay(window, preferences, day), ClipDays(window, preferences, day + DAY, lastDay), start, end);
    }
  }

  lemma MidnightMonotone(a: int, b: int)
    requires a <= b
    ensures Midnight(a) <= Midnight(b) && Midnight(a) % DAY == 0
  {
    assert DayOf(a) <= DayOf(b);
  }

  lemma ClipWindowFits(window: Interval, preferences: SchedulingPreference, start: int, end: int)
    requires preferences.Valid()
    requires Aligned(start) && Aligned(end) && start < end
    ensures Fits(ClipWindow(window, preferences), start, end)
            <==> window.Contains(start, end) && InStudyHours(preferences, start, end)
  {
    MidnightMonotone(window.start, window.start);
    ClipDaysFits(window, preferences, Midnight(window.start), Midnight(window.end), start, end);
    if window.Contains(start, end) {
      MidnightMonotone(window.start, start);
      MidnightMonotone(start, window.end);
    }
  }

  lemma {:induction false} ClipAllFits(windows: seq<Interval>, preferences: SchedulingPreference, start: int, end: int)
    requires preferences.Valid()
    requires Aligned(start) && Aligned(end) && start < end
    ensures Fits(ClipAll(windows, preferences), start, end)
            <==> Fits(windows, start, end) && InStudyHours(preferences, start, end)
  {
    if windows != [] {
      var front, last := windows[..|windows| - 1], windows[|windows| - 1];
      ClipAllFits(front, preferences, start, end);
      ClipWindowFits(last, preferences, start, end);
      FitsConcat(ClipAll(front, preferences), ClipWindow(last, preferences), start, end);
      assert windows == front + [last];
      FitsConcat(front, [last], start, end);
      assert last in [last];
    }
  }

  lemma NonEmptyFits(windows: seq<Interval>, start: int, end: int)
    requires start < end
    ensures Fits(NonEmpty(windows), start, end) <==> Fits(windows, start, end)
  {
    NonEmptyElements(windows);
  }

  /** A slot-aligned block survives clipping exactly when one availability window holds it and it
      lies within the study hours of a usable day. */
  lemma ClippingKeepsStudyBlocks(windows: seq<Interval>, preferences: SchedulingPreference, start: int, end: int)
    requires preferences.Valid()
    requires Aligned(start) && Aligned(end) && start < end
    ensures Fits(Clipped(windows, preferences), start, end)
            <==> Fits(windows, start, end) && InStudyHours(preferences, start, end)
  {
    ClipAllFits(windows, preferences, start, end);
    NonEmptyFits(ClipAll(windows, preferences), start, end);
  }

  lemma {:induction false} ClipDaysShape(window: Interval, preferences: SchedulingPreference, day: int, lastDay: int)
    requires preferences.Valid()
    ensures AllAligned(ClipDays(window, preferences, day, lastDay))
    ensures Ordered(ClipDays(window, preferences, day, lastDay))
    ensures forall w :: w in ClipDays(window, preferences, day, lastDay)
              ==> window.start <= w.start && w.end <= window.end && day + preferences.earliest <= w.start
    decreases lastDay - day
  {
    if day <= lastDay {
      ClipDaysShape(window, preferences, day + DAY, lastDay);
      CeilIsLeastBoundary(Max(window.start, day + preferences.earliest));
      FloorIsGreatestBoundary(Min(window.end, day + preferences.latest));
    }
  }

  lemma OrderedConcat(a: seq<Interval>, b: seq<Interval>)
    requires Ordered(a) && Ordered(b)
    requires forall v, w :: v in a && w in b ==> v.end <= w.start
    ensures Ordered(a + b)
  {
  }

  predicate InsideSome(windows: seq<Interval>, w: Interval) {
    exists v :: v in windows && v.start <= w.start && w.end <= v.end
  }

  lemma InsideAppend(front: seq<Interval>, last: Interval, w: Interval)
    requires InsideSome(front, w) || (last.start <= w.start && w.end <= last.end)
    ensures InsideSome(front + [last], w)
  {
    if InsideSome(front, w) {
      var v :| v in front && v.start <= w.start && w.end <= v.end;
      assert v in front + [last];
    } else {
      assert last in front + [last];
    }
  }

  lemma InsideBeforeLast(front: seq<Interval>, last: Interval, w: Interval)
    requires Ordered(front + [last]) && InsideSome(front, w)
    ensures w.end <= last.start
  {
    var v :| v in front && v.start <= w.start && w.end <= v.end;
    var i :| 0 <= i < |front| && front[i] == v;
    assert (front + [last])[i] == v && (front + [last])[|front|] == last;
  }

  lemma OrderedFront(front: seq<Interval>, last: Interval)
    requires Ordered(front + [last])
    ensures Ordered(front)
  {
    assert forall i :: 0 <= i < |front| ==> (front + [last])[i] == front[i];
  }

  lemma {:induction false} ClipAllShape(windows: seq<Interval>, preferences: SchedulingPreference)
    requires preferences.Valid()
    ensures AllAligned(ClipAll(windows, preferences))
    ensures forall w :: w in ClipAll(windows, preferences) ==> InsideSome(windows, w)
    ensures Ordered(windows) ==> Ordered(ClipAll(windows, preferences))
  {
    if windows != [] {
      var front, last := windows[..|windows| - 1], windows[|windows| - 1];
      assert windows == front + [last];
      ClipAllShape(front, preferences);
      ClipDaysShape(last, preferences, Midnight(last.start), Midnight(last.end));
      ConcatShape(front, last, ClipAll(front, preferences), ClipWindow(last, preferences));
    }
  }

  /** Pieces made window by window stay inside their windows and in order. */
  lemma ConcatShape(front: seq<Interval>, last: Interval, earlier: seq<Interval>, pieces: seq<Interval>)
    requires forall w :: w in earlier ==> InsideSome(front, w)
    requires forall w :: w in pieces ==> last.start <= w.start && w.end <= last.end
    requires Ordered(front) ==> Ordered(earlier)
    requires Ordered(pieces)
    ensures forall w :: w in earlier + pieces ==> InsideSome(front + [last], w)
    ensures Ordered(front + [last]) ==> Ordered(earlier + pieces)
  {
    forall w | w in earlier + pieces
      ensures InsideSome(front + [last], w)
    {
      InsideAppend(front, last, w);
    }
    if Ordered(front + [last]) {
      OrderedFront(front, last);
      forall v, w | v in earlier && w in pieces
        ensures v.end <= w.start
      {
        InsideBeforeLast(front, last, v);
      }
      OrderedConcat(earlier, pieces);
    }
  }

  /** Clipped windows are slot-aligned and non-empty, and stay in order when availability was. */
  lemma ClippingShape(windows: seq<Interval>, preferences: SchedulingPreference)
    requires preferences.Valid()
    ensures AllAligned(Clipped(windows, preferences)) && AllNonEmpty(Clipped(windows, preferences))
    ensures Ordered(windows) ==> Ordered(Clipped(windows, preferences))
  {
    ClipAllShape(windows, preferences);
    NonEmptyElements(ClipAll(windows, preferences));
    if Ordered(windows) {
      NonEmptyOrdered(ClipAll(windows, preferences));
    }
  }

  // ----- What carving keeps

  lemma CarveFits(window: Interval, busy: Interval, start: int, end: int)
    requires Aligned(start) && Aligned(end) && start < end
    ensures Fits(Carve(window, busy), start, end)
            <==> window.Contains(start, end) && !Overlaps(start, end, busy.start, busy.end)
  {
    FloorIsGreatestBoundary(busy.start);
    CeilIsLeastBoundary(busy.end);
    var left := Interval(window.start, Min(window.end, FloorToSlot(busy.start)));
    var right := Interval(Max(window.start, CeilToSlot(busy.end)), window.end);
    if Overlaps(window.start, window.end, busy.start, busy.end) {
      assert left.Contains(start, end) <==> window.Contains(start, end) && end <= busy.start;
      assert right.Contains(start, end) <==> window.Contains(start, end) && busy.end <= start;
      if left.Contains(start, end) {
        assert Carve(window, busy)[0] == left;
      }
      if right.Contains(start, end) {
        assert Carve(window, busy)[|Carve(window, busy)| - 1] == right;
      }
    } else {
      assert Carve(window, busy)[0] == window;
    }
  }

  lemma {:induction false} CarveAllFits(windows: seq<Interval>, busy: Interval, start: int, end: int)
    requires Aligned(start) && Aligned(end) && start < end
    ensures Fits(CarveAll(windows, busy), start, end)
            <==> Fits(windows, start, end) && !Overlaps(start, end, busy.start, busy.end)
  {
    if windows != [] {
      var front, last := windows[..|windows| - 1], windows[|windows| - 1];
      CarveAllFits(front, busy, start, end);
      CarveFits(last, busy, start, end);
      FitsConcat(CarveAll(front, busy), Carve(last, busy), start, end);
      assert windows == front + [last];
      FitsConcat(front, [last], start, end);
      assert last in [last];
    }
  }

  predicate Untouched(busyIntervals: seq<Interval>, start: int, end: int) {
    forall b :: b in busyIntervals ==> !Overlaps(start, end, b.start, b.end)
  }

  /** A slot-aligned block survives the subtraction exactly when it fitted before and touches no
      busy interval. */
  lemma {:induction false} SubtractionKeepsUntouched(windows: seq<Interval>, busyIntervals: seq<Interval>, start: int,
                                                     end: int)
    requires Aligned(start) && Aligned(end) && start < end
    ensures Fits(Without(windows, busyIntervals), start, end)
            <==> Fits(windows, start, end) && Untouched(busyIntervals, start, end)
  {
    if busyIntervals != [] {
      var front, last := busyIntervals[..|busyIntervals| - 1], busyIntervals[|busyIntervals| - 1];
      SubtractionKeepsUntouched(windows, front, start, end);
      CarveAllFits(Without(windows, front), last, start, end);
      NonEmptyFits(CarveAll(Without(windows, front), last), start, end);
      assert busyIntervals == front + [last];
    }
  }

  /** The 15-minute cells kept are exactly the cells of the windows that touch no busy interval. */
  lemma SubtractionKeepsCells(windows: seq<Interval>, busyIntervals: seq<Interval>, cell: int)
    requires Aligned(cell)
    ensures Fits(Without(windows, busyIntervals), cell, cell + SLOT)
            <==> Fits(windows, cell, cell + SLOT) && Untouched(busyIntervals, cell, cell + SLOT)
  {
    assert Aligned(cell + SLOT);
    SubtractionKeepsUntouched(windows, busyIntervals, cell, cell + SLOT);
  }

  /** The order in which busy intervals are removed does not change what is left. */
  lemma SubtractionIgnoresOrder(windows: seq<Interval>, busyIntervals: seq<Interval>, shuffled: seq<Interval>,
                                start: int, end: int)
    requires multiset(busyIntervals) == multiset(shuffled)
    requires Aligned(start) && Aligned(end) && start < end
    ensures Fits(Without(windows, busyIntervals), start, end) <==> Fits(Without(windows, shuffled), start, end)
  {
    SubtractionKeepsUntouched(windows, busyIntervals, start, end);
    SubtractionKeepsUntouched(windows, shuffled, start, end);
    assert forall b :: b in busyIntervals <==> b in multiset(busyIntervals);
    assert forall b :: b in shuffled <==> b in multiset(shuffled);
  }

  lemma CarveShape(window: Interval, busy: Interval)
    requires busy.start < busy.end
    ensures Aligned(window.start) && Aligned(window.end) ==> AllAligned(Carve(window, busy))
    ensures Ordered(Carve(window, busy))
    ensures forall w :: w in Carve(window, busy) ==> window.start <= w.start && w.end <= window.end
  {
    FloorIsGreatestBoundary(busy.start);
    CeilIsLeastBoundary(busy.end);
  }

  lemma {:induction false} CarveAllShape(windows: seq<Interval>, busy: Interval)
    requires busy.start < busy.end
    ensures AllAligned(windows) ==> AllAligned(CarveAll(windows, busy))
    ensures Ordered(windows) ==> Ordered(CarveAll(windows, busy))
    ensures forall w :: w in CarveAll(windows, busy) ==> InsideSome(windows, w)
  {
    if windows != [] {
      var front, last := windows[..|windows| - 1], windows[|windows| - 1];
      assert windows == front + [last];
      CarveAllShape(front, busy);
      CarveShape(last, busy);
      ConcatShape(front, last, CarveAll(front, busy), Carve(last, busy));
    }
  }

  /** Subtraction keeps windows aligned, non-empty, in order and disjoint. */
  lemma {:induction false} SubtractionShape(windows: seq<Interval>, busyIntervals: seq<Interval>)
    requires forall b :: b in busyIntervals ==> b.start < b.end
    ensures AllAligned(windows) ==> AllAligned(Without(windows, busyIntervals))
    ensures Ordered(windows) ==> Ordered(Without(windows, busyIntervals))
    ensures AllNonEmpty(windows) ==> AllNonEmpty(Without(windows, busyIntervals))
  {
    if busyIntervals != [] {
      var front, last := busyIntervals[..|busyIntervals| - 1], busyIntervals[|busyIntervals| - 1];
      assert last in busyIntervals;
      SubtractionShape(windows, front);
      CarveAllShape(Without(windows, front), last);
      NonEmptyElements(CarveAll(Without(windows, front), last));
      if Ordered(windows) {
        NonEmptyOrdered(CarveAll(Without(windows, front), last));
      }
    }
  }

  // ----- All free time together

  /** The rules a new block must meet, apart from the clock and the deadline. */
  predicate Permitted(problem: SchedulingProblem, start: int, end: int) {
    && Fits(problem.windows, start, end)
    && InStudyHours(problem.preferences, start, end)
    && Untouched(problem.busy, start, end)
    && Untouched(LockedTime(problem.locked), start, end)
  }

  lemma FreeWindowsArePermitted(problem: SchedulingProblem, start: int, end: int)
    requires problem.preferences.Valid()
    requires Aligned(start) && Aligned(end) && start < end
    ensures Fits(FreeWindows(problem), start, end) <==> Permitted(problem, start, end)
  {
    var clipped := Clipped(problem.windows, problem.preferences);
    ClippingKeepsStudyBlocks(problem.windows, problem.preferences, start, end);
    SubtractionKeepsUntouched(clipped, problem.busy, start, end);
    SubtractionKeepsUntouched(Without(clipped, problem.busy), LockedTime(problem.locked), start, end);
  }

  lemma FreeWindowsShape(problem: SchedulingProblem)
    requires problem.Valid()
    ensures AllAligned(FreeWindows(problem)) && AllNonEmpty(FreeWindows(problem))
    ensures Ordered(problem.windows) ==> Ordered(FreeWindows(problem))
  {
    var clipped := Clipped(problem.windows, problem.preferences);
    ClippingShape(problem.windows, problem.preferences);
    SubtractionShape(clipped, problem.busy);
    forall b | b in LockedTime(problem.locked)
      ensures b.start < b.end
    {
      var i :| 0 <= i < |problem.locked| && LockedTime(problem.locked)[i] == b;
      assert problem.locked[i] in problem.locked;
    }
    SubtractionShape(Without(clipped, problem.busy), LockedTime(problem.locked));
  }
}
