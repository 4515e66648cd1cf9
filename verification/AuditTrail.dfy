/** The append-only audit log and the order its timestamps give. */
module AuditTrail {
  import opened Wrappers
  import opened WorkflowStates

  datatype Kind = StateChanged(from: Status, to: Status) | Note(name: string)

  datatype Event = Event(run: nat, kind: Kind, createdAt: int)

  /** The latest timestamp handed out, and the events. */
  datatype Log = Log(last: Option<int>, events: seq<Event>)

  /** The reading of the clock for the n-th event. Readings may repeat or go back. */
  type Clock = nat -> int

  function Stamp(log: Log, now: int): int {
    if log.last.Some? && now <= log.last.value then log.last.value + 1 else now
  }

  function Recorded(log: Log, run: nat, kind: Kind, clock: Clock): Log {
    var instant := Stamp(log, clock(|log.events|));
    Log(Some(instant), log.events + [Event(run, kind, instant)])
  }

  class Recorder {
    var last: Option<int>
    var events: seq<Event>

    function State(): Log
      reads this
    {
      Log(last, events)
    }

    constructor ()
      ensures State() == Log(None, [])
    {
      last := None;
      events := [];
    }

    method Record(run: nat, kind: Kind, clock: Clock)
      modifies this
      ensures State() == Recorded(old(State()), run, kind, clock)
      ensures |events| == |old(events)| + 1 && events[..|old(events)|] == old(events)
      ensures events[|old(events)|].run == run && events[|old(events)|].kind == kind
      ensures Ordered(old(State())) ==> Ordered(State())
      ensures Ordered(old(State())) ==> forall e :: e in old(events) ==> e.createdAt < events[|events| - 1].createdAt
    {
      if Ordered(State()) {
        RecordKeepsOrder(State(), run, kind, clock);
        StampIsLatest(State(), clock(|events|));
      }
      var instant := clock(|events|);
      if last.Some? && instant <= last.value {
        instant := last.value + 1;
      }
      last := Some(instant);
      events := events + [Event(run, kind, instant)];
    }

    /** Undoes the events of an aborted transaction; the latest timestamp is kept. */
    method RollBack(kept: seq<Event>)
      modifies this
      ensures State() == Log(old(last), kept)
    {
      events := kept;
    }
  }

  // ----- The order of the timestamps

  predicate Increasing(events: seq<Event>) {
    |events| >= 2 ==>
      && Increasing(events[..|events| - 1])
      && events[|events| - 2].createdAt < events[|events| - 1].createdAt
  }

  /** Strictly increasing timestamps, none later than the latest handed out. */
  predicate Ordered(log: Log) {
    && Increasing(log.events)
    && (log.events != [] ==> log.last.Some? && log.events[|log.events| - 1].createdAt <= log.last.value)
  }

  lemma {:induction false} IncreasingPairs(events: seq<Event>, i: nat, j: nat)
    requires Increasing(events) && i < j < |events|
    ensures events[i].createdAt < events[j].createdAt
  {
    if j < |events| - 1 {
      IncreasingPairs(events[..|events| - 1], i, j);
    } else if i < |events| - 2 {
      IncreasingPairs(events[..|events| - 1], i, |events| - 2);
    }
  }

  lemma {:induction false} IncreasingPrefix(events: seq<Event>, count: nat)
    requires Increasing(events) && count <= |events|
    ensures Increasing(events[..count])
  {
    if count < |events| {
      assert events[..|events| - 1][..count] == events[..count];
      IncreasingPrefix(events[..|events| - 1], count);
    } else {
      assert events[..count] == events;
    }
  }

  lemma RecordKeepsOrder(log: Log, run: nat, kind: Kind, clock: Clock)
    requires Ordered(log)
    ensures Ordered(Recorded(log, run, kind, clock))
  {
    var events := Recorded(log, run, kind, clock).events;
    assert events[..|events| - 1] == log.events;
  }

  /** A new timestamp is later than every one given before. */
  lemma StampIsLatest(log: Log, now: int)
    requires Ordered(log)
    ensures forall e :: e in log.events ==> e.createdAt < Stamp(log, now)
  {
    forall e | e in log.events
      ensures e.createdAt < Stamp(log, now)
    {
      LatestIsLast(log.events, e);
    }
  }

  /** The row that is added, and its timestamp: the earliest that is neither before the clock's reading
      nor at or before the latest one given. So the clock's own reading is kept whenever it can be. */
  lemma RecordedRow(log: Log, run: nat, kind: Kind, clock: Clock)
    ensures var after, now := Recorded(log, run, kind, clock), clock(|log.events|);
      && after.last.Some?
      && after.events == log.events + [Event(run, kind, after.last.value)]
      && MayStamp(log, now, after.last.value)
      && forall t :: MayStamp(log, now, t) ==> after.last.value <= t
  {
  }

  /** A timestamp that is not before the clock's reading and later than every one given. */
  predicate MayStamp(log: Log, now: int, t: int) {
    now <= t && (log.last.Some? ==> log.last.value < t)
  }

  /** An aborted transaction loses its events but not the watermark: later events still come after
      every event kept. */
  lemma RollBackKeepsOrder(log: Log, count: nat)
    requires Ordered(log) && count <= |log.events|
    ensures Ordered(Log(log.last, log.events[..count]))
  {
    IncreasingPrefix(log.events, count);
    if 0 < count < |log.events| {
      IncreasingPairs(log.events, count - 1, |log.events| - 1);
    }
  }

  /** Reading the log back in timestamp order gives the order in which the events happened, for
      whatever order the rows are stored in. */
  lemma {:induction false} TimestampsGiveOrder(log: Log, read: seq<Event>)
    requires Ordered(log)
    requires multiset(read) == multiset(log.events) && Increasing(read)
    ensures read == log.events
  {
    IncreasingIsUnique(read, log.events);
  }

  lemma LatestIsLast(events: seq<Event>, e: Event)
    requires Increasing(events) && e in events
    ensures e.createdAt <= events[|events| - 1].createdAt
    ensures e.createdAt == events[|events| - 1].createdAt ==> e == events[|events| - 1]
  {
    var i :| 0 <= i < |events| && events[i] == e;
    if i < |events| - 1 {
      IncreasingPairs(events, i, |events| - 1);
    }
  }

  lemma DropLast(events: seq<Event>)
    requires events != []
    ensures multiset(events[..|events| - 1]) == multiset(events) - multiset{events[|events| - 1]}
  {
    assert events == events[..|events| - 1] + [events[|events| - 1]];
  }

  lemma SameLast(a: seq<Event>, b: seq<Event>)
    requires multiset(a) == multiset(b) && Increasing(a) && Increasing(b) && a != [] && b != []
    ensures a[|a| - 1] == b[|b| - 1]
  {
    var x, y := a[|a| - 1], b[|b| - 1];
    assert x in multiset(a) && y in multiset(b);
    LatestIsLast(b, x);
    LatestIsLast(a, y);
  }

  lemma {:induction false} IncreasingIsUnique(a: seq<Event>, b: seq<Event>)
    requires multiset(a) == multiset(b) && Increasing(a) && Increasing(b)
    ensures a == b
    decreases |a|
  {
    assert |a| == |multiset(a)| == |multiset(b)| == |b|;
    if a != [] {
      SameLast(a, b);
      DropLast(a);
      DropLast(b);
      IncreasingIsUnique(a[..|a| - 1], b[..|b| - 1]);
      assert a == a[..|a| - 1] + [a[|a| - 1]];
    }
  }

  // ----- Replaying a run

  /** The states of a run as its events tell them, from creation on. */
  function History(events: seq<Event>, run: nat): (states: seq<Status>)
    ensures states != [] && states[0] == Draft
  {
    if events == [] then [Draft]
    else
      var last := events[|events| - 1];
      History(events[..|events| - 1], run)
      + if last.run == run && last.kind.StateChanged? then [last.kind.to] else []
  }

  function Replayed(events: seq<Event>, run: nat): Status {
    var states := History(events, run);
    states[|states| - 1]
  }

  /** The state that the events lead to, if each change starts where the one before it ended and
      stays in the table. */
  function Story(events: seq<Event>, run: nat): Option<Status> {
    if events == [] then Some(Draft)
    else
      var before, last := Story(events[..|events| - 1], run), events[|events| - 1];
      if last.run != run || !last.kind.StateChanged? then before
      else if before == Some(last.kind.from) && last.kind.to in Targets(last.kind.from) then Some(last.kind.to)
      else None
  }

  /** A story that holds together is a path through the table, from creation to the replayed state. */
  lemma {:induction false} StoryIsPath(events: seq<Event>, run: nat)
    requires Story(events, run).Some?
    ensures Path(History(events, run)) && Replayed(events, run) == Story(events, run).value
  {
    if events != [] {
      var front, last := events[..|events| - 1], events[|events| - 1];
      StoryIsPath(front, run);
      if last.run == run && last.kind.StateChanged? {
        PathExtends(History(front, run), last.kind.to);
      } else {
        assert History(events, run) == History(front, run);
      }
    }
  }

  lemma PathExtends(states: seq<Status>, target: Status)
    requires Path(states) && states != [] && target in Targets(states[|states| - 1])
    ensures Path(states + [target])
  {
    assert (states + [target])[..|states|] == states;
  }
}
