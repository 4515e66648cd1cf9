/** The hard constraints posted to the solver, and what a selection that satisfies them means. */
module ConstraintModel {
  import opened Timeline
  import opened SchedulingModels
  import opened Sorting
  import opened LinearSums
  import opened Candidates

  /** A posted constraint: the linear expression is at most the bound. */
  datatype Linear = Linear(coefficients: seq<int>, bound: int)

  predicate Holds(constraint: Linear, chosen: seq<bool>) {
    |constraint.coefficients| == |chosen| && Dot(constraint.coefficients, chosen) <= constraint.bound
  }

  predicate AllHold(constraints: seq<Linear>, chosen: seq<bool>) {
    forall k :: 0 <= k < |constraints| ==> Holds(constraints[k], chosen)
  }

  // ----- The rules, stated over pairs and tasks

  /** Two slots that overlap once the break is added after either of them. */
  predicate TooClose(a: CandidateSlot, b: CandidateSlot, gap: int) {
    Overlaps(a.start, a.end + gap, b.start, b.end) || Overlaps(b.start, b.end + gap, a.start, a.end)
  }

  predicate SameFragment(a: CandidateSlot, b: CandidateSlot) {
    a.task.id == b.task.id && a.fragmentId == b.fragmentId
  }

  predicate RespectsBreaks(candidates: seq<CandidateSlot>, gap: int, chosen: seq<bool>)
    requires |candidates| == |chosen|
  {
    forall i, j :: 0 <= i < j < |chosen| && chosen[i] && chosen[j] ==> !TooClose(candidates[i], candidates[j], gap)
  }

  predicate OnePerFragment(candidates: seq<CandidateSlot>, chosen: seq<bool>)
    requires |candidates| == |chosen|
  {
    forall i, j :: 0 <= i < j < |chosen| && chosen[i] && chosen[j] ==> !SameFragment(candidates[i], candidates[j])
  }

  function TaskMinutes(candidates: seq<CandidateSlot>, taskId: string): seq<int> {
    seq(|candidates|, i requires 0 <= i < |candidates| =>
      if candidates[i].task.id == taskId then candidates[i].minutes else 0)
  }

  predicate WithinRequirements(problem: SchedulingProblem, candidates: seq<CandidateSlot>, chosen: seq<bool>)
    requires |candidates| == |chosen|
  {
    forall t :: t in problem.tasks ==> Dot(TaskMinutes(candidates, t.id), chosen) <= Requirement(problem, t)
  }

  predicate Feasible(problem: SchedulingProblem, candidates: seq<CandidateSlot>, chosen: seq<bool>) {
    && |candidates| == |chosen|
    && RespectsBreaks(candidates, problem.preferences.BreakTicks(), chosen)
    && OnePerFragment(candidates, chosen)
    && WithinRequirements(problem, candidates, chosen)
  }

  // ----- The sweep over candidates in start order

  function StartAt(candidates: seq<CandidateSlot>, index: int): int {
    if 0 <= index < |candidates| then candidates[index].start else 0
  }

  function ByStart(candidates: seq<CandidateSlot>): (nat, nat) -> bool {
    (a, b) => StartAt(candidates, a) <= StartAt(candidates, b)
  }

  function Indices(n: nat): seq<nat> {
    seq(n, i => i)
  }

  function StartOrder(candidates: seq<CandidateSlot>): seq<nat> {
    Sort(Indices(|candidates|), ByStart(candidates))
  }

  lemma StartOrderShape(candidates: seq<CandidateSlot>)
    ensures |StartOrder(candidates)| == |candidates|
    ensures forall i :: i in StartOrder(candidates) <==> 0 <= i < |candidates|
    ensures forall p, q :: 0 <= p < q < |candidates| ==> StartOrder(candidates)[p] != StartOrder(candidates)[q]
    ensures forall p :: 0 <= p < |candidates| ==> 0 <= StartOrder(candidates)[p] < |candidates|
    ensures forall p, q :: 0 <= p < q < |candidates|
              ==> candidates[StartOrder(candidates)[p]].start <= candidates[StartOrder(candidates)[q]].start
  {
    var indices, le := Indices(|candidates|), ByStart(candidates);
    SortElements(indices, le);
    forall i
      ensures i in StartOrder(candidates) <==> 0 <= i < |candidates|
    {
      if 0 <= i < |candidates| {
        assert indices[i] == i;
      }
    }
    StartOrderDistinct(candidates);
    StartOrderSorted(candidates);
    assert forall p :: 0 <= p < |candidates| ==> StartOrder(candidates)[p] in StartOrder(candidates);
    forall p, q | 0 <= p < q < |candidates|
      ensures candidates[StartOrder(candidates)[p]].start <= candidates[StartOrder(candidates)[q]].start
    {
      assert StartAt(candidates, StartOrder(candidates)[p]) <= StartAt(candidates, StartOrder(candidates)[q]);
    }
  }

  lemma StartOrderDistinct(candidates: seq<CandidateSlot>)
    ensures forall p, q :: 0 <= p < q < |StartOrder(candidates)|
             ==> StartOrder(candidates)[p] != StartOrder(candidates)[q]
  {
    var distinct := (a: nat, b: nat) => a != b;
    assert Pairwise(Indices(|candidates|), distinct);
    SortPairwise(Indices(|candidates|), ByStart(candidates), distinct);
    forall p, q | 0 <= p < q < |StartOrder(candidates)|
      ensures StartOrder(candidates)[p] != StartOrder(candidates)[q]
    {
      assert distinct(StartOrder(candidates)[p], StartOrder(candidates)[q]);
    }
  }

  lemma StartOrderSorted(candidates: seq<CandidateSlot>)
    ensures forall p, q :: 0 <= p < q < |StartOrder(candidates)|
              ==> StartAt(candidates, StartOrder(candidates)[p]) <= StartAt(candidates, StartOrder(candidates)[q])
  {
    var le := ByStart(candidates);
    SortIsSorted(Indices(|candidates|), le);
    forall p, q | 0 <= p < q < |StartOrder(candidates)|
      ensures StartAt(candidates, StartOrder(candidates)[p]) <= StartAt(candidates, StartOrder(candidates)[q])
    {
      assert le(StartOrder(candidates)[p], StartOrder(candidates)[q]);
    }
  }

  predicate Lexicographic(a: (nat, nat), b: (nat, nat)) {
    a.0 < b.0 || (a.0 == b.0 && a.1 < b.1)
  }

  /** The positions after `position` whose slots are too close to the slot there. The scan stops at
      the first slot that starts after the break is over. */
  method ClosePositions(candidates: seq<CandidateSlot>, gap: int, order: seq<nat>, position: nat)
    returns (close: seq<nat>)
    requires 0 <= gap && position < |order|
    requires forall p :: 0 <= p < |order| ==> order[p] < |candidates|
    requires forall p, q :: 0 <= p < q < |order| ==> candidates[order[p]].start <= candidates[order[q]].start
    ensures forall k :: 0 <= k < |close| ==> position < close[k] < |order|
    ensures forall k, l :: 0 <= k < l < |close| ==> close[k] < close[l]
    ensures forall q :: position < q < |order|
              ==> (TooClose(candidates[order[position]], candidates[order[q]], gap) <==> q in close)
  {
    var left := candidates[order[position]];
    var cutoff := left.end + gap;
    close := [];
    var next := position + 1;
    while next < |order| && candidates[order[next]].start < cutoff
      invariant position < next <= |order|
      invariant forall k :: 0 <= k < |close| ==> position < close[k] < next
      invariant forall k, l :: 0 <= k < l < |close| ==> close[k] < close[l]
      invariant forall q :: position < q < next ==> (TooClose(left, candidates[order[q]], gap) <==> q in close)
    {
      var right := candidates[order[next]];
      if TooClose(left, right, gap) {
        close := close + [next];
      }
      next := next + 1;
    }
    forall q | next <= q < |order|
      ensures !TooClose(left, candidates[order[q]], gap)
    {
      assert cutoff <= candidates[order[next]].start <= candidates[order[q]].start;
      assert left.start <= candidates[order[q]].start;
    }
  }

  /** The sweep with its early break posts exactly the pairs an all-pairs comparison would, each
      once. */
  method OverlapPairs(candidates: seq<CandidateSlot>, gap: int) returns (pairs: seq<(nat, nat)>)
    requires 0 <= gap
    ensures forall k :: 0 <= k < |pairs|
              ==> pairs[k].0 < |candidates| && pairs[k].1 < |candidates| && pairs[k].0 != pairs[k].1
    ensures forall i, j :: 0 <= i < |candidates| && 0 <= j < |candidates| && i != j
              ==> (TooClose(candidates[i], candidates[j], gap) <==> (i, j) in pairs || (j, i) in pairs)
    ensures forall k, l :: 0 <= k < l < |pairs| ==> pairs[k] != pairs[l] && pairs[k] != (pairs[l].1, pairs[l].0)
  {
    var order := StartOrder(candidates);
    StartOrderShape(candidates);
    var n := |order|;
    pairs := [];
    ghost var at: seq<(nat, nat)> := [];
    for position := 0 to n
      invariant SweptShape(order, position, pairs, at)
      invariant SweptClose(candidates, gap, order, position, at)
    {
      var close := ClosePositions(candidates, gap, order, position);
      var row := seq(|close|, k requires 0 <= k < |close| => (order[position], order[close[k]]));
      ghost var added := seq(|close|, k requires 0 <= k < |close| => (position, close[k]));
      AddedRow(candidates, gap, order, position, at, close, added);
      AddedShape(order, position, pairs, at, close, row, added);
      pairs, at := pairs + row, at + added;
    }
    PairsOfPositions(order, pairs, at);
    PairsCoverIndices(candidates, gap, order, pairs, at);
  }

  /** `at` lists the posted pairs by their positions in start order, row by row. */
  ghost predicate SweptShape(order: seq<nat>, position: nat, pairs: seq<(nat, nat)>, at: seq<(nat, nat)>) {
    && |at| == |pairs|
    && (forall k :: 0 <= k < |at| ==> at[k].0 < at[k].1 < |order| && at[k].0 < position)
    && (forall k :: 0 <= k < |at| ==> pairs[k] == (order[at[k].0], order[at[k].1]))
    && (forall k, l :: 0 <= k < l < |at| ==> Lexicographic(at[k], at[l]))
  }

  ghost predicate SweptClose(candidates: seq<CandidateSlot>, gap: int, order: seq<nat>, position: nat,
                             at: seq<(nat, nat)>)
    requires forall p :: 0 <= p < |order| ==> order[p] < |candidates|
  {
    forall p, q :: 0 <= p < position && p < q < |order|
      ==> (TooClose(candidates[order[p]], candidates[order[q]], gap) <==> (p, q) in at)
  }

  lemma AddedShape(order: seq<nat>, position: nat, pairs: seq<(nat, nat)>, at: seq<(nat, nat)>, close: seq<nat>,
                   row: seq<(nat, nat)>, added: seq<(nat, nat)>)
    requires position < |order| && SweptShape(order, position, pairs, at)
    requires forall k :: 0 <= k < |close| ==> position < close[k] < |order|
    requires forall k, l :: 0 <= k < l < |close| ==> close[k] < close[l]
    requires |row| == |added| == |close|
    requires forall k :: 0 <= k < |close|
              ==> added[k] == (position, close[k]) && row[k] == (order[position], order[close[k]])
    ensures SweptShape(order, position + 1, pairs + row, at + added)
  {
  }

  lemma AddedRow(candidates: seq<CandidateSlot>, gap: int, order: seq<nat>, position: nat, at: seq<(nat, nat)>,
                 close: seq<nat>, added: seq<(nat, nat)>)
    requires position < |order|
    requires forall p :: 0 <= p < |order| ==> order[p] < |candidates|
    requires forall k :: 0 <= k < |at| ==> at[k].0 < position
    requires SweptClose(candidates, gap, order, position, at)
    requires forall q :: position < q < |order|
               ==> (TooClose(candidates[order[position]], candidates[order[q]], gap) <==> q in close)
    requires |added| == |close| && forall k :: 0 <= k < |close| ==> added[k] == (position, close[k])
    ensures SweptClose(candidates, gap, order, position + 1, at + added)
  {
    forall p, q | 0 <= p < position + 1 && p < q < |order|
      ensures TooClose(candidates[order[p]], candidates[order[q]], gap) <==> (p, q) in at + added
    {
      assert (p, q) in at + added <==> (p, q) in at || (p, q) in added;
      if p < position {
        assert (p, q) !in added;
      } else {
        assert (p, q) !in at;
        if q in close {
          var k :| 0 <= k < |close| && close[k] == q;
          assert added[k] == (position, q);
        }
      }
    }
  }

  lemma PairsCoverIndices(candidates: seq<CandidateSlot>, gap: int, order: seq<nat>, pairs: seq<(nat, nat)>,
                          at: seq<(nat, nat)>)
    requires forall p :: 0 <= p < |order| ==> order[p] < |candidates|
    requires forall i :: i in order <==> 0 <= i < |candidates|
    requires forall k :: 0 <= k < |at| ==> at[k].0 < at[k].1 < |order|
    requires forall p, q :: 0 <= p < |order| && 0 <= q < |order| ==> ((order[p], order[q]) in pairs <==> (p, q) in at)
    requires forall p, q :: 0 <= p < q < |order|
               ==> (TooClose(candidates[order[p]], candidates[order[q]], gap) <==> (p, q) in at)
    ensures forall i, j :: 0 <= i < |candidates| && 0 <= j < |candidates| && i != j
              ==> (TooClose(candidates[i], candidates[j], gap) <==> (i, j) in pairs || (j, i) in pairs)
  {
    forall i, j | 0 <= i < |candidates| && 0 <= j < |candidates| && i != j
      ensures TooClose(candidates[i], candidates[j], gap) <==> (i, j) in pairs || (j, i) in pairs
    {
      assert i in order && j in order;
      var p :| 0 <= p < |order| && order[p] == i;
      var q :| 0 <= q < |order| && order[q] == j;
      assert (order[p], order[q]) in pairs <==> (p, q) in at;
      assert (order[q], order[p]) in pairs <==> (q, p) in at;
    }
  }

  /** Pairs of indices correspond one to one to pairs of positions in an order without repeats. */
  lemma PairsOfPositions(order: seq<nat>, pairs: seq<(nat, nat)>, at: seq<(nat, nat)>)
    requires forall p, q :: 0 <= p < q < |order| ==> order[p] != order[q]
    requires |at| == |pairs|
    requires forall k :: 0 <= k < |at| ==> at[k].0 < at[k].1 < |order| && pairs[k] == (order[at[k].0], order[at[k].1])
    requires forall k, l :: 0 <= k < l < |at| ==> Lexicographic(at[k], at[l])
    ensures forall p, q :: 0 <= p < |order| && 0 <= q < |order| ==> ((order[p], order[q]) in pairs <==> (p, q) in at)
    ensures forall k, l :: 0 <= k < l < |pairs| ==> pairs[k] != pairs[l] && pairs[k] != (pairs[l].1, pairs[l].0)
  {
    forall p, q | 0 <= p < |order| && 0 <= q < |order|
      ensures (order[p], order[q]) in pairs <==> (p, q) in at
    {
      if (order[p], order[q]) in pairs {
        var k :| 0 <= k < |pairs| && pairs[k] == (order[p], order[q]);
        assert at[k] == (p, q);
      }
      if (p, q) in at {
        var k :| 0 <= k < |at| && at[k] == (p, q);
        assert pairs[k] == (order[p], order[q]);
      }
    }
  }

  /** Selections that keep away from every close pair leave the break between any two sessions. */
  lemma BreaksMeanSeparation(a: CandidateSlot, b: CandidateSlot, gap: int)
    requires a.start < a.end && b.start < b.end && 0 <= gap
    ensures !TooClose(a, b, gap) <==> Separated(a.start, a.end, b.start, b.end, gap)
  {
  }

  // ----- Posting the model

  function PairCoefficients(n: nat, pair: (nat, nat)): seq<int> {
    seq(n, k => if k == pair.0 || k == pair.1 then 1 else 0)
  }

  function MemberCoefficients(n: nat, members: seq<nat>): seq<int> {
    seq(n, k => if k in members then 1 else 0)
  }

  function FragmentKey(c: CandidateSlot): (string, nat) {
    (c.task.id, c.fragmentId)
  }

  /** The groups list, for every piece, the candidates that place it. */
  ghost predicate GroupsBy(candidates: seq<CandidateSlot>, keys: seq<(string, nat)>,
                           groups: map<(string, nat), seq<nat>>) {
    && (forall key :: key in keys <==> key in groups)
    && (forall i :: 0 <= i < |candidates| ==> FragmentKey(candidates[i]) in groups)
    && (forall key :: key in groups ==> Lists(candidates, key, groups[key]))
  }

  /** The members are the candidates that place this piece. */
  ghost predicate Lists(candidates: seq<CandidateSlot>, key: (string, nat), members: seq<nat>) {
    && (forall i :: i in members ==> i < |candidates| && FragmentKey(candidates[i]) == key)
    && (forall i :: 0 <= i < |candidates| && FragmentKey(candidates[i]) == key ==> i in members)
  }

  /** The groups once one more candidate has joined that of its piece. */
  function Joined(groups: map<(string, nat), seq<nat>>, key: (string, nat), i: nat): map<(string, nat), seq<nat>> {
    groups[key := (if key in groups then groups[key] else []) + [i]]
  }

  lemma GroupsGrow(candidates: seq<CandidateSlot>, i: nat, keys: seq<(string, nat)>,
                   groups: map<(string, nat), seq<nat>>)
    requires i < |candidates| && GroupsBy(candidates[..i], keys, groups)
    ensures var key := FragmentKey(candidates[i]);
      GroupsBy(candidates[..i + 1], if key in groups then keys else keys + [key], Joined(groups, key, i))
  {
    var before, after, key := candidates[..i], candidates[..i + 1], FragmentKey(candidates[i]);
    assert after == before + [candidates[i]];
    var grown := Joined(groups, key, i);
    forall k | k in grown
      ensures Lists(after, k, grown[k])
    {
      if k == key {
        ListsGrow(before, candidates[i], key, if key in groups then groups[key] else []);
      } else {
        ListsStay(before, candidates[i], k, groups[k]);
      }
    }
  }

  lemma ListsGrow(before: seq<CandidateSlot>, c: CandidateSlot, key: (string, nat), members: seq<nat>)
    requires Lists(before, key, members) && FragmentKey(c) == key
    ensures Lists(before + [c], key, members + [|before|])
  {
    forall i | 0 <= i < |before + [c]| && FragmentKey((before + [c])[i]) == key
      ensures i in members + [|before|]
    {
      assert i < |before| ==> FragmentKey(before[i]) == key;
    }
  }

  lemma ListsStay(before: seq<CandidateSlot>, c: CandidateSlot, key: (string, nat), members: seq<nat>)
    requires Lists(before, key, members) && FragmentKey(c) != key
    ensures Lists(before + [c], key, members)
  {
    forall i | 0 <= i < |before + [c]| && FragmentKey((before + [c])[i]) == key
      ensures i in members
    {
      assert FragmentKey(before[i]) == key;
    }
  }

  method FragmentGroups(candidates: seq<CandidateSlot>)
    returns (keys: seq<(string, nat)>, groups: map<(string, nat), seq<nat>>)
    ensures GroupsBy(candidates, keys, groups)
  {
    keys, groups := [], map[];
    for i := 0 to |candidates|
      invariant GroupsBy(candidates[..i], keys, groups)
    {
      var key := FragmentKey(candidates[i]);
      GroupsGrow(candidates, i, keys, groups);
      ghost var grown := Joined(groups, key, i);
      if key !in groups {
        keys := keys + [key];
        groups := groups[key := []];
      }
      groups := groups[key := groups[key] + [i]];
      assert groups == grown;
    }
    assert candidates[..|candidates|] == candidates;
  }

  method PostOverlaps(candidates: seq<CandidateSlot>, gap: int) returns (constraints: seq<Linear>)
    requires 0 <= gap
    ensures forall chosen :: |chosen| == |candidates|
             ==> (AllHold(constraints, chosen) <==> RespectsBreaks(candidates, gap, chosen))
  {
    var pairs := OverlapPairs(candidates, gap);
    constraints := [];
    for k := 0 to |pairs|
      invariant |constraints| == k
      invariant forall l :: 0 <= l < k ==> constraints[l] == Linear(PairCoefficients(|candidates|, pairs[l]), 1)
    {
      constraints := constraints + [Linear(PairCoefficients(|candidates|, pairs[k]), 1)];
    }
    forall chosen: seq<bool> | |chosen| == |candidates|
      ensures AllHold(constraints, chosen) <==> RespectsBreaks(candidates, gap, chosen)
    {
      PairsHold(candidates, gap, pairs, constraints, chosen);
    }
  }

  method PostFragments(candidates: seq<CandidateSlot>) returns (constraints: seq<Linear>)
    ensures forall chosen :: |chosen| == |candidates|
             ==> (AllHold(constraints, chosen) <==> OnePerFragment(candidates, chosen))
  {
    var keys, groups := FragmentGroups(candidates);
    constraints := [];
    for k := 0 to |keys|
      invariant |constraints| == k
      invariant forall l :: 0 <= l < k
                 ==> constraints[l] == Linear(MemberCoefficients(|candidates|, groups[keys[l]]), 1)
    {
      constraints := constraints + [Linear(MemberCoefficients(|candidates|, groups[keys[k]]), 1)];
    }
    forall chosen: seq<bool> | |chosen| == |candidates|
      ensures AllHold(constraints, chosen) <==> OnePerFragment(candidates, chosen)
    {
      GroupsHold(candidates, keys, groups, constraints, chosen);
    }
  }

  method PostRequirements(problem: SchedulingProblem, candidates: seq<CandidateSlot>) returns (constraints: seq<Linear>)
    ensures forall chosen :: |chosen| == |candidates|
              ==> (AllHold(constraints, chosen) <==> WithinRequirements(problem, candidates, chosen))
  {
    constraints := [];
    for k := 0 to |problem.tasks|
      invariant |constraints| == k
      invariant forall l :: 0 <= l < k
                  ==> constraints[l]
                      == Linear(TaskMinutes(candidates, problem.tasks[l].id), Requirement(problem, problem.tasks[l]))
    {
      var task := problem.tasks[k];
      constraints := constraints + [Linear(TaskMinutes(candidates, task.id), Requirement(problem, task))];
    }
    forall chosen: seq<bool> | |chosen| == |candidates|
      ensures AllHold(constraints, chosen) <==> WithinRequirements(problem, candidates, chosen)
    {
      LimitsHold(problem, candidates, constraints, chosen);
    }
  }

  /** The model built by the scheduler admits exactly the selections that keep breaks, place each
      piece at most once and stay within every task's requirement. */
  method PostModel(problem: SchedulingProblem, candidates: seq<CandidateSlot>) returns (constraints: seq<Linear>)
    requires problem.Valid()
    ensures forall chosen :: |chosen| == |candidates|
             ==> (AllHold(constraints, chosen) <==> Feasible(problem, candidates, chosen))
  {
    var overlaps := PostOverlaps(candidates, problem.preferences.BreakTicks());
    var fragments := PostFragments(candidates);
    var limits := PostRequirements(problem, candidates);
    constraints := overlaps + fragments + limits;
    forall chosen: seq<bool> | |chosen| == |candidates|
      ensures AllHold(constraints, chosen) <==> Feasible(problem, candidates, chosen)
    {
      AllHoldConcat(overlaps + fragments, limits, chosen);
      AllHoldConcat(overlaps, fragments, chosen);
    }
  }

  lemma AllHoldConcat(a: seq<Linear>, b: seq<Linear>, chosen: seq<bool>)
    ensures AllHold(a + b, chosen) <==> AllHold(a, chosen) && AllHold(b, chosen)
  {
    if AllHold(a + b, chosen) {
      forall k | 0 <= k < |a|
        ensures Holds(a[k], chosen)
      {
        assert (a + b)[k] == a[k];
      }
      forall k | 0 <= k < |b|
        ensures Holds(b[k], chosen)
      {
        assert (a + b)[|a| + k] == b[k];
      }
    }
  }

  lemma PairHolds(n: nat, pair: (nat, nat), chosen: seq<bool>)
    requires |chosen| == n && pair.0 < n && pair.1 < n && pair.0 != pair.1
    ensures Holds(Linear(PairCoefficients(n, pair), 1), chosen) <==> !(chosen[pair.0] && chosen[pair.1])
  {
    AtMostOneChosen(PairCoefficients(n, pair), chosen);
    var coefficients := PairCoefficients(n, pair);
    assert coefficients[pair.0] == 1 && coefficients[pair.1] == 1;
  }

  lemma PairsHold(candidates: seq<CandidateSlot>, gap: int, pairs: seq<(nat, nat)>, overlap: seq<Linear>,
                  chosen: seq<bool>)
    requires |chosen| == |candidates| && |overlap| == |pairs|
    requires forall k :: 0 <= k < |pairs|
               ==> pairs[k].0 < |candidates| && pairs[k].1 < |candidates| && pairs[k].0 != pairs[k].1
    requires forall i, j :: 0 <= i < |candidates| && 0 <= j < |candidates| && i != j
               ==> (TooClose(candidates[i], candidates[j], gap) <==> (i, j) in pairs || (j, i) in pairs)
    requires forall k :: 0 <= k < |pairs| ==> overlap[k] == Linear(PairCoefficients(|candidates|, pairs[k]), 1)
    ensures AllHold(overlap, chosen) <==> RespectsBreaks(candidates, gap, chosen)
  {
    forall k | 0 <= k < |pairs|
      ensures Holds(overlap[k], chosen) <==> !(chosen[pairs[k].0] && chosen[pairs[k].1])
    {
      PairHolds(|candidates|, pairs[k], chosen);
    }
    if RespectsBreaks(candidates, gap, chosen) {
      forall k | 0 <= k < |pairs|
        ensures Holds(overlap[k], chosen)
      {
        var i, j := pairs[k].0, pairs[k].1;
        assert (i, j) in pairs;
        assert TooClose(candidates[i], candidates[j], gap) && TooClose(candidates[j], candidates[i], gap);
      }
    }
    if AllHold(overlap, chosen) {
      forall i, j | 0 <= i < j < |chosen| && chosen[i] && chosen[j]
        ensures !TooClose(candidates[i], candidates[j], gap)
      {
      }
    }
  }

  lemma GroupHolds(candidates: seq<CandidateSlot>, members: seq<nat>, key: (string, nat), chosen: seq<bool>)
    requires |chosen| == |candidates|
    requires Lists(candidates, key, members)
    ensures Holds(Linear(MemberCoefficients(|candidates|, members), 1), chosen)
            <==> forall i, j :: 0 <= i < j < |chosen| && chosen[i] && chosen[j]
                   ==> !(FragmentKey(candidates[i]) == key && FragmentKey(candidates[j]) == key)
  {
    AtMostOneChosen(MemberCoefficients(|candidates|, members), chosen);
  }

  lemma GroupsHold(candidates: seq<CandidateSlot>, keys: seq<(string, nat)>, groups: map<(string, nat), seq<nat>>,
                   fragments: seq<Linear>, chosen: seq<bool>)
    requires |chosen| == |candidates| && |fragments| == |keys|
    requires GroupsBy(candidates, keys, groups)
    requires forall k :: 0 <= k < |keys|
              ==> fragments[k] == Linear(MemberCoefficients(|candidates|, groups[keys[k]]), 1)
    ensures AllHold(fragments, chosen) <==> OnePerFragment(candidates, chosen)
  {
    if OnePerFragment(candidates, chosen) {
      forall k | 0 <= k < |keys|
        ensures Holds(fragments[k], chosen)
      {
        assert keys[k] in keys;
        GroupHolds(candidates, groups[keys[k]], keys[k], chosen);
      }
    }
    if AllHold(fragments, chosen) {
      forall i, j | 0 <= i < j < |chosen| && chosen[i] && chosen[j]
        ensures !SameFragment(candidates[i], candidates[j])
      {
        var key := FragmentKey(candidates[i]);
        var k :| 0 <= k < |keys| && keys[k] == key;
        assert Holds(fragments[k], chosen);
        assert key in keys && key in groups;
        GroupHolds(candidates, groups[key], key, chosen);
      }
    }
  }

  lemma LimitsHold(problem: SchedulingProblem, candidates: seq<CandidateSlot>, limits: seq<Linear>, chosen: seq<bool>)
    requires |chosen| == |candidates| && |limits| == |problem.tasks|
    requires forall k :: 0 <= k < |limits|
               ==> limits[k]
                   == Linear(TaskMinutes(candidates, problem.tasks[k].id), Requirement(problem, problem.tasks[k]))
    ensures AllHold(limits, chosen) <==> WithinRequirements(problem, candidates, chosen)
  {
    if AllHold(limits, chosen) {
      forall t | t in problem.tasks
        ensures Dot(TaskMinutes(candidates, t.id), chosen) <= Requirement(problem, t)
      {
        var k :| 0 <= k < |problem.tasks| && problem.tasks[k] == t;
        assert Holds(limits[k], chosen);
      }
    }
  }
}
