/** Linear expressions over Boolean decision variables: one integer coefficient per variable. */
module LinearSums {

  /** The value of the expression: the sum of the coefficients of the chosen variables. */
  function Dot(coefficients: seq<int>, chosen: seq<bool>): int
    requires |coefficients| == |chosen|
  {
    if chosen == [] then 0
    else
      var last := |chosen| - 1;
      Dot(coefficients[..last], chosen[..last]) + if chosen[last] then coefficients[last] else 0
  }

  function Total(values: seq<int>): int {
    if values == [] then 0 else Total(values[..|values| - 1]) + values[|values| - 1]
  }

  function Nothing(n: nat): seq<bool> {
    seq(n, _ => false)
  }

  lemma {:induction false} DotOfNothing(coefficients: seq<int>, chosen: seq<bool>)
    requires |coefficients| == |chosen|
    requires forall i :: 0 <= i < |chosen| ==> !chosen[i]
    ensures Dot(coefficients, chosen) == 0
  {
    if chosen != [] {
      DotOfNothing(coefficients[..|chosen| - 1], chosen[..|chosen| - 1]);
    }
  }

  /** Choosing one more variable adds exactly its coefficient. */
  lemma {:induction false} DotChoose(coefficients: seq<int>, chosen: seq<bool>, k: nat)
    requires |coefficients| == |chosen| && k < |chosen| && !chosen[k]
    ensures Dot(coefficients, chosen[k := true]) == Dot(coefficients, chosen) + coefficients[k]
  {
    var last := |chosen| - 1;
    if k < last {
      DotChoose(coefficients[..last], chosen[..last], k);
      assert chosen[k := true][..last] == chosen[..last][k := true];
    } else {
      assert chosen[k := true][..last] == chosen[..last];
    }
  }

  lemma {:induction false} DotMonotone(smaller: seq<int>, larger: seq<int>, chosen: seq<bool>)
    requires |smaller| == |larger| == |chosen|
    requires forall i :: 0 <= i < |chosen| && chosen[i] ==> smaller[i] <= larger[i]
    ensures Dot(smaller, chosen) <= Dot(larger, chosen)
  {
    if chosen != [] {
      var last := |chosen| - 1;
      DotMonotone(smaller[..last], larger[..last], chosen[..last]);
    }
  }

  lemma {:induction false} DotAdds(a: seq<int>, b: seq<int>, sum: seq<int>, chosen: seq<bool>)
    requires |a| == |b| == |sum| == |chosen|
    requires forall i :: 0 <= i < |chosen| ==> sum[i] == a[i] + b[i]
    ensures Dot(sum, chosen) == Dot(a, chosen) + Dot(b, chosen)
  {
    if chosen != [] {
      var last := |chosen| - 1;
      DotAdds(a[..last], b[..last], sum[..last], chosen[..last]);
    }
  }

  /** With no negative coefficient, any two chosen variables contribute together. */
  lemma {:induction false} DotAtLeastTwo(coefficients: seq<int>, chosen: seq<bool>, i: nat, j: nat)
    requires |coefficients| == |chosen| && i < j < |chosen| && chosen[i] && chosen[j]
    requires forall k :: 0 <= k < |chosen| ==> 0 <= coefficients[k]
    ensures coefficients[i] + coefficients[j] <= Dot(coefficients, chosen)
  {
    var last := |chosen| - 1;
    if j < last {
      DotAtLeastTwo(coefficients[..last], chosen[..last], i, j);
    } else {
      DotAtLeastOne(coefficients[..last], chosen[..last], i);
    }
  }

  lemma {:induction false} DotAtLeastOne(coefficients: seq<int>, chosen: seq<bool>, i: nat)
    requires |coefficients| == |chosen| && i < |chosen| && chosen[i]
    requires forall k :: 0 <= k < |chosen| ==> 0 <= coefficients[k]
    ensures coefficients[i] <= Dot(coefficients, chosen)
  {
    var last := |chosen| - 1;
    DotNonNegative(coefficients[..last], chosen[..last]);
    if i < last {
      DotAtLeastOne(coefficients[..last], chosen[..last], i);
    }
  }

  lemma {:induction false} DotNonNegative(coefficients: seq<int>, chosen: seq<bool>)
    requires |coefficients| == |chosen|
    requires forall k :: 0 <= k < |chosen| ==> 0 <= coefficients[k]
    ensures 0 <= Dot(coefficients, chosen)
  {
    if chosen != [] {
      DotNonNegative(coefficients[..|chosen| - 1], chosen[..|chosen| - 1]);
    }
  }

  /** Coefficients that are zero everywhere a variable is chosen contribute nothing. */
  lemma {:induction false} DotZero(coefficients: seq<int>, chosen: seq<bool>)
    requires |coefficients| == |chosen|
    requires forall i :: 0 <= i < |chosen| && chosen[i] ==> coefficients[i] == 0
    ensures Dot(coefficients, chosen) == 0
  {
    if chosen != [] {
      DotZero(coefficients[..|chosen| - 1], chosen[..|chosen| - 1]);
    }
  }

  /** A sum of zeros and ones that stays at most one has at most one chosen member. */
  lemma {:induction false} AtMostOneChosen(members: seq<int>, chosen: seq<bool>)
    requires |members| == |chosen|
    requires forall k :: 0 <= k < |members| ==> members[k] == 0 || members[k] == 1
    ensures Dot(members, chosen) <= 1
            <==> forall i, j :: 0 <= i < j < |chosen| && chosen[i] && chosen[j] ==> members[i] == 0 || members[j] == 0
  {
    if Dot(members, chosen) <= 1 {
      forall i, j | 0 <= i < j < |chosen| && chosen[i] && chosen[j]
        ensures members[i] == 0 || members[j] == 0
      {
        DotAtLeastTwo(members, chosen, i, j);
      }
    } else {
      var last := |chosen| - 1;
      AtMostOneChosen(members[..last], chosen[..last]);
      if Dot(members[..last], chosen[..last]) <= 1 {
        assert chosen[last] && members[last] == 1;
        if forall i :: 0 <= i < last && chosen[i] ==> members[i] == 0 {
          DotZero(members[..last], chosen[..last]);
        }
      } else {
        var i, j :| 0 <= i < j < last && chosen[..last][i] && chosen[..last][j]
                    && !(members[..last][i] == 0 || members[..last][j] == 0);
        assert chosen[i] && chosen[j] && members[i] != 0 && members[j] != 0;
      }
    }
  }
}
