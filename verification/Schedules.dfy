/** Goroutines under an arbitrary scheduler: a goroutine is known by how many steps it has left. */
module Schedules {
  function Sum(ns: seq<nat>): nat {
    if ns == [] then 0 else Sum(ns[..|ns| - 1]) + ns[|ns| - 1]
  }

  lemma {:induction false} SumUpdate(ns: seq<nat>, k: nat, n: nat)
    requires k < |ns|
    ensures Sum(ns[k := n]) + ns[k] == Sum(ns) + n
  {
    var last := |ns| - 1;
    if k < last {
      SumUpdate(ns[..last], k, n);
      assert ns[k := n][..last] == ns[..last][k := n];
    } else {
      assert ns[k := n][..last] == ns[..last];
    }
  }

  lemma {:induction false} SumIsZero(ns: seq<nat>)
    ensures Sum(ns) == 0 <==> forall k :: 0 <= k < |ns| ==> ns[k] == 0
  {
    if ns != [] {
      SumIsZero(ns[..|ns| - 1]);
    }
  }

  // A sum of ones and zeros counts the ones.
  lemma {:induction false} SumOfMarks(ns: seq<nat>)
    requires forall k :: 0 <= k < |ns| ==> ns[k] <= 1
    ensures Sum(ns) <= |ns|
    ensures Sum(ns) == |ns| <==> forall k :: 0 <= k < |ns| ==> ns[k] == 1
  {
    if ns != [] {
      SumOfMarks(ns[..|ns| - 1]);
    }
  }

  // Some goroutine is not finished.
  predicate Pending(left: seq<nat>) {
    exists k :: 0 <= k < |left| && left[k] > 0
  }

  function FirstUnfinished(left: seq<nat>): (k: nat)
    requires Pending(left)
    ensures k < |left| && left[k] > 0
  {
    if left[0] > 0 then 0
    else
      assert Pending(left[1..]) by {
        var k :| 0 <= k < |left| && left[k] > 0;
        assert left[1..][k - 1] > 0;
      }
      1 + FirstUnfinished(left[1..])
  }

  // The goroutine that runs next: the one wished for, unless it is finished.
  function Choose(left: seq<nat>, wish: nat): (k: nat)
    requires Pending(left)
    ensures k < |left| && left[k] > 0
    ensures wish < |left| && left[wish] > 0 ==> k == wish
  {
    if wish < |left| && left[wish] > 0 then wish else FirstUnfinished(left)
  }
}
