/**
 * Sequence helpers shared by the collectors and the aggregator: an order-keeping
 * filter, the flattening of a list of lists, and the arrival order in which a
 * fan-out of tasks delivers its results to the single consumer draining the channel.
 */
module Seqs {

  import opened Outcomes

  /** The elements of `s` that satisfy `keep`, in their original order (an append loop with `continue`). */
  function Filter<T>(keep: T -> bool, s: seq<T>): seq<T>
  {
    if s == [] then [] else Filter(keep, s[..|s| - 1]) + (if keep(s[|s| - 1]) then [s[|s| - 1]] else [])
  }

  /** The filter keeps every element that satisfies `keep` as often as `s` holds it, and no other. */
  lemma {:induction false} FilterCount<T>(keep: T -> bool, s: seq<T>, x: T)
    ensures multiset(Filter(keep, s))[x] == if keep(x) then multiset(s)[x] else 0
    ensures x in Filter(keep, s) <==> x in s && keep(x)
  {
    if s != [] {
      var front, last := s[..|s| - 1], s[|s| - 1];
      assert s == front + [last];
      FilterCount(keep, front, x);
    }
  }

  /** Filtering commutes with concatenation, so the filter keeps the input's order. */
  lemma {:induction false} FilterAppend<T>(keep: T -> bool, a: seq<T>, b: seq<T>)
    ensures Filter(keep, a + b) == Filter(keep, a) + Filter(keep, b)
  {
    if b == [] {
      assert a + b == a;
    } else {
      var front := b[..|b| - 1];
      assert (a + b)[..|a + b| - 1] == a + front;
      assert (a + b)[|a + b| - 1] == b[|b| - 1];
      FilterAppend(keep, a, front);
    }
  }

  /** The in-order concatenation of the inner lists. */
  function Flatten<T>(xss: seq<seq<T>>): seq<T>
  {
    if xss == [] then [] else Flatten(xss[..|xss| - 1]) + xss[|xss| - 1]
  }

  function SumLengths<T>(xss: seq<seq<T>>): nat
  {
    if xss == [] then 0 else SumLengths(xss[..|xss| - 1]) + |xss[|xss| - 1]|
  }

  lemma {:induction false} FlattenLength<T>(xss: seq<seq<T>>)
    ensures |Flatten(xss)| == SumLengths(xss)
  {
    if xss != [] {
      FlattenLength(xss[..|xss| - 1]);
    }
  }

  /** Element `j` of inner list `i` sits right after the elements of the lists before it. */
  lemma {:induction false} FlattenAt<T>(xss: seq<seq<T>>, i: nat, j: nat)
    requires i < |xss| && j < |xss[i]|
    ensures SumLengths(xss[..i]) + j < |Flatten(xss)|
    ensures Flatten(xss)[SumLengths(xss[..i]) + j] == xss[i][j]
  {
    var n := |xss| - 1;
    var front := xss[..n];
    FlattenLength(xss);
    FlattenLength(front);
    if i == n {
      assert xss[..i] == front;
    } else {
      assert front[..i] == xss[..i];
      FlattenAt(front, i, j);
    }
  }

  lemma {:induction false} FlattenAppend<T>(a: seq<seq<T>>, b: seq<seq<T>>)
    ensures Flatten(a + b) == Flatten(a) + Flatten(b)
  {
    if b == [] {
      assert a + b == a;
    } else {
      var front := b[..|b| - 1];
      assert (a + b)[..|a + b| - 1] == a + front;
      assert (a + b)[|a + b| - 1] == b[|b| - 1];
      FlattenAppend(a, front);
    }
  }

  /** Taking the same element out of two permutations of each other leaves two permutations. */
  lemma RemoveShared<T>(front: seq<T>, last: T, before: seq<T>, after: seq<T>)
    requires multiset(front + [last]) == multiset(before + [last] + after)
    ensures multiset(front) == multiset(before + after)
  {
    calc {
      multiset(front);
      multiset(front + [last]) - multiset{last};
      multiset(before + [last] + after) - multiset{last};
      { assert multiset(before + [last] + after) == multiset(before + after) + multiset{last}; }
      multiset(before + after);
    }
  }

  /** Flattening the same lists in another order yields the same elements, counted with multiplicity. */
  lemma {:induction false} FlattenPermutation<T>(a: seq<seq<T>>, b: seq<seq<T>>)
    requires multiset(a) == multiset(b)
    ensures multiset(Flatten(a)) == multiset(Flatten(b))
  {
    if a == [] {
      assert |b| == |multiset(b)| == 0;
    } else {
      var front, last := a[..|a| - 1], a[|a| - 1];
      assert a == front + [last];
      assert last in multiset(b);
      var j :| 0 <= j < |b| && b[j] == last;
      var before, after := b[..j], b[j + 1..];
      assert b == before + [last] + after;
      RemoveShared(front, last, before, after);
      FlattenPermutation(front, before + after);
      FlattenAppend(before, after);
      FlattenAppend(before + [last], after);
      FlattenAppend(before, [last]);
      assert Flatten([last]) == last by {
        assert [last][..0] == [];
      }
      calc {
        multiset(Flatten(b));
        multiset(Flatten(before) + last + Flatten(after));
        multiset(Flatten(before) + Flatten(after)) + multiset(last);
        multiset(Flatten(front)) + multiset(last);
        multiset(Flatten(a));
      }
    }
  }

  /**
   * The position of the first element whose id, as `idOf` reads it, is `id`;
   * nothing when no element has it. This is the search-and-`break` the consumers
   * run over games, teams and rosters.
   */
  function FirstWithId<T>(s: seq<T>, idOf: T -> string, id: string): (r: Option<nat>)
    ensures r.Some? ==> r.value < |s| && idOf(s[r.value]) == id
    ensures r.Some? ==> forall j :: 0 <= j < r.value ==> idOf(s[j]) != id
    ensures r.None? ==> forall j :: 0 <= j < |s| ==> idOf(s[j]) != id
  {
    if s == [] then None
    else if idOf(s[0]) == id then Some(0)
    else match FirstWithId(s[1..], idOf, id)
      case None => None
      case Some(i) => Some(i + 1)
  }

  /** No two elements carry the same id. */
  predicate DistinctIds<T>(s: seq<T>, idOf: T -> string)
  {
    forall i, j :: 0 <= i < j < |s| ==> idOf(s[i]) != idOf(s[j])
  }

  function Range(n: nat): seq<nat>
  {
    seq(n, i => i)
  }

  /**
   * `order` lists the indices of `n` tasks in the order their results reach the
   * consumer: every task delivers exactly one result.
   */
  predicate IsArrivalOrder(order: seq<nat>, n: nat)
  {
    && (forall i :: 0 <= i < |order| ==> order[i] < n)
    && multiset(order) == multiset(Range(n))
  }

  /** The task results of `s`, in the order given by `order`. */
  function Reorder<T>(s: seq<T>, order: seq<nat>): seq<T>
    requires forall i :: 0 <= i < |order| ==> order[i] < |s|
  {
    seq(|order|, i requires 0 <= i < |order| => s[order[i]])
  }

  /** `f` applied to every element of `s`, in order. */
  function Map<A, B>(f: A -> B, s: seq<A>): (r: seq<B>)
    ensures |r| == |s| && forall i :: 0 <= i < |s| ==> r[i] == f(s[i])
  {
    seq(|s|, i requires 0 <= i < |s| => f(s[i]))
  }

  lemma MapAppend<A, B>(f: A -> B, a: seq<A>, b: seq<A>)
    ensures Map(f, a + b) == Map(f, a) + Map(f, b)
  {
  }

  lemma {:induction false} MapPermutation<A, B>(f: A -> B, a: seq<A>, b: seq<A>)
    requires multiset(a) == multiset(b)
    ensures multiset(Map(f, a)) == multiset(Map(f, b))
  {
    if a == [] {
      assert |b| == |multiset(b)| == 0;
    } else {
      var front, last := a[..|a| - 1], a[|a| - 1];
      assert a == front + [last];
      assert last in multiset(b);
      var j :| 0 <= j < |b| && b[j] == last;
      var before, after := b[..j], b[j + 1..];
      assert b == before + [last] + after;
      RemoveShared(front, last, before, after);
      MapPermutation(f, front, before + after);
      MapAppend(f, front, [last]);
      MapAppend(f, before, [last]);
      MapAppend(f, before + [last], after);
      MapAppend(f, before, after);
      assert Map(f, [last]) == [f(last)];
      calc {
        multiset(Map(f, b));
        multiset(Map(f, before) + [f(last)] + Map(f, after));
        multiset(Map(f, before) + Map(f, after)) + multiset{f(last)};
        multiset(Map(f, front)) + multiset{f(last)};
        multiset(Map(f, a));
      }
    }
  }

  /** Whatever the arrival order, the consumer sees exactly the tasks' results. */
  lemma ReorderPermutes<T>(s: seq<T>, order: seq<nat>)
    requires IsArrivalOrder(order, |s|)
    ensures |Reorder(s, order)| == |s|
    ensures multiset(Reorder(s, order)) == multiset(s)
  {
    var all := Range(|s|);
    if s != [] {
      var at := (i: nat) => if i < |s| then s[i] else s[0];
      MapPermutation(at, order, all);
      assert Reorder(s, order) == Map(at, order);
      assert s == Map(at, all);
    }
    calc {
      |order|;
      |multiset(order)|;
      |multiset(all)|;
      |s|;
    }
  }
}
