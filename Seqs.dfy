/** Sequence helpers shared by the scanners and the scorer: concatenating a
    per-element output, duplicate-freedom, and an enumeration of a finite set
    in some order, which stands for Python's unspecified set iteration order. */
module Seqs {

  /** The outputs of `f` on the elements of `s`, concatenated in order
      (a `for x in s: out.extend(f(x))` loop). Defined on the last element so
      that it follows a loop that appends. */
  function FlatMap<A, B>(f: A -> seq<B>, s: seq<A>): seq<B>
  {
    if s == [] then [] else FlatMap(f, s[..|s| - 1]) + f(s[|s| - 1])
  }

  lemma {:induction false} FlatMapAppend<A, B>(f: A -> seq<B>, a: seq<A>, b: seq<A>)
    ensures FlatMap(f, a + b) == FlatMap(f, a) + FlatMap(f, b)
  {
    if b == [] {
      assert a + b == a;
    } else {
      var b' := b[..|b| - 1];
      assert (a + b)[..|a + b| - 1] == a + b';
      assert (a + b)[|a + b| - 1] == b[|b| - 1];
      FlatMapAppend(f, a, b');
    }
  }

  lemma FlatMapCons<A, B>(f: A -> seq<B>, x: A, s: seq<A>)
    ensures FlatMap(f, [x] + s) == f(x) + FlatMap(f, s)
  {
    FlatMapAppend(f, [x], s);
    assert [x][..0] == [];
  }

  /** An element is in the concatenated output exactly when some input element produced it. */
  lemma {:induction false} FlatMapMember<A, B>(f: A -> seq<B>, s: seq<A>, y: B)
    ensures y in FlatMap(f, s) <==> exists x :: x in s && y in f(x)
  {
    if s != [] {
      var s' := s[..|s| - 1];
      FlatMapMember(f, s', y);
      assert s == s' + [s[|s| - 1]];
      if y in FlatMap(f, s) {
        if y in FlatMap(f, s') {
          var x :| x in s' && y in f(x);
          assert x in s;
        } else {
          assert y in f(s[|s| - 1]);
        }
      }
    }
  }

  /** Where the last element of `a` sits in a permutation `b` of `a`, and
      that removing both leaves permutations of each other. */
  lemma PermutationSplit<T>(a: seq<T>, b: seq<T>) returns (j: nat)
    requires multiset(a) == multiset(b) && a != []
    ensures j < |b| && b[j] == a[|a| - 1]
    ensures b == b[..j] + [a[|a| - 1]] + b[j + 1..]
    ensures multiset(a[..|a| - 1]) == multiset(b[..j] + b[j + 1..])
  {
    var x := a[|a| - 1];
    assert a == a[..|a| - 1] + [x];
    assert x in multiset(b);
    j :| 0 <= j < |b| && b[j] == x;
    assert b == b[..j] + [x] + b[j + 1..];
    calc {
      multiset(b[..j] + b[j + 1..]);
      multiset(b[..j]) + multiset(b[j + 1..]);
      multiset(b) - multiset{x};
      multiset(a) - multiset{x};
      multiset(a[..|a| - 1]);
    }
  }

  /** Reordering the input reorders the output, element blocks moving as a whole. */
  lemma {:induction false} FlatMapPermutation<A, B>(f: A -> seq<B>, a: seq<A>, b: seq<A>)
    requires multiset(a) == multiset(b)
    ensures multiset(FlatMap(f, a)) == multiset(FlatMap(f, b))
    decreases |a|
  {
    if a == [] {
      assert |b| == |multiset(b)| == 0;
    } else {
      var x := a[|a| - 1];
      var j := PermutationSplit(a, b);
      FlatMapPermutation(f, a[..|a| - 1], b[..j] + b[j + 1..]);
      FlatMapAppend(f, b[..j] + [x], b[j + 1..]);
      FlatMapAppend(f, b[..j], [x]);
      FlatMapAppend(f, b[..j], b[j + 1..]);
      assert FlatMap(f, [x]) == f(x) by {
        assert [x][..0] == [];
      }
    }
  }

  lemma TwoMembers<T>(s: seq<T>, a: T, b: T)
    requires a in s && b in s && a != b
    ensures |s| >= 2
  {
    var i :| 0 <= i < |s| && s[i] == a;
    var j :| 0 <= j < |s| && s[j] == b;
    assert i != j;
  }

  ghost predicate NoDup<T>(s: seq<T>)
  {
    forall i, j :: 0 <= i < j < |s| ==> s[i] != s[j]
  }

  lemma {:induction false} NoDupCount<T>(s: seq<T>, x: T)
    requires NoDup(s)
    ensures multiset(s)[x] == if x in s then 1 else 0
  {
    if s != [] {
      var s' := s[..|s| - 1];
      assert s == s' + [s[|s| - 1]];
      NoDupCount(s', x);
    }
  }

  /** Two duplicate-free sequences with the same elements are permutations of each other. */
  lemma SameElementsPermutation<T>(a: seq<T>, b: seq<T>)
    requires NoDup(a) && NoDup(b)
    requires forall x :: x in a <==> x in b
    ensures multiset(a) == multiset(b)
  {
    forall x ensures multiset(a)[x] == multiset(b)[x] {
      NoDupCount(a, x);
      NoDupCount(b, x);
    }
  }

  lemma {:induction false} NoDupConcat<T>(a: seq<T>, b: seq<T>)
    requires NoDup(a) && NoDup(b)
    requires forall x :: x in a ==> x !in b
    ensures NoDup(a + b)
  {
    forall i, j | 0 <= i < j < |a + b| ensures (a + b)[i] != (a + b)[j] {
      if j < |a| {
      } else if i >= |a| {
        assert (a + b)[i] == b[i - |a|] && (a + b)[j] == b[j - |a|];
      } else {
        assert (a + b)[i] in a && (a + b)[j] in b;
      }
    }
  }

  /** The output has no duplicates when the inputs are distinct, each block is
      duplicate-free, and distinct inputs produce disjoint blocks. */
  lemma {:induction false} FlatMapNoDup<A, B>(f: A -> seq<B>, s: seq<A>)
    requires NoDup(s)
    requires forall x :: x in s ==> NoDup(f(x))
    requires forall x, x', y :: x in s && x' in s && x != x' && y in f(x) ==> y !in f(x')
    ensures NoDup(FlatMap(f, s))
  {
    if s != [] {
      var s' := s[..|s| - 1];
      var last := s[|s| - 1];
      assert forall x :: x in s' ==> x in s;
      FlatMapNoDup(f, s');
      forall y | y in FlatMap(f, s') ensures y !in f(last) {
        FlatMapMember(f, s', y);
        var x :| x in s' && y in f(x);
        var k :| 0 <= k < |s'| && s'[k] == x;
        assert s[k] == x && k < |s| - 1;
      }
      NoDupConcat(FlatMap(f, s'), f(last));
    }
  }

  /** The elements of a finite set, each once, in an order left unspecified:
      the order in which Python iterates over a `set`. */
  ghost function Enumerate<T>(s: set<T>): (r: seq<T>)
    ensures |r| == |s| && NoDup(r)
    ensures forall i :: 0 <= i < |r| ==> r[i] in s
    ensures forall x | x in s :: x in r
    decreases s
  {
    if s == {} then []
    else
      var x :| x in s;
      var r' := Enumerate(s - {x});
      assert x !in r';
      r' + [x]
  }

  /** When every element produces exactly one output, the output is the
      element-wise image of the input. */
  lemma {:induction false} FlatMapSingletons<A, B>(f: A -> seq<B>, s: seq<A>)
    requires forall x :: x in s ==> |f(x)| == 1
    ensures |FlatMap(f, s)| == |s|
    ensures forall i :: 0 <= i < |s| ==> FlatMap(f, s)[i] == f(s[i])[0]
  {
    if s != [] {
      var s' := s[..|s| - 1];
      assert forall x :: x in s' ==> x in s;
      FlatMapSingletons(f, s');
      assert s[|s| - 1] in s;
      forall i | 0 <= i < |s| ensures FlatMap(f, s)[i] == f(s[i])[0] {
        if i < |s'| {
          assert s[i] == s'[i];
        }
      }
    }
  }

  /** A loop over a finite set, in whatever order the set yields its elements,
      appending `f(x)` for each element `x`. The output is the concatenation
      of the per-element outputs in the order of `Enumerate(s)`, up to
      permutation. */
  method ForEachInSet<A(==), B>(f: A -> seq<B>, s: set<A>) returns (out: seq<B>)
    ensures multiset(out) == multiset(FlatMap(f, Enumerate(s)))
  {
    out := [];
    var rest := s;
    ghost var order: seq<A> := [];
    while rest != {}
      invariant rest <= s
      invariant out == FlatMap(f, order)
      invariant NoDup(order)
      invariant forall i :: 0 <= i < |order| ==> order[i] in s && order[i] !in rest
      invariant forall x | x in s && x !in rest :: x in order
      decreases |rest|
    {
      var x :| x in rest;
      out := out + f(x);
      order := order + [x];
      rest := rest - {x};
    }
    SameElementsPermutation(order, Enumerate(s));
    FlatMapPermutation(f, order, Enumerate(s));
  }

  /** The parts, concatenated in order. */
  function Concat<T>(parts: seq<seq<T>>): seq<T>
  {
    if parts == [] then [] else Concat(parts[..|parts| - 1]) + parts[|parts| - 1]
  }

  lemma ConcatSnoc<T>(parts: seq<seq<T>>, b: seq<T>)
    ensures Concat(parts + [b]) == Concat(parts) + b
  {
    assert (parts + [b])[..|parts|] == parts;
  }

  /** `a[0] + b[0] + a[1] + b[1] + ...`: two parts per step of a loop. */
  function Interleave<T>(a: seq<seq<T>>, b: seq<seq<T>>): seq<T>
    requires |a| == |b|
  {
    if a == [] then [] else Interleave(a[..|a| - 1], b[..|b| - 1]) + a[|a| - 1] + b[|b| - 1]
  }

  lemma InterleaveSnoc<T>(a: seq<seq<T>>, b: seq<seq<T>>, x: seq<T>, y: seq<T>)
    requires |a| == |b|
    ensures Interleave(a + [x], b + [y]) == Interleave(a, b) + x + y
  {
    assert (a + [x])[..|a|] == a && (b + [y])[..|b|] == b;
  }
}
