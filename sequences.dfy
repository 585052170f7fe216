/** Mapping a function over a list, as `stream().map(f).toList()` does. */
module Sequences {

  /** `f` applied to every element, in order. */
  function Map<A, B>(f: A -> B, a: seq<A>): (r: seq<B>)
    ensures |r| == |a| && forall i :: 0 <= i < |a| ==> r[i] == f(a[i])
  {
    seq(|a|, i requires 0 <= i < |a| => f(a[i]))
  }

  /** The images of a list are the images of its elements. */
  lemma MapMembers<A, B>(f: A -> B, a: seq<A>)
    ensures forall y :: y in Map(f, a) <==> exists x :: x in a && y == f(x)
  {
    forall y | exists x :: x in a && y == f(x) ensures y in Map(f, a) {
      var x :| x in a && y == f(x);
      var i :| 0 <= i < |a| && a[i] == x;
      assert Map(f, a)[i] == y;
    }
  }

  /** Removing the element at `i` removes one occurrence of it. */
  lemma RemoveAt<A>(b: seq<A>, i: int)
    requires 0 <= i < |b|
    ensures multiset(b[..i] + b[i + 1..]) == multiset(b) - multiset{b[i]}
  {
    assert b == b[..i] + [b[i]] + b[i + 1..];
    assert multiset(b) == multiset(b[..i] + b[i + 1..]) + multiset{b[i]};
  }

  /** Mapping commutes with removing the element at `i`. */
  lemma MapRemoveAt<A, B>(f: A -> B, b: seq<A>, i: int)
    requires 0 <= i < |b|
    ensures Map(f, b[..i] + b[i + 1..]) == Map(f, b)[..i] + Map(f, b)[i + 1..]
  {
  }

  /** Taking the same element out of two permutations leaves two
      permutations. */
  lemma PermutationTail<A>(a: seq<A>, b: seq<A>, i: int)
    requires multiset(a) == multiset(b) && a != [] && 0 <= i < |b| && b[i] == a[0]
    ensures multiset(a[1..]) == multiset(b[..i] + b[i + 1..])
  {
    RemoveAt(b, i);
    assert a == [a[0]] + a[1..];
    assert multiset(a[1..]) == multiset(a) - multiset{a[0]};
  }

  /** Mapping over two permutations of one list gives two permutations of one
      list. */
  lemma {:induction false} MapPermutation<A, B>(f: A -> B, a: seq<A>, b: seq<A>)
    requires multiset(a) == multiset(b)
    ensures multiset(Map(f, a)) == multiset(Map(f, b))
    decreases |a|
  {
    if a != [] {
      assert a[0] in multiset(a);
      var i :| 0 <= i < |b| && b[i] == a[0];
      PermutationTail(a, b, i);
      MapPermutation(f, a[1..], b[..i] + b[i + 1..]);
      var ma, mb := Map(f, a), Map(f, b);
      MapRemoveAt(f, b, i);
      MapRemoveAt(f, a, 0);
      assert ma[..0] + ma[1..] == ma[1..];
      assert Map(f, a[1..]) == ma[1..];
      PermutationBack(ma, mb, i);
    }
  }

  /** Putting the same element back into two permutations gives two
      permutations. */
  lemma PermutationBack<A>(a: seq<A>, b: seq<A>, i: int)
    requires a != [] && 0 <= i < |b| && b[i] == a[0]
    requires multiset(a[1..]) == multiset(b[..i] + b[i + 1..])
    ensures multiset(a) == multiset(b)
  {
    assert a == [a[0]] + a[1..];
    assert b == b[..i] + [b[i]] + b[i + 1..];
  }
}
