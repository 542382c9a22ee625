/** Concatenation over a list, and sums over a set: what does not depend on the order. */
module Lists {

  function Concat<S, T>(f: S -> seq<T>, xs: seq<S>): seq<T> {
    if xs == [] then [] else Concat(f, xs[..|xs| - 1]) + f(xs[|xs| - 1])
  }

  lemma {:induction false} ConcatAgree<S, T>(f: S -> seq<T>, g: S -> seq<T>, xs: seq<S>)
    requires forall x :: x in xs ==> f(x) == g(x)
    ensures Concat(f, xs) == Concat(g, xs)
  {
    if xs != [] {
      ConcatAgree(f, g, xs[..|xs| - 1]);
    }
  }

  lemma {:induction false} ConcatMember<S, T>(f: S -> seq<T>, xs: seq<S>, x: S, t: T)
    requires x in xs && t in f(x)
    ensures t in Concat(f, xs)
  {
    if xs[|xs| - 1] != x {
      ConcatMember(f, xs[..|xs| - 1], x, t);
    }
  }

  lemma {:induction false} ConcatSource<S, T>(f: S -> seq<T>, xs: seq<S>, t: T) returns (x: S)
    requires t in Concat(f, xs)
    ensures x in xs && t in f(x)
  {
    if t in f(xs[|xs| - 1]) {
      x := xs[|xs| - 1];
    } else {
      x := ConcatSource(f, xs[..|xs| - 1], t);
    }
  }

  lemma {:induction false} ConcatAppend<S, T>(f: S -> seq<T>, xs: seq<S>, x: S)
    ensures Concat(f, xs + [x]) == Concat(f, xs) + f(x)
  {
    assert (xs + [x])[..|xs|] == xs;
  }

  /** Taking one element out takes its part out. */
  lemma {:induction false} ConcatRemove<S, T>(f: S -> seq<T>, xs: seq<S>, k: nat)
    requires k < |xs|
    ensures multiset(Concat(f, xs)) == multiset(Concat(f, xs[..k] + xs[k + 1..])) + multiset(f(xs[k]))
  {
    var n := |xs| - 1;
    if k == n {
      assert xs[..k] + xs[k + 1..] == xs[..n];
    } else {
      ConcatRemove(f, xs[..n], k);
      var ys := xs[..k] + xs[k + 1..];
      assert ys[..|ys| - 1] == xs[..n][..k] + xs[..n][k + 1..];
      assert ys[|ys| - 1] == xs[n];
    }
  }

  lemma MoveToFront<T>(xs: seq<T>, k: nat)
    requires k < |xs|
    ensures multiset([xs[k]] + (xs[..k] + xs[k + 1..])) == multiset(xs)
  {
    assert xs == xs[..k] + [xs[k]] + xs[k + 1..];
  }

  /** Take the last element out of one list and its match out of the other. */
  lemma PermutationRest<T>(xs: seq<T>, ys: seq<T>, k: nat)
    requires multiset(xs) == multiset(ys) && 0 < |xs| && k < |ys| && ys[k] == xs[|xs| - 1]
    ensures multiset(xs[..|xs| - 1]) == multiset(ys[..k] + ys[k + 1..])
  {
    MoveToFront(ys, k);
    MoveToFront(xs, |xs| - 1);
    var a, b := xs[..|xs| - 1], ys[..k] + ys[k + 1..];
    assert a + xs[|xs|..] == a;
    assert multiset([ys[k]] + a) == multiset{ys[k]} + multiset(a);
    assert multiset([ys[k]] + b) == multiset{ys[k]} + multiset(b);
    assert multiset(a) == multiset(xs) - multiset{ys[k]};
  }

  /** The parts as a multiset do not depend on the order of the list. */
  lemma {:induction false} ConcatPermutation<S, T>(f: S -> seq<T>, xs: seq<S>, ys: seq<S>)
    requires multiset(xs) == multiset(ys)
    ensures multiset(Concat(f, xs)) == multiset(Concat(f, ys))
    decreases |xs|
  {
    if xs == [] {
      assert |multiset(ys)| == 0;
    } else {
      var n := |xs| - 1;
      assert xs[n] in multiset(ys);
      var k :| 0 <= k < |ys| && ys[k] == xs[n];
      var zs := ys[..k] + ys[k + 1..];
      PermutationRest(xs, ys, k);
      ConcatPermutation(f, xs[..n], zs);
      ConcatRemove(f, ys, k);
    }
  }

  ghost function Sum(f: string -> nat, xs: set<string>): nat {
    if xs == {} then 0
    else
      var x :| x in xs;
      f(x) + Sum(f, xs - {x})
  }

  lemma {:induction false} SumRemove(f: string -> nat, xs: set<string>, x: string)
    requires x in xs
    ensures Sum(f, xs) == f(x) + Sum(f, xs - {x})
    decreases |xs|
  {
    var y :| y in xs && Sum(f, xs) == f(y) + Sum(f, xs - {y});
    if y != x {
      SumRemove(f, xs - {y}, x);
      SumRemove(f, xs - {x}, y);
      assert xs - {y} - {x} == xs - {x} - {y};
    }
  }

  lemma {:induction false} SumAgree(f: string -> nat, g: string -> nat, xs: set<string>)
    requires forall x :: x in xs ==> f(x) == g(x)
    ensures Sum(f, xs) == Sum(g, xs)
    decreases |xs|
  {
    if xs != {} {
      var x :| x in xs;
      SumRemove(f, xs, x);
      SumRemove(g, xs, x);
      SumAgree(f, g, xs - {x});
    }
  }

  lemma {:induction false} SumBound(f: string -> nat, xs: set<string>, b: nat)
    requires forall x :: x in xs ==> f(x) <= b
    ensures Sum(f, xs) <= b * |xs|
    decreases |xs|
  {
    if xs != {} {
      var x :| x in xs;
      SumRemove(f, xs, x);
      SumBound(f, xs - {x}, b);
      var n := |xs - {x}|;
      assert |xs| == n + 1;
      assert b * (n + 1) == b * n + b;
    }
  }
}
