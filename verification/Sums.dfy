/** Sums and multiset unions over sequences, with the update laws the step machines rely on. */
module Sums {

  ghost function Sum<T>(xs: seq<T>, weight: T -> int): int
  {
    if xs == [] then 0 else weight(xs[0]) + Sum(xs[1..], weight)
  }

  lemma {:induction false} SumConcat<T>(xs: seq<T>, ys: seq<T>, weight: T -> int)
    ensures Sum(xs + ys, weight) == Sum(xs, weight) + Sum(ys, weight)
  {
    if xs == [] {
      assert xs + ys == ys;
    } else {
      assert (xs + ys)[1..] == xs[1..] + ys;
      SumConcat(xs[1..], ys, weight);
    }
  }

  lemma SumSingle<T>(x: T, weight: T -> int)
    ensures Sum([x], weight) == weight(x)
  {
    assert [x][1..] == [];
  }

  lemma SumAppend<T>(xs: seq<T>, x: T, weight: T -> int)
    ensures Sum(xs + [x], weight) == Sum(xs, weight) + weight(x)
  {
    SumConcat(xs, [x], weight);
    SumSingle(x, weight);
  }

  lemma SumSplit<T>(xs: seq<T>, i: nat, weight: T -> int)
    requires i < |xs|
    ensures Sum(xs, weight) == Sum(xs[..i], weight) + weight(xs[i]) + Sum(xs[i + 1..], weight)
  {
    assert xs == xs[..i] + [xs[i]] + xs[i + 1..];
    SumConcat(xs[..i] + [xs[i]], xs[i + 1..], weight);
    SumAppend(xs[..i], xs[i], weight);
  }

  lemma SumUpdate<T>(xs: seq<T>, i: nat, x: T, weight: T -> int)
    requires i < |xs|
    ensures Sum(xs[i := x], weight) == Sum(xs, weight) - weight(xs[i]) + weight(x)
  {
    SumSplit(xs, i, weight);
    SumSplit(xs[i := x], i, weight);
    assert xs[i := x][..i] == xs[..i];
    assert xs[i := x][i + 1..] == xs[i + 1..];
  }

  lemma {:induction false} SumNonNegative<T>(xs: seq<T>, weight: T -> int)
    requires forall x :: x in xs ==> weight(x) >= 0
    ensures Sum(xs, weight) >= 0
  {
    if xs != [] {
      SumNonNegative(xs[1..], weight);
    }
  }

  lemma SumBoundsElement<T>(xs: seq<T>, i: nat, weight: T -> int)
    requires forall x :: x in xs ==> weight(x) >= 0
    requires i < |xs|
    ensures weight(xs[i]) <= Sum(xs, weight)
  {
    SumSplit(xs, i, weight);
    SumNonNegative(xs[..i], weight);
    SumNonNegative(xs[i + 1..], weight);
  }

  /** A sum of zeros and ones is the number of ones. */
  lemma {:induction false} SumOfFlags<T>(xs: seq<T>, flag: T -> int, ones: set<int>)
    requires forall i :: 0 <= i < |xs| ==> flag(xs[i]) == if i in ones then 1 else 0
    requires forall i :: i in ones ==> 0 <= i < |xs|
    ensures Sum(xs, flag) == |ones|
  {
    if xs == [] {
      assert ones == {};
    } else {
      var n := |xs| - 1;
      var init, last := xs[..n], xs[n];
      assert xs == init + [last];
      SumAppend(init, last, flag);
      hide Sum;
      SumOfFlags(init, flag, ones - {n});
      assert n in ones ==> |ones| == |ones - {n}| + 1;
      assert n !in ones ==> ones == ones - {n};
    }
  }

  /** A positive sum has a positive summand. */
  lemma {:induction false} SumWitness<T>(xs: seq<T>, weight: T -> int) returns (i: nat)
    requires Sum(xs, weight) > 0
    ensures i < |xs| && weight(xs[i]) > 0
  {
    if weight(xs[0]) > 0 {
      i := 0;
    } else {
      i := SumWitness(xs[1..], weight);
      i := i + 1;
    }
  }

  lemma {:induction false} SumPointwise<T, U>(xs: seq<T>, f: T -> int, ys: seq<U>, g: U -> int)
    requires |xs| == |ys|
    requires forall i :: 0 <= i < |xs| ==> f(xs[i]) == g(ys[i])
    ensures Sum(xs, f) == Sum(ys, g)
  {
    if xs != [] {
      SumPointwise(xs[1..], f, ys[1..], g);
    }
  }

  lemma {:induction false} SumUniform<T>(xs: seq<T>, weight: T -> int, w: int)
    requires forall x :: x in xs ==> weight(x) == w
    ensures Sum(xs, weight) == w * |xs|
  {
    if xs != [] {
      SumUniform(xs[1..], weight, w);
    }
  }

  /** A sum does not depend on the order of the summands. */
  lemma {:induction false} SumPermutation<T>(xs: seq<T>, ys: seq<T>, weight: T -> int)
    requires multiset(xs) == multiset(ys)
    ensures Sum(xs, weight) == Sum(ys, weight)
  {
    if xs == [] {
      assert |multiset(ys)| == 0;
    } else {
      assert xs[0] in multiset(ys);
      var i :| 0 <= i < |ys| && ys[i] == xs[0];
      RestsAgree(xs, ys, i);
      SumPermutation(xs[1..], ys[..i] + ys[i + 1..], weight);
      SumSplit(ys, i, weight);
      SumConcat(ys[..i], ys[i + 1..], weight);
    }
  }

  lemma WithoutElement<T>(xs: seq<T>, i: nat)
    requires i < |xs|
    ensures multiset(xs) == multiset(xs[..i] + xs[i + 1..]) + multiset{xs[i]}
  {
    assert xs == xs[..i] + [xs[i]] + xs[i + 1..];
  }

  /** Taking the same element out of two permutations leaves permutations. */
  lemma RestsAgree<T>(xs: seq<T>, ys: seq<T>, i: nat)
    requires multiset(xs) == multiset(ys)
    requires xs != [] && i < |ys| && ys[i] == xs[0]
    ensures multiset(xs[1..]) == multiset(ys[..i] + ys[i + 1..])
  {
    assert xs == [xs[0]] + xs[1..];
    WithoutElement(ys, i);
    assert multiset(xs[1..]) == multiset(xs) - multiset{xs[0]};
    assert multiset(ys[..i] + ys[i + 1..]) == multiset(ys) - multiset{ys[i]};
  }

  /** The multiset union of the items contributed by each element. */
  ghost function Gather<T, M>(xs: seq<T>, items: T -> multiset<M>): multiset<M>
  {
    if xs == [] then multiset{} else items(xs[0]) + Gather(xs[1..], items)
  }

  lemma {:induction false} GatherConcat<T, M>(xs: seq<T>, ys: seq<T>, items: T -> multiset<M>)
    ensures Gather(xs + ys, items) == Gather(xs, items) + Gather(ys, items)
  {
    if xs == [] {
      assert xs + ys == ys;
    } else {
      assert (xs + ys)[1..] == xs[1..] + ys;
      GatherConcat(xs[1..], ys, items);
    }
  }

  lemma GatherAppend<T, M>(xs: seq<T>, x: T, items: T -> multiset<M>)
    ensures Gather(xs + [x], items) == Gather(xs, items) + items(x)
  {
    GatherConcat(xs, [x], items);
    assert [x][1..] == [];
  }

  lemma GatherSplit<T, M>(xs: seq<T>, i: nat, items: T -> multiset<M>)
    requires i < |xs|
    ensures Gather(xs, items) == Gather(xs[..i], items) + items(xs[i]) + Gather(xs[i + 1..], items)
  {
    assert xs == xs[..i] + [xs[i]] + xs[i + 1..];
    GatherConcat(xs[..i] + [xs[i]], xs[i + 1..], items);
    GatherAppend(xs[..i], xs[i], items);
  }

  /** Replacing one element: what the old one contributed goes, what the new one contributes comes. */
  lemma GatherUpdate<T, M>(xs: seq<T>, i: nat, x: T, items: T -> multiset<M>)
    requires i < |xs|
    ensures Gather(xs[i := x], items) + items(xs[i]) == Gather(xs, items) + items(x)
  {
    GatherSplit(xs, i, items);
    GatherSplit(xs[i := x], i, items);
    assert xs[i := x][..i] == xs[..i];
    assert xs[i := x][i + 1..] == xs[i + 1..];
  }

  /** Replacing one element by one that contributes `gained` more. */
  lemma GatherGain<T, M>(xs: seq<T>, i: nat, x: T, items: T -> multiset<M>, gained: multiset<M>)
    requires i < |xs| && items(x) == items(xs[i]) + gained
    ensures Gather(xs[i := x], items) == Gather(xs, items) + gained
  {
    GatherUpdate(xs, i, x, items);
    var before, after, old' := Gather(xs, items), Gather(xs[i := x], items), items(xs[i]);
    assert after == (after + old') - old';
    assert before + gained == (before + gained + old') - old';
  }

  /** Replacing one element by one that contributes `lost` less. */
  lemma GatherLoss<T, M>(xs: seq<T>, i: nat, x: T, items: T -> multiset<M>, lost: multiset<M>)
    requires i < |xs| && items(xs[i]) == items(x) + lost
    ensures Gather(xs, items) == Gather(xs[i := x], items) + lost
  {
    assert xs[i := x][i := xs[i]] == xs;
    GatherGain(xs[i := x], i, xs[i], items, lost);
  }

  lemma {:induction false} GatherPointwise<T, U, M>(xs: seq<T>, f: T -> multiset<M>, ys: seq<U>, g: U -> multiset<M>)
    requires |xs| == |ys|
    requires forall i :: 0 <= i < |xs| ==> f(xs[i]) == g(ys[i])
    ensures Gather(xs, f) == Gather(ys, g)
  {
    if xs != [] {
      GatherPointwise(xs[1..], f, ys[1..], g);
    }
  }

  lemma {:induction false} GatherPermutation<T, M>(xs: seq<T>, ys: seq<T>, items: T -> multiset<M>)
    requires multiset(xs) == multiset(ys)
    ensures Gather(xs, items) == Gather(ys, items)
  {
    if xs == [] {
      assert |multiset(ys)| == 0;
    } else {
      assert xs[0] in multiset(ys);
      var i :| 0 <= i < |ys| && ys[i] == xs[0];
      RestsAgree(xs, ys, i);
      GatherPermutation(xs[1..], ys[..i] + ys[i + 1..], items);
      GatherSplit(ys, i, items);
      GatherConcat(ys[..i], ys[i + 1..], items);
    }
  }

  lemma {:induction false} GatherEmpty<T, M>(xs: seq<T>, items: T -> multiset<M>)
    requires forall x :: x in xs ==> items(x) == multiset{}
    ensures Gather(xs, items) == multiset{}
  {
    if xs != [] {
      GatherEmpty(xs[1..], items);
    }
  }
}
