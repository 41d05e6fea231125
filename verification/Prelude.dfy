/** Small notions every other module needs: optional values, and counting the members of a
    sequence that satisfy a predicate. */
module Prelude {

  datatype Option<+T> = None | Some(value: T)

  function Bit(b: bool): (n: nat)
  {
    if b then 1 else 0
  }

  /** How many members of `xs` satisfy `p`. */
  function Count<T>(xs: seq<T>, p: T -> bool): (n: nat)
  {
    if xs == [] then 0 else Bit(p(xs[0])) + Count(xs[1..], p)
  }

  lemma {:induction false} CountAppend<T>(xs: seq<T>, ys: seq<T>, p: T -> bool)
    ensures Count(xs + ys, p) == Count(xs, p) + Count(ys, p)
  {
    if xs == [] {
      assert xs + ys == ys;
    } else {
      assert (xs + ys)[1..] == xs[1..] + ys;
      CountAppend(xs[1..], ys, p);
    }
  }

  /** Replacing one member changes the count by that member alone. */
  lemma {:induction false} CountUpdate<T>(xs: seq<T>, i: nat, x: T, p: T -> bool)
    requires i < |xs|
    ensures Count(xs[i := x], p) + Bit(p(xs[i])) == Count(xs, p) + Bit(p(x))
  {
    if i == 0 {
      assert xs[i := x][1..] == xs[1..];
    } else {
      assert xs[i := x][1..] == xs[1..][i - 1 := x];
      CountUpdate(xs[1..], i - 1, x, p);
    }
  }

  /** A member that satisfies `p` is counted. */
  lemma {:induction false} CountMember<T>(xs: seq<T>, i: nat, p: T -> bool)
    requires i < |xs| && p(xs[i])
    ensures Count(xs, p) >= 1
  {
    if i > 0 {
      CountMember(xs[1..], i - 1, p);
    }
  }

  /** Two members that satisfy `p` are counted twice. */
  lemma CountTwo<T>(xs: seq<T>, i: nat, j: nat, p: T -> bool)
    requires i < j < |xs| && p(xs[i]) && p(xs[j])
    ensures Count(xs, p) >= 2
  {
    assert xs == xs[..j] + xs[j..];
    CountAppend(xs[..j], xs[j..], p);
    CountMember(xs[..j], i, p);
    CountMember(xs[j..], 0, p);
  }

  /** With a count of at most one, no other member satisfies `p`. */
  lemma CountUnique<T>(xs: seq<T>, i: nat, p: T -> bool)
    requires i < |xs| && p(xs[i]) && Count(xs, p) <= 1
    ensures forall j :: 0 <= j < |xs| && j != i ==> !p(xs[j])
  {
    forall j | 0 <= j < |xs| && j != i
      ensures !p(xs[j])
    {
      if p(xs[j]) {
        CountTwo(xs, if i < j then i else j, if i < j then j else i, p);
      }
    }
  }

  /** A positive count has a witness. */
  lemma {:induction false} CountWitness<T>(xs: seq<T>, p: T -> bool) returns (i: nat)
    requires Count(xs, p) >= 1
    ensures i < |xs| && p(xs[i])
  {
    if p(xs[0]) {
      i := 0;
    } else {
      var k := CountWitness(xs[1..], p);
      i := k + 1;
    }
  }

  lemma {:induction false} CountNone<T>(xs: seq<T>, p: T -> bool)
    requires forall i :: 0 <= i < |xs| ==> !p(xs[i])
    ensures Count(xs, p) == 0
  {
    if xs != [] {
      CountNone(xs[1..], p);
    }
  }

  /** How often `x` occurs. */
  function Times<T(==)>(xs: seq<T>, x: T): (n: nat)
  {
    multiset(xs)[x]
  }

  lemma TimesConcat<T>(xs: seq<T>, ys: seq<T>, x: T)
    ensures Times(xs + ys, x) == Times(xs, x) + Times(ys, x)
  {
  }

  lemma TimesLast<T>(xs: seq<T>, last: T, x: T)
    ensures Times(xs + [last], x) == Times(xs, x) + Bit(last == x)
  {
    TimesConcat(xs, [last], x);
  }

  lemma TimesTail<T>(xs: seq<T>, x: T)
    requires xs != []
    ensures Times(xs, x) == Bit(xs[0] == x) + Times(xs[1..], x)
  {
    assert xs == [xs[0]] + xs[1..];
  }

  // --- sums -----------------------------------------------------------------------------------

  function Sum<T>(xs: seq<T>, f: T -> nat): (n: nat)
  {
    if xs == [] then 0 else f(xs[0]) + Sum(xs[1..], f)
  }

  lemma {:induction false} SumUpdate<T>(xs: seq<T>, i: nat, x: T, f: T -> nat)
    requires i < |xs|
    ensures Sum(xs[i := x], f) + f(xs[i]) == Sum(xs, f) + f(x)
  {
    if i == 0 {
      assert xs[i := x][1..] == xs[1..];
    } else {
      assert xs[i := x][1..] == xs[1..][i - 1 := x];
      SumUpdate(xs[1..], i - 1, x, f);
    }
  }

  lemma {:induction false} SumLast<T>(xs: seq<T>, x: T, f: T -> nat)
    ensures Sum(xs + [x], f) == Sum(xs, f) + f(x)
  {
    if xs == [] {
      assert Sum([x], f) == f(x) + Sum([], f);
    } else {
      assert (xs + [x])[1..] == xs[1..] + [x];
      SumLast(xs[1..], x, f);
    }
  }

  lemma {:induction false} SumMember<T>(xs: seq<T>, i: nat, f: T -> nat)
    requires i < |xs|
    ensures f(xs[i]) <= Sum(xs, f)
  {
    if i > 0 {
      SumMember(xs[1..], i - 1, f);
    }
  }

  lemma {:induction false} SumZero<T>(xs: seq<T>, f: T -> nat)
    requires forall i :: 0 <= i < |xs| ==> f(xs[i]) == 0
    ensures Sum(xs, f) == 0
  {
    if xs != [] {
      SumZero(xs[1..], f);
    }
  }

  // --- runs -----------------------------------------------------------------------------------

  /** Where a schedule leads: its steps taken one after the other. */
  function Fold<S, E>(step: (S, E) -> S, s: S, events: seq<E>): (t: S)
    decreases |events|
  {
    if events == [] then s else Fold(step, step(s, events[0]), events[1..])
  }

  lemma {:induction false} FoldAppend<S, E>(step: (S, E) -> S, s: S, a: seq<E>, b: seq<E>)
    ensures Fold(step, s, a + b) == Fold(step, Fold(step, s, a), b)
    decreases |a|
  {
    if a == [] {
      assert a + b == b;
    } else {
      assert (a + b)[1..] == a[1..] + b;
      FoldAppend(step, step(s, a[0]), a[1..], b);
    }
  }

  lemma FoldOne<S, E>(step: (S, E) -> S, s: S, a: seq<E>, e: E)
    ensures Fold(step, s, a + [e]) == step(Fold(step, s, a), e)
  {
    FoldAppend(step, s, a, [e]);
    var t := Fold(step, s, a);
    assert Fold(step, t, [e]) == Fold(step, step(t, e), []);
  }

  lemma Fold2<S, E>(step: (S, E) -> S, s: S, a: E, b: E)
    ensures Fold(step, s, [a, b]) == step(step(s, a), b)
  {
    FoldOne(step, s, [], a);
    FoldOne(step, s, [a], b);
    assert [] + [a] == [a] && [a] + [b] == [a, b];
  }

  lemma Fold3<S, E>(step: (S, E) -> S, s: S, a: E, b: E, c: E)
    ensures Fold(step, s, [a, b, c]) == step(step(step(s, a), b), c)
  {
    Fold2(step, s, a, b);
    FoldOne(step, s, [a, b], c);
    assert [a, b] + [c] == [a, b, c];
  }

  lemma Fold4<S, E>(step: (S, E) -> S, s: S, a: E, b: E, c: E, d: E)
    ensures Fold(step, s, [a, b, c, d]) == step(step(step(step(s, a), b), c), d)
  {
    Fold3(step, s, a, b, c);
    FoldOne(step, s, [a, b, c], d);
    assert [a, b, c] + [d] == [a, b, c, d];
  }

  /** The events of a schedule that are not `mine`, in order. */
  function Excluding<E(!new)>(events: seq<E>, mine: E -> bool): (r: seq<E>)
    ensures forall e :: e in r ==> !mine(e)
  {
    if events == [] then []
    else (if mine(events[0]) then [] else [events[0]]) + Excluding(events[1..], mine)
  }

  // --- sequences that list nobody twice -------------------------------------------------------

  ghost predicate Distinct<T>(xs: seq<T>)
  {
    forall i, j :: 0 <= i < j < |xs| ==> xs[i] != xs[j]
  }

  /** `retain(|x| x != id)`: the members other than `id`, in order. */
  function Without<T(==,!new)>(xs: seq<T>, id: T): (r: seq<T>)
    ensures |r| <= |xs|
    ensures forall x :: x in r <==> x in xs && x != id
  {
    if xs == [] then []
    else (if xs[0] == id then [] else [xs[0]]) + Without(xs[1..], id)
  }

  lemma {:induction false} WithoutAbsent<T(!new)>(xs: seq<T>, id: T)
    requires id !in xs
    ensures Without(xs, id) == xs
  {
    if xs != [] {
      WithoutAbsent(xs[1..], id);
    }
  }

  /** Retaining all but the member at `k` closes the gap and keeps the order. */
  lemma {:induction false} WithoutSplits<T(!new)>(xs: seq<T>, k: nat)
    requires Distinct(xs) && k < |xs|
    ensures Without(xs, xs[k]) == xs[..k] + xs[k + 1..]
  {
    if k == 0 {
      WithoutAbsent(xs[1..], xs[0]);
    } else {
      WithoutSplits(xs[1..], k - 1);
      assert xs[..k] == [xs[0]] + xs[1..][..k - 1];
      assert xs[k + 1..] == xs[1..][k..];
    }
  }

  lemma WithoutDistinct<T(!new)>(xs: seq<T>, id: T)
    requires Distinct(xs)
    ensures Distinct(Without(xs, id))
    ensures |Without(xs, id)| == |xs| - Bit(id in xs)
  {
    if id in xs {
      var k :| 0 <= k < |xs| && xs[k] == id;
      WithoutSplits(xs, k);
    } else {
      WithoutAbsent(xs, id);
    }
  }
}
