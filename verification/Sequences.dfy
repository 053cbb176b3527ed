/** Sequence facts shared by every component: concatenating a list of lists, and
    gathering what each member of a list contributes. */
module Sequences {

  /** The concatenation of a list of lists. */
  function Flatten<T>(parts: seq<seq<T>>): (whole: seq<T>) {
    if parts == [] then [] else parts[0] + Flatten(parts[1..])
  }

  lemma {:induction false} FlattenConcat<T>(a: seq<seq<T>>, b: seq<seq<T>>)
    ensures Flatten(a + b) == Flatten(a) + Flatten(b)
  {
    if a == [] {
      assert a + b == b;
    } else {
      assert (a + b)[0] == a[0] && (a + b)[1..] == a[1..] + b;
      FlattenConcat(a[1..], b);
    }
  }

  lemma FlattenOne<T>(part: seq<T>)
    ensures Flatten([part]) == part
  {
    assert Flatten([part]) == part + Flatten([part][1..]);
  }

  lemma FlattenSnoc<T>(parts: seq<seq<T>>, part: seq<T>)
    ensures Flatten(parts + [part]) == Flatten(parts) + part
  {
    FlattenConcat(parts, [part]);
    FlattenOne(part);
  }

  lemma RemoveSame<T>(a: seq<T>, b: seq<T>, j: nat)
    requires a != [] && j < |b| && b[j] == a[0] && multiset(a) == multiset(b)
    ensures multiset(a[1..]) == multiset(b[..j] + b[j + 1..])
  {
    assert a == [a[0]] + a[1..];
    assert b == b[..j] + ([b[j]] + b[j + 1..]);
    assert multiset(a[1..]) == multiset(a) - multiset{a[0]};
    assert multiset(b) == multiset{b[j]} + multiset(b[..j] + b[j + 1..]);
  }

  /** Reordering the parts reorders the whole: no element is gained or lost. */
  lemma {:induction false} FlattenPermutation<T>(a: seq<seq<T>>, b: seq<seq<T>>)
    requires multiset(a) == multiset(b)
    ensures multiset(Flatten(a)) == multiset(Flatten(b))
    ensures |Flatten(a)| == |Flatten(b)|
  {
    if a == [] {
      assert |multiset(b)| == |b| == 0;
    } else {
      assert a[0] in multiset(b);
      var j :| 0 <= j < |b| && b[j] == a[0];
      RemoveSame(a, b, j);
      FlattenPermutation(a[1..], b[..j] + b[j + 1..]);
      FlattenAt(b, j);
    }
  }

  lemma FlattenAt<T>(b: seq<seq<T>>, j: nat)
    requires j < |b|
    ensures multiset(Flatten(b)) == multiset(b[j]) + multiset(Flatten(b[..j] + b[j + 1..]))
    ensures |Flatten(b)| == |b[j]| + |Flatten(b[..j] + b[j + 1..])|
  {
    FlattenConcat(b[..j], b[j + 1..]);
    FlattenConcat(b[..j] + [b[j]], b[j + 1..]);
    FlattenSnoc(b[..j], b[j]);
    assert b == b[..j] + [b[j]] + b[j + 1..];
    hide Flatten;
  }

  /** Parts of bounded length have a whole of bounded length. */
  lemma {:induction false} FlattenBound<T>(parts: seq<seq<T>>, most: nat)
    requires forall p :: p in parts ==> |p| <= most
    ensures |Flatten(parts)| <= |parts| * most
  {
    if parts == [] {
    } else {
      FlattenBound(parts[1..], most);
      OneMore(|parts| - 1, most);
    }
  }

  lemma OneMore(n: nat, x: nat)
    ensures (n + 1) * x == n * x + x
  {
  }

  /** Parts that are never empty have a whole at least as long as their number. */
  lemma {:induction false} FlattenAtLeast<T>(parts: seq<seq<T>>)
    requires forall p :: p in parts ==> |p| >= 1
    ensures |parts| <= |Flatten(parts)|
  {
    if parts == [] {
    } else {
      FlattenAtLeast(parts[1..]);
    }
  }

  lemma {:induction false} FlattenMember<T>(parts: seq<seq<T>>, x: T)
    ensures x in Flatten(parts) <==> exists p :: p in parts && x in p
  {
    if parts == [] {
    } else {
      FlattenMember(parts[1..], x);
      assert forall p :: p in parts <==> p == parts[0] || p in parts[1..];
    }
  }

  /** If every part of `a` is a part of `b`, every element of `a` is one of `b`. */
  lemma FlattenWithin<T>(a: seq<seq<T>>, b: seq<seq<T>>)
    requires forall p :: p in a ==> p in b
    ensures forall x :: x in Flatten(a) ==> x in Flatten(b)
  {
    forall x | x in Flatten(a)
      ensures x in Flatten(b)
    {
      FlattenMember(a, x);
      FlattenMember(b, x);
    }
  }

  /** What the members of `xs` contribute, in order. */
  function Gather<T, U>(xs: seq<T>, give: T -> seq<U>): (all: seq<U>) {
    if xs == [] then [] else give(xs[0]) + Gather(xs[1..], give)
  }

  lemma {:induction false} GatherConcat<T, U>(a: seq<T>, b: seq<T>, give: T -> seq<U>)
    ensures Gather(a + b, give) == Gather(a, give) + Gather(b, give)
  {
    if a == [] {
      assert a + b == b;
    } else {
      assert (a + b)[0] == a[0] && (a + b)[1..] == a[1..] + b;
      GatherConcat(a[1..], b, give);
    }
  }

  /** Changing one member changes only that member's contribution. */
  lemma GatherSplit<T, U>(xs: seq<T>, i: nat, x: T, give: T -> seq<U>)
    requires i < |xs|
    ensures Gather(xs, give) == Gather(xs[..i], give) + give(xs[i]) + Gather(xs[i + 1..], give)
    ensures Gather(xs[i := x], give) == Gather(xs[..i], give) + give(x) + Gather(xs[i + 1..], give)
  {
    assert xs == xs[..i] + ([xs[i]] + xs[i + 1..]);
    assert xs[i := x] == xs[..i] + ([x] + xs[i + 1..]);
    forall y {
      GatherConcat(xs[..i], [y] + xs[i + 1..], give);
    }
    assert Gather([xs[i]] + xs[i + 1..], give) == give(xs[i]) + Gather(xs[i + 1..], give) by {
      assert ([xs[i]] + xs[i + 1..])[1..] == xs[i + 1..];
    }
    assert Gather([x] + xs[i + 1..], give) == give(x) + Gather(xs[i + 1..], give) by {
      assert ([x] + xs[i + 1..])[1..] == xs[i + 1..];
    }
  }

  lemma GatherSnoc<T, U>(xs: seq<T>, x: T, give: T -> seq<U>)
    ensures Gather(xs + [x], give) == Gather(xs, give) + give(x)
  {
    GatherConcat(xs, [x], give);
    assert Gather([x], give) == give(x) + Gather([x][1..], give);
  }

  lemma {:induction false} GatherBound<T, U>(xs: seq<T>, give: T -> seq<U>)
    requires forall x :: x in xs ==> |give(x)| <= 1
    ensures |Gather(xs, give)| <= |xs|
  {
    if xs == [] {
    } else {
      GatherBound(xs[1..], give);
    }
  }

  lemma {:induction false} GatherMember<T, U>(xs: seq<T>, give: T -> seq<U>, u: U)
    ensures u in Gather(xs, give) <==> exists i :: 0 <= i < |xs| && u in give(xs[i])
  {
    if xs == [] {
    } else {
      GatherMember(xs[1..], give, u);
      forall i | 1 <= i < |xs| && u in give(xs[i])
        ensures u in Gather(xs[1..], give)
      {
        assert xs[1..][i - 1] == xs[i];
      }
      if u in Gather(xs[1..], give) {
        var k :| 0 <= k < |xs[1..]| && u in give(xs[1..][k]);
        assert xs[k + 1] == xs[1..][k];
      }
    }
  }

  /** Members that contribute nothing gather to nothing. */
  lemma {:induction false} GatherNothing<T, U>(xs: seq<T>, give: T -> seq<U>)
    requires forall x :: x in xs ==> give(x) == []
    ensures Gather(xs, give) == []
  {
    if xs == [] {
    } else {
      GatherNothing(xs[1..], give);
    }
  }

  /** The sum of a weight over a list. */
  function Sum<T>(xs: seq<T>, weight: T -> nat): (total: nat) {
    if xs == [] then 0 else weight(xs[0]) + Sum(xs[1..], weight)
  }

  lemma {:induction false} SumUpdate<T>(xs: seq<T>, i: nat, x: T, weight: T -> nat)
    requires i < |xs|
    ensures Sum(xs[i := x], weight) == Sum(xs, weight) - weight(xs[i]) + weight(x)
  {
    if i == 0 {
      assert xs[i := x][1..] == xs[1..];
    } else {
      assert xs[i := x][1..] == xs[1..][i - 1 := x];
      SumUpdate(xs[1..], i - 1, x, weight);
    }
  }

  lemma {:induction false} SumSnoc<T>(xs: seq<T>, x: T, weight: T -> nat)
    ensures Sum(xs + [x], weight) == Sum(xs, weight) + weight(x)
  {
    if xs == [] {
      assert xs + [x] == [x];
    } else {
      assert (xs + [x])[1..] == xs[1..] + [x];
      SumSnoc(xs[1..], x, weight);
    }
  }
}
