/** Facts about sequences that several components share. */
module Sequences {

  datatype Option<+T> = None | Some(value: T)

  function Flatten<T>(ss: seq<seq<T>>): (r: seq<T>)
  {
    if ss == [] then [] else ss[0] + Flatten(ss[1..])
  }

  lemma {:induction false} FlattenConcat<T>(a: seq<seq<T>>, b: seq<seq<T>>)
    ensures Flatten(a + b) == Flatten(a) + Flatten(b)
  {
    if a == [] {
      assert a + b == b;
    } else {
      calc {
        Flatten(a + b);
        { assert (a + b)[1..] == a[1..] + b; }
        a[0] + Flatten(a[1..] + b);
        { FlattenConcat(a[1..], b); }
        a[0] + (Flatten(a[1..]) + Flatten(b));
        (a[0] + Flatten(a[1..])) + Flatten(b);
      }
    }
  }

  lemma {:induction false} FlattenSnoc<T>(ss: seq<seq<T>>, s: seq<T>)
    ensures Flatten(ss + [s]) == Flatten(ss) + s
  {
    FlattenConcat(ss, [s]);
    assert Flatten([s]) == s;
  }

  function Sum(xs: seq<nat>): (r: nat)
  {
    if xs == [] then 0 else xs[0] + Sum(xs[1..])
  }

  lemma {:induction false} SumConcat(a: seq<nat>, b: seq<nat>)
    ensures Sum(a + b) == Sum(a) + Sum(b)
  {
    if a == [] {
      assert a + b == b;
    } else {
      SumConcat(a[1..], b);
      assert (a + b)[1..] == a[1..] + b;
    }
  }

  lemma {:induction false} SumSnoc(xs: seq<nat>, x: nat)
    ensures Sum(xs + [x]) == Sum(xs) + x
  {
    SumConcat(xs, [x]);
    assert Sum([x]) == x;
  }

  lemma {:induction false} SumSplit(xs: seq<nat>, k: nat)
    requires k <= |xs|
    ensures Sum(xs) == Sum(xs[..k]) + Sum(xs[k..])
  {
    SumConcat(xs[..k], xs[k..]);
    assert xs[..k] + xs[k..] == xs;
  }

  lemma SumPrefixStep(xs: seq<nat>, k: nat)
    requires k < |xs|
    ensures Sum(xs[..k + 1]) == Sum(xs[..k]) + xs[k]
  {
    assert xs[..k + 1] == xs[..k] + [xs[k]];
    SumSnoc(xs[..k], xs[k]);
  }

  /** The flattening of `ss` splits at the boundary before `ss[k]`. */
  lemma {:induction false} FlattenAt<T>(ss: seq<seq<T>>, k: nat)
    requires k < |ss|
    ensures |Flatten(ss)| == |Flatten(ss[..k])| + |ss[k]| + |Flatten(ss[k + 1..])|
    ensures Flatten(ss) == Flatten(ss[..k]) + ss[k] + Flatten(ss[k + 1..])
  {
    assert ss == ss[..k] + ([ss[k]] + ss[k + 1..]);
    FlattenConcat(ss[..k], [ss[k]] + ss[k + 1..]);
    assert ([ss[k]] + ss[k + 1..])[1..] == ss[k + 1..];
  }

  /** The sequence `xs` without position `i`. */
  function RemoveAt<T>(xs: seq<T>, i: nat): (r: seq<T>)
    requires i < |xs|
    ensures |r| == |xs| - 1
    ensures multiset(r) == multiset(xs) - multiset{xs[i]}
  {
    assert xs == xs[..i] + [xs[i]] + xs[i + 1..];
    xs[..i] + xs[i + 1..]
  }

  lemma RemoveAtTail<T>(xs: seq<T>, i: nat)
    requires 0 < i < |xs|
    ensures RemoveAt(xs, i) == [xs[0]] + RemoveAt(xs[1..], i - 1)
    ensures RemoveAt(xs, i)[1..] == RemoveAt(xs[1..], i - 1) && xs[1..][i - 1] == xs[i]
  {
  }

  /** A prefix grows by its next element, also behind something else. */
  lemma ExtendPrefix<T>(a: seq<T>, xs: seq<T>, j: nat)
    requires j < |xs|
    ensures a + xs[..j + 1] == a + xs[..j] + [xs[j]]
  {
    assert xs[..j + 1] == xs[..j] + [xs[j]];
  }

  /** n copies of x. */
  function Repeat<T>(x: T, n: nat): (r: seq<T>)
    ensures |r| == n && forall i :: 0 <= i < n ==> r[i] == x
  {
    seq(n, i => x)
  }
}
