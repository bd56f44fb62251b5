// Iteration over Go maps: Go visits the keys of a map in an unspecified
// order, modelled by a nondeterministic choice of the next key.
module Collections {
  import opened Wrappers

  /** The keys of `m`, each once, in an order the caller cannot rely on. */
  method MapKeys<K, V>(m: map<K, V>) returns (ks: seq<K>)
    ensures forall k :: k in ks <==> k in m
    ensures forall i, j :: 0 <= i < j < |ks| ==> ks[i] != ks[j]
  {
    var rest := m.Keys;
    ks := [];
    while rest != {}
      invariant forall k :: k in m <==> k in ks || k in rest
      invariant forall k :: k in ks ==> k !in rest
      invariant forall i, j :: 0 <= i < j < |ks| ==> ks[i] != ks[j]
      decreases |rest|
    {
      var k :| k in rest;
      ks := ks + [k];
      rest := rest - {k};
    }
  }

  /** Each element mapped through a fallible function, stopping at the first
      failure (a Go loop that returns on the first error). */
  function TryMap<T, U>(xs: seq<T>, f: T -> Result<U>): (r: Result<seq<U>>)
    ensures r.Ok? ==> |r.value| == |xs|
  {
    if |xs| == 0 then Ok([])
    else
      var prev := TryMap(xs[..|xs| - 1], f);
      if prev.Err? then prev
      else
        var y := f(xs[|xs| - 1]);
        if y.Err? then Err(y.error) else Ok(prev.value + [y.value])
  }

  /** The loop computing `TryMap`. */
  method TryMapLoop<T, U>(xs: seq<T>, f: T -> Result<U>) returns (r: Result<seq<U>>)
    ensures r == TryMap(xs, f)
  {
    var ys: seq<U> := [];
    for i := 0 to |xs|
      invariant TryMap(xs[..i], f) == Ok(ys)
    {
      assert xs[..i + 1][..i] == xs[..i];
      var y := f(xs[i]);
      if y.Err? {
        r := Err(y.error);
        TryMapErrorPersists(xs, i + 1, f);
        return;
      }
      ys := ys + [y.value];
    }
    assert xs[..|xs|] == xs;
    r := Ok(ys);
  }

  lemma {:induction false} TryMapErrorPersists<T, U>(xs: seq<T>, n: nat, f: T -> Result<U>)
    requires n <= |xs| && TryMap(xs[..n], f).Err?
    ensures TryMap(xs, f) == TryMap(xs[..n], f)
    decreases |xs| - n
  {
    if n < |xs| {
      assert xs[..n + 1][..n] == xs[..n];
      TryMapErrorPersists(xs, n + 1, f);
    } else {
      assert xs[..n] == xs;
    }
  }

  /** `TryMap` succeeds exactly when every element does, with the elements'
      results in order; otherwise it fails with the first failure. */
  lemma {:induction false} TryMapPointwise<T, U>(xs: seq<T>, f: T -> Result<U>)
    ensures TryMap(xs, f).Ok? <==> forall i :: 0 <= i < |xs| ==> f(xs[i]).Ok?
    ensures TryMap(xs, f).Ok? ==> forall i :: 0 <= i < |xs| ==> TryMap(xs, f).value[i] == f(xs[i]).value
    ensures TryMap(xs, f).Err? ==> exists i ::
      && 0 <= i < |xs| && f(xs[i]).Err? && TryMap(xs, f).error == f(xs[i]).error
      && forall j :: 0 <= j < i ==> f(xs[j]).Ok?
  {
    if |xs| > 0 {
      var n := |xs| - 1;
      TryMapPointwise(xs[..n], f);
      assert forall i :: 0 <= i < n ==> xs[..n][i] == xs[i];
      if TryMap(xs[..n], f).Err? {
        var i :| 0 <= i < n && f(xs[..n][i]).Err? && TryMap(xs[..n], f).error == f(xs[..n][i]).error
                 && forall j :: 0 <= j < i ==> f(xs[..n][j]).Ok?;
        assert f(xs[i]).Err?;
      }
    }
  }

  /** Elements satisfying `p`, in order. */
  function Filter<T>(xs: seq<T>, p: T -> bool): seq<T>
  {
    if |xs| == 0 then [] else (if p(xs[0]) then [xs[0]] else []) + Filter(xs[1..], p)
  }

  /** Elements not satisfying `p`, in order. */
  function FilterOut<T>(xs: seq<T>, p: T -> bool): seq<T>
  {
    if |xs| == 0 then [] else (if p(xs[0]) then [] else [xs[0]]) + FilterOut(xs[1..], p)
  }

  /** A Go loop appending each element to one of two slices: those
      satisfying `p` and the others. */
  function Partition<T>(xs: seq<T>, p: T -> bool): (seq<T>, seq<T>)
  {
    if |xs| == 0 then ([], [])
    else
      var (yes, no) := Partition(xs[..|xs| - 1], p);
      var x := xs[|xs| - 1];
      if p(x) then (yes + [x], no) else (yes, no + [x])
  }

  lemma {:induction false} FilterAppend<T>(xs: seq<T>, x: T, p: T -> bool)
    ensures Filter(xs + [x], p) == Filter(xs, p) + (if p(x) then [x] else [])
    ensures FilterOut(xs + [x], p) == FilterOut(xs, p) + (if p(x) then [] else [x])
  {
    if |xs| > 0 {
      assert (xs + [x])[1..] == xs[1..] + [x];
      FilterAppend(xs[1..], x, p);
    }
  }

  /** The two slices of `Partition` are the elements satisfying `p` and the
      rest, each in the order of the input. */
  lemma {:induction false} PartitionFilters<T>(xs: seq<T>, p: T -> bool)
    ensures Partition(xs, p) == (Filter(xs, p), FilterOut(xs, p))
  {
    if |xs| > 0 {
      var n := |xs| - 1;
      PartitionFilters(xs[..n], p);
      FilterAppend(xs[..n], xs[n], p);
      assert xs[..n] + [xs[n]] == xs;
      if p(xs[n]) {
        assert Partition(xs, p) == (Filter(xs[..n], p) + [xs[n]], FilterOut(xs[..n], p));
        assert FilterOut(xs[..n], p) + [] == FilterOut(xs[..n], p);
      } else {
        assert Filter(xs[..n], p) + [] == Filter(xs[..n], p);
        assert Partition(xs, p) == (Filter(xs[..n], p), FilterOut(xs[..n], p) + [xs[n]]);
      }
    }
  }

  /** Every element lands in exactly one of the two slices, on the side its
      `p` decides. */
  lemma {:induction false} PartitionExactlyOnce<T>(xs: seq<T>, p: T -> bool)
    ensures multiset(Partition(xs, p).0) + multiset(Partition(xs, p).1) == multiset(xs)
    ensures forall x :: x in Partition(xs, p).0 ==> p(x)
    ensures forall x :: x in Partition(xs, p).1 ==> !p(x)
  {
    if |xs| > 0 {
      var n := |xs| - 1;
      PartitionExactlyOnce(xs[..n], p);
      assert xs[..n] + [xs[n]] == xs;
    }
  }

  /** `Filter` keeps exactly the elements satisfying `p`. */
  lemma {:induction false} FilterMembers<T>(xs: seq<T>, p: T -> bool)
    ensures forall x :: x in Filter(xs, p) <==> x in xs && p(x)
  {
    if |xs| > 0 {
      FilterMembers(xs[1..], p);
      assert xs == [xs[0]] + xs[1..];
    }
  }

  /** Partitioning a concatenation partitions each part. */
  lemma {:induction false} PartitionAppend<T>(xs: seq<T>, ys: seq<T>, p: T -> bool)
    ensures Partition(xs + ys, p) == (Partition(xs, p).0 + Partition(ys, p).0, Partition(xs, p).1 + Partition(ys, p).1)
    decreases |ys|
  {
    if |ys| == 0 {
      assert xs + ys == xs;
      assert Partition(xs, p).0 + [] == Partition(xs, p).0 && Partition(xs, p).1 + [] == Partition(xs, p).1;
    } else {
      var n := |ys| - 1;
      PartitionAppend(xs, ys[..n], p);
      assert (xs + ys)[..|xs + ys| - 1] == xs + ys[..n];
      assert (xs + ys)[|xs + ys| - 1] == ys[n];
      assert ys[..n] + [ys[n]] == ys;
      var a := Partition(xs, p);
      var b := Partition(ys[..n], p);
      if p(ys[n]) {
        assert Partition(ys, p) == (b.0 + [ys[n]], b.1);
        assert Partition(xs + ys, p) == (a.0 + b.0 + [ys[n]], a.1 + b.1);
        assert a.0 + (b.0 + [ys[n]]) == a.0 + b.0 + [ys[n]];
        assert Partition(xs + ys, p) == (a.0 + Partition(ys, p).0, a.1 + Partition(ys, p).1);
      } else {
        assert Partition(ys, p) == (b.0, b.1 + [ys[n]]);
        assert Partition(xs + ys, p) == (a.0 + b.0, a.1 + b.1 + [ys[n]]);
        assert a.1 + (b.1 + [ys[n]]) == a.1 + b.1 + [ys[n]];
        assert Partition(xs + ys, p) == (a.0 + Partition(ys, p).0, a.1 + Partition(ys, p).1);
      }
    }
  }
}
