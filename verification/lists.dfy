/** Order-preserving filters over sequences: the shape of every "skip this
    entry and carry on" loop in the system. */
module Lists {
  import opened Wrappers

  /** The present results of `f`, in input order. */
  function FilterMap<T, U>(xs: seq<T>, f: T -> Option<U>): (ys: seq<U>)
    ensures |ys| <= |xs|
    decreases |xs|
  {
    if |xs| == 0 then []
    else match f(xs[0])
      case Some(y) => [y] + FilterMap(xs[1..], f)
      case None => FilterMap(xs[1..], f)
  }

  /** The elements satisfying `p`, in input order. */
  function Filter<T>(xs: seq<T>, p: T -> bool): (ys: seq<T>)
    ensures |ys| <= |xs|
    ensures forall y :: y in ys ==> y in xs && p(y)
    decreases |xs|
  {
    if |xs| == 0 then []
    else if p(xs[0]) then [xs[0]] + Filter(xs[1..], p)
    else Filter(xs[1..], p)
  }

  lemma {:induction false} FilterMapAppend<T, U>(xs: seq<T>, x: T, f: T -> Option<U>)
    ensures FilterMap(xs + [x], f)
         == FilterMap(xs, f) + (if f(x).Some? then [f(x).value] else [])
    decreases |xs|
  {
    if |xs| == 0 {
      assert [x][1..] == [];
      assert xs + [x] == [x];
    } else {
      assert (xs + [x])[1..] == xs[1..] + [x];
      FilterMapAppend(xs[1..], x, f);
    }
  }

  /** `ys` is what `f` yields at the positions `ps` of `xs`: the positions
      rise, each yields its element of `ys`, and every position of `xs` where
      `f` yields something is among them. */
  ghost predicate PicksInOrder<T, U>(xs: seq<T>, f: T -> Option<U>, ps: seq<nat>, ys: seq<U>) {
    && |ps| == |ys|
    && (forall k :: 0 <= k < |ps| ==> ps[k] < |xs| && f(xs[ps[k]]) == Some(ys[k]))
    && (forall k, l :: 0 <= k < l < |ps| ==> ps[k] < ps[l])
    && (forall i :: 0 <= i < |xs| && f(xs[i]).Some? ==> i in ps)
  }

  /** The positions of `xs` where `f` yields something, in increasing order. */
  function Positions<T, U>(xs: seq<T>, f: T -> Option<U>): seq<nat>
    decreases |xs|
  {
    if |xs| == 0 then []
    else Positions(xs[..|xs| - 1], f) + (if f(xs[|xs| - 1]).Some? then [|xs| - 1] else [])
  }

  /** Picks from all but the last element of `xs` extend to picks from `xs`
      by the last element's result, when it has one. */
  lemma PicksExtend<T, U>(xs: seq<T>, f: T -> Option<U>, ps: seq<nat>, ys: seq<U>)
    requires |xs| > 0 && PicksInOrder(xs[..|xs| - 1], f, ps, ys)
    ensures f(xs[|xs| - 1]).None? ==> PicksInOrder(xs, f, ps, ys)
    ensures f(xs[|xs| - 1]).Some? ==> PicksInOrder(xs, f, ps + [|xs| - 1], ys + [f(xs[|xs| - 1]).value])
  {
    var n := |xs| - 1;
    var init := xs[..n];
    assert forall i :: 0 <= i < n ==> xs[i] == init[i];
    if f(xs[n]).Some? {
      var ps' := ps + [n];
      var ys' := ys + [f(xs[n]).value];
      forall k | 0 <= k < |ps|
        ensures ps'[k] == ps[k] < n && ys'[k] == ys[k]
      {
      }
      assert forall i :: 0 <= i < |xs| && f(xs[i]).Some? ==> i in ps';
    }
  }

  /** What `FilterMap` keeps, independently of how it is computed: the
      results of `f` at the positions where it yields one, in position
      order. */
  lemma {:induction false} FilterMapPicks<T, U>(xs: seq<T>, f: T -> Option<U>)
    ensures PicksInOrder(xs, f, Positions(xs, f), FilterMap(xs, f))
    decreases |xs|
  {
    if |xs| > 0 {
      var n := |xs| - 1;
      var init := xs[..n];
      FilterMapPicks(init, f);
      assert init + [xs[n]] == xs;
      FilterMapAppend(init, xs[n], f);
      PicksExtend(xs, f, Positions(init, f), FilterMap(init, f));
    }
  }

  /** An element is kept exactly when `f` yields it at some position. */
  lemma FilterMapMembership<T, U>(xs: seq<T>, f: T -> Option<U>)
    ensures forall y :: y in FilterMap(xs, f) <==> exists i :: 0 <= i < |xs| && f(xs[i]) == Some(y)
  {
    FilterMapPicks(xs, f);
    var ps := Positions(xs, f);
    var ys := FilterMap(xs, f);
    forall y ensures y in ys <==> exists i :: 0 <= i < |xs| && f(xs[i]) == Some(y) {
      if y in ys {
        var k :| 0 <= k < |ys| && ys[k] == y;
        assert f(xs[ps[k]]) == Some(y);
      }
      if exists i :: 0 <= i < |xs| && f(xs[i]) == Some(y) {
        var i :| 0 <= i < |xs| && f(xs[i]) == Some(y);
        assert i in ps;
        var k :| 0 <= k < |ps| && ps[k] == i;
        assert ys[k] == y;
      }
    }
  }

  /** Where `f` yields something everywhere, nothing is dropped. */
  lemma {:induction false} FilterMapTotal<T, U>(xs: seq<T>, f: T -> Option<U>)
    requires forall i :: 0 <= i < |xs| ==> f(xs[i]).Some?
    ensures |FilterMap(xs, f)| == |xs|
    ensures forall i :: 0 <= i < |xs| ==> FilterMap(xs, f)[i] == f(xs[i]).value
    decreases |xs|
  {
    if |xs| > 0 {
      assert forall i :: 1 <= i < |xs| ==> xs[i] == xs[1..][i - 1];
      FilterMapTotal(xs[1..], f);
    }
  }

  lemma {:induction false} FilterAppend<T>(xs: seq<T>, x: T, p: T -> bool)
    ensures Filter(xs + [x], p) == Filter(xs, p) + (if p(x) then [x] else [])
    decreases |xs|
  {
    if |xs| == 0 {
      assert [x][1..] == [];
      assert xs + [x] == [x];
    } else {
      var last := if p(x) then [x] else [];
      assert (xs + [x])[0] == xs[0];
      assert (xs + [x])[1..] == xs[1..] + [x];
      FilterAppend(xs[1..], x, p);
      if p(xs[0]) {
        assert Filter(xs + [x], p) == [xs[0]] + (Filter(xs[1..], p) + last);
        assert [xs[0]] + (Filter(xs[1..], p) + last) == ([xs[0]] + Filter(xs[1..], p)) + last;
      }
    }
  }

  /** Every element satisfying `p` survives, as many times as it occurs. */
  lemma {:induction false} FilterKeepsAll<T>(xs: seq<T>, p: T -> bool)
    ensures forall x :: p(x) ==> multiset(Filter(xs, p))[x] == multiset(xs)[x]
    ensures forall x :: !p(x) ==> multiset(Filter(xs, p))[x] == 0
    decreases |xs|
  {
    if |xs| > 0 {
      FilterKeepsAll(xs[1..], p);
      assert xs == [xs[0]] + xs[1..];
    }
  }

  /** Filtering twice with the same test changes nothing. */
  lemma {:induction false} FilterIdempotent<T>(xs: seq<T>, p: T -> bool)
    ensures Filter(Filter(xs, p), p) == Filter(xs, p)
    decreases |xs|
  {
    if |xs| > 0 {
      FilterIdempotent(xs[1..], p);
      if p(xs[0]) {
        assert ([xs[0]] + Filter(xs[1..], p))[1..] == Filter(xs[1..], p);
      }
    }
  }
}
