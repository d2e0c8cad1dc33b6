/** Sequence operations that the storefront takes from JavaScript's Array
    prototype: `filter`, `find` and `findIndex`. */
module Seqs {
  import opened Wrappers

  /** The positions of `s` whose elements satisfy `p`, in increasing order:
      `PositionsSatisfy`, `PositionsSorted` and `PositionsComplete` show that each such position is
      listed exactly once. */
  ghost function Positions<T>(p: T -> bool, s: seq<T>): (ix: seq<int>)
  {
    if s == [] then [] else (if p(s[0]) then [0] else []) + Shift(Positions(p, s[1..]))
  }

  /** Every listed position is inside `s` and satisfies `p`. */
  lemma {:induction false} PositionsSatisfy<T>(p: T -> bool, s: seq<T>)
    ensures forall k :: 0 <= k < |Positions(p, s)| ==> 0 <= Positions(p, s)[k] < |s| && p(s[Positions(p, s)[k]])
  {
    if s != [] {
      PositionsSatisfy(p, s[1..]);
      var t := Positions(p, s[1..]);
      var u := Shift(t);
      forall k | 0 <= k < |u| ensures 0 <= u[k] < |s| && p(s[u[k]]) {
        assert s[1..][t[k]] == s[u[k]];
      }
      var P := Positions(p, s);
      assert P == if p(s[0]) then [0] + u else u;
    }
  }

  predicate Increasing(ix: seq<int>) {
    forall k, l :: 0 <= k < l < |ix| ==> ix[k] < ix[l]
  }

  /** Adding one to every entry keeps the order, and putting a smaller entry in
      front keeps it too. */
  lemma ShiftIncreasing(t: seq<int>, lead: bool)
    requires Increasing(t) && forall k :: 0 <= k < |t| ==> 0 <= t[k]
    ensures Increasing(if lead then [0] + Shift(t) else Shift(t))
  {
    var u := Shift(t);
    assert Increasing(u);
    if lead {
      var v := [0] + u;
      forall k, l | 0 <= k < l < |v| ensures v[k] < v[l] {
        assert v[l] == u[l - 1];
        if k > 0 {
          assert v[k] == u[k - 1];
        }
      }
    }
  }

  /** The listed positions strictly increase, so none is listed twice. */
  lemma {:induction false} PositionsSorted<T>(p: T -> bool, s: seq<T>)
    ensures Increasing(Positions(p, s))
  {
    if s != [] {
      PositionsSorted(p, s[1..]);
      PositionsSatisfy(p, s[1..]);
      ShiftIncreasing(Positions(p, s[1..]), p(s[0]));
    }
  }

  /** Every position whose element satisfies `p` is listed. */
  lemma {:induction false} PositionsComplete<T>(p: T -> bool, s: seq<T>, i: nat)
    requires i < |s| && p(s[i])
    ensures i in Positions(p, s)
  {
    var P := Positions(p, s);
    if i == 0 {
      assert P[0] == 0;
    } else {
      var t := Positions(p, s[1..]);
      assert s[1..][i - 1] == s[i];
      PositionsComplete(p, s[1..], i - 1);
      var k :| 0 <= k < |t| && t[k] == i - 1;
      assert Shift(t)[k] == i;
      assert P[k + (if p(s[0]) then 1 else 0)] == i;
    }
  }

  function Shift(t: seq<int>): (u: seq<int>)
    ensures |u| == |t| && forall k :: 0 <= k < |u| ==> u[k] == t[k] + 1
  {
    if t == [] then [] else [t[0] + 1] + Shift(t[1..])
  }

  /** `r` is `s` read at the indices `ix`, in turn. */
  ghost predicate SelectedAt<T>(r: seq<T>, s: seq<T>, ix: seq<int>) {
    && |r| == |ix|
    && forall k {:trigger ix[k]} :: 0 <= k < |r| ==> 0 <= ix[k] < |s| && r[k] == s[ix[k]]
  }

  /** `Array.prototype.filter`: the elements satisfying `p`, in their original
      order; `FilterAtPositions` pins that order down. */
  function Filter<T>(p: T -> bool, s: seq<T>): (r: seq<T>)
    ensures |r| <= |s|
    ensures forall i :: 0 <= i < |r| ==> r[i] in s && p(r[i])
    ensures forall i :: 0 <= i < |s| && p(s[i]) ==> s[i] in r
  {
    if s == [] then [] else (if p(s[0]) then [s[0]] else []) + Filter(p, s[1..])
  }

  /** Reading the tail of `s` at `ix` is reading `s` at the shifted indices. */
  lemma SelectedShift<T>(r: seq<T>, s: seq<T>, ix: seq<int>)
    requires s != [] && SelectedAt(r, s[1..], ix)
    ensures SelectedAt(r, s, Shift(ix))
  {
    var u := Shift(ix);
    forall k | 0 <= k < |r| ensures 0 <= u[k] < |s| && r[k] == s[u[k]] {
      assert 0 <= ix[k] < |s[1..]| && r[k] == s[1..][ix[k]];
    }
  }

  /** Reading position 0 first puts the head of `s` in front. */
  lemma SelectedCons<T>(r: seq<T>, s: seq<T>, ix: seq<int>)
    requires s != [] && SelectedAt(r, s, ix)
    ensures SelectedAt([s[0]] + r, s, [0] + ix)
  {
    var r', ix' := [s[0]] + r, [0] + ix;
    forall k | 0 < k < |r'| ensures 0 <= ix'[k] < |s| && r'[k] == s[ix'[k]] {
      assert r'[k] == r[k - 1] && ix'[k] == ix[k - 1];
    }
  }

  /** The result of `Filter` is `s` read at `Positions(p, s)`: every element
      that satisfies `p`, as often as it occurs, in the order of `s`. */
  lemma {:induction false} FilterAtPositions<T>(p: T -> bool, s: seq<T>)
    ensures SelectedAt(Filter(p, s), s, Positions(p, s))
  {
    if s != [] {
      var t, u := Filter(p, s[1..]), Positions(p, s[1..]);
      FilterAtPositions(p, s[1..]);
      SelectedShift(t, s, u);
      if p(s[0]) {
        SelectedCons(t, s, Shift(u));
        assert Filter(p, s) == [s[0]] + t && Positions(p, s) == [0] + Shift(u);
      } else {
        assert Filter(p, s) == t && Positions(p, s) == Shift(u);
      }
    }
  }

  /** Filtering keeps every element that satisfies `p` as often as `s` holds
      it, and drops every other. */
  lemma {:induction false} FilterMultiplicity<T>(p: T -> bool, s: seq<T>, x: T)
    ensures multiset(Filter(p, s))[x] == if p(x) then multiset(s)[x] else 0
  {
    if s != [] {
      FilterMultiplicity(p, s[1..], x);
      var h := if p(s[0]) then [s[0]] else [];
      assert s == [s[0]] + s[1..];
      assert multiset(s) == multiset([s[0]]) + multiset(s[1..]);
      assert multiset(Filter(p, s)) == multiset(h) + multiset(Filter(p, s[1..]));
    }
  }

  /** Filtering distributes over concatenation; with `Filter(p, [x])` this fixes
      the order of the result: it is the subsequence of the kept elements. */
  lemma {:induction false} FilterConcat<T>(p: T -> bool, a: seq<T>, b: seq<T>)
    ensures Filter(p, a + b) == Filter(p, a) + Filter(p, b)
  {
    if a == [] {
      assert a + b == b;
    } else {
      assert (a + b)[1..] == a[1..] + b;
      FilterConcat(p, a[1..], b);
    }
  }

  /** Filtering with a predicate that holds everywhere changes nothing. */
  lemma {:induction false} FilterKeepsAll<T>(p: T -> bool, s: seq<T>)
    requires forall i :: 0 <= i < |s| ==> p(s[i])
    ensures Filter(p, s) == s
  {
    if s != [] {
      FilterKeepsAll(p, s[1..]);
    }
  }

  /** Appending one element: it is kept at the end exactly when it satisfies `p`. */
  lemma FilterSnoc<T>(p: T -> bool, s: seq<T>, x: T)
    ensures Filter(p, s + [x]) == Filter(p, s) + (if p(x) then [x] else [])
  {
    FilterConcat(p, s, [x]);
    assert Filter(p, [x]) == (if p(x) then [x] else []) + Filter(p, []);
  }

  /** An element that fails `p` leaves no trace in the filtered sequence. */
  lemma FilterSkips<T>(p: T -> bool, a: seq<T>, x: T, b: seq<T>)
    requires !p(x)
    ensures Filter(p, a + [x] + b) == Filter(p, a + b)
  {
    FilterConcat(p, a + [x], b);
    FilterSnoc(p, a, x);
    FilterConcat(p, a, b);
  }

  /** `Array.prototype.findIndex`: the first index whose element satisfies `p`
      (`None` plays the part of `-1`). */
  function FindIndex<T>(p: T -> bool, s: seq<T>): (r: Option<nat>)
    ensures r.Some? ==> r.value < |s| && p(s[r.value])
    ensures r.Some? ==> forall j :: 0 <= j < r.value ==> !p(s[j])
    ensures r.None? <==> forall j :: 0 <= j < |s| ==> !p(s[j])
  {
    if s == [] then None
    else if p(s[0]) then Some(0)
    else match FindIndex(p, s[1..])
      case None => None
      case Some(k) => Some(k + 1)
  }

  /** `Array.prototype.find`: the first element satisfying `p`. */
  function Find<T>(p: T -> bool, s: seq<T>): (r: Option<T>)
    ensures r.Some? ==> r.value in s && p(r.value)
    ensures r.Some? ==> exists i :: 0 <= i < |s| && s[i] == r.value && forall j :: 0 <= j < i ==> !p(s[j])
    ensures r.None? <==> forall j :: 0 <= j < |s| ==> !p(s[j])
  {
    match FindIndex(p, s)
    case None => None
    case Some(i) => Some(s[i])
  }
}
