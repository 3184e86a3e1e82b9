/** Values shared by every module: optional values, what a host port answers, and
    the few operations on sequences that the rest of the model needs. */
module Basics {

  datatype Option<+T> = None | Some(value: T)

  /** What a call into the host gives back: a value, or an exception of some type. */
  datatype Answer<+T> = Ok(value: T) | Raise(exception: string)

  predicate Distinct<T(==)>(xs: seq<T>) {
    forall i, j :: 0 <= i < j < |xs| ==> xs[i] != xs[j]
  }

  function Elements<T(==)>(xs: seq<T>): set<T> {
    set x | x in xs
  }

  /** The sequence lists members of the set only. */
  predicate Inside<T(==)>(xs: seq<T>, known: set<T>) {
    forall x :: x in xs ==> x in known
  }

  function Map<T, U>(f: T -> U, xs: seq<T>): (ys: seq<U>)
    ensures |ys| == |xs|
    ensures forall i :: 0 <= i < |xs| ==> ys[i] == f(xs[i])
  {
    seq(|xs|, i requires 0 <= i < |xs| => f(xs[i]))
  }

  function Flatten<T>(xss: seq<seq<T>>): seq<T> {
    if xss == [] then [] else Flatten(xss[..|xss| - 1]) + xss[|xss| - 1]
  }

  /** Appending one block appends its elements. */
  lemma FlattenSnoc<T>(xss: seq<seq<T>>, xs: seq<T>)
    ensures Flatten(xss + [xs]) == Flatten(xss) + xs
  {
    assert (xss + [xs])[..|xss|] == xss;
  }

  lemma {:induction false} FlattenLength<T>(xss: seq<seq<T>>, width: nat)
    requires forall i :: 0 <= i < |xss| ==> |xss[i]| == width
    ensures |Flatten(xss)| == width * |xss|
  {
    if xss != [] {
      FlattenLength(xss[..|xss| - 1], width);
      assert width * |xss| == width * (|xss| - 1) + width;
    }
  }

  /** The elements that pass the test, in order. */
  function Filter<T>(keep: T -> bool, xs: seq<T>): seq<T> {
    if xs == [] then []
    else
      var last := xs[|xs| - 1];
      Filter(keep, xs[..|xs| - 1]) + (if keep(last) then [last] else [])
  }

  lemma {:induction false} FilterMembers<T>(keep: T -> bool, xs: seq<T>, x: T)
    ensures x in Filter(keep, xs) <==> x in xs && keep(x)
  {
    if xs != [] {
      var front, last := xs[..|xs| - 1], xs[|xs| - 1];
      FilterMembers(keep, front, x);
      assert xs == front + [last];
    }
  }

  /** Filtering repeats nothing. */
  lemma {:induction false} FilterMultiset<T>(keep: T -> bool, xs: seq<T>)
    ensures multiset(Filter(keep, xs)) <= multiset(xs)
  {
    if xs != [] {
      FilterMultiset(keep, xs[..|xs| - 1]);
      assert xs == xs[..|xs| - 1] + [xs[|xs| - 1]];
    }
  }

  predicate Increasing(xs: seq<nat>) {
    forall i, j :: 0 <= i < j < |xs| ==> xs[i] < xs[j]
  }

  lemma IncreasingSnoc(xs: seq<nat>, n: nat)
    requires Increasing(xs) && forall k :: 0 <= k < |xs| ==> xs[k] < n
    ensures Increasing(xs + [n])
  {
  }

  predicate PickedAt<T(==)>(xs: seq<T>, x: T, pick: nat) {
    pick < |xs| && xs[pick] == x
  }

  /** Where the elements that pass the test stand. */
  lemma {:induction false} FilterPicks<T>(keep: T -> bool, xs: seq<T>) returns (picks: seq<nat>)
    ensures Increasing(picks) && |picks| == |Filter(keep, xs)|
    ensures forall k :: 0 <= k < |picks| ==> PickedAt(xs, Filter(keep, xs)[k], picks[k])
    ensures forall i :: 0 <= i < |xs| ==> (i in picks <==> keep(xs[i]))
  {
    picks := [];
    if xs != [] {
      var last := |xs| - 1;
      var front := Filter(keep, xs[..last]);
      picks := FilterPicks(keep, xs[..last]);
      forall k | 0 <= k < |picks| ensures picks[k] < last && PickedAt(xs, front[k], picks[k]) {
        assert PickedAt(xs[..last], front[k], picks[k]);
      }
      forall i | 0 <= i < last ensures i in picks <==> keep(xs[i]) {
        assert xs[..last][i] == xs[i];
      }
      assert Filter(keep, xs) == front + (if keep(xs[last]) then [xs[last]] else []);
      assert last !in picks;
      if keep(xs[last]) {
        PicksGrow(keep, xs, front, picks);
        picks := picks + [last];
      }
    }
  }

  lemma PicksGrow<T>(keep: T -> bool, xs: seq<T>, front: seq<T>, picks: seq<nat>)
    requires xs != [] && |picks| == |front| && Increasing(picks) && keep(xs[|xs| - 1])
    requires forall k :: 0 <= k < |picks| ==> picks[k] < |xs| - 1 && PickedAt(xs, front[k], picks[k])
    requires forall i :: 0 <= i < |xs| - 1 ==> (i in picks <==> keep(xs[i]))
    ensures var more, found := picks + [|xs| - 1], front + [xs[|xs| - 1]];
      && Increasing(more) && (forall k :: 0 <= k < |more| ==> PickedAt(xs, found[k], more[k]))
      && forall i :: 0 <= i < |xs| ==> (i in more <==> keep(xs[i]))
  {
    IncreasingSnoc(picks, |xs| - 1);
  }

  lemma FilterSnoc<T>(keep: T -> bool, xs: seq<T>, i: nat)
    requires i < |xs|
    ensures Filter(keep, xs[..i + 1]) == Filter(keep, xs[..i]) + (if keep(xs[i]) then [xs[i]] else [])
  {
    assert xs[..i + 1][..i] == xs[..i];
  }

  lemma FilterOne<T>(keep: T -> bool, x: T)
    ensures Filter(keep, [x]) == if keep(x) then [x] else []
  {
    assert [x][..0] == [];
  }

  /** The elements in order of first occurrence, each once (Python's dict.fromkeys). */
  function Dedup<T(==,!new)>(xs: seq<T>): (ys: seq<T>)
    ensures forall x :: x in ys <==> x in xs
    ensures Distinct(ys)
  {
    if xs == [] then []
    else
      var front, last := Dedup(xs[..|xs| - 1]), xs[|xs| - 1];
      assert xs == xs[..|xs| - 1] + [last];
      if last in front then front else front + [last]
  }

  /** The element stands at its pick, and nowhere before. */
  predicate FirstAt<T(==)>(xs: seq<T>, x: T, pick: nat) {
    pick < |xs| && xs[pick] == x && x !in xs[..pick]
  }

  lemma FirstStays<T>(xs: seq<T>, n: nat, x: T, pick: nat)
    requires n <= |xs| && FirstAt(xs[..n], x, pick)
    ensures FirstAt(xs, x, pick)
  {
    assert xs[..n][..pick] == xs[..pick];
  }

  /** Every element stands where it first occurs, and in that order. */
  lemma {:induction false} DedupPicks<T(!new)>(xs: seq<T>) returns (picks: seq<nat>)
    ensures Increasing(picks) && |picks| == |Dedup(xs)|
    ensures forall k :: 0 <= k < |picks| ==> FirstAt(xs, Dedup(xs)[k], picks[k])
  {
    picks := [];
    if xs != [] {
      var last := |xs| - 1;
      var front := Dedup(xs[..last]);
      picks := DedupPicks(xs[..last]);
      forall k | 0 <= k < |picks| ensures picks[k] < last && FirstAt(xs, front[k], picks[k]) {
        assert FirstAt(xs[..last], front[k], picks[k]);
        FirstStays(xs, last, front[k], picks[k]);
      }
      if xs[last] !in front {
        assert Dedup(xs) == front + [xs[last]] && FirstAt(xs, xs[last], last);
        IncreasingSnoc(picks, last);
        picks := picks + [last];
      }
    }
  }

  /** A sequence without repetitions keeps its distinctness under an injective map. */
  lemma DistinctMap<T, U>(f: T -> U, xs: seq<T>)
    requires Distinct(xs)
    requires forall x, y :: x in xs && y in xs && f(x) == f(y) ==> x == y
    ensures Distinct(Map(f, xs))
  {
  }

  lemma DistinctExact<T, U>(f: T -> U, xs: seq<T>)
    ensures Distinct(Map(f, xs)) <==> forall i, j :: 0 <= i < j < |xs| ==> f(xs[i]) != f(xs[j])
  {
    var ys := Map(f, xs);
    if forall i, j :: 0 <= i < j < |xs| ==> f(xs[i]) != f(xs[j]) {
      forall i, j | 0 <= i < j < |ys| ensures ys[i] != ys[j] {
        assert f(xs[i]) != f(xs[j]);
      }
    }
    if Distinct(ys) {
      forall i, j | 0 <= i < j < |xs| ensures f(xs[i]) != f(xs[j]) {
        assert ys[i] != ys[j];
      }
    }
  }

  lemma MemberExact<T, U>(f: T -> U, xs: seq<T>, y: U)
    ensures y in Map(f, xs) <==> exists x :: x in xs && f(x) == y
  {
    var ys := Map(f, xs);
    if y in ys {
      var i :| 0 <= i < |ys| && ys[i] == y;
      assert xs[i] in xs && f(xs[i]) == y;
    }
    if x :| x in xs && f(x) == y {
      var i :| 0 <= i < |xs| && xs[i] == x;
      assert ys[i] == y;
    }
  }

  lemma DedupOfDistinct<T(!new)>(xs: seq<T>)
    requires Distinct(xs)
    ensures Dedup(xs) == xs
  {
    if xs != [] {
      DedupOfDistinct(xs[..|xs| - 1]);
    }
  }
}
