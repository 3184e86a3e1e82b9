/** Lexicographic orders and the stable sort that the kernel relies on to make the
    order in which evidence arrives irrelevant. */
module Order {
  import opened Basics

  ghost predicate TotalPreorder<T(!new)>(le: (T, T) -> bool) {
    && (forall x, y :: le(x, y) || le(y, x))
    && (forall x, y, z :: le(x, y) && le(y, z) ==> le(x, z))
  }

  ghost predicate Antisymmetric<T(!new)>(le: (T, T) -> bool) {
    forall x, y :: le(x, y) && le(y, x) ==> x == y
  }

  ghost predicate AntisymmetricOn<T>(le: (T, T) -> bool, xs: seq<T>) {
    forall x, y :: x in xs && y in xs && le(x, y) && le(y, x) ==> x == y
  }

  // ----- Lexicographic order -----

  predicate LexLe<T(==)>(a: seq<T>, b: seq<T>, le: (T, T) -> bool) {
    if a == [] then true
    else if b == [] then false
    else if a[0] == b[0] then LexLe(a[1..], b[1..], le)
    else le(a[0], b[0])
  }

  function Lex<T(==)>(le: (T, T) -> bool): (seq<T>, seq<T>) -> bool {
    (a, b) => LexLe(a, b, le)
  }

  predicate CharLe(a: char, b: char) { a <= b }

  /** Python's order on strings: by code point, shorter prefix first. */
  const StringLe: (string, string) -> bool := Lex(CharLe)

  /** Python's order on tuples of strings. */
  const TupleLe: (seq<string>, seq<string>) -> bool := Lex(StringLe)

  lemma {:induction false} LexTotal<T(!new)>(a: seq<T>, b: seq<T>, le: (T, T) -> bool)
    requires TotalPreorder(le)
    ensures LexLe(a, b, le) || LexLe(b, a, le)
  {
    if a != [] && b != [] && a[0] == b[0] {
      LexTotal(a[1..], b[1..], le);
    }
  }

  lemma {:induction false} LexAntisymmetric<T(!new)>(a: seq<T>, b: seq<T>, le: (T, T) -> bool)
    requires Antisymmetric(le) && LexLe(a, b, le) && LexLe(b, a, le)
    ensures a == b
  {
    if a != [] && b != [] {
      assert a == [a[0]] + a[1..] && b == [b[0]] + b[1..];
      if a[0] == b[0] {
        LexAntisymmetric(a[1..], b[1..], le);
      }
    }
  }

  lemma {:induction false} LexTransitive<T(!new)>(a: seq<T>, b: seq<T>, c: seq<T>, le: (T, T) -> bool)
    requires TotalPreorder(le) && Antisymmetric(le) && LexLe(a, b, le) && LexLe(b, c, le)
    ensures LexLe(a, c, le)
  {
    if a != [] && b != [] && c != [] && a[0] == b[0] && b[0] == c[0] {
      LexTransitive(a[1..], b[1..], c[1..], le);
    }
  }

  /** The lexicographic extension of a total order is a total order. */
  lemma LexOrder<T(!new)>(le: (T, T) -> bool)
    requires TotalPreorder(le) && Antisymmetric(le)
    ensures TotalPreorder(Lex(le)) && Antisymmetric(Lex(le))
  {
    forall a, b ensures Lex(le)(a, b) || Lex(le)(b, a) {
      LexTotal(a, b, le);
    }
    forall a, b, c | Lex(le)(a, b) && Lex(le)(b, c) ensures Lex(le)(a, c) {
      LexTransitive(a, b, c, le);
    }
    forall a, b | Lex(le)(a, b) && Lex(le)(b, a) ensures a == b {
      LexAntisymmetric(a, b, le);
    }
  }

  predicate PrecedesAt(a: string, b: string, i: nat) {
    i < |b| && i <= |a| && a[..i] == b[..i] && (i == |a| || a[i] < b[i])
  }

  /** One string comes before another: it is a proper part of its beginning, or has the smaller
      code point where they differ first. */
  predicate Precedes(a: string, b: string) {
    exists i :: 0 <= i < |b| && PrecedesAt(a, b, i)
  }

  lemma PrecedesShifted(a: string, b: string, i: nat)
    requires a != [] && b != [] && a[0] == b[0]
    ensures PrecedesAt(a, b, i + 1) <==> PrecedesAt(a[1..], b[1..], i)
  {
    if i < |b| - 1 && i <= |a| - 1 {
      assert a[..i + 1] == [a[0]] + a[1..][..i] && b[..i + 1] == [b[0]] + b[1..][..i];
      assert a[..i + 1][1..] == a[1..][..i] && b[..i + 1][1..] == b[1..][..i];
    }
  }

  lemma PrecedesTail(a: string, b: string)
    requires a != [] && b != [] && a[0] == b[0] && !PrecedesAt(a, b, 0)
    ensures Precedes(a, b) <==> Precedes(a[1..], b[1..])
  {
    hide PrecedesAt;
    if i :| 0 <= i < |b| && PrecedesAt(a, b, i) {
      PrecedesShifted(a, b, i - 1);
    }
    if i :| 0 <= i < |b[1..]| && PrecedesAt(a[1..], b[1..], i) {
      PrecedesShifted(a, b, i);
    }
  }

  lemma {:induction false} StringLePrecedes(a: string, b: string)
    ensures StringLe(a, b) <==> a == b || Precedes(a, b)
  {
    if a == [] || b == [] {
      assert b != [] ==> a[..0] == b[..0] && PrecedesAt(a, b, 0);
    } else {
      assert a == [a[0]] + a[1..] && b == [b[0]] + b[1..];
      if a[0] == b[0] {
        StringLePrecedes(a[1..], b[1..]);
        PrecedesTail(a, b);
      } else {
        assert a[0] < b[0] ==> a[..0] == b[..0] && PrecedesAt(a, b, 0);
        assert forall i :: 0 < i <= |a| && i < |b| ==> a[..i][0] == a[0] && b[..i][0] == b[0];
      }
    }
  }

  predicate TuplePrecedesAt(a: seq<string>, b: seq<string>, i: nat) {
    i < |b| && i <= |a| && a[..i] == b[..i] && (i == |a| || Precedes(a[i], b[i]))
  }

  /** One tuple comes before another: it is a proper part of its beginning, or has the smaller
      component where they differ first. */
  predicate TuplePrecedes(a: seq<string>, b: seq<string>) {
    exists i :: 0 <= i < |b| && TuplePrecedesAt(a, b, i)
  }

  lemma TuplePrecedesShifted(a: seq<string>, b: seq<string>, i: nat)
    requires a != [] && b != [] && a[0] == b[0]
    ensures TuplePrecedesAt(a, b, i + 1) <==> TuplePrecedesAt(a[1..], b[1..], i)
  {
    hide Precedes;
    if i < |b| - 1 && i <= |a| - 1 {
      assert a[..i + 1] == [a[0]] + a[1..][..i] && b[..i + 1] == [b[0]] + b[1..][..i];
      assert a[..i + 1][1..] == a[1..][..i] && b[..i + 1][1..] == b[1..][..i];
    }
  }

  lemma TuplePrecedesTail(a: seq<string>, b: seq<string>)
    requires a != [] && b != [] && a[0] == b[0] && !TuplePrecedesAt(a, b, 0)
    ensures TuplePrecedes(a, b) <==> TuplePrecedes(a[1..], b[1..])
  {
    hide TuplePrecedesAt;
    if i :| 0 <= i < |b| && TuplePrecedesAt(a, b, i) {
      TuplePrecedesShifted(a, b, i - 1);
    }
    if i :| 0 <= i < |b[1..]| && TuplePrecedesAt(a[1..], b[1..], i) {
      TuplePrecedesShifted(a, b, i);
    }
  }

  lemma NotBefore(a: string)
    ensures !Precedes(a, a)
  {
  }

  lemma {:induction false} TupleLePrecedes(a: seq<string>, b: seq<string>)
    ensures TupleLe(a, b) <==> a == b || TuplePrecedes(a, b)
  {
    hide Precedes;
    if a == [] || b == [] {
      assert b != [] ==> a[..0] == b[..0] && TuplePrecedesAt(a, b, 0);
    } else {
      assert a == [a[0]] + a[1..] && b == [b[0]] + b[1..];
      NotBefore(a[0]);
      if a[0] == b[0] {
        TupleLePrecedes(a[1..], b[1..]);
        TuplePrecedesTail(a, b);
      } else {
        StringLePrecedes(a[0], b[0]);
        assert Precedes(a[0], b[0]) ==> a[..0] == b[..0] && TuplePrecedesAt(a, b, 0);
        assert forall i :: 0 < i <= |a| && i < |b| ==> a[..i][0] == a[0] && b[..i][0] == b[0];
      }
    }
  }

  lemma StringOrder()
    ensures TotalPreorder(StringLe) && Antisymmetric(StringLe)
  {
    LexOrder(CharLe);
  }

  lemma TupleOrder()
    ensures TotalPreorder(TupleLe) && Antisymmetric(TupleLe)
  {
    StringOrder();
    LexOrder(StringLe);
  }

  // ----- Comparison by key -----

  function ByKey<T, K>(key: T -> K, le: (K, K) -> bool): (T, T) -> bool {
    (x, y) => le(key(x), key(y))
  }

  lemma ByKeyPreorder<T(!new), K(!new)>(key: T -> K, le: (K, K) -> bool)
    requires TotalPreorder(le)
    ensures TotalPreorder(ByKey(key, le))
  {
  }

  // ----- Stable sorting -----

  ghost predicate Sorted<T>(xs: seq<T>, le: (T, T) -> bool) {
    forall i, j :: 0 <= i < j < |xs| ==> le(xs[i], xs[j])
  }

  function Insert<T>(x: T, xs: seq<T>, le: (T, T) -> bool): (ys: seq<T>)
    ensures multiset(ys) == multiset{x} + multiset(xs)
  {
    if xs == [] || le(x, xs[0]) then
      [x] + xs
    else
      assert xs == [xs[0]] + xs[1..];
      [xs[0]] + Insert(x, xs[1..], le)
  }

  /** Python's sorted: a stable sort. */
  function Sort<T>(xs: seq<T>, le: (T, T) -> bool): (ys: seq<T>)
    ensures multiset(ys) == multiset(xs)
  {
    if xs == [] then []
    else
      assert xs == [xs[0]] + xs[1..];
      Insert(xs[0], Sort(xs[1..], le), le)
  }

  lemma {:induction false} InsertSorted<T(!new)>(x: T, xs: seq<T>, le: (T, T) -> bool)
    requires TotalPreorder(le) && Sorted(xs, le)
    ensures Sorted(Insert(x, xs, le), le)
  {
    if xs != [] && !le(x, xs[0]) {
      InsertSorted(x, xs[1..], le);
      var rest := Insert(x, xs[1..], le);
      forall i | 0 <= i < |rest| ensures le(xs[0], rest[i]) {
        assert rest[i] in multiset(rest);
        assert rest[i] == x || rest[i] in multiset(xs[1..]);
      }
    }
  }

  lemma {:induction false} SortSorts<T(!new)>(xs: seq<T>, le: (T, T) -> bool)
    requires TotalPreorder(le)
    ensures Sorted(Sort(xs, le), le)
  {
    if xs != [] {
      SortSorts(xs[1..], le);
      InsertSorted(xs[0], Sort(xs[1..], le), le);
    }
  }

  lemma MultisetMembers<T>(a: seq<T>, b: seq<T>)
    requires multiset(a) == multiset(b)
    ensures |a| == |b|
    ensures forall x :: x in a <==> x in b
  {
    assert |multiset(a)| == |multiset(b)|;
    forall x ensures x in a <==> x in b {
      assert x in a <==> x in multiset(a);
      assert x in b <==> x in multiset(b);
    }
  }

  lemma SortMembers<T>(xs: seq<T>, le: (T, T) -> bool)
    ensures |Sort(xs, le)| == |xs|
    ensures forall x :: x in Sort(xs, le) <==> x in xs
  {
    MultisetMembers(Sort(xs, le), xs);
  }

  lemma SortedHead<T(!new)>(a: seq<T>, b: seq<T>, le: (T, T) -> bool)
    requires AntisymmetricOn(le, a)
    requires Sorted(a, le) && Sorted(b, le) && multiset(a) == multiset(b) && a != []
    ensures b != [] && a[0] == b[0]
  {
    MultisetMembers(a, b);
    assert a[0] in a && b[0] in b;
    assert a[0] in b && b[0] in a;
  }

  lemma TakeOut<T>(xs: seq<T>, i: nat)
    requires i < |xs|
    ensures multiset(xs) == multiset{xs[i]} + multiset(xs[..i] + xs[i + 1..])
    ensures multiset(xs[..i] + xs[i + 1..]) == multiset(xs) - multiset{xs[i]}
  {
    assert xs == xs[..i] + [xs[i]] + xs[i + 1..];
  }

  lemma MultisetTail<T>(a: seq<T>)
    requires a != []
    ensures multiset(a[1..]) == multiset(a) - multiset{a[0]}
  {
    assert a == [a[0]] + a[1..];
  }

  /** Taking the first element of one arrangement out of both leaves arrangements of the rest. */
  lemma TakeOutHead<T>(a: seq<T>, b: seq<T>) returns (i: nat)
    requires a != [] && multiset(a) == multiset(b)
    ensures i < |b| && b[i] == a[0]
    ensures multiset(a[1..]) == multiset(b[..i] + b[i + 1..])
  {
    MultisetMembers(a, b);
    assert a[0] in b;
    i :| 0 <= i < |b| && b[i] == a[0];
    MultisetTail(a);
    TakeOut(b, i);
  }

  /** Two sorted arrangements of the same items are the same sequence, provided that
      only equal items compare equal. */
  lemma {:induction false} SortedUnique<T(!new)>(a: seq<T>, b: seq<T>, le: (T, T) -> bool)
    requires AntisymmetricOn(le, a)
    requires Sorted(a, le) && Sorted(b, le) && multiset(a) == multiset(b)
    ensures a == b
  {
    if a == [] {
      MultisetMembers(a, b);
    } else {
      SortedHead(a, b, le);
      MultisetTail(a);
      MultisetTail(b);
      assert AntisymmetricOn(le, a[1..]);
      SortedUnique(a[1..], b[1..], le);
      assert a == [a[0]] + a[1..] && b == [b[0]] + b[1..];
    }
  }

  /** Sorting forgets the order of its input and nothing else. */
  lemma SortCanonical<T(!new)>(a: seq<T>, b: seq<T>, le: (T, T) -> bool)
    requires TotalPreorder(le) && AntisymmetricOn(le, a)
    ensures multiset(a) == multiset(b) <==> Sort(a, le) == Sort(b, le)
  {
    if multiset(a) == multiset(b) {
      SortSorts(a, le);
      SortSorts(b, le);
      SortMembers(a, le);
      SortedUnique(Sort(a, le), Sort(b, le), le);
    }
  }

  lemma MapCons<T, U>(f: T -> U, x: T, xs: seq<T>)
    ensures Map(f, [x] + xs) == [f(x)] + Map(f, xs)
  {
  }

  lemma {:induction false} InsertByKey<T, K>(key: T -> K, x: T, xs: seq<T>, le: (K, K) -> bool)
    ensures Map(key, Insert(x, xs, ByKey(key, le))) == Insert(key(x), Map(key, xs), le)
  {
    var keys := Map(key, xs);
    if xs == [] || le(key(x), key(xs[0])) {
      MapCons(key, x, xs);
    } else {
      assert keys[1..] == Map(key, xs[1..]);
      InsertByKey(key, x, xs[1..], le);
      MapCons(key, xs[0], Insert(x, xs[1..], ByKey(key, le)));
    }
  }

  /** Sorting by key and then taking keys is taking keys and then sorting. */
  lemma {:induction false} SortByKey<T, K>(key: T -> K, xs: seq<T>, le: (K, K) -> bool)
    ensures Map(key, Sort(xs, ByKey(key, le))) == Sort(Map(key, xs), le)
  {
    if xs != [] {
      SortByKey(key, xs[1..], le);
      InsertByKey(key, xs[0], Sort(xs[1..], ByKey(key, le)), le);
      assert Map(key, xs)[1..] == Map(key, xs[1..]);
    }
  }

  lemma DistinctOnce<T>(a: seq<T>)
    requires Distinct(a)
    ensures forall x :: multiset(a)[x] <= 1
  {
    if a != [] {
      var front, last := a[..|a| - 1], a[|a| - 1];
      assert a == front + [last];
      DistinctOnce(front);
      assert last !in front;
      assert last !in multiset(front);
    }
  }

  lemma RepeatedTwice<T>(b: seq<T>, i: int, j: int)
    requires 0 <= i < j < |b| && b[i] == b[j]
    ensures multiset(b)[b[i]] >= 2
  {
    assert b == b[..j] + [b[j]] + b[j + 1..];
    assert b[i] in b[..j];
  }

  /** Rearranging a sequence keeps distinctness. */
  lemma DistinctPermuted<T>(a: seq<T>, b: seq<T>)
    requires multiset(a) == multiset(b) && Distinct(a)
    ensures Distinct(b)
  {
    DistinctOnce(a);
    forall i, j | 0 <= i < j < |b| ensures b[i] != b[j] {
      if b[i] == b[j] {
        RepeatedTwice(b, i, j);
        assert false;
      }
    }
  }
}
