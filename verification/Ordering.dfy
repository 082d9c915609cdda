/**
 Python's orderings and stable sort: lexicographic order on strings and tuples,
 `sorted(list, key=...)` and `sorted(dict.keys())`.
 */
module Ordering {
  import opened Basics

  ghost predicate Preorder<T(!new)>(le: (T, T) -> bool) {
    && (forall x, y :: le(x, y) || le(y, x))
    && (forall x, y, z :: le(x, y) && le(y, z) ==> le(x, z))
  }

  ghost predicate TotalOrder<T(!new)>(le: (T, T) -> bool) {
    && Preorder(le)
    && (forall x, y :: le(x, y) && le(y, x) ==> x == y)
  }

  // ----- lexicographic order -----

  predicate Lex<T(==)>(le: (T, T) -> bool, a: seq<T>, b: seq<T>) {
    if a == [] then true
    else if b == [] then false
    else if a[0] == b[0] then Lex(le, a[1..], b[1..])
    else le(a[0], b[0])
  }

  predicate CharLe(a: char, b: char) { a <= b }

  /** Python's `<=` on strings. */
  predicate StrLe(a: string, b: string) { Lex(CharLe, a, b) }

  /** Python's `<=` on tuples of strings. */
  predicate TupleLe(a: seq<string>, b: seq<string>) { Lex(StrLe, a, b) }

  lemma {:induction false} LexTotal<T(!new)>(le: (T, T) -> bool, a: seq<T>, b: seq<T>)
    requires TotalOrder(le)
    ensures Lex(le, a, b) || Lex(le, b, a)
    ensures Lex(le, a, b) && Lex(le, b, a) ==> a == b
  {
    if a != [] && b != [] && a[0] == b[0] {
      LexTotal(le, a[1..], b[1..]);
      assert a == [a[0]] + a[1..] && b == [b[0]] + b[1..];
    }
  }

  lemma {:induction false} LexTransitive<T(!new)>(le: (T, T) -> bool, a: seq<T>, b: seq<T>, c: seq<T>)
    requires TotalOrder(le)
    requires Lex(le, a, b) && Lex(le, b, c)
    ensures Lex(le, a, c)
  {
    if a != [] && b != [] && c != [] && a[0] == b[0] == c[0] {
      LexTransitive(le, a[1..], b[1..], c[1..]);
    }
  }

  lemma {:induction false} StrOrder()
    ensures TotalOrder(StrLe)
  {
    forall a, b ensures (StrLe(a, b) || StrLe(b, a)) && (StrLe(a, b) && StrLe(b, a) ==> a == b) {
      LexTotal(CharLe, a, b);
    }
    forall a, b, c | StrLe(a, b) && StrLe(b, c) ensures StrLe(a, c) {
      LexTransitive(CharLe, a, b, c);
    }
  }

  lemma {:induction false} TupleOrder()
    ensures TotalOrder(TupleLe)
  {
    StrOrder();
    forall a, b ensures (TupleLe(a, b) || TupleLe(b, a)) && (TupleLe(a, b) && TupleLe(b, a) ==> a == b) {
      LexTotal(StrLe, a, b);
    }
    forall a, b, c | TupleLe(a, b) && TupleLe(b, c) ensures TupleLe(a, c) {
      LexTransitive(StrLe, a, b, c);
    }
  }

  // ----- stable sort -----

  function InsertBy<T>(le: (T, T) -> bool, x: T, s: seq<T>): seq<T> {
    if s == [] then [x]
    else if le(x, s[0]) then [x] + s
    else [s[0]] + InsertBy(le, x, s[1..])
  }

  /** A stable sort: equal keys keep their order, as in Python's `sorted`. */
  function SortBy<T>(le: (T, T) -> bool, s: seq<T>): seq<T> {
    if s == [] then [] else InsertBy(le, s[0], SortBy(le, s[1..]))
  }

  ghost predicate Sorted<T>(le: (T, T) -> bool, s: seq<T>) {
    forall i, j :: 0 <= i < j < |s| ==> le(s[i], s[j])
  }

  lemma {:induction false} InsertByMultiset<T>(le: (T, T) -> bool, x: T, s: seq<T>)
    ensures multiset(InsertBy(le, x, s)) == multiset{x} + multiset(s)
  {
    if s != [] {
      assert s == [s[0]] + s[1..];
      InsertByMultiset(le, x, s[1..]);
    }
  }

  lemma {:induction false} SortByMultiset<T>(le: (T, T) -> bool, s: seq<T>)
    ensures multiset(SortBy(le, s)) == multiset(s)
  {
    if s != [] {
      assert s == [s[0]] + s[1..];
      SortByMultiset(le, s[1..]);
      InsertByMultiset(le, s[0], SortBy(le, s[1..]));
    }
  }

  lemma {:induction false} InsertBySorted<T(!new)>(le: (T, T) -> bool, x: T, s: seq<T>)
    requires Preorder(le) && Sorted(le, s)
    ensures Sorted(le, InsertBy(le, x, s))
  {
    if s != [] && !le(x, s[0]) {
      InsertBySorted(le, x, s[1..]);
      InsertByMultiset(le, x, s[1..]);
      var r := InsertBy(le, x, s[1..]);
      forall y | y in r ensures le(s[0], y) {
        assert y in multiset(r);
        assert y == x || y in multiset(s[1..]);
      }
    }
  }

  lemma {:induction false} SortBySorted<T(!new)>(le: (T, T) -> bool, s: seq<T>)
    requires Preorder(le)
    ensures Sorted(le, SortBy(le, s))
  {
    if s != [] {
      SortBySorted(le, s[1..]);
      InsertBySorted(le, s[0], SortBy(le, s[1..]));
    }
  }

  /** The elements of `s` never tie without being equal. */
  ghost predicate TieFree<T>(le: (T, T) -> bool, s: seq<T>) {
    forall x, y :: x in s && y in s && le(x, y) && le(y, x) ==> x == y
  }

  lemma {:induction false} SortedUnique<T(!new)>(le: (T, T) -> bool, a: seq<T>, b: seq<T>)
    requires Preorder(le) && TieFree(le, a)
    requires Sorted(le, a) && Sorted(le, b) && multiset(a) == multiset(b)
    ensures a == b
  {
    assert |a| == |multiset(a)| == |multiset(b)| == |b|;
    if a != [] {
      assert a[0] in multiset(b) && b[0] in multiset(a);
      assert le(a[0], b[0]) && le(b[0], a[0]);
      assert a == [a[0]] + a[1..] && b == [b[0]] + b[1..];
      assert multiset(a[1..]) == multiset(a) - multiset{a[0]};
      assert multiset(b[1..]) == multiset(b) - multiset{b[0]};
      SortedUnique(le, a[1..], b[1..]);
    }
  }

  predicate Tied<T>(le: (T, T) -> bool, x: T, y: T) { le(x, y) && le(y, x) }

  /** The elements of `s` tied with `k`, in order. */
  function Ties<T>(le: (T, T) -> bool, k: T, s: seq<T>): seq<T> {
    if s == [] then []
    else if Tied(le, k, s[0]) then [s[0]] + Ties(le, k, s[1..])
    else Ties(le, k, s[1..])
  }

  lemma {:induction false} InsertByTies<T(!new)>(le: (T, T) -> bool, k: T, x: T, s: seq<T>)
    requires Preorder(le)
    ensures Ties(le, k, InsertBy(le, x, s)) == (if Tied(le, k, x) then [x] else []) + Ties(le, k, s)
  {
    if s != [] && !le(x, s[0]) {
      InsertByTies(le, k, x, s[1..]);
    }
  }

  /** Stability: the elements tied with `k` come out in their original order. */
  lemma {:induction false} SortByTies<T(!new)>(le: (T, T) -> bool, k: T, s: seq<T>)
    requires Preorder(le)
    ensures Ties(le, k, SortBy(le, s)) == Ties(le, k, s)
  {
    if s != [] {
      SortByTies(le, k, s[1..]);
      InsertByTies(le, k, s[0], SortBy(le, s[1..]));
    }
  }

  /** All reorderings of `a` sort alike. */
  ghost predicate OrderBlind<T(!new)>(le: (T, T) -> bool, a: seq<T>) {
    forall b :: multiset(b) == multiset(a) ==> SortBy(le, b) == SortBy(le, a)
  }

  /** A stable sort forgets the input order exactly when no two different elements tie. */
  lemma {:induction false} OrderBlindIffTieFree<T(!new)>(le: (T, T) -> bool, a: seq<T>)
    requires Preorder(le)
    ensures OrderBlind(le, a) <==> TieFree(le, a)
  {
    if TieFree(le, a) {
      forall b | multiset(b) == multiset(a) ensures SortBy(le, b) == SortBy(le, a) {
        SortPermutation(le, a, b);
      }
    } else {
      var x, y :| x in a && y in a && Tied(le, x, y) && x != y;
      TieBreaksBlindness(le, a, x, y);
    }
  }

  lemma {:induction false} SortPermutation<T(!new)>(le: (T, T) -> bool, a: seq<T>, b: seq<T>)
    requires Preorder(le) && TieFree(le, a) && multiset(b) == multiset(a)
    ensures SortBy(le, b) == SortBy(le, a)
  {
    SortBySorted(le, a); SortBySorted(le, b);
    SortByMultiset(le, a); SortByMultiset(le, b);
    forall x | x in SortBy(le, a) ensures x in a {
      assert x in multiset(SortBy(le, a));
      assert x in multiset(a);
    }
    SortedUnique(le, SortBy(le, a), SortBy(le, b));
  }

  lemma {:induction false} TieBreaksBlindness<T(!new)>(le: (T, T) -> bool, a: seq<T>, x: T, y: T)
    requires Preorder(le) && x in a && y in a && Tied(le, x, y) && x != y
    ensures !OrderBlind(le, a)
  {
    var rest := PairFirst(a, x, y);
    SwappedHeads(le, rest, x, y);
    SwappedMembers(rest, x, y);
    assert SortBy(le, [x, y] + rest) != SortBy(le, a) || SortBy(le, [y, x] + rest) != SortBy(le, a);
  }

  lemma {:induction false} SwappedMembers<T>(rest: seq<T>, x: T, y: T)
    ensures multiset([y, x] + rest) == multiset([x, y] + rest)
  {
    assert multiset([y, x] + rest) == multiset{y, x} + multiset(rest) && multiset([x, y] + rest) == multiset{x, y} + multiset(rest);
  }

  lemma {:induction false} PairFirst<T(!new)>(a: seq<T>, x: T, y: T) returns (rest: seq<T>)
    requires x in a && y in a && x != y
    ensures multiset([x, y] + rest) == multiset(a)
  {
    var m := multiset(a);
    assert x in m && y in m;
    var m' := m - multiset{x};
    assert y in m';
    rest := Linearize(m' - multiset{y});
    assert multiset([x, y] + rest) == multiset{x} + (multiset{y} + multiset(rest));
  }

  lemma {:induction false} SwappedHeads<T(!new)>(le: (T, T) -> bool, rest: seq<T>, x: T, y: T)
    requires Preorder(le) && Tied(le, x, y) && x != y
    ensures SortBy(le, [x, y] + rest) != SortBy(le, [y, x] + rest)
  {
    SortByTies(le, x, [x, y] + rest);
    SortByTies(le, x, [y, x] + rest);
    assert Ties(le, x, [x, y] + rest)[0] == x;
    assert Ties(le, x, [y, x] + rest)[0] == y;
  }

  /** Some sequence with the elements of `m`. */
  ghost function Linearize<T(!new)>(m: multiset<T>): (s: seq<T>)
    ensures multiset(s) == m
    decreases |m|
  {
    if m == multiset{} then []
    else
      var x :| x in m;
      var rest := Linearize(m - multiset{x});
      [x] + rest
  }

  // ----- sorted(dict.keys()) -----

  ghost predicate SortedOf<T(!new)>(le: (T, T) -> bool, s: set<T>, r: seq<T>) {
    Sorted(le, r) && Distinct(r) && (forall x :: x in r <==> x in s)
  }

  /** Two sorted listings of one set are the same listing. */
  lemma {:induction false} SortedOfUnique<T(!new)>(le: (T, T) -> bool, s: set<T>, a: seq<T>, b: seq<T>)
    requires TotalOrder(le) && SortedOf(le, s, a) && SortedOf(le, s, b)
    ensures a == b
  {
    DistinctMultiset(a, s);
    DistinctMultiset(b, s);
    SortedUnique(le, a, b);
  }

  lemma {:induction false} DistinctMultiset<T>(a: seq<T>, s: set<T>)
    requires Distinct(a) && forall x :: x in a <==> x in s
    ensures multiset(a) == multiset(s)
  {
    if a != [] {
      assert a == [a[0]] + a[1..];
      assert forall x :: x in a[1..] <==> x in s - {a[0]};
      DistinctMultiset(a[1..], s - {a[0]});
    }
  }

  /** The sorted listing of a set. */
  ghost function Listing<T(!new)>(le: (T, T) -> bool, s: set<T>): (r: seq<T>)
    requires TotalOrder(le)
    ensures SortedOf(le, s, r)
  {
    if s == {} then []
    else
      var x :| x in s;
      var rest := Listing(le, s - {x});
      InsertBySorted(le, x, rest);
      InsertByDistinct(le, x, rest);
      InsertBy(le, x, rest)
  }

  method SortKeys<T(!new, ==)>(le: (T, T) -> bool, s: set<T>) returns (r: seq<T>)
    requires TotalOrder(le)
    ensures SortedOf(le, s, r)
  {
    var todo := s;
    r := [];
    while todo != {}
      invariant todo <= s
      invariant SortedOf(le, s - todo, r)
      decreases todo
    {
      var x :| x in todo;
      InsertBySorted(le, x, r);
      InsertByDistinct(le, x, r);
      r := InsertBy(le, x, r);
      todo := todo - {x};
    }
  }

  lemma {:induction false} InsertByDistinct<T>(le: (T, T) -> bool, x: T, s: seq<T>)
    requires Distinct(s) && x !in s
    ensures Distinct(InsertBy(le, x, s))
    ensures forall y :: y in InsertBy(le, x, s) <==> y == x || y in s
  {
    if s != [] && !le(x, s[0]) {
      InsertByDistinct(le, x, s[1..]);
      assert s[0] !in s[1..];
    }
  }
}
