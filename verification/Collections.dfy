/** Facts about finite sets, ascending listings and weighted sums that the other modules share. */
module Collections {

  ghost predicate Increasing(s: seq<int>) {
    forall i, j :: 0 <= i < j < |s| ==> s[i] < s[j]
  }

  function Elements<T>(s: seq<T>): set<T> {
    set x | x in s
  }

  lemma {:induction false} Assoc<T>(a: seq<T>, b: seq<T>, c: seq<T>)
    ensures (a + b) + c == a + (b + c)
  {
  }

  lemma {:induction false} SubsetSize<T>(a: set<T>, b: set<T>)
    requires a <= b
    ensures |a| <= |b|
    ensures |a| == |b| ==> a == b
  {
    if a != {} {
      var x :| x in a;
      SubsetSize(a - {x}, b - {x});
    }
  }

  ghost function Pick<T>(s: set<T>): (x: T)
    requires s != {}
    ensures x in s
  {
    var x :| x in s;
    x
  }

  lemma {:induction false} HasMin(s: set<int>)
    requires s != {}
    ensures exists m :: m in s && forall x :: x in s ==> m <= x
  {
    var x := Pick(s);
    if s == {x} {
      assert forall y :: y in s ==> x <= y;
    } else {
      assert x !in s - {x};
      HasMin(s - {x});
      var m :| m in s - {x} && forall y :: y in s - {x} ==> m <= y;
      var k := if m <= x then m else x;
      assert k in s;
      assert forall y :: y in s ==> k <= y by {
        forall y | y in s ensures k <= y {
          if y != x { assert y in s - {x}; }
        }
      }
    }
  }

  ghost function Min(s: set<int>): (m: int)
    requires s != {}
    ensures m in s && forall x :: x in s ==> m <= x
  {
    HasMin(s);
    var m :| m in s && forall x :: x in s ==> m <= x;
    m
  }

  /** The elements of a set in ascending order: SQL's ORDER BY id. */
  ghost function Ordered(s: set<int>): (r: seq<int>) {
    if s == {} then [] else [Min(s)] + Ordered(s - {Min(s)})
  }

  lemma {:induction false} IncreasingCons(m: int, rest: seq<int>)
    requires Increasing(rest) && forall x :: x in rest ==> m < x
    ensures Increasing([m] + rest)
    ensures Elements([m] + rest) == {m} + Elements(rest)
  {
    forall k | 0 <= k < |rest| ensures m < rest[k] {
      assert rest[k] in rest;
    }
  }

  lemma {:induction false} OrderedListsAll(s: set<int>)
    ensures Increasing(Ordered(s))
    ensures Elements(Ordered(s)) == s
    ensures |Ordered(s)| == |s|
  {
    if s == {} {
      assert Ordered(s) == [];
    } else {
      var m := Min(s);
      var rest := Ordered(s - {m});
      OrderedListsAll(s - {m});
      assert forall x :: x in rest ==> x in Elements(rest);
      IncreasingCons(m, rest);
      assert Ordered(s) == [m] + rest;
    }
  }

  lemma {:induction false} ElementsOfTail(q: seq<int>)
    requires Increasing(q) && q != []
    ensures Elements(q[1..]) == Elements(q) - {q[0]}
  {
    forall x | x in Elements(q) - {q[0]} ensures x in q[1..] {
      var k :| 0 <= k < |q| && q[k] == x;
      assert q[1..][k - 1] == x;
    }
  }

  lemma {:induction false} OrderedUnique(q: seq<int>)
    requires Increasing(q)
    ensures q == Ordered(Elements(q))
  {
    if q != [] {
      assert q[0] in Elements(q);
      var m := Min(Elements(q));
      assert forall x :: x in Elements(q) ==> q[0] <= x;
      assert m == q[0];
      ElementsOfTail(q);
      OrderedUnique(q[1..]);
    }
  }

  lemma {:induction false} OrderedIs(q: seq<int>, s: set<int>)
    requires Increasing(q) && forall x :: x in q <==> x in s
    ensures q == Ordered(s)
  {
    forall x: int ensures x in Elements(q) <==> x in s {
      assert x in Elements(q) <==> x in q;
    }
    assert Elements(q) == s;
    OrderedUnique(q);
  }

  lemma {:induction false} OrderedAppend(s: set<int>, x: int)
    requires forall y :: y in s ==> y < x
    ensures Ordered(s + {x}) == Ordered(s) + [x]
  {
    OrderedListsAll(s);
    var q := Ordered(s) + [x];
    assert forall k :: 0 <= k < |Ordered(s)| ==> Ordered(s)[k] in Elements(Ordered(s));
    assert Increasing(q);
    assert Elements(q) == s + {x};
    OrderedUnique(q);
  }

  /** Sum of a weight over a finite set. */
  ghost function Sum<K(!new)>(ks: set<K>, w: K -> nat): nat {
    if ks == {} then 0 else var k :| k in ks; w(k) + Sum(ks - {k}, w)
  }

  lemma {:induction false} SumSplit<K(!new)>(ks: set<K>, w: K -> nat, k: K)
    requires k in ks
    ensures Sum(ks, w) == w(k) + Sum(ks - {k}, w)
  {
    var c :| c in ks && Sum(ks, w) == w(c) + Sum(ks - {c}, w);
    if c != k {
      SumSplit(ks - {c}, w, k);
      SumSplit(ks - {k}, w, c);
      assert ks - {c} - {k} == ks - {k} - {c};
    }
  }

  lemma {:induction false} SumMonotone<K(!new)>(ks: set<K>, v: K -> nat, w: K -> nat)
    requires forall k :: k in ks ==> v(k) <= w(k)
    ensures Sum(ks, v) <= Sum(ks, w)
  {
    if ks != {} {
      var k :| k in ks;
      SumSplit(ks, v, k);
      SumSplit(ks, w, k);
      SumMonotone(ks - {k}, v, w);
    }
  }

  /** One key loses at least `drop`, no other key gains. */
  lemma {:induction false} SumDrop<K(!new)>(ks: set<K>, v: K -> nat, w: K -> nat, k: K, drop: nat)
    requires k in ks
    requires forall x :: x in ks ==> v(x) <= w(x)
    requires v(k) + drop <= w(k)
    ensures Sum(ks, v) + drop <= Sum(ks, w)
  {
    SumSplit(ks, v, k);
    SumSplit(ks, w, k);
    SumMonotone(ks - {k}, v, w);
  }

  /******* Sorting by a key *******/

  ghost predicate SortedBy<T(!new)>(xs: seq<T>, key: T -> int) {
    forall i, j :: 0 <= i < j < |xs| ==> key(xs[i]) <= key(xs[j])
  }

  ghost predicate StrictlyBy<T(!new)>(xs: seq<T>, key: T -> int) {
    forall i, j :: 0 <= i < j < |xs| ==> key(xs[i]) < key(xs[j])
  }

  /** Places x after the elements of xs whose key is not above its own. */
  function Insert<T>(xs: seq<T>, x: T, key: T -> int): seq<T> {
    if xs == [] || key(xs[|xs| - 1]) <= key(x) then xs + [x]
    else Insert(xs[..|xs| - 1], x, key) + [xs[|xs| - 1]]
  }

  function SortBy<T>(xs: seq<T>, key: T -> int): seq<T> {
    if xs == [] then [] else Insert(SortBy(xs[..|xs| - 1], key), xs[|xs| - 1], key)
  }

  lemma {:induction false} FrontAndLast<T>(xs: seq<T>)
    requires xs != []
    ensures multiset(xs) == multiset(xs[..|xs| - 1]) + multiset{xs[|xs| - 1]}
  {
    assert xs == xs[..|xs| - 1] + [xs[|xs| - 1]];
  }

  lemma {:induction false} InsertPermutes<T>(xs: seq<T>, x: T, key: T -> int)
    ensures multiset(Insert(xs, x, key)) == multiset(xs) + multiset{x}
  {
    if xs != [] && key(x) < key(xs[|xs| - 1]) {
      InsertPermutes(xs[..|xs| - 1], x, key);
      FrontAndLast(xs);
    }
  }

  lemma {:induction false} InsertSorts<T(!new)>(xs: seq<T>, x: T, key: T -> int)
    requires SortedBy(xs, key)
    ensures SortedBy(Insert(xs, x, key), key)
    ensures forall y :: y in Insert(xs, x, key) ==> y in xs || y == x
  {
    if xs != [] && key(x) < key(xs[|xs| - 1]) {
      InsertSorts(xs[..|xs| - 1], x, key);
      var r := Insert(xs[..|xs| - 1], x, key);
      forall k | 0 <= k < |r| ensures key(r[k]) <= key(xs[|xs| - 1]) {
        assert r[k] in r;
      }
    }
  }

  lemma {:induction false} SortBySorts<T(!new)>(xs: seq<T>, key: T -> int)
    ensures SortedBy(SortBy(xs, key), key)
    ensures multiset(SortBy(xs, key)) == multiset(xs)
  {
    if xs != [] {
      var n := |xs| - 1;
      SortBySorts(xs[..n], key);
      InsertSorts(SortBy(xs[..n], key), xs[n], key);
      InsertPermutes(SortBy(xs[..n], key), xs[n], key);
      FrontAndLast(xs);
    }
  }

  ghost predicate DistinctBy<T(!new)>(xs: seq<T>, key: T -> int) {
    forall i, j :: 0 <= i < j < |xs| ==> key(xs[i]) != key(xs[j])
  }

  lemma {:induction false} InsertStrict<T(!new)>(xs: seq<T>, x: T, key: T -> int)
    requires StrictlyBy(xs, key) && forall y :: y in xs ==> key(y) != key(x)
    ensures StrictlyBy(Insert(xs, x, key), key)
    ensures forall y :: y in Insert(xs, x, key) ==> y in xs || y == x
  {
    if xs == [] || key(xs[|xs| - 1]) <= key(x) {
      assert xs != [] ==> xs[|xs| - 1] in xs;
    } else {
      InsertStrict(xs[..|xs| - 1], x, key);
      var r := Insert(xs[..|xs| - 1], x, key);
      forall k | 0 <= k < |r| ensures key(r[k]) < key(xs[|xs| - 1]) {
        assert r[k] in r;
      }
    }
  }

  lemma {:induction false} SortByStrict<T(!new)>(xs: seq<T>, key: T -> int)
    requires DistinctBy(xs, key)
    ensures StrictlyBy(SortBy(xs, key), key)
  {
    if xs != [] {
      var n := |xs| - 1;
      SortByStrict(xs[..n], key);
      var r := SortBy(xs[..n], key);
      forall y | y in r ensures key(y) != key(xs[n]) {
        SortByMembers(xs[..n], key, y);
        var i :| 0 <= i < n && xs[i] == y;
      }
      InsertStrict(r, xs[n], key);
    }
  }

  lemma {:induction false} SortByMembers<T(!new)>(xs: seq<T>, key: T -> int, x: T)
    ensures x in SortBy(xs, key) <==> x in xs
  {
    SortBySorts(xs, key);
    assert x in multiset(SortBy(xs, key)) <==> x in multiset(xs);
  }

  lemma {:induction false} SameLast<T(!new)>(a: seq<T>, b: seq<T>, key: T -> int)
    requires StrictlyBy(a, key) && SortedBy(b, key) && multiset(a) == multiset(b) && |a| == |b| > 0
    ensures a[|a| - 1] == b[|b| - 1]
  {
    var n := |a| - 1;
    assert a[n] in multiset(b) && b[n] in multiset(a);
    var i :| 0 <= i <= n && b[i] == a[n];
    var j :| 0 <= j <= n && a[j] == b[n];
    assert key(a[n]) <= key(b[n]);
    assert j == n;
  }

  lemma {:induction false} SameFront<T>(a: seq<T>, b: seq<T>)
    requires a != [] && b != [] && multiset(a) == multiset(b) && a[|a| - 1] == b[|b| - 1]
    ensures multiset(a[..|a| - 1]) == multiset(b[..|b| - 1])
  {
    FrontAndLast(a);
    FrontAndLast(b);
    assert multiset(a[..|a| - 1]) == multiset(a) - multiset{a[|a| - 1]} == multiset(b[..|b| - 1]);
  }

  /** Once the keys differ there is one sorted order: it does not matter how, or how stably, the list is sorted. */
  lemma {:induction false} OneSortedOrder<T(!new)>(a: seq<T>, b: seq<T>, key: T -> int)
    requires StrictlyBy(a, key) && SortedBy(b, key) && multiset(a) == multiset(b)
    ensures a == b
  {
    assert |a| == |multiset(a)| && |b| == |multiset(b)|;
    if a != [] {
      var n := |a| - 1;
      SameLast(a, b, key);
      SameFront(a, b);
      OneSortedOrder(a[..n], b[..n], key);
      assert a == a[..n] + [a[n]] && b == b[..n] + [b[n]];
    }
  }
}
