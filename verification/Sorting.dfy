/** Putting things in order, and what an order makes of two ways of listing the same things. */
module Sorting {
  /** Any two one way or the other, and whatever is between stays between. */
  ghost predicate Sorts<T(!new)>(leq: (T, T) -> bool) {
    (forall x, y :: leq(x, y) || leq(y, x)) && forall x, y, z :: leq(x, y) && leq(y, z) ==> leq(x, z)
  }

  /** No two different ones both ways. */
  ghost predicate Tells<T(!new)>(leq: (T, T) -> bool) {
    forall x, y :: leq(x, y) && leq(y, x) ==> x == y
  }

  function Insert<T>(x: T, s: seq<T>, leq: (T, T) -> bool): seq<T> {
    if s == [] || leq(x, s[0]) then [x] + s else [s[0]] + Insert(x, s[1..], leq)
  }

  function Sort<T>(s: seq<T>, leq: (T, T) -> bool): seq<T> {
    if s == [] then [] else Insert(s[0], Sort(s[1..], leq), leq)
  }

  ghost predicate Rises<T(!new)>(s: seq<T>, leq: (T, T) -> bool) {
    forall i, j :: 0 <= i < j < |s| ==> leq(s[i], s[j])
  }

  lemma {:induction false} InsertHolds<T(!new)>(x: T, s: seq<T>, leq: (T, T) -> bool)
    ensures multiset(Insert(x, s, leq)) == multiset{x} + multiset(s)
  {
    if s != [] {
      assert s == [s[0]] + s[1..];
      InsertHolds(x, s[1..], leq);
    }
  }

  lemma {:induction false} InsertRises<T(!new)>(x: T, s: seq<T>, leq: (T, T) -> bool)
    requires Sorts(leq) && Rises(s, leq)
    ensures Rises(Insert(x, s, leq), leq)
  {
    if s != [] && !leq(x, s[0]) {
      InsertRises(x, s[1..], leq);
      InsertHolds(x, s[1..], leq);
      var rest := Insert(x, s[1..], leq);
      forall i | 0 <= i < |rest|
        ensures leq(s[0], rest[i])
      {
        assert rest[i] in multiset(rest);
        assert rest[i] == x || rest[i] in s[1..];
      }
    }
  }

  lemma {:induction false} SortHolds<T(!new)>(s: seq<T>, leq: (T, T) -> bool)
    ensures multiset(Sort(s, leq)) == multiset(s) && (Sorts(leq) ==> Rises(Sort(s, leq), leq))
  {
    if s != [] {
      assert s == [s[0]] + s[1..];
      SortHolds(s[1..], leq);
      InsertHolds(s[0], Sort(s[1..], leq), leq);
      if Sorts(leq) {
        InsertRises(s[0], Sort(s[1..], leq), leq);
      }
    }
  }

  ghost predicate TellsIn<T(!new)>(s: seq<T>, leq: (T, T) -> bool) {
    forall x, y :: x in s && y in s && leq(x, y) && leq(y, x) ==> x == y
  }

  lemma {:induction false} FirstSame<T(!new)>(a: seq<T>, b: seq<T>, leq: (T, T) -> bool)
    requires Rises(a, leq) && Rises(b, leq) && multiset(a) == multiset(b) && TellsIn(a, leq) && a != []
    ensures b != [] && a[0] == b[0]
  {
    assert a[0] in multiset(b);
    assert b[0] in multiset(a);
    var i :| 0 <= i < |b| && b[i] == a[0];
    var j :| 0 <= j < |a| && a[j] == b[0];
  }

  lemma {:induction false} RestSame<T>(a: seq<T>, b: seq<T>)
    requires multiset(a) == multiset(b) && a != [] && b != [] && a[0] == b[0]
    ensures multiset(a[1..]) == multiset(b[1..])
  {
    assert a == [a[0]] + a[1..];
    assert b == [b[0]] + b[1..];
    assert multiset(a[1..]) == multiset(a) - multiset{a[0]};
    assert multiset(b[1..]) == multiset(b) - multiset{b[0]};
  }

  /** Two sequences that rise and hold the same are the same, where order tells their elements apart. */
  lemma {:induction false} RisingSame<T(!new)>(a: seq<T>, b: seq<T>, leq: (T, T) -> bool)
    requires Rises(a, leq) && Rises(b, leq) && multiset(a) == multiset(b) && TellsIn(a, leq)
    ensures a == b
    decreases |a|
  {
    if a == [] {
      assert |multiset(b)| == 0;
    } else {
      FirstSame(a, b, leq);
      RestSame(a, b);
      RisingSame(a[1..], b[1..], leq);
      assert a == [a[0]] + a[1..];
      assert b == [b[0]] + b[1..];
    }
  }

  lemma {:induction false} TellsSorted<T(!new)>(s: seq<T>, sorted: seq<T>, leq: (T, T) -> bool)
    requires TellsIn(s, leq) && multiset(sorted) == multiset(s)
    ensures TellsIn(sorted, leq)
  {
    assert forall x :: x in sorted <==> x in multiset(sorted);
    assert forall x :: x in s <==> x in multiset(s);
  }

  lemma {:induction false} SortedSame<T(!new)>(a: seq<T>, b: seq<T>, leq: (T, T) -> bool)
    requires Sorts(leq) && TellsIn(a, leq)
    ensures Sort(a, leq) == Sort(b, leq) <==> multiset(a) == multiset(b)
  {
    hide Sort, Sorts, Rises, TellsIn;
    SortHolds(a, leq);
    SortHolds(b, leq);
    TellsSorted(a, Sort(a, leq), leq);
    if multiset(a) == multiset(b) {
      RisingSame(Sort(a, leq), Sort(b, leq), leq);
    }
  }
}
