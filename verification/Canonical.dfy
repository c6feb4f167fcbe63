/** The one text two readings of an atlas come to: everything in it ordered by what it is, so that it is the
same exactly where the prophecies are the same up to order. */
module Canonical {
  import opened Prelude
  import opened Atlas
  import opened Sorting
  import Body
  import Refusals
  import WiringSpec

  datatype Carried = Carried(name: Name, fields: seq<(Name, Shape, bool)>)

  datatype Prophecy = Prophecy(
    name: Name, takes: Shape, gives: Shape, config: Shape, agents: seq<Name>,
    nodes: seq<Node>, edges: seq<Edge>, shapes: seq<Carried>, prophecies: seq<Prophecy>)

  /** An edge as something two of them can be ordered by, an absent guard and all. */
  datatype Key = Key(outOf: At, into: At, guard: When, answers: Option<Source>)

  const NO_GUARD := When(Reads(Bound(""), ""), false)

  function Ordered(e: Edge): Key {
    Key(e.outOf, e.into, if e.when.None? then NO_GUARD else e.when.value, e.answers)
  }

  /** Whether a guard, where there is one, names something. */
  predicate Named(e: Edge) {
    e.when.Some? ==> e.when.value.asks.source != Bound("")
  }

  lemma {:induction false} OrderedTells(a: Edge, b: Edge)
    requires Named(a) && Named(b) && Ordered(a) == Ordered(b)
    ensures a == b
  {
  }

  /** How nodes, edge keys, shapes and names are ordered. */
  datatype Orders = Orders(
    nodes: (Node, Node) -> bool, keys: (Key, Key) -> bool,
    shapes: (Carried, Carried) -> bool, names: (Name, Name) -> bool)

  ghost predicate Total(o: Orders) {
    && Sorts(o.nodes) && Tells(o.nodes) && Sorts(o.keys) && Tells(o.keys)
    && Sorts(o.shapes) && Tells(o.shapes) && Sorts(o.names) && Tells(o.names)
  }

  /* ---- Writing ---- */

  function ByName(o: Orders): (Prophecy, Prophecy) -> bool {
    (p: Prophecy, q: Prophecy) => o.names(p.name, q.name)
  }

  function ByKey(o: Orders): (Edge, Edge) -> bool {
    (e: Edge, f: Edge) => o.keys(Ordered(e), Ordered(f))
  }

  /** A prophecy with everything in it in order, and everything in those under it. */
  function Written(o: Orders, p: Prophecy): Prophecy
    decreases p
  {
    p.(nodes := Sort(p.nodes, o.nodes), edges := Sort(p.edges, ByKey(o)), shapes := Sort(p.shapes, o.shapes),
       prophecies := Sort(WrittenAll(o, p.prophecies), ByName(o)))
  }

  function WrittenAll(o: Orders, prophecies: seq<Prophecy>): (written: seq<Prophecy>)
    ensures |written| == |prophecies|
    ensures forall i :: 0 <= i < |prophecies| ==> written[i] == Written(o, prophecies[i])
    decreases prophecies
  {
    if prophecies == [] then [] else [Written(o, prophecies[0])] + WrittenAll(o, prophecies[1..])
  }

  lemma {:induction false} WritingKeepsOrder(o: Orders, p: Prophecy, s: seq<Prophecy>)
    ensures WrittenAll(o, Insert(p, s, ByName(o))) == Insert(Written(o, p), WrittenAll(o, s), ByName(o))
  {
    if s != [] {
      WritingKeepsOrder(o, p, s[1..]);
      assert WrittenAll(o, s)[0].name == s[0].name;
      assert WrittenAll(o, s)[1..] == WrittenAll(o, s[1..]);
      assert (([s[0]] + Insert(p, s[1..], ByName(o)))[1..]) == Insert(p, s[1..], ByName(o));
    }
    assert ([p] + s)[1..] == s;
  }

  /** Ordered by name and then written, or written and then ordered: the same. */
  lemma {:induction false} WritingCommutes(o: Orders, s: seq<Prophecy>)
    ensures WrittenAll(o, Sort(s, ByName(o))) == Sort(WrittenAll(o, s), ByName(o))
  {
    if s != [] {
      WritingCommutes(o, s[1..]);
      WritingKeepsOrder(o, s[0], Sort(s[1..], ByName(o)));
      assert WrittenAll(o, s)[1..] == WrittenAll(o, s[1..]);
    }
  }

  /* ---- The same up to order ---- */

  function Names(prophecies: seq<Prophecy>): (names: seq<Name>)
    ensures |names| == |prophecies| && forall i :: 0 <= i < |names| ==> names[i] == prophecies[i].name
  {
    seq(|prophecies|, i requires 0 <= i < |prophecies| => prophecies[i].name)
  }

  predicate AllIn<T(==)>(a: seq<T>, b: seq<T>) {
    forall x :: x in a ==> x in b
  }

  /** The same nodes, edges and shapes in whatever order, and under each name the same again. */
  predicate Same(p: Prophecy, q: Prophecy)
    decreases p
  {
    && p.(nodes := [], edges := [], shapes := [], prophecies := []) == q.(nodes := [], edges := [], shapes := [],
        prophecies := [])
    && multiset(p.nodes) == multiset(q.nodes) && multiset(p.edges) == multiset(q.edges)
    && multiset(p.shapes) == multiset(q.shapes)
    && AllIn(Names(p.prophecies), Names(q.prophecies)) && AllIn(Names(q.prophecies), Names(p.prophecies))
    && forall i, j :: 0 <= i < |p.prophecies| && 0 <= j < |q.prophecies| ==>
         p.prophecies[i].name == q.prophecies[j].name ==> Same(p.prophecies[i], q.prophecies[j])
  }

  /** What compiling makes: the prophecies under one have names of their own, and guards name something. */
  predicate Made(p: Prophecy)
    decreases p
  {
    && (forall e :: e in p.edges ==> Named(e))
    && (forall i, j :: 0 <= i < j < |p.prophecies| ==> p.prophecies[i].name != p.prophecies[j].name)
    && forall i :: 0 <= i < |p.prophecies| ==> Made(p.prophecies[i])
  }

  /** And the guards compiling makes do name something. */
  lemma {:induction false} CompiledNamed(c: Body.Scope, body: seq<Body.Stmt>)
    requires WiringSpec.Compiles(c, body)
    ensures forall e :: e in WiringSpec.Compiled(c, body).edges ==> Named(e)
  {
    hide WiringSpec.Compiles, WiringSpec.Compiled;
    Refusals.CompiledIsProper(c, body);
    var g := WiringSpec.Compiled(c, body);
    forall e | e in g.edges
      ensures Named(e)
    {
      assert Refusals.Sound(c, g.nodes, e);
    }
  }

  lemma {:induction false} CountsOnce<T>(s: seq<T>, x: T)
    requires forall i, j :: 0 <= i < j < |s| ==> s[i] != s[j]
    ensures multiset(s)[x] == if x in s then 1 else 0
  {
    if s != [] {
      assert s == [s[0]] + s[1..];
      CountsOnce(s[1..], x);
    }
  }

  predicate Apart<T(==)>(s: seq<T>) {
    forall i, j :: 0 <= i < j < |s| ==> s[i] != s[j]
  }

  lemma {:induction false} SameElements<T>(a: seq<T>, b: seq<T>)
    requires Apart(a) && Apart(b) && AllIn(a, b) && AllIn(b, a)
    ensures multiset(a) == multiset(b)
  {
    forall x
      ensures multiset(a)[x] == multiset(b)[x]
    {
      CountsOnce(a, x);
      CountsOnce(b, x);
    }
  }

  lemma {:induction false} SameHeld<T>(a: seq<T>, b: seq<T>)
    requires multiset(a) == multiset(b)
    ensures AllIn(a, b) && AllIn(b, a)
  {
    assert forall x :: x in a <==> x in multiset(a);
    assert forall x :: x in b <==> x in multiset(b);
  }

  lemma {:induction false} AllTold<T(!new)>(s: seq<T>, leq: (T, T) -> bool)
    requires Tells(leq)
    ensures TellsIn(s, leq)
  {
  }

  /** Two prophecies as compiling makes them are written the same exactly where they are the same up to the
  order of nodes, edges, shapes and, all the way down, what is under them. */
  lemma {:induction false} WrittenDecidesSameness(o: Orders, p: Prophecy, q: Prophecy)
    requires Total(o) && Made(p) && Made(q)
    ensures Written(o, p) == Written(o, q) <==> Same(p, q)
    decreases p
  {
    hide Sort, Sorts, Tells, TellsIn, WrittenAll, AllIn;
    AllTold(p.nodes, o.nodes);
    AllTold(p.shapes, o.shapes);
    SortedSame(p.nodes, q.nodes, o.nodes);
    SortedSame(p.shapes, q.shapes, o.shapes);
    EdgesSame(o, p.edges, q.edges);
    UnderSame(o, p, q);
  }

  lemma {:induction false} ByKeySorts(o: Orders)
    requires Total(o)
    ensures Sorts(ByKey(o)) && Sorts(ByName(o))
  {
    forall e, f
      ensures ByKey(o)(e, f) || ByKey(o)(f, e)
    {
      assert o.keys(Ordered(e), Ordered(f)) || o.keys(Ordered(f), Ordered(e));
    }
    forall e, f, g | ByKey(o)(e, f) && ByKey(o)(f, g)
      ensures ByKey(o)(e, g)
    {
      assert o.keys(Ordered(e), Ordered(f)) && o.keys(Ordered(f), Ordered(g));
    }
    forall p, q
      ensures ByName(o)(p, q) || ByName(o)(q, p)
    {
      assert o.names(p.name, q.name) || o.names(q.name, p.name);
    }
    forall p, q, r | ByName(o)(p, q) && ByName(o)(q, r)
      ensures ByName(o)(p, r)
    {
      assert o.names(p.name, q.name) && o.names(q.name, r.name);
    }
  }

  lemma {:induction false} EdgesSame(o: Orders, a: seq<Edge>, b: seq<Edge>)
    requires Total(o) && forall e :: e in a ==> Named(e)
    ensures Sort(a, ByKey(o)) == Sort(b, ByKey(o)) <==> multiset(a) == multiset(b)
  {
    hide Sort;
    forall e, f | e in a && f in a && ByKey(o)(e, f) && ByKey(o)(f, e)
      ensures e == f
    {
      OrderedTells(e, f);
    }
    ByKeySorts(o);
    SortedSame(a, b, ByKey(o));
  }

  /** Prophecies with names of their own are told apart by name, written or not. */
  lemma {:induction false} NamesTell(o: Orders, prophecies: seq<Prophecy>)
    requires Total(o) && forall i, j :: 0 <= i < j < |prophecies| ==> prophecies[i].name != prophecies[j].name
    ensures Apart(WrittenAll(o, prophecies)) && Apart(Names(prophecies)) && TellsIn(WrittenAll(o, prophecies),
        ByName(o)) && Sorts(ByName(o))
  {
    hide Sort;
    var a := WrittenAll(o, prophecies);
    assert forall i :: 0 <= i < |a| ==> a[i].name == prophecies[i].name;
    ByKeySorts(o);
    forall x, y | x in a && y in a && ByName(o)(x, y) && ByName(o)(y, x)
      ensures x == y
    {
      assert x.name == y.name;
    }
  }

  lemma {:induction false} UnderSame(o: Orders, p: Prophecy, q: Prophecy)
    requires Total(o) && Made(p) && Made(q)
    ensures Sort(WrittenAll(o, p.prophecies), ByName(o)) == Sort(WrittenAll(o, q.prophecies), ByName(o)) <==>
            && AllIn(Names(p.prophecies), Names(q.prophecies)) && AllIn(Names(q.prophecies), Names(p.prophecies))
            && forall i, j :: 0 <= i < |p.prophecies| && 0 <= j < |q.prophecies| ==>
                 p.prophecies[i].name == q.prophecies[j].name ==> Same(p.prophecies[i], q.prophecies[j])
    decreases p, 0
  {
    hide Sort, Sorts, TellsIn, Same, Total, Written, WrittenAll, AllIn, Apart, Made, Names, ByName;
    var a, b := WrittenAll(o, p.prophecies), WrittenAll(o, q.prophecies);
    MadeUnder(p);
    MadeUnder(q);
    NamesTell(o, p.prophecies);
    NamesTell(o, q.prophecies);
    SortedSame(a, b, ByName(o));
    WrittenNames(o, p.prophecies);
    WrittenNames(o, q.prophecies);
    HoldSame(a, b);
    forall i, j | 0 <= i < |a| && 0 <= j < |b|
      ensures a[i] == b[j] <==> Same(p.prophecies[i], q.prophecies[j])
    {
      WrittenDecidesSameness(o, p.prophecies[i], q.prophecies[j]);
    }
    SameForEqual(a, b, p.prophecies, q.prophecies);
  }

  lemma {:induction false} MadeUnder(p: Prophecy)
    requires Made(p)
    ensures forall i, j :: 0 <= i < j < |p.prophecies| ==> p.prophecies[i].name != p.prophecies[j].name
    ensures forall i :: 0 <= i < |p.prophecies| ==> Made(p.prophecies[i])
  {
  }

  lemma {:induction false} SameForEqual(a: seq<Prophecy>, b: seq<Prophecy>, p: seq<Prophecy>, q: seq<Prophecy>)
    requires Names(a) == Names(p) && Names(b) == Names(q)
    requires forall i, j :: 0 <= i < |a| && 0 <= j < |b| ==> (a[i] == b[j] <==> Same(p[i], q[j]))
    ensures (forall i, j :: 0 <= i < |a| && 0 <= j < |b| && a[i].name == b[j].name ==> a[i] == b[j])
       <==> (forall i, j :: 0 <= i < |p| && 0 <= j < |q| ==> p[i].name == q[j].name ==> Same(p[i], q[j]))
  {
    hide Same;
    assert forall i, j :: 0 <= i < |a| && 0 <= j < |b| ==> (a[i].name == b[j].name <==> p[i].name == q[j].name) by {
      assert forall i :: 0 <= i < |a| ==> Names(a)[i] == Names(p)[i];
      assert forall j :: 0 <= j < |b| ==> Names(b)[j] == Names(q)[j];
    }
  }

  /** The same prophecies in whatever order. */
  lemma {:induction false} HoldSame(a: seq<Prophecy>, b: seq<Prophecy>)
    requires Apart(a) && Apart(b) && Apart(Names(a)) && Apart(Names(b))
    ensures multiset(a) == multiset(b) <==>
            && AllIn(Names(a), Names(b)) && AllIn(Names(b), Names(a))
            && forall i, j :: 0 <= i < |a| && 0 <= j < |b| && a[i].name == b[j].name ==> a[i] == b[j]
  {
    hide AllIn, Apart;
    MatchByName(a, b);
    if multiset(a) == multiset(b) {
      SameHeld(a, b);
    } else if AllIn(a, b) && AllIn(b, a) {
      SameElements(a, b);
    }
  }

  lemma {:induction false} WrittenNames(o: Orders, prophecies: seq<Prophecy>)
    ensures Names(WrittenAll(o, prophecies)) == Names(prophecies)
  {
    forall i | 0 <= i < |prophecies|
      ensures WrittenAll(o, prophecies)[i].name == prophecies[i].name
    {
    }
  }

  /** Two sequences of prophecies with names of their own hold the same ones where they hold the same names
  and the same one under each. */
  lemma {:induction false} MatchByName(a: seq<Prophecy>, b: seq<Prophecy>)
    requires Apart(Names(a)) && Apart(Names(b))
    ensures AllIn(a, b) && AllIn(b, a) <==>
            && AllIn(Names(a), Names(b)) && AllIn(Names(b), Names(a))
            && forall i, j :: 0 <= i < |a| && 0 <= j < |b| && a[i].name == b[j].name ==> a[i] == b[j]
  {
    if AllIn(a, b) && AllIn(b, a) {
      NamesIn(a, b);
      NamesIn(b, a);
      forall i, j | 0 <= i < |a| && 0 <= j < |b| && a[i].name == b[j].name
        ensures a[i] == b[j]
      {
        assert a[i] in b;
        var k :| 0 <= k < |b| && b[k] == a[i];
        assert Names(b)[k] == Names(b)[j];
      }
    }
    if AllIn(Names(a), Names(b)) && AllIn(Names(b), Names(a))
       && forall i, j :: 0 <= i < |a| && 0 <= j < |b| && a[i].name == b[j].name ==> a[i] == b[j] {
      forall i | 0 <= i < |a|
        ensures a[i] in b
      {
        assert Names(a)[i] in Names(b);
        var j :| 0 <= j < |b| && Names(b)[j] == Names(a)[i];
        assert a[i] == b[j];
      }
      forall j | 0 <= j < |b|
        ensures b[j] in a
      {
        assert Names(b)[j] in Names(a);
        var i :| 0 <= i < |a| && Names(a)[i] == Names(b)[j];
        assert a[i] == b[j];
      }
    }
  }

  lemma {:induction false} NamesIn(a: seq<Prophecy>, b: seq<Prophecy>)
    requires AllIn(a, b)
    ensures AllIn(Names(a), Names(b))
  {
    forall i | 0 <= i < |a|
      ensures Names(a)[i] in Names(b)
    {
      assert a[i] in b;
      var j :| 0 <= j < |b| && b[j] == a[i];
      assert Names(b)[j] == Names(a)[i];
    }
  }

  /* ---- What is written ---- */

  /** Everything in order, all the way down. */
  ghost predicate InOrder(o: Orders, p: Prophecy)
    decreases p
  {
    && Rises(p.nodes, o.nodes) && Rises(p.edges, ByKey(o)) && Rises(p.shapes, o.shapes)
    && Rises(p.prophecies, ByName(o))
    && forall i :: 0 <= i < |p.prophecies| ==> InOrder(o, p.prophecies[i])
  }

  /** Whatever is written is in order. */
  lemma {:induction false} WrittenInOrder(o: Orders, p: Prophecy)
    requires Total(o)
    ensures InOrder(o, Written(o, p))
    decreases p
  {
    hide Sort, Sorts, Rises, Total;
    assert Sorts(o.nodes) && Sorts(o.shapes) by {
      TotalSorts(o);
    }
    ByKeySorts(o);
    var under := WrittenAll(o, p.prophecies);
    SortHolds(p.nodes, o.nodes);
    SortHolds(p.edges, ByKey(o));
    SortHolds(p.shapes, o.shapes);
    SortHolds(under, ByName(o));
    var sorted := Sort(under, ByName(o));
    forall i | 0 <= i < |sorted|
      ensures InOrder(o, sorted[i])
    {
      assert sorted[i] in multiset(sorted);
      var k :| 0 <= k < |under| && under[k] == sorted[i];
      WrittenInOrder(o, p.prophecies[k]);
    }
  }

  lemma {:induction false} TotalSorts(o: Orders)
    requires Total(o)
    ensures Sorts(o.nodes) && Sorts(o.shapes)
  {
  }

  /** And it is the same as what it was written from: nothing in it is lost, added or changed, all the way down. */
  lemma {:induction false} WrittenIsSame(o: Orders, p: Prophecy)
    requires Made(p)
    ensures Same(Written(o, p), p)
    decreases p, 1
  {
    hide Sort, Made, AllIn, WrittenAll;
    SortHolds(p.nodes, o.nodes);
    SortHolds(p.edges, ByKey(o));
    SortHolds(p.shapes, o.shapes);
    UnderIsSame(o, p);
  }

  lemma {:induction false} UnderIsSame(o: Orders, p: Prophecy)
    requires Made(p)
    ensures
      var sorted := Sort(WrittenAll(o, p.prophecies), ByName(o));
      && AllIn(Names(sorted), Names(p.prophecies)) && AllIn(Names(p.prophecies), Names(sorted))
      && forall i, j :: 0 <= i < |sorted| && 0 <= j < |p.prophecies| ==>
           sorted[i].name == p.prophecies[j].name ==> Same(sorted[i], p.prophecies[j])
    decreases p, 0
  {
    hide Sort, Made, Same, Names, AllIn, WrittenAll;
    MadeUnder(p);
    var under := WrittenAll(o, p.prophecies);
    var sorted := Sort(under, ByName(o));
    SortHolds(under, ByName(o));
    SameHeld(sorted, under);
    NamesIn(sorted, under);
    NamesIn(under, sorted);
    WrittenNames(o, p.prophecies);
    forall i, j | 0 <= i < |sorted| && 0 <= j < |p.prophecies| && sorted[i].name == p.prophecies[j].name
      ensures Same(sorted[i], p.prophecies[j])
    {
      assert sorted[i] in multiset(sorted);
      var k :| 0 <= k < |under| && under[k] == sorted[i];
      assert p.prophecies[k].name == p.prophecies[j].name;
      WrittenIsSame(o, p.prophecies[k]);
    }
  }

  /** Without names in guards: two edges alike but for a guard that names nothing stay in the order they
  were written in. */
  lemma {:induction false} NamelessGuardsStay(o: Orders, e: Edge)
    requires Total(o) && e.when.None?
    ensures
      var f := e.(when := Some(NO_GUARD));
      multiset([e, f]) == multiset([f, e]) && Sort([e, f], ByKey(o)) != Sort([f, e], ByKey(o))
  {
    var f := e.(when := Some(NO_GUARD));
    assert [e, f][1..] == [f] && [f, e][1..] == [e] && [f][1..] == [] && [e][1..] == [];
    assert Ordered(e) == Ordered(f);
    assert o.keys(Ordered(e), Ordered(f)) || o.keys(Ordered(f), Ordered(e));
    assert ByKey(o)(e, f) && ByKey(o)(f, e);
    assert Sort([f], ByKey(o)) == [f] && Sort([e], ByKey(o)) == [e];
    assert Sort([e, f], ByKey(o))[0] == e && Sort([f, e], ByKey(o))[0] == f;
  }
}
