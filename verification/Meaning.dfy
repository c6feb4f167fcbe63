/** Compiling preserves meaning: walking the compiled graph does, node for node and decision for
decision, what executing the body does. */
module Meaning {
  import opened Prelude
  import opened Atlas
  import opened Body
  import opened WiringSpec
  import opened Running
  import opened Structure

  /** What a walk needs of a graph: ids name one node, and the ways out of a node decide. */
  predicate Decides(g: Graph) {
    && (forall i, j :: 0 <= i < j < |g.nodes| ==> g.nodes[i].at != g.nodes[j].at)
    && (forall i :: 0 <= i < |g.nodes| ==> g.nodes[i].at != Way)
    && (forall e :: e in g.edges ==> OneWay(g, e.outOf) || TwoWays(g, e.outOf))
  }

  /** Whether the whole graph holds everything the walk has so far. */
  predicate Within(s: Wired, g: Graph) {
    s.nodes <= g.nodes && s.edges <= g.edges
  }

  /** Where a run stands: at the way in, or just out of the node it ran last. */
  predicate Stands(g: Graph, at: At, last: Option<Deed>) {
    if at == Way then last.None?
    else NodeAt(g.nodes, at).Some? && last == Some(NodeAt(g.nodes, at).value.does)
  }

  lemma {:induction false} LeavingHolds(edges: seq<Edge>, e: Edge)
    requires e in edges
    ensures e in Leaving(edges, e.outOf, e.when.Some?)
  {
    if edges[0] != e {
      LeavingHolds(edges[1..], e);
    }
  }

  /** The edge whose guard holds is the one taken. */
  lemma {:induction false} TakenIs(w: World, env: Env, g: Graph, e: Edge)
    requires Decides(g) && e in g.edges && Holding(w, env, e.when)
    ensures Taken(w, env, OutOf(g.edges, e.outOf)) == Some(e)
  {
    LeavingHolds(g.edges, e);
    var out := OutOf(g.edges, e.outOf);
    assert e in out;
    assert |out| == 1 ==> out == [out[0]];
    assert |out| == 2 ==> out == [out[0], out[1]] && out[1..] == [out[1]];
  }

  lemma {:induction false} NamedNode(nodes: seq<Node>, i: nat)
    requires i < |nodes|
    requires forall i, j :: 0 <= i < j < |nodes| ==> nodes[i].at != nodes[j].at
    ensures NodeAt(nodes, nodes[i].at) == Some(nodes[i])
  {
    if i > 0 {
      assert nodes[0].at != nodes[i].at;
      NamedNode(nodes[1..], i - 1);
    }
  }

  /** One step of the walk, out by an end that has been wired. */
  lemma {:induction false} Steps(w: World, g: Graph, l: Loose, e: End, into: At, answers: Option<Source>, st: State,
                                 n: nat)
    requires Decides(g) && e in l && Holding(w, st.env, e.when)
    requires forall x :: x in Joins(l, into, answers) ==> x in g.edges
    ensures
      var st1 := Decide(w, e.when, st);
      Walk(w, g, e.at, st, n) ==
      match NodeAt(g.nodes, into)
      case None => Ended(st1, answers)
      case Some(node) => if n == 0 then Paused(st1) else Walk(w, g, node.at, Do(w, node.does, st1), n - 1)
  {
    var i :| 0 <= i < |l| && l[i] == e;
    var edge := Edge(e.at, into, e.when, answers);
    assert Joins(l, into, answers)[i] == edge;
    TakenIs(w, st.env, g, edge);
  }

  lemma {:induction false} JoinsWithin(edges: seq<Edge>, l: Loose, into: At, answers: Option<Source>, g: Graph)
    requires edges + Joins(l, into, answers) <= g.edges
    ensures forall x :: x in Joins(l, into, answers) ==> x in g.edges
  {
    var more := Joins(l, into, answers);
    forall x | x in more
      ensures x in g.edges
    {
      var i :| 0 <= i < |more| && more[i] == x;
      assert g.edges[|edges| + i] == (edges + more)[|edges| + i];
    }
  }

  lemma {:induction false} NoWay(g: Graph)
    requires Decides(g)
    ensures NodeAt(g.nodes, Way) == None
  {
    FoundNode(g.nodes, Way);
  }

  /** What a run of statements does is what the walk does between the ends it was handed and the
  ends it leaves open. */
  lemma {:induction false} BlockFollows(w: World, c: Scope, s: Wired, stmts: seq<Stmt>, first: bool, l: Loose,
                     g: Graph, e: End, st: State, last: Option<Deed>, n: nat)
    returns (e1: End, st1: State)
    requires Block(c, s, stmts, first, l).0.found == []
    requires Within(Block(c, s, stmts, first, l).0, g) && Decides(g)
    requires e in l && Holding(w, st.env, e.when) && Stands(g, e.at, last)
    ensures
      var o := Exec(w, c, stmts, Decide(w, e.when, st), last, n);
      if o.Fell? then
        && e1 in Block(c, s, stmts, first, l).1 && Holding(w, st1.env, e1.when) && Stands(g, e1.at, o.last)
        && o.s == Decide(w, e1.when, st1)
        && Walk(w, g, e.at, st, n) == Walk(w, g, e1.at, st1, o.left)
      else Walk(w, g, e.at, st, n) == Finished(o)
    decreases n, stmts
  {
    hide Walk, Do, Decides, Stands, Called, Branch, Loop, Joins, Look, Truth, DeedOf, ShapeOf, Returned;
    e1, st1 := e, st;
    if stmts != [] {
      if Skipped(stmts[0], first) {
        e1, st1 := BlockFollows(w, c, s, stmts[1..], false, l, g, e, st, last, n);
      } else {
        var (s1, l1) := One(c, s, stmts[0], l);
        assert s1.found == [] && Within(s1, g);
        match stmts[0]
        case Call(_, _, _, _) =>
          var d := CallFollows(w, c, s, stmts[0], l, g, e, st, n);
          if n > 0 {
            var st2 := Do(w, d, Decide(w, e.when, st));
            e1, st1 := BlockFollows(w, c, s1, stmts[1..], false, l1, g, l1[0], st2, Some(d), n - 1);
          }
        case If(_, _, _) =>
          e1, st1 := BranchFollows(w, c, s, stmts, l, g, e, st, last, n);
        case While(_, _, _) =>
          e1, st1 := LoopFollows(w, c, s, stmts, first, l, g, e, st, last, n);
        case Return(value) =>
          ReturnFollows(w, c, s, value, l, g, e, st, n);
        case _ =>
      }
    }
  }

  lemma {:induction false} ReturnFollows(w: World, c: Scope, s: Wired, value: Option<Expr>, l: Loose, g: Graph, e: End,
                                         st: State, n: nat)
    requires Returned(c, s, value, l).found == [] && Within(Returned(c, s, value, l), g) && Decides(g)
    requires e in l && Holding(w, st.env, e.when)
    ensures AnswerOf(c, value).Some?
    ensures Walk(w, g, e.at, st, n) == Ended(Decide(w, e.when, st), AnswerOf(c, value).value)
  {
    hide Walk, Decides, Holding, Joins;
    var answers := AnswerOf(c, value).value;
    JoinsWithin(s.edges, l, Way, answers, g);
    NoWay(g);
    Steps(w, g, l, e, Way, answers, st, n);
  }

  lemma {:induction false} CallFollows(w: World, c: Scope, s: Wired, call: Stmt, l: Loose, g: Graph, e: End,
                                       st: State, n: nat)
    returns (d: Deed)
    requires call.Call? && Called(c, s, call, l).0.found == []
    requires Within(Called(c, s, call, l).0, g) && Decides(g)
    requires e in l && Holding(w, st.env, e.when)
    ensures DeedOf(c, call) == Some(d)
    ensures |Called(c, s, call, l).1| == 1 && Called(c, s, call, l).1[0].when.None?
    ensures Stands(g, Called(c, s, call, l).1[0].at, Some(d))
    ensures
      var st1 := Decide(w, e.when, st);
      Walk(w, g, e.at, st, n) ==
      if n == 0 then Paused(st1) else Walk(w, g, Called(c, s, call, l).1[0].at, Do(w, d, st1), n - 1)
  {
    hide Walk, Do, Decides, Holding, Joins, Called, DeedOf, NodeAt, Look;
    var at;
    d, at := CalledIs(c, s, call, l);
    var i := |s.nodes|;
    assert Called(c, s, call, l).0.nodes[i] == Node(at, d);
    assert g.nodes[i] == Node(at, d);
    DecidesNames(g);
    NamedNode(g.nodes, i);
    JoinsWithin(s.edges, l, at, None, g);
    Steps(w, g, l, e, at, None, st, n);
  }

  lemma {:induction false} DecidesNames(g: Graph)
    requires Decides(g)
    ensures forall i, j :: 0 <= i < j < |g.nodes| ==> g.nodes[i].at != g.nodes[j].at
  {
  }

  /** What a call that compiles adds to the graph. */
  lemma {:induction false} CalledIs(c: Scope, s: Wired, call: Stmt, l: Loose) returns (d: Deed, at: At)
    requires call.Call? && Called(c, s, call, l).0.found == []
    ensures DeedOf(c, call) == Some(d) && at != Way
    ensures
      var (s1, l1) := Called(c, s, call, l);
      s1.nodes == s.nodes + [Node(at, d)] && s1.edges == s.edges + Joins(l, at, None) && l1 == [End(at, None)]
  {
    hide Joins, Fits;
    d := DeedOf(c, call).value;
    at := Called(c, s, call, l).1[0].at;
  }

  lemma {:induction false} BranchFollows(w: World, c: Scope, s: Wired, stmts: seq<Stmt>, l: Loose,
                      g: Graph, e: End, st: State, last: Option<Deed>, n: nat)
    returns (e1: End, st1: State)
    requires stmts != [] && stmts[0].If? && l != []
    requires Block(c, s, stmts, false, l).0.found == []
    requires Within(Block(c, s, stmts, false, l).0, g) && Decides(g)
    requires e in l && Holding(w, st.env, e.when) && Stands(g, e.at, last)
    ensures
      var o := Exec(w, c, stmts, Decide(w, e.when, st), last, n);
      if o.Fell? then
        && e1 in Block(c, s, stmts, false, l).1 && Holding(w, st1.env, e1.when) && Stands(g, e1.at, o.last)
        && o.s == Decide(w, e1.when, st1)
        && Walk(w, g, e.at, st, n) == Walk(w, g, e1.at, st1, o.left)
      else Walk(w, g, e.at, st, n) == Finished(o)
    decreases n, stmts, 0
  {
    hide Walk, Do, Decides, Stands, NodeAt, Both, Look, Joins, ShapeOf, DeedOf, Called, Loop;
    e1, st1 := e, st;
    var If(test, body, orelse) := stmts[0];
    var (s3, l3) := Branch(c, s, stmts[0], l);
    var read, truth := Branched(c, s, test, l).value, !test.inverted;
    var yes, no := Guarded(l, When(read, truth)), Guarded(l, When(read, !truth));
    var (s1, held) := Block(c, s, body, true, yes);
    var was := s1.(bound := s.bound);
    var (s2, other) := Block(c, was, orelse, true, no);
    var i :| 0 <= i < |l| && l[i] == e;
    UnbranchedEnd(s, l, i);
    var arm: Outcome;
    if Truth(w, Look(w, st.env, read)) == truth {
      assert yes[i] in yes;
      e1, st1 := BlockFollows(w, c, s, body, true, yes, g, yes[i], st, last, n);
      arm := Exec(w, c, body, Ask(w, read, st), last, n);
    } else {
      assert no[i] in no;
      e1, st1 := BlockFollows(w, c, was, orelse, true, no, g, no[i], st, last, n);
      arm := Exec(w, c, orelse, Ask(w, read, st), last, n);
    }
    if arm.Fell? {
      assert e1 in l3;
      e1, st1 := BlockFollows(w, c, s3, stmts[1..], false, l3, g, e1, st1, arm.last, arm.left);
    }
  }

  lemma {:induction false} UnbranchedEnd(s: Wired, l: Loose, i: nat)
    requires Unbranched(s, l).None? && i < |l|
    ensures l[i].when.None? && NodeAt(s.nodes, l[i].at).Some?
  {
    if i > 0 {
      UnbranchedEnd(s, l[1..], i - 1);
    }
  }

  lemma {:induction false} LoopFollows(w: World, c: Scope, s: Wired, stmts: seq<Stmt>, first: bool, l: Loose,
                    g: Graph, e: End, st: State, last: Option<Deed>, n: nat)
    returns (e1: End, st1: State)
    requires stmts != [] && stmts[0].While? && l != []
    requires Block(c, s, stmts, first, l).0.found == []
    requires Within(Block(c, s, stmts, first, l).0, g) && Decides(g)
    requires e in l && Holding(w, st.env, e.when) && Stands(g, e.at, last)
    ensures
      var o := Exec(w, c, stmts, Decide(w, e.when, st), last, n);
      if o.Fell? then
        && e1 in Block(c, s, stmts, first, l).1 && Holding(w, st1.env, e1.when) && Stands(g, e1.at, o.last)
        && o.s == Decide(w, e1.when, st1)
        && Walk(w, g, e.at, st, n) == Walk(w, g, e1.at, st1, o.left)
      else Walk(w, g, e.at, st, n) == Finished(o)
    decreases n, stmts, 0
  {
    hide Walk, Do, Decides, Loop, NodeAt, Look, Joins, ShapeOf, DeedOf, Called, Branch, Branched, Unbranched;
    e1, st1 := e, st;
    var While(test, body, _) := stmts[0];
    var (s3, l3) := Loop(c, s, stmts[0], l);
    var read, truth, head := LoopIs(c, s, stmts[0], l);
    LoopReads(c, s, stmts[0], l);
    var opens := Guarded(l, When(read, truth));
    var (s1, inside) := Block(c, s, body, true, opens);
    assert e == l[0];
    UnbranchedEnd(s, l, 0);
    FoundNode(s.nodes, head);
    assert s.nodes <= g.nodes;
    StandsWithin(s.nodes, g, head);
    if Truth(w, Look(w, st.env, read)) == truth {
      var e2, st2 := BlockFollows(w, c, s, body, true, opens, g, opens[0], st, last, n);
      var o := Exec(w, c, body, Ask(w, read, st), last, n);
      if o.Fell? {
        JoinsWithin(s1.edges, inside, head, None, g);
        Steps(w, g, inside, e2, head, None, st2, o.left);
        if o.left > 0 {
          e1, st1 := BlockFollows(w, c, s, stmts, first, l, g, e, Do(w, last.value, o.s), last, o.left - 1);
        }
      }
    } else {
      e1, st1 := BlockFollows(w, c, s3, stmts[1..], false, l3, g, l3[0], st, last, n);
    }
  }

  /** What a loop that compiles asks, as it is executed. */
  lemma {:induction false} LoopReads(c: Scope, s: Wired, st: Stmt, l: Loose)
    requires st.While? && Loop(c, s, st, l).0.found == []
    ensures st.orelse == [] && Branched(c, s, st.test, l).Granted?
    ensures ReadOf(c, st.test.said) == Some(Branched(c, s, st.test, l).value)
  {
    hide Block, Twice, Endless, Joins, Unbranched, ShapeOf;
  }

  /** A node's id names it in the whole graph as it does in the part. */
  lemma {:induction false} StandsWithin(nodes: seq<Node>, g: Graph, at: At)
    requires NodeAt(nodes, at).Some? && nodes <= g.nodes && Decides(g)
    ensures at != Way && NodeAt(g.nodes, at) == NodeAt(nodes, at) && NodeAt(nodes, at).value.at == at
  {
    FoundNode(nodes, at);
    var i :| 0 <= i < |nodes| && nodes[i] == NodeAt(nodes, at).value;
    assert g.nodes[i] == nodes[i];
    NamedNode(g.nodes, i);
  }

  /** For every body that compiles, every world and every number of nodes, the walk over the
  compiled graph comes to what executing the body comes to: the same nodes run on the same
  arguments, the same decisions in the same order, and the same way out. */
  lemma {:induction false} CompilingPreservesMeaning(w: World, c: Scope, body: seq<Stmt>, n: nat)
    requires Compiles(c, body)
    ensures Walk(w, Compiled(c, body), Way, Begun(w), n) == Executed(w, c, body, n)
    ensures !Executed(w, c, body, n).Astray?
  {
    var g := Compiled(c, body);
    CompiledGraph(c, body);
    CompiledDecides(c, body);
    var way := End(Way, None);
    var (s1, l) := Block(c, START, body, true, [way]);
    var e, st := BlockFollows(w, c, START, body, true, [way], g, way, Begun(w), None, n);
    var o := Exec(w, c, body, Begun(w), None, n);
    if o.Fell? {
      JoinsWithin(s1.edges, l, Way, None, g);
      NoWay(g);
      Steps(w, g, l, e, Way, None, st, o.left);
    }
    NeverAstray(w, g, Way, Begun(w), n);
  }

  lemma {:induction false} CompiledDecides(c: Scope, body: seq<Stmt>)
    requires Compiles(c, body)
    ensures Decides(Compiled(c, body))
  {
    var g := Compiled(c, body);
    CompiledGraph(c, body);
    forall e | e in g.edges
      ensures OneWay(g, e.outOf) || TwoWays(g, e.outOf)
    {
      var i :| 0 <= i < |g.edges| && g.edges[i] == e;
      if e.outOf != Way {
        var k :| 0 <= k < |g.nodes| && g.nodes[k].at == e.outOf;
        assert OneWay(g, g.nodes[k].at) || TwoWays(g, g.nodes[k].at);
      }
    }
  }

  /** A walk over a graph whose nodes all have their ways out never stops short. */
  lemma {:induction false} NeverAstray(w: World, g: Graph, at: At, st: State, n: nat)
    requires OneWay(g, at) || TwoWays(g, at)
    requires forall i :: 0 <= i < |g.nodes| ==> OneWay(g, g.nodes[i].at) || TwoWays(g, g.nodes[i].at)
    ensures !Walk(w, g, at, st, n).Astray?
    decreases n
  {
    hide Do, Looks, Look, Leaving;
    var out := OutOf(g.edges, at);
    assert |out| == 2 ==> out[1..] == [out[1]];
    assert Taken(w, st.env, out).Some?;
    var edge := Taken(w, st.env, out).value;
    FoundNode(g.nodes, edge.into);
    var node := NodeAt(g.nodes, edge.into);
    if node.Some? && n > 0 {
      NeverAstray(w, g, node.value.at, Do(w, node.value.does, Decide(w, edge.when, st)), n - 1);
    }
  }
}
