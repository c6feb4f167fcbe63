/** How far the compiler's own findings go: a body that reads no name in doubt, and whose loops read again only
what is still bound, is steady. */
module Binding {
  import opened Prelude
  import opened Atlas
  import opened Body
  import opened WiringSpec
  import opened Structure
  import opened Refusals
  import opened Soundness

  /* ---- Names in doubt ---- */

  predicate Sure(r: Reads, doubt: set<Name>) {
    r.source.Bound? ==> r.source.name !in doubt
  }

  /** The names that count as bound below a statement and may hold nothing: what a loop's body
  binds that was not bound before the loop, until it is bound again. */
  function DoubtOne(c: Scope, s: Wired, st: Stmt, l: Loose, doubt: set<Name>): set<Name>
    decreases st, 0
  {
    match st
    case Call(targets, _, _, _) =>
      var target := Target(targets);
      if target.None? || target.value == "" then doubt else doubt - {target.value}
    case If(test, body, orelse) =>
      (match Branched(c, s, test, l)
       case Granted(read) =>
         var yes, no := Guarded(l, When(read, !test.inverted)), Guarded(l, When(read, test.inverted));
         Doubt(c, s, body, true, yes, doubt)
         + Doubt(c, Block(c, s, body, true, yes).0.(bound := s.bound), orelse, true, no, doubt)
       case _ => doubt)
    case While(_, body, _) => doubt + (Assigned(body) - s.bound.Keys)
    case _ => doubt
  }

  function Doubt(c: Scope, s: Wired, stmts: seq<Stmt>, first: bool, l: Loose, doubt: set<Name>): set<Name>
    decreases stmts, 1
  {
    if stmts == [] then doubt
    else if Skipped(stmts[0], first) then Doubt(c, s, stmts[1..], false, l, doubt)
    else
      var (s1, l1) := One(c, s, stmts[0], l);
      Doubt(c, s1, stmts[1..], false, l1, DoubtOne(c, s, stmts[0], l, doubt))
  }

  /** Whether the node a loop reads again reads nothing but what is still bound at the loop. */
  predicate HeadKept(s: Wired, head: Deed, doubt: set<Name>) {
    forall i :: 0 <= i < |head.takes| && head.takes[i].source.Bound? ==>
      head.takes[i].source.name in s.bound && head.takes[i].source.name !in doubt
  }

  predicate AssuredOne(c: Scope, s: Wired, st: Stmt, l: Loose, doubt: set<Name>)
    decreases st, 0
  {
    match st
    case Call(_, _, _, args) =>
      var takes := AllReads(c, args);
      takes.Some? ==> forall i :: 0 <= i < |takes.value| ==> Sure(takes.value[i], doubt)
    case If(test, body, orelse) =>
      (match Branched(c, s, test, l)
       case Granted(read) =>
         var yes, no := Guarded(l, When(read, !test.inverted)), Guarded(l, When(read, test.inverted));
         && Sure(read, doubt)
         && Assured(c, s, body, true, yes, doubt)
         && Assured(c, Block(c, s, body, true, yes).0.(bound := s.bound), orelse, true, no, doubt)
       case _ => true)
    case While(test, body, _) =>
      (match Branched(c, s, test, l)
       case Granted(read) =>
         && Sure(read, doubt)
         && |l| == 1 && (NodeAt(s.nodes, l[0].at).Some? ==> HeadKept(s, NodeAt(s.nodes, l[0].at).value.does, doubt))
         && Assured(c, s, body, true, Guarded(l, When(read, !test.inverted)), doubt)
       case _ => true)
    case Return(Some(Word(id))) =>
      SourceOf(c, id).Bound? ==> SourceOf(c, id).name in s.bound && SourceOf(c, id).name !in doubt
    case _ => true
  }

  /** A body that reads and answers with no name in doubt, and whose loops each keep what their head reads. */
  predicate Assured(c: Scope, s: Wired, stmts: seq<Stmt>, first: bool, l: Loose, doubt: set<Name>)
    decreases stmts, 1
  {
    if stmts == [] then true
    else if Skipped(stmts[0], first) then Assured(c, s, stmts[1..], false, l, doubt)
    else
      var (s1, l1) := One(c, s, stmts[0], l);
      AssuredOne(c, s, stmts[0], l, doubt)
      && Assured(c, s1, stmts[1..], false, l1, DoubtOne(c, s, stmts[0], l, doubt))
  }

  predicate AssuredBody(c: Scope, body: seq<Stmt>) {
    Assured(c, START, body, true, [End(Way, None)], {})
  }

  /* ---- What compiling does to what is bound ---- */

  predicate Extends(less: map<Name, Shape>, more: map<Name, Shape>) {
    forall x :: x in less ==> x in more && more[x] == less[x]
  }

  /** Without a finding, a name stays bound at its shape, and only assignments bind more. */
  lemma {:induction false} BoundGrows(c: Scope, s: Wired, stmts: seq<Stmt>, first: bool, l: Loose)
    requires Block(c, s, stmts, first, l).0.found == []
    ensures Extends(s.bound, Block(c, s, stmts, first, l).0.bound)
    ensures Block(c, s, stmts, first, l).0.bound.Keys <= s.bound.Keys + Assigned(stmts)
    decreases stmts, 1
  {
    if stmts != [] {
      if Skipped(stmts[0], first) {
        BoundGrows(c, s, stmts[1..], false, l);
      } else {
        var (s1, l1) := One(c, s, stmts[0], l);
        BoundGrowsOne(c, s, stmts[0], l);
        BoundGrows(c, s1, stmts[1..], false, l1);
      }
    }
  }

  lemma {:induction false} BoundGrowsOne(c: Scope, s: Wired, st: Stmt, l: Loose)
    requires One(c, s, st, l).0.found == []
    ensures Extends(s.bound, One(c, s, st, l).0.bound)
    ensures One(c, s, st, l).0.bound.Keys <= s.bound.Keys + AssignedIn(st)
    decreases st, 0
  {
    hide Branched, Twice, Endless;
    match st
    case Call(_, _, _, _) => BoundGrowsCall(c, s, st, l);
    case If(test, body, orelse) =>
      var read := Branched(c, s, test, l).value;
      var yes, no := Guarded(l, When(read, !test.inverted)), Guarded(l, When(read, test.inverted));
      var s1 := Block(c, s, body, true, yes).0;
      BoundGrows(c, s, body, true, yes);
      BoundGrows(c, s1.(bound := s.bound), orelse, true, no);
    case While(test, body, _) =>
      var read := Branched(c, s, test, l).value;
      BoundGrows(c, s, body, true, [End(l[0].at, Some(When(read, !test.inverted)))]);
    case _ =>
  }

  lemma {:induction false} BoundGrowsCall(c: Scope, s: Wired, st: Stmt, l: Loose)
    requires st.Call? && Called(c, s, st, l).0.found == []
    ensures Extends(s.bound, Called(c, s, st, l).0.bound)
    ensures Called(c, s, st, l).0.bound.Keys <= s.bound.Keys + AssignedIn(st)
  {
    assert st.targets != [] ==> st.targets == [st.targets[0]] && st.targets[0] in st.targets;
  }

  /** A name bound already is not put in doubt. */
  lemma {:induction false} DoubtKeeps(c: Scope, s: Wired, stmts: seq<Stmt>, first: bool, l: Loose, doubt: set<Name>,
                                      x: Name)
    requires Block(c, s, stmts, first, l).0.found == []
    requires x in s.bound && x !in doubt
    ensures x !in Doubt(c, s, stmts, first, l, doubt)
    decreases stmts, 1
  {
    if stmts != [] {
      if Skipped(stmts[0], first) {
        DoubtKeeps(c, s, stmts[1..], false, l, doubt, x);
      } else if l != [] {
        var (s1, l1) := One(c, s, stmts[0], l);
        BoundGrowsOne(c, s, stmts[0], l);
        DoubtKeepsOne(c, s, stmts[0], l, doubt, x);
        DoubtKeeps(c, s1, stmts[1..], false, l1, DoubtOne(c, s, stmts[0], l, doubt), x);
      }
    }
  }

  lemma {:induction false} DoubtKeepsOne(c: Scope, s: Wired, st: Stmt, l: Loose, doubt: set<Name>, x: Name)
    requires One(c, s, st, l).0.found == []
    requires x in s.bound && x !in doubt
    ensures x !in DoubtOne(c, s, st, l, doubt)
    decreases st, 0
  {
    if st.If? {
      var read := Branched(c, s, st.test, l).value;
      var yes, no := Guarded(l, When(read, !st.test.inverted)), Guarded(l, When(read, st.test.inverted));
      DoubtKeeps(c, s, st.body, true, yes, doubt, x);
      DoubtKeeps(c, Block(c, s, st.body, true, yes).0.(bound := s.bound), st.orelse, true, no, doubt, x);
    }
  }

  /* ---- A table of what is bound after each node ---- */

  type Table = map<At, map<Name, Shape>>

  /** Whether what is bound after a node is what was bound before it, and what it binds. */
  predicate Passes(d: Deed, was: map<Name, Shape>, now: map<Name, Shape>) {
    forall x :: x in now ==> if x != "" && d.binds == x then now[x] == d.gives else x in was && was[x] == now[x]
  }

  predicate Takes(c: Scope, d: Deed, bound: map<Name, Shape>) {
    forall i :: 0 <= i < |d.takes| && d.takes[i].source.Bound? ==> Fits(c, bound, Wanted(c, d, i), d.takes[i])
  }

  predicate Returns(c: Scope, answers: Option<Source>, bound: map<Name, Shape>) {
    answers.Some? && answers.value.Bound? ==>
      answers.value.name in bound && (c.gives != "" ==> bound[answers.value.name] == c.gives)
  }

  predicate Tests(c: Scope, when: Option<When>, bound: map<Name, Shape>) {
    when.Some? && when.value.asks.source.Bound? ==> Sized(ShapeOf(c, bound, when.value.asks))
  }

  /** Whether one edge's reads are of what the table says is bound, and what it leads to agrees with it. */
  predicate Carries(c: Scope, nodes: seq<Node>, b: Table, e: Edge) {
    && e.outOf in b && Tests(c, e.when, b[e.outOf])
    && (match NodeAt(nodes, e.into)
        case None => Returns(c, e.answers, b[e.outOf])
        case Some(node) => e.into in b && Takes(c, node.does, b[e.outOf]) && Passes(node.does, b[e.outOf], b[e.into]))
  }

  /** Whether a node binds what the table says is bound after it, and would still take what it took. */
  predicate Again(c: Scope, d: Deed, bound: map<Name, Shape>) {
    && (d.binds != "" && d.binds in bound ==> bound[d.binds] == d.gives)
    && (forall i :: 0 <= i < |d.takes| && d.takes[i].source.Bound? && d.takes[i].source.name in bound ==>
          Fits(c, bound, Wanted(c, d, i), d.takes[i]))
  }

  ghost predicate Tabled(c: Scope, s: Wired, b: Table) {
    && (forall at :: at in b <==> at == Way || Known(s.nodes, at)) && b[Way] == map[]
    && (forall i :: 0 <= i < |s.nodes| ==> Again(c, s.nodes[i].does, b[s.nodes[i].at]))
    && (forall e :: e in s.edges ==> Carries(c, s.nodes, b, e))
  }

  /** Whether what is surely bound is bound after the node under each end, and what the end asks as well. */
  predicate Fit(c: Scope, bound: map<Name, Shape>, doubt: set<Name>, l: Loose, b: Table) {
    forall i :: 0 <= i < |l| ==> l[i].at in b && Extends(bound - doubt, b[l[i].at]) && Tests(c, l[i].when, b[l[i].at])
  }

  ghost predicate Agreeing(aside: multiset<End>, b: Table, b1: Table) {
    forall e :: e in aside && e.at in b ==> e.at in b1 && b1[e.at] == b[e.at]
  }

  /** A graph with such a table is steady. */
  lemma {:induction false} TabledIsSteady(c: Scope, g: Graph, b: Table)
    requires Way in b && b[Way] == map[] && forall e :: e in g.edges ==> Carries(c, g.nodes, b, e)
    ensures Steady(c, g)
  {
    hide Carries, Fits, Held, ShapeOf;
    forall e | e in g.edges
      ensures Clear(c, g, e)
    {
      EdgeClear(c, g, b, e);
    }
  }

  /** A name the table holds at a node holds nothing else there. */
  lemma {:induction false} TabledHeld(c: Scope, g: Graph, b: Table, x: Name, p: Point)
    requires Way in b && b[Way] == map[] && forall e :: e in g.edges ==> Carries(c, g.nodes, b, e)
    requires p in Held(g, x) && p.at in b && x in b[p.at]
    ensures p.holds == Some(b[p.at][x])
  {
    hide Tests, Takes, Returns;
    var right := set p | p in Points(g) && p.at in b && (x in b[p.at] ==> p.holds == Some(b[p.at][x]));
    MovesStay(g, x, right);
    forall q | q in Moves(g, x, right)
      ensures q in right
    {
      var e, p :| e in g.edges && p in right && p.at == e.outOf && !Denied(p.known, e.when)
                  && NodeAt(g.nodes, e.into).Some? && q == Onward(x, e, NodeAt(g.nodes, e.into).value.does, p);
      assert Carries(c, g.nodes, b, e);
    }
    SpreadLeast(g, x, {OUTSET}, right);
  }

  lemma {:induction false} AloneFits(c: Scope, bound: map<Name, Shape>, wanted: Shape, r: Reads, t: Status)
    requires r.source.Bound? && (r.source.name in bound ==> t == Some(bound[r.source.name]))
    ensures Fits(c, bound, wanted, r) ==> Fits(c, Alone(r.source, t), wanted, r)
    ensures Sized(ShapeOf(c, bound, r)) ==> Sized(ShapeOf(c, Alone(r.source, t), r))
  {
  }

  lemma {:induction false} EdgeClear(c: Scope, g: Graph, b: Table, e: Edge)
    requires Way in b && b[Way] == map[] && (forall e :: e in g.edges ==> Carries(c, g.nodes, b, e)) && e in g.edges
    ensures Clear(c, g, e)
  {
    hide Held, Fits, ShapeOf, Same;
    assert Carries(c, g.nodes, b, e);
    var bound := b[e.outOf];
    forall x, p | p in Held(g, x) && p.at == e.outOf && x in bound
      ensures p.holds == Some(bound[x])
    {
      TabledHeld(c, g, b, x, p);
    }
    if e.when.Some? && e.when.value.asks.source.Bound? {
      forall t | t in Can(g, e.outOf, None, e.when.value.asks.source)
        ensures Sized(ShapeOf(c, Alone(e.when.value.asks.source, t), e.when.value.asks))
      {
        AloneFits(c, bound, "", e.when.value.asks, t);
      }
    }
    var node := NodeAt(g.nodes, e.into);
    if node.Some? {
      var d := node.value.does;
      forall i, t | 0 <= i < |d.takes| && d.takes[i].source.Bound? && t in Can(g, e.outOf, e.when, d.takes[i].source)
        ensures Fits(c, Alone(d.takes[i].source, t), Wanted(c, d, i), d.takes[i])
      {
        AloneFits(c, bound, Wanted(c, d, i), d.takes[i], t);
      }
    }
  }

  /* ---- The table built as the body is walked ---- */

  /** A read that is sure fits whatever holds at least what is surely bound. */
  lemma {:induction false} SureFits(c: Scope, bound: map<Name, Shape>, doubt: set<Name>, more: map<Name, Shape>,
                                    r: Reads, wanted: Shape)
    requires Extends(bound - doubt, more) && Sure(r, doubt) && r.source.Bound?
    ensures Fits(c, bound, wanted, r) ==> Fits(c, more, wanted, r)
    ensures Sized(ShapeOf(c, bound, r)) ==> Sized(ShapeOf(c, more, r))
  {
    assert r.source.name in bound ==> r.source.name in bound - doubt;
  }

  lemma {:induction false} BlockTabled(c: Scope, s: Wired, stmts: seq<Stmt>, first: bool, l: Loose,
                                       aside: multiset<End>, doubt: set<Name>, b: Table)
    returns (b1: Table)
    requires Wires(s, l, aside) && Tabled(c, s, b) && Fit(c, s.bound, doubt, l, b) && c.gives != NOTHING
    requires Block(c, s, stmts, first, l).0.found == [] && Assured(c, s, stmts, first, l, doubt)
    ensures
      var (s1, l1) := Block(c, s, stmts, first, l);
      Tabled(c, s1, b1) && Fit(c, s1.bound, Doubt(c, s, stmts, first, l, doubt), l1, b1) && Agreeing(aside, b, b1)
    decreases stmts, 1
  {
    hide Wires, Tabled, Fit;
    b1 := b;
    if stmts != [] {
      if Skipped(stmts[0], first) {
        b1 := BlockTabled(c, s, stmts[1..], false, l, aside, doubt, b);
      } else {
        var (s1, l1) := One(c, s, stmts[0], l);
        KeepsOne(c, s, stmts[0], l, aside);
        b1 := OneTabled(c, s, stmts[0], l, aside, doubt, b);
        var b2 := BlockTabled(c, s1, stmts[1..], false, l1, aside, DoubtOne(c, s, stmts[0], l, doubt), b1);
        b1 := b2;
      }
    }
  }

  lemma {:induction false} OneTabled(c: Scope, s: Wired, st: Stmt, l: Loose, aside: multiset<End>, doubt: set<Name>,
                                     b: Table)
    returns (b1: Table)
    requires Wires(s, l, aside) && Tabled(c, s, b) && Fit(c, s.bound, doubt, l, b) && l != [] && c.gives != NOTHING
    requires One(c, s, st, l).0.found == [] && AssuredOne(c, s, st, l, doubt)
    ensures
      var (s1, l1) := One(c, s, st, l);
      Tabled(c, s1, b1) && Fit(c, s1.bound, DoubtOne(c, s, st, l, doubt), l1, b1) && Agreeing(aside, b, b1)
    decreases st, 1
  {
    hide Wires, Tabled, Fit, Called, Branch, Loop, DoubtOne, AssuredOne, Agreeing;
    match st
    case Call(_, _, _, _) => b1 := CallTabled(c, s, st, l, aside, doubt, b);
    case If(_, _, _) => b1 := BranchTabled(c, s, st, l, aside, doubt, b);
    case While(_, _, _) => b1 := LoopTabled(c, s, st, l, aside, doubt, b);
    case Return(value) =>
      ReturnTabled(c, s, value, l, aside, doubt, b);
      b1 := b;
      AgreeingItself(aside, b);
    case _ =>
  }

  lemma {:induction false} ReturnTabled(c: Scope, s: Wired, value: Option<Expr>, l: Loose, aside: multiset<End>,
                                        doubt: set<Name>, b: Table)
    requires Wires(s, l, aside) && Tabled(c, s, b) && Fit(c, s.bound, doubt, l, b) && c.gives != NOTHING
    requires Returned(c, s, value, l).found == [] && AssuredOne(c, s, Return(value), l, doubt)
    ensures Tabled(c, Returned(c, s, value, l), b) && Fit(c, s.bound, DoubtOne(c, s, Return(value), l, doubt), [], b)
  {
    hide Wires, Tabled;
    var answers := AnswerOf(c, value).value;
    NotANode(s, l, aside);
    forall i | 0 <= i < |l|
      ensures Returns(c, answers, b[l[i].at])
    {
      ReturnsSurely(c, s, value, l, doubt, b[l[i].at]);
    }
    JoinsTabled(c, s, l, Way, answers, b);
  }

  lemma {:induction false} ReturnsSurely(c: Scope, s: Wired, value: Option<Expr>, l: Loose, doubt: set<Name>,
                                         bound: map<Name, Shape>)
    requires Extends(s.bound - doubt, bound) && c.gives != NOTHING
    requires Returned(c, s, value, l).found == [] && AssuredOne(c, s, Return(value), l, doubt)
    ensures AnswerOf(c, value).Some? && Returns(c, AnswerOf(c, value).value, bound)
  {
    var answers := AnswerOf(c, value).value;
    assert answers.Some? && answers.value.Bound? ==> answers.value.name in s.bound - doubt;
  }

  lemma {:induction false} NotANode(s: Wired, l: Loose, aside: multiset<End>)
    requires Wires(s, l, aside)
    ensures NodeAt(s.nodes, Way).None?
  {
    FoundNode(s.nodes, Way);
  }

  /** Edges from the open ends to one place, each carrying what it should. */
  lemma {:induction false} JoinsTabled(c: Scope, s: Wired, l: Loose, into: At, answers: Option<Source>, b: Table)
    requires Tabled(c, s, b)
    requires forall i :: 0 <= i < |l| ==> Carries(c, s.nodes, b, Edge(l[i].at, into, l[i].when, answers))
    ensures Tabled(c, s.(edges := s.edges + Joins(l, into, answers)), b)
  {
    hide Carries, Again;
    var more := Joins(l, into, answers);
    assert forall e :: e in s.edges + more ==> e in s.edges || e in more;
  }

  lemma {:induction false} CallTabled(c: Scope, s: Wired, call: Stmt, l: Loose, aside: multiset<End>,
                                      doubt: set<Name>, b: Table)
    returns (b1: Table)
    requires Wires(s, l, aside) && Tabled(c, s, b) && Fit(c, s.bound, doubt, l, b)
    requires call.Call? && Called(c, s, call, l).0.found == [] && AssuredOne(c, s, call, l, doubt)
    ensures
      var (s1, l1) := Called(c, s, call, l);
      Tabled(c, s1, b1) && Fit(c, s1.bound, DoubtOne(c, s, call, l, doubt), l1, b1) && Agreeing(aside, b, b1)
  {
    hide Wires, Tabled, Fit, Agreeing, Noded, Fits;
    var d := c.decls[call.callee.value].value;
    var takes := Arguments(c, s.bound, Quiet(s), call.args, d.takes).value;
    b1 := NodeTabled(c, s, call.callee.value, d, takes, Target(call.targets).value, l, aside, doubt, b);
  }

  lemma {:induction false} NodeTabled(c: Scope, s: Wired, called: Name, d: Declared, takes: seq<Reads>, binds: Name,
                                      l: Loose, aside: multiset<End>, doubt: set<Name>, b: Table)
    returns (b1: Table)
    requires Wires(s, l, aside) && Tabled(c, s, b) && Fit(c, s.bound, doubt, l, b)
    requires called in c.decls && c.decls[called] == Some(d) && |takes| == |d.takes|
    requires Noded(s, called, d, takes, binds, l).0.found == []
    requires forall i :: 0 <= i < |takes| ==> Sure(takes[i], doubt) && Fits(c, s.bound, d.takes[i].shape, takes[i])
    ensures
      var (s1, l1) := Noded(s, called, d, takes, binds, l);
      && Tabled(c, s1, b1) && Agreeing(aside, b, b1)
      && Fit(c, s1.bound, if binds == "" then doubt else doubt - {binds}, l1, b1)
  {
    hide Fits, Tabled, Wires, Fit;
    WiresNumbers(s, l, aside);
    var node := NodeNumbered(s, called, d, takes, binds, l);
    var (s1, l1) := Noded(s, called, d, takes, binds, l);
    assert node == (s.nodes + [node])[|s.nodes|];
    var sure := s.bound - doubt;
    var now := if binds == "" then sure else sure[binds := d.gives];
    b1 := b[node.at := now];
    NewAgain(c, s.bound, doubt, node.does, now);
    NewNode(c, s, node, now, b, s1.(edges := s.edges), l, aside);
    forall i | 0 <= i < |l|
      ensures Carries(c, s1.nodes, b1, Edge(l[i].at, node.at, l[i].when, None))
    {
      NewEdge(c, s, node, now, b, l, doubt, s1.nodes, i);
    }
    JoinsTabled(c, s1.(edges := s.edges), l, node.at, None, b1);
    NewFit(c, s, s1, node, now, doubt, if binds == "" then doubt else doubt - {binds}, b1);
    NewAgrees(c, s, node, now, b, aside);
  }

  lemma {:induction false} WiresNumbers(s: Wired, l: Loose, aside: multiset<End>)
    requires Wires(s, l, aside)
    ensures Numbered(s)
    ensures forall i :: 0 <= i < |s.edges| ==> s.edges[i].into == Way || Known(s.nodes, s.edges[i].into)
  {
  }

  lemma {:induction false} NewAgrees(c: Scope, s: Wired, node: Node, now: map<Name, Shape>, b: Table,
                                     aside: multiset<End>)
    requires Tabled(c, s, b) && !Known(s.nodes, node.at) && node.at != Way
    ensures Agreeing(aside, b, b[node.at := now])
  {
  }

  lemma {:induction false} NewFit(c: Scope, s: Wired, s1: Wired, node: Node, now: map<Name, Shape>, doubt: set<Name>,
                                  doubt1: set<Name>, b1: Table)
    requires node.at in b1 && b1[node.at] == now
    requires now == if node.does.binds == "" then s.bound - doubt
                    else (s.bound - doubt)[node.does.binds := node.does.gives]
    requires s1.bound == if node.does.binds == "" then s.bound else s.bound[node.does.binds := node.does.gives]
    requires doubt1 == if node.does.binds == "" then doubt else doubt - {node.does.binds}
    ensures Fit(c, s1.bound, doubt1, [End(node.at, None)], b1)
  {
  }

  lemma {:induction false} NewAgain(c: Scope, bound: map<Name, Shape>, doubt: set<Name>, d: Deed, now: map<Name, Shape>)
    requires now == if d.binds == "" then bound - doubt else (bound - doubt)[d.binds := d.gives]
    requires d.binds != "" && d.binds in bound ==> bound[d.binds] == d.gives
    requires forall i :: 0 <= i < |d.takes| ==> Sure(d.takes[i], doubt) && Fits(c, bound, Wanted(c, d, i), d.takes[i])
    ensures Again(c, d, now)
  {
    hide Fits;
    forall i | 0 <= i < |d.takes| && d.takes[i].source.Bound?
      ensures Fits(c, now, Wanted(c, d, i), d.takes[i])
    {
      SureFits(c, bound, doubt, bound - doubt, d.takes[i], Wanted(c, d, i));
      MoreFits(c, bound - doubt, now, Wanted(c, d, i), d.takes[i]);
    }
  }

  lemma {:induction false} MoreFits(c: Scope, less: map<Name, Shape>, more: map<Name, Shape>, wanted: Shape, r: Reads)
    requires Fits(c, less, wanted, r) && Extends(less, more)
    ensures Fits(c, more, wanted, r)
  {
  }

  lemma {:induction false} NewNode(c: Scope, s: Wired, node: Node, now: map<Name, Shape>, b: Table, s1: Wired, l: Loose,
                                   aside: multiset<End>)
    requires Tabled(c, s, b) && Wires(s, l, aside) && !Known(s.nodes, node.at) && node.at != Way
    requires s1.nodes == s.nodes + [node] && s1.edges == s.edges && Again(c, node.does, now)
    ensures Tabled(c, s1, b[node.at := now])
  {
    hide Again, Takes, Tests, Returns, Paired, Covering, Connected, Numbered;
    var b1 := b[node.at := now];
    forall at
      ensures at in b1 <==> at == Way || Known(s1.nodes, at)
    {
      KnownOn(s.nodes, node, at);
    }
    forall i | 0 <= i < |s.nodes|
      ensures s.nodes[i].at != node.at
    {
      assert Known(s.nodes, s.nodes[i].at);
    }
    forall e | e in s.edges
      ensures Carries(c, s1.nodes, b1, e)
    {
      assert Carries(c, s.nodes, b, e);
      var i :| 0 <= i < |s.edges| && s.edges[i] == e;
      assert e.into == Way || Known(s.nodes, e.into);
      LookedUpOn(s.nodes, node, e.into);
    }
  }

  lemma {:induction false} KnownOn(nodes: seq<Node>, node: Node, at: At)
    ensures Known(nodes + [node], at) <==> Known(nodes, at) || at == node.at
  {
    assert (nodes + [node])[|nodes|] == node;
    if Known(nodes, at) {
      var i :| 0 <= i < |nodes| && nodes[i].at == at;
      assert (nodes + [node])[i].at == at;
    }
  }

  lemma {:induction false} LookedUpOn(nodes: seq<Node>, node: Node, at: At)
    requires at != node.at
    ensures NodeAt(nodes + [node], at) == NodeAt(nodes, at)
  {
    if nodes == [] {
      assert [node][1..] == [];
    } else {
      assert (nodes + [node])[1..] == nodes[1..] + [node];
      LookedUpOn(nodes[1..], node, at);
    }
  }

  lemma {:induction false} NewEdge(c: Scope, s: Wired, node: Node, now: map<Name, Shape>, b: Table, l: Loose,
                                   doubt: set<Name>, nodes: seq<Node>, i: nat)
    requires Tabled(c, s, b) && Fit(c, s.bound, doubt, l, b) && i < |l| && !Known(s.nodes, node.at) && node.at != Way
    requires now == if node.does.binds == "" then s.bound - doubt
                    else (s.bound - doubt)[node.does.binds := node.does.gives]
    requires forall i :: 0 <= i < |node.does.takes| ==>
               Sure(node.does.takes[i], doubt) && Fits(c, s.bound, Wanted(c, node.does, i), node.does.takes[i])
    requires nodes == s.nodes + [node]
    ensures Carries(c, nodes, b[node.at := now], Edge(l[i].at, node.at, l[i].when, None))
  {
    hide Fits, Again;
    LastNode(s.nodes, node);
    var was := b[l[i].at];
    assert l[i].at != node.at;
    forall k | 0 <= k < |node.does.takes| && node.does.takes[k].source.Bound?
      ensures Fits(c, was, Wanted(c, node.does, k), node.does.takes[k])
    {
      SureFits(c, s.bound, doubt, was, node.does.takes[k], Wanted(c, node.does, k));
    }
  }

  /** What a branch reads, where it is sure, is bound under the ends it guards. */
  lemma {:induction false} GuardedFit(c: Scope, s: Wired, test: Test, l: Loose, truth: bool, doubt: set<Name>, b: Table)
    requires Fit(c, s.bound, doubt, l, b) && Branched(c, s, test, l).Granted?
    requires Sure(Branched(c, s, test, l).value, doubt)
    ensures Fit(c, s.bound, doubt, Guarded(l, When(Branched(c, s, test, l).value, truth)), b)
  {
    hide ShapeOf;
    var r := Branched(c, s, test, l).value;
    forall i | 0 <= i < |l|
      ensures Tests(c, Some(When(r, truth)), b[l[i].at])
    {
      if r.source.Bound? {
        SureFits(c, s.bound, doubt, b[l[i].at], r, "");
      }
    }
  }

  lemma {:induction false} StillFit(c: Scope, bound: map<Name, Shape>, doubt: set<Name>, l: Loose, aside: multiset<End>,
                                    b: Table, b1: Table, less: map<Name, Shape>, more: set<Name>)
    requires Fit(c, bound, doubt, l, b) && (forall e :: e in l ==> e in aside) && Agreeing(aside, b, b1)
    requires Extends(less, bound) && doubt <= more
    ensures Fit(c, less, more, l, b1)
  {
    forall i | 0 <= i < |l|
      ensures l[i].at in b1 && b1[l[i].at] == b[l[i].at]
    {
      assert l[i] in aside;
    }
  }

  lemma {:induction false} FitBoth(c: Scope, bound: map<Name, Shape>, doubt: set<Name>, a: Loose, d: Loose, b: Table)
    requires Fit(c, bound, doubt, a, b) && Fit(c, bound, doubt, d, b)
    ensures Fit(c, bound, doubt, a + d, b)
  {
  }

  lemma {:induction false} SameTabled(c: Scope, s: Wired, s1: Wired, b: Table)
    requires Tabled(c, s, b) && s1.nodes == s.nodes && s1.edges == s.edges
    ensures Tabled(c, s1, b)
  {
  }

  lemma {:induction false} AgreeingOn(aside: multiset<End>, more: multiset<End>, b: Table, b1: Table, b2: Table)
    requires Agreeing(aside + more, b, b1) && Agreeing(aside, b1, b2)
    ensures Agreeing(aside, b, b2)
  {
    forall e | e in aside && e.at in b
      ensures e.at in b2 && b2[e.at] == b[e.at]
    {
      assert e in aside + more;
    }
  }

  lemma {:induction false} BranchTabled(c: Scope, s: Wired, st: Stmt, l: Loose, aside: multiset<End>,
                                        doubt: set<Name>, b: Table)
    returns (b2: Table)
    requires Wires(s, l, aside) && Tabled(c, s, b) && Fit(c, s.bound, doubt, l, b) && st.If? && c.gives != NOTHING
    requires Branch(c, s, st, l).0.found == [] && AssuredOne(c, s, st, l, doubt)
    ensures
      var (s1, l1) := Branch(c, s, st, l);
      Tabled(c, s1, b2) && Fit(c, s1.bound, DoubtOne(c, s, st, l, doubt), l1, b2) && Agreeing(aside, b, b2)
    decreases st, 0
  {
    hide Wires, Tabled, Fit, Agreeing, Branched, Guarded, Ways;
    var read, truth := Branched(c, s, st.test, l).value, !st.test.inverted;
    var yes, no := Guarded(l, When(read, truth)), Guarded(l, When(read, !truth));
    var (s1, held) := Block(c, s, st.body, true, yes);
    var was := s1.(bound := s.bound);
    var (s2, other) := Block(c, was, st.orelse, true, no);
    var s3 := Branch(c, s, st, l).0;
    var doubt1, doubt2 := Doubt(c, s, st.body, true, yes, doubt), Doubt(c, was, st.orelse, true, no, doubt);
    BranchRefused(c, s, st, l);
    KeepsGuarding(s, l, aside, read, truth);
    GuardedFit(c, s, st.test, l, truth, doubt, b);
    GuardedFit(c, s, st.test, l, !truth, doubt, b);
    var b1 := BlockTabled(c, s, st.body, true, yes, aside + multiset(no), doubt, b);
    Keeps(c, s, st.body, true, yes, aside + multiset(no));
    KeepsShuffling(s1, held, aside + multiset(no), was, no, aside + multiset(held));
    SameTabled(c, s1, was, b1);
    StillFit(c, s.bound, doubt, no, aside + multiset(no), b, b1, s.bound, doubt);
    b2 := BlockTabled(c, was, st.orelse, true, no, aside + multiset(held), doubt, b1);
    SameTabled(c, s2, s3, b2);
    StillFit(c, s1.bound, doubt1, held, aside + multiset(held), b1, b2, s3.bound, doubt1 + doubt2);
    StillFit(c, s2.bound, doubt2, other, multiset(other), b2, b2, s3.bound, doubt1 + doubt2) by {
      AgreeingItself(multiset(other), b2);
    }
    FitBoth(c, s3.bound, doubt1 + doubt2, held, other, b2);
    AgreeingOn(aside, multiset(no), b, b1, b2) by {
      AgreeingPart(aside, multiset(held), b1, b2);
    }
  }

  lemma {:induction false} BranchRefused(c: Scope, s: Wired, st: Stmt, l: Loose)
    requires st.If? && Branch(c, s, st, l).0.found == []
    ensures Branched(c, s, st.test, l).Granted? && Unbranched(s, l).None?
  {
  }

  lemma {:induction false} AgreeingItself(aside: multiset<End>, b: Table)
    ensures Agreeing(aside, b, b)
  {
  }

  lemma {:induction false} AgreeingPart(aside: multiset<End>, more: multiset<End>, b: Table, b1: Table)
    requires Agreeing(aside + more, b, b1)
    ensures Agreeing(aside, b, b1)
  {
    forall e | e in aside && e.at in b
      ensures e.at in b1 && b1[e.at] == b[e.at]
    {
      assert e in aside + more;
    }
  }

  /** Nothing but the one end leaves the node a loop goes back to. */
  lemma {:induction false} HeadAlone(s: Wired, head: At, aside: multiset<End>)
    requires Wires(s, [End(head, None)], aside)
    ensures forall e :: e in s.edges ==> e.outOf != head
    ensures forall e :: e in aside ==> e.at != head
  {
    hide Covering, Connected, Numbered, Arriving;
    var l := [End(head, None)];
    var others := multiset(Ends(s.edges)) + aside;
    assert Ways(s, l, aside) == others + multiset{End(head, None)};
    OnlyOne(others, End(head, None));
    forall e | e in s.edges
      ensures e.outOf != head
    {
      var i :| 0 <= i < |s.edges| && s.edges[i] == e;
      assert Ends(s.edges)[i] in multiset(Ends(s.edges));
      assert Ends(s.edges)[i] in others;
    }
  }

  lemma {:induction false} OnlyOne(others: multiset<End>, x: End)
    requires Paired(others + multiset{x}) && x.when.None?
    ensures forall e :: e in others ==> e.at != x.at
  {
    var ways := others + multiset{x};
    assert x in ways && ways[x] == others[x] + 1;
    forall e | e in others
      ensures e.at != x.at
    {
      assert e in ways;
    }
  }

  /** What is bound after a loop's head, cut down to what is surely bound at the loop. */
  lemma {:induction false} HeadCut(c: Scope, s: Wired, head: At, aside: multiset<End>, doubt: set<Name>, b: Table)
    requires Wires(s, [End(head, None)], aside) && Tabled(c, s, b) && Fit(c, s.bound, doubt, [End(head, None)], b)
    requires head != Way
    ensures Tabled(c, s, b[head := s.bound - doubt]) && Agreeing(aside, b, b[head := s.bound - doubt])
    ensures Fit(c, s.bound, doubt, [End(head, None)], b[head := s.bound - doubt])
  {
    hide Wires, Again, Takes, Tests, Returns;
    HeadAlone(s, head, aside);
    var l := [End(head, None)];
    var sure := s.bound - doubt;
    assert l[0].at == head && head in b && Extends(sure, b[head]);
    forall i | 0 <= i < |s.nodes|
      ensures Again(c, s.nodes[i].does, b[head := sure][s.nodes[i].at])
    {
      CutAgain(c, s.nodes[i].does, b[head], sure);
    }
    forall e | e in s.edges
      ensures Carries(c, s.nodes, b[head := sure], e)
    {
      assert Carries(c, s.nodes, b, e);
    }
    assert Tests(c, None, sure) by {
      NothingTested(c, sure);
    }
  }

  lemma {:induction false} NothingTested(c: Scope, bound: map<Name, Shape>)
    ensures Tests(c, None, bound)
  {
  }

  lemma {:induction false} CutAgain(c: Scope, d: Deed, more: map<Name, Shape>, less: map<Name, Shape>)
    requires Extends(less, more)
    ensures Again(c, d, more) ==> Again(c, d, less)
  {
    hide Same;
  }

  /** Going back to a loop's head carries what it carried there first. */
  lemma {:induction false} BackCarries(c: Scope, s: Wired, s1: Wired, inside: Loose, head: Node, doubt: set<Name>,
                                       doubt1: set<Name>, b1: Table, i: nat)
    requires Tabled(c, s1, b1) && Fit(c, s1.bound, doubt1, inside, b1) && i < |inside|
    requires NodeAt(s1.nodes, head.at) == Some(head) && head in s1.nodes && HeadKept(s, head.does, doubt)
    requires head.at in b1 && b1[head.at] == s.bound - doubt && Extends(s.bound, s1.bound)
    requires forall x :: x in s.bound && x !in doubt ==> x !in doubt1
    ensures Carries(c, s1.nodes, b1, Edge(inside[i].at, head.at, inside[i].when, None))
  {
    hide Fits;
    var d, was, sure := head.does, b1[inside[i].at], s.bound - doubt;
    assert Extends(sure, s1.bound - doubt1);
    assert Extends(sure, was);
    assert Again(c, d, sure);
    forall k | 0 <= k < |d.takes| && d.takes[k].source.Bound?
      ensures Fits(c, was, Wanted(c, d, k), d.takes[k])
    {
      MoreFits(c, sure, was, Wanted(c, d, k), d.takes[k]);
    }
  }

  lemma {:induction false} LoopTabled(c: Scope, s: Wired, st: Stmt, l: Loose, aside: multiset<End>, doubt: set<Name>,
                                      b: Table)
    returns (b1: Table)
    requires Wires(s, l, aside) && Tabled(c, s, b) && Fit(c, s.bound, doubt, l, b) && st.While? && c.gives != NOTHING
    requires Loop(c, s, st, l).0.found == [] && AssuredOne(c, s, st, l, doubt)
    ensures
      var (s1, l1) := Loop(c, s, st, l);
      Tabled(c, s1, b1) && Fit(c, s1.bound, DoubtOne(c, s, st, l, doubt), l1, b1) && Agreeing(aside, b, b1)
    decreases st, 0
  {
    hide Wires, Tabled, Fit, Agreeing, Branched, Twice, Endless, HeadKept, Extends;
    var read, truth, head := LoopHead(c, s, st, l, aside);
    var opens, past := [End(head.at, Some(When(read, truth)))], [End(head.at, Some(When(read, !truth)))];
    assert Guarded(l, When(read, truth)) == opens && Guarded(l, When(read, !truth)) == past;
    var b0 := b[head.at := s.bound - doubt];
    HeadCut(c, s, head.at, aside, doubt, b);
    GuardedFit(c, s, st.test, l, truth, doubt, b0);
    GuardedFit(c, s, st.test, l, !truth, doubt, b0);
    KeepsGuarding(s, l, aside, read, truth);
    b1 := BlockTabled(c, s, st.body, true, opens, aside + multiset(past), doubt, b0);
    var (s1, inside) := Block(c, s, st.body, true, opens);
    var doubt1 := Doubt(c, s, st.body, true, opens, doubt);
    BoundGrows(c, s, st.body, true, opens);
    forall x | x in s.bound && x !in doubt
      ensures x !in doubt1
    {
      DoubtKeeps(c, s, st.body, true, opens, doubt, x);
    }
    RankStays(s.nodes, s1.nodes, head.at);
    HeadStays(aside, past, b0, b1, head.at);
    forall i | 0 <= i < |inside|
      ensures Carries(c, s1.nodes, b1, Edge(inside[i].at, head.at, inside[i].when, None))
    {
      BackCarries(c, s, s1, inside, head, doubt, doubt1, b1, i);
    }
    JoinsTabled(c, s1, inside, head.at, None, b1);
    var s2 := s1.(edges := s1.edges + Joins(inside, head.at, None));
    SameTabled(c, s2, Loop(c, s, st, l).0, b1);
    PastFit(c, s, s1, st.body, past, doubt, aside, b0, b1);
    AgreeingPart(aside, multiset(past), b0, b1);
    AgreeingTwo(aside, b, b0, b1);
  }

  lemma {:induction false} AgreeingTwo(aside: multiset<End>, b: Table, b1: Table, b2: Table)
    requires Agreeing(aside, b, b1) && Agreeing(aside, b1, b2)
    ensures Agreeing(aside, b, b2)
  {
  }

  lemma {:induction false} HeadStays(aside: multiset<End>, past: Loose, b: Table, b1: Table, head: At)
    requires |past| == 1 && past[0].at == head && head in b && Agreeing(aside + multiset(past), b, b1)
    ensures head in b1 && b1[head] == b[head]
  {
    assert past[0] in multiset(past);
    assert past[0] in aside + multiset(past);
  }

  /** Past a loop: what only its body binds is in doubt. */
  lemma {:induction false} PastFit(c: Scope, s: Wired, s1: Wired, body: seq<Stmt>, past: Loose, doubt: set<Name>,
                                   aside: multiset<End>, b: Table, b1: Table)
    requires Fit(c, s.bound, doubt, past, b) && Agreeing(aside + multiset(past), b, b1)
    requires Extends(s.bound, s1.bound) && s1.bound.Keys <= s.bound.Keys + Assigned(body)
    ensures Fit(c, s1.bound, doubt + (Assigned(body) - s.bound.Keys), past, b1)
  {
    hide Assigned, Tests;
    var more := doubt + (Assigned(body) - s.bound.Keys);
    forall i | 0 <= i < |past|
      ensures past[i].at in b1 && b1[past[i].at] == b[past[i].at]
    {
      assert past[i] in multiset(past);
      assert past[i] in aside + multiset(past);
    }
    assert forall x :: x in s1.bound - more ==> x in s.bound - doubt && s.bound[x] == s1.bound[x];
  }

  /** The one end a loop starts from, and the node it goes back to. */
  lemma {:induction false} LoopHead(c: Scope, s: Wired, st: Stmt, l: Loose, aside: multiset<End>)
    returns (read: Reads, truth: bool, head: Node)
    requires Wires(s, l, aside) && st.While? && Loop(c, s, st, l).0.found == []
    ensures Branched(c, s, st.test, l) == Granted(read) && truth == !st.test.inverted && Unbranched(s, l).None?
    ensures l == [End(head.at, None)] && head.at != Way && NodeAt(s.nodes, head.at) == Some(head)
            && Known(s.nodes, head.at)
    ensures head in s.nodes
    ensures
      var (s1, inside) := Block(c, s, st.body, true, [End(head.at, Some(When(read, truth)))]);
      && s1.found == [] && Loop(c, s, st, l).1 == [End(head.at, Some(When(read, !truth)))]
      && Loop(c, s, st, l).0 == s1.(edges := s1.edges + Joins(inside, head.at, None))
  {
    hide Wires, Block, Twice, Endless;
    read, truth := Branched(c, s, st.test, l).value, !st.test.inverted;
    head := NodeAt(s.nodes, l[0].at).value;
    FoundNode(s.nodes, l[0].at);
    WiresNumbers(s, l, aside);
    assert Unbranched(s, l).None?;
    assert l[0].when.None?;
    assert l == [l[0]];
  }

  /** A compiled body that reads no name in doubt, and whose loops read again only what is still bound, is
  steady: so far the compiler's own findings are enough. */
  lemma {:induction false} AssuredIsSteady(c: Scope, body: seq<Stmt>)
    requires Compiles(c, body) && AssuredBody(c, body) && c.gives != NOTHING
    ensures SteadyBody(c, body)
  {
    hide Wires, Tabled, Fit, Block, Steady, Assured;
    var way := [End(Way, None)];
    var (s1, l) := Block(c, START, body, true, way);
    StartWires(way);
    StartTabled(c);
    var b := BlockTabled(c, START, body, true, way, multiset{}, {}, map[Way := map[]]);
    Keeps(c, START, body, true, way, multiset{});
    if l != [] {
      FallsTabled(c, s1, l, Doubt(c, START, body, true, way, {}), b);
    }
    WalkedSteady(c, body, b);
  }

  lemma {:induction false} WalkedSteady(c: Scope, body: seq<Stmt>, b: Table)
    requires Tabled(c, Walked(c, body), b)
    ensures SteadyBody(c, body)
  {
    hide Carries, Block, Walked;
    TabledIsSteady(c, Compiled(c, body), b);
  }

  lemma {:induction false} FallsTabled(c: Scope, s: Wired, l: Loose, doubt: set<Name>, b: Table)
    requires Tabled(c, s, b) && Fit(c, s.bound, doubt, l, b) && Wires(s, l, multiset{})
    ensures Tabled(c, s.(edges := s.edges + Joins(l, Way, None)), b)
  {
    NotANode(s, l, multiset{});
    JoinsTabled(c, s, l, Way, None, b);
  }

  lemma {:induction false} StartTabled(c: Scope)
    ensures Tabled(c, START, map[Way := map[]]) && Fit(c, START.bound, {}, [End(Way, None)], map[Way := map[]])
  {
  }
}
