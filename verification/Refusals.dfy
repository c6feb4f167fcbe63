/** What the compiler's refusals come to: every node is a call some declaration allows, no loop ends with the
very call it starts with, and whatever is read that no node binds is there and fits. */
module Refusals {
  import opened Prelude
  import opened Atlas
  import opened Body
  import opened WiringSpec
  import opened Structure

  /** Where a node stands among those compiled before and after it. */
  function Rank(nodes: seq<Node>, at: At): nat {
    if nodes == [] || nodes[0].at == at then 0 else 1 + Rank(nodes[1..], at)
  }

  predicate Calls(nodes: seq<Node>, at: At, called: Name) {
    NodeAt(nodes, at).Some? && NodeAt(nodes, at).value.does.calls == called
  }

  /** Whether an edge goes on to a later node, or back to one that calls something else. */
  ghost predicate Advances(nodes: seq<Node>, e: Edge) {
    e.outOf == Way || e.into == Way || Rank(nodes, e.outOf) < Rank(nodes, e.into)
    || forall called :: Calls(nodes, e.into, called) ==> !Calls(nodes, e.outOf, called)
  }

  /** Whether an argument is in its place, as far as can be told without knowing what is bound: what a run is
  started with fits, and no name is handed where an agent goes. */
  predicate Placed(c: Scope, shape: Shape, r: Reads) {
    if r.source.Bound? then shape != ONE_AGENT && shape != THE_AGENTS else Fits(c, map[], shape, r)
  }

  /** Whether a node is a call one declaration allows: of its kind, with as many arguments as it takes, each in
  its place, bound to a name of the body's own, and answering with nothing where a run may step past it. */
  predicate Allowed(c: Scope, n: Node) {
    && n.at.At? && n.at.called in c.decls && c.decls[n.at.called].Some? && n.does.called == n.at.called
    && var d := c.decls[n.at.called].value;
       && n.does.kind == d.kind && n.does.gives == d.gives && n.does.rerun == d.rerun && n.does.under == d.under
       && n.does.calls == (if d.under != "" then d.under else n.at.called)
       && |n.does.takes| == |d.takes| && n.does.binds !in c.names
       && (!d.rerun ==> d.gives == "")
       && forall i :: 0 <= i < |d.takes| ==> Placed(c, d.takes[i].shape, n.does.takes[i])
  }

  /** Whether a read of what a node binds is of something with a shape. */
  predicate Asks(c: Scope, d: Deed, r: Reads) {
    d.binds != "" && r.source == Bound(d.binds) ==> Sized(ShapeOf(c, map[d.binds := d.gives], r))
  }

  /** Whether a guard names something, with a shape where it is no node's to bind, or bound by the node it leaves. */
  predicate Guards(c: Scope, nodes: seq<Node>, at: At, when: Option<When>) {
    when.Some? ==>
      && when.value.asks.source != Bound("")
      && (!when.value.asks.source.Bound? ==> Sized(ShapeOf(c, map[], when.value.asks)))
      && (at != Way && NodeAt(nodes, at).Some? ==> Asks(c, NodeAt(nodes, at).value.does, when.value.asks))
  }

  /** Whether a way out answers where the atlas does, and, with what the run was started with, at its shape. */
  predicate Answering(c: Scope, e: Edge) {
    e.into == Way && c.gives != "" && c.gives != NOTHING ==>
      e.answers.Some?
      && (!e.answers.value.Bound? ==> ShapeOf(c, map[], Reads(e.answers.value, "")) == Some(c.gives))
  }

  predicate Stood(nodes: seq<Node>, at: At) {
    at == Way || Known(nodes, at)
  }

  ghost predicate Sound(c: Scope, nodes: seq<Node>, e: Edge) {
    && Stood(nodes, e.outOf) && Stood(nodes, e.into) && Advances(nodes, e)
    && Guards(c, nodes, e.outOf, e.when) && Answering(c, e)
  }

  ghost predicate Proper(c: Scope, s: Wired) {
    && Numbered(s)
    && (forall i :: 0 <= i < |s.nodes| ==> Allowed(c, s.nodes[i]))
    && (forall e :: e in s.edges ==> Sound(c, s.nodes, e))
  }

  predicate Open(c: Scope, nodes: seq<Node>, l: Loose) {
    forall i :: 0 <= i < |l| ==> Stood(nodes, l[i].at) && Guards(c, nodes, l[i].at, l[i].when)
  }

  /** Whether what the node under each unguarded end binds is still bound as that node answers, and only what has
  a name is bound. */
  predicate Recent(s: Wired, l: Loose) {
    && "" !in s.bound
    && forall i :: 0 <= i < |l| && l[i].when.None? && l[i].at != Way && NodeAt(s.nodes, l[i].at).Some? ==>
      var d := NodeAt(s.nodes, l[i].at).value.does;
      d.binds != "" && d.binds in s.bound ==> s.bound[d.binds] == d.gives
  }

  lemma {:induction false} RankStays(nodes: seq<Node>, more: seq<Node>, at: At)
    requires nodes <= more && Known(nodes, at)
    ensures Rank(more, at) == Rank(nodes, at) < |nodes| && NodeAt(more, at) == NodeAt(nodes, at) && Known(more, at)
  {
    var i :| 0 <= i < |nodes| && nodes[i].at == at;
    assert more[i] == nodes[i];
    if nodes[0].at != at {
      assert nodes[1..][i - 1] == nodes[i];
      RankStays(nodes[1..], more[1..], at);
    }
  }

  lemma {:induction false} RankLast(nodes: seq<Node>, node: Node)
    requires !Known(nodes, node.at)
    ensures Rank(nodes + [node], node.at) == |nodes|
  {
    if nodes != [] {
      assert nodes[0].at != node.at;
      assert (nodes + [node])[1..] == nodes[1..] + [node];
      assert forall i :: 0 <= i < |nodes[1..]| ==> nodes[1..][i] == nodes[i + 1];
      RankLast(nodes[1..], node);
    }
  }

  /** More nodes leave an edge as it was. */
  lemma {:induction false} SoundStill(c: Scope, nodes: seq<Node>, more: seq<Node>, e: Edge)
    requires nodes <= more && Sound(c, nodes, e)
    ensures Sound(c, more, e)
  {
    hide Asks, Answering, Rank;
    if e.outOf != Way {
      RankStays(nodes, more, e.outOf);
    }
    if e.into != Way {
      RankStays(nodes, more, e.into);
    }
    if e.outOf != Way && e.into != Way {
      forall called
        ensures Calls(more, e.into, called) <==> Calls(nodes, e.into, called)
        ensures Calls(more, e.outOf, called) <==> Calls(nodes, e.outOf, called)
      {
      }
    }
  }

  lemma {:induction false} OpenStill(c: Scope, nodes: seq<Node>, more: seq<Node>, l: Loose)
    requires nodes <= more && Open(c, nodes, l)
    ensures Open(c, more, l)
  {
    hide Asks, Rank;
    forall i | 0 <= i < |l|
      ensures Stood(more, l[i].at) && Guards(c, more, l[i].at, l[i].when)
    {
      if l[i].at != Way {
        RankStays(nodes, more, l[i].at);
      }
    }
  }

  /** More nodes and fewer names bound leave what is recent so. */
  lemma {:induction false} RecentStill(c: Scope, s: Wired, s1: Wired, l: Loose)
    requires Open(c, s.nodes, l) && Recent(s, l) && s.nodes <= s1.nodes
    requires forall x :: x in s1.bound ==> x in s.bound && s.bound[x] == s1.bound[x]
    ensures Recent(s1, l)
  {
    hide Guards, Rank;
    forall i | 0 <= i < |l| && l[i].at != Way
      ensures NodeAt(s1.nodes, l[i].at) == NodeAt(s.nodes, l[i].at)
    {
      RankStays(s.nodes, s1.nodes, l[i].at);
    }
  }

  /** Edges from loose ends to one place, each of which advances. */
  lemma {:induction false} JoinsProper(c: Scope, s: Wired, l: Loose, into: At, answers: Option<Source>)
    requires Proper(c, s) && Open(c, s.nodes, l) && Stood(s.nodes, into)
    requires forall i :: 0 <= i < |l| ==>
               var e := Edge(l[i].at, into, l[i].when, answers); Advances(s.nodes, e) && Answering(c, e)
    ensures Proper(c, s.(edges := s.edges + Joins(l, into, answers)))
  {
    hide Guards, Advances, Answering, Allowed;
    var more := Joins(l, into, answers);
    assert forall e :: e in s.edges + more ==> e in s.edges || e in more;
  }

  lemma {:induction false} NodeProper(c: Scope, s: Wired, called: Name, d: Declared, takes: seq<Reads>, binds: Name,
                                      l: Loose)
    requires Proper(c, s) && Open(c, s.nodes, l) && "" !in s.bound && called in c.decls && c.decls[called] == Some(d)
    requires |takes| == |d.takes| && binds !in c.names && Noded(s, called, d, takes, binds, l).0.found == []
    requires forall i :: 0 <= i < |takes| ==> Placed(c, d.takes[i].shape, takes[i])
    ensures Proper(c, Noded(s, called, d, takes, binds, l).0)
    ensures Open(c, Noded(s, called, d, takes, binds, l).0.nodes, Noded(s, called, d, takes, binds, l).1)
    ensures Recent(Noded(s, called, d, takes, binds, l).0, Noded(s, called, d, takes, binds, l).1)
  {
    hide Numbered, Rank, Advances, Guards, Placed, Allowed, Recent, Noded;
    var node := NodeNumbered(s, called, d, takes, binds, l);
    var s1 := Noded(s, called, d, takes, binds, l).0;
    NodeAllowed(c, s, called, d, takes, binds, l, node);
    NodeRecent(s, called, d, takes, binds, l, node);
    NodeSound(c, s, node, s1.(edges := s.edges));
    assert s1.nodes[|s.nodes|] == node && Known(s1.nodes, node.at);
    OpenStill(c, s.nodes, s1.nodes, l);
    forall i | 0 <= i < |l|
      ensures Advances(s1.nodes, Edge(l[i].at, node.at, l[i].when, None))
    {
      OnToNew(s.nodes, node, Edge(l[i].at, node.at, l[i].when, None));
    }
    JoinsProper(c, s1.(edges := s.edges), l, node.at, None);
    NoGuard(c, s1.nodes, node.at);
  }

  lemma {:induction false} NodeSound(c: Scope, s: Wired, node: Node, s1: Wired)
    requires Proper(c, s) && Allowed(c, node) && s1.nodes == s.nodes + [node] && s1.edges == s.edges && Numbered(s1)
    ensures Proper(c, s1)
  {
    hide Numbered, Allowed, Sound;
    forall e | e in s.edges
      ensures Sound(c, s1.nodes, e)
    {
      SoundStill(c, s.nodes, s1.nodes, e);
    }
  }

  lemma {:induction false} NodeAllowed(c: Scope, s: Wired, called: Name, d: Declared, takes: seq<Reads>, binds: Name,
                                       l: Loose, node: Node)
    requires Numbered(s) && called in c.decls && c.decls[called] == Some(d)
    requires |takes| == |d.takes| && binds !in c.names && Noded(s, called, d, takes, binds, l).0.found == []
    requires forall i :: 0 <= i < |takes| ==> Placed(c, d.takes[i].shape, takes[i])
    requires Noded(s, called, d, takes, binds, l).0.nodes == s.nodes + [node]
    ensures Allowed(c, node) && Numbered(Noded(s, called, d, takes, binds, l).0.(edges := s.edges))
  {
    hide Placed, Numbered;
    var node1 := NodeNumbered(s, called, d, takes, binds, l);
    assert node == (s.nodes + [node])[|s.nodes|];
    NumberedAlone(Noded(s, called, d, takes, binds, l).0, Noded(s, called, d, takes, binds, l).0.(edges := s.edges));
  }

  lemma {:induction false} NodeRecent(s: Wired, called: Name, d: Declared, takes: seq<Reads>, binds: Name, l: Loose,
                                      node: Node)
    requires Numbered(s) && Noded(s, called, d, takes, binds, l).0.found == [] && !Known(s.nodes, node.at)
    requires "" !in s.bound
    requires Noded(s, called, d, takes, binds, l).0.nodes == s.nodes + [node]
    requires Noded(s, called, d, takes, binds, l).1 == [End(node.at, None)]
    ensures Recent(Noded(s, called, d, takes, binds, l).0, Noded(s, called, d, takes, binds, l).1)
  {
    hide Numbered;
    LastNode(s.nodes, node);
    assert node == (s.nodes + [node])[|s.nodes|];
  }

  lemma {:induction false} NoGuard(c: Scope, nodes: seq<Node>, at: At)
    ensures Guards(c, nodes, at, None)
  {
  }

  lemma {:induction false} NumberedAlone(s: Wired, s1: Wired)
    requires Numbered(s) && s1.nodes == s.nodes && s1.seen == s.seen
    ensures Numbered(s1)
  {
  }

  lemma {:induction false} LastNode(nodes: seq<Node>, node: Node)
    requires !Known(nodes, node.at)
    ensures NodeAt(nodes + [node], node.at) == Some(node)
  {
    if nodes == [] {
    } else {
      assert nodes[0].at != node.at;
      assert (nodes + [node])[1..] == nodes[1..] + [node];
      assert forall i :: 0 <= i < |nodes[1..]| ==> nodes[1..][i] == nodes[i + 1];
      LastNode(nodes[1..], node);
    }
  }

  lemma {:induction false} OnToNew(nodes: seq<Node>, node: Node, e: Edge)
    requires Stood(nodes, e.outOf) && e.into == node.at && !Known(nodes, node.at)
    ensures Advances(nodes + [node], e)
  {
    RankLast(nodes, node);
    if e.outOf != Way {
      RankStays(nodes, nodes + [node], e.outOf);
    }
  }

  /* ---- Through the whole body ---- */

  lemma {:induction false} BlockProper(c: Scope, s: Wired, stmts: seq<Stmt>, first: bool, l: Loose)
    requires Proper(c, s) && Open(c, s.nodes, l) && Recent(s, l) && Block(c, s, stmts, first, l).0.found == []
    ensures Proper(c, Block(c, s, stmts, first, l).0)
    ensures Open(c, Block(c, s, stmts, first, l).0.nodes, Block(c, s, stmts, first, l).1)
    ensures Recent(Block(c, s, stmts, first, l).0, Block(c, s, stmts, first, l).1)
    decreases stmts, 1
  {
    hide Proper, Open, Recent;
    if stmts != [] {
      if Skipped(stmts[0], first) {
        BlockProper(c, s, stmts[1..], false, l);
      } else {
        var (s1, l1) := One(c, s, stmts[0], l);
        OneProper(c, s, stmts[0], l);
        BlockProper(c, s1, stmts[1..], false, l1);
      }
    }
  }

  lemma {:induction false} OneProper(c: Scope, s: Wired, st: Stmt, l: Loose)
    requires Proper(c, s) && Open(c, s.nodes, l) && Recent(s, l) && One(c, s, st, l).0.found == []
    ensures Proper(c, One(c, s, st, l).0) && Open(c, One(c, s, st, l).0.nodes, One(c, s, st, l).1)
    ensures Recent(One(c, s, st, l).0, One(c, s, st, l).1)
    decreases st, 1
  {
    hide Proper, Open, Called, Branch, Loop;
    match st
    case Call(_, _, _, _) => CallProper(c, s, st, l);
    case If(_, _, _) => BranchProper(c, s, st, l);
    case While(_, _, _) => LoopProper(c, s, st, l);
    case Return(value) => ReturnProper(c, s, value, l);
    case _ =>
  }

  lemma {:induction false} CallProper(c: Scope, s: Wired, st: Stmt, l: Loose)
    requires Proper(c, s) && Open(c, s.nodes, l) && "" !in s.bound && st.Call? && Called(c, s, st, l).0.found == []
    ensures Proper(c, Called(c, s, st, l).0) && Open(c, Called(c, s, st, l).0.nodes, Called(c, s, st, l).1)
    ensures Recent(Called(c, s, st, l).0, Called(c, s, st, l).1)
  {
    hide Proper, Open, Noded, Fits, Placed, Recent;
    var d := c.decls[st.callee.value].value;
    var takes := Arguments(c, s.bound, Quiet(s), st.args, d.takes).value;
    forall i | 0 <= i < |takes|
      ensures Placed(c, d.takes[i].shape, takes[i])
    {
      FitsPlaced(c, s.bound, d.takes[i].shape, takes[i]);
    }
    NodeProper(c, s, st.callee.value, d, takes, Target(st.targets).value, l);
  }

  lemma {:induction false} FitsPlaced(c: Scope, bound: map<Name, Shape>, shape: Shape, r: Reads)
    requires Fits(c, bound, shape, r)
    ensures Placed(c, shape, r)
  {
  }

  lemma {:induction false} ReturnProper(c: Scope, s: Wired, value: Option<Expr>, l: Loose)
    requires Proper(c, s) && Open(c, s.nodes, l) && "" !in s.bound && Returned(c, s, value, l).found == []
    ensures Proper(c, Returned(c, s, value, l)) && Open(c, Returned(c, s, value, l).nodes, [])
    ensures Recent(Returned(c, s, value, l), [])
  {
    hide Numbered, Rank, Guards, Allowed;
    JoinsProper(c, s, l, Way, AnswerOf(c, value).value);
  }

  lemma {:induction false} SameNodes(c: Scope, s: Wired, s1: Wired)
    requires Proper(c, s) && s1.nodes == s.nodes && s1.edges == s.edges && s1.seen == s.seen
    ensures Proper(c, s1)
  {
    hide Rank, Advances, Allowed, Sound;
    NumberedAlone(s, s1);
  }

  lemma {:induction false} OpenBoth(c: Scope, nodes: seq<Node>, a: Loose, b: Loose)
    requires Open(c, nodes, a) && Open(c, nodes, b)
    ensures Open(c, nodes, a + b)
  {
  }

  lemma {:induction false} RecentBoth(s: Wired, a: Loose, b: Loose)
    requires Recent(s, a) && Recent(s, b)
    ensures Recent(s, a + b)
  {
  }

  /** What a branch reads, where it is granted, guards the ends it is granted at. */
  lemma {:induction false} OpenGuarded(c: Scope, s: Wired, test: Test, l: Loose, truth: bool)
    requires Numbered(s) && Open(c, s.nodes, l) && Recent(s, l) && Branched(c, s, test, l).Granted?
    ensures Open(c, s.nodes, Guarded(l, When(Branched(c, s, test, l).value, truth)))
  {
    hide Numbered;
    BranchedEnds(s, l);
    var r := Branched(c, s, test, l).value;
    forall i | 0 <= i < |l|
      ensures Guards(c, s.nodes, l[i].at, Some(When(r, truth)))
    {
      assert Branchable(s.nodes, l[i]);
    }
  }

  /** Guarded ends say nothing of what was bound last. */
  lemma {:induction false} RecentGuarded(s: Wired, l: Loose, when: When)
    requires "" !in s.bound
    ensures Recent(s, Guarded(l, when))
  {
  }

  lemma {:induction false} BranchProper(c: Scope, s: Wired, st: Stmt, l: Loose)
    requires Proper(c, s) && Open(c, s.nodes, l) && Recent(s, l) && st.If? && Branch(c, s, st, l).0.found == []
    ensures Proper(c, Branch(c, s, st, l).0) && Open(c, Branch(c, s, st, l).0.nodes, Branch(c, s, st, l).1)
    ensures Recent(Branch(c, s, st, l).0, Branch(c, s, st, l).1)
    decreases st, 0
  {
    hide Proper, Open, Recent, Branched, Guarded;
    OnlyNamed(s, l);
    var read, truth := Branched(c, s, st.test, l).value, !st.test.inverted;
    var yes, no := Guarded(l, When(read, truth)), Guarded(l, When(read, !truth));
    var (s1, held) := Block(c, s, st.body, true, yes);
    var was := s1.(bound := s.bound);
    var (s2, other) := Block(c, was, st.orelse, true, no);
    ProperNumbers(c, s);
    OpenGuarded(c, s, st.test, l, truth);
    RecentGuarded(s, l, When(read, truth));
    BlockProper(c, s, st.body, true, yes);
    SameNodes(c, s1, was);
    OpenGuarded(c, s, st.test, l, !truth);
    RecentGuarded(was, l, When(read, !truth));
    OpenStill(c, s.nodes, was.nodes, no);
    BlockProper(c, was, st.orelse, true, no);
    var s3 := Branch(c, s, st, l).0;
    OpenStill(c, was.nodes, s2.nodes, held);
    OpenBoth(c, s2.nodes, held, other);
    RecentStill(c, s1, s3, held);
    RecentStill(c, s2, s3, other);
    RecentBoth(s3, held, other);
    SameNodes(c, s2, s3);
  }

  lemma {:induction false} OnlyNamed(s: Wired, l: Loose)
    requires Recent(s, l)
    ensures "" !in s.bound
  {
  }

  lemma {:induction false} ProperNumbers(c: Scope, s: Wired)
    requires Proper(c, s)
    ensures Numbered(s)
  {
  }

  lemma {:induction false} LoopProper(c: Scope, s: Wired, st: Stmt, l: Loose)
    requires Proper(c, s) && Open(c, s.nodes, l) && Recent(s, l) && st.While? && Loop(c, s, st, l).0.found == []
    ensures Proper(c, Loop(c, s, st, l).0) && Open(c, Loop(c, s, st, l).0.nodes, Loop(c, s, st, l).1)
    ensures Recent(Loop(c, s, st, l).0, Loop(c, s, st, l).1)
    decreases st, 0
  {
    hide Proper, Branched, Endless, Guards;
    var read, truth, head := Branched(c, s, st.test, l).value, !st.test.inverted, l[0].at;
    var opens := [End(head, Some(When(read, truth)))];
    assert Guarded(l, When(read, truth)) == opens;
    assert Guarded(l, When(read, !truth)) == Loop(c, s, st, l).1;
    var (s1, inside) := Block(c, s, st.body, true, opens);
    ProperNumbers(c, s);
    OpenGuarded(c, s, st.test, l, truth);
    OpenGuarded(c, s, st.test, l, !truth);
    BlockProper(c, s, st.body, true, opens);
    FoundNode(s.nodes, head);
    RankStays(s.nodes, s1.nodes, head);
    OpenStill(c, s.nodes, s1.nodes, Loop(c, s, st, l).1);
    forall i | 0 <= i < |inside|
      ensures Advances(s1.nodes, Edge(inside[i].at, head, inside[i].when, None))
    {
      assert !EndsWith(s1, NodeAt(s.nodes, head).value.does, inside[i]);
    }
    assert head != Way by {
      HeadIsNode(s, head);
    }
    JoinsProper(c, s1, inside, head, None);
  }

  lemma {:induction false} HeadIsNode(s: Wired, at: At)
    requires Numbered(s) && NodeAt(s.nodes, at).Some?
    ensures at != Way
  {
    FoundNode(s.nodes, at);
  }

  /* ---- What is spoilt ---- */

  /** Nothing is spoilt but by a finding: so the names nothing is known of are quiet from the first one on. */
  lemma {:induction false} NothingSpoilt(c: Scope, s: Wired, stmts: seq<Stmt>, first: bool, l: Loose)
    requires s.spoilt == {} || s.found != []
    ensures
      var s1 := Block(c, s, stmts, first, l).0;
      (s1.spoilt == {} || s1.found != []) && Quiet(s1) == s1.spoilt
    decreases stmts, 1
  {
    if stmts != [] {
      if Skipped(stmts[0], first) {
        NothingSpoilt(c, s, stmts[1..], false, l);
      } else if l != [] {
        var (s1, l1) := One(c, s, stmts[0], l);
        NothingSpoiltBy(c, s, stmts[0], l);
        NothingSpoilt(c, s1, stmts[1..], false, l1);
      }
    }
  }

  lemma {:induction false} NothingSpoiltBy(c: Scope, s: Wired, st: Stmt, l: Loose)
    requires s.spoilt == {} || s.found != []
    ensures One(c, s, st, l).0.spoilt == {} || One(c, s, st, l).0.found != []
    decreases st, 0
  {
    hide Branched, Twice, Endless, Arguments;
    match st
    case If(test, body, orelse) =>
      var read := Branched(c, s, test, l);
      if read.Granted? {
        var yes := Guarded(l, When(read.value, !test.inverted));
        var no := Guarded(l, When(read.value, test.inverted));
        NothingSpoilt(c, s, body, true, yes);
        NothingSpoilt(c, Block(c, s, body, true, yes).0.(bound := s.bound), orelse, true, no);
      }
    case While(test, body, _) =>
      var read := Branched(c, s, test, l);
      if read.Granted? && |l| == 1 {
        NothingSpoilt(c, s, body, true, [End(l[0].at, Some(When(read.value, !test.inverted)))]);
      }
    case _ =>
  }

  /** In every compiled graph each node is a call one declaration allows, and each edge goes on to a later node
  or back to one that calls something else: no loop runs its head twice a round. */
  lemma {:induction false} CompiledIsProper(c: Scope, body: seq<Stmt>)
    requires Compiles(c, body)
    ensures forall i :: 0 <= i < |Compiled(c, body).nodes| ==> Allowed(c, Compiled(c, body).nodes[i])
    ensures forall e :: e in Compiled(c, body).edges ==> Sound(c, Compiled(c, body).nodes, e)
  {
    hide Numbered, Rank, Sound, Allowed;
    var way := [End(Way, None)];
    var (s1, l) := Block(c, START, body, true, way);
    StartProper(c);
    BlockProper(c, START, body, true, way);
    if l != [] {
      FallsProper(c, s1, l);
    }
  }

  lemma {:induction false} FallsProper(c: Scope, s: Wired, l: Loose)
    requires Proper(c, s) && Open(c, s.nodes, l) && c.gives == ""
    ensures Proper(c, s.(edges := s.edges + Joins(l, Way, None)))
  {
    hide Numbered, Rank, Sound, Allowed, Guards;
    JoinsProper(c, s, l, Way, None);
  }

  lemma {:induction false} StartProper(c: Scope)
    ensures Proper(c, START) && Open(c, START.nodes, [End(Way, None)]) && Recent(START, [End(Way, None)])
  {
  }
}
