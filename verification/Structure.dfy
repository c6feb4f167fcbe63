/** What every compiled graph looks like: which ways out each node has, that every node can be
reached, and that the end can be reached from every node.

One invariant, `Wires`, is carried through the whole walk.  It speaks of the ends a statement
is handed, and of the ends kept `aside` for later: the other arm of a branch, the way past a
loop. */
module Structure {
  import opened Prelude
  import opened Atlas
  import opened Body
  import opened WiringSpec

  function Ends(edges: seq<Edge>): (ends: seq<End>)
    ensures |ends| == |edges|
    ensures forall i :: 0 <= i < |edges| ==> ends[i] == End(edges[i].outOf, edges[i].when)
  {
    seq(|edges|, i requires 0 <= i < |edges| => End(edges[i].outOf, edges[i].when))
  }

  function Flip(e: End): End
    requires e.when.Some?
  {
    End(e.at, Some(When(e.when.value.asks, !e.when.value.truth)))
  }

  predicate Opposite(e: End, f: End) {
    e.when.Some? && f == Flip(e)
  }

  /** Every way out there is so far, wired or not. */
  function Ways(s: Wired, l: Loose, aside: multiset<End>): multiset<End> {
    multiset(Ends(s.edges)) + multiset(l) + aside
  }

  predicate Known(nodes: seq<Node>, at: At) {
    exists i :: 0 <= i < |nodes| && nodes[i].at == at
  }

  /** A node's ways out are one with no guard, or two that ask the same with opposite truths. */
  ghost predicate Paired(ways: multiset<End>) {
    && (forall e :: e in ways ==> ways[e] == 1)
    && (forall e :: e in ways && e.when.Some? ==> Flip(e) in ways)
    && (forall e, f :: e in ways && f in ways && e.at == f.at && e != f ==> Opposite(e, f))
  }

  ghost predicate Leaves(ways: multiset<End>, at: At) {
    exists e :: e in ways && e.at == at
  }

  /** Ways leave nodes there are, every node and the entry have one, and the entry and every
  mind have one with no guard. */
  ghost predicate Covering(nodes: seq<Node>, ways: multiset<End>) {
    && (forall e :: e in ways ==> e.at == Way || Known(nodes, e.at))
    && (forall i :: 0 <= i < |nodes| ==> Leaves(ways, nodes[i].at))
    && (forall i :: 0 <= i < |nodes| && nodes[i].does.kind.Mind? ==> End(nodes[i].at, None) in ways)
    && End(Way, None) in ways
  }

  /** Ids are handed out in order, so no two nodes share one. */
  predicate Numbered(s: Wired) {
    && (forall i :: 0 <= i < |s.nodes| ==>
          && s.nodes[i].at.At? && s.nodes[i].at.called in s.seen
          && s.nodes[i].at.nth <= s.seen[s.nodes[i].at.called])
    && (forall i, j :: 0 <= i < j < |s.nodes| ==> s.nodes[i].at != s.nodes[j].at)
  }

  predicate Arriving(s: Wired) {
    forall i :: 0 <= i < |s.edges| ==> s.edges[i].into == Way || Known(s.nodes, s.edges[i].into)
  }

  predicate Step(edges: seq<Edge>, a: At, b: At) {
    exists i :: 0 <= i < |edges| && edges[i].outOf == a && edges[i].into == b
  }

  /** A path of edges which passes through nothing but nodes on the way. */
  predicate Path(edges: seq<Edge>, p: seq<At>) {
    && p != []
    && (forall i :: 0 <= i < |p| - 1 ==> Step(edges, p[i], p[i + 1]))
    && (forall i :: 0 < i < |p| - 1 ==> p[i] != Way)
  }

  ghost predicate Reaches(edges: seq<Edge>, a: At, b: At) {
    exists p :: Path(edges, p) && p[0] == a && p[|p| - 1] == b
  }

  /** Whether a node leads out: to the end, or to an end still open. */
  ghost predicate Leads(edges: seq<Edge>, open: multiset<End>, at: At) {
    exists t :: (t == Way || Leaves(open, t)) && Reaches(edges, at, t)
  }

  ghost predicate Connected(s: Wired, open: multiset<End>) {
    && (forall i :: 0 <= i < |s.nodes| ==> Reaches(s.edges, Way, s.nodes[i].at))
    && (forall i :: 0 <= i < |s.nodes| ==> Leads(s.edges, open, s.nodes[i].at))
  }

  ghost predicate Wires(s: Wired, l: Loose, aside: multiset<End>) {
    && Numbered(s)
    && Arriving(s)
    && Paired(Ways(s, l, aside))
    && Covering(s.nodes, Ways(s, l, aside))
    && Connected(s, multiset(l) + aside)
  }

  /* ---- What each kind of step does to it ---- */

  lemma {:induction false} EndsOfJoined(edges: seq<Edge>, l: Loose, into: At, answers: Option<Source>)
    ensures Ends(edges + Joins(l, into, answers)) == Ends(edges) + l
  {
  }

  lemma {:induction false} Extends(edges: seq<Edge>, more: seq<Edge>, a: At, b: At)
    requires Reaches(edges, a, b)
    ensures Reaches(edges + more, a, b)
  {
    var p :| Path(edges, p) && p[0] == a && p[|p| - 1] == b;
    forall i | 0 <= i < |p| - 1
      ensures Step(edges + more, p[i], p[i + 1])
    {
      assert Step(edges, p[i], p[i + 1]);
      var k :| 0 <= k < |edges| && edges[k].outOf == p[i] && edges[k].into == p[i + 1];
      assert (edges + more)[k] == edges[k];
    }
    assert Path(edges + more, p);
  }

  lemma {:induction false} OneFurther(edges: seq<Edge>, a: At, b: At, x: At)
    requires Reaches(edges, a, b) && Step(edges, b, x)
    requires b != Way || a == b
    ensures Reaches(edges, a, x)
  {
    var p :| Path(edges, p) && p[0] == a && p[|p| - 1] == b;
    if b != Way {
      var q := p + [x];
      assert forall i :: 0 <= i < |q| - 1 ==> Step(edges, q[i], q[i + 1]);
      assert Path(edges, q) && q[0] == a && q[|q| - 1] == x;
    } else {
      var q := [a, x];
      assert Path(edges, q) && q[0] == a && q[|q| - 1] == x;
    }
  }

  lemma {:induction false} Stays(edges: seq<Edge>, at: At)
    ensures Reaches(edges, at, at)
  {
    assert Path(edges, [at]) && [at][0] == at;
  }

  lemma {:induction false} LeadsItself(edges: seq<Edge>, open: multiset<End>, at: At)
    requires Leaves(open, at)
    ensures Leads(edges, open, at)
  {
    Stays(edges, at);
  }

  lemma {:induction false} Joined(edges: seq<Edge>, l: Loose, into: At, answers: Option<Source>, e: End)
    requires e in l
    ensures Step(edges + Joins(l, into, answers), e.at, into)
  {
    var i :| 0 <= i < |l| && l[i] == e;
    assert (edges + Joins(l, into, answers))[|edges| + i].outOf == e.at;
  }

  /** Wiring the open ends to one place keeps every node leading out, when that place does. */
  lemma {:induction false} LeadsOn(edges: seq<Edge>, l: Loose, aside: multiset<End>, into: At, answers: Option<Source>,
                open: multiset<End>, at: At)
    requires Leads(edges, multiset(l) + aside, at)
    requires into == Way || Leaves(open, into)
    requires forall e :: e in aside ==> e in open
    ensures Leads(edges + Joins(l, into, answers), open, at)
  {
    var more := Joins(l, into, answers);
    var t :| (t == Way || Leaves(multiset(l) + aside, t)) && Reaches(edges, at, t);
    Extends(edges, more, at, t);
    if t != Way && !Leaves(aside, t) {
      var e :| e in multiset(l) + aside && e.at == t;
      assert e in l;
      Joined(edges, l, into, answers, e);
      OneFurther(edges + more, at, t, into);
    } else if t != Way {
      var e :| e in aside && e.at == t;
      assert e in open;
    }
  }

  /** Every open end wired to the end, or back to a node which still has a way out. */
  lemma {:induction false} KeepsClosing(s: Wired, l: Loose, aside: multiset<End>, into: At, answers: Option<Source>)
    requires Wires(s, l, aside)
    requires into == Way || Leaves(aside, into)
    ensures Wires(s.(edges := s.edges + Joins(l, into, answers)), [], aside)
  {
    hide Paired, Covering, Connected, Arriving;
    var s1 := s.(edges := s.edges + Joins(l, into, answers));
    EndsOfJoined(s.edges, l, into, answers);
    assert Ways(s1, [], aside) == Ways(s, l, aside);
    ClosingArrives(s, l, aside, into, answers);
    ClosingConnects(s, l, aside, into, answers);
  }

  lemma {:induction false} ClosingArrives(s: Wired, l: Loose, aside: multiset<End>, into: At, answers: Option<Source>)
    requires Wires(s, l, aside)
    requires into == Way || Leaves(aside, into)
    ensures Arriving(s.(edges := s.edges + Joins(l, into, answers)))
  {
    hide Paired, Connected, Numbered;
    var s1 := s.(edges := s.edges + Joins(l, into, answers));
    if into != Way {
      var e :| e in aside && e.at == into;
      assert e in Ways(s, l, aside);
    }
    forall i | 0 <= i < |s1.edges|
      ensures s1.edges[i].into == Way || Known(s1.nodes, s1.edges[i].into)
    {
      if i < |s.edges| {
        assert s1.edges[i] == s.edges[i];
      }
    }
  }

  lemma {:induction false} ClosingConnects(s: Wired, l: Loose, aside: multiset<End>, into: At, answers: Option<Source>)
    requires Wires(s, l, aside)
    requires into == Way || Leaves(aside, into)
    ensures Connected(s.(edges := s.edges + Joins(l, into, answers)), multiset([]) + aside)
  {
    hide Paired, Covering, Numbered, Arriving, Reaches, Leads;
    var s1 := s.(edges := s.edges + Joins(l, into, answers));
    var none: Loose := [];
    assert multiset(none) + aside == aside;
    forall i | 0 <= i < |s.nodes|
      ensures Reaches(s1.edges, Way, s.nodes[i].at) && Leads(s1.edges, aside, s.nodes[i].at)
    {
      Extends(s.edges, Joins(l, into, answers), Way, s.nodes[i].at);
      LeadsOn(s.edges, l, aside, into, answers, aside, s.nodes[i].at);
    }
  }

  /** One more node, every open end wired to it. */
  lemma {:induction false} KeepsNode(s: Wired, called: Name, d: Declared, takes: seq<Reads>, binds: Name, l: Loose,
                  aside: multiset<End>)
    requires Wires(s, l, aside) && l != []
    ensures Wires(Noded(s, called, d, takes, binds, l).0, Noded(s, called, d, takes, binds, l).1, aside)
  {
    hide Paired, Covering, Connected, Numbered, Arriving, Noded;
    var (s1, l1) := Noded(s, called, d, takes, binds, l);
    var node := NodeNumbered(s, called, d, takes, binds, l);
    var at := node.at;
    var was, now := Ways(s, l, aside), Ways(s1, l1, aside);
    assert now == was + multiset{End(at, None)} by {
      EndsOfJoined(s.edges, l, at, None);
    }
    NodePairs(s.nodes, at, was, now);
    NodeCovers(s.nodes, node, was, now);
    NodeArrives(s, node, l, s1);
    NodeConnects(s, node, l, aside, s1, l1);
  }

  lemma {:induction false} NodeNumbered(s: Wired, called: Name, d: Declared, takes: seq<Reads>, binds: Name, l: Loose)
    returns (node: Node)
    requires Numbered(s)
    ensures Numbered(Noded(s, called, d, takes, binds, l).0)
    ensures node.at != Way && !Known(s.nodes, node.at)
    ensures
      var (s1, l1) := Noded(s, called, d, takes, binds, l);
      s1.nodes == s.nodes + [node] && s1.edges == s.edges + Joins(l, node.at, None) && l1 == [End(node.at, None)]
  {
    hide Joins;
    var (s1, l1) := Noded(s, called, d, takes, binds, l);
    node := s1.nodes[|s.nodes|];
    assert s1.nodes == s.nodes + [node];
  }

  lemma {:induction false} NodePairs(nodes: seq<Node>, at: At, was: multiset<End>, now: multiset<End>)
    requires Paired(was) && Covering(nodes, was) && at != Way && !Known(nodes, at)
    requires now == was + multiset{End(at, None)}
    ensures Paired(now)
  {
    assert forall e :: now[e] == was[e] + if e == End(at, None) then 1 else 0;
    assert forall e :: e in was ==> e.at != at;
  }

  lemma {:induction false} NodeArrives(s: Wired, node: Node, l: Loose, s1: Wired)
    requires Arriving(s)
    requires s1.nodes == s.nodes + [node] && s1.edges == s.edges + Joins(l, node.at, None)
    ensures Arriving(s1)
  {
    forall i | 0 <= i < |s1.edges|
      ensures s1.edges[i].into == Way || Known(s1.nodes, s1.edges[i].into)
    {
      assert s1.nodes[|s.nodes|].at == node.at;
      if i < |s.edges| && s.edges[i].into != Way {
        var k :| 0 <= k < |s.nodes| && s.nodes[k].at == s.edges[i].into;
        assert s1.nodes[k] == s.nodes[k];
      }
    }
  }

  lemma {:induction false} NodeConnects(s: Wired, node: Node, l: Loose, aside: multiset<End>, s1: Wired, l1: Loose)
    requires Wires(s, l, aside) && l != []
    requires s1.nodes == s.nodes + [node] && s1.edges == s.edges + Joins(l, node.at, None)
    requires l1 == [End(node.at, None)]
    ensures Connected(s1, multiset(l1) + aside)
  {
    var at, open := node.at, multiset(l1) + aside;
    assert l1[0] in open && Leaves(open, at);
    forall i | 0 <= i < |s1.nodes|
      ensures Reaches(s1.edges, Way, s1.nodes[i].at) && Leads(s1.edges, open, s1.nodes[i].at)
    {
      hide Reaches, Leads, Paired, Covering, Numbered, Arriving;
      if i < |s.nodes| {
        Extends(s.edges, Joins(l, at, None), Way, s.nodes[i].at);
        LeadsOn(s.edges, l, aside, at, None, open, s.nodes[i].at);
      } else {
        NodeReached(s, l, aside, at);
        LeadsItself(s1.edges, open, at);
      }
    }
  }

  lemma {:induction false} NodeReached(s: Wired, l: Loose, aside: multiset<End>, at: At)
    requires Wires(s, l, aside) && l != []
    ensures Reaches(s.edges + Joins(l, at, None), Way, at)
  {
    var edges := s.edges + Joins(l, at, None);
    Joined(s.edges, l, at, None, l[0]);
    assert l[0] in Ways(s, l, aside);
    if l[0].at == Way {
      Stays(edges, Way);
    } else {
      var i :| 0 <= i < |s.nodes| && s.nodes[i].at == l[0].at;
      Extends(s.edges, Joins(l, at, None), Way, l[0].at);
    }
    OneFurther(edges, Way, l[0].at, at);
  }

  lemma {:induction false} NodeCovers(nodes: seq<Node>, node: Node, was: multiset<End>, now: multiset<End>)
    requires Covering(nodes, was)
    requires now == was + multiset{End(node.at, None)}
    ensures Covering(nodes + [node], now)
  {
    var more := nodes + [node];
    assert more[|nodes|] == node;
    assert forall e :: e in now <==> e in was || e == End(node.at, None);
    forall e | e in now && e.at != Way
      ensures Known(more, e.at)
    {
      if e in was {
        var i :| 0 <= i < |nodes| && nodes[i].at == e.at;
        assert more[i] == nodes[i];
      }
    }
    forall i | 0 <= i < |more|
      ensures Leaves(now, more[i].at)
    {
      if i < |nodes| {
        var e :| e in was && e.at == nodes[i].at;
        assert e in now;
      } else {
        assert End(node.at, None) in now;
      }
    }
  }

  /** Whether a branch may hang off an end: it is a node's only way out so far, and the node is
  no mind. */
  predicate Branchable(nodes: seq<Node>, e: End) {
    && e.when.None? && e.at != Way
    && forall j :: 0 <= j < |nodes| && nodes[j].at == e.at ==> !nodes[j].does.kind.Mind?
  }

  /** A branch: every open end becomes two, asking the same with opposite truths. */
  lemma {:induction false} KeepsSplitting(nodes: seq<Node>, base: multiset<End>, l: Loose, asks: Reads, truth: bool)
    requires Paired(base + multiset(l)) && Covering(nodes, base + multiset(l))
    requires forall e :: e in l ==> Branchable(nodes, e)
    ensures Paired(base + multiset(Guarded(l, When(asks, truth))) + multiset(Guarded(l, When(asks, !truth))))
    ensures Covering(nodes, base + multiset(Guarded(l, When(asks, truth))) + multiset(Guarded(l, When(asks, !truth))))
    decreases |l|
  {
    hide Paired, Covering, Branchable;
    var when, other := When(asks, truth), When(asks, !truth);
    if l == [] {
      assert base + multiset(l) == base;
      assert base + multiset(Guarded(l, when)) + multiset(Guarded(l, other)) == base;
    } else {
      var x, rest := l[0], l[1..];
      assert l == [x] + rest;
      SplitShuffle(base, x, rest, when, other);
      var yes, no := End(x.at, Some(when)), End(x.at, Some(other));
      SplitOne(nodes, base + multiset(rest), x, asks, truth);
      KeepsSplitting(nodes, base + multiset{yes, no}, rest, asks, truth);
    }
  }

  lemma {:induction false} SplitShuffle(base: multiset<End>, x: End, rest: Loose, when: When, other: When)
    ensures base + multiset([x] + rest) == base + multiset(rest) + multiset{x}
    ensures
      var split := multiset{End(x.at, Some(when)), End(x.at, Some(other))};
      && base + multiset(rest) + split == base + split + multiset(rest)
      && base + split + multiset(Guarded(rest, when)) + multiset(Guarded(rest, other))
         == base + multiset(Guarded([x] + rest, when)) + multiset(Guarded([x] + rest, other))
  {
    hide Guarded;
    var yes, no := End(x.at, Some(when)), End(x.at, Some(other));
    Prepended(x, rest);
    Prepended(yes, Guarded(rest, when));
    Prepended(no, Guarded(rest, other));
    assert Guarded([x] + rest, when) == [yes] + Guarded(rest, when);
    assert Guarded([x] + rest, other) == [no] + Guarded(rest, other);
    Regroup(base, multiset{yes}, multiset{no}, multiset(Guarded(rest, when)), multiset(Guarded(rest, other)));
    Swapped(base, multiset(rest), multiset{yes}, multiset{no});
  }

  lemma {:induction false} Swapped(base: multiset<End>, rest: multiset<End>, a: multiset<End>, b: multiset<End>)
    ensures base + rest + (a + b) == base + (a + b) + rest
  {
  }

  lemma {:induction false} Prepended(x: End, rest: Loose)
    ensures multiset([x] + rest) == multiset{x} + multiset(rest)
  {
  }

  lemma {:induction false} Regroup(base: multiset<End>, a: multiset<End>, b: multiset<End>, p: multiset<End>,
                                   q: multiset<End>)
    ensures base + (a + b) + p + q == base + (a + p) + (b + q)
  {
  }

  lemma {:induction false} SplitOne(nodes: seq<Node>, base: multiset<End>, x: End, asks: Reads, truth: bool)
    requires Paired(base + multiset{x}) && Covering(nodes, base + multiset{x})
    requires Branchable(nodes, x)
    ensures Paired(base + multiset{End(x.at, Some(When(asks, truth))), End(x.at, Some(When(asks, !truth)))})
    ensures Covering(nodes, base + multiset{End(x.at, Some(When(asks, truth))), End(x.at, Some(When(asks, !truth)))})
  {
    var yes, no := End(x.at, Some(When(asks, truth))), End(x.at, Some(When(asks, !truth)));
    var was, now := base + multiset{x}, base + multiset{yes, no};
    assert forall e :: was[e] == base[e] + if e == x then 1 else 0;
    assert forall e :: now[e] == base[e] + if e == yes || e == no then 1 else 0;
    SplitPairs(base, was, now, x, yes, no);
    SplitCovers(nodes, base, was, now, x, yes, no);
  }

  lemma {:induction false} SplitPairs(base: multiset<End>, was: multiset<End>, now: multiset<End>, x: End, yes: End,
                                      no: End)
    requires forall e :: was[e] == base[e] + if e == x then 1 else 0
    requires forall e :: now[e] == base[e] + if e == yes || e == no then 1 else 0
    requires Paired(was) && x.when.None? && yes.at == x.at && yes.when.Some? && no == Flip(yes)
    ensures Paired(now)
  {
    assert x in was;
    forall e | e in base
      ensures e.at != x.at && base[e] == 1
    {
      assert e in was;
    }
    forall e, f | e in now && f in now && e.at == f.at && e != f
      ensures Opposite(e, f)
    {
      if e in base && f in base {
        assert e in was && f in was;
      }
    }
    forall e | e in now && e.when.Some?
      ensures Flip(e) in now
    {
      if e in base {
        assert e in was;
        assert Flip(e) in was && Flip(e) != x;
      }
    }
  }

  lemma {:induction false} SplitCovers(nodes: seq<Node>, base: multiset<End>, was: multiset<End>, now: multiset<End>,
                                       x: End, yes: End, no: End)
    requires forall e :: was[e] == base[e] + if e == x then 1 else 0
    requires forall e :: now[e] == base[e] + if e == yes || e == no then 1 else 0
    requires Covering(nodes, was) && Branchable(nodes, x) && yes.at == no.at == x.at
    ensures Covering(nodes, now)
  {
    assert x in was;
    forall e | e in now
      ensures e.at == Way || Known(nodes, e.at)
    {
      assert e in base ==> e in was;
    }
    forall i | 0 <= i < |nodes|
      ensures Leaves(now, nodes[i].at)
    {
      var e :| e in was && e.at == nodes[i].at;
      if e == x {
        assert yes in now;
      } else {
        assert e in now;
      }
    }
  }

  /** What a granted branch says of the ends it guards. */
  lemma {:induction false} BranchedEnds(s: Wired, l: Loose)
    requires Numbered(s) && Unbranched(s, l).None?
    ensures forall e :: e in l ==> Branchable(s.nodes, e)
  {
    if l != [] {
      BranchedEnds(s, l[1..]);
      FoundNode(s.nodes, l[0].at);
      assert forall e :: e in l ==> e == l[0] || e in l[1..];
    }
  }

  lemma {:induction false} FoundNode(nodes: seq<Node>, at: At)
    ensures NodeAt(nodes, at).Some? <==> Known(nodes, at)
    ensures NodeAt(nodes, at).Some? ==> NodeAt(nodes, at).value in nodes && NodeAt(nodes, at).value.at == at
  {
    if nodes != [] {
      FoundNode(nodes[1..], at);
      if nodes[0].at == at {
        assert Known(nodes, at);
      } else if Known(nodes, at) {
        var i :| 0 <= i < |nodes| && nodes[i].at == at;
        assert nodes[1..][i - 1].at == at;
      }
    }
  }

  /** Guarding the open ends, one arm's in hand and the other's aside. */
  lemma {:induction false} KeepsGuarding(s: Wired, l: Loose, aside: multiset<End>, asks: Reads, truth: bool)
    requires Wires(s, l, aside)
    requires Unbranched(s, l).None?
    ensures Wires(s, Guarded(l, When(asks, truth)), aside + multiset(Guarded(l, When(asks, !truth))))
  {
    hide Paired, Covering, Connected, Numbered, Arriving, Ways, Unbranched;
    GuardingWays(s, l, aside, asks, truth);
    GuardingLeads(s, l, aside, asks, truth);
  }

  lemma {:induction false} GuardingWays(s: Wired, l: Loose, aside: multiset<End>, asks: Reads, truth: bool)
    requires Numbered(s) && Paired(Ways(s, l, aside)) && Covering(s.nodes, Ways(s, l, aside))
    requires Unbranched(s, l).None?
    ensures
      var yes, no := Guarded(l, When(asks, truth)), Guarded(l, When(asks, !truth));
      Paired(Ways(s, yes, aside + multiset(no))) && Covering(s.nodes, Ways(s, yes, aside + multiset(no)))
  {
    hide Paired, Covering, Numbered, Unbranched;
    var yes, no := Guarded(l, When(asks, truth)), Guarded(l, When(asks, !truth));
    BranchedEnds(s, l);
    var base := multiset(Ends(s.edges)) + aside;
    assert Ways(s, l, aside) == base + multiset(l);
    KeepsSplitting(s.nodes, base, l, asks, truth);
    assert Ways(s, yes, aside + multiset(no)) == base + multiset(yes) + multiset(no);
  }

  lemma {:induction false} GuardingLeads(s: Wired, l: Loose, aside: multiset<End>, asks: Reads, truth: bool)
    requires Connected(s, multiset(l) + aside)
    ensures Connected(s, multiset(Guarded(l, When(asks, truth))) + (aside + multiset(Guarded(l, When(asks, !truth)))))
  {
    hide Leads, Reaches, Guarded;
    var others := multiset(Guarded(l, When(asks, !truth)));
    var open := multiset(Guarded(l, When(asks, truth))) + (aside + others);
    GuardedLeaves(l, aside, When(asks, truth), others);
    forall i | 0 <= i < |s.nodes|
      ensures Leads(s.edges, open, s.nodes[i].at)
    {
      StillOpen(s.edges, multiset(l) + aside, open, s.nodes[i].at);
    }
  }

  lemma {:induction false} GuardedLeaves(l: Loose, aside: multiset<End>, when: When, others: multiset<End>)
    ensures forall t :: Leaves(multiset(l) + aside, t) ==> Leaves(multiset(Guarded(l, when)) + (aside + others), t)
  {
    var g := Guarded(l, when);
    forall t | Leaves(multiset(l) + aside, t)
      ensures Leaves(multiset(g) + (aside + others), t)
    {
      var e :| e in multiset(l) + aside && e.at == t;
      if e in l {
        var k :| 0 <= k < |l| && l[k] == e;
        assert g[k] in multiset(g) && g[k].at == t;
        assert g[k] in multiset(g) + (aside + others);
      } else {
        assert e in multiset(g) + (aside + others);
      }
    }
  }

  lemma {:induction false} StillOpen(edges: seq<Edge>, was: multiset<End>, open: multiset<End>, at: At)
    requires Leads(edges, was, at)
    requires forall t :: Leaves(was, t) ==> Leaves(open, t)
    ensures Leads(edges, open, at)
  {
  }

  /** The same ends, in hand or aside, make the same invariant. */
  lemma {:induction false} KeepsShuffling(s: Wired, l: Loose, aside: multiset<End>, s1: Wired, l1: Loose,
                                        aside1: multiset<End>)
    requires Wires(s, l, aside)
    requires s1.nodes == s.nodes && s1.edges == s.edges && s1.seen == s.seen
    requires multiset(l) + aside == multiset(l1) + aside1
    ensures Wires(s1, l1, aside1)
  {
    assert Ways(s1, l1, aside1) == multiset(Ends(s.edges)) + (multiset(l1) + aside1);
    assert Ways(s, l, aside) == multiset(Ends(s.edges)) + (multiset(l) + aside);
  }

  /* ---- The whole walk ---- */

  lemma {:induction false} Keeps(c: Scope, s: Wired, stmts: seq<Stmt>, first: bool, l: Loose, aside: multiset<End>)
    requires Wires(s, l, aside)
    requires Block(c, s, stmts, first, l).0.found == []
    ensures Wires(Block(c, s, stmts, first, l).0, Block(c, s, stmts, first, l).1, aside)
    decreases stmts, 1
  {
    if stmts != [] {
      if Skipped(stmts[0], first) {
        Keeps(c, s, stmts[1..], false, l, aside);
      } else {
        var (s1, l1) := One(c, s, stmts[0], l);
        KeepsOne(c, s, stmts[0], l, aside);
        Keeps(c, s1, stmts[1..], false, l1, aside);
      }
    }
  }

  lemma {:induction false} KeepsOne(c: Scope, s: Wired, st: Stmt, l: Loose, aside: multiset<End>)
    requires Wires(s, l, aside) && l != []
    requires One(c, s, st, l).0.found == []
    ensures Wires(One(c, s, st, l).0, One(c, s, st, l).1, aside)
    decreases st, 0
  {
    hide Wires, Noded;
    match st
    case Call(targets, callee, _, args) =>
      var d := c.decls[callee.value].value;
      var takes := Arguments(c, s.bound, Quiet(s), args, d.takes).value;
      KeepsNode(s, callee.value, d, takes, Target(targets).value, l, aside);
    case If(_, _, _) => KeepsBranch(c, s, st, l, aside);
    case While(_, _, _) => KeepsLoop(c, s, st, l, aside);
    case Return(value) => KeepsClosing(s, l, aside, Way, AnswerOf(c, value).value);
    case _ =>
  }

  lemma {:induction false} KeepsBranch(c: Scope, s: Wired, st: Stmt, l: Loose, aside: multiset<End>)
    requires Wires(s, l, aside) && st.If?
    requires Branch(c, s, st, l).0.found == []
    ensures Wires(Branch(c, s, st, l).0, Branch(c, s, st, l).1, aside)
    decreases st, 0, 0
  {
    hide Wires, Unbranched, Both, Ways;
    var read, truth := Branched(c, s, st.test, l).value, !st.test.inverted;
    var yes, no := Guarded(l, When(read, truth)), Guarded(l, When(read, !truth));
    KeepsGuarding(s, l, aside, read, truth);
    Keeps(c, s, st.body, true, yes, aside + multiset(no));
    var (s1, held) := Block(c, s, st.body, true, yes);
    var was := s1.(bound := s.bound);
    KeepsShuffling(s1, held, aside + multiset(no), was, no, aside + multiset(held));
    Keeps(c, was, st.orelse, true, no, aside + multiset(held));
    var (s2, other) := Block(c, was, st.orelse, true, no);
    KeepsShuffling(s2, other, aside + multiset(held), s2.(bound := Both(s1.bound, s2.bound)), held + other, aside);
  }

  lemma {:induction false} KeepsLoop(c: Scope, s: Wired, st: Stmt, l: Loose, aside: multiset<End>)
    requires Wires(s, l, aside) && st.While?
    requires Loop(c, s, st, l).0.found == []
    ensures Wires(Loop(c, s, st, l).0, Loop(c, s, st, l).1, aside)
    decreases st, 0, 0
  {
    var read, truth, head := LoopIs(c, s, st, l);
    hide *;
    var opens, past := Guarded(l, When(read, truth)), Guarded(l, When(read, !truth));
    KeepsGuarding(s, l, aside, read, truth);
    Keeps(c, s, st.body, true, opens, aside + multiset(past));
    var (s1, inside) := Block(c, s, st.body, true, opens);
    PastLeaves(aside, past, head);
    KeepsClosing(s1, inside, aside + multiset(past), head, None);
    var s2 := s1.(edges := s1.edges + Joins(inside, head, None));
    var none: Loose := [];
    NoneAside(none, past, aside);
    KeepsShuffling(s2, none, aside + multiset(past), Loop(c, s, st, l).0, past, aside);
  }

  lemma {:induction false} NoneAside(none: Loose, past: Loose, aside: multiset<End>)
    requires none == []
    ensures multiset(none) + (aside + multiset(past)) == multiset(past) + aside
  {
  }

  lemma {:induction false} PastLeaves(aside: multiset<End>, past: Loose, head: At)
    requires |past| == 1 && past[0].at == head
    ensures Leaves(aside + multiset(past), head)
  {
    assert past[0] in multiset(past);
    assert past[0] in aside + multiset(past);
  }

  /** What a loop that compiles is made of. */
  lemma {:induction false} LoopIs(c: Scope, s: Wired, st: Stmt, l: Loose) returns (read: Reads, truth: bool, head: At)
    requires st.While? && Loop(c, s, st, l).0.found == []
    ensures Branched(c, s, st.test, l) == Granted(read) && Unbranched(s, l).None? && truth == !st.test.inverted
    ensures |l| == 1 && l[0].at == head
    ensures
      var opens, past := Guarded(l, When(read, truth)), Guarded(l, When(read, !truth));
      var (s1, inside) := Block(c, s, st.body, true, opens);
      var (s2, l2) := Loop(c, s, st, l);
      && s1.found == [] && l2 == past && |past| == 1 && past[0].at == head
      && s2.nodes == s1.nodes && s2.seen == s1.seen && s2.edges == s1.edges + Joins(inside, head, None)
  {
    hide Block, Twice, Endless, Joins, Unbranched;
    read, truth, head := Branched(c, s, st.test, l).value, !st.test.inverted, l[0].at;
    assert Guarded(l, When(read, truth)) == [End(head, Some(When(read, truth)))];
    assert Guarded(l, When(read, !truth)) == [End(head, Some(When(read, !truth)))];
  }

  /* ---- What it comes to ---- */

  /** A node's ways out, as a walk tries them. */
  predicate OneWay(g: Graph, at: At) {
    var out := OutOf(g.edges, at);
    |out| == 1 && out[0].when.None?
  }

  predicate TwoWays(g: Graph, at: At) {
    var out := OutOf(g.edges, at);
    && |out| == 2 && out[0].when.Some? && out[1].when.Some?
    && out[0].when.value.asks == out[1].when.value.asks
    && out[0].when.value.truth != out[1].when.value.truth
  }

  lemma {:induction false} WalkedWires(c: Scope, body: seq<Stmt>)
    requires Compiles(c, body)
    ensures Wires(Walked(c, body), [], multiset{})
  {
    var open := [End(Way, None)];
    StartWires(open);
    WalkedIs(c, body);
    hide *;
    var (s1, l) := Block(c, START, body, true, open);
    Keeps(c, START, body, true, open, multiset{});
    KeepsClosing(s1, l, multiset{}, Way, None);
    KeepsShuffling(s1.(edges := s1.edges + Joins(l, Way, None)), [], multiset{}, Walked(c, body), [], multiset{});
  }

  /** A compiled body's walk, and the end of whatever it left open. */
  lemma {:induction false} WalkedIs(c: Scope, body: seq<Stmt>)
    requires Compiles(c, body)
    ensures
      var (s1, l) := Block(c, START, body, true, [End(Way, None)]);
      var s := Walked(c, body);
      s1.found == [] && s.nodes == s1.nodes && s.seen == s1.seen && s.edges == s1.edges + Joins(l, Way, None)
  {
    hide Block, Joins;
  }

  lemma {:induction false} StartWires(open: Loose)
    requires open == [End(Way, None)]
    ensures Wires(START, open, multiset{})
  {
    assert Ways(START, open, multiset{}) == multiset{End(Way, None)};
  }

  /** Looking up the ways out of one node finds each of them as often as it is there. */
  lemma {:induction false} LeavingCounts(edges: seq<Edge>, at: At, guarded: bool, e: End)
    ensures multiset(Ends(Leaving(edges, at, guarded)))[e]
         == if e.at == at && e.when.Some? == guarded then multiset(Ends(edges))[e] else 0
  {
    if edges != [] {
      LeavingCounts(edges[1..], at, guarded, e);
      var more := if edges[0].outOf == at && edges[0].when.Some? == guarded then [edges[0]] else [];
      assert edges == [edges[0]] + edges[1..];
      EndsApart([edges[0]], edges[1..], e);
      EndsApart(more, Leaving(edges[1..], at, guarded), e);
    }
  }

  lemma {:induction false} EndsApart(a: seq<Edge>, b: seq<Edge>, e: End)
    ensures multiset(Ends(a + b))[e] == multiset(Ends(a))[e] + multiset(Ends(b))[e]
    ensures |a| == 1 ==> multiset(Ends(a))[e] == if e == End(a[0].outOf, a[0].when) then 1 else 0
  {
    assert Ends(a + b) == Ends(a) + Ends(b);
    if |a| == 1 {
      assert Ends(a) == [End(a[0].outOf, a[0].when)];
    }
  }

  lemma {:induction false} OutCounts(edges: seq<Edge>, at: At, e: End)
    ensures multiset(Ends(OutOf(edges, at)))[e] == if e.at == at then multiset(Ends(edges))[e] else 0
  {
    LeavingCounts(edges, at, true, e);
    LeavingCounts(edges, at, false, e);
    EndsApart(Leaving(edges, at, true), Leaving(edges, at, false), e);
  }

  lemma {:induction false} TwiceCounted(ends: seq<End>, i: nat, j: nat)
    requires i < j < |ends| && ends[i] == ends[j]
    ensures multiset(ends)[ends[i]] >= 2
  {
    assert ends == ends[..j] + [ends[j]] + ends[j + 1..];
    assert ends[..j][i] in multiset(ends[..j]);
    assert multiset(ends) == multiset(ends[..j]) + multiset{ends[j]} + multiset(ends[j + 1..]);
  }

  /** What is found of a node's ways out is all of them, and no two are alike. */
  lemma {:induction false} FoundWays(edges: seq<Edge>, at: At)
    requires Paired(multiset(Ends(edges)))
    ensures forall e: End :: e in Ends(OutOf(edges, at)) <==> e in multiset(Ends(edges)) && e.at == at
    ensures
      var ends := Ends(OutOf(edges, at));
      forall i, j :: 0 <= i < j < |ends| ==> Opposite(ends[i], ends[j])
  {
    var ends, all := Ends(OutOf(edges, at)), multiset(Ends(edges));
    forall e: End
      ensures multiset(ends)[e] == if e.at == at then all[e] else 0
    {
      OutCounts(edges, at, e);
    }
    assert forall e: End :: e in ends <==> e in multiset(ends);
    forall i, j | 0 <= i < j < |ends|
      ensures Opposite(ends[i], ends[j])
    {
      var x, y := ends[i], ends[j];
      assert x in ends && y in ends;
      assert x in all && y in all && x.at == y.at;
      if x == y {
        TwiceCounted(ends, i, j);
      }
    }
  }

  lemma {:induction false} NotThree(a: End, b: End, c: End)
    ensures !(Opposite(a, b) && Opposite(a, c) && Opposite(b, c))
  {
  }

  /** Ends each opposite to every other are one or two. */
  lemma {:induction false} OppositeEnds(ends: seq<End>)
    requires forall i, j :: 0 <= i < j < |ends| ==> Opposite(ends[i], ends[j])
    ensures |ends| <= 2
  {
    hide Opposite;
    if |ends| > 2 {
      NotThree(ends[0], ends[1], ends[2]);
    }
  }

  /** Paired ways are one with no guard or two opposite ones, however many edges there are. */
  lemma {:induction false} PairedWays(g: Graph, at: At)
    requires Paired(multiset(Ends(g.edges))) && Leaves(multiset(Ends(g.edges)), at)
    ensures OneWay(g, at) || TwoWays(g, at)
    ensures End(at, None) in multiset(Ends(g.edges)) ==> OneWay(g, at)
  {
    hide Paired, Leaves, OutOf;
    var all, ends := multiset(Ends(g.edges)), Ends(OutOf(g.edges, at));
    FoundWays(g.edges, at);
    OppositeEnds(ends);
    EndsPaired(all, ends, at);
  }

  lemma {:induction false} EndsPaired(all: multiset<End>, ends: seq<End>, at: At)
    requires Paired(all) && Leaves(all, at) && |ends| <= 2 && (|ends| == 2 ==> Opposite(ends[0], ends[1]))
    requires forall e: End :: e in ends <==> e in all && e.at == at
    ensures |ends| > 0 && (|ends| == 1 ==> ends[0].when.None?)
    ensures End(at, None) in all ==> |ends| == 1
  {
    hide Paired;
    var e :| e in all && e.at == at;
    assert e in ends;
    assert ends[0] in ends;
    NotAlone(all, ends[0]);
    assert End(at, None) in all ==> End(at, None) in ends;
  }

  /** A guarded way has its opposite beside it. */
  lemma {:induction false} NotAlone(all: multiset<End>, x: End)
    requires Paired(all) && x in all
    ensures x.when.Some? ==> Flip(x) in all && Flip(x) != x && Flip(x).at == x.at
  {
  }

  /** The compiled graph is deterministic and never stuck: no two nodes share an id, every edge
  arrives at a node or at the end, the way in is one edge with no guard, and every node has one
  way out with no guard, or two asking the same with opposite truths, and a mind the first. */
  lemma {:induction false} CompiledGraph(c: Scope, body: seq<Stmt>)
    requires Compiles(c, body)
    ensures
      var g := Compiled(c, body);
      && (forall i, j :: 0 <= i < j < |g.nodes| ==> g.nodes[i].at != g.nodes[j].at)
      && (forall i :: 0 <= i < |g.nodes| ==> g.nodes[i].at != Way)
      && (forall i :: 0 <= i < |g.edges| ==> g.edges[i].into == Way || Known(g.nodes, g.edges[i].into))
      && (forall i :: 0 <= i < |g.edges| ==> g.edges[i].outOf == Way || Known(g.nodes, g.edges[i].outOf))
      && OneWay(g, Way)
      && (forall i :: 0 <= i < |g.nodes| ==> OneWay(g, g.nodes[i].at) || TwoWays(g, g.nodes[i].at))
      && (forall i :: 0 <= i < |g.nodes| && g.nodes[i].does.kind.Mind? ==> OneWay(g, g.nodes[i].at))
  {
    var g, s := Compiled(c, body), Walked(c, body);
    WalkedWires(c, body);
    var none: Loose := [];
    assert Ways(s, none, multiset{}) == multiset(Ends(g.edges));
    PairedWays(g, Way);
    forall i | 0 <= i < |g.nodes|
      ensures OneWay(g, g.nodes[i].at) || TwoWays(g, g.nodes[i].at)
      ensures g.nodes[i].does.kind.Mind? ==> OneWay(g, g.nodes[i].at)
    {
      PairedWays(g, g.nodes[i].at);
    }
    forall i | 0 <= i < |g.edges|
      ensures g.edges[i].outOf == Way || Known(g.nodes, g.edges[i].outOf)
    {
      assert Ends(g.edges)[i] in multiset(Ends(g.edges));
    }
  }

  /** However loops and returns nest, every node can be reached, and the end from every node. */
  lemma {:induction false} CompiledConnected(c: Scope, body: seq<Stmt>)
    requires Compiles(c, body)
    ensures
      var g := Compiled(c, body);
      forall i :: 0 <= i < |g.nodes| ==>
        Reaches(g.edges, Way, g.nodes[i].at) && Reaches(g.edges, g.nodes[i].at, Way)
  {
    WalkedWires(c, body);
    var none: Loose := [];
    assert multiset(none) + multiset{} == multiset{};
    forall i | 0 <= i < |Walked(c, body).nodes|
      ensures Reaches(Walked(c, body).edges, Walked(c, body).nodes[i].at, Way)
    {
      assert Leads(Walked(c, body).edges, multiset(none) + multiset{}, Walked(c, body).nodes[i].at);
    }
  }
}
