/** A run picked up where it stopped: walking the same graph over the answers already written down comes to
what an uninterrupted run comes to, however often it is stopped and wherever. */
module Resuming {
  import opened Prelude
  import opened Atlas
  import opened Body
  import opened WiringSpec
  import opened Running
  import opened Structure
  import opened Soundness
  import opened Refusals

  /** One time through a node. */
  datatype Visit = Visit(at: At, nth: nat)

  /** What a run has written down: what each visit that has answered answered, and which it was in. */
  datatype Kept = Kept(done: map<Visit, Value>, inside: Option<Visit>)

  const FRESH := Kept(map[], None)

  type Rounds = map<At, nat>

  function Times(seen: Rounds, at: At): nat {
    if at in seen then seen[at] else 0
  }

  function VisitOf(seen: Rounds, at: At): Visit {
    Visit(at, Times(seen, at) + 1)
  }

  function Fresh(w: World, d: Deed, s: State): Value {
    w.answer(s.trace, d, Looks(w, s.env, d.takes))
  }

  /** What a visit answers: what it answered before; nothing, where the run stopped in it and it is not to be
  run again; and otherwise what it answers now. */
  function Answered(w: World, k: Kept, v: Visit, d: Deed, s: State): Value {
    if v in k.done then k.done[v]
    else if k.inside == Some(v) && !d.rerun then Missing
    else Fresh(w, d, s)
  }

  /** What is written down by a visit that answers: its answer, and that it was entered, unless it had answered
  already, is only stepped past, or is a whole atlas, whose own nodes say that of themselves. */
  function Writes(k: Kept, v: Visit, d: Deed, answer: Value): Kept {
    if v in k.done then k
    else Kept(k.done[v := answer], if d.kind.Super? || (k.inside == Some(v) && !d.rerun) then k.inside else Some(v))
  }

  function Took(w: World, d: Deed, answer: Value, s: State): State {
    State(if d.binds == "" then s.env else s.env[Bound(d.binds) := answer],
          s.trace + [Did(d, Looks(w, s.env, d.takes), answer)])
  }

  /** A walk over what is written down, for so many nodes, and what is written down then. */
  function Picked(w: World, g: Graph, k: Kept, at: At, s: State, seen: Rounds, n: nat): (Run, Kept)
    decreases n
  {
    match Taken(w, s.env, OutOf(g.edges, at))
    case None => (Astray(s), k)
    case Some(edge) =>
      var s1 := Decide(w, edge.when, s);
      match NodeAt(g.nodes, edge.into)
      case None => (Ended(s1, edge.answers), k)
      case Some(node) =>
        if n == 0 then (Paused(s1), k)
        else
          var v := VisitOf(seen, node.at);
          var answer := Answered(w, k, v, node.does, s1);
          Picked(w, g, Writes(k, v, node.does, answer), node.at, Took(w, node.does, answer, s1),
                 seen[node.at := v.nth], n - 1)
  }

  /** Where a walk is: the way on from it, where it leads to a node, with what is decided on the way. */
  function Ahead(w: World, g: Graph, at: At, s: State): Option<(Node, State)> {
    match Taken(w, s.env, OutOf(g.edges, at))
    case None => None
    case Some(edge) =>
      match NodeAt(g.nodes, edge.into)
      case None => None
      case Some(node) => Some((node, Decide(w, edge.when, s)))
  }

  /** Whether what is written down is what an uninterrupted run answers, from one place on. */
  predicate True(w: World, g: Graph, k: Kept, at: At, s: State, seen: Rounds, n: nat)
    decreases n
  {
    n > 0 && Ahead(w, g, at, s).Some? ==>
      var (node, s1) := Ahead(w, g, at, s).value;
      && Answered(w, k, VisitOf(seen, node.at), node.does, s1) == Fresh(w, node.does, s1)
      && True(w, g, k, node.at, Do(w, node.does, s1), seen[node.at := VisitOf(seen, node.at).nth], n - 1)
  }

  ghost predicate AllTrue(w: World, g: Graph, k: Kept, at: At, s: State, seen: Rounds) {
    forall n :: True(w, g, k, at, s, seen, n)
  }

  /** A node that is not to be run again answers with nothing. */
  ghost predicate Silent(w: World, g: Graph) {
    forall at, before, args :: NodeAt(g.nodes, at).Some? && !NodeAt(g.nodes, at).value.does.rerun ==>
      w.answer(before, NodeAt(g.nodes, at).value.does, args) == Missing
  }

  predicate Passed(seen: Rounds, v: Visit) {
    v.nth <= Times(seen, v.at)
  }

  /** The same written down for every visit still to come. */
  ghost predicate Agrees(k: Kept, k1: Kept, seen: Rounds) {
    forall v :: !Passed(seen, v) ==>
      (v in k.done <==> v in k1.done) && (v in k.done ==> k1.done[v] == k.done[v])
      && (k1.inside == Some(v) ==> k.inside == Some(v))
  }

  lemma {:induction false} TrueStill(w: World, g: Graph, k: Kept, k1: Kept, at: At, s: State, seen: Rounds, n: nat)
    requires True(w, g, k, at, s, seen, n) && Agrees(k, k1, seen)
    ensures True(w, g, k1, at, s, seen, n)
    decreases n
  {
    if n > 0 && Ahead(w, g, at, s).Some? {
      var (node, s1) := Ahead(w, g, at, s).value;
      var seen1 := seen[node.at := VisitOf(seen, node.at).nth];
      assert forall v :: Passed(seen, v) ==> Passed(seen1, v);
      TrueStill(w, g, k, k1, node.at, Do(w, node.does, s1), seen1, n - 1);
    }
  }

  /** Writing a visit down changes nothing about the visits to come. */
  lemma {:induction false} WritesAgree(k: Kept, v: Visit, d: Deed, answer: Value, seen: Rounds)
    requires Passed(seen, v)
    ensures Agrees(k, Writes(k, v, d, answer), seen)
  {
  }

  /** Walking over what is true comes to what walking does. */
  lemma {:induction false} PickedFollows(w: World, g: Graph, k: Kept, at: At, s: State, seen: Rounds, n: nat)
    requires True(w, g, k, at, s, seen, n)
    ensures Picked(w, g, k, at, s, seen, n).0 == Walk(w, g, at, s, n)
    decreases n
  {
    if n > 0 && Ahead(w, g, at, s).Some? {
      var (node, s1) := Ahead(w, g, at, s).value;
      var v := VisitOf(seen, node.at);
      var seen1 := seen[node.at := v.nth];
      var answer := Answered(w, k, v, node.does, s1);
      var k1 := Writes(k, v, node.does, answer);
      WritesAgree(k, v, node.does, answer, seen1);
      TrueStill(w, g, k, k1, node.at, Do(w, node.does, s1), seen1, n - 1);
      FoundAt(g.nodes, node);
      PickedFollows(w, g, k1, node.at, Took(w, node.does, answer, s1), seen1, n - 1);
    }
  }

  lemma {:induction false} FoundAt(nodes: seq<Node>, node: Node)
    ensures forall at :: NodeAt(nodes, at) == Some(node) ==> node.at == at
  {
    if nodes != [] {
      FoundAt(nodes[1..], node);
    }
  }

  /** What a walk leaves written down of the visits already past. */
  lemma {:induction false} PickedLeaves(w: World, g: Graph, k: Kept, at: At, s: State, seen: Rounds, n: nat, v: Visit)
    requires Passed(seen, v)
    ensures
      var k1 := Picked(w, g, k, at, s, seen, n).1;
      (v in k.done <==> v in k1.done) && (v in k.done ==> k1.done[v] == k.done[v])
    decreases n
  {
    if n > 0 && Ahead(w, g, at, s).Some? {
      var (node, s1) := Ahead(w, g, at, s).value;
      var v1 := VisitOf(seen, node.at);
      var answer := Answered(w, k, v1, node.does, s1);
      PickedLeaves(w, g, Writes(k, v1, node.does, answer), node.at, Took(w, node.does, answer, s1),
                   seen[node.at := v1.nth], n - 1, v);
    }
  }

  /* ---- What is written down is enough ---- */

  lemma {:induction false} TakenStill(w: World, w1: World, env: Env, edges: seq<Edge>)
    requires w1 == w.(answer := w1.answer)
    ensures Taken(w1, env, edges) == Taken(w, env, edges)
    decreases |edges|
  {
    if edges != [] {
      TakenStill(w, w1, env, edges[1..]);
    }
  }

  lemma {:induction false} LooksStill(w: World, w1: World, env: Env, takes: seq<Reads>)
    requires w1 == w.(answer := w1.answer)
    ensures Looks(w1, env, takes) == Looks(w, env, takes)
  {
    forall i | 0 <= i < |takes|
      ensures Looks(w1, env, takes)[i] == Looks(w, env, takes)[i]
    {
      assert Looks(w1, env, takes)[i] == Look(w1, env, takes[i]);
    }
  }

  /** Every answer of a run is written down, and read back: gone through again over what it has written down, as far
  as it got, a run does the same, decides the same and ends the same, whatever its nodes would answer now, and
  writes nothing more. */
  lemma {:induction false} WrittenDownIsEnough(w: World, w1: World, g: Graph, k: Kept, at: At, s: State, seen: Rounds,
                                               n: nat, written: Kept)
    requires w1 == w.(answer := w1.answer) && written.done == Picked(w, g, k, at, s, seen, n).1.done
    ensures Picked(w1, g, written, at, s, seen, n) == (Picked(w, g, k, at, s, seen, n).0, written)
    decreases n
  {
    hide Picked, Taken, OutOf, NodeAt, Look, Truth, Answered, Writes, Took;
    var edge := Taken(w, s.env, OutOf(g.edges, at));
    TakenStill(w, w1, s.env, OutOf(g.edges, at));
    if edge.None? || NodeAt(g.nodes, edge.value.into).None? || n == 0 {
      StopsStill(w, w1, g, k, at, s, seen, n, written);
    } else {
      var node, s1 := NodeAt(g.nodes, edge.value.into).value, Decide(w, edge.value.when, s);
      var v := VisitOf(seen, node.at);
      var answer := Answered(w, k, v, node.does, s1);
      var k1, s2, seen1 := Writes(k, v, node.does, answer), Took(w, node.does, answer, s1), seen[node.at := v.nth];
      PickedOn(w, g, k, at, s, seen, n, edge.value, node);
      PickedLeaves(w, g, k1, node.at, s2, seen1, n - 1, v);
      ReadBack(w, w1, k, written, v, node.does, s1);
      DecideStill(w, w1, edge.value.when, s);
      PickedOn(w1, g, written, at, s, seen, n, edge.value, node);
      WrittenDownIsEnough(w, w1, g, k1, node.at, s2, seen1, n - 1, written);
    }
  }

  lemma {:induction false} DecideStill(w: World, w1: World, when: Option<When>, s: State)
    requires w1 == w.(answer := w1.answer)
    ensures Decide(w1, when, s) == Decide(w, when, s)
  {
  }

  lemma {:induction false} StopsStill(w: World, w1: World, g: Graph, k: Kept, at: At, s: State, seen: Rounds, n: nat,
                                      written: Kept)
    requires w1 == w.(answer := w1.answer)
    requires
      var edge := Taken(w, s.env, OutOf(g.edges, at));
      Taken(w1, s.env, OutOf(g.edges, at)) == edge && (edge.None? || NodeAt(g.nodes, edge.value.into).None? || n == 0)
    ensures Picked(w1, g, written, at, s, seen, n) == (Picked(w, g, k, at, s, seen, n).0, written)
  {
    hide Taken, OutOf, NodeAt;
  }

  /** A visit that has answered answers that, whatever its node would answer now. */
  lemma {:induction false} ReadBack(w: World, w1: World, k: Kept, written: Kept, v: Visit, d: Deed, s: State)
    requires w1 == w.(answer := w1.answer)
    requires
      var answer := Answered(w, k, v, d, s);
      v in Writes(k, v, d, answer).done ==> v in written.done && written.done[v] == Writes(k, v, d, answer).done[v]
    ensures
      var answer := Answered(w, k, v, d, s);
      && v in Writes(k, v, d, answer).done && Answered(w1, written, v, d, s) == answer
      && Writes(written, v, d, answer) == written && Took(w1, d, answer, s) == Took(w, d, answer, s)
  {
    LooksStill(w, w1, s.env, d.takes);
  }

  /** A visit that has answered is not run again, nor one the run stopped in where it may not be: what it answers
  is nothing of what its node would answer now.  Every other is run. */
  lemma {:induction false} RunsWhereNew(w: World, k: Kept, v: Visit, d: Deed, s: State)
    ensures
      if v in k.done then forall w1 :: Answered(w1, k, v, d, s) == k.done[v]
      else if k.inside == Some(v) && !d.rerun then forall w1 :: Answered(w1, k, v, d, s) == Missing
      else Answered(w, k, v, d, s) == w.answer(s.trace, d, Looks(w, s.env, d.takes))
  {
  }

  /** One node of a walk over what is written down. */
  lemma {:induction false} PickedOn(w: World, g: Graph, k: Kept, at: At, s: State, seen: Rounds, n: nat, edge: Edge,
                                    node: Node)
    requires Taken(w, s.env, OutOf(g.edges, at)) == Some(edge) && NodeAt(g.nodes, edge.into) == Some(node) && n > 0
    ensures
      var s1 := Decide(w, edge.when, s);
      var v := VisitOf(seen, node.at);
      var answer := Answered(w, k, v, node.does, s1);
      Picked(w, g, k, at, s, seen, n)
      == Picked(w, g, Writes(k, v, node.does, answer), node.at, Took(w, node.does, answer, s1),
                seen[node.at := v.nth], n - 1)
  {
  }

  /** What a walk over what is true writes down is true, wherever the run then stops: between two visits, or
  in the one it was about to answer. */
  lemma {:induction false} PickedStaysTrue(w: World, g: Graph, k: Kept, at: At, s: State, seen: Rounds, n: nat, m: nat,
                                           inside: Option<Visit>)
    requires AllTrue(w, g, k, at, s, seen) && Silent(w, g)
    ensures True(w, g, Picked(w, g, k, at, s, seen, n).1.(inside := inside), at, s, seen, m)
    decreases m
  {
    hide Taken, OutOf, Look, Truth, Looks, Agrees, Decide;
    var k1 := Picked(w, g, k, at, s, seen, n).1.(inside := inside);
    assert True(w, g, k, at, s, seen, 1);
    if m > 0 && Ahead(w, g, at, s).Some? {
      var (node, s1) := Ahead(w, g, at, s).value;
      var v := VisitOf(seen, node.at);
      var seen1 := seen[node.at := v.nth];
      FoundAt(g.nodes, node);
      assert NodeAt(g.nodes, node.at) == Some(node);
      if n == 0 {
        StopsTrue(w, g, k, at, s, seen, m, inside);
      } else {
        var answer := Answered(w, k, v, node.does, s1);
        var k2 := Writes(k, v, node.does, answer);
        PickedLeaves(w, g, k2, node.at, Took(w, node.does, answer, s1), seen1, n - 1, v);
        forall i: nat
          ensures True(w, g, k2, node.at, Do(w, node.does, s1), seen1, i)
        {
          assert True(w, g, k, at, s, seen, i + 1);
          WritesAgree(k, v, node.does, answer, seen1);
          TrueStill(w, g, k, k2, node.at, Do(w, node.does, s1), seen1, i);
        }
        PickedStaysTrue(w, g, k2, node.at, Do(w, node.does, s1), seen1, n - 1, m - 1, inside);
      }
    }
  }

  /** A run stopped where it stands. */
  lemma {:induction false} StopsTrue(w: World, g: Graph, k: Kept, at: At, s: State, seen: Rounds, m: nat,
                                     inside: Option<Visit>)
    requires AllTrue(w, g, k, at, s, seen) && Silent(w, g)
    ensures True(w, g, k.(inside := inside), at, s, seen, m)
    decreases m
  {
    assert True(w, g, k, at, s, seen, 1);
    if m > 0 && Ahead(w, g, at, s).Some? {
      var (node, s1) := Ahead(w, g, at, s).value;
      var v := VisitOf(seen, node.at);
      var seen1 := seen[node.at := v.nth];
      forall i: nat
        ensures True(w, g, k, node.at, Do(w, node.does, s1), seen1, i)
      {
        assert True(w, g, k, at, s, seen, i + 1);
      }
      StopsTrue(w, g, k, node.at, Do(w, node.does, s1), seen1, m - 1, inside);
    }
  }

  /** One time a run was started: for how many nodes, and which visit it was in when it stopped. */
  datatype Start = Start(nodes: nat, inside: Option<Visit>)

  /** What is written down after a run has been started and stopped so often. */
  function After(w: World, g: Graph, k: Kept, starts: seq<Start>): Kept
    decreases |starts|
  {
    if starts == [] then k
    else
      After(w, g, Picked(w, g, k, Way, Begun(w), map[], starts[0].nodes).1.(inside := starts[0].inside), starts[1..])
  }

  lemma {:induction false} AfterTrue(w: World, g: Graph, k: Kept, starts: seq<Start>)
    requires Silent(w, g) && AllTrue(w, g, k, Way, Begun(w), map[])
    ensures AllTrue(w, g, After(w, g, k, starts), Way, Begun(w), map[])
    decreases |starts|
  {
    if starts != [] {
      var k1 := Picked(w, g, k, Way, Begun(w), map[], starts[0].nodes).1.(inside := starts[0].inside);
      forall m: nat
        ensures True(w, g, k1, Way, Begun(w), map[], m)
      {
        PickedStaysTrue(w, g, k, Way, Begun(w), map[], starts[0].nodes, m, starts[0].inside);
      }
      AfterTrue(w, g, k1, starts[1..]);
    }
  }

  lemma {:induction false} FreshTrue(w: World, g: Graph, at: At, s: State, seen: Rounds, n: nat)
    ensures True(w, g, FRESH, at, s, seen, n)
    decreases n
  {
    if n > 0 && Ahead(w, g, at, s).Some? {
      var (node, s1) := Ahead(w, g, at, s).value;
      FreshTrue(w, g, node.at, Do(w, node.does, s1), seen[node.at := VisitOf(seen, node.at).nth], n - 1);
    }
  }

  /** What is compiled is silent where it may be stepped past: such a node answers with nothing. */
  lemma {:induction false} CompiledSilent(w: World, c: Scope, body: seq<Stmt>)
    requires Compiles(c, body) && Honest(w, c, false)
    ensures Silent(w, Compiled(c, body))
  {
    var g := Compiled(c, body);
    CompiledIsProper(c, body);
    forall at, before, args | NodeAt(g.nodes, at).Some? && !NodeAt(g.nodes, at).value.does.rerun
      ensures w.answer(before, NodeAt(g.nodes, at).value.does, args) == Missing
    {
      FoundNode(g.nodes, at);
      var d := NodeAt(g.nodes, at).value.does;
      assert HasShape(w.answer(before, d, args), d.gives, false);
    }
  }

  /** However often a run of a compiled atlas was started and stopped, and wherever it was when it stopped,
  picking it up comes to what a run that was never stopped comes to: the same nodes with the same answers,
  the same decisions, the same end. */
  lemma {:induction false} PickedUpIsUninterrupted(w: World, c: Scope, body: seq<Stmt>, starts: seq<Start>, n: nat)
    requires Compiles(c, body) && Honest(w, c, false)
    ensures
      var g := Compiled(c, body);
      Picked(w, g, After(w, g, FRESH, starts), Way, Begun(w), map[], n).0 == Walk(w, g, Way, Begun(w), n)
  {
    var g := Compiled(c, body);
    CompiledSilent(w, c, body);
    forall m: nat
      ensures True(w, g, FRESH, Way, Begun(w), map[], m)
    {
      FreshTrue(w, g, Way, Begun(w), map[], m);
    }
    AfterTrue(w, g, FRESH, starts);
    PickedFollows(w, g, After(w, g, FRESH, starts), Way, Begun(w), map[], n);
  }
}
