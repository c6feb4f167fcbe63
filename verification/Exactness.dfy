/** The other half of `Soundness`: what is not steady, some honest world runs into.

Any way along the edges of a graph that asks nothing against what it has decided is the way some world's answers
take a run, unless a read on it is wrong already.  A read that does not fit what a name can hold is then one such
world's run away. */
module Exactness {
  import opened Prelude
  import opened Atlas
  import opened Body
  import opened WiringSpec
  import opened Running
  import opened Structure
  import opened Meaning
  import opened Refusals
  import opened Soundness

  /* ---- Ways along the edges ---- */

  /** Edges one after another, none asking against what is decided. */
  predicate Trail(g: Graph, at: At, known: Facts, p: seq<Edge>)
    decreases |p|
  {
    p == []
    || (p[0] in g.edges && p[0].outOf == at && !Denied(known, p[0].when)
        && match NodeAt(g.nodes, p[0].into)
           case None => false
           case Some(node) => Trail(g, p[0].into, Still(known, p[0].when, node.does), p[1..]))
  }

  /** Where a way along the edges leaves a name. */
  function Reached(g: Graph, x: Name, q: Point, p: seq<Edge>): Point
    decreases |p|
  {
    if p == [] then q
    else
      var node := NodeAt(g.nodes, p[0].into);
      Reached(g, x, if node.Some? then Onward(x, p[0], node.value.does, q) else q, p[1..])
  }

  ghost predicate Led(g: Graph, x: Name, q: Point) {
    exists p :: Trail(g, Way, {}, p) && Reached(g, x, OUTSET, p) == q
  }

  lemma {:induction false} TrailOn(g: Graph, x: Name, q: Point, p: seq<Edge>, e: Edge)
    requires Trail(g, q.at, q.known, p) && e in g.edges && e.outOf == Reached(g, x, q, p).at
    requires !Denied(Reached(g, x, q, p).known, e.when) && NodeAt(g.nodes, e.into).Some?
    ensures Trail(g, q.at, q.known, p + [e])
    ensures Reached(g, x, q, p + [e]) == Onward(x, e, NodeAt(g.nodes, e.into).value.does, Reached(g, x, q, p))
    decreases |p|
  {
    if p == [] {
      assert p + [e] == [e] && [e][1..] == [];
    } else {
      assert (p + [e])[1..] == p[1..] + [e];
      TrailOn(g, x, Onward(x, p[0], NodeAt(g.nodes, p[0].into).value.does, q), p[1..], e);
    }
  }

  /** What a name can hold, some way along the edges leaves it holding. */
  lemma {:induction false} HeldIsLed(g: Graph, x: Name, q: Point)
    requires q in Held(g, x)
    ensures Led(g, x, q)
  {
    hide Trail, Reached;
    var led := set p | p in Points(g) && Led(g, x, p);
    assert Led(g, x, OUTSET) by {
      NoTrail(g, x);
    }
    forall p | p in Moves(g, x, led)
      ensures p in led
    {
      var e, o :| e in g.edges && o in led && o.at == e.outOf && !Denied(o.known, e.when)
                  && NodeAt(g.nodes, e.into).Some? && p == Onward(x, e, NodeAt(g.nodes, e.into).value.does, o);
      var way :| Trail(g, Way, {}, way) && Reached(g, x, OUTSET, way) == o;
      TrailOn(g, x, OUTSET, way, e);
      assert Led(g, x, p);
      MovesStay(g, x, led);
    }
    SpreadLeast(g, x, {OUTSET}, led);
  }

  lemma {:induction false} NoTrail(g: Graph, x: Name)
    ensures Trail(g, Way, {}, []) && Reached(g, x, OUTSET, []) == OUTSET
  {
  }

  /* ---- The world that takes one of them ---- */

  /** How many nodes have run. */
  function Ran(trace: seq<Event>): nat {
    if trace == [] then 0 else Ran(trace[..|trace| - 1]) + if trace[|trace| - 1].Did? then 1 else 0
  }

  function OfShape(shape: Shape, held: int): Value {
    if shape == "" then Missing else Value(shape, held)
  }

  /** How a read is first decided on a way, from some edge of it on, before it is given something else to read. */
  predicate Ahead(g: Graph, p: seq<Edge>, k: nat, r: Reads)
    decreases |p| - k
  {
    k < |p|
    && if p[k].when.Some? && p[k].when.value.asks == r then p[k].when.value.truth
       else !(NodeAt(g.nodes, p[k].into).Some? && Rebinds(NodeAt(g.nodes, p[k].into).value.does, r))
            && Ahead(g, p, k + 1, r)
  }

  const CONFIG := -1
  const YES := -2
  const NO := -3

  /** Which name holds a value of the script's: what it was answered as says after which node, or that the run
  was started with it. */
  function From(g: Graph, p: seq<Edge>, held: int): Source {
    if held == 0 then Input
    else if 0 < held <= |p| && NodeAt(g.nodes, p[held - 1].into).Some?
    then Bound(NodeAt(g.nodes, p[held - 1].into).value.does.binds)
    else Config
  }

  function Since(held: int): nat {
    if held < 0 then 0 else held
  }

  /** How a value of the script's, or a field of one, is to be decided. */
  predicate Decreed(g: Graph, p: seq<Edge>, held: int, f: Name) {
    Ahead(g, p, Since(held), Reads(From(g, p, held), f))
  }

  function FieldOf(c: Scope, g: Graph, p: seq<Edge>, v: Value, f: Name): Value {
    if v.Value? && v.shape in c.own && f in c.own[v.shape]
    then OfShape(c.own[v.shape][f], if Decreed(g, p, v.held, f) then YES else NO)
    else Missing
  }

  function Declaring(c: Scope, v: Value, x: Name): Option<Shape> {
    if v.Value? && v.shape in c.fields && x in c.fields[v.shape] then Some(c.fields[v.shape][x].shape) else None
  }

  predicate Counts(g: Graph, p: seq<Edge>, v: Value) {
    v.Value? && (v.held == YES || (v.held != NO && Decreed(g, p, v.held, "")))
  }

  /** A world that answers everything at its shape, so that each guard on one way reads as that way needs. */
  function Script(c: Scope, g: Graph, p: seq<Edge>): World {
    World((before: seq<Event>, d: Deed, args: seq<Seen>) => OfShape(d.gives, Ran(before) + 1),
          (v: Value, f: Name) => FieldOf(c, g, p, v, f),
          (v: Value, x: Name) => Declaring(c, v, x),
          (v: Value) => Counts(g, p, v),
          Missing, OfShape(c.takes, 0), OfShape(c.config, CONFIG))
  }

  lemma {:induction false} ScriptHonest(c: Scope, g: Graph, p: seq<Edge>)
    ensures Honest(Script(c, g, p), c, true)
  {
    var w := Script(c, g, p);
    forall before, d: Deed, args
      ensures HasShape(w.answer(before, d, args), d.gives, true)
    {
      assert w.answer(before, d, args) == OfShape(d.gives, Ran(before) + 1);
    }
    forall v: Value, f | v.Value? && v.shape in c.own && f in c.own[v.shape] && c.own[v.shape][f] != ""
      ensures HasShape(w.part(v, f), c.own[v.shape][f], true)
    {
      assert w.part(v, f) == FieldOf(c, g, p, v, f);
    }
  }

  /** What a read of a scripted name comes to. */
  lemma {:induction false} ScriptLook(c: Scope, g: Graph, p: seq<Edge>, env: Env, r: Reads)
    requires r.source in env
    ensures
      var held := env[r.source];
      Look(Script(c, g, p), env, r) ==
      Holds(if r.field == "" then held else if held.Missing? then Missing else FieldOf(c, g, p, held, r.field))
  {
    var w := Script(c, g, p);
    assert w.part(env[r.source], r.field) == FieldOf(c, g, p, env[r.source], r.field);
  }

  /** Whether a read goes as what is decided says, and otherwise as the rest of the way does. */
  predicate Foretold(g: Graph, p: seq<Edge>, k: nat, known: Facts, r: Reads, told: bool) {
    When(r, !told) !in known && (When(r, told) in known || Ahead(g, p, k, r) == told)
  }

  ghost predicate Tells(g: Graph, p: seq<Edge>, k: nat, known: Facts, source: Source, v: Value) {
    v.Value? ==>
      && v.held >= CONFIG && From(g, p, v.held) == source
      && forall f :: Foretold(g, p, k, known, Reads(source, f), Decreed(g, p, v.held, f))
  }

  /** Where a run that takes the way stands after so many nodes. */
  ghost predicate OnTheWay(g: Graph, p: seq<Edge>, k: nat, s: State, x: Name, q: Point) {
    && k < |p| && Ran(s.trace) == k && Matches(s.env, x, q.holds, true) && Agents in s.env && s.env[Agents].Missing?
    && forall source :: source in s.env ==> Tells(g, p, k, q.known, source, s.env[source])
  }

  /** On the way, the guard of the next edge holds, unless what it asks is unbound or missing. */
  lemma {:induction false} HoldsOnTheWay(c: Scope, g: Graph, p: seq<Edge>, k: nat, s: State, x: Name, q: Point)
    requires OnTheWay(g, p, k, s, x, q) && !Denied(q.known, p[k].when)
    requires p[k].when.Some? ==>
               var r := p[k].when.value.asks;
               Sane(Script(c, g, p), c, Asked(r, Look(Script(c, g, p), s.env, r)), true)
    ensures Holding(Script(c, g, p), s.env, p[k].when)
  {
    hide Decreed, From;
    if p[k].when.Some? {
      var w, r := Script(c, g, p), p[k].when.value.asks;
      var held := s.env[r.source];
      ScriptLook(c, g, p, s.env, r);
      assert Tells(g, p, k, q.known, r.source, held);
      assert Foretold(g, p, k, q.known, Reads(r.source, r.field), Decreed(g, p, held.held, r.field));
      assert Reads(r.source, r.field) == r;
      var seen := Look(w, s.env, r);
      assert w.truthy(seen.value) == Counts(g, p, seen.value);
    }
  }

  lemma {:induction false} AskOnTheWay(w: World, g: Graph, p: seq<Edge>, k: nat, s: State, x: Name, q: Point)
    requires OnTheWay(g, p, k, s, x, q)
    ensures OnTheWay(g, p, k, Decide(w, p[k].when, s), x, q)
  {
    if p[k].when.Some? {
      var more := Decide(w, p[k].when, s).trace;
      assert more[..|more| - 1] == s.trace;
    }
  }

  lemma {:induction false} ForetoldOn(g: Graph, p: seq<Edge>, k: nat, known: Facts, r: Reads, told: bool)
    requires Foretold(g, p, k, known, r, told) && k < |p| && !Denied(known, p[k].when)
    requires NodeAt(g.nodes, p[k].into).Some? && !Rebinds(NodeAt(g.nodes, p[k].into).value.does, r)
    ensures Foretold(g, p, k + 1, Still(known, p[k].when, NodeAt(g.nodes, p[k].into).value.does), r, told)
  {
  }

  lemma {:induction false} DoOnTheWay(c: Scope, g: Graph, p: seq<Edge>, k: nat, s: State, x: Name, q: Point)
    requires OnTheWay(g, p, k, s, x, q) && k + 1 < |p| && !Denied(q.known, p[k].when)
    requires NodeAt(g.nodes, p[k].into).Some?
    ensures
      var d := NodeAt(g.nodes, p[k].into).value.does;
      OnTheWay(g, p, k + 1, Do(Script(c, g, p), d, s), x, Onward(x, p[k], d, q))
  {
    hide Foretold, Decreed, Still;
    var d := NodeAt(g.nodes, p[k].into).value.does;
    var s1 := Do(Script(c, g, p), d, s);
    var known := Still(q.known, p[k].when, d);
    assert s1.trace[..|s1.trace| - 1] == s.trace;
    forall source | source in s1.env
      ensures Tells(g, p, k + 1, known, source, s1.env[source])
    {
      if d.binds != "" && source == Bound(d.binds) {
        NewlyTold(g, p, k, q.known, d.gives);
      } else {
        assert Tells(g, p, k, q.known, source, s.env[source]);
        forall f | s.env[source].Value?
          ensures Foretold(g, p, k + 1, known, Reads(source, f), Decreed(g, p, s.env[source].held, f))
        {
          ForetoldOn(g, p, k, q.known, Reads(source, f), Decreed(g, p, s.env[source].held, f));
        }
      }
    }
  }

  /** What a node has just answered is decided by the rest of the way alone. */
  lemma {:induction false} NewlyTold(g: Graph, p: seq<Edge>, k: nat, known: Facts, gives: Shape)
    requires k < |p| && NodeAt(g.nodes, p[k].into).Some? && NodeAt(g.nodes, p[k].into).value.does.binds != ""
    ensures
      var d := NodeAt(g.nodes, p[k].into).value.does;
      Tells(g, p, k + 1, Still(known, p[k].when, d), Bound(d.binds), OfShape(gives, k + 1))
  {
  }

  /** Whether what a name holds at the end of a way does not do for what the last edge of it reads. */
  predicate Misses(c: Scope, g: Graph, e: Edge, x: Name, q: Point) {
    || (e.when.Some? && e.when.value.asks.source == Bound(x)
        && !Sized(ShapeOf(c, Alone(Bound(x), q.holds), e.when.value.asks)))
    || (!Denied(q.known, e.when) && MissesBeyond(c, g, e, x, q.holds))
  }

  predicate MissesBeyond(c: Scope, g: Graph, e: Edge, x: Name, t: Status) {
    match NodeAt(g.nodes, e.into)
    case None => e.answers == Some(Bound(x)) && !(t.Some? && (c.gives != "" ==> t.value == c.gives))
    case Some(node) =>
      exists i :: 0 <= i < |node.does.takes| && node.does.takes[i].source == Bound(x)
        && !Fits(c, Alone(Bound(x), t), Wanted(c, node.does, i), node.does.takes[i])
  }

  lemma {:induction false} TraceGrows(w: World, g: Graph, at: At, s: State, n: nat)
    ensures s.trace <= Walk(w, g, at, s, n).s.trace
    decreases n
  {
    hide OutOf, Taken, Look, Looks;
    var out := Taken(w, s.env, OutOf(g.edges, at));
    if out.Some? {
      var node := NodeAt(g.nodes, out.value.into);
      if node.Some? && n > 0 {
        TraceGrows(w, g, node.value.at, Do(w, node.value.does, Decide(w, out.value.when, s)), n - 1);
      }
    }
  }

  /** A read that does not fit what its name holds comes to what does not suit. */
  lemma {:induction false} MisfitSeen(c: Scope, g: Graph, p: seq<Edge>, env: Env, x: Name, t: Status, wanted: Shape,
                                      r: Reads)
    requires r.source == Bound(x) && Matches(env, x, t, true) && !Fits(c, Alone(r.source, t), wanted, r)
    requires wanted != ONE_AGENT && wanted != THE_AGENTS
    ensures !Suits(Script(c, g, p), c, Look(Script(c, g, p), env, r), wanted, true)
  {
    if t.Some? {
      ScriptLook(c, g, p, env, r);
    }
  }

  lemma {:induction false} MisfitAsked(c: Scope, g: Graph, p: seq<Edge>, env: Env, x: Name, t: Status, r: Reads)
    requires r.source == Bound(x) && Matches(env, x, t, true) && !Sized(ShapeOf(c, Alone(Bound(x), t), r))
    ensures !Sane(Script(c, g, p), c, Asked(r, Look(Script(c, g, p), env, r)), true)
  {
    if t.Some? {
      ScriptLook(c, g, p, env, r);
    }
  }

  lemma {:induction false} MisfitDone(c: Scope, g: Graph, p: seq<Edge>, node: Node, s: State, x: Name, t: Status)
    requires Allowed(c, node) && Matches(s.env, x, t, true)
    requires exists i :: 0 <= i < |node.does.takes| && node.does.takes[i].source == Bound(x)
               && !Fits(c, Alone(Bound(x), t), Wanted(c, node.does, i), node.does.takes[i])
    ensures !AllSane(Script(c, g, p), c, Do(Script(c, g, p), node.does, s).trace, true)
  {
    hide Fits, Suits, Look;
    var d := node.does;
    var i :| 0 <= i < |d.takes| && d.takes[i].source == Bound(x)
             && !Fits(c, Alone(Bound(x), t), Wanted(c, d, i), d.takes[i]);
    assert Placed(c, Wanted(c, d, i), d.takes[i]);
    MisfitSeen(c, g, p, s.env, x, t, Wanted(c, d, i), d.takes[i]);
    var trace := Do(Script(c, g, p), d, s).trace;
    assert !Sane(Script(c, g, p), c, trace[|s.trace|], true);
  }

  lemma {:induction false} MisfitAnswered(c: Scope, answers: Option<Source>, env: Env, x: Name, t: Status)
    requires answers == Some(Bound(x)) && Matches(env, x, t, true)
    requires !(t.Some? && (c.gives != "" ==> t.value == c.gives))
    ensures !Answers(c, answers, env, true)
  {
  }

  /** Whichever way out is taken, it asks what the others do: a read that is wrong is in the run. */
  lemma {:induction false} AskedWrong(w: World, c: Scope, g: Graph, e: Edge, s: State, n: nat)
    requires Decides(g) && e in g.edges && e.when.Some?
    requires !Sane(w, c, Asked(e.when.value.asks, Look(w, s.env, e.when.value.asks)), true)
    ensures !RunSane(w, c, Walk(w, g, e.outOf, s, n), true)
  {
    hide Sane, Look, Looks;
    var r := e.when.value.asks;
    OneAsked(w, g, e, s.env);
    var edge := Taken(w, s.env, OutOf(g.edges, e.outOf)).value;
    var s1 := Decide(w, edge.when, s);
    assert s1.trace[|s.trace|] == Asked(r, Look(w, s.env, r));
    var node := NodeAt(g.nodes, edge.into);
    if node.Some? && n > 0 {
      TraceGrows(w, g, node.value.at, Do(w, node.value.does, s1), n - 1);
      InsaneStill(w, c, s1.trace, Walk(w, g, node.value.at, Do(w, node.value.does, s1), n - 1).s.trace);
    }
  }

  lemma {:induction false} OneAsked(w: World, g: Graph, e: Edge, env: Env)
    requires Decides(g) && e in g.edges && e.when.Some?
    ensures
      var taken := Taken(w, env, OutOf(g.edges, e.outOf));
      taken.Some? && taken.value.when.Some? && taken.value.when.value.asks == e.when.value.asks
  {
    hide Look, Truth, Leaving, NodeAt;
    LeavingHolds(g.edges, e);
    var out := OutOf(g.edges, e.outOf);
    assert e in out;
    assert |out| == 2 ==> out == [out[0], out[1]] && out[1..] == [out[1]];
  }

  /** The whole way, to the read that misses, or to one that is wrong before it. */
  lemma {:induction false} RunsIntoIt(c: Scope, g: Graph, p: seq<Edge>, k: nat, s: State, x: Name, q: Point)
    requires Grounded(c, g) && Decides(g) && k < |p| && OnTheWay(g, p, k, s, x, q)
    requires Trail(g, q.at, q.known, p[k..|p| - 1]) && p[|p| - 1] in g.edges
    requires p[|p| - 1].outOf == Reached(g, x, q, p[k..|p| - 1]).at
    requires Misses(c, g, p[|p| - 1], x, Reached(g, x, q, p[k..|p| - 1]))
    ensures !RunSane(Script(c, g, p), c, Walk(Script(c, g, p), g, q.at, s, |p| - k), true)
    decreases |p| - k
  {
    hide Decides, Grounded, OnTheWay, Script, Walk, Sane, RunSane, Misses, Onto, Look, Onward, Denied, Still;
    var w, n, e := Script(c, g, p), |p| - k, p[k];
    if k < |p| - 1 {
      assert p[k..|p| - 1][0] == e && p[k..|p| - 1][1..] == p[k + 1..|p| - 1];
    } else {
      assert p[k..|p| - 1] == [];
    }
    if e.when.Some? && !Sane(w, c, Asked(e.when.value.asks, Look(w, s.env, e.when.value.asks)), true) {
      AskedWrong(w, c, g, e, s, n);
    } else if k == |p| - 1 {
      LastMisses(c, g, p, s, x, q);
    } else {
      var node := NodeAt(g.nodes, e.into).value;
      var s1 := Decide(w, e.when, s);
      FoundNode(g.nodes, e.into);
      HoldsOnTheWay(c, g, p, k, s, x, q);
      WalksOn(w, g, e, s, n);
      AskOnTheWay(w, g, p, k, s, x, q);
      DoOnTheWay(c, g, p, k, s1, x, q);
      OnwardAt(x, e, node.does, q);
      RunsIntoIt(c, g, p, k + 1, Do(w, node.does, s1), x, Onward(x, e, node.does, q));
    }
  }

  lemma {:induction false} OnwardAt(x: Name, e: Edge, d: Deed, q: Point)
    ensures
      var q1 := Onward(x, e, d, q);
      q1.at == e.into && q1.known == Still(q.known, e.when, d) && q1.holds == Onto(d, x, q.holds)
  {
  }

  /** One step of a walk, by the edge whose guard holds. */
  lemma {:induction false} WalksOn(w: World, g: Graph, e: Edge, s: State, n: nat)
    requires Decides(g) && e in g.edges && Holding(w, s.env, e.when)
    ensures
      var s1 := Decide(w, e.when, s);
      Walk(w, g, e.outOf, s, n) ==
      match NodeAt(g.nodes, e.into)
      case None => Ended(s1, e.answers)
      case Some(node) => if n == 0 then Paused(s1) else Walk(w, g, node.at, Do(w, node.does, s1), n - 1)
  {
    TakenIs(w, s.env, g, e);
  }

  lemma {:induction false} InsaneStill(w: World, c: Scope, trace: seq<Event>, more: seq<Event>)
    requires trace <= more && !AllSane(w, c, trace, true)
    ensures !AllSane(w, c, more, true)
  {
    hide Sane;
    var i :| 0 <= i < |trace| && !Sane(w, c, trace[i], true);
    assert more[i] == trace[i];
  }

  lemma {:induction false} LastMisses(c: Scope, g: Graph, p: seq<Edge>, s: State, x: Name, q: Point)
    requires p != [] && Grounded(c, g) && Decides(g) && OnTheWay(g, p, |p| - 1, s, x, q) && p[|p| - 1] in g.edges
    requires p[|p| - 1].outOf == q.at && Misses(c, g, p[|p| - 1], x, q)
    requires p[|p| - 1].when.Some? ==>
               var r := p[|p| - 1].when.value.asks;
               Sane(Script(c, g, p), c, Asked(r, Look(Script(c, g, p), s.env, r)), true)
    ensures !RunSane(Script(c, g, p), c, Walk(Script(c, g, p), g, q.at, s, 1), true)
  {
    hide Allowed, Refusals.Sound, Fits, Do, Answers, AllSane, Script, Look, Sane, Decides, ShapeOf, Walk;
    var w, e := Script(c, g, p), p[|p| - 1];
    if e.when.Some? && e.when.value.asks.source == Bound(x) {
      if !Sized(ShapeOf(c, Alone(Bound(x), q.holds), e.when.value.asks)) {
        MisfitAsked(c, g, p, s.env, x, q.holds, e.when.value.asks);
      }
    }
    HoldsOnTheWay(c, g, p, |p| - 1, s, x, q);
    WalksOn(w, g, e, s, 1);
    AskOnTheWay(w, g, p, |p| - 1, s, x, q);
    FoundNode(g.nodes, e.into);
    var s1 := Decide(w, e.when, s);
    match NodeAt(g.nodes, e.into)
    case None => MisfitAnswered(c, e.answers, s1.env, x, q.holds);
    case Some(node) =>
      MisfitDone(c, g, p, node, s1, x, q.holds);
      TraceGrows(w, g, node.at, Do(w, node.does, s1), 0);
      InsaneStill(w, c, Do(w, node.does, s1).trace, Walk(w, g, node.at, Do(w, node.does, s1), 0).s.trace);
  }

  /* ---- What is not steady ---- */

  /** What is not clear along an edge misses what some name can hold there. */
  lemma {:induction false} UnclearMisses(c: Scope, g: Graph, e: Edge) returns (x: Name, q: Point)
    requires e in g.edges && !Clear(c, g, e)
    ensures q in Held(g, x) && q.at == e.outOf && Misses(c, g, e, x, q)
  {
    hide Held, Fits, ShapeOf, Denied;
    if e.when.Some? && e.when.value.asks.source.Bound? && !Decided(c, g, e.outOf, e.when.value.asks) {
      var r := e.when.value.asks;
      x := r.source.name;
      var t :| t in Can(g, e.outOf, None, r.source) && !Sized(ShapeOf(c, Alone(r.source, t), r));
      q :| q in Held(g, x) && q.at == e.outOf && q.holds == t;
    } else {
      var t: Status;
      match NodeAt(g.nodes, e.into) {
        case None =>
          x := e.answers.value.name;
          t :| t in Can(g, e.outOf, e.when, e.answers.value) && !(t.Some? && (c.gives != "" ==> t.value == c.gives));
        case Some(node) =>
          var d := node.does;
          var i :| 0 <= i < |d.takes| && d.takes[i].source.Bound? && !Handed(c, g, e, d, i);
          x := d.takes[i].source.name;
          t :| t in Can(g, e.outOf, e.when, d.takes[i].source)
            && !Fits(c, Alone(d.takes[i].source, t), Wanted(c, d, i), d.takes[i]);
      }
      q :| q in Held(g, x) && q.at == e.outOf && !Denied(q.known, e.when) && q.holds == t;
    }
  }

  /** A graph that is not steady has a way along it whose world runs into what is wrong. */
  lemma {:induction false} UnsteadyRuns(c: Scope, g: Graph) returns (w: World, n: nat)
    requires !Steady(c, g) && Grounded(c, g) && Decides(g)
    ensures Honest(w, c, true) && !RunSane(w, c, Walk(w, g, Way, Begun(w), n), true)
  {
    hide Decides, Grounded, Clear, Held, Trail, Reached, Honest, Walk, RunSane, Misses;
    var e :| e in g.edges && !Clear(c, g, e);
    var x, q := UnclearMisses(c, g, e);
    HeldIsLed(g, x, q);
    var way :| Trail(g, Way, {}, way) && Reached(g, x, OUTSET, way) == q;
    var p := way + [e];
    w, n := Script(c, g, p), |p|;
    ScriptHonest(c, g, p);
    assert p[0..|p| - 1] == way;
    BeginsOnTheWay(c, g, p, x);
    RunsIntoIt(c, g, p, 0, Begun(w), x, OUTSET);
  }

  lemma {:induction false} BeginsOnTheWay(c: Scope, g: Graph, p: seq<Edge>, x: Name)
    requires p != []
    ensures OnTheWay(g, p, 0, Begun(Script(c, g, p)), x, OUTSET)
  {
  }

  /** The check is exact: a compiled body passes it if and only if every run of it, in every world that answers each
  shape with a value of that shape, reads nothing that is unbound, missing or of a shape that does not fit, and
  answers as the atlas does. */
  lemma {:induction false} SteadyExactly(c: Scope, body: seq<Stmt>)
    requires Compiles(c, body) && c.gives != NOTHING
    ensures SteadyBody(c, body) <==>
              forall w, n :: Honest(w, c, true) ==> RunSane(w, c, Walk(w, Compiled(c, body), Way, Begun(w), n), true)
  {
    hide Compiles, Compiled, Steady, Grounded, Honest, RunSane, Walk, Decides;
    if SteadyBody(c, body) {
      forall w, n: nat | Honest(w, c, true)
        ensures RunSane(w, c, Walk(w, Compiled(c, body), Way, Begun(w), n), true)
      {
        RunsSound(w, c, body, n, true);
      }
    } else {
      CompiledGrounded(c, body);
      CompiledDecides(c, body);
      var w, n := UnsteadyRuns(c, Compiled(c, body));
    }
  }
}
