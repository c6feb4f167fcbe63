/** What a compiled body reads, it has bound, at a shape that fits: exactly where a look along the edges of its
graph says so.

The compiler's own findings do not settle it.  What a loop's body binds counts as bound below the loop, though
the body may run no round at all; a loop's head may read a name that is no longer bound where the loop is, which
the loop may then bind at another shape; and an atlas that answers with nothing may return any name.  `Steady`
follows, for each name, what it can hold after each node, and with what already decided, and asks every read to fit
all of it. */
module Soundness {
  import opened Prelude
  import opened Atlas
  import opened Body
  import opened WiringSpec
  import opened Running
  import opened Structure
  import opened Meaning
  import opened Refusals

  /* ---- What a name can hold ---- */

  /** What a name holds at some point: nothing yet, or what a node of some shape answered. */
  type Status = Option<Shape>

  function Places(g: Graph): set<At> {
    {Way} + set n | n in g.nodes :: n.at
  }

  function Statuses(g: Graph): set<Status> {
    {None} + set n | n in g.nodes :: Some(n.does.gives)
  }

  /** What has been decided: the reads that were asked, and what each came to. */
  type Facts = set<When>

  function Whens(g: Graph): Facts {
    set e | e in g.edges && e.when.Some? :: e.when.value
  }

  /** What a name can hold after some node, and what is decided there. */
  datatype Point = Point(at: At, holds: Status, known: Facts)

  const OUTSET := Point(Way, None, {})

  function Points(g: Graph): set<Point> {
    set a, t, k: Facts | a in Places(g) && t in Statuses(g) && k <= Whens(g) :: Point(a, t, k)
  }

  /** What a name holds after a node. */
  function Onto(d: Deed, x: Name, was: Status): Status {
    if x != "" && d.binds == x then Some(d.gives) else was
  }

  /** Whether a way out asks what is decided to be otherwise. */
  predicate Denied(known: Facts, when: Option<When>) {
    when.Some? && When(when.value.asks, !when.value.truth) in known
  }

  function Knowing(known: Facts, when: Option<When>): Facts {
    known + if when.Some? then {when.value} else {}
  }

  /** Whether a node gives a read something else to read. */
  predicate Rebinds(d: Deed, r: Reads) {
    d.binds != "" && r.source == Bound(d.binds)
  }

  /** What is still decided after a node, of a way out taken to it. */
  function Still(known: Facts, when: Option<When>, d: Deed): Facts {
    set q | q in Knowing(known, when) && !Rebinds(d, q.asks)
  }

  function Onward(x: Name, e: Edge, d: Deed, p: Point): Point {
    Point(e.into, Onto(d, x, p.holds), Still(p.known, e.when, d))
  }

  /** Where one edge on leads from each of some points. */
  function Moves(g: Graph, x: Name, from: set<Point>): set<Point> {
    set e, p | e in g.edges && p in from && p.at == e.outOf && !Denied(p.known, e.when) && NodeAt(g.nodes, e.into).Some?
      :: Onward(x, e, NodeAt(g.nodes, e.into).value.does, p)
  }

  lemma {:induction false} MovesStay(g: Graph, x: Name, from: set<Point>)
    ensures from <= Points(g) ==> Moves(g, x, from) <= Points(g)
  {
    if from <= Points(g) {
      forall q | q in Moves(g, x, from)
        ensures q in Points(g)
      {
        var e, p :| e in g.edges && p in from && p.at == e.outOf && !Denied(p.known, e.when)
                    && NodeAt(g.nodes, e.into).Some? && q == Onward(x, e, NodeAt(g.nodes, e.into).value.does, p);
        FoundNode(g.nodes, e.into);
        assert NodeAt(g.nodes, e.into).value in g.nodes;
        assert p in Points(g);
        assert q.known <= Whens(g);
      }
    }
  }

  /** Everywhere the edges lead from some points. */
  function Spread(g: Graph, x: Name, from: set<Point>): (all: set<Point>)
    requires from <= Points(g)
    ensures from <= all && Moves(g, x, all) <= all
    decreases Points(g) - from
  {
    MovesStay(g, x, from);
    var more := from + Moves(g, x, from);
    if more == from then from else Spread(g, x, more)
  }

  /** After which nodes a name can hold what. */
  function Held(g: Graph, x: Name): set<Point> {
    Spread(g, x, {OUTSET})
  }

  /** Nothing is spread to that the edges do not lead to. */
  lemma {:induction false} SpreadLeast(g: Graph, x: Name, from: set<Point>, within: set<Point>)
    requires from <= Points(g) && from <= within && Moves(g, x, within) <= within
    ensures Spread(g, x, from) <= within
    decreases Points(g) - from
  {
    MovesStay(g, x, from);
    var more := from + Moves(g, x, from);
    assert Moves(g, x, from) <= Moves(g, x, within);
    if more != from {
      SpreadLeast(g, x, more, within);
    }
  }

  lemma {:induction false} HeldOn(g: Graph, x: Name, e: Edge, p: Point)
    requires e in g.edges && p in Held(g, x) && p.at == e.outOf && !Denied(p.known, e.when)
    requires NodeAt(g.nodes, e.into).Some?
    ensures Onward(x, e, NodeAt(g.nodes, e.into).value.does, p) in Held(g, x)
  {
    assert Onward(x, e, NodeAt(g.nodes, e.into).value.does, p) in Moves(g, x, Held(g, x));
  }

  /** What the name a read names can hold at a node, on one way out of it; what a run is started with is no name's
  to hold. */
  function Can(g: Graph, at: At, when: Option<When>, source: Source): set<Status> {
    if source.Bound? then set p | p in Held(g, source.name) && p.at == at && !Denied(p.known, when) :: p.holds
    else {None}
  }

  /** A read's name alone, at what it holds. */
  function Alone(source: Source, t: Status): map<Name, Shape> {
    if source.Bound? && t.Some? then map[source.name := t.value] else map[]
  }

  /* ---- The check ---- */

  /** Whether what a way out asks has a shape, whatever has been decided before. */
  predicate Decided(c: Scope, g: Graph, at: At, r: Reads) {
    forall t :: t in Can(g, at, None, r.source) ==> Sized(ShapeOf(c, Alone(r.source, t), r))
  }

  predicate Handed(c: Scope, g: Graph, e: Edge, d: Deed, i: nat)
    requires i < |d.takes|
  {
    var r := d.takes[i];
    forall t :: t in Can(g, e.outOf, e.when, r.source) ==> Fits(c, Alone(r.source, t), Wanted(c, d, i), r)
  }

  predicate Answerable(c: Scope, g: Graph, e: Edge, source: Source) {
    forall t :: t in Can(g, e.outOf, e.when, source) ==> t.Some? && (c.gives != "" ==> t.value == c.gives)
  }

  /** Whether what is read of names along one edge, by its guard, by the node it leads to or by the answer it
  is, is bound and fits, whatever those names can hold there. */
  predicate Clear(c: Scope, g: Graph, e: Edge) {
    && (e.when.Some? && e.when.value.asks.source.Bound? ==> Decided(c, g, e.outOf, e.when.value.asks))
    && (match NodeAt(g.nodes, e.into)
        case None => e.answers.Some? && e.answers.value.Bound? ==> Answerable(c, g, e, e.answers.value)
        case Some(node) =>
          forall i :: 0 <= i < |node.does.takes| && node.does.takes[i].source.Bound? ==> Handed(c, g, e, node.does, i))
  }

  predicate Steady(c: Scope, g: Graph) {
    forall e :: e in g.edges ==> Clear(c, g, e)
  }

  predicate SteadyBody(c: Scope, body: seq<Stmt>) {
    Steady(c, Compiled(c, body))
  }

  /* ---- Worlds that are honest, and runs that are sane ---- */

  /** A value of a shape, which may be missing unless the world is strict; nothing at all is the only value of
  no shape. */
  predicate HasShape(v: Value, shape: Shape, strict: bool) {
    if shape == "" then v.Missing? else if v.Missing? then !strict else v.shape == shape
  }

  /** Nodes answer with the shape they declare, fields hold the shape their model says, a value has every field its
  model declares, and a run is started with what the atlas takes. */
  ghost predicate Honest(w: World, c: Scope, strict: bool) {
    && (forall before, d, args :: HasShape(w.answer(before, d, args), d.gives, strict))
    && (forall v: Value, f :: v.Value? && v.shape in c.own && f in c.own[v.shape] && c.own[v.shape][f] != ""
          ==> HasShape(w.part(v, f), c.own[v.shape][f], strict))
    && (forall v: Value, x :: v.Value? && v.shape in c.fields && x in c.fields[v.shape]
          ==> w.declared(v, x) == Some(c.fields[v.shape][x].shape))
    && HasShape(w.input, c.takes, strict) && HasShape(w.config, c.config, strict)
  }

  /** Whether a value is of a shape, or has every field without which one of that shape cannot be built, as it was
  declared there. */
  predicate Serves(w: World, c: Scope, v: Value, wanted: Shape)
    requires v.Value?
  {
    v.shape == wanted
    || (v.shape in c.fields && wanted in c.fields
        && forall x :: x in c.fields[wanted] && c.fields[wanted][x].required ==>
             w.declared(v, x) == Some(c.fields[wanted][x].shape))
  }

  /** Whether what a node was handed is what it takes. */
  predicate Suits(w: World, c: Scope, seen: Seen, wanted: Shape, strict: bool) {
    seen.Holds?
    && (wanted == ONE_AGENT || wanted == THE_AGENTS
        || if seen.value.Missing? then !strict else Serves(w, c, seen.value, wanted))
  }

  /** A branch read something bound; a node was handed what it takes. */
  predicate Sane(w: World, c: Scope, event: Event, strict: bool) {
    match event
    case Asked(_, seen) => seen.Holds? && (strict ==> seen.value.Value?)
    case Did(d, args, _) =>
      |args| == |d.takes| && forall i :: 0 <= i < |args| ==> Suits(w, c, args[i], Wanted(c, d, i), strict)
  }

  predicate AllSane(w: World, c: Scope, trace: seq<Event>, strict: bool) {
    forall i :: 0 <= i < |trace| ==> Sane(w, c, trace[i], strict)
  }

  /** Whether a name answered with is bound, and the answer what the atlas answers with, if it does. */
  predicate Answers(c: Scope, answers: Option<Source>, env: Env, strict: bool) {
    && (answers.Some? ==> answers.value in env)
    && (c.gives != "" ==> answers.Some? && HasShape(env[answers.value], c.gives, strict))
  }

  predicate RunSane(w: World, c: Scope, r: Run, strict: bool) {
    AllSane(w, c, r.s.trace, strict) && (r.Ended? ==> Answers(c, r.answers, r.s.env, strict))
  }

  /* ---- Every run of what is steady is sane ---- */

  predicate Started(c: Scope, env: Env, strict: bool) {
    && Agents in env && Input in env && Config in env
    && HasShape(env[Input], c.takes, strict) && HasShape(env[Config], c.config, strict)
  }

  predicate Matches(env: Env, x: Name, t: Status, strict: bool) {
    match t
    case None => Bound(x) !in env
    case Some(shape) => Bound(x) in env && HasShape(env[Bound(x)], shape, strict)
  }

  /** Whether what is decided is what reads come to. */
  predicate Recalls(w: World, env: Env, known: Facts) {
    forall q :: q in known ==> Truth(w, Look(w, env, q.asks)) == q.truth
  }

  /** A run at a node: each name holds something it can hold there, with what the run has decided. */
  ghost predicate Follows(w: World, c: Scope, g: Graph, at: At, env: Env, holds: Name -> Status, known: Facts,
                          strict: bool) {
    && Started(c, env, strict) && Recalls(w, env, known)
    && forall x :: Point(at, holds(x), known) in Held(g, x) && Matches(env, x, holds(x), strict)
  }

  /** What a read with a shape comes to. */
  lemma {:induction false} LookHolds(w: World, c: Scope, env: Env, r: Reads, t: Status, strict: bool)
    requires Honest(w, c, strict) && Started(c, env, strict)
    requires r.source.Bound? ==> Matches(env, r.source.name, t, strict)
    requires Sized(ShapeOf(c, Alone(r.source, t), r))
    ensures Look(w, env, r).Holds? && HasShape(Look(w, env, r).value, ShapeOf(c, Alone(r.source, t), r).value, strict)
  {
  }

  lemma {:induction false} FitSuits(w: World, c: Scope, env: Env, r: Reads, t: Status, wanted: Shape, strict: bool)
    requires Honest(w, c, strict) && Started(c, env, strict)
    requires r.source.Bound? ==> Matches(env, r.source.name, t, strict)
    requires Fits(c, Alone(r.source, t), wanted, r)
    ensures Suits(w, c, Look(w, env, r), wanted, strict)
  {
    if wanted != ONE_AGENT && wanted != THE_AGENTS {
      LookHolds(w, c, env, r, t, strict);
    }
  }

  /** What the compiler has settled of a graph, whatever is bound. */
  ghost predicate Grounded(c: Scope, g: Graph) {
    && (forall i :: 0 <= i < |g.nodes| ==> Allowed(c, g.nodes[i]))
    && (forall e :: e in g.edges ==> Sound(c, g.nodes, e))
  }

  lemma {:induction false} AskSane(w: World, c: Scope, g: Graph, e: Edge, s: State, holds: Name -> Status, known: Facts,
                                   strict: bool)
    requires Honest(w, c, strict) && Grounded(c, g) && Steady(c, g) && e in g.edges
    requires Follows(w, c, g, e.outOf, s.env, holds, known, strict) && AllSane(w, c, s.trace, strict)
    ensures AllSane(w, c, Decide(w, e.when, s).trace, strict)
  {
    hide Honest, ShapeOf, HasShape, Held, NodeAt, Advances;
    if e.when.Some? {
      var r := e.when.value.asks;
      var t := if r.source.Bound? then holds(r.source.name) else None;
      assert Sound(c, g.nodes, e) && Clear(c, g, e);
      if r.source.Bound? {
        assert Decided(c, g, e.outOf, r);
        assert Point(e.outOf, t, known) in Held(g, r.source.name);
        assert t in Can(g, e.outOf, None, r.source);
      }
      LookHolds(w, c, s.env, r, t, strict);
      assert Sane(w, c, Asked(r, Look(w, s.env, r)), strict) by {
        SizedIsThere(Look(w, s.env, r).value, ShapeOf(c, Alone(r.source, t), r).value, strict);
      }
    }
  }

  lemma {:induction false} SizedIsThere(v: Value, shape: Shape, strict: bool)
    requires HasShape(v, shape, strict) && shape != ""
    ensures strict ==> v.Value?
  {
  }

  lemma {:induction false} DoSane(w: World, c: Scope, g: Graph, e: Edge, s: State, holds: Name -> Status, known: Facts,
                                  strict: bool)
    requires Honest(w, c, strict) && Grounded(c, g) && Steady(c, g) && e in g.edges && NodeAt(g.nodes, e.into).Some?
    requires Follows(w, c, g, e.outOf, s.env, holds, known, strict) && AllSane(w, c, s.trace, strict)
    requires !Denied(known, e.when)
    ensures AllSane(w, c, Do(w, NodeAt(g.nodes, e.into).value.does, s).trace, strict)
  {
    hide Honest, ShapeOf, HasShape, Held, Fits, Look, Same, Sound;
    FoundNode(g.nodes, e.into);
    var node := NodeAt(g.nodes, e.into).value;
    var d := node.does;
    var args := Looks(w, s.env, d.takes);
    assert Clear(c, g, e);
    forall i | 0 <= i < |args|
      ensures Suits(w, c, args[i], Wanted(c, d, i), strict)
    {
      var r := d.takes[i];
      var t := if r.source.Bound? then holds(r.source.name) else None;
      if r.source.Bound? {
        assert Handed(c, g, e, d, i);
        assert Point(e.outOf, t, known) in Held(g, r.source.name);
        assert t in Can(g, e.outOf, e.when, r.source);
      } else {
        assert Allowed(c, node);
        assert Placed(c, Wanted(c, d, i), r);
      }
      FitSuits(w, c, s.env, r, t, Wanted(c, d, i), strict);
    }
  }

  /** After a node each name holds something it can hold there. */
  lemma {:induction false} DoFollows(w: World, c: Scope, g: Graph, e: Edge, s: State, holds: Name -> Status,
                                     known: Facts, strict: bool)
    returns (now: Name -> Status)
    requires Honest(w, c, strict) && e in g.edges && NodeAt(g.nodes, e.into).Some? && !Denied(known, e.when)
    requires Follows(w, c, g, e.outOf, s.env, holds, known, strict) && Holding(w, s.env, e.when)
    ensures
      var d := NodeAt(g.nodes, e.into).value.does;
      Follows(w, c, g, e.into, Do(w, d, s).env, now, Still(known, e.when, d), strict)
  {
    hide Held, Look, Recalls, Still;
    var d := NodeAt(g.nodes, e.into).value.does;
    now := x => Onto(d, x, holds(x));
    var env := Do(w, d, s).env;
    forall x
      ensures Point(e.into, now(x), Still(known, e.when, d)) in Held(g, x) && Matches(env, x, now(x), strict)
    {
      HeldOn(g, x, e, Point(e.outOf, holds(x), known));
      assert Matches(s.env, x, holds(x), strict);
    }
    DoRecalls(w, d, s, e.when, known);
  }

  /** What a node leaves decided still reads as it did. */
  lemma {:induction false} DoRecalls(w: World, d: Deed, s: State, when: Option<When>, known: Facts)
    requires Recalls(w, s.env, known) && Holding(w, s.env, when)
    ensures Recalls(w, Do(w, d, s).env, Still(known, when, d))
  {
    forall q | q in Still(known, when, d)
      ensures Truth(w, Look(w, Do(w, d, s).env, q.asks)) == q.truth
    {
      assert Look(w, Do(w, d, s).env, q.asks) == Look(w, s.env, q.asks);
    }
  }

  lemma {:induction false} NotDenied(w: World, env: Env, when: Option<When>, known: Facts)
    requires Recalls(w, env, known) && Holding(w, env, when)
    ensures !Denied(known, when)
  {
  }

  lemma {:induction false} TakenIsThere(w: World, env: Env, edges: seq<Edge>, at: At)
    requires Taken(w, env, OutOf(edges, at)).Some?
    ensures Taken(w, env, OutOf(edges, at)).value in edges && Taken(w, env, OutOf(edges, at)).value.outOf == at
    ensures Holding(w, env, Taken(w, env, OutOf(edges, at)).value.when)
  {
    LeavingAmong(edges, at, true);
    LeavingAmong(edges, at, false);
    TakenAmong(w, env, OutOf(edges, at));
  }

  lemma {:induction false} TakenAmong(w: World, env: Env, edges: seq<Edge>)
    ensures Taken(w, env, edges).Some? ==>
              Taken(w, env, edges).value in edges && Holding(w, env, Taken(w, env, edges).value.when)
  {
    if edges != [] {
      TakenAmong(w, env, edges[1..]);
    }
  }

  lemma {:induction false} LeavingAmong(edges: seq<Edge>, at: At, guarded: bool)
    ensures forall e :: e in Leaving(edges, at, guarded) ==> e in edges && e.outOf == at
  {
    if edges != [] {
      LeavingAmong(edges[1..], at, guarded);
    }
  }

  lemma {:induction false} EndSane(w: World, c: Scope, g: Graph, e: Edge, s: State, holds: Name -> Status, known: Facts,
                                   strict: bool)
    requires Grounded(c, g) && Steady(c, g) && e in g.edges && NodeAt(g.nodes, e.into).None? && c.gives != NOTHING
    requires Follows(w, c, g, e.outOf, s.env, holds, known, strict) && !Denied(known, e.when)
    ensures Answers(c, e.answers, s.env, strict)
  {
    hide Held, Advances;
    assert Clear(c, g, e) && Sound(c, g.nodes, e);
    FoundNode(g.nodes, e.into);
    if e.answers.Some? && e.answers.value.Bound? {
      var t := holds(e.answers.value.name);
      assert t in Can(g, e.outOf, e.when, e.answers.value) by {
        assert Point(e.outOf, t, known) in Held(g, e.answers.value.name);
      }
      assert Matches(s.env, e.answers.value.name, t, strict);
    }
  }

  lemma {:induction false} WalkSane(w: World, c: Scope, g: Graph, at: At, s: State, n: nat, holds: Name -> Status,
                                    known: Facts, strict: bool)
    requires Honest(w, c, strict) && Grounded(c, g) && Steady(c, g) && c.gives != NOTHING
    requires Follows(w, c, g, at, s.env, holds, known, strict) && AllSane(w, c, s.trace, strict)
    requires !Walk(w, g, at, s, n).Astray?
    ensures RunSane(w, c, Walk(w, g, at, s, n), strict)
    decreases n
  {
    hide Honest, Grounded, Steady, Follows, Sane, Do, Look, OutOf, Taken, Answers;
    TakenIsThere(w, s.env, g.edges, at);
    var e := Taken(w, s.env, OutOf(g.edges, at)).value;
    var s1 := Decide(w, e.when, s);
    AskSane(w, c, g, e, s, holds, known, strict);
    assert !Denied(known, e.when) by {
      RecallsOf(w, c, g, at, s.env, holds, known, strict);
      NotDenied(w, s.env, e.when, known);
    }
    var node := NodeAt(g.nodes, e.into);
    FoundNode(g.nodes, e.into);
    if node.None? {
      EndSane(w, c, g, e, s1, holds, known, strict);
    } else if n > 0 {
      DoSane(w, c, g, e, s1, holds, known, strict);
      var now := DoFollows(w, c, g, e, s1, holds, known, strict);
      WalkSane(w, c, g, node.value.at, Do(w, node.value.does, s1), n - 1, now, Still(known, e.when, node.value.does),
               strict);
    }
  }

  lemma {:induction false} RecallsOf(w: World, c: Scope, g: Graph, at: At, env: Env, holds: Name -> Status,
                                     known: Facts, strict: bool)
    requires Follows(w, c, g, at, env, holds, known, strict)
    ensures Recalls(w, env, known)
  {
  }

  lemma {:induction false} CompiledGrounded(c: Scope, body: seq<Stmt>)
    requires Compiles(c, body)
    ensures Grounded(c, Compiled(c, body))
  {
    hide Allowed, Sound;
    CompiledIsProper(c, body);
  }

  /** In every run of a compiled, steady body, every branch reads something the path taken has bound, every node
  is handed what it takes, and what is answered is bound and of the atlas's shape; and where nothing that has a
  shape is ever missing, nothing read is. */
  lemma {:induction false} RunsSound(w: World, c: Scope, body: seq<Stmt>, n: nat, strict: bool)
    requires Compiles(c, body) && SteadyBody(c, body) && Honest(w, c, strict) && c.gives != NOTHING
    ensures RunSane(w, c, Walk(w, Compiled(c, body), Way, Begun(w), n), strict)
  {
    hide Walk, Grounded, Steady, Compiles, Compiled, Executed;
    var g := Compiled(c, body);
    CompiledGrounded(c, body);
    CompilingPreservesMeaning(w, c, body, n);
    var holds := (x: Name) => None;
    BeginsFollowing(w, c, g, holds, strict);
    WalkSane(w, c, g, Way, Begun(w), n, holds, {}, strict);
  }

  lemma {:induction false} BeginsFollowing(w: World, c: Scope, g: Graph, holds: Name -> Status, strict: bool)
    requires Honest(w, c, strict) && forall x :: holds(x) == None
    ensures Follows(w, c, g, Way, Begun(w).env, holds, {}, strict) && AllSane(w, c, Begun(w).trace, strict)
  {
    forall x
      ensures Point(Way, holds(x), {}) in Held(g, x) && Matches(Begun(w).env, x, holds(x), strict)
    {
    }
  }
}
