/** The walk over one body as it is done in place: a `Wiring` appends to its nodes and edges and
moves what is bound, and each of its methods leaves it exactly as the function of the same step
says. */
module Compiling {
  import opened Prelude
  import opened Atlas
  import opened Body
  import opened WiringSpec

  class Wiring {
    const scope: Scope
    var nodes: seq<Node>
    var edges: seq<Edge>
    var found: seq<Code>
    var bound: map<Name, Shape>
    var seen: map<Name, nat>
    var spoilt: set<Name>

    constructor (scope: Scope)
      ensures this.scope == scope && State() == START
    {
      this.scope := scope;
      nodes, edges, found, bound, seen, spoilt := [], [], [], map[], map[], {};
    }

    function State(): Wired
      reads this
    {
      Wired(nodes, edges, found, bound, seen, spoilt)
    }

    /** The whole of one body, and the end of whatever it leaves open. */
    method Walk(body: seq<Stmt>)
      requires State() == START
      modifies this
      ensures State() == Walked(scope, body)
    {
      var loose := WalkBlock(body, [End(Way, None)]);
      if loose != [] {
        if scope.gives != "" {
          Find(ShapeMismatch);
        } else {
          Join(loose, Way, None);
        }
      }
      if nodes == [] && found == [] {
        Find(UnstaticBody);
      }
    }

    method Find(code: Code)
      modifies this
      ensures State() == Found(old(State()), code)
    {
      found := found + [code];
    }

    /** One statement refused, and the names it would have bound. */
    method RefuseStmt(st: Stmt)
      modifies this
      ensures State() == Refuse(old(State()), st)
    {
      Find(UnstaticBody);
      spoilt := spoilt + AssignedIn(st);
    }

    /** One edge for every loose end. */
    method Join(loose: Loose, into: At, answers: Option<Source>)
      modifies this
      ensures State() == old(State()).(edges := old(edges) + Joins(loose, into, answers))
    {
      for i := 0 to |loose|
        invariant State() == old(State()).(edges := old(edges) + Joins(loose, into, answers)[..i])
      {
        edges := edges + [Edge(loose[i].at, into, loose[i].when, answers)];
        assert Joins(loose, into, answers)[..i + 1] == Joins(loose, into, answers)[..i] + [edges[|edges| - 1]];
      }
      assert Joins(loose, into, answers)[..|loose|] == Joins(loose, into, answers);
    }

    method WalkBlock(stmts: seq<Stmt>, loose: Loose) returns (open: Loose)
      modifies this
      ensures (State(), open) == Block(scope, old(State()), stmts, true, loose)
      decreases stmts, 1
    {
      open := loose;
      var i := 0;
      while i < |stmts|
        invariant i <= |stmts|
        invariant Block(scope, State(), stmts[i..], i == 0, open) == Block(scope, old(State()), stmts, true, loose)
      {
        assert stmts[i..][0] == stmts[i] && stmts[i..][1..] == stmts[i + 1..];
        if !Skipped(stmts[i], i == 0) {
          if open == [] {
            RefuseStmt(stmts[i]);
            return [];
          }
          open := WalkOne(stmts[i], open);
        }
        i := i + 1;
      }
    }

    method WalkOne(st: Stmt, loose: Loose) returns (open: Loose)
      modifies this
      ensures (State(), open) == One(scope, old(State()), st, loose)
      decreases st, 1
    {
      open := loose;
      match st
      case Call(_, _, _, _) => open := WalkCall(st, loose);
      case If(_, _, _) => open := WalkBranch(st, loose);
      case While(_, _, _) => open := WalkLoop(st, loose);
      case Return(value) =>
        WalkReturn(value, loose);
        open := [];
      case _ => RefuseStmt(st);
    }

    method WalkReturn(value: Option<Expr>, loose: Loose)
      modifies this
      ensures State() == Returned(scope, old(State()), value, loose)
    {
      var answers := AnswerOf(scope, value);
      if answers.None? {
        Find(UnstaticBody);
        return;
      }
      var given := NOTHING;
      if answers.value.Some? {
        var shape := ShapeOf(scope, bound, Reads(answers.value.value, ""));
        given := if shape.None? || shape.value == "" then NOTHING else shape.value;
      }
      if given != (if scope.gives == "" then NOTHING else scope.gives) {
        Find(ShapeMismatch);
      }
      Join(loose, Way, answers.value);
    }

    /** What a branch reads: the loose ends are gone through one by one, up to the first that
    may not be branched on. */
    method Branching(test: Test, loose: Loose) returns (read: Option<Reads>)
      modifies this
      ensures
        match Branched(scope, old(State()), test, loose)
        case Granted(r) => read == Some(r) && State() == old(State())
        case Refused(code) => read == None && State() == Found(old(State()), code)
        case Again => read == None && State() == old(State())
    {
      read := ReadOf(scope, test.said);
      if read.None? {
        Find(UnstaticBody);
        return;
      }
      var shape := ShapeOf(scope, bound, read.value);
      if shape.None? && Spoilt(read.value, Quiet(State())) {
        return None;
      }
      if shape.None? || shape.value == "" {
        Find(if shape.None? then UnboundRead else ShapeMismatch);
        return None;
      }
      var i := 0;
      while i < |loose|
        invariant i <= |loose|
        invariant State() == old(State())
        invariant Unbranched(State(), loose[i..]) == Unbranched(State(), loose)
      {
        assert loose[i..][0] == loose[i] && loose[i..][1..] == loose[i + 1..];
        var above := NodeAt(nodes, loose[i].at);
        if loose[i].when.Some? || above.None? || above.value.does.kind.Mind? {
          Find(if loose[i].when.Some? || above.None? then UnstaticBody else BranchingMind);
          return None;
        }
        i := i + 1;
      }
    }

    method WalkBranch(st: Stmt, loose: Loose) returns (open: Loose)
      requires st.If?
      modifies this
      ensures (State(), open) == Branch(scope, old(State()), st, loose)
      decreases st, 0
    {
      var read := Branching(st.test, loose);
      if read.None? {
        return loose;
      }
      var truth := !st.test.inverted;
      var was := bound;
      var held := WalkBlock(st.body, Guarded(loose, When(read.value, truth)));
      var then_ := bound;
      bound := was;
      var other := WalkBlock(st.orelse, Guarded(loose, When(read.value, !truth)));
      bound := Both(then_, bound);
      open := held + other;
    }

    method WalkLoop(st: Stmt, loose: Loose) returns (open: Loose)
      requires st.While?
      modifies this
      ensures (State(), open) == Loop(scope, old(State()), st, loose)
      decreases st, 0
    {
      if st.orelse != [] || |loose| != 1 {
        RefuseStmt(st);
        return loose;
      }
      var read := Branching(st.test, loose);
      if read.None? {
        return loose;
      }
      var head := loose[0].at;
      var above := NodeAt(nodes, head);
      if above.None? || Bound(above.value.does.binds) != read.value.source {
        RefuseStmt(st);
        return loose;
      }
      var truth := !st.test.inverted;
      var inside := WalkBlock(st.body, [End(head, Some(When(read.value, truth)))]);
      var twice := EndsTwice(above.value.does, inside);
      if twice {
        Find(TwiceRound);
      }
      Join(inside, head, None);
      if Endless(st, above.value.does) {
        Find(DeadLoop);
      }
      open := [End(head, Some(When(read.value, !truth)))];
    }

    /** Whether any end the body left open is out of the node the loop reads again. */
    method EndsTwice(above: Deed, inside: Loose) returns (twice: bool)
      ensures twice == Twice(State(), above, inside)
    {
      for i := 0 to |inside|
        invariant forall k :: 0 <= k < i ==> !EndsWith(State(), above, inside[k])
      {
        if EndsWith(State(), above, inside[i]) {
          return true;
        }
      }
      return false;
    }

    method WalkCall(st: Stmt, loose: Loose) returns (open: Loose)
      requires st.Call?
      modifies this
      ensures (State(), open) == Called(scope, old(State()), st, loose)
    {
      open := loose;
      var target := Target(st.targets);
      var binds := "";
      if target.None? {
        RefuseStmt(st);
      } else {
        binds := target.value;
      }
      if st.callee.None? || !st.plain || binds in scope.names || st.callee.value !in scope.decls {
        Find(UnstaticBody);
        SpoilName(binds);
        return;
      }
      var called := st.callee.value;
      if scope.decls[called].None? {
        Find(Undeclared);
        SpoilName(binds);
        return;
      }
      var d := scope.decls[called].value;
      var read := Arguments(scope, bound, Quiet(State()), st.args, d.takes);
      if !read.Granted? {
        if read.Refused? {
          Find(read.code);
        }
        SpoilName(binds);
        return;
      }
      open := AddNode(called, d, read.value, binds, loose);
    }

    method SpoilName(binds: Name)
      modifies this
      ensures State() == Spoil(old(State()), binds)
    {
      if binds != "" {
        spoilt := spoilt + {binds};
      }
    }

    /** One more node, its answer bound, and every loose end wired to it. */
    method AddNode(called: Name, d: Declared, takes: seq<Reads>, binds: Name, loose: Loose) returns (open: Loose)
      modifies this
      ensures (State(), open) == Noded(old(State()), called, d, takes, binds, loose)
    {
      if !d.rerun && d.gives != "" {
        Find(SkippedAnswer);
      }
      var nth := (if called in seen then seen[called] else 0) + 1;
      seen := seen[called := nth];
      nodes := nodes + [Node(At(called, nth), Deed(d.kind, called, if d.under != "" then d.under else called,
                                                   takes, binds, d.gives, d.rerun, d.under))];
      if binds != "" {
        Bind(binds, d.gives);
      }
      Join(loose, At(called, nth), None);
      open := [End(At(called, nth), None)];
    }

    /** One name bound to what a node answers with, once and for the whole body. */
    method Bind(binds: Name, gives: Shape)
      modifies this
      ensures State() ==
        if binds in old(bound) && old(bound)[binds] != gives then Found(old(State()), ShapeMismatch)
        else old(State()).(bound := old(bound)[binds := gives])
    {
      if binds in bound && bound[binds] != gives {
        Find(ShapeMismatch);
      } else {
        bound := bound[binds := gives];
      }
    }
  }
}
