/** One atlas's body walked into nodes and edges: what each statement adds, as functions on
what the walk has so far, and the class that does it in place. */
module WiringSpec {
  import opened Prelude
  import opened Atlas
  import opened Body

  datatype Code =
    | UnstaticBody | ShapeMismatch | UnboundRead | BranchingMind | SkippedAnswer
    | TwiceRound | DeadLoop | UnagentedNode | UnknownAgent | Undeclared

  /** What something read comes to: where it comes from, or why it is refused, or that it is refused for what has
  been found already, and nothing more is said. */
  datatype Reading<+T> = Granted(value: T) | Refused(code: Code) | Again

  /** A way out of a node that nothing is wired to yet. */
  datatype End = End(at: At, when: Option<When>)

  type Loose = seq<End>

  datatype Wired = Wired(
    nodes: seq<Node>,
    edges: seq<Edge>,
    found: seq<Code>,
    bound: map<Name, Shape>,
    seen: map<Name, nat>,
    spoilt: set<Name>)

  const START := Wired([], [], [], map[], map[], {})

  function Found(s: Wired, code: Code): Wired {
    s.(found := s.found + [code])
  }

  /** One statement refused, and with it every name it would have bound. */
  function Refuse(s: Wired, st: Stmt): Wired {
    Found(s, UnstaticBody).(spoilt := s.spoilt + AssignedIn(st))
  }

  /** The name a call that was refused would have bound. */
  function Spoil(s: Wired, binds: Name): Wired {
    if binds == "" then s else s.(spoilt := s.spoilt + {binds})
  }

  /** The names nothing is known of, reading which is no second mistake: there are none before the first. */
  function Quiet(s: Wired): set<Name> {
    if s.found == [] then {} else s.spoilt
  }

  predicate Spoilt(r: Reads, quiet: set<Name>) {
    r.source.Bound? && r.source.name in quiet
  }

  /** The edges from every loose end to one place. */
  function Joins(l: Loose, into: At, answers: Option<Source>): (edges: seq<Edge>)
    ensures |edges| == |l|
    ensures forall i :: 0 <= i < |l| ==> edges[i] == Edge(l[i].at, into, l[i].when, answers)
  {
    seq(|l|, i requires 0 <= i < |l| => Edge(l[i].at, into, l[i].when, answers))
  }

  /** The same ends, each leaving by one reading of what the branch asks. */
  function Guarded(l: Loose, when: When): (g: Loose)
    ensures |g| == |l|
    ensures forall i :: 0 <= i < |l| ==> g[i] == End(l[i].at, Some(when))
  {
    seq(|l|, i requires 0 <= i < |l| => End(l[i].at, Some(when)))
  }

  /** A statement with nothing in it: `pass`, and the docstring a block opens with. */
  predicate Skipped(st: Stmt, first: bool) {
    st.Pass? || (st.Docstring? && first)
  }

  /** One run of statements, each wired to whatever the last one left open. */
  function Block(c: Scope, s: Wired, stmts: seq<Stmt>, first: bool, l: Loose): (r: (Wired, Loose))
    ensures s.found <= r.0.found && s.nodes <= r.0.nodes && s.edges <= r.0.edges
    decreases stmts
  {
    if stmts == [] then (s, l)
    else if Skipped(stmts[0], first) then Block(c, s, stmts[1..], false, l)
    else if l == [] then (Refuse(s, stmts[0]), [])
    else
      var (s1, l1) := One(c, s, stmts[0], l);
      Block(c, s1, stmts[1..], false, l1)
  }

  function One(c: Scope, s: Wired, st: Stmt, l: Loose): (r: (Wired, Loose))
    ensures s.found <= r.0.found && s.nodes <= r.0.nodes && s.edges <= r.0.edges
    decreases st
  {
    match st
    case Call(_, _, _, _) => Called(c, s, st, l)
    case If(_, _, _) => Branch(c, s, st, l)
    case While(_, _, _) => Loop(c, s, st, l)
    case Return(value) => (Returned(c, s, value, l), [])
    case _ => (Refuse(s, st), l)
  }

  function Returned(c: Scope, s: Wired, value: Option<Expr>, l: Loose): (r: Wired)
    ensures s.found <= r.found && s.nodes <= r.nodes && s.edges <= r.edges
  {
    match AnswerOf(c, value)
    case None => Found(s, UnstaticBody)
    case Some(answers) =>
      var given :=
        if answers.None? then NOTHING
        else
          var shape := ShapeOf(c, s.bound, Reads(answers.value, ""));
          if shape.None? || shape.value == "" then NOTHING else shape.value;
      var s1 := if given != (if c.gives == "" then NOTHING else c.gives) then Found(s, ShapeMismatch) else s;
      s1.(edges := s1.edges + Joins(l, Way, answers))
  }

  /** What stops a branch on the loose ends arriving at it, if anything does. */
  function Unbranched(s: Wired, l: Loose): Option<Code> {
    if l == [] then None
    else if l[0].when.Some? then Some(UnstaticBody)
    else
      match NodeAt(s.nodes, l[0].at)
      case None => Some(UnstaticBody)
      case Some(node) =>
        if node.does.kind.Mind? then Some(BranchingMind) else Unbranched(s, l[1..])
  }

  /** What a branch reads, or why it is refused. */
  function Branched(c: Scope, s: Wired, test: Test, l: Loose): (r: Reading<Reads>)
    ensures r.Again? ==> s.found != []
  {
    match ReadOf(c, test.said)
    case None => Refused(UnstaticBody)
    case Some(read) =>
      match ShapeOf(c, s.bound, read)
      case None => if Spoilt(read, Quiet(s)) then Again else Refused(UnboundRead)
      case Some(shape) =>
        if shape == "" then Refused(ShapeMismatch)
        else
          match Unbranched(s, l)
          case Some(code) => Refused(code)
          case None => Granted(read)
  }

  /** Below a branch, only what both arms bound, and bound the same. */
  function Both(then_: map<Name, Shape>, else_: map<Name, Shape>): map<Name, Shape> {
    then_ - set x | x in then_ && !(x in else_ && else_[x] == then_[x])
  }

  function Branch(c: Scope, s: Wired, st: Stmt, l: Loose): (r: (Wired, Loose))
    requires st.If?
    ensures s.found <= r.0.found && s.nodes <= r.0.nodes && s.edges <= r.0.edges
    decreases st, 0
  {
    match Branched(c, s, st.test, l)
    case Granted(read) =>
      var truth := !st.test.inverted;
      var (s1, held) := Block(c, s, st.body, true, Guarded(l, When(read, truth)));
      var (s2, other) := Block(c, s1.(bound := s.bound), st.orelse, true, Guarded(l, When(read, !truth)));
      (s2.(bound := Both(s1.bound, s2.bound)), held + other)
    case Refused(code) => (Found(s, code), l)
    case Again => (s, l)
  }

  /** Whether a loop's body ends with the very node the loop reads again. */
  predicate Twice(s: Wired, above: Deed, inside: Loose) {
    exists i :: 0 <= i < |inside| && EndsWith(s, above, inside[i])
  }

  predicate EndsWith(s: Wired, above: Deed, e: End) {
    var last := NodeAt(s.nodes, e.at);
    last.Some? && last.value.does.calls == above.calls
  }

  /** Whether nothing a loop assigns is something its head reads. */
  predicate Endless(st: Stmt, head: Deed) {
    forall x :: x in AssignedIn(st) ==> forall i :: 0 <= i < |head.takes| ==> head.takes[i].source != Bound(x)
  }

  function Loop(c: Scope, s: Wired, st: Stmt, l: Loose): (r: (Wired, Loose))
    requires st.While?
    ensures s.found <= r.0.found && s.nodes <= r.0.nodes && s.edges <= r.0.edges
    decreases st, 0
  {
    if st.orelse != [] || |l| != 1 then (Refuse(s, st), l)
    else
      match Branched(c, s, st.test, l)
      case Granted(read) =>
        var head := l[0].at;
        var above := NodeAt(s.nodes, head);
        if above.None? || Bound(above.value.does.binds) != read.source then (Refuse(s, st), l)
        else
          var truth := !st.test.inverted;
          var (s1, inside) := Block(c, s, st.body, true, [End(head, Some(When(read, truth)))]);
          var s2 := if Twice(s1, above.value.does, inside) then Found(s1, TwiceRound) else s1;
          var s3 := s2.(edges := s2.edges + Joins(inside, head, None));
          var s4 := if Endless(st, above.value.does) then Found(s3, DeadLoop) else s3;
          (s4, [End(head, Some(When(read, !truth)))])
      case Refused(code) => (Found(s, code), l)
      case Again => (s, l)
  }

  /** Why the arguments of one call do not fit what it calls, if they do not, and where each
  comes from if they do. */
  function Arguments(c: Scope, bound: map<Name, Shape>, quiet: set<Name>, args: seq<Expr>, takes: seq<Param>)
    : (r: Reading<seq<Reads>>)
    ensures r.Again? ==> quiet != {}
    ensures r.Granted? ==> AllReads(c, args) == Some(r.value) && |args| == |takes| == |r.value|
    ensures r.Granted? ==> forall i :: 0 <= i < |takes| ==> Fits(c, bound, takes[i].shape, r.value[i])
  {
    if |args| != |takes| then Refused(ShapeMismatch)
    else if args == [] then Granted([])
    else
      match ReadOf(c, args[0])
      case None => Refused(UnstaticBody)
      case Some(read) =>
        if !Fits(c, bound, takes[0].shape, read) then
          if takes[0].shape == ONE_AGENT && read.source == Agents && read.field != "" then Refused(UnknownAgent)
          else if takes[0].shape in [ONE_AGENT, THE_AGENTS] then Refused(UnagentedNode)
          else if ShapeOf(c, bound, read).Some? then Refused(ShapeMismatch)
          else if Spoilt(read, quiet) then Again
          else Refused(UnboundRead)
        else
          match Arguments(c, bound, quiet, args[1..], takes[1..])
          case Granted(rest) => Granted([read] + rest)
          case refused => refused
  }

  function Called(c: Scope, s0: Wired, st: Stmt, l: Loose): (r: (Wired, Loose))
    requires st.Call?
    ensures s0.found <= r.0.found && s0.nodes <= r.0.nodes && s0.edges <= r.0.edges
  {
    var target := Target(st.targets);
    var s := if target.None? then Refuse(s0, st) else s0;
    var binds := if target.None? then "" else target.value;
    if st.callee.None? || !st.plain || binds in c.names || st.callee.value !in c.decls then
      (Spoil(Found(s, UnstaticBody), binds), l)
    else if c.decls[st.callee.value].None? then (Spoil(Found(s, Undeclared), binds), l)
    else
      var d := c.decls[st.callee.value].value;
      match Arguments(c, s.bound, Quiet(s), st.args, d.takes)
      case Refused(code) => (Spoil(Found(s, code), binds), l)
      case Again => (Spoil(s, binds), l)
      case Granted(takes) => Noded(s, st.callee.value, d, takes, binds, l)
  }

  /** One more node, bound and wired to whatever was open. */
  function Noded(s: Wired, called: Name, d: Declared, takes: seq<Reads>, binds: Name, l: Loose)
    : (r: (Wired, Loose))
    ensures s.found <= r.0.found && s.nodes <= r.0.nodes && s.edges <= r.0.edges
  {
    var s1 := if !d.rerun && d.gives != "" then Found(s, SkippedAnswer) else s;
    var nth := (if called in s1.seen then s1.seen[called] else 0) + 1;
    var at := At(called, nth);
    var node := Node(at, Deed(d.kind, called, if d.under != "" then d.under else called, takes, binds,
                              d.gives, d.rerun, d.under));
    var s2 := s1.(seen := s1.seen[called := nth], nodes := s1.nodes + [node]);
    var s3 :=
      if binds == "" then s2
      else if binds in s2.bound && s2.bound[binds] != d.gives then Found(s2, ShapeMismatch)
      else s2.(bound := s2.bound[binds := d.gives]);
    (s3.(edges := s3.edges + Joins(l, at, None)), [End(at, None)])
  }

  /** The whole of one atlas's body, and the end of whatever it leaves open. */
  function Walked(c: Scope, body: seq<Stmt>): (s: Wired) {
    var (s1, l) := Block(c, START, body, true, [End(Way, None)]);
    var s2 :=
      if l == [] then s1
      else if c.gives != "" then Found(s1, ShapeMismatch)
      else s1.(edges := s1.edges + Joins(l, Way, None));
    if s2.nodes == [] && s2.found == [] then Found(s2, UnstaticBody) else s2
  }

  predicate Compiles(c: Scope, body: seq<Stmt>) {
    Walked(c, body).found == []
  }

  function Compiled(c: Scope, body: seq<Stmt>): Graph {
    Graph(Walked(c, body).nodes, Walked(c, body).edges)
  }
}
