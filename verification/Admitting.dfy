/** Which bodies compile, said without the walk: what each statement needs of the names bound above it and of the
nodes it follows, and what it leaves for the next. */
module Admitting {
  import opened Prelude
  import opened Atlas
  import opened Body
  import opened WiringSpec
  import opened Structure
  import opened Fitting
  import Meaning

  /** One way down to a statement: out of which node, if one has run, and whether a branch has asked on it. */
  datatype Above = Above(node: Option<Deed>, asked: bool)

  /** What is bound where a statement stands, and every way down to it. */
  datatype Standing = Standing(bound: map<Name, Shape>, ways: seq<Above>)

  const TOP := Standing(map[], [Above(None, false)])

  function Asked(s: Standing): (asked: Standing)
    ensures asked.bound == s.bound && |asked.ways| == |s.ways|
    ensures forall i :: 0 <= i < |s.ways| ==> asked.ways[i] == Above(s.ways[i].node, true)
  {
    s.(ways := seq(|s.ways|, i requires 0 <= i < |s.ways| => Above(s.ways[i].node, true)))
  }

  /* ---- What each statement needs, and leaves ---- */

  /** Whether a read may be handed where something is taken: one of the run's own agents, all of them, or what
  always comes to a value that serves. */
  ghost predicate Handed(c: Scope, bound: map<Name, Shape>, taken: Shape, r: Reads) {
    if taken == ONE_AGENT then r.source == Agents && r.field != "" && r.field in c.agents
    else if taken == THE_AGENTS then r == Reads(Agents, "")
    else exists given :: given != "" && ComesTo(c, bound, r, given) && StandsFor(c, given, taken)
  }

  /** A call of something declared, with a value in place for everything it takes, bound to at most one name of the
  body's own, which keeps the shape it had. */
  ghost predicate Calls(c: Scope, st: Stmt, s: Standing, t: Standing)
    requires st.Call?
  {
    && |st.targets| <= 1 && (st.targets != [] ==> st.targets[0].Some?)
    && st.plain && st.callee.Some? && st.callee.value in c.decls && c.decls[st.callee.value].Some?
    && var d, binds := c.decls[st.callee.value].value, if st.targets == [] then "" else st.targets[0].value;
       && |st.args| == |d.takes|
       && (forall i :: 0 <= i < |st.args| ==>
             ReadOf(c, st.args[i]).Some? && Handed(c, s.bound, d.takes[i].shape, ReadOf(c, st.args[i]).value))
       && binds !in c.names && (binds in s.bound && binds != "" ==> s.bound[binds] == d.gives)
       && (d.gives == "" || d.rerun)
       && t.ways == [Above(DeedOf(c, st), false)]
       && t.bound == if binds == "" then s.bound else s.bound[binds := d.gives]
  }

  /** A test of a name or a field that holds something, asked of nodes that have more ways out than one. */
  ghost predicate Tests(c: Scope, test: Test, s: Standing, read: Reads) {
    && ReadOf(c, test.said) == Some(read) && (exists shape :: shape != "" && ComesTo(c, s.bound, read, shape))
    && forall i :: 0 <= i < |s.ways| ==>
         !s.ways[i].asked && s.ways[i].node.Some? && !s.ways[i].node.value.kind.Mind?
  }

  /** A return of nothing, or of a name that holds what the atlas answers with. */
  ghost predicate Answers(c: Scope, value: Option<Expr>, s: Standing) {
    match value
    case None => c.gives in ["", NOTHING]
    case Some(Word(id)) =>
      var r := Reads(SourceOf(c, id), "");
      if exists shape :: shape != "" && ComesTo(c, s.bound, r, shape)
      then ComesTo(c, s.bound, r, if c.gives == "" then NOTHING else c.gives)
      else c.gives in ["", NOTHING]
    case _ => false
  }

  /** Below a branch stand the ways both arms left, with what both left bound alike. */
  ghost predicate Meet(a: Standing, b: Standing, t: Standing) {
    && t.ways == a.ways + b.ways
    && forall x ::
         (x in t.bound <==> x in a.bound && x in b.bound && a.bound[x] == b.bound[x])
         && (x in t.bound ==> t.bound[x] == a.bound[x])
  }

  /** A loop asks what the node above it answers, does not end on what that calls, and assigns something it reads. */
  predicate Around(st: Stmt, head: Deed, read: Reads, a: Standing, t: Standing)
    requires st.While?
  {
    && read.source == Bound(head.binds)
    && (forall i :: 0 <= i < |a.ways| && a.ways[i].node.Some? ==> a.ways[i].node.value.calls != head.calls)
    && (exists i :: 0 <= i < |head.takes| && head.takes[i].source.Bound?
                    && head.takes[i].source.name in Assigned(st.body))
    && t == Past(head, a)
  }

  function Past(head: Deed, a: Standing): Standing {
    Standing(a.bound, [Above(Some(head), true)])
  }

  ghost predicate PassesOne(c: Scope, st: Stmt, s: Standing, t: Standing)
    decreases st, 0
  {
    match st
    case Call(_, _, _, _) => Calls(c, st, s, t)
    case If(test, body, orelse) =>
      exists read, a, b ::
        && Tests(c, test, s, read) && Passes(c, body, true, Asked(s), a) && Passes(c, orelse, true, Asked(s), b)
        && Meet(a, b, t)
    case While(test, body, orelse) =>
      && orelse == [] && |s.ways| == 1 && s.ways[0].node.Some?
      && exists read, a ::
        && Tests(c, test, s, read) && Passes(c, body, true, Asked(s), a)
        && Around(st, s.ways[0].node.value, read, a, t)
    case Return(value) => Answers(c, value, s) && t == Standing(s.bound, [])
    case _ => false
  }

  /** A run of statements, each of them standing where the last leaves it; nothing stands where no way leads. */
  ghost predicate Passes(c: Scope, stmts: seq<Stmt>, first: bool, s: Standing, t: Standing)
    decreases stmts, 1
  {
    if stmts == [] then t == s
    else if stmts[0].Pass? || (stmts[0].Docstring? && first) then Passes(c, stmts[1..], false, s, t)
    else s.ways != [] && exists m :: PassesOne(c, stmts[0], s, m) && Passes(c, stmts[1..], false, m, t)
  }

  /** A whole body: it calls something, and where it runs off its bottom the atlas answers with nothing. */
  ghost predicate Admitted(c: Scope, body: seq<Stmt>) {
    && (exists i :: 0 <= i < |body| && body[i].Call?)
    && exists t :: Passes(c, body, true, TOP, t) && (t.ways == [] || c.gives == "")
  }

  /* ---- And that is what the walk lets by ---- */

  /** What the walk has bound, and what its loose ends are out of. */
  function Stand(s: Wired, l: Loose): (stand: Standing)
    ensures stand.bound == s.bound && |stand.ways| == |l|
  {
    Standing(s.bound, seq(|l|, i requires 0 <= i < |l| => Way1(s.nodes, l[i])))
  }

  function Way1(nodes: seq<Node>, e: End): Above {
    var node := NodeAt(nodes, e.at);
    Above(if node.Some? then Some(node.value.does) else None, e.when.Some?)
  }

  /** Loose ends are out of the entry, or of nodes there are. */
  predicate Resting(s: Wired, l: Loose) {
    Numbered(s) && forall i :: 0 <= i < |l| ==> l[i].at == Way || Known(s.nodes, l[i].at)
  }

  lemma {:induction false} HandedIs(c: Scope, bound: map<Name, Shape>, taken: Shape, r: Reads)
    ensures Handed(c, bound, taken, r) <==> Fits(c, bound, taken, r)
  {
    hide ShapeOf, Same, ComesTo, StandsFor;
    forall given | given != ""
      ensures ShapeOf(c, bound, r) == Some(given) <==> ComesTo(c, bound, r, given)
      ensures Same(c, given, taken) <==> StandsFor(c, given, taken)
    {
      ShapeExactly(c, bound, r, given);
      FitsExactly(c, given, taken);
    }
  }

  lemma {:induction false} SizedIs(c: Scope, bound: map<Name, Shape>, r: Reads)
    ensures Sized(ShapeOf(c, bound, r)) <==> exists shape :: shape != "" && ComesTo(c, bound, r, shape)
  {
    hide ShapeOf, ComesTo;
    forall shape | shape != ""
      ensures ShapeOf(c, bound, r) == Some(shape) <==> ComesTo(c, bound, r, shape)
    {
      ShapeExactly(c, bound, r, shape);
    }
    if Sized(ShapeOf(c, bound, r)) {
      assert ComesTo(c, bound, r, ShapeOf(c, bound, r).value);
    }
  }

  lemma {:induction false} UnbranchedIs(s: Wired, l: Loose)
    ensures Unbranched(s, l).None? <==>
            forall i :: 0 <= i < |l| ==>
              !l[i].when.Some? && NodeAt(s.nodes, l[i].at).Some? && !NodeAt(s.nodes, l[i].at).value.does.kind.Mind?
  {
    if l != [] {
      UnbranchedIs(s, l[1..]);
      assert l == [l[0]] + l[1..];
    }
  }

  lemma {:induction false} TestsIs(c: Scope, s: Wired, test: Test, l: Loose, read: Reads)
    ensures Tests(c, test, Stand(s, l), read) <==> Branched(c, s, test, l) == Granted(read)
  {
    hide ShapeOf, ComesTo, NodeAt;
    UnbranchedIs(s, l);
    SizedIs(c, s.bound, read);
    assert forall i :: 0 <= i < |l| ==> Stand(s, l).ways[i] == Way1(s.nodes, l[i]);
  }

  /** Arguments are granted exactly where there are as many as are taken, and each may be handed. */
  lemma {:induction false} ArgumentsExactly(c: Scope, bound: map<Name, Shape>, quiet: set<Name>, args: seq<Expr>,
                                            takes: seq<Param>)
    ensures Arguments(c, bound, quiet, args, takes).Granted? <==>
            && |args| == |takes|
            && forall i :: 0 <= i < |args| ==>
                 ReadOf(c, args[i]).Some? && Handed(c, bound, takes[i].shape, ReadOf(c, args[i]).value)
    decreases |args|
  {
    hide Fits, Handed, ShapeOf, ReadOf;
    if |args| == |takes| && args != [] {
      ArgumentsExactly(c, bound, quiet, args[1..], takes[1..]);
      if ReadOf(c, args[0]).Some? {
        HandedIs(c, bound, takes[0].shape, ReadOf(c, args[0]).value);
      }
      assert args == [args[0]] + args[1..] && takes == [takes[0]] + takes[1..];
      assert forall i :: 0 < i < |args| ==> args[i] == args[1..][i - 1] && takes[i] == takes[1..][i - 1];
    }
  }

  lemma {:induction false} CallPasses(c: Scope, s: Wired, st: Stmt, l: Loose, t: Standing)
    requires st.Call? && s.found == [] && Resting(s, l)
    ensures
      var (s1, l1) := Called(c, s, st, l);
      && (s1.found == [] ==> Calls(c, st, Stand(s, l), Stand(s1, l1)) && Resting(s1, l1))
      && (Calls(c, st, Stand(s, l), t) ==> s1.found == [] && t == Stand(s1, l1))
  {
    hide Handed, Fits, Arguments, Joins, DeedOf, Known;
    if st.callee.Some? && st.callee.value in c.decls && c.decls[st.callee.value].Some? {
      var d := c.decls[st.callee.value].value;
      ArgumentsExactly(c, s.bound, Quiet(s), st.args, d.takes);
    }
    var (s1, l1) := Called(c, s, st, l);
    if s1.found == [] {
      CalledStands(c, s, st, l);
    }
  }

  lemma {:induction false} CalledStands(c: Scope, s: Wired, st: Stmt, l: Loose)
    requires st.Call? && s.found == [] && Resting(s, l) && Called(c, s, st, l).0.found == []
    ensures
      var (s1, l1) := Called(c, s, st, l);
      Resting(s1, l1) && Stand(s1, l1).ways == [Above(DeedOf(c, st), false)] && DeedOf(c, st).Some?
  {
    hide Noded, Joins, Known, Numbered, Arguments, DeedOf;
    var d, at := Meaning.CalledIs(c, s, st, l);
    CalledNumbered(c, s, st, l);
    LastNode(s.nodes, Node(at, d));
    assert Called(c, s, st, l).0.nodes[|s.nodes|].at == at;
    FoundNode(s.nodes + [Node(at, d)], at);
  }

  lemma {:induction false} CalledNumbered(c: Scope, s: Wired, st: Stmt, l: Loose)
    requires st.Call? && s.found == [] && Numbered(s) && Called(c, s, st, l).0.found == []
    ensures
      var (s1, l1) := Called(c, s, st, l);
      Numbered(s1) && |l1| == 1 && !Known(s.nodes, l1[0].at)
  {
    hide Noded, Joins, Known, Numbered, Arguments;
    var d := c.decls[st.callee.value].value;
    var takes := Arguments(c, s.bound, Quiet(s), st.args, d.takes).value;
    var node := NodeNumbered(s, st.callee.value, d, takes, Target(st.targets).value, l);
  }

  lemma {:induction false} LastNode(nodes: seq<Node>, node: Node)
    requires !Known(nodes, node.at)
    ensures NodeAt(nodes + [node], node.at) == Some(node)
  {
    if nodes != [] {
      assert (nodes + [node])[1..] == nodes[1..] + [node];
      assert forall i :: 0 <= i < |nodes[1..]| ==> nodes[1..][i] == nodes[i + 1];
      assert nodes[0].at != node.at;
      LastNode(nodes[1..], node);
    }
  }

  /** Nodes there are stay what they are as more are added. */
  lemma {:induction false} StandGrows(s: Wired, s1: Wired, l: Loose)
    requires Resting(s, l) && Numbered(s1) && s.nodes <= s1.nodes
    ensures Resting(s1, l) && Stand(s1, l).ways == Stand(s, l).ways
  {
    forall i | 0 <= i < |l|
      ensures NodeAt(s1.nodes, l[i].at) == NodeAt(s.nodes, l[i].at)
      ensures l[i].at == Way || Known(s1.nodes, l[i].at)
    {
      FoundNode(s.nodes, l[i].at);
      FoundNode(s1.nodes, l[i].at);
      if l[i].at != Way {
        var k :| 0 <= k < |s.nodes| && s.nodes[k].at == l[i].at;
        assert s1.nodes[k] == s.nodes[k];
        StillAt(s.nodes, s1.nodes, l[i].at);
      }
    }
  }

  lemma {:induction false} StillAt(nodes: seq<Node>, more: seq<Node>, at: At)
    requires nodes <= more && NodeAt(nodes, at).Some?
    ensures NodeAt(more, at) == NodeAt(nodes, at)
  {
    if nodes[0].at != at {
      StillAt(nodes[1..], more[1..], at);
    }
  }

  lemma {:induction false} GuardedStands(s: Wired, l: Loose, when: When)
    ensures Stand(s, Guarded(l, when)) == Asked(Stand(s, l))
    ensures Resting(s, l) ==> Resting(s, Guarded(l, when))
  {
    assert forall i :: 0 <= i < |l| ==> Way1(s.nodes, Guarded(l, when)[i]) == Above(Way1(s.nodes, l[i]).node, true);
  }

  /** Below a branch without a finding, a name is bound at a shape exactly where both arms leave it bound so. */
  lemma {:induction false} BranchBinds(c: Scope, s: Wired, st: Stmt, l: Loose, read: Reads, x: Name,
                                       shape: Shape)
    requires st.If? && Branched(c, s, st.test, l) == Granted(read)
    ensures
      var body := Block(c, s, st.body, true, Guarded(l, When(read, !st.test.inverted))).0;
      var orelse := Block(c, body.(bound := s.bound), st.orelse, true, Guarded(l, When(read, st.test.inverted))).0;
      var below := One(c, s, st, l).0.bound;
      x in below && below[x] == shape <==>
        x in body.bound && body.bound[x] == shape && x in orelse.bound && orelse.bound[x] == shape
  {
    hide Block;
  }

  /** Both arms of a branch, each from what stands above it. */
  lemma {:induction false} ArmsPass(c: Scope, s: Wired, st: Stmt, l: Loose, read: Reads, a: Standing, b: Standing)
    requires st.If? && s.found == [] && Resting(s, l)
    ensures
      var (s1, held) := Block(c, s, st.body, true, Guarded(l, When(read, !st.test.inverted)));
      var (s2, other) :=
        Block(c, s1.(bound := s.bound), st.orelse, true, Guarded(l, When(read, st.test.inverted)));
      var above := Asked(Stand(s, l));
      && (s2.found == [] ==>
            && Passes(c, st.body, true, above, Stand(s1, held)) && Passes(c, st.orelse, true, above, Stand(s2, other))
            && Resting(s2, held + other)
            && Stand(s2, held + other).ways == Stand(s1, held).ways + Stand(s2, other).ways)
      && (Passes(c, st.body, true, above, a) && Passes(c, st.orelse, true, above, b) ==>
            s2.found == [] && a == Stand(s1, held) && b == Stand(s2, other))
    decreases st, 0
  {
    hide Passes, Block, Stand, Resting, Guarded, Asked;
    var yes, no := Guarded(l, When(read, !st.test.inverted)), Guarded(l, When(read, st.test.inverted));
    GuardedStands(s, l, When(read, !st.test.inverted));
    GuardedStands(s, l, When(read, st.test.inverted));
    PassesIs(c, s, st.body, true, yes, a);
    var (s1, held) := Block(c, s, st.body, true, yes);
    if s1.found == [] {
      var back := s1.(bound := s.bound);
      AnotherArm(s, s1, back, no, held);
      PassesIs(c, back, st.orelse, true, no, b);
      var (s2, other) := Block(c, back, st.orelse, true, no);
      if s2.found == [] {
        StillStanding(s1, s2, held, other);
      }
    }
  }

  lemma {:induction false} AnotherArm(s: Wired, s1: Wired, back: Wired, no: Loose, held: Loose)
    requires Resting(s, no) && Resting(s1, held) && s.nodes <= s1.nodes && back == s1.(bound := s.bound)
    ensures Resting(back, no) && Stand(back, no) == Stand(s, no)
  {
    StandGrows(s, s1, no);
    assert Stand(back, no).ways == Stand(s1, no).ways;
  }

  lemma {:induction false} StillStanding(s1: Wired, s2: Wired, held: Loose, other: Loose)
    requires Resting(s1, held) && Resting(s2, other) && s1.nodes <= s2.nodes
    ensures Resting(s2, held + other) && Stand(s2, held + other).ways == Stand(s1, held).ways + Stand(s2, other).ways
  {
    hide Known;
    StandGrows(s1, s2, held);
    assert forall i :: 0 <= i < |held + other| ==>
        (held + other)[i] == if i < |held| then held[i] else other[i - |held|];
    assert Stand(s2, held + other).ways == Stand(s2, held).ways + Stand(s2, other).ways;
  }

  lemma {:induction false} BranchPasses(c: Scope, s: Wired, st: Stmt, l: Loose, t: Standing)
    requires st.If? && s.found == [] && Resting(s, l)
    ensures
      var (s1, l1) := Branch(c, s, st, l);
      && (s1.found == [] ==> PassesOne(c, st, Stand(s, l), Stand(s1, l1)) && Resting(s1, l1))
      && (PassesOne(c, st, Stand(s, l), t) ==> s1.found == [] && t == Stand(s1, l1))
    decreases st, 1
  {
    hide Tests, Branch, Passes, Branched, Resting, Stand, Meet;
    if Branch(c, s, st, l).0.found == [] {
      var read := BranchGranted(c, s, st, l);
      TestsIs(c, s, st.test, l, read);
      ArmsPass(c, s, st, l, read, t, t);
      BranchMeets(c, s, st, l, read, t);
    }
    if PassesOne(c, st, Stand(s, l), t) {
      var read, a, b :|
        && Tests(c, st.test, Stand(s, l), read) && Passes(c, st.body, true, Asked(Stand(s, l)), a)
        && Passes(c, st.orelse, true, Asked(Stand(s, l)), b) && Meet(a, b, t);
      TestsIs(c, s, st.test, l, read);
      ArmsPass(c, s, st, l, read, a, b);
      BranchMeets(c, s, st, l, read, t);
    }
  }

  lemma {:induction false} RestingStays(s: Wired, s1: Wired, l: Loose)
    requires s1.nodes == s.nodes && s1.seen == s.seen
    ensures Resting(s1, l) <==> Resting(s, l)
  {
  }

  lemma {:induction false} BranchGranted(c: Scope, s: Wired, st: Stmt, l: Loose) returns (read: Reads)
    requires st.If? && s.found == [] && Branch(c, s, st, l).0.found == []
    ensures Branched(c, s, st.test, l) == Granted(read)
    ensures Block(c, Block(c, s, st.body, true, Guarded(l, When(read, !st.test.inverted))).0.(bound := s.bound),
                  st.orelse, true, Guarded(l, When(read, st.test.inverted))).0.found == []
  {
    hide Block, Branched, Guarded;
    read := Branched(c, s, st.test, l).value;
  }

  /** What the walk leaves below a branch, of what it leaves below the arms. */
  lemma {:induction false} BranchMeets(c: Scope, s: Wired, st: Stmt, l: Loose, read: Reads, t: Standing)
    requires st.If? && Branched(c, s, st.test, l) == Granted(read)
    requires
      var (s1, held) := Block(c, s, st.body, true, Guarded(l, When(read, !st.test.inverted)));
      var (s2, other) := Block(c, s1.(bound := s.bound), st.orelse, true, Guarded(l, When(read, st.test.inverted)));
      && s2.found == [] && Resting(s2, held + other)
      && Stand(s2, held + other).ways == Stand(s1, held).ways + Stand(s2, other).ways
    ensures
      var (s1, held) := Block(c, s, st.body, true, Guarded(l, When(read, !st.test.inverted)));
      var (s2, other) := Block(c, s1.(bound := s.bound), st.orelse, true, Guarded(l, When(read, st.test.inverted)));
      var (s3, l3) := Branch(c, s, st, l);
      && s3.found == [] && Resting(s3, l3) && Meet(Stand(s1, held), Stand(s2, other), Stand(s3, l3))
      && (Meet(Stand(s1, held), Stand(s2, other), t) ==> t == Stand(s3, l3))
  {
    hide Block, Branched, Guarded, Numbered, Known, Way1;
    var (s1, held) := Block(c, s, st.body, true, Guarded(l, When(read, !st.test.inverted)));
    var (s2, other) := Block(c, s1.(bound := s.bound), st.orelse, true, Guarded(l, When(read, st.test.inverted)));
    var (s3, l3) := Branch(c, s, st, l);
    assert s3 == s2.(bound := Both(s1.bound, s2.bound)) && l3 == held + other;
    assert Stand(s3, l3).ways == Stand(s2, held + other).ways;
    RestingStays(s2, s3, held + other);
    if Meet(Stand(s1, held), Stand(s2, other), t) {
      assert t.bound == Stand(s3, l3).bound;
    }
  }

  lemma {:induction false} LoopPasses(c: Scope, s: Wired, st: Stmt, l: Loose, t: Standing)
    requires st.While? && s.found == [] && Resting(s, l)
    ensures
      var (s1, l1) := Loop(c, s, st, l);
      && (s1.found == [] ==> PassesOne(c, st, Stand(s, l), Stand(s1, l1)) && Resting(s1, l1))
      && (PassesOne(c, st, Stand(s, l), t) ==> s1.found == [] && t == Stand(s1, l1))
    decreases st, 1
  {
    hide Tests, Loop, Passes, Branched, Resting, Around, Way1;
    if Loop(c, s, st, l).0.found == [] {
      var read := LoopGranted(c, s, st, l);
      TestsIs(c, s, st.test, l, read);
      RoundPasses(c, s, st, l, read, t);
    }
    if PassesOne(c, st, Stand(s, l), t) {
      var read, a :|
        && Tests(c, st.test, Stand(s, l), read) && Passes(c, st.body, true, Asked(Stand(s, l)), a)
        && Around(st, Stand(s, l).ways[0].node.value, read, a, t);
      TestsIs(c, s, st.test, l, read);
      RoundPasses(c, s, st, l, read, a);
      AroundPast(st, Stand(s, l).ways[0].node.value, read, a, t);
    }
  }

  lemma {:induction false} AroundPast(st: Stmt, head: Deed, read: Reads, a: Standing, t: Standing)
    requires st.While? && Around(st, head, read, a, t)
    ensures t == Past(head, a)
  {
  }

  lemma {:induction false} LoopGranted(c: Scope, s: Wired, st: Stmt, l: Loose) returns (read: Reads)
    requires st.While? && s.found == [] && Loop(c, s, st, l).0.found == []
    ensures st.orelse == [] && |l| == 1 && Branched(c, s, st.test, l) == Granted(read)
    ensures Block(c, s, st.body, true, [End(l[0].at, Some(When(read, !st.test.inverted)))]).0.found == []
  {
    hide Block, Branched, Twice, Endless;
    read := Branched(c, s, st.test, l).value;
  }

  /** The body of a loop. */
  lemma {:induction false} RoundPasses(c: Scope, s: Wired, st: Stmt, l: Loose, read: Reads, a: Standing)
    requires st.While? && s.found == [] && Resting(s, l) && |l| == 1 && st.orelse == []
    requires Branched(c, s, st.test, l) == Granted(read)
    ensures
      var (s1, inside) := Block(c, s, st.body, true, [End(l[0].at, Some(When(read, !st.test.inverted)))]);
      var above := Asked(Stand(s, l));
      && (s1.found == [] ==> Passes(c, st.body, true, above, Stand(s1, inside)) && Resting(s1, inside))
      && (Passes(c, st.body, true, above, a) ==> s1.found == [] && a == Stand(s1, inside))
      && (s1.found == [] ==>
            var (s2, l2) := Loop(c, s, st, l);
            && Stand(s, l).ways[0].node.Some? && Resting(s2, l2)
            && var head, below := Stand(s, l).ways[0].node.value, Stand(s1, inside);
               && (s2.found == [] <==> Around(st, head, read, below, Past(head, below)))
               && (s2.found == [] ==> Stand(s2, l2) == Past(head, below)))
    decreases st, 0
  {
    hide Passes, Block, Branched, Joins, Resting, Stand, Loop, Around;
    var inside := [End(l[0].at, Some(When(read, !st.test.inverted)))];
    GuardedStands(s, l, When(read, !st.test.inverted));
    assert Guarded(l, When(read, !st.test.inverted)) == inside;
    PassesIs(c, s, st.body, true, inside, a);
    if Block(c, s, st.body, true, inside).0.found == [] {
      GoesRound(c, s, st, l, read);
    }
  }

  lemma {:induction false} GoesRound(c: Scope, s: Wired, st: Stmt, l: Loose, read: Reads)
    requires st.While? && s.found == [] && Resting(s, l) && |l| == 1 && st.orelse == []
    requires Branched(c, s, st.test, l) == Granted(read)
    requires
      var (s1, inside) := Block(c, s, st.body, true, [End(l[0].at, Some(When(read, !st.test.inverted)))]);
      s1.found == [] && Resting(s1, inside)
    ensures
      var (s1, inside) := Block(c, s, st.body, true, [End(l[0].at, Some(When(read, !st.test.inverted)))]);
      var (s2, l2) := Loop(c, s, st, l);
      && Stand(s, l).ways[0].node.Some? && Resting(s2, l2)
      && var head, below := Stand(s, l).ways[0].node.value, Stand(s1, inside);
         && (s2.found == [] <==> Around(st, head, read, below, Past(head, below)))
         && (s2.found == [] ==> Stand(s2, l2) == Past(head, below))
  {
    hide Block, Branched, Joins, Numbered, Known, Twice, Endless, Around;
    var head := l[0].at;
    var (s1, inside) := Block(c, s, st.body, true, [End(head, Some(When(read, !st.test.inverted)))]);
    var (s2, l2) := Loop(c, s, st, l);
    BranchedOn(c, s, st.test, l);
    StandGrows(s, s1, l);
    var above := NodeAt(s.nodes, head).value.does;
    assert Stand(s, l).ways[0] == Way1(s.nodes, l[0]);
    if Bound(above.binds) == read.source {
      RestingStays(s1, s2, l2);
      MayGoRound(s1, st, above, read, inside);
      assert Stand(s2, l2).ways == [Above(Some(above), true)];
    } else {
      RestingStays(s, s2, l);
      NotAround(st, above, read, Stand(s1, inside), Past(above, Stand(s1, inside)));
    }
  }

  lemma {:induction false} NotAround(st: Stmt, head: Deed, read: Reads, a: Standing, t: Standing)
    requires st.While? && read.source != Bound(head.binds)
    ensures !Around(st, head, read, a, t)
  {
  }

  lemma {:induction false} BranchedOn(c: Scope, s: Wired, test: Test, l: Loose)
    requires Branched(c, s, test, l).Granted?
    ensures forall i :: 0 <= i < |l| ==> NodeAt(s.nodes, l[i].at).Some?
  {
    UnbranchedIs(s, l);
  }

  /** A loop may go round exactly where the walk finds nothing wrong with its end and its head. */
  lemma {:induction false} MayGoRound(s: Wired, st: Stmt, head: Deed, read: Reads, inside: Loose)
    requires st.While? && st.orelse == [] && read.source == Bound(head.binds)
    ensures Around(st, head, read, Stand(s, inside), Past(head, Stand(s, inside))) <==>
            !Twice(s, head, inside) && !Endless(st, head)
  {
    assert forall i :: 0 <= i < |inside| ==> Stand(s, inside).ways[i] == Way1(s.nodes, inside[i]);
    if !Endless(st, head) {
      var x, i :| x in AssignedIn(st) && 0 <= i < |head.takes| && head.takes[i].source == Bound(x);
      assert AssignedIn(st) == Assigned(st.body) + Assigned(st.orelse);
      assert head.takes[i].source.name in Assigned(st.body);
    }
  }

  lemma {:induction false} ReturnPasses(c: Scope, s: Wired, value: Option<Expr>, l: Loose)
    requires s.found == []
    ensures Returned(c, s, value, l).found == [] <==> Answers(c, value, Stand(s, l))
    ensures Returned(c, s, value, l).bound == s.bound && Returned(c, s, value, l).nodes == s.nodes
    ensures Returned(c, s, value, l).seen == s.seen
  {
    hide ShapeOf, ComesTo, Joins;
    if value.Some? && value.value.Word? {
      var r := Reads(SourceOf(c, value.value.id), "");
      SizedIs(c, s.bound, r);
      ShapeExactly(c, s.bound, r, if c.gives == "" then NOTHING else c.gives);
    }
  }

  lemma {:induction false} OnePasses(c: Scope, s: Wired, st: Stmt, l: Loose, t: Standing)
    requires s.found == [] && Resting(s, l)
    ensures
      var (s1, l1) := One(c, s, st, l);
      && (s1.found == [] ==> PassesOne(c, st, Stand(s, l), Stand(s1, l1)) && Resting(s1, l1))
      && (PassesOne(c, st, Stand(s, l), t) ==> s1.found == [] && t == Stand(s1, l1))
    decreases st, 2
  {
    hide Called, Branch, Loop, Returned, Calls, Answers, Passes, Resting, Stand;
    match st
    case Call(_, _, _, _) => CallPasses(c, s, st, l, t);
    case If(_, _, _) => BranchPasses(c, s, st, l, t);
    case While(_, _, _) => LoopPasses(c, s, st, l, t);
    case Return(value) =>
      ReturnPasses(c, s, value, l);
      ReturnStands(c, s, value, l);
    case _ =>
  }

  lemma {:induction false} ReturnStands(c: Scope, s: Wired, value: Option<Expr>, l: Loose)
    requires Resting(s, l) && Returned(c, s, value, l).nodes == s.nodes && Returned(c, s, value, l).seen == s.seen
    ensures Resting(Returned(c, s, value, l), [])
    ensures Stand(Returned(c, s, value, l), []) == Standing(Returned(c, s, value, l).bound, [])
  {
  }

  lemma {:induction false} PassesFirst(c: Scope, stmts: seq<Stmt>, first: bool, s: Standing, t: Standing)
    returns (m: Standing)
    requires Passes(c, stmts, first, s, t) && stmts != [] && !Skipped(stmts[0], first)
    ensures PassesOne(c, stmts[0], s, m) && Passes(c, stmts[1..], false, m, t)
  {
    m :| PassesOne(c, stmts[0], s, m) && Passes(c, stmts[1..], false, m, t);
  }

  /** A run of statements is walked without a finding exactly where it passes, and leaves what passing leaves. */
  lemma {:induction false} PassesIs(c: Scope, s: Wired, stmts: seq<Stmt>, first: bool, l: Loose, t: Standing)
    requires s.found == [] && Resting(s, l)
    ensures
      var (s1, l1) := Block(c, s, stmts, first, l);
      && (s1.found == [] ==> Passes(c, stmts, first, Stand(s, l), Stand(s1, l1)) && Resting(s1, l1))
      && (Passes(c, stmts, first, Stand(s, l), t) ==> s1.found == [] && t == Stand(s1, l1))
    decreases stmts, 3
  {
    hide One, PassesOne, Resting, Stand;
    if stmts != [] {
      if Skipped(stmts[0], first) {
        PassesIs(c, s, stmts[1..], false, l, t);
      } else if l != [] {
        var (s1, l1) := One(c, s, stmts[0], l);
        OnePasses(c, s, stmts[0], l, t);
        if s1.found == [] {
          PassesIs(c, s1, stmts[1..], false, l1, t);
        }
        if Passes(c, stmts, first, Stand(s, l), t) {
          var m := PassesFirst(c, stmts, first, Stand(s, l), t);
          OnePasses(c, s, stmts[0], l, m);
        }
      }
    }
  }

  /* ---- A whole body ---- */

  /** What runs before anything is called is nothing. */
  lemma {:induction false} NodesFrom(c: Scope, s: Wired, stmts: seq<Stmt>, first: bool, l: Loose)
    requires s.found == [] && Resting(s, l) && Block(c, s, stmts, first, l).0.found == []
    ensures (exists i :: 0 <= i < |stmts| && stmts[i].Call?) ==> |Block(c, s, stmts, first, l).0.nodes| > |s.nodes|
    ensures (forall i :: 0 <= i < |l| ==> l[i].at == Way) && s.nodes == []
            && !(exists i :: 0 <= i < |stmts| && stmts[i].Call?) ==>
              Block(c, s, stmts, first, l).0.nodes == []
    decreases |stmts|
  {
    hide Called, Branch, Loop, Resting, Returned;
    if stmts != [] {
      assert stmts == [stmts[0]] + stmts[1..];
      if Skipped(stmts[0], first) {
        NodesFrom(c, s, stmts[1..], false, l);
      } else {
        var (s1, l1) := One(c, s, stmts[0], l);
        OnePasses(c, s, stmts[0], l, TOP);
        NodesFrom(c, s1, stmts[1..], false, l1);
        FirstNodes(c, s, stmts[0], l);
      }
    }
  }

  lemma {:induction false} FirstNodes(c: Scope, s: Wired, st: Stmt, l: Loose)
    requires s.found == [] && Resting(s, l) && One(c, s, st, l).0.found == [] && l != []
    ensures st.Call? ==> |One(c, s, st, l).0.nodes| > |s.nodes|
    ensures (forall i :: 0 <= i < |l| ==> l[i].at == Way) && s.nodes == [] && !st.Call? ==>
              One(c, s, st, l).0.nodes == [] && One(c, s, st, l).1 == []
  {
    hide Block, Joins;
    match st
    case Call(_, _, _, _) =>
      var d, at := Meaning.CalledIs(c, s, st, l);
    case If(test, _, _) => NothingAbove(c, s, test, l);
    case While(test, _, _) => NothingAbove(c, s, test, l);
    case _ =>
  }

  lemma {:induction false} NothingAbove(c: Scope, s: Wired, test: Test, l: Loose)
    requires l != []
    ensures s.nodes == [] ==> !Branched(c, s, test, l).Granted?
  {
  }

  /** A body compiles exactly where it is admitted: every statement has what it needs where it stands. */
  lemma {:induction false} CompilesExactly(c: Scope, body: seq<Stmt>)
    ensures Compiles(c, body) <==> Admitted(c, body)
  {
    hide Block, Passes, Stand;
    var way := [End(Way, None)];
    var (s1, l1) := Block(c, START, body, true, way);
    AtTheTop(way);
    PassesIs(c, START, body, true, way, TOP);
    if Admitted(c, body) {
      var t :| Passes(c, body, true, TOP, t) && (t.ways == [] || c.gives == "");
      PassesIs(c, START, body, true, way, t);
    }
    if s1.found == [] {
      NodesFrom(c, START, body, true, way);
      assert |Stand(s1, l1).ways| == |l1|;
    }
  }

  lemma {:induction false} AtTheTop(way: Loose)
    requires way == [End(Way, None)]
    ensures Stand(START, way) == TOP && Resting(START, way)
  {
  }
}
