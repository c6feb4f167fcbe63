/** What a statement is read as, and what is said of one that is refused: the first thing wrong with it. */
module Reasons {
  import opened Prelude
  import opened Atlas
  import opened Body
  import opened WiringSpec
  import opened Admitting

  /** Whether an expression is a name, or a field of one, that stands for one read. */
  predicate Says(c: Scope, e: Expr, r: Reads) {
    && !e.Work? && r.field == (if e.Part? then e.attr else "")
    && (if e.id in c.names then r.source == c.names[e.id] else r.source == Bound(e.id))
  }

  lemma {:induction false} ReadIs(c: Scope, e: Expr, r: Reads)
    ensures ReadOf(c, e) == Some(r) <==> Says(c, e, r)
    ensures ReadOf(c, e).None? <==> e.Work?
  {
  }

  lemma {:induction false} AllReadsIs(c: Scope, args: seq<Expr>, takes: seq<Reads>)
    ensures AllReads(c, args) == Some(takes) <==>
            |takes| == |args| && forall i :: 0 <= i < |args| ==> Says(c, args[i], takes[i])
    decreases |args|
  {
    if args != [] {
      if takes != [] {
        ReadIs(c, args[0], takes[0]);
        AllReadsIs(c, args[1..], takes[1..]);
        assert takes == [takes[0]] + takes[1..];
        assert forall i :: 0 < i < |args| ==> args[i] == args[1..][i - 1];
        assert forall i :: 0 < i < |takes| ==> takes[i] == takes[1..][i - 1];
      }
    }
  }

  /** The node of a call: what is declared under the callee's name, handed what each argument says, bound to the one
  target there is, and run under that name, or under its own where it is an atlas. */
  lemma {:induction false} DeedIs(c: Scope, st: Stmt, d: Deed)
    requires st.Call?
    ensures DeedOf(c, st) == Some(d) <==>
            && st.plain && st.callee == Some(d.called) && d.called in c.decls && c.decls[d.called].Some?
            && ((st.targets == [] && d.binds == "") || st.targets == [Some(d.binds)])
            && |d.takes| == |st.args| && (forall i :: 0 <= i < |st.args| ==> Says(c, st.args[i], d.takes[i]))
            && var one := c.decls[d.called].value;
               && d.kind == one.kind && d.gives == one.gives && d.rerun == one.rerun && d.under == one.under
               && d.calls == if one.under == "" then d.called else one.under
  {
    AllReadsIs(c, st.args, d.takes);
  }

  /** Arguments are refused for the first of them that may not be handed: as work, as an agent there is not or that
  is not one, as of another shape, as a name nothing is known of any more, or as one nothing has bound. */
  lemma {:induction false} ArgumentsSay(c: Scope, bound: map<Name, Shape>, quiet: set<Name>, args: seq<Expr>,
                                        takes: seq<Param>)
    returns (i: nat)
    requires !Arguments(c, bound, quiet, args, takes).Granted?
    ensures |args| != |takes| ==> Arguments(c, bound, quiet, args, takes) == Refused(ShapeMismatch)
    ensures |args| == |takes| ==>
              && i < |args|
              && (forall j :: 0 <= j < i ==>
                    ReadOf(c, args[j]).Some? && Handed(c, bound, takes[j].shape, ReadOf(c, args[j]).value))
              && var (read, taken) := (ReadOf(c, args[i]), takes[i].shape);
                 var said := Arguments(c, bound, quiet, args, takes);
                 match read
                 case None => said == Refused(UnstaticBody)
                 case Some(r) =>
                   && !Handed(c, bound, taken, r)
                   && if taken == ONE_AGENT then
                        said == Refused(if r.source == Agents && r.field != "" then UnknownAgent else UnagentedNode)
                      else if taken == THE_AGENTS then said == Refused(UnagentedNode)
                      else
                        match ShapeOf(c, bound, r)
                        case Some(_) => said == Refused(ShapeMismatch)
                        case None =>
                          said == if r.source.Bound? && r.source.name in quiet then Again else Refused(UnboundRead)
    decreases |args|
  {
    hide ReadOf, ShapeOf, Handed, Fits;
    i := 0;
    if |args| == |takes| && ReadOf(c, args[0]).Some? {
      HandedIs(c, bound, takes[0].shape, ReadOf(c, args[0]).value);
      if Fits(c, bound, takes[0].shape, ReadOf(c, args[0]).value) {
        var k := ArgumentsSay(c, bound, quiet, args[1..], takes[1..]);
        i := k + 1;
        assert args[i] == args[1..][k] && takes[i] == takes[1..][k];
        assert forall j :: 0 < j < i ==> args[j] == args[1..][j - 1] && takes[j] == takes[1..][j - 1];
      }
    }
  }

  /** A value whose shape is another, and lacks a field that what is taken requires, or has it at another shape, is
  refused, whatever else is handed over. */
  lemma {:induction false} LackingIsRefused(c: Scope, bound: map<Name, Shape>, quiet: set<Name>, args: seq<Expr>,
                                            takes: seq<Param>, i: nat, x: Name)
    requires i < |args| && i < |takes| && takes[i].shape !in {ONE_AGENT, THE_AGENTS} && ReadOf(c, args[i]).Some?
    requires
      var (given, wanted) := (ShapeOf(c, bound, ReadOf(c, args[i]).value), takes[i].shape);
      && given.Some? && given.value != wanted
      && (wanted in c.fields && given.value in c.fields ==>
            && x in c.fields[wanted] && c.fields[wanted][x].required
            && (x !in c.fields[given.value] || c.fields[given.value][x].shape != c.fields[wanted][x].shape))
    ensures !Arguments(c, bound, quiet, args, takes).Granted?
  {
    hide ReadOf, ShapeOf, Handed;
    ArgumentsExactly(c, bound, quiet, args, takes);
    HandedIs(c, bound, takes[i].shape, ReadOf(c, args[i]).value);
  }

  /** A branch is refused as work, for what it reads, or for the first way down to it that has no ways out to
  choose from: one that has been asked already or is out of no node, or one out of a mind. */
  lemma {:induction false} BranchedSays(c: Scope, s: Wired, test: Test, l: Loose) returns (i: nat)
    requires !Branched(c, s, test, l).Granted?
    ensures
      var (said, ways) := (Branched(c, s, test, l), Stand(s, l).ways);
      match ReadOf(c, test.said)
      case None => said == Refused(UnstaticBody)
      case Some(r) =>
        match ShapeOf(c, s.bound, r)
        case None =>
          said == if s.found != [] && r.source.Bound? && r.source.name in s.spoilt then Again else Refused(UnboundRead)
        case Some(shape) =>
          if shape == "" then said == Refused(ShapeMismatch)
          else
            && i < |ways|
            && (forall j :: 0 <= j < i ==> !ways[j].asked && ways[j].node.Some? && !ways[j].node.value.kind.Mind?)
            && said == Refused(if ways[i].asked || ways[i].node.None? then UnstaticBody else BranchingMind)
            && (ways[i].asked || ways[i].node.None? || ways[i].node.value.kind.Mind?)
  {
    hide ReadOf, ShapeOf, NodeAt, Unbranched;
    i := 0;
    if Unbranched(s, l).Some? {
      i := UnbranchedSays(s, l);
      assert forall j :: 0 <= j < |l| ==> Stand(s, l).ways[j] == Way1(s.nodes, l[j]);
    }
  }

  lemma {:induction false} UnbranchedSays(s: Wired, l: Loose) returns (i: nat)
    requires Unbranched(s, l).Some?
    ensures i < |l|
    ensures forall j :: 0 <= j < i ==>
              var way := Way1(s.nodes, l[j]);
              !way.asked && way.node.Some? && !way.node.value.kind.Mind?
    ensures
      var way := Way1(s.nodes, l[i]);
      && Unbranched(s, l) == Some(if way.asked || way.node.None? then UnstaticBody else BranchingMind)
      && (way.asked || way.node.None? || way.node.value.kind.Mind?)
    decreases |l|
  {
    hide NodeAt;
    var way := Way1(s.nodes, l[0]);
    i := 0;
    if !way.asked && way.node.Some? && !way.node.value.kind.Mind? {
      var k := UnbranchedSays(s, l[1..]);
      i := k + 1;
      assert forall j :: 0 < j < |l| ==> l[j] == l[1..][j - 1];
    }
  }

  /** What a name stands for, or a field of what it does: what is bound to it or was declared for it, and of that
  the field its own model declares. */
  lemma {:induction false} ShapeIs(c: Scope, bound: map<Name, Shape>, r: Reads, shape: Shape)
    ensures
      var holds := (held: Shape) =>
        || (r.source == Input && c.takes == held && held != "")
        || (r.source == Config && c.config == held && held != "")
        || (r.source.Bound? && r.source.name in bound && bound[r.source.name] == held);
      ShapeOf(c, bound, r) == Some(shape) <==>
        if r.field == "" then holds(shape)
        else exists held ::
          held != "" && holds(held) && held in c.own && r.field in c.own[held] && c.own[held][r.field] == shape
  {
  }

  /* ---- What nothing more is said of ---- */

  /** A call that becomes no node leaves nothing known of the one name it would have bound, and of no other. */
  lemma {:induction false} CallSpoils(c: Scope, s: Wired, st: Stmt, l: Loose, x: Name)
    requires st.Call? && (st.targets == [] || st.targets == [Some(x)])
    ensures
      var s1 := Called(c, s, st, l).0;
      s1.spoilt == s.spoilt + if s1.nodes == s.nodes && st.targets != [] && x != "" then {x} else {}
  {
    hide Arguments, Joins;
    var s1 := Called(c, s, st, l).0;
    assert s1.nodes != s.nodes ==> |s1.nodes| == |s.nodes| + 1;
  }

  /** Nothing is known any more of what a statement that is refused would have bound, and of nothing that is bound
  nowhere among the statements. */
  lemma {:induction false} BlockSpoils(c: Scope, s: Wired, stmts: seq<Stmt>, first: bool, l: Loose)
    ensures s.spoilt <= Block(c, s, stmts, first, l).0.spoilt <= s.spoilt + Assigned(stmts)
    ensures stmts != [] && !Skipped(stmts[0], first) && (l == [] || stmts[0].Other?) ==>
              AssignedIn(stmts[0]) <= Block(c, s, stmts, first, l).0.spoilt
    decreases stmts
  {
    hide One, AssignedIn;
    if stmts != [] {
      if Skipped(stmts[0], first) {
        BlockSpoils(c, s, stmts[1..], false, l);
      } else if l != [] {
        OneSpoils(c, s, stmts[0], l);
        var (s1, l1) := One(c, s, stmts[0], l);
        BlockSpoils(c, s1, stmts[1..], false, l1);
      }
    }
  }

  lemma {:induction false} OneSpoils(c: Scope, s: Wired, st: Stmt, l: Loose)
    ensures s.spoilt <= One(c, s, st, l).0.spoilt <= s.spoilt + AssignedIn(st)
    ensures st.Other? ==> AssignedIn(st) <= One(c, s, st, l).0.spoilt
    decreases st
  {
    hide Branch, Loop, Arguments, Joins;
    match st
    case If(_, _, _) => BranchSpoils(c, s, st, l);
    case While(_, _, _) => LoopSpoils(c, s, st, l);
    case _ =>
  }

  lemma {:induction false} BranchSpoils(c: Scope, s: Wired, st: Stmt, l: Loose)
    requires st.If?
    ensures s.spoilt <= Branch(c, s, st, l).0.spoilt <= s.spoilt + Assigned(st.body) + Assigned(st.orelse)
    decreases st, 0
  {
    hide Branched, Block, Assigned;
    match Branched(c, s, st.test, l)
    case Granted(read) =>
      var yes, no := Guarded(l, When(read, !st.test.inverted)), Guarded(l, When(read, st.test.inverted));
      BlockSpoils(c, s, st.body, true, yes);
      BlockSpoils(c, Block(c, s, st.body, true, yes).0.(bound := s.bound), st.orelse, true, no);
    case _ =>
  }

  lemma {:induction false} LoopSpoils(c: Scope, s: Wired, st: Stmt, l: Loose)
    requires st.While?
    ensures s.spoilt <= Loop(c, s, st, l).0.spoilt <= s.spoilt + AssignedIn(st)
    decreases st, 0
  {
    hide Branched, Block, Twice, Endless, Joins, Assigned;
    match Branched(c, s, st.test, l)
    case Granted(read) =>
      if |l| == 1 {
        BlockSpoils(c, s, st.body, true, [End(l[0].at, Some(When(read, !st.test.inverted)))]);
      }
    case _ =>
  }

  /* ---- How nodes are numbered ---- */

  /** How many of some nodes call one name. */
  function Calling(nodes: seq<Node>, called: Name): nat {
    if nodes == [] then 0
    else Calling(nodes[..|nodes| - 1], called) + if nodes[|nodes| - 1].does.called == called then 1 else 0
  }

  /** Each node is numbered among those before it that call the same, from one on. */
  predicate CountedUp(nodes: seq<Node>) {
    forall i :: 0 <= i < |nodes| ==>
      nodes[i].at == At(nodes[i].does.called, Calling(nodes[..i], nodes[i].does.called) + 1)
  }

  ghost predicate Counting(s: Wired) {
    CountedUp(s.nodes) && forall x :: Calling(s.nodes, x) == if x in s.seen then s.seen[x] else 0
  }

  lemma {:induction false} CallingMore(nodes: seq<Node>, node: Node)
    ensures (nodes + [node])[..|nodes|] == nodes
    ensures forall x :: Calling(nodes + [node], x) == Calling(nodes, x) + if node.does.called == x then 1 else 0
  {
    assert (nodes + [node])[..|nodes|] == nodes;
  }

  lemma {:induction false} NodedIs(s: Wired, called: Name, d: Declared, takes: seq<Reads>, binds: Name, l: Loose)
    returns (node: Node)
    ensures node.does.called == called && node.at == At(called, (if called in s.seen then s.seen[called] else 0) + 1)
    ensures
      var s1 := Noded(s, called, d, takes, binds, l).0;
      s1.nodes == s.nodes + [node] && s1.seen == s.seen[called := node.at.nth]
  {
    hide Joins;
    var s1 := Noded(s, called, d, takes, binds, l).0;
    node := s1.nodes[|s.nodes|];
    assert s1.nodes == s.nodes + [node];
  }

  lemma {:induction false} CountedMore(nodes: seq<Node>, node: Node)
    requires CountedUp(nodes) && node.at == At(node.does.called, Calling(nodes, node.does.called) + 1)
    ensures CountedUp(nodes + [node])
  {
    hide Calling;
    var more := nodes + [node];
    assert forall i :: 0 <= i <= |nodes| ==> more[..i] == nodes[..i];
    assert nodes[..|nodes|] == nodes;
  }

  lemma {:induction false} NodedCounts(s: Wired, called: Name, d: Declared, takes: seq<Reads>, binds: Name, l: Loose)
    requires Counting(s)
    ensures Counting(Noded(s, called, d, takes, binds, l).0)
  {
    hide Calling, Noded, CountedUp;
    var node := NodedIs(s, called, d, takes, binds, l);
    CallingMore(s.nodes, node);
    CountedMore(s.nodes, node);
  }

  lemma {:induction false} CalledCounts(c: Scope, s: Wired, st: Stmt, l: Loose)
    requires st.Call? && Counting(s)
    ensures Counting(Called(c, s, st, l).0)
  {
    hide Arguments, Counting, Noded;
    var s1 := if Target(st.targets).None? then Refuse(s, st) else s;
    StillCounts(s, s1);
    if st.callee.Some? && st.callee.value in c.decls && c.decls[st.callee.value].Some? {
      var d, binds := c.decls[st.callee.value].value, if Target(st.targets).None? then "" else Target(st.targets).value;
      var granted := Arguments(c, s1.bound, Quiet(s1), st.args, d.takes);
      if granted.Granted? {
        NodedCounts(s1, st.callee.value, d, granted.value, binds, l);
      }
    }
    if Called(c, s, st, l).0.nodes == s.nodes && Called(c, s, st, l).0.seen == s.seen {
      StillCounts(s, Called(c, s, st, l).0);
    }
  }

  lemma {:induction false} BlockCounts(c: Scope, s: Wired, stmts: seq<Stmt>, first: bool, l: Loose)
    requires Counting(s)
    ensures Counting(Block(c, s, stmts, first, l).0)
    decreases stmts
  {
    hide One, Counting;
    if stmts != [] {
      if Skipped(stmts[0], first) {
        BlockCounts(c, s, stmts[1..], false, l);
      } else if l == [] {
        StillCounts(s, Refuse(s, stmts[0]));
      } else {
        OneCounts(c, s, stmts[0], l);
        var (s1, l1) := One(c, s, stmts[0], l);
        BlockCounts(c, s1, stmts[1..], false, l1);
      }
    }
  }

  lemma {:induction false} StillCounts(s: Wired, s1: Wired)
    requires Counting(s) && s1.nodes == s.nodes && s1.seen == s.seen
    ensures Counting(s1)
  {
  }

  lemma {:induction false} OneCounts(c: Scope, s: Wired, st: Stmt, l: Loose)
    requires Counting(s)
    ensures Counting(One(c, s, st, l).0)
    decreases st
  {
    hide Counting, Called, Branch, Loop;
    match st
    case Call(_, _, _, _) => CalledCounts(c, s, st, l);
    case If(_, _, _) => BranchCounts(c, s, st, l);
    case While(_, _, _) => LoopCounts(c, s, st, l);
    case _ => StillCounts(s, One(c, s, st, l).0);
  }

  lemma {:induction false} BranchCounts(c: Scope, s: Wired, st: Stmt, l: Loose)
    requires st.If? && Counting(s)
    ensures Counting(Branch(c, s, st, l).0)
    decreases st, 0
  {
    hide Counting, Branched, Block;
    match Branched(c, s, st.test, l)
    case Granted(read) =>
      var yes, no := Guarded(l, When(read, !st.test.inverted)), Guarded(l, When(read, st.test.inverted));
      BlockCounts(c, s, st.body, true, yes);
      var s1 := Block(c, s, st.body, true, yes).0;
      StillCounts(s1, s1.(bound := s.bound));
      BlockCounts(c, s1.(bound := s.bound), st.orelse, true, no);
      StillCounts(Block(c, s1.(bound := s.bound), st.orelse, true, no).0, Branch(c, s, st, l).0);
    case _ => StillCounts(s, Branch(c, s, st, l).0);
  }

  lemma {:induction false} LoopCounts(c: Scope, s: Wired, st: Stmt, l: Loose)
    requires st.While? && Counting(s)
    ensures Counting(Loop(c, s, st, l).0)
    decreases st, 0
  {
    hide Counting, Branched, Block, Twice, Endless;
    var s1 := Loop(c, s, st, l).0;
    if |l| == 1 && Branched(c, s, st.test, l).Granted? {
      var inside := [End(l[0].at, Some(When(Branched(c, s, st.test, l).value, !st.test.inverted)))];
      BlockCounts(c, s, st.body, true, inside);
      var s2 := Block(c, s, st.body, true, inside).0;
      if s1.nodes == s2.nodes && s1.seen == s2.seen {
        StillCounts(s2, s1);
      }
    }
    if s1.nodes == s.nodes && s1.seen == s.seen {
      StillCounts(s, s1);
    }
  }

  /** In every compiled graph the first call of anything is its first node, and so on up: none is left out, in the
  order of the text. */
  lemma {:induction false} CompiledCountsUp(c: Scope, body: seq<Stmt>)
    ensures CountedUp(Compiled(c, body).nodes)
  {
    hide Block;
    BlockCounts(c, START, body, true, [End(Way, None)]);
  }
}
