/** Three bodies that compile and should not be trusted to: what becomes of each in a run, and so why none of
them is steady. */
module Gaps {
  import opened Prelude
  import opened Atlas
  import opened Body
  import opened WiringSpec
  import opened Running
  import opened Structure
  import opened Meaning
  import opened Soundness

  /** Three functions of text, the last answering with a number. */
  function Returns(called: Name): Shape {
    if called == "k" then "int" else "str"
  }

  function Declaration(called: Name): Option<Declared> {
    Some(Declared(Logic, [Param("x", "str")], Returns(called), true, ""))
  }

  const CALLED: set<Name> := {"f", "g", "k"}

  const SCOPE := Scope(map["task" := Input],
                       map["f" := Declaration("f"), "g" := Declaration("g"), "k" := Declaration("k")],
                       [], "str", "", "", map[], map[])

  function Source(arg: Name): Source {
    if arg == "task" then Input else Bound(arg)
  }

  function Gives(binds: Name, called: Name, arg: Name): Stmt {
    Call(if binds == "" then [] else [Some(binds)], Some(called), true, [Word(arg)])
  }

  function Giving(binds: Name, called: Name, arg: Name): Deed {
    Deed(Logic, called, called, [Reads(Source(arg), "")], binds, Returns(called), true, "")
  }

  /** A world in which every node answers with one value of its shape, which counts as `truth`. */
  function Answering(truth: bool): World {
    World((before: seq<Event>, d: Deed, args: seq<Seen>) => if d.gives == "" then Missing else Value(d.gives, 0),
          (v: Value, f: Name) => Missing, (v: Value, f: Name) => None, (v: Value) => truth,
          Missing, Value("str", 0), Missing)
  }

  /* ---- One statement at a time ---- */

  lemma {:induction false} Next(s: Wired, stmts: seq<Stmt>, first: bool, l: Loose)
    requires stmts != [] && l != [] && !stmts[0].Pass? && !stmts[0].Docstring?
    ensures Block(SCOPE, s, stmts, first, l)
         == Block(SCOPE, One(SCOPE, s, stmts[0], l).0, stmts[1..], false, One(SCOPE, s, stmts[0], l).1)
  {
  }

  /** Every node here is named after what it calls. */
  predicate Plain(s: Wired) {
    forall i :: 0 <= i < |s.nodes| ==> s.nodes[i].at.At? && s.nodes[i].does.calls == s.nodes[i].at.called
  }

  lemma {:induction false} NamedAfter(s: Wired, at: At)
    requires Plain(s) && at.At? && NodeAt(s.nodes, at).Some?
    ensures NodeAt(s.nodes, at).value.does.calls == at.called
  {
    FoundNode(s.nodes, at);
  }

  lemma {:induction false} CallCompiles(s: Wired, binds: Name, called: Name, arg: Name, l: Loose)
    returns (s1: Wired, at: At)
    requires called in CALLED && binds != "task"
    requires arg == "task" || (arg in s.bound && s.bound[arg] == "str")
    requires binds == "" || (binds in s.bound ==> s.bound[binds] == Returns(called))
    ensures One(SCOPE, s, Gives(binds, called, arg), l) == (s1, [End(at, None)])
    ensures s1.found == s.found && s1.nodes == s.nodes + [Node(at, Giving(binds, called, arg))]
    ensures Plain(s) ==> Plain(s1)
    ensures NodeAt(s1.nodes, at).Some?
    ensures s1.bound == if binds == "" then s.bound else s.bound[binds := Returns(called)]
    ensures s1.seen == s.seen[called := at.nth]
    ensures at == At(called, (if called in s.seen then s.seen[called] else 0) + 1)
  {
    hide Arguments, Plain, NodeAt;
    ArgumentGranted(s, called, arg);
    CallIsNode(s, binds, called, arg, l);
    s1, at := Noded(s, called, Declaration(called).value, [Reads(Source(arg), "")], binds, l).0, At(called,
        (if called in s.seen then s.seen[called] else 0) + 1);
    OneMore(s, s1, Node(at, Giving(binds, called, arg)));
  }

  lemma {:induction false} OneMore(s: Wired, s1: Wired, node: Node)
    requires s1.nodes == s.nodes + [node] && node.at.At? && node.does.calls == node.at.called
    ensures NodeAt(s1.nodes, node.at).Some? && (Plain(s) ==> Plain(s1))
  {
    FoundNode(s1.nodes, node.at);
    assert s1.nodes[|s.nodes|] == node;
  }

  lemma {:induction false} ArgumentGranted(s: Wired, called: Name, arg: Name)
    requires arg == "task" || (arg in s.bound && s.bound[arg] == "str")
    ensures Arguments(SCOPE, s.bound, Quiet(s), [Word(arg)], Declaration(called).value.takes) ==
            Granted([Reads(Source(arg), "")])
  {
    var args, takes := [Word(arg)], Declaration(called).value.takes;
    assert Arguments(SCOPE, s.bound, Quiet(s), args[1..], takes[1..]) == Granted([]);
    assert [Reads(Source(arg), "")] + [] == [Reads(Source(arg), "")];
  }

  lemma {:induction false} CallIsNode(s: Wired, binds: Name, called: Name, arg: Name, l: Loose)
    requires called in CALLED && binds != "task"
    requires Arguments(SCOPE, s.bound, Quiet(s), [Word(arg)], Declaration(called).value.takes) ==
             Granted([Reads(Source(arg), "")])
    ensures One(SCOPE, s, Gives(binds, called, arg), l)
         == Noded(s, called, Declaration(called).value, [Reads(Source(arg), "")], binds, l)
  {
    hide Arguments, Noded;
  }

  lemma {:induction false} CallRuns(w: World, stmts: seq<Stmt>, binds: Name, called: Name, arg: Name, st: State,
                                    last: Option<Deed>, n: nat)
    requires stmts != [] && stmts[0] == Gives(binds, called, arg) && called in CALLED && binds != "task" && n > 0
    ensures Exec(w, SCOPE, stmts, st, last, n)
         == Exec(w, SCOPE, stmts[1..], Do(w, Giving(binds, called, arg), st), Some(Giving(binds, called, arg)), n - 1)
  {
    assert AllReads(SCOPE, [Word(arg)][1..]) == Some([]);
    assert [Reads(Source(arg), "")] + [] == [Reads(Source(arg), "")];
    assert AllReads(SCOPE, [Word(arg)]) == Some([Reads(Source(arg), "")]);
  }

  /* ---- A name only a loop binds ---- */

  const ROUND: seq<Stmt> := [Gives("a", "f", "h"), Gives("b", "f", "a")]
  const AROUND := While(Test(false, Word("h")), ROUND, [])

  /** `b` is bound by the loop's body alone, and the loop may run no round. */
  const AFTER_A_LOOP: seq<Stmt> := [Gives("a", "f", "task"), Gives("h", "g", "a"), AROUND, Gives("", "f", "b")]

  lemma {:induction false} RoundCompiles(s: Wired, l: Loose)
    requires s.bound == map["a" := "str", "h" := "str"] && s.found == [] && |l| == 1 && l[0].when.None?
    requires Plain(s) && NodeAt(s.nodes, l[0].at) == Some(Node(l[0].at, Giving("h", "g", "a")))
    ensures One(SCOPE, s, AROUND, l).0.found == [] && |One(SCOPE, s, AROUND, l).1| == 1
    ensures "b" in One(SCOPE, s, AROUND, l).0.bound && One(SCOPE, s, AROUND, l).0.bound["b"] == "str"
  {
    hide Block, One, Plain, Assigned, Loop;
    var opens := [End(l[0].at, Some(When(Reads(Bound("h"), ""), true)))];
    HeadAsked(s, l);
    var s1, at1 := CallCompiles(s, "a", "f", "h", opens);
    Next(s, ROUND, true, opens);
    var s2, at2 := CallCompiles(s1, "b", "f", "a", [End(at1, None)]);
    Next(s1, ROUND[1..], false, [End(at1, None)]);
    Done(s2, ROUND[2..], [End(at2, None)]);
    NamedAfter(s2, at2);
    LoopIs(s, s2, l, at2);
  }

  lemma {:induction false} HeadAsked(s: Wired, l: Loose)
    requires "h" in s.bound && s.bound["h"] == "str" && |l| == 1 && l[0].when.None?
    requires NodeAt(s.nodes, l[0].at) == Some(Node(l[0].at, Giving("h", "g", "a")))
    ensures Branched(SCOPE, s, Test(false, Word("h")), l) == Granted(Reads(Bound("h"), ""))
  {
    assert Unbranched(s, l[1..]) == None;
  }

  lemma {:induction false} Done(s: Wired, stmts: seq<Stmt>, l: Loose)
    requires stmts == []
    ensures Block(SCOPE, s, stmts, false, l) == (s, l)
  {
  }

  lemma {:induction false} RoundAssigns()
    ensures "a" in AssignedIn(AROUND)
  {
    assert Assigned(ROUND) == AssignedIn(ROUND[0]) + Assigned(ROUND[1..]);
    assert Some("a") in [Some("a")];
  }

  /** The loop around a round that compiled: not ending with its head, nor endless. */
  lemma {:induction false} LoopIs(s: Wired, s1: Wired, l: Loose, at: At)
    requires |l| == 1 && NodeAt(s.nodes, l[0].at) == Some(Node(l[0].at, Giving("h", "g", "a")))
    requires Branched(SCOPE, s, Test(false, Word("h")), l) == Granted(Reads(Bound("h"), ""))
    requires Block(SCOPE, s, ROUND, true, [End(l[0].at, Some(When(Reads(Bound("h"), ""), true)))]) ==
             (s1, [End(at, None)])
    requires NodeAt(s1.nodes, at).Some? && NodeAt(s1.nodes, at).value.does.calls == "f"
    ensures One(SCOPE, s, AROUND, l).0.found == s1.found && One(SCOPE, s, AROUND, l).0.bound == s1.bound
    ensures |One(SCOPE, s, AROUND, l).1| == 1
  {
    hide Block, NodeAt, Branched, Assigned;
    var head := Giving("h", "g", "a");
    RoundAssigns();
    assert head.takes[0].source == Bound("a");
    assert !Endless(AROUND, head);
    assert !Twice(s1, head, [End(at, None)]) by {
      assert "f" != "g";
    }
  }

  /** What a loop's body binds counts as bound below the loop: this body compiles, and a run of
  it hands its last node a name nothing has bound. */
  lemma {:induction false} LoopBodyCountsAsBound()
    ensures Compiles(SCOPE, AFTER_A_LOOP)
    ensures
      var trace := Walk(Answering(false), Compiled(SCOPE, AFTER_A_LOOP), Way, Begun(Answering(false)), 3).s.trace;
      |trace| == 4 && trace[3].Did? && trace[3].args == [Unbound]
  {
    assert Plain(START);
    hide Block, One, Walk, Exec, Plain;
    var body, way := AFTER_A_LOOP, [End(Way, None)];
    var s1, at1 := CallCompiles(START, "a", "f", "task", way);
    Next(START, body, true, way);
    var s2, at2 := CallCompiles(s1, "h", "g", "a", [End(at1, None)]);
    Next(s1, body[1..], false, [End(at1, None)]);
    assert At("f", 1) != At("g", 1);
    assert s2.nodes == [Node(At("f", 1), Giving("a", "f", "task")), Node(At("g", 1), Giving("h", "g", "a"))];
    assert NodeAt(s2.nodes[1..], at2) == Some(s2.nodes[1]);
    RoundCompiles(s2, [End(at2, None)]);
    var (s3, l3) := One(SCOPE, s2, AROUND, [End(at2, None)]);
    Next(s2, body[2..], false, [End(at2, None)]);
    var s4, at4 := CallCompiles(s3, "", "f", "b", l3);
    Next(s3, body[3..], false, l3);
    Done(s4, body[4..], [End(at4, None)]);
    AfterALoopRuns();
    CompilingPreservesMeaning(Answering(false), SCOPE, body, 3);
  }

  lemma {:induction false} AfterALoopRuns()
    ensures
      var trace := Executed(Answering(false), SCOPE, AFTER_A_LOOP, 3).s.trace;
      |trace| == 4 && trace[3].Did? && trace[3].args == [Unbound]
  {
    hide Exec;
    var body := AFTER_A_LOOP;
    var w := Answering(false);
    var st1 := Do(w, Giving("a", "f", "task"), Begun(w));
    var st2 := Do(w, Giving("h", "g", "a"), st1);
    CallRuns(w, body, "a", "f", "task", Begun(w), None, 3);
    CallRuns(w, body[1..], "h", "g", "a", st1, Some(Giving("a", "f", "task")), 2);
    var st3 := Ask(w, Reads(Bound("h"), ""), st2);
    LoopSkipped(w, body[2..], st2, Some(Giving("h", "g", "a")), 1);
    CallRuns(w, body[3..], "", "f", "b", st3, Some(Giving("h", "g", "a")), 1);
    Bottom(w, body[4..], Do(w, Giving("", "f", "b"), st3), Some(Giving("", "f", "b")), 0);
  }

  lemma {:induction false} Bottom(w: World, stmts: seq<Stmt>, st: State, last: Option<Deed>, n: nat)
    requires stmts == []
    ensures Exec(w, SCOPE, stmts, st, last, n) == Fell(st, last, n)
  {
  }

  lemma {:induction false} LoopSkipped(w: World, stmts: seq<Stmt>, st: State, last: Option<Deed>, n: nat)
    requires stmts != [] && stmts[0] == AROUND && last.Some? && !Truth(w, Look(w, st.env, Reads(Bound("h"), "")))
    ensures Exec(w, SCOPE, stmts, st, last, n) == Exec(w, SCOPE, stmts[1..], Ask(w, Reads(Bound("h"), ""), st), last, n)
  {
  }

  /* ---- A head that reads what a branch bound ---- */

  const HEAD_ARM: seq<Stmt> := [Gives("y", "f", "task"), Gives("h", "g", "y")]
  const TURNED: seq<Stmt> := [Gives("y", "k", "task")]
  const AROUND_TURNED := While(Test(false, Word("h")), TURNED, [])
  const ARMED := If(Test(false, Word("z")), HEAD_ARM, [Return(None)])

  /** The head reads `y` as one arm bound it, at "str"; below the branch `y` is bound no longer, and
  the loop binds it at "int". */
  const A_HEAD_IN_AN_ARM: seq<Stmt> := [Gives("h", "f", "task"), Gives("z", "f", "task"), ARMED, AROUND_TURNED]

  lemma {:induction false} ReturnCompiles(s: Wired, l: Loose)
    requires l != []
    ensures Block(SCOPE, s, [Return(None)], true, l) == (s.(edges := s.edges + Joins(l, Way, None)), [])
  {
    hide Joins;
    assert [Return(None)][1..] == [];
  }

  lemma {:induction false} ArmCompiles(s: Wired, at: At) returns (s1: Wired, head: At)
    requires s.bound == map["h" := "str", "z" := "str"] && s.found == []
    requires Plain(s) && at.At? && NodeAt(s.nodes, at) == Some(Node(at, Giving("z", "f", "task")))
    requires at == At("f", 2) && s.seen == map["f" := 2]
    requires |s.nodes| == 2 && s.nodes[0].at == At("f", 1) && s.nodes[1].at == At("f", 2)
    ensures One(SCOPE, s, ARMED, [End(at, None)]) == (s1, [End(head, None)])
    ensures s1.found == [] && s1.bound == map["h" := "str", "z" := "str"] && Plain(s1)
    ensures NodeAt(s1.nodes, head) == Some(Node(head, Giving("h", "g", "y")))
  {
    hide Block, One, Plain;
    var read := Reads(Bound("z"), "");
    var l := [End(at, None)];
    assert Unbranched(s, l[1..]) == None;
    assert Branched(SCOPE, s, Test(false, Word("z")), l) == Granted(read);
    var yes, no := Guarded(l, When(read, true)), Guarded(l, When(read, false));
    var a, at1 := CallCompiles(s, "y", "f", "task", yes);
    Next(s, HEAD_ARM, true, yes);
    var b, at2 := CallCompiles(a, "h", "g", "y", [End(at1, None)]);
    Next(a, HEAD_ARM[1..], false, [End(at1, None)]);
    Done(b, HEAD_ARM[2..], [End(at2, None)]);
    var was := b.(bound := s.bound);
    ReturnCompiles(was, no);
    ArmedIs(s, l, b, at2);
    s1, head := One(SCOPE, s, ARMED, l).0, at2;
    PlainNodes(b, s1);
    HeadFound(s, a, b);
  }

  lemma {:induction false} PlainNodes(s: Wired, s1: Wired)
    requires Plain(s) && s1.nodes == s.nodes
    ensures Plain(s1)
  {
  }

  /** The fourth node is the only `g`. */
  lemma {:induction false} HeadFound(s: Wired, a: Wired, b: Wired)
    requires |s.nodes| == 2 && s.nodes[0].at == At("f", 1) && s.nodes[1].at == At("f", 2)
    requires a.nodes == s.nodes + [Node(At("f", 3), Giving("y", "f", "task"))]
    requires b.nodes == a.nodes + [Node(At("g", 1), Giving("h", "g", "y"))]
    ensures NodeAt(b.nodes, At("g", 1)) == Some(Node(At("g", 1), Giving("h", "g", "y")))
  {
    hide Giving;
    assert "f" != "g";
    forall i, j | 0 <= i < j < |b.nodes|
      ensures b.nodes[i].at != b.nodes[j].at
    {
    }
    NamedNode(b.nodes, 3);
  }

  lemma {:induction false} ArmedIs(s: Wired, l: Loose, b: Wired, at: At)
    requires Branched(SCOPE, s, Test(false, Word("z")), l) == Granted(Reads(Bound("z"), ""))
    requires Block(SCOPE, s, HEAD_ARM, true, Guarded(l, When(Reads(Bound("z"), ""), true))) == (b, [End(at, None)])
    requires l != [] && s.bound == map["h" := "str", "z" := "str"]
    requires b.bound == map["h" := "str", "z" := "str", "y" := "str"]
    ensures
      var (s1, open) := One(SCOPE, s, ARMED, l);
      && s1.found == b.found && s1.bound == s.bound && s1.nodes == b.nodes && s1.seen == b.seen
      && open == [End(at, None)]
  {
    hide Block, Branched;
    var no := Guarded(l, When(Reads(Bound("z"), ""), false));
    ReturnCompiles(b.(bound := s.bound), no);
    assert Both(b.bound, s.bound) == s.bound;
  }

  lemma {:induction false} TurnedCompiles(s: Wired, head: At) returns (s1: Wired, open: End)
    requires s.bound == map["h" := "str", "z" := "str"] && s.found == [] && Plain(s)
    requires NodeAt(s.nodes, head) == Some(Node(head, Giving("h", "g", "y")))
    ensures One(SCOPE, s, AROUND_TURNED, [End(head, None)]) == (s1, [open]) && s1.found == []
  {
    hide Block, One, Plain, Assigned;
    var l := [End(head, None)];
    var read := Reads(Bound("h"), "");
    var opens := [End(head, Some(When(read, true)))];
    assert Unbranched(s, l[1..]) == None;
    assert Branched(SCOPE, s, Test(false, Word("h")), l) == Granted(read);
    var s2, at := CallCompiles(s, "y", "k", "task", opens);
    Next(s, TURNED, true, opens);
    Done(s2, TURNED[1..], [End(at, None)]);
    NamedAfter(s2, at);
    TurnedIs(s, head, s2, at);
    s1, open := One(SCOPE, s, AROUND_TURNED, l).0, One(SCOPE, s, AROUND_TURNED, l).1[0];
    assert One(SCOPE, s, AROUND_TURNED, l).1 == [open];
  }

  lemma {:induction false} TurnedIs(s: Wired, head: At, s1: Wired, at: At)
    requires NodeAt(s.nodes, head) == Some(Node(head, Giving("h", "g", "y")))
    requires Branched(SCOPE, s, Test(false, Word("h")), [End(head, None)]) == Granted(Reads(Bound("h"), ""))
    requires Block(SCOPE, s, TURNED, true, [End(head, Some(When(Reads(Bound("h"), ""), true)))]) ==
             (s1, [End(at, None)])
    requires NodeAt(s1.nodes, at).Some? && NodeAt(s1.nodes, at).value.does.calls == "k"
    ensures
      var (s2, open) := One(SCOPE, s, AROUND_TURNED, [End(head, None)]);
      s2.found == s1.found && |open| == 1
  {
    hide Block, NodeAt, Branched;
    var above := Giving("h", "g", "y");
    assert Assigned(TURNED) == AssignedIn(TURNED[0]) + Assigned(TURNED[1..]);
    assert Some("y") in [Some("y")] && "y" in AssignedIn(AROUND_TURNED);
    assert above.takes[0].source == Bound("y");
    assert !Endless(AROUND_TURNED, above);
    assert !Twice(s1, above, [End(at, None)]) by {
      assert "k" != "g";
    }
  }

  /** The two calls the body begins with. */
  lemma {:induction false} HeadBegins() returns (s: Wired, at: At)
    ensures Block(SCOPE, START, A_HEAD_IN_AN_ARM, true, [End(Way, None)])
         == Block(SCOPE, s, A_HEAD_IN_AN_ARM[2..], false, [End(at, None)])
    ensures s.bound == map["h" := "str", "z" := "str"] && s.found == [] && Plain(s) && s.seen == map["f" := 2]
    ensures at == At("f", 2) && NodeAt(s.nodes, at) == Some(Node(at, Giving("z", "f", "task")))
    ensures |s.nodes| == 2 && s.nodes[0].at == At("f", 1) && s.nodes[1].at == At("f", 2)
  {
    assert Plain(START);
    hide Block, One, Plain;
    var body, way := A_HEAD_IN_AN_ARM, [End(Way, None)];
    var s1, at1 := CallCompiles(START, "h", "f", "task", way);
    Next(START, body, true, way);
    s, at := CallCompiles(s1, "z", "f", "task", [End(at1, None)]);
    Next(s1, body[1..], false, [End(at1, None)]);
    assert s.nodes == [Node(At("f", 1), Giving("h", "f", "task")), Node(At("f", 2), Giving("z", "f", "task"))];
    assert NodeAt(s.nodes[1..], at) == Some(s.nodes[1]);
  }

  lemma {:induction false} HeadCompiles()
    ensures Compiles(SCOPE, A_HEAD_IN_AN_ARM)
  {
    hide Block, One, Plain, NodeAt, Giving;
    var body := A_HEAD_IN_AN_ARM;
    var s2, at2 := HeadBegins();
    var s3, head := ArmCompiles(s2, at2);
    Next(s2, body[2..], false, [End(at2, None)]);
    var s4, open := TurnedCompiles(s3, head);
    Next(s3, body[3..], false, [End(head, None)]);
    Done(s4, body[4..], [open]);
    assert s4.nodes != [];
  }

  /** This body compiles, and on the second round its head, which takes text, is handed a number. */
  lemma {:induction false} HeadReadsAnotherShape()
    ensures Compiles(SCOPE, A_HEAD_IN_AN_ARM)
    ensures
      var trace := Walk(Answering(true), Compiled(SCOPE, A_HEAD_IN_AN_ARM), Way, Begun(Answering(true)), 6).s.trace;
      |trace| > 7 && trace[7].Did? && trace[7].deed == Giving("h", "g", "y")
      && trace[7].args == [Holds(Value("int", 0))]
    ensures Declaration("g").value.takes == [Param("x", "str")]
  {
    hide Compiles, Compiled, Walk, Executed;
    HeadCompiles();
    ArmedRuns();
    CompilingPreservesMeaning(Answering(true), SCOPE, A_HEAD_IN_AN_ARM, 6);
  }

  lemma {:induction false} BranchTaken(w: World, stmts: seq<Stmt>, st: State, last: Option<Deed>, n: nat)
    requires stmts != [] && stmts[0] == ARMED && Truth(w, Look(w, st.env, Reads(Bound("z"), "")))
    ensures
      var o := Exec(w, SCOPE, HEAD_ARM, Ask(w, Reads(Bound("z"), ""), st), last, n);
      Exec(w, SCOPE, stmts, st, last, n) == if o.Fell? then Exec(w, SCOPE, stmts[1..], o.s, o.last, o.left) else o
  {
  }

  lemma {:induction false} RoundTaken(w: World, stmts: seq<Stmt>, st: State, last: Option<Deed>, n: nat)
    requires stmts != [] && stmts[0] == AROUND_TURNED && last.Some?
    requires Truth(w, Look(w, st.env, Reads(Bound("h"), "")))
    ensures
      var o := Exec(w, SCOPE, TURNED, Ask(w, Reads(Bound("h"), ""), st), last, n);
      Exec(w, SCOPE, stmts, st, last, n) ==
      if !o.Fell? then o
      else if o.left == 0 then Pausing(o.s)
      else Exec(w, SCOPE, stmts, Do(w, last.value, o.s), last, o.left - 1)
  {
  }

  /** The run through the arm, and the run round the loop until the nodes are spent. */
  lemma {:induction false} ArmRuns(w: World, st2: State)
    requires Truth(w, Look(w, st2.env, Reads(Bound("z"), "")))
    ensures
      var st4 := Do(w, Giving("y", "f", "task"), Ask(w, Reads(Bound("z"), ""), st2));
      Exec(w, SCOPE, A_HEAD_IN_AN_ARM[2..], st2, Some(Giving("z", "f", "task")), 4)
      == Exec(w, SCOPE, [AROUND_TURNED], Do(w, Giving("h", "g", "y"), st4), Some(Giving("h", "g", "y")), 2)
  {
    hide Exec, Do, Look, Truth, Ask, Giving;
    var y, z, g := Giving("y", "f", "task"), Giving("z", "f", "task"), Giving("h", "g", "y");
    BranchTaken(w, A_HEAD_IN_AN_ARM[2..], st2, Some(z), 4);
    var st3 := Ask(w, Reads(Bound("z"), ""), st2);
    CallRuns(w, HEAD_ARM, "y", "f", "task", st3, Some(z), 4);
    CallRuns(w, HEAD_ARM[1..], "h", "g", "y", Do(w, y, st3), Some(y), 3);
    Bottom(w, HEAD_ARM[2..], Do(w, g, Do(w, y, st3)), Some(g), 2);
    assert A_HEAD_IN_AN_ARM[2..][1..] == [AROUND_TURNED];
  }

  lemma {:induction false} LoopRuns(w: World, st5: State)
    requires Truth(w, Look(w, st5.env, Reads(Bound("h"), "")))
    ensures
      var g := Giving("h", "g", "y");
      var st8 := Do(w, g, Do(w, Giving("y", "k", "task"), Ask(w, Reads(Bound("h"), ""), st5)));
      Truth(w, Look(w, st8.env, Reads(Bound("h"), ""))) ==>
        Exec(w, SCOPE, [AROUND_TURNED], st5, Some(g), 2) == Pausing(Ask(w, Reads(Bound("h"), ""), st8))
  {
    hide Exec, Do, Look, Truth, Ask, Giving;
    var loop, k, g := [AROUND_TURNED], Giving("y", "k", "task"), Giving("h", "g", "y");
    RoundTaken(w, loop, st5, Some(g), 2);
    var st6 := Ask(w, Reads(Bound("h"), ""), st5);
    var st7 := Do(w, k, st6);
    CallRuns(w, TURNED, "y", "k", "task", st6, Some(g), 2);
    Bottom(w, TURNED[1..], st7, Some(k), 1);
    var st8 := Do(w, g, st7);
    if Truth(w, Look(w, st8.env, Reads(Bound("h"), ""))) {
      RoundTaken(w, loop, st8, Some(g), 0);
      OutOfNodes(w, TURNED, Ask(w, Reads(Bound("h"), ""), st8), Some(g));
    }
  }

  lemma {:induction false} ArmedRuns()
    ensures
      var trace := Executed(Answering(true), SCOPE, A_HEAD_IN_AN_ARM, 6).s.trace;
      |trace| > 7 && trace[7].Did? && trace[7].deed == Giving("h", "g", "y")
      && trace[7].args == [Holds(Value("int", 0))]
  {
    hide Exec;
    var body, w := A_HEAD_IN_AN_ARM, Answering(true);
    var f, z, y, g, k := Giving("h", "f", "task"), Giving("z", "f", "task"), Giving("y", "f", "task"),
                         Giving("h", "g", "y"), Giving("y", "k", "task");
    var st1 := Do(w, f, Begun(w));
    var st2 := Do(w, z, st1);
    CallRuns(w, body, "h", "f", "task", Begun(w), None, 6);
    CallRuns(w, body[1..], "z", "f", "task", st1, Some(f), 5);
    ArmRuns(w, st2);
    LoopRuns(w, Do(w, g, Do(w, y, Ask(w, Reads(Bound("z"), ""), st2))));
  }

  lemma {:induction false} OutOfNodes(w: World, stmts: seq<Stmt>, st: State, last: Option<Deed>)
    requires stmts == TURNED
    ensures Exec(w, SCOPE, stmts, st, last, 0) == Pausing(st)
  {
    assert AllReads(SCOPE, [Word("task")][1..]) == Some([]);
    assert [Reads(Input, "")] + [] == [Reads(Input, "")];
    assert AllReads(SCOPE, [Word("task")]) == Some([Reads(Input, "")]);
  }

  /* ---- A return of nothing ---- */

  const RETURNS_UNBOUND: seq<Stmt> := [Gives("", "f", "task"), Return(Some(Word("nope")))]

  /** An atlas that answers with nothing may return a name nothing has bound: this body compiles, and its way
  out answers with a name no run of it holds. */
  lemma {:induction false} ReturnsAnUnboundName(w: World)
    ensures Compiles(SCOPE, RETURNS_UNBOUND)
    ensures
      var r := Walk(w, Compiled(SCOPE, RETURNS_UNBOUND), Way, Begun(w), 1);
      r.Ended? && r.answers == Some(Bound("nope")) && Bound("nope") !in r.s.env && Answer(r) == Missing
  {
    hide Block, One, Walk, Exec;
    var body, way := RETURNS_UNBOUND, [End(Way, None)];
    var s1, at := CallCompiles(START, "", "f", "task", way);
    Next(START, body, true, way);
    Next(s1, body[1..], false, [End(at, None)]);
    UnboundReturned(s1, [End(at, None)]);
    Done(One(SCOPE, s1, body[1], [End(at, None)]).0, body[2..], []);
    CallRuns(w, body, "", "f", "task", Begun(w), None, 1);
    ReturnRuns(w, body[1..], Do(w, Giving("", "f", "task"), Begun(w)), Some(Giving("", "f", "task")));
    CompilingPreservesMeaning(w, SCOPE, body, 1);
  }

  lemma {:induction false} UnboundReturned(s: Wired, l: Loose)
    requires "nope" !in s.bound
    ensures One(SCOPE, s, Return(Some(Word("nope"))), l) ==
            (s.(edges := s.edges + Joins(l, Way, Some(Bound("nope")))), [])
  {
  }

  lemma {:induction false} ReturnRuns(w: World, stmts: seq<Stmt>, st: State, last: Option<Deed>)
    requires stmts != [] && stmts[0] == Return(Some(Word("nope")))
    ensures Exec(w, SCOPE, stmts, st, last, 0) == Returning(st, Some(Bound("nope")))
  {
  }

  /* ---- None of them is steady ---- */

  lemma {:induction false} AnsweringHonest(truth: bool)
    ensures Honest(Answering(truth), SCOPE, true)
  {
    var w := Answering(truth);
    forall before, d: Deed, args
      ensures HasShape(w.answer(before, d, args), d.gives, true)
    {
      assert w.answer(before, d, args) == if d.gives == "" then Missing else Value(d.gives, 0);
    }
  }

  lemma {:induction false} LoopBodyUnsteady()
    ensures !SteadyBody(SCOPE, AFTER_A_LOOP)
  {
    hide Compiles, Compiled, Walk, SteadyBody, Honest;
    LoopBodyCountsAsBound();
    AnsweringHonest(false);
    var r := Walk(Answering(false), Compiled(SCOPE, AFTER_A_LOOP), Way, Begun(Answering(false)), 3);
    assert !Suits(Answering(false), SCOPE, r.s.trace[3].args[0], Wanted(SCOPE, r.s.trace[3].deed, 0), true);
    assert !Sane(Answering(false), SCOPE, r.s.trace[3], true);
    if SteadyBody(SCOPE, AFTER_A_LOOP) {
      RunsSound(Answering(false), SCOPE, AFTER_A_LOOP, 3, true);
    }
  }

  lemma {:induction false} HeadUnsteady()
    ensures !SteadyBody(SCOPE, A_HEAD_IN_AN_ARM)
  {
    hide Compiles, Compiled, Walk, SteadyBody, Honest;
    HeadReadsAnotherShape();
    AnsweringHonest(true);
    var r := Walk(Answering(true), Compiled(SCOPE, A_HEAD_IN_AN_ARM), Way, Begun(Answering(true)), 6);
    assert Wanted(SCOPE, Giving("h", "g", "y"), 0) == "str" && Returns("k") == "int";
    assert !Suits(Answering(true), SCOPE, r.s.trace[7].args[0], Wanted(SCOPE, r.s.trace[7].deed, 0), true);
    assert !Sane(Answering(true), SCOPE, r.s.trace[7], true);
    if SteadyBody(SCOPE, A_HEAD_IN_AN_ARM) {
      RunsSound(Answering(true), SCOPE, A_HEAD_IN_AN_ARM, 6, true);
    }
  }

  lemma {:induction false} ReturnUnsteady()
    ensures !SteadyBody(SCOPE, RETURNS_UNBOUND)
  {
    hide Compiles, Compiled, Walk, SteadyBody, Honest;
    ReturnsAnUnboundName(Answering(true));
    AnsweringHonest(true);
    if SteadyBody(SCOPE, RETURNS_UNBOUND) {
      RunsSound(Answering(true), SCOPE, RETURNS_UNBOUND, 1, true);
    }
  }

  /** Each of the three compiles, and the check tells it from a body that can be trusted to. */
  lemma {:induction false} NoneSteady()
    ensures forall body :: body in {AFTER_A_LOOP, A_HEAD_IN_AN_ARM, RETURNS_UNBOUND} ==>
              Compiles(SCOPE, body) && !SteadyBody(SCOPE, body)
  {
    hide Compiles, Compiled, Walk, SteadyBody;
    LoopBodyCountsAsBound();
    LoopBodyUnsteady();
    HeadReadsAnotherShape();
    HeadUnsteady();
    ReturnsAnUnboundName(Answering(true));
    ReturnUnsteady();
  }
}
