/** The dead-loop finding is right: a loop whose head reads nothing the loop assigns is left by a
`return` inside it or not at all. */
module DeadLoops {
  import opened Prelude
  import opened Atlas
  import opened Body
  import opened WiringSpec
  import opened Running

  /** Whether a name stands as it stood. */
  predicate Agrees(source: Source, before: Env, after: Env) {
    (source in before <==> source in after) && (source in before ==> before[source] == after[source])
  }

  predicate Spares(d: Option<Deed>, source: Source) {
    d.None? || d.value.binds == "" || source != Bound(d.value.binds)
  }

  predicate Spared(s: State, o: Outcome, source: Source) {
    Agrees(source, s.env, o.s.env) && (o.Fell? ==> Spares(o.last, source))
  }

  lemma {:induction false} DoSpares(w: World, d: Deed, s: State, source: Source)
    requires Spares(Some(d), source)
    ensures Agrees(source, s.env, Do(w, d, s).env)
  {
  }

  lemma {:induction false} CallSpares(c: Scope, call: Stmt, source: Source)
    requires call.Call? && DeedOf(c, call).Some?
    requires source.Bound? ==> source.name !in AssignedIn(call)
    ensures Spares(DeedOf(c, call), source)
  {
    var binds := DeedOf(c, call).value.binds;
    assert call.targets != [] ==> call.targets == [Some(binds)] && Some(binds) in call.targets;
  }

  /** Executing statements leaves alone every name they assign nothing to. */
  lemma {:induction false} Untouched(w: World, c: Scope, stmts: seq<Stmt>, s: State, last: Option<Deed>, n: nat,
                                     source: Source)
    requires source.Bound? ==> source.name !in Assigned(stmts)
    requires Spares(last, source)
    ensures Spared(s, Exec(w, c, stmts, s, last, n), source)
    decreases n, stmts, 1
  {
    hide Do, Look, Truth, DeedOf, ReadOf, Spares;
    if stmts != [] {
      var rest := stmts[1..];
      match stmts[0]
      case Pass => Untouched(w, c, rest, s, last, n, source);
      case Docstring => Untouched(w, c, rest, s, last, n, source);
      case Call(targets, _, _, _) =>
        var d := DeedOf(c, stmts[0]);
        if d.Some? && n > 0 {
          CallSpares(c, stmts[0], source);
          DoSpares(w, d.value, s, source);
          Untouched(w, c, rest, Do(w, d.value, s), d, n - 1, source);
        }
      case If(_, _, _) => BranchSpares(w, c, stmts, s, last, n, source);
      case While(_, _, _) => LoopSpares(w, c, stmts, s, last, n, source);
      case _ =>
    }
  }

  lemma {:induction false} BranchSpares(w: World, c: Scope, stmts: seq<Stmt>, s: State, last: Option<Deed>, n: nat,
                                        source: Source)
    requires stmts != [] && stmts[0].If?
    requires source.Bound? ==> source.name !in Assigned(stmts)
    requires Spares(last, source)
    ensures Spared(s, Exec(w, c, stmts, s, last, n), source)
    decreases n, stmts, 0
  {
    hide Do, Look, Truth, DeedOf, ReadOf, Spares;
    var If(test, body, orelse) := stmts[0];
    var r := ReadOf(c, test.said);
    if r.Some? {
      var asked := Ask(w, r.value, s);
      var arm := if Truth(w, Look(w, s.env, r.value)) != test.inverted then body else orelse;
      Untouched(w, c, arm, asked, last, n, source);
      var o := Exec(w, c, arm, asked, last, n);
      if o.Fell? {
        Untouched(w, c, stmts[1..], o.s, o.last, o.left, source);
      }
    }
  }

  lemma {:induction false} LoopSpares(w: World, c: Scope, stmts: seq<Stmt>, s: State, last: Option<Deed>, n: nat,
                                      source: Source)
    requires stmts != [] && stmts[0].While?
    requires source.Bound? ==> source.name !in Assigned(stmts)
    requires Spares(last, source)
    ensures Spared(s, Exec(w, c, stmts, s, last, n), source)
    decreases n, stmts, 0
  {
    hide Do, Look, Truth, DeedOf, ReadOf, Spares;
    var While(test, body, orelse) := stmts[0];
    var r := ReadOf(c, test.said);
    if last.Some? && orelse == [] && r.Some? {
      var asked := Ask(w, r.value, s);
      if Truth(w, Look(w, s.env, r.value)) == test.inverted {
        Untouched(w, c, stmts[1..], asked, last, n, source);
      } else {
        Untouched(w, c, body, asked, last, n, source);
        var o := Exec(w, c, body, asked, last, n);
        if o.Fell? && o.left > 0 {
          DoSpares(w, last.value, o.s, source);
          Untouched(w, c, stmts, Do(w, last.value, o.s), last, o.left - 1, source);
        }
      }
    }
  }

  /** Whether a node answers from what it reads, and from nothing else that went before. */
  ghost predicate Functional(w: World, d: Deed) {
    forall before, args :: w.answer(before, d, args) == w.answer([], d, args)
  }

  /** The head's answer, standing where it was bound. */
  predicate Answered(w: World, d: Deed, s: State) {
    Bound(d.binds) in s.env && s.env[Bound(d.binds)] == w.answer([], d, Looks(w, s.env, d.takes))
  }

  /** A loop the dead-loop rule refuses, whose head is a function of what it reads and does not
  read the name it binds: if the test holds on entry it holds on every later round, so the loop
  is never left at the bottom. */
  lemma {:induction false} DeadLoopNeverEnds(w: World, c: Scope, loop: Stmt, head: Deed, s: State, n: nat)
    requires loop.While? && loop.orelse == [] && Endless(loop, head)
    requires head.binds != "" && forall i :: 0 <= i < |head.takes| ==> head.takes[i].source != Bound(head.binds)
    requires ReadOf(c, loop.test.said).Some? && ReadOf(c, loop.test.said).value.source == Bound(head.binds)
    requires Functional(w, head) && Answered(w, head, s)
    requires Truth(w, Look(w, s.env, ReadOf(c, loop.test.said).value)) != loop.test.inverted
    ensures !Exec(w, c, [loop], s, Some(head), n).Fell?
    decreases n
  {
    var r := ReadOf(c, loop.test.said).value;
    var asked := Ask(w, r, s);
    var o := Exec(w, c, loop.body, asked, Some(head), n);
    if o.Fell? && o.left > 0 {
      forall i | 0 <= i < |head.takes|
        ensures Look(w, o.s.env, head.takes[i]) == Look(w, s.env, head.takes[i])
      {
        var source := head.takes[i].source;
        if source.Bound? {
          assert source.name !in AssignedIn(loop);
        }
        Untouched(w, c, loop.body, asked, Some(head), n, source);
      }
      var again := Do(w, head, o.s);
      assert Looks(w, o.s.env, head.takes) == Looks(w, s.env, head.takes);
      assert again.env[Bound(head.binds)] == s.env[Bound(head.binds)];
      forall i | 0 <= i < |head.takes|
        ensures Look(w, again.env, head.takes[i]) == Look(w, o.s.env, head.takes[i])
      {
      }
      assert Looks(w, again.env, head.takes) == Looks(w, o.s.env, head.takes);
      assert Answered(w, head, again);
      DeadLoopNeverEnds(w, c, loop, head, again, o.left - 1);
    }
  }
}
