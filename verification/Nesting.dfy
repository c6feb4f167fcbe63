/** Atlases compiled inside atlases: it ends, nothing is inside itself, and exactly the atlases that reach
no atlas twice compile. */
module Nesting {
  import opened Prelude

  /** Which atlas one is: where it is declared, and what it is called there. */
  type Who = string

  /** What each atlas's body reaches for, in order, and which bodies have nothing else wrong with them. */
  datatype Atlases = Atlases(calls: map<Who, seq<Who>>, fine: set<Who>)

  datatype Tree = Tree(who: Who, under: seq<Tree>)

  predicate Compiled(trees: seq<Tree>, who: Who) {
    exists i :: 0 <= i < |trees| && trees[i].who == who
  }

  /** One atlas compiled where it stands, inside those it was reached through. */
  function Compile(a: Atlases, who: Who, through: set<Who>): Option<Tree>
    requires who in a.calls && who !in through
    decreases |a.calls.Keys - through|, 0
  {
    Less(a, who, through);
    match Under(a, a.calls[who], through + {who}, [])
    case None => None
    case Some(under) => if who in a.fine then Some(Tree(who, under)) else None
  }

  /** Everything one body reaches for: each compiled the first time, refused where it is not an atlas or
  is being compiled already. */
  function Under(a: Atlases, calls: seq<Who>, through: set<Who>, done: seq<Tree>): Option<seq<Tree>>
    decreases |a.calls.Keys - through|, |calls| + 1
  {
    if calls == [] then Some(done)
    else if Compiled(done, calls[0]) then Under(a, calls[1..], through, done)
    else if calls[0] !in a.calls || calls[0] in through then None
    else
      match Compile(a, calls[0], through)
      case None => None
      case Some(tree) => Under(a, calls[1..], through, done + [tree])
  }

  lemma {:induction false} Less(a: Atlases, who: Who, through: set<Who>)
    requires who in a.calls && who !in through
    ensures |a.calls.Keys - (through + {who})| < |a.calls.Keys - through|
  {
    assert a.calls.Keys - through == (a.calls.Keys - (through + {who})) + {who};
  }

  /* ---- What comes of it ---- */

  /** Nothing is inside itself, nor inside what it was reached through. */
  predicate Free(tree: Tree, through: set<Who>) {
    tree.who !in through && forall i :: 0 <= i < |tree.under| ==> Free(tree.under[i], through + {tree.who})
  }

  predicate Within(tree: Tree, depth: nat) {
    depth > 0 && forall i :: 0 <= i < |tree.under| ==> Within(tree.under[i], depth - 1)
  }

  predicate AllFree(trees: seq<Tree>, through: set<Who>, depth: nat) {
    forall i :: 0 <= i < |trees| ==> Free(trees[i], through) && Within(trees[i], depth)
  }

  /** What compiles nests no deeper than there are atlases not already gone through, and nothing in it is
  inside itself. */
  lemma {:induction false} NestsFreely(a: Atlases, who: Who, through: set<Who>)
    requires who in a.calls && who !in through && Compile(a, who, through).Some?
    ensures Free(Compile(a, who, through).value, through)
    ensures Within(Compile(a, who, through).value, |a.calls.Keys - through|)
    decreases |a.calls.Keys - through|, 0
  {
    Less(a, who, through);
    UnderFreely(a, a.calls[who], through + {who}, []);
    Deeper(Under(a, a.calls[who], through + {who}, []).value, |a.calls.Keys - (through + {who})|,
      |a.calls.Keys - through| - 1);
  }

  lemma {:induction false} UnderFreely(a: Atlases, calls: seq<Who>, through: set<Who>, done: seq<Tree>)
    requires Under(a, calls, through, done).Some? && AllFree(done, through, |a.calls.Keys - through|)
    ensures AllFree(Under(a, calls, through, done).value, through, |a.calls.Keys - through|)
    decreases |a.calls.Keys - through|, |calls| + 1
  {
    if calls != [] {
      if Compiled(done, calls[0]) {
        UnderFreely(a, calls[1..], through, done);
      } else {
        NestsFreely(a, calls[0], through);
        UnderFreely(a, calls[1..], through, done + [Compile(a, calls[0], through).value]);
      }
    }
  }

  lemma {:induction false} Deeper(trees: seq<Tree>, depth: nat, more: nat)
    requires depth <= more && forall i :: 0 <= i < |trees| ==> Within(trees[i], depth)
    ensures forall i :: 0 <= i < |trees| ==> Within(trees[i], more)
    decreases depth
  {
    forall i | 0 <= i < |trees|
      ensures Within(trees[i], more)
    {
      Deeper(trees[i].under, depth - 1, more - 1);
    }
  }

  /* ---- What is under what compiles ---- */

  /** Each of some atlases once, in the order they are first reached. */
  function Firsts(calls: seq<Who>): seq<Who>
    decreases |calls|
  {
    if calls == [] then []
    else
      var last, before := calls[|calls| - 1], Firsts(calls[..|calls| - 1]);
      if last in before then before else before + [last]
  }

  lemma {:induction false} FirstsOf(calls: seq<Who>, n: nat)
    requires n <= |calls|
    ensures Firsts(calls[..n]) <= Firsts(calls)
    ensures forall who :: who in Firsts(calls) <==> who in calls
    ensures forall i, j :: 0 <= i < j < |Firsts(calls)| ==> Firsts(calls)[i] != Firsts(calls)[j]
    decreases |calls|
  {
    if calls != [] {
      var most := calls[..|calls| - 1];
      assert calls == most + [calls[|calls| - 1]];
      FirstsOf(most, if n < |calls| then n else 0);
      if n < |calls| {
        assert most[..n] == calls[..n];
      } else {
        assert calls[..n] == calls;
      }
    } else {
      assert calls[..n] == calls;
    }
  }

  function Names(trees: seq<Tree>): (names: seq<Who>)
    ensures |names| == |trees| && forall i :: 0 <= i < |names| ==> names[i] == trees[i].who
  {
    seq(|trees|, i requires 0 <= i < |trees| => trees[i].who)
  }

  /** An atlas with, under it, each atlas its body reaches for, once, in the order it first does; and so on down. */
  predicate Unfolds(a: Atlases, tree: Tree) {
    && tree.who in a.calls && tree.who in a.fine
    && Names(tree.under) == Firsts(a.calls[tree.who])
    && forall i :: 0 <= i < |tree.under| ==> Unfolds(a, tree.under[i])
  }

  /** Whatever an atlas was reached through, it compiles to itself with what its body reaches for under it. */
  lemma {:induction false} CompilesToWhatItReaches(a: Atlases, who: Who, through: set<Who>)
    requires who in a.calls && who !in through && Compile(a, who, through).Some?
    ensures Compile(a, who, through).value.who == who && Unfolds(a, Compile(a, who, through).value)
    decreases |a.calls.Keys - through|, 0
  {
    Less(a, who, through);
    UnderReaches(a, [], a.calls[who], through + {who}, []);
    assert [] + a.calls[who] == a.calls[who];
  }

  lemma {:induction false} UnderReaches(a: Atlases, before: seq<Who>, calls: seq<Who>, through: set<Who>,
                                        done: seq<Tree>)
    requires Under(a, calls, through, done).Some?
    requires Names(done) == Firsts(before) && forall i :: 0 <= i < |done| ==> Unfolds(a, done[i])
    ensures
      var under := Under(a, calls, through, done).value;
      Names(under) == Firsts(before + calls) && forall i :: 0 <= i < |under| ==> Unfolds(a, under[i])
    decreases |a.calls.Keys - through|, |calls| + 1
  {
    if calls == [] {
      assert before + calls == before;
    } else {
      var next := before + [calls[0]];
      assert next[..|next| - 1] == before && next + calls[1..] == before + calls;
      if Compiled(done, calls[0]) {
        var i :| 0 <= i < |done| && done[i].who == calls[0];
        assert Names(done)[i] == calls[0];
        UnderReaches(a, next, calls[1..], through, done);
      } else {
        CompilesToWhatItReaches(a, calls[0], through);
        var more := done + [Compile(a, calls[0], through).value];
        assert forall i :: 0 <= i < |done| ==> Names(done)[i] != calls[0];
        assert Names(more) == Names(done) + [calls[0]];
        UnderReaches(a, next, calls[1..], through, more);
      }
    }
  }

  /** And there is one such: what an atlas compiles to does not depend on what it was reached through. */
  lemma {:induction false} UnfoldsOneWay(a: Atlases, one: Tree, other: Tree)
    requires Unfolds(a, one) && Unfolds(a, other) && one.who == other.who
    ensures one == other
    decreases one
  {
    assert |one.under| == |Names(one.under)| == |other.under|;
    forall i | 0 <= i < |one.under|
      ensures one.under[i] == other.under[i]
    {
      assert Names(one.under)[i] == Names(other.under)[i];
      UnfoldsOneWay(a, one.under[i], other.under[i]);
    }
  }

  /* ---- Which compile ---- */

  /** Atlases each of which reaches for the next. */
  predicate Reaches(a: Atlases, path: seq<Who>) {
    path != [] && forall i :: 0 <= i < |path| - 1 ==> path[i] in a.calls && path[i + 1] in a.calls[path[i]]
  }

  /** Whether a path goes through atlases with nothing wrong, none of them twice or again. */
  predicate Clear(a: Atlases, path: seq<Who>, through: set<Who>) {
    && (forall i :: 0 <= i < |path| ==> path[i] in a.calls && path[i] in a.fine && path[i] !in through)
    && forall i, j :: 0 <= i < j < |path| ==> path[i] != path[j]
  }

  lemma {:induction false} UnderEach(a: Atlases, calls: seq<Who>, through: set<Who>, done: seq<Tree>, who: Who)
    requires Under(a, calls, through, done).Some?
    requires forall i :: 0 <= i < |done| ==>
               done[i].who in a.calls && done[i].who !in through && Compile(a, done[i].who, through).Some?
    requires who in calls
    ensures who in a.calls && who !in through && Compile(a, who, through).Some?
    decreases |calls|
  {
    if Compiled(done, calls[0]) {
      if who != calls[0] {
        UnderEach(a, calls[1..], through, done, who);
      }
    } else if who != calls[0] {
      UnderEach(a, calls[1..], through, done + [Compile(a, calls[0], through).value], who);
    }
  }

  lemma {:induction false} CompiledClears(a: Atlases, path: seq<Who>, through: set<Who>)
    requires Reaches(a, path) && path[0] in a.calls && path[0] !in through && Compile(a, path[0], through).Some?
    ensures Clear(a, path, through)
    decreases |path|
  {
    var who := path[0];
    if |path| > 1 {
      var rest := path[1..];
      assert forall i :: 0 <= i < |rest| ==> rest[i] == path[i + 1];
      assert path[0 + 1] in a.calls[path[0]];
      UnderEach(a, a.calls[who], through + {who}, [], rest[0]);
      CompiledClears(a, rest, through + {who});
    }
  }

  lemma {:induction false} UnderFails(a: Atlases, calls: seq<Who>, through: set<Who>, done: seq<Tree>)
    returns (who: Who)
    requires Under(a, calls, through, done).None?
    ensures who in calls && (who !in a.calls || who in through || Compile(a, who, through).None?)
    decreases |calls|
  {
    who := calls[0];
    if Compiled(done, who) {
      who := UnderFails(a, calls[1..], through, done);
    } else if who in a.calls && who !in through && Compile(a, who, through).Some? {
      who := UnderFails(a, calls[1..], through, done + [Compile(a, who, through).value]);
    }
  }

  lemma {:induction false} FailsSomewhere(a: Atlases, who: Who, through: set<Who>) returns (path: seq<Who>)
    requires who in a.calls && who !in through && Compile(a, who, through).None?
    ensures Reaches(a, path) && path[0] == who && !Clear(a, path, through)
    decreases |a.calls.Keys - through|
  {
    path := [who];
    if who in a.fine {
      var next := UnderFails(a, a.calls[who], through + {who}, []);
      var rest := [next];
      if next in a.calls && next !in through + {who} {
        Less(a, who, through);
        rest := FailsSomewhere(a, next, through + {who});
      }
      path := [who] + rest;
      assert rest == path[1..] && (forall i :: 0 < i < |path| ==> path[i] == rest[i - 1]);
      assert rest[0] == next && !Clear(a, rest, through + {who});
      ClearRest(a, path, through);
    }
  }

  lemma {:induction false} ClearRest(a: Atlases, path: seq<Who>, through: set<Who>)
    requires |path| > 1
    ensures Clear(a, path, through) ==> Clear(a, path[1..], through + {path[0]})
  {
  }

  /** An atlas compiles, however its atlases nest, exactly where no way of reaching on from it comes to one
  twice, or to anything that is not an atlas or has something else wrong with it. */
  lemma {:induction false} CompilesWhereNothingComesRound(a: Atlases, who: Who)
    requires who in a.calls
    ensures Compile(a, who, {}).Some? <==> forall path :: Reaches(a, path) && path[0] == who ==> Clear(a, path, {})
  {
    if Compile(a, who, {}).Some? {
      forall path | Reaches(a, path) && path[0] == who
        ensures Clear(a, path, {})
      {
        CompiledClears(a, path, {});
      }
    } else {
      var path := FailsSomewhere(a, who, {});
    }
  }
}
