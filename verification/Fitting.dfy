/** What a read has for a shape, and which shapes fit, said of the values that flow. */
module Fitting {
  import opened Prelude
  import opened Atlas
  import opened Body
  import opened WiringSpec
  import opened Running
  import opened Soundness
  import opened Exactness

  /** A run at a point where each name holds a value of some shape, and no other name holds anything. */
  ghost predicate Stocked(c: Scope, bound: map<Name, Shape>, env: Env) {
    && Started(c, env, true) && env[Agents] == Missing
    && forall x :: Matches(env, x, Prelude.At(bound, x), true)
  }

  /** Whether a read comes to a value of one shape, in every world that answers each shape with a value of it. */
  ghost predicate ComesTo(c: Scope, bound: map<Name, Shape>, r: Reads, shape: Shape) {
    forall w, env :: Honest(w, c, true) && Stocked(c, bound, env) ==>
      Look(w, env, r).Holds? && Look(w, env, r).value.Value? && Look(w, env, r).value.shape == shape
  }

  /** Whether every value of one shape serves for another, in every such world. */
  ghost predicate StandsFor(c: Scope, given: Shape, wanted: Shape) {
    forall w, v: Value :: Honest(w, c, true) && v.Value? && v.shape == given ==> Serves(w, c, v, wanted)
  }

  /** A world that answers each shape with one value of it. */
  function Plain(c: Scope): World {
    Script(c, Graph([], []), [])
  }

  ghost function Stock(c: Scope, bound: map<Name, Shape>): Env {
    map[Agents := Missing, Input := OfShape(c.takes, 0), Config := OfShape(c.config, 0)]
    + Build((set x | x in bound :: Bound(x)),
            (s: Source) requires s.Bound? && s.name in bound => OfShape(bound[s.name], 0))
  }

  lemma {:induction false} StockHolds(c: Scope, bound: map<Name, Shape>)
    ensures Stocked(c, bound, Stock(c, bound))
  {
    var env := Stock(c, bound);
    forall x
      ensures Matches(env, x, Prelude.At(bound, x), true)
    {
      if x in bound {
        assert Bound(x) in (set y | y in bound :: Bound(y));
        assert env[Bound(x)] == OfShape(bound[x], 0);
      }
    }
  }

  /** A read has a shape exactly where it always comes to a value of it. */
  lemma {:induction false} ShapeExactly(c: Scope, bound: map<Name, Shape>, r: Reads, shape: Shape)
    requires shape != ""
    ensures ShapeOf(c, bound, r) == Some(shape) <==> ComesTo(c, bound, r, shape)
  {
    if ShapeOf(c, bound, r) == Some(shape) {
      forall w, env | Honest(w, c, true) && Stocked(c, bound, env)
        ensures Look(w, env, r).Holds? && Look(w, env, r).value.Value? && Look(w, env, r).value.shape == shape
      {
        ShapeComes(w, c, bound, env, r);
      }
    } else {
      var w, env := Plain(c), Stock(c, bound);
      ScriptHonest(c, Graph([], []), []);
      StockHolds(c, bound);
      if ComesTo(c, bound, r, shape) {
        ComesShaped(c, bound, env, r);
      }
    }
  }

  lemma {:induction false} ShapeComes(w: World, c: Scope, bound: map<Name, Shape>, env: Env, r: Reads)
    requires Honest(w, c, true) && Stocked(c, bound, env) && Sized(ShapeOf(c, bound, r))
    ensures Look(w, env, r).Holds? && Look(w, env, r).value.Value?
    ensures Look(w, env, r).value.shape == ShapeOf(c, bound, r).value
  {
    if r.source.Bound? {
      assert Matches(env, r.source.name, Prelude.At(bound, r.source.name), true);
    }
  }

  /** What a read comes to in the plain world is of the shape it has. */
  lemma {:induction false} ComesShaped(c: Scope, bound: map<Name, Shape>, env: Env, r: Reads)
    requires Stocked(c, bound, env) && Look(Plain(c), env, r).Holds? && Look(Plain(c), env, r).value.Value?
    ensures ShapeOf(c, bound, r) == Some(Look(Plain(c), env, r).value.shape)
  {
    ScriptLook(c, Graph([], []), [], env, r);
    if r.source.Bound? {
      assert Matches(env, r.source.name, Prelude.At(bound, r.source.name), true);
    }
  }

  /** One shape fits another exactly where every value of the one serves for the other. */
  lemma {:induction false} FitsExactly(c: Scope, given: Shape, wanted: Shape)
    ensures Same(c, given, wanted) <==> StandsFor(c, given, wanted)
  {
    if StandsFor(c, given, wanted) {
      var w, v := Plain(c), Value(given, 0);
      ScriptHonest(c, Graph([], []), []);
      assert Serves(w, c, v, wanted);
      forall x
        ensures w.declared(v, x) == Declaring(c, v, x)
      {
      }
    }
  }
}
