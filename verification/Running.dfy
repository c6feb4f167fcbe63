/** What a run does, said twice: by executing the body as it is written, and by walking the
graph it compiled to. */
module Running {
  import opened Prelude
  import opened Atlas
  import opened Body

  /** What flows: a value of some shape, or nothing at all. */
  datatype Value = Missing | Value(shape: Shape, held: int)

  /** What a read came to: what the name holds, or that nothing has bound it. */
  datatype Seen = Unbound | Holds(value: Value)

  /** One thing a run did: a branch it decided, or a node it ran. */
  datatype Event =
    | Asked(asks: Reads, seen: Seen)
    | Did(deed: Deed, args: seq<Seen>, answer: Value)

  type Env = map<Source, Value>

  datatype State = State(env: Env, trace: seq<Event>)

  /** Everything a body cannot say: what its nodes answer, given all that came before; what a
  value's fields are, and which fields it has, each of them as what; which values count as true; and what the run
  was started with. */
  datatype World = World(
    answer: (seq<Event>, Deed, seq<Seen>) -> Value,
    part: (Value, Name) -> Value,
    declared: (Value, Name) -> Option<Shape>,
    truthy: Value -> bool,
    agents: Value,
    input: Value,
    config: Value)

  function Begun(w: World): State {
    State(map[Agents := w.agents, Input := w.input, Config := w.config], [])
  }

  /** A name's value, or a field of it; a field of nothing is nothing. */
  function Look(w: World, env: Env, r: Reads): Seen {
    if r.source !in env then Unbound
    else if r.field == "" then Holds(env[r.source])
    else if env[r.source].Missing? then Holds(Missing)
    else Holds(w.part(env[r.source], r.field))
  }

  /** Nothing at all reads as false. */
  predicate Truth(w: World, seen: Seen) {
    seen.Holds? && seen.value.Value? && w.truthy(seen.value)
  }

  function Looks(w: World, env: Env, takes: seq<Reads>): (seen: seq<Seen>)
    ensures |seen| == |takes|
    ensures forall i :: 0 <= i < |takes| ==> seen[i] == Look(w, env, takes[i])
  {
    seq(|takes|, i requires 0 <= i < |takes| => Look(w, env, takes[i]))
  }

  function Ask(w: World, r: Reads, s: State): State {
    s.(trace := s.trace + [Asked(r, Look(w, s.env, r))])
  }

  function Do(w: World, d: Deed, s: State): State {
    var args := Looks(w, s.env, d.takes);
    var answer := w.answer(s.trace, d, args);
    State(if d.binds == "" then s.env else s.env[Bound(d.binds) := answer],
          s.trace + [Did(d, args, answer)])
  }

  /* ---- The body executed as it is written ---- */

  /** Where `n` nodes get a run of statements: past its bottom with some left, to a `return`,
  out of nodes, or to something the subset does not hold. */
  datatype Outcome =
    | Fell(s: State, last: Option<Deed>, left: nat)
    | Returning(s: State, answers: Option<Source>)
    | Pausing(s: State)
    | Straying(s: State)

  /** Structured execution.  A `while` whose test holds runs its body, then runs again the node
  directly above it, `last`, and asks again. */
  function Exec(w: World, c: Scope, stmts: seq<Stmt>, s: State, last: Option<Deed>, n: nat): (o: Outcome)
    ensures o.Fell? ==> o.left <= n
    decreases n, stmts
  {
    if stmts == [] then Fell(s, last, n)
    else
      match stmts[0]
      case Pass => Exec(w, c, stmts[1..], s, last, n)
      case Docstring => Exec(w, c, stmts[1..], s, last, n)
      case Other(_) => Straying(s)
      case Call(_, _, _, _) =>
        (match DeedOf(c, stmts[0])
         case None => Straying(s)
         case Some(d) => if n == 0 then Pausing(s) else Exec(w, c, stmts[1..], Do(w, d, s), Some(d), n - 1))
      case Return(value) =>
        (match AnswerOf(c, value)
         case None => Straying(s)
         case Some(answers) => Returning(s, answers))
      case If(test, body, orelse) =>
        (match ReadOf(c, test.said)
         case None => Straying(s)
         case Some(r) =>
           var o := if Truth(w, Look(w, s.env, r)) != test.inverted
                    then Exec(w, c, body, Ask(w, r, s), last, n)
                    else Exec(w, c, orelse, Ask(w, r, s), last, n);
           if o.Fell? then Exec(w, c, stmts[1..], o.s, o.last, o.left) else o)
      case While(test, body, orelse) =>
        if last.None? || orelse != [] then Straying(s)
        else
          (match ReadOf(c, test.said)
           case None => Straying(s)
           case Some(r) =>
             if Truth(w, Look(w, s.env, r)) == test.inverted
             then Exec(w, c, stmts[1..], Ask(w, r, s), last, n)
             else
               var o := Exec(w, c, body, Ask(w, r, s), last, n);
               if !o.Fell? then o
               else if o.left == 0 then Pausing(o.s)
               else Exec(w, c, stmts, Do(w, last.value, o.s), last, o.left - 1))
  }

  /* ---- The graph walked ---- */

  /** What a whole run came to: its end and what it answers with, or where `n` nodes left it,
  or a node nothing leads on from. */
  datatype Run =
    | Ended(s: State, answers: Option<Source>)
    | Paused(s: State)
    | Astray(s: State)

  function Finished(o: Outcome): Run {
    match o
    case Fell(s, _, _) => Ended(s, None)
    case Returning(s, answers) => Ended(s, answers)
    case Pausing(s) => Paused(s)
    case Straying(s) => Astray(s)
  }

  function Executed(w: World, c: Scope, body: seq<Stmt>, n: nat): Run {
    Finished(Exec(w, c, body, Begun(w), None, n))
  }

  predicate Holding(w: World, env: Env, when: Option<When>) {
    when.None? || Truth(w, Look(w, env, when.value.asks)) == when.value.truth
  }

  /** The first edge whose guard holds. */
  function Taken(w: World, env: Env, edges: seq<Edge>): Option<Edge> {
    if edges == [] then None
    else if Holding(w, env, edges[0].when) then Some(edges[0])
    else Taken(w, env, edges[1..])
  }

  /** The decision taking one way out is, where it is one. */
  function Decide(w: World, when: Option<When>, s: State): State {
    if when.None? then s else Ask(w, when.value.asks, s)
  }

  /** The walk: take the way out that holds, run the node it leads to, and so on; an edge to no
  node is the way out of the whole. */
  function Walk(w: World, g: Graph, at: At, s: State, n: nat): Run
    decreases n
  {
    match Taken(w, s.env, OutOf(g.edges, at))
    case None => Astray(s)
    case Some(edge) =>
      var s1 := Decide(w, edge.when, s);
      match NodeAt(g.nodes, edge.into)
      case None => Ended(s1, edge.answers)
      case Some(node) => if n == 0 then Paused(s1) else Walk(w, g, node.at, Do(w, node.does, s1), n - 1)
  }

  /** What a finished run answers with: the value of the name its way out says. */
  function Answer(r: Run): Value {
    if r.Ended? && r.answers.Some? && r.answers.value in r.s.env then r.s.env[r.answers.value] else Missing
  }
}
