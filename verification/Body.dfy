/** The narrowed Python an atlas's body is written in, and what its names stand for. */
module Body {
  import opened Prelude
  import opened Atlas

  /** A name, a field of one, or anything else, which is work. */
  datatype Expr = Word(id: Name) | Part(id: Name, attr: Name) | Work

  /** `x`, `x.f`, or `not` one of them. */
  datatype Test = Test(inverted: bool, said: Expr)

  /** One statement.  `Call.targets` is what the answer is assigned to: nothing for a call on
  its own, and `None` for a target that is not one name.  `plain` is whether the call hands
  everything over in order.  `Other` is every statement the subset does not hold. */
  datatype Stmt =
    | Pass
    | Docstring
    | Other(sets: set<Name>)
    | Call(targets: seq<Option<Name>>, callee: Option<Name>, plain: bool, args: seq<Expr>)
    | If(test: Test, body: seq<Stmt>, orelse: seq<Stmt>)
    | While(test: Test, body: seq<Stmt>, orelse: seq<Stmt>)
    | Return(value: Option<Expr>)

  datatype Param = Param(name: Name, shape: Shape)

  datatype Declared = Declared(kind: Kind, takes: seq<Param>, gives: Shape, rerun: bool, under: Name)

  datatype Field = Field(shape: Shape, required: bool)

  /** What one body is read against.  `decls` holds what it may call, `None` where a
  declaration could not be read; `own` the fields each model's body declares, by shape;
  `fields` every field it has, the inherited ones included, each with the shape it is annotated with. */
  datatype Scope = Scope(
    names: map<Name, Source>,
    decls: map<Name, Option<Declared>>,
    agents: seq<Name>,
    takes: Shape,
    gives: Shape,
    config: Shape,
    own: map<Shape, map<Name, Shape>>,
    fields: map<Shape, map<Name, Field>>)

  const NOTHING: Shape := "None"
  const ONE_AGENT: Shape := "@agent"
  const THE_AGENTS: Shape := "@agents"

  function SourceOf(c: Scope, id: Name): Source {
    if id in c.names then c.names[id] else Bound(id)
  }

  function ReadOf(c: Scope, e: Expr): Option<Reads> {
    match e
    case Word(id) => Some(Reads(SourceOf(c, id), ""))
    case Part(id, attr) => Some(Reads(SourceOf(c, id), attr))
    case Work => None
  }

  function AllReads(c: Scope, args: seq<Expr>): Option<seq<Reads>> {
    if args == [] then Some([])
    else
      match (ReadOf(c, args[0]), AllReads(c, args[1..]))
      case (Some(r), Some(rest)) => Some([r] + rest)
      case _ => None
  }

  /** The one name a call binds, "" for none, and nothing where it binds anything else. */
  function Target(targets: seq<Option<Name>>): Option<Name> {
    if targets == [] then Some("")
    else if |targets| == 1 then targets[0]
    else None
  }

  /** The call a statement makes, where it is one the scope declares. */
  function DeedOf(c: Scope, st: Stmt): Option<Deed>
    requires st.Call?
  {
    match (Target(st.targets), st.callee, AllReads(c, st.args))
    case (Some(binds), Some(called), Some(takes)) =>
      if st.plain && called in c.decls && c.decls[called].Some? then
        var d := c.decls[called].value;
        Some(Deed(d.kind, called, if d.under != "" then d.under else called, takes, binds, d.gives,
                  d.rerun, d.under))
      else None
    case _ => None
  }

  /** What a `return` answers with, and nothing at all where it returns anything but a name. */
  function AnswerOf(c: Scope, value: Option<Expr>): Option<Option<Source>> {
    match value
    case None => Some(None)
    case Some(Word(id)) => Some(Some(SourceOf(c, id)))
    case Some(_) => None
  }

  function Assigned(stmts: seq<Stmt>): set<Name> {
    if stmts == [] then {} else AssignedIn(stmts[0]) + Assigned(stmts[1..])
  }

  /** Every name an assignment anywhere inside a statement gives a value to. */
  function AssignedIn(st: Stmt): set<Name> {
    match st
    case Pass => {}
    case Docstring => {}
    case Other(sets) => sets
    case Call(targets, _, _, _) => set t | t in targets && t.Some? :: t.value
    case If(_, body, orelse) => Assigned(body) + Assigned(orelse)
    case While(_, body, orelse) => Assigned(body) + Assigned(orelse)
    case Return(_) => {}
  }

  /** What a name or a field of one holds, given what is bound.  "" is something bound that
  carries nothing, and None a name nothing has bound. */
  function ShapeOf(c: Scope, bound: map<Name, Shape>, r: Reads): Option<Shape> {
    var held :=
      match r.source
      case Agents => None
      case Input => if c.takes == "" then None else Some(c.takes)
      case Config => if c.config == "" then None else Some(c.config)
      case Bound(x) => if x in bound then Some(bound[x]) else None;
    if held.None? || r.field == "" then held
    else if held.value == "" || held.value !in c.own || r.field !in c.own[held.value] then None
    else Some(c.own[held.value][r.field])
  }

  /** Something that carries a shape. */
  predicate Sized(shape: Option<Shape>) {
    shape.Some? && shape.value != ""
  }

  /** Whether what one node answers with is what the next one takes: the same shape, or every
  field the far end requires at the same shape apiece. */
  predicate Same(c: Scope, given: Shape, wanted: Shape) {
    given == wanted
    || (given in c.fields && wanted in c.fields
        && forall x :: x in c.fields[wanted] && c.fields[wanted][x].required ==>
             x in c.fields[given] && c.fields[given][x].shape == c.fields[wanted][x].shape)
  }

  /** Whether one read may be handed to one parameter. */
  predicate Fits(c: Scope, bound: map<Name, Shape>, shape: Shape, r: Reads) {
    if shape == ONE_AGENT then r.source == Agents && r.field != "" && r.field in c.agents
    else if shape == THE_AGENTS then r.source == Agents && r.field == ""
    else
      var given := ShapeOf(c, bound, r);
      given.Some? && given.value != "" && Same(c, given.value, shape)
  }

  /** What a call takes as one of its arguments. */
  function Wanted(c: Scope, d: Deed, i: nat): Shape {
    if d.called in c.decls && c.decls[d.called].Some? && i < |c.decls[d.called].value.takes|
    then c.decls[d.called].value.takes[i].shape
    else ""
  }
}
