/** What an atlas compiles to: nodes, guarded edges, and the ways out of a node.

Two strings of the source become datatypes here.  A node id, written `called` or `called:2`,
is `At(called, nth)`, and "" for the way in and the way out is `Way`.  What a node reads from,
a name or one of "@agents", "@input" and "@config", is a `Source`. */
module Atlas {
  import opened Prelude

  type Shape = string

  datatype Source = Agents | Input | Config | Bound(name: Name)

  datatype Reads = Reads(source: Source, field: Name)

  datatype When = When(asks: Reads, truth: bool)

  datatype Kind = Mind | Logic | Super

  datatype At = Way | At(called: Name, nth: nat)

  /** Everything about a node but where it stands: one call, as the body wrote it.  `called` is what the body
  calls, which the node's id is made from, and `calls` what is run for it. */
  datatype Deed = Deed(kind: Kind, called: Name, calls: Name, takes: seq<Reads>, binds: Name,
                       gives: Shape, rerun: bool, under: Name)

  datatype Node = Node(at: At, does: Deed)

  datatype Edge = Edge(outOf: At, into: At, when: Option<When>, answers: Option<Source>)

  datatype Graph = Graph(nodes: seq<Node>, edges: seq<Edge>)

  /** The edges out of one node whose guard is there, or is not, in the order they were wired. */
  function Leaving(edges: seq<Edge>, at: At, guarded: bool): seq<Edge> {
    if edges == [] then []
    else
      (if edges[0].outOf == at && edges[0].when.Some? == guarded then [edges[0]] else [])
      + Leaving(edges[1..], at, guarded)
  }

  /** Every way out of one node, the guarded ones first. */
  function OutOf(edges: seq<Edge>, at: At): seq<Edge> {
    Leaving(edges, at, true) + Leaving(edges, at, false)
  }

  function NodeAt(nodes: seq<Node>, at: At): Option<Node> {
    if nodes == [] then None
    else if nodes[0].at == at then Some(nodes[0])
    else NodeAt(nodes[1..], at)
  }

  /** How a node id is written: what it calls, and `:2`, `:3` after the first. */
  function Written(at: At): string {
    match at
    case Way => ""
    case At(called, nth) => if nth == 1 then called else called + ":" + Decimal(nth)
  }

  function Decimal(n: nat): (digits: string)
    ensures digits != ""
  {
    if n < 10 then [Digit(n)] else Decimal(n / 10) + [Digit(n % 10)]
  }

  function Digit(d: nat): (c: char)
    requires d < 10
    ensures c != ':'
  {
    ('0' as int + d) as char
  }

  lemma {:induction false} DecimalInjective(m: nat, n: nat)
    requires Decimal(m) == Decimal(n)
    ensures m == n
  {
    assert m >= 10 ==> |Decimal(m / 10)| >= 1;
    assert n >= 10 ==> |Decimal(n / 10)| >= 1;
    var last := |Decimal(m)| - 1;
    assert Decimal(m)[last] == Digit(m % 10) && Decimal(n)[last] == Digit(n % 10);
    if m >= 10 && n >= 10 {
      assert Decimal(m)[..last] == Decimal(m / 10) && Decimal(n)[..last] == Decimal(n / 10);
      DecimalInjective(m / 10, n / 10);
    }
  }

  lemma {:induction false} DecimalHasNoColon(n: nat)
    ensures ':' !in Decimal(n)
  {
    if n >= 10 {
      DecimalHasNoColon(n / 10);
    }
  }

  /** Writing ids down loses nothing: callees are identifiers, which hold no colon. */
  lemma {:induction false} WrittenInjective(a: At, b: At)
    requires a.At? ==> a.called != "" && ':' !in a.called
    requires b.At? ==> b.called != "" && ':' !in b.called
    requires Written(a) == Written(b)
    ensures a == b
  {
    if a.At? && b.At? {
      if a.nth != 1 && b.nth != 1 {
        var i, j := |a.called|, |b.called|;
        assert Written(a)[i] == ':' && Written(b)[j] == ':';
        assert forall k :: 0 <= k < i ==> Written(a)[k] == a.called[k];
        assert forall k :: 0 <= k < j ==> Written(b)[k] == b.called[k];
        assert i == j;
        assert Written(a)[..i] == a.called && Written(b)[..i] == b.called;
        assert Written(a)[i + 1..] == Decimal(a.nth) && Written(b)[i + 1..] == Decimal(b.nth);
        DecimalInjective(a.nth, b.nth);
      }
    }
  }
}
