/** A run held for terminals that come and go: what each thing that happens does to the list of them, to
what each has waiting, and to what is kept for the first. */
module HoldingSpec {
  import opened Prelude
  import opened Framing

  type Fd = nat

  const READ := 65536
  const KEPT := 131072
  const BACKLOG := 1048576

  /** What one send came to: some bytes taken, no room now, or a socket that has gone. */
  datatype Answer = Took(n: nat) | Blocked | Broken

  type Answers = seq<Answer>

  datatype Terminal = Terminal(joined: bool, sending: Bytes)

  datatype Host = Host(
    reading: map<Fd, Terminal>,
    letting: map<Fd, string>,
    buffer: Bytes,
    spilled: bool,
    ever: bool,
    typing: Bytes,
    going: bool)

  const START := Host(map[], map[], [], false, false, [], true)

  /** What is left waiting once a socket has taken what it will, and whether it has gone. */
  function Drain(sending: Bytes, answers: Answers): (r: (Bytes, bool))
    ensures |r.0| <= |sending|
    decreases |answers|
  {
    if sending == [] || answers == [] then (sending, false)
    else
      match answers[0]
      case Took(n) => Drain(sending[if n < |sending| then n else |sending|..], answers[1..])
      case Blocked => (sending, false)
      case Broken => (sending, true)
  }

  /** What a socket took of what was waiting. */
  function Taken(sending: Bytes, answers: Answers): Bytes {
    sending[..|sending| - |Drain(sending, answers).0|]
  }

  /** A terminal with one more frame on its way, or none where it is let go of: one that has gone, or has
  let too much pile up. */
  function Wrote(t: Terminal, sent: Bytes, answers: Answers): Option<Terminal> {
    if |t.sending + sent| > BACKLOG then None
    else Room(t.(sending := t.sending + sent), answers)
  }

  function Room(t: Terminal, answers: Answers): Option<Terminal> {
    var (left, broken) := Drain(t.sending, answers);
    if broken then None else Some(t.(sending := left))
  }

  function Drops(h: Host, fd: Fd): Host {
    h.(reading := h.reading - {fd}, letting := h.letting[fd := ""])
  }

  /** What became of a terminal, put down. */
  function Becomes(h: Host, fd: Fd, t: Option<Terminal>): Host {
    match t
    case None => Drops(h, fd)
    case Some(terminal) => h.(reading := h.reading[fd := terminal])
  }

  function Writes(h: Host, fd: Fd, sent: Bytes, answers: Answers): Host
    requires fd in h.reading
  {
    Becomes(h, fd, Wrote(h.reading[fd], sent, answers))
  }

  function Sends(h: Host, fd: Fd, answers: Answers): Host {
    if fd in h.reading then Becomes(h, fd, Room(h.reading[fd], answers)) else h
  }

  /** What was drawn for nobody, kept until it is more than is worth keeping. */
  function Keeps(h: Host, drawn: Bytes): Host {
    if h.spilled then h
    else if |h.buffer + drawn| > KEPT then h.(spilled := true, buffer := [])
    else h.(buffer := h.buffer + drawn)
  }

  function Listed(h: Host): set<Fd> {
    set fd | fd in h.reading && h.reading[fd].joined
  }

  function Drawn(drawn: Bytes): Bytes
    requires |drawn| <= LONGEST
  {
    Written(Frame(OUTPUT, drawn))
  }

  /** One frame on its way to each of some terminals. */
  ghost function WritesAll(h: Host, to: set<Fd>, sent: Bytes, answers: Fd -> Answers): Host
    requires to <= h.reading.Keys
  {
    var gone := set fd | fd in to && Wrote(h.reading[fd], sent, answers(fd)).None?;
    h.(reading := h.reading
                  + Build(to - gone, fd requires fd in h.reading && Wrote(h.reading[fd], sent, answers(fd)).Some?
                                     => Wrote(h.reading[fd], sent, answers(fd)).value)
                  - gone,
       letting := h.letting + Build(gone, _ => ""))
  }

  /** What the run drew, taken out to whichever terminals are reading. */
  ghost function Drew(h: Host, drawn: Bytes, answers: Fd -> Answers): Host
    requires |drawn| <= READ
  {
    if Listed(h) == {} then (if h.ever then h else Keeps(h, drawn))
    else WritesAll(h, Listed(h), Drawn(drawn), answers)
  }

  function Arrives(h: Host, fd: Fd): Host {
    h.(reading := h.reading[fd := Terminal(false, [])])
  }

  /** A terminal taken onto the list; the first has what was kept on its way to it. */
  function Joins(h: Host, fd: Fd, answers: Answers): Host
    requires |h.buffer| <= LONGEST
  {
    var kept := if !h.ever && !h.spilled then h.buffer else [];
    var h1 := h.(ever := true, buffer := []);
    if fd !in h.reading then h1
    else
      var h2 := h1.(reading := h1.reading[fd := h1.reading[fd].(joined := true)]);
      if kept == [] then h2 else Writes(h2, fd, Drawn(kept), answers)
  }

  /** Every terminal taken off the list, to be told why. */
  ghost function LetsGo(h: Host, why: string): Host {
    LetsGoOf(h, Listed(h), why)
  }

  ghost function LetsGoOf(h: Host, which: set<Fd>, why: string): Host {
    h.(reading := h.reading - which, letting := h.letting + Build(which, _ => why))
  }

  function Leaves(h: Host, fd: Fd): Host {
    h.(reading := h.reading - {fd})
  }

  function Closes(h: Host): Host {
    h.(letting := map[])
  }

  /** What is waiting for the run's own terminal, as much of it put there as it takes. */
  function Puts(h: Host, answers: Answers): Host {
    var (left, broken) := Drain(h.typing, answers);
    h.(typing := left, going := h.going && !broken)
  }

  function Into(h: Host, typed: Bytes, answers: Answers): Host {
    Puts(h.(typing := h.typing + typed), answers)
  }
}
