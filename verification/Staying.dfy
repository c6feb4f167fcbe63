/** Who stays on the list, and what each socket takes: what a terminal does not lose by anything but its own
socket, its own pace, or being let go of. */
module Staying {
  import opened Prelude
  import opened Framing
  import opened HoldingSpec
  import opened Holding

  /** How much a socket would take, before it has no room or has gone. */
  function Offered(answers: Answers): nat {
    if answers == [] || !answers[0].Took? then 0 else answers[0].n + Offered(answers[1..])
  }

  /** Whether a socket turns out to have gone while there is still something to send it. */
  predicate Broke(waiting: nat, answers: Answers) {
    exists k :: 0 <= k < |answers| && BreaksAt(waiting, answers, k)
  }

  predicate BreaksAt(waiting: nat, answers: Answers, k: nat)
    requires k < |answers|
  {
    answers[k].Broken? && (forall j :: 0 <= j < k ==> answers[j].Took?) && Offered(answers[..k]) < waiting
  }

  function Least(a: nat, b: nat): nat {
    if a < b then a else b
  }

  lemma {:induction false} OfferedRest(answers: Answers, k: nat)
    requires 0 < k <= |answers|
    ensures answers[..k][0] == answers[0] && answers[..k][1..] == answers[1..][..k - 1]
    ensures answers[0].Took? ==> Offered(answers[..k]) == answers[0].n + Offered(answers[1..][..k - 1])
  {
  }

  /** Whether it goes, one answer on. */
  lemma {:induction false} BrokeRest(waiting: nat, answers: Answers)
    requires answers != []
    ensures answers[0].Broken? ==> (Broke(waiting, answers) <==> waiting > 0)
    ensures answers[0].Blocked? ==> !Broke(waiting, answers)
    ensures answers[0].Took? && waiting <= answers[0].n ==> !Broke(waiting, answers)
    ensures answers[0].Took? && waiting > answers[0].n ==>
              (Broke(waiting, answers) <==> Broke(waiting - answers[0].n, answers[1..]))
  {
    assert answers[..0] == [];
    if answers[0].Broken? && waiting > 0 {
      assert BreaksAt(waiting, answers, 0);
    }
    forall k | 0 < k < |answers|
      ensures answers[0].Took? && waiting > answers[0].n ==>
                (BreaksAt(waiting, answers, k) <==> BreaksAt(waiting - answers[0].n, answers[1..], k - 1))
      ensures answers[0].Took? && waiting <= answers[0].n ==> !BreaksAt(waiting, answers, k)
    {
      OfferedRest(answers, k);
      assert forall j :: 0 < j < k ==> answers[j] == answers[1..][j - 1];
      assert forall j :: 0 <= j < k - 1 ==> answers[1..][j] == answers[j + 1];
    }
    if answers[0].Took? && waiting > answers[0].n && Broke(waiting - answers[0].n, answers[1..]) {
      var k :| 0 <= k < |answers[1..]| && BreaksAt(waiting - answers[0].n, answers[1..], k);
      assert BreaksAt(waiting, answers, k + 1);
    }
  }

  /** A socket takes as much as it offers of what is waiting, from the front; and it is found to have gone exactly
  where it goes before all of that is taken. */
  lemma {:induction false} DrainIs(sending: Bytes, answers: Answers)
    ensures Drain(sending, answers).0 == sending[Least(Offered(answers), |sending|)..]
    ensures Taken(sending, answers) == sending[..Least(Offered(answers), |sending|)]
    ensures Drain(sending, answers).1 <==> Broke(|sending|, answers)
    decreases |answers|
  {
    if answers == [] {
    } else {
      BrokeRest(|sending|, answers);
      if answers[0].Took? && sending != [] {
        var n := Least(answers[0].n, |sending|);
        DrainIs(sending[n..], answers[1..]);
        assert sending[n..][Least(Offered(answers[1..]), |sending| - n)..]
            == sending[Least(Offered(answers), |sending|)..];
        if n == |sending| {
          NoneBreaks(answers[1..]);
        }
      } else if sending == [] {
        NoneBreaks(answers);
      }
    }
  }

  lemma {:induction false} NoneBreaks(answers: Answers)
    ensures !Broke(0, answers)
  {
  }

  /* ---- Who is let go of ---- */

  /** Whether a terminal with so much waiting is dropped: it has let too much pile up, or its socket has gone. */
  predicate Loses(waiting: nat, answers: Answers) {
    waiting > BACKLOG || Broke(waiting, answers)
  }

  lemma {:induction false} WroteIs(t: Terminal, sent: Bytes, answers: Answers)
    ensures
      var all := t.sending + sent;
      && (Wrote(t, sent, answers).Some? <==> !Loses(|t.sending| + |sent|, answers))
      && (Wrote(t, sent, answers).Some? ==>
            Wrote(t, sent, answers).value == t.(sending := all[Least(Offered(answers), |all|)..]))
  {
    DrainIs(t.sending + sent, answers);
  }

  lemma {:induction false} RoomIs(t: Terminal, answers: Answers)
    ensures Room(t, answers).Some? <==> !Broke(|t.sending|, answers)
    ensures Room(t, answers).Some? ==>
              Room(t, answers).value == t.(sending := t.sending[Least(Offered(answers), |t.sending|)..])
  {
    DrainIs(t.sending, answers);
  }

  /** Whether what happens takes one terminal off the list. */
  predicate Ousts(h: Host, event: Event, fd: Fd)
    requires fd in h.reading
  {
    var waiting, joined := |h.reading[fd].sending|, h.reading[fd].joined;
    match event
    case Drawing(drawn, each) => joined && Loses(waiting + HEAD + |drawn|, each(fd))
    case Joining(q, answers) =>
      q == fd && !h.ever && !h.spilled && h.buffer != [] && Loses(waiting + HEAD + |h.buffer|, answers)
    case Sending(q, answers) => q == fd && Broke(waiting, answers)
    case Leaving(q) => q == fd
    case LettingGo(_) => joined
    case _ => false
  }

  /** Why, where it is to be told. */
  function Reason(event: Event): string {
    if event.LettingGo? then event.why else ""
  }

  lemma {:induction false} DrawnLong(drawn: Bytes)
    requires |drawn| <= LONGEST
    ensures |Drawn(drawn)| == HEAD + |drawn|
  {
  }

  lemma {:induction false} OneDrawing(h: Host, drawn: Bytes, each: Fd -> Answers, fd: Fd)
    requires |drawn| <= READ && fd in h.reading
    ensures
      var (h1, event) := (Drew(h, drawn, each), Drawing(drawn, each));
      && (fd in h1.reading <==> !Ousts(h, event, fd))
      && (fd in h1.reading ==> h1.reading[fd].joined == h.reading[fd].joined)
      && (Ousts(h, event, fd) ==> At(h1.letting, fd) == Some(""))
  {
    hide Wrote, Room, Loses, Drawn;
    assert fd in Listed(h) <==> h.reading[fd].joined;
    DrewAt(h, drawn, each, fd);
    WroteIs(h.reading[fd], Drawn(drawn), each(fd));
    DrawnLong(drawn);
  }

  lemma {:induction false} OneJoining(h: Host, q: Fd, answers: Answers, fd: Fd)
    requires |h.buffer| <= LONGEST && fd in h.reading
    ensures
      var (h1, event) := (Joins(h, q, answers), Joining(q, answers));
      && (fd in h1.reading <==> !Ousts(h, event, fd))
      && (fd in h1.reading ==> h1.reading[fd].joined == (h.reading[fd].joined || fd == q))
      && (Ousts(h, event, fd) ==> At(h1.letting, fd) == Some(""))
  {
    hide Wrote, Room, Loses, Drawn;
    if q == fd {
      WroteIs(h.reading[fd].(joined := true), Drawn(h.buffer), answers);
      DrawnLong(h.buffer);
    }
  }

  lemma {:induction false} OneSending(h: Host, q: Fd, answers: Answers, fd: Fd)
    requires fd in h.reading
    ensures
      var (h1, event) := (Sends(h, q, answers), Sending(q, answers));
      && (fd in h1.reading <==> !Ousts(h, event, fd))
      && (fd in h1.reading ==> h1.reading[fd].joined == h.reading[fd].joined)
      && (Ousts(h, event, fd) ==> At(h1.letting, fd) == Some(""))
  {
    hide Room, Broke;
    RoomIs(h.reading[fd], answers);
  }

  /** Whatever happens, a terminal goes just where its socket has gone, too much has piled up for it, it leaves or
  all are let go of; it is told why, unless it left; and it is taken onto the list by saying hello, and not
  otherwise. */
  lemma {:induction false} OneHappening(s: Story, event: Event, fd: Fd)
    requires Holds(s) && Possible(s, event) && fd in s.host.reading
    ensures
      var (h, h1) := (s.host, Happens(s, event).host);
      && (fd in h1.reading <==> !Ousts(h, event, fd))
      && (fd in h1.reading ==> h1.reading[fd].joined == (h.reading[fd].joined || (event.Joining? && event.fd == fd)))
      && (Ousts(h, event, fd) && !event.Leaving? ==> At(h1.letting, fd) == Some(Reason(event)))
  {
    hide Right, Keeping, Drew, Joins, Sends, Loses, Broke;
    BufferShort(s);
    match event
    case Drawing(drawn, each) => OneDrawing(s.host, drawn, each, fd);
    case Joining(q, answers) => OneJoining(s.host, q, answers, fd);
    case Sending(q, answers) => OneSending(s.host, q, answers, fd);
    case _ => assert fd in Listed(s.host) <==> s.host.reading[fd].joined;
  }

  lemma {:induction false} SinceStays(s: Story, event: Event, fd: Fd)
    requires Holds(s) && Possible(s, event) && fd in Listed(s.host)
    ensures At(Happens(s, event).since, fd) == At(s.since, fd)
  {
    hide Holds;
  }

  /** Whether anything in a run takes one terminal off the list. */
  ghost predicate Ousted(s: Story, events: seq<Event>, fd: Fd)
    requires Holds(s) && AllPossible(s, events)
    decreases |events|
  {
    events != [] && fd in s.host.reading
    && (Ousts(s.host, events[0], fd)
        || (EventHolds(s, events[0]);
            Ousted(Happens(s, events[0]), events[1..], fd)))
  }

  /** Over every run: a terminal on the list is on it still unless its socket went, too much piled up for it, it
  left or all were let go of; and until then what its socket has taken and what it has waiting are everything drawn
  since it was listed, with what was kept before it for the first. */
  lemma {:induction false} StaysUnlessOusted(s: Story, events: seq<Event>, fd: Fd)
    requires Holds(s) && AllPossible(s, events) && fd in Listed(s.host) && !Ousted(s, events, fd)
    ensures
      var s1 := Holding.Told(s, events);
      && fd in Listed(s1.host) && At(s1.since, fd) == At(s.since, fd) && fd in s1.since && s1.since[fd] <= |s1.log|
      && Short(Owed(s1, fd)) && TookBy(s1, fd) + s1.host.reading[fd].sending == AllWritten(Owed(s1, fd))
    decreases |events|
  {
    hide Possible, Right, Keeping, Owed, Ousts;
    if events == [] {
      RightIs(s, fd);
    } else {
      hide Happens;
      EventHolds(s, events[0]);
      OneHappening(s, events[0], fd);
      SinceStays(s, events[0], fd);
      StaysUnlessOusted(Happens(s, events[0]), events[1..], fd);
    }
  }

  lemma {:induction false} RightIs(s: Story, fd: Fd)
    requires Holds(s) && fd in Listed(s.host)
    ensures fd in s.since && s.since[fd] <= |s.log| && Short(Owed(s, fd))
    ensures TookBy(s, fd) + s.host.reading[fd].sending == AllWritten(Owed(s, fd))
  {
    assert Right(s, fd, s.host.reading[fd]);
  }

  /** A socket that takes all it is offered has everything its terminal is owed. */
  lemma {:induction false} GetsItAll(s: Story, fd: Fd, answers: Answers)
    requires Holds(s) && fd in Listed(s.host) && Offered(answers) >= |s.host.reading[fd].sending|
    ensures
      var s1 := Happens(s, Sending(fd, answers));
      && fd in Listed(s1.host) && s1.host.reading[fd].sending == []
      && fd in s1.since && s1.since[fd] <= |s1.log| && Short(Owed(s1, fd)) && TookBy(s1, fd) == AllWritten(Owed(s1, fd))
  {
    hide Right, Keeping, Owed, Broke;
    var t, s1 := s.host.reading[fd], Happens(s, Sending(fd, answers));
    EnoughIsTaken(|t.sending|, answers);
    RoomIs(t, answers);
    EventHolds(s, Sending(fd, answers));
    assert t.sending[|t.sending|..] == [];
    RightIs(s1, fd);
    assert TookBy(s1, fd) + [] == TookBy(s1, fd);
  }

  lemma {:induction false} EnoughIsTaken(waiting: nat, answers: Answers)
    requires Offered(answers) >= waiting
    ensures !Broke(waiting, answers)
    decreases |answers|
  {
    if answers != [] {
      BrokeRest(waiting, answers);
      if answers[0].Took? && waiting > answers[0].n {
        EnoughIsTaken(waiting - answers[0].n, answers[1..]);
      }
    }
  }

  /** Where all are let go of, every terminal on the list is off it and is told why, and no other is. */
  lemma {:induction false} LettingGoTells(h: Host, why: string)
    ensures
      var h1 := LetsGo(h, why);
      && Listed(h1) == {}
      && (forall fd :: fd in Listed(h) ==> fd !in h1.reading && At(h1.letting, fd) == Some(why))
      && (forall fd :: fd !in Listed(h) ==>
            At(h1.reading, fd) == At(h.reading, fd) && At(h1.letting, fd) == At(h.letting, fd))
  {
  }

  /** What is typed goes to the run as far as its terminal takes it, after what was typed before; and the run goes
  on unless that terminal has gone while something waited for it. */
  lemma {:induction false} TypingIs(s: Story, typed: Bytes, answers: Answers)
    requires Holds(s)
    ensures
      var (s1, all) := (Happens(s, Typing(typed, answers)), s.host.typing + typed);
      var n := Least(Offered(answers), |all|);
      && s1.through == s.through + all[..n] && s1.host.typing == all[n..]
      && (s1.host.going <==> s.host.going && !Broke(|all|, answers))
  {
    DrainIs(s.host.typing + typed, answers);
  }
}
