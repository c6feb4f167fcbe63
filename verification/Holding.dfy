/** What a terminal gets is what the run drew. */
module Holding {
  import opened Prelude
  import opened Framing
  import opened HoldingSpec

  datatype Event =
    | Drawing(drawn: Bytes, each: Fd -> Answers)
    | Arriving(fd: Fd)
    | Joining(fd: Fd, answers: Answers)
    | Sending(fd: Fd, answers: Answers)
    | Leaving(fd: Fd)
    | LettingGo(why: string)
    | Closing
    | Typing(typed: Bytes, answers: Answers)

  /** A host, and what its history was: everything drawn, how much had been when each terminal was listed,
  whether any ever was and which was the first, unless its descriptor is another's now, whether a socket off the
  list said hello before that, what each socket has taken, and what was typed and put through. */
  datatype Story = Story(host: Host, log: seq<Bytes>, since: map<Fd, nat>, begun: bool, first: Option<Fd>,
                         strayed: bool, took: map<Fd, Bytes>, typed: Bytes, through: Bytes)

  function TookBy(s: Story, fd: Fd): Bytes {
    if fd in s.took then s.took[fd] else []
  }

  /** What a socket takes of what it has waiting and one more frame. */
  function More(t: Terminal, sent: Bytes, answers: Answers): Bytes {
    if |t.sending + sent| > BACKLOG then [] else Taken(t.sending + sent, answers)
  }

  /** A read is some bytes, up to so many at once; a socket that connects is none of those there are. */
  predicate Possible(s: Story, event: Event) {
    match event
    case Drawing(drawn, _) => 0 < |drawn| <= READ
    case Arriving(fd) => fd !in s.host.reading
    case _ => true
  }

  /** What was drawn before anybody was reading, where it is still kept: one frame of it all. */
  function Opening(log: seq<Bytes>): seq<Frame> {
    var all := Joined(log);
    if all == [] || |all| > KEPT then [] else [Frame(OUTPUT, all)]
  }

  function Each(log: seq<Bytes>): (frames: seq<Frame>)
    ensures |frames| == |log| && forall i :: 0 <= i < |log| ==> frames[i] == Frame(OUTPUT, log[i])
  {
    seq(|log|, i requires 0 <= i < |log| => Frame(OUTPUT, log[i]))
  }

  /** The frames a terminal is to read: everything drawn since it joined, and for the first ever listed
  everything drawn before as well, unless that spilled, or a socket off the list had said hello. */
  function Owed(s: Story, fd: Fd): seq<Frame>
    requires fd in s.since && s.since[fd] <= |s.log|
  {
    (if s.first == Some(fd) && !s.strayed then Opening(s.log[..s.since[fd]]) else []) + Each(s.log[s.since[fd]..])
  }

  predicate Short(frames: seq<Frame>) {
    forall i :: 0 <= i < |frames| ==> |frames[i].payload| <= LONGEST
  }

  /** What one listed terminal's socket took and what it has waiting are what it is owed. */
  predicate Streams(s: Story, fd: Fd, t: Terminal) {
    t.joined ==>
      && fd in s.since && s.since[fd] <= |s.log|
      && Short(Owed(s, fd)) && TookBy(s, fd) + t.sending == AllWritten(Owed(s, fd))
      && |t.sending| <= BACKLOG
  }

  predicate Right(s: Story, fd: Fd, t: Terminal) {
    && Streams(s, fd, t)
    && (!t.joined ==> t.sending == [] && TookBy(s, fd) == [] && s.first != Some(fd))
  }

  /** What is kept for the first to join is all that was drawn before it, unless that spilled; and nothing is once
  anything has said hello. */
  predicate Keeping(s: Story) {
    var h := s.host;
    && (h.ever <==> s.begun || s.strayed)
    && (!s.begun ==> Listed(h) == {} && s.first == None)
    && (!h.ever ==>
          h.spilled == (|Joined(s.log)| > KEPT) && h.buffer == if h.spilled then [] else Joined(s.log))
    && (h.ever ==> h.buffer == [])
    && (forall i :: 0 <= i < |s.log| ==> 0 < |s.log[i]| <= READ)
    && s.through + h.typing == s.typed
  }

  predicate SameFirst(s: Story, s1: Story) {
    s1.begun == s.begun && s1.first == s.first && s1.strayed == s.strayed
  }

  ghost predicate Holds(s: Story) {
    Keeping(s) && forall fd :: fd in s.host.reading ==> Right(s, fd, s.host.reading[fd])
  }

  lemma {:induction false} BufferShort(s: Story)
    requires Keeping(s)
    ensures |s.host.buffer| <= KEPT && s.through + s.host.typing == s.typed
  {
  }

  /** What happens to a host of which all this holds. */
  ghost function Happens(s: Story, event: Event): Story
    requires Possible(s, event) && Holds(s)
  {
    BufferShort(s);
    var h := s.host;
    match event
    case Drawing(drawn, each) =>
      s.(host := Drew(h, drawn, each), log := s.log + [drawn],
         took := s.took + Build(Listed(h), fd requires fd in h.reading =>
                                             TookBy(s, fd) + More(h.reading[fd], Drawn(drawn), each(fd))))
    case Arriving(fd) => s.(host := Arrives(h, fd), since := s.since - {fd}, took := s.took[fd := []],
                            first := if s.first == Some(fd) then None else s.first)
    case Joining(fd, answers) =>
      var listed := fd in h.reading;
      s.(host := Joins(h, fd, answers),
         since := if listed && !h.reading[fd].joined then s.since[fd := |s.log|] else s.since,
         begun := s.begun || listed,
         first := if listed && !s.begun then Some(fd) else s.first,
         strayed := s.strayed || (!listed && !s.begun),
         took := if listed && !h.ever && !h.spilled && h.buffer != []
                 then s.took[fd := TookBy(s, fd) + More(h.reading[fd], Drawn(h.buffer), answers)] else s.took)
    case Sending(fd, answers) =>
      s.(host := Sends(h, fd, answers),
         took := if fd in h.reading then s.took[fd := TookBy(s, fd) + Taken(h.reading[fd].sending, answers)]
                 else s.took)
    case Leaving(fd) => s.(host := Leaves(h, fd))
    case LettingGo(why) => s.(host := LetsGo(h, why))
    case Closing => s.(host := Closes(h))
    case Typing(typed, answers) =>
      s.(host := Into(h, typed, answers), typed := s.typed + typed,
         through := s.through + Taken(h.typing + typed, answers))
  }

  /* ---- One terminal at a time ---- */

  lemma {:induction false} DrainSplits(sending: Bytes, answers: Answers)
    ensures Taken(sending, answers) + Drain(sending, answers).0 == sending
    decreases |answers|
  {
    if sending != [] && answers != [] && answers[0].Took? {
      var n := if answers[0].n < |sending| then answers[0].n else |sending|;
      DrainSplits(sending[n..], answers[1..]);
      assert Taken(sending, answers) == sending[..n] + Taken(sending[n..], answers[1..]);
      Associates(sending[..n], Taken(sending[n..], answers[1..]), Drain(sending, answers).0);
    }
  }

  lemma {:induction false} Associates(a: Bytes, b: Bytes, c: Bytes)
    ensures a + b + c == a + (b + c)
  {
  }

  lemma {:induction false} WroteStreams(t: Terminal, sent: Bytes, answers: Answers, took: Bytes)
    requires Wrote(t, sent, answers).Some?
    ensures
      var t1 := Wrote(t, sent, answers).value;
      took + More(t, sent, answers) + t1.sending == took + t.sending + sent && |t1.sending| <= BACKLOG
      && t1.joined == t.joined
  {
    DrainSplits(t.sending + sent, answers);
    var t1 := Wrote(t, sent, answers).value;
    Associates(took, More(t, sent, answers), t1.sending);
    Associates(took, t.sending, sent);
  }

  lemma {:induction false} JoinedMore(log: seq<Bytes>, drawn: Bytes)
    ensures Joined(log + [drawn]) == Joined(log) + drawn
    decreases |log|
  {
    if log == [] {
      assert log + [drawn] == [drawn] && [drawn][1..] == [];
    } else {
      assert (log + [drawn])[1..] == log[1..] + [drawn];
      JoinedMore(log[1..], drawn);
    }
  }

  lemma {:induction false} AllWrittenMore(frames: seq<Frame>, f: Frame)
    requires Short(frames) && |f.payload| <= LONGEST
    ensures Short(frames + [f]) && AllWritten(frames + [f]) == AllWritten(frames) + Written(f)
    decreases |frames|
  {
    if frames == [] {
      assert frames + [f] == [f] && [f][1..] == [];
    } else {
      assert (frames + [f])[1..] == frames[1..] + [f];
      AllWrittenMore(frames[1..], f);
    }
  }

  /** One more thing drawn is one more frame owed. */
  lemma {:induction false} OwedMore(s: Story, s1: Story, fd: Fd, drawn: Bytes)
    requires fd in s.since && s.since[fd] <= |s.log| && |drawn| <= READ && Short(Owed(s, fd))
    requires s1.log == s.log + [drawn] && s1.since == s.since && SameFirst(s, s1)
    ensures Short(Owed(s1, fd)) && AllWritten(Owed(s1, fd)) == AllWritten(Owed(s, fd)) + Drawn(drawn)
  {
    var at := s.since[fd];
    assert s1.log[..at] == s.log[..at] && s1.log[at..] == s.log[at..] + [drawn];
    assert Owed(s1, fd) == Owed(s, fd) + [Frame(OUTPUT, drawn)];
    AllWrittenMore(Owed(s, fd), Frame(OUTPUT, drawn));
  }

  /* ---- What happens ---- */

  /** A terminal nothing has happened to. */
  lemma {:induction false} StillRight(s: Story, s1: Story, fd: Fd, t: Terminal)
    requires Right(s, fd, t) && s1.log == s.log && At(s1.since, fd) == At(s.since, fd)
    requires TookBy(s1, fd) == TookBy(s, fd) && (s1.first == Some(fd) <==> s.first == Some(fd))
    requires s.first == Some(fd) ==> s1.strayed == s.strayed
    ensures Right(s1, fd, t)
  {
    hide Opening, Each, AllWritten;
    assert t.joined ==> Owed(s1, fd) == Owed(s, fd);
  }

  lemma {:induction false} DrewAt(h: Host, drawn: Bytes, each: Fd -> Answers, fd: Fd)
    requires |drawn| <= READ
    ensures At(Drew(h, drawn, each).reading, fd) ==
            if fd in Listed(h) then Wrote(h.reading[fd], Drawn(drawn), each(fd)) else At(h.reading, fd)
  {
    hide Wrote, Written;
    assert fd in Listed(h) <==> fd in h.reading && h.reading[fd].joined;
  }

  lemma {:induction false} DrawnRight(s: Story, s1: Story, drawn: Bytes, answers: Answers, fd: Fd, t: Terminal)
    requires Right(s, fd, t) && t.joined && 0 < |drawn| <= READ
    requires s1.log == s.log + [drawn] && s1.since == s.since && SameFirst(s, s1)
    requires TookBy(s1, fd) == TookBy(s, fd) + More(t, Drawn(drawn), answers)
    requires Wrote(t, Drawn(drawn), answers).Some?
    ensures Right(s1, fd, Wrote(t, Drawn(drawn), answers).value)
  {
    hide Owed, AllWritten, Wrote, More, Written;
    OwedMore(s, s1, fd, drawn);
    WroteStreams(t, Drawn(drawn), answers, TookBy(s, fd));
  }

  lemma {:induction false} DrewKeeps(s: Story, drawn: Bytes, each: Fd -> Answers)
    requires Holds(s) && Possible(s, Drawing(drawn, each))
    ensures Keeping(Happens(s, Drawing(drawn, each)))
  {
    hide Right, Written, Wrote, Joined;
    JoinedMore(s.log, drawn);
  }

  lemma {:induction false} DrawingHolds(s: Story, drawn: Bytes, each: Fd -> Answers)
    requires Holds(s) && Possible(s, Drawing(drawn, each))
    ensures Holds(Happens(s, Drawing(drawn, each)))
  {
    hide Right, Keeping, Drew, Wrote, Drawn, More;
    BufferShort(s);
    var h, s1 := s.host, Happens(s, Drawing(drawn, each));
    DrewKeeps(s, drawn, each);
    forall fd | fd in s1.host.reading
      ensures Right(s1, fd, s1.host.reading[fd])
    {
      DrewAt(h, drawn, each, fd);
      var t := h.reading[fd];
      if fd in Listed(h) {
        DrawnRight(s, s1, drawn, each(fd), fd, t);
      } else {
        UnjoinedRight(s, s1, fd, t);
      }
    }
  }

  lemma {:induction false} UnjoinedRight(s: Story, s1: Story, fd: Fd, t: Terminal)
    requires Right(s, fd, t) && !t.joined && TookBy(s1, fd) == TookBy(s, fd) && SameFirst(s, s1)
    ensures Right(s1, fd, t)
  {
  }

  lemma {:induction false} FirstOwed(s: Story, fd: Fd)
    requires fd in s.since && s.since[fd] == |s.log|
    ensures Owed(s, fd) == if s.first == Some(fd) && !s.strayed then Opening(s.log) else []
  {
    assert s.log[..|s.log|] == s.log && s.log[|s.log|..] == [];
  }

  /** A terminal that has just joined: it is owed what was kept, if it is the first. */
  lemma {:induction false} JoinedRight(s: Story, fd: Fd, answers: Answers)
    requires Holds(s) && fd in s.host.reading && !s.host.reading[fd].joined
    ensures
      var s1 := Happens(s, Joining(fd, answers));
      fd in s1.host.reading ==> Right(s1, fd, s1.host.reading[fd])
  {
    hide Owed, Written, Wrote, More, Each, Joined;
    var h, s1 := s.host, Happens(s, Joining(fd, answers));
    assert Right(s, fd, h.reading[fd]);
    FirstOwed(s1, fd);
    var kept := if !h.ever && !h.spilled then h.buffer else [];
    if kept != [] && fd in s1.host.reading {
      assert AllWritten([Frame(OUTPUT, kept)]) == Drawn(kept) + AllWritten([Frame(OUTPUT, kept)][1..]);
      WroteStreams(h.reading[fd].(joined := true), Drawn(kept), answers, []);
      MoreJoined(h.reading[fd], Drawn(kept), answers);
    }
  }

  lemma {:induction false} MoreJoined(t: Terminal, sent: Bytes, answers: Answers)
    ensures More(t.(joined := true), sent, answers) == More(t, sent, answers)
  {
  }

  lemma {:induction false} JoiningHolds(s: Story, fd: Fd, answers: Answers)
    requires Holds(s)
    ensures Holds(Happens(s, Joining(fd, answers)))
  {
    hide Right, Wrote, Drawn, More;
    var h, s1 := s.host, Happens(s, Joining(fd, answers));
    assert fd in h.reading && h.reading[fd].joined ==> fd in Listed(h);
    forall q | q in s1.host.reading
      ensures Right(s1, q, s1.host.reading[q])
    {
      if q == fd && !h.reading[fd].joined {
        JoinedRight(s, fd, answers);
      } else {
        StillRight(s, s1, q, h.reading[q]);
      }
    }
  }

  lemma {:induction false} SameOwed(s: Story, s1: Story, fd: Fd)
    requires fd in s.since && s.since[fd] <= |s.log|
    requires s1.log == s.log && s1.since == s.since && SameFirst(s, s1)
    ensures Owed(s1, fd) == Owed(s, fd)
  {
  }

  lemma {:induction false} SentRight(s: Story, s1: Story, fd: Fd, t: Terminal, answers: Answers)
    requires Right(s, fd, t) && Room(t, answers).Some?
    requires s1.log == s.log && s1.since == s.since && SameFirst(s, s1)
    requires TookBy(s1, fd) == TookBy(s, fd) + Taken(t.sending, answers)
    ensures Right(s1, fd, Room(t, answers).value)
  {
    hide Owed, AllWritten, Drain, Taken;
    DrainSplits(t.sending, answers);
    if t.joined {
      SameOwed(s, s1, fd);
    }
    var took, left := Taken(t.sending, answers), Room(t, answers).value.sending;
    Associates(TookBy(s, fd), took, left);
    assert t.sending == [] ==> took == [] && left == [];
  }

  lemma {:induction false} SendingHolds(s: Story, fd: Fd, answers: Answers)
    requires Holds(s)
    ensures Holds(Happens(s, Sending(fd, answers)))
  {
    hide Right, Room, Taken;
    var h, s1 := s.host, Happens(s, Sending(fd, answers));
    forall q | q in s1.host.reading
      ensures Right(s1, q, s1.host.reading[q])
    {
      if q == fd {
        SentRight(s, s1, fd, h.reading[fd], answers);
      } else {
        StillRight(s, s1, q, h.reading[q]);
      }
    }
    SendingKeeps(s, fd, answers);
  }

  lemma {:induction false} SendingKeeps(s: Story, fd: Fd, answers: Answers)
    requires Holds(s)
    ensures Keeping(Happens(s, Sending(fd, answers)))
  {
    hide Drain, Taken, Joined, Right, Sends, Keeping;
    BufferShort(s);
    SendsKeeps(s.host, fd, answers);
    StillKeeping(s, Happens(s, Sending(fd, answers)));
  }

  /** A send changes what one terminal has waiting, or lets go of it. */
  lemma {:induction false} SendsKeeps(h: Host, fd: Fd, answers: Answers)
    ensures
      var h1 := Sends(h, fd, answers);
      && Listed(h1) <= Listed(h) && h1.ever == h.ever && h1.buffer == h.buffer && h1.spilled == h.spilled
      && h1.typing == h.typing
  {
    hide Drain;
    forall q | q in Listed(Sends(h, fd, answers))
      ensures q in Listed(h)
    {
    }
  }

  lemma {:induction false} StillKeeping(s: Story, s1: Story)
    requires Keeping(s) && s1.log == s.log && SameFirst(s, s1) && Listed(s1.host) <= Listed(s.host)
    requires s1.host.ever == s.host.ever && s1.host.buffer == s.host.buffer && s1.host.spilled == s.host.spilled
    requires s1.through + s1.host.typing == s1.typed
    ensures Keeping(s1)
  {
    hide Joined;
  }

  lemma {:induction false} ArrivingHolds(s: Story, fd: Fd)
    requires Holds(s) && fd !in s.host.reading
    ensures Holds(Happens(s, Arriving(fd)))
  {
    hide Right;
    var h, s1 := s.host, Happens(s, Arriving(fd));
    forall q | q in s1.host.reading
      ensures Right(s1, q, s1.host.reading[q])
    {
      if q != fd {
        StillRight(s, s1, q, h.reading[q]);
      } else {
        ArrivedRight(s1, fd);
      }
    }
    assert Listed(s1.host) == Listed(h);
  }

  lemma {:induction false} ArrivedRight(s: Story, fd: Fd)
    requires TookBy(s, fd) == [] && s.first != Some(fd)
    ensures Right(s, fd, Terminal(false, []))
  {
  }

  /** Nothing said to any terminal that is still listed. */
  lemma {:induction false} QuietHolds(s: Story, s1: Story)
    requires Holds(s) && s1.log == s.log && s1.since == s.since && s1.took == s.took && SameFirst(s, s1)
    requires forall q :: q in s1.host.reading ==> q in s.host.reading && s1.host.reading[q] == s.host.reading[q]
    requires s1.host.ever == s.host.ever && s1.host.buffer == s.host.buffer && s1.host.spilled == s.host.spilled
    requires s1.through + s1.host.typing == s1.typed
    ensures Holds(s1)
  {
    hide Right;
    forall q | q in s1.host.reading
      ensures Right(s1, q, s1.host.reading[q])
    {
      StillRight(s, s1, q, s.host.reading[q]);
    }
    assert forall q :: q in Listed(s1.host) ==> q in Listed(s.host);
  }

  lemma {:induction false} TypingHolds(s: Story, typed: Bytes, answers: Answers)
    requires Holds(s)
    ensures Holds(Happens(s, Typing(typed, answers)))
  {
    hide Right, Keeping, Drain, Taken;
    BufferShort(s);
    DrainSplits(s.host.typing + typed, answers);
    var took, left := Taken(s.host.typing + typed, answers), Drain(s.host.typing + typed, answers).0;
    Associates(s.through, took, left);
    Associates(s.through, s.host.typing, typed);
    QuietHolds(s, Happens(s, Typing(typed, answers)));
  }

  lemma {:induction false} OtherHolds(s: Story, event: Event)
    requires Holds(s) && (event.Leaving? || event.LettingGo? || event.Closing?)
    ensures Holds(Happens(s, event))
  {
    hide Right, Keeping, Listed;
    BufferShort(s);
    QuietHolds(s, Happens(s, event));
  }

  lemma {:induction false} EventHolds(s: Story, event: Event)
    requires Holds(s) && Possible(s, event)
    ensures Holds(Happens(s, event))
  {
    hide Holds, Happens;
    match event
    case Drawing(drawn, each) => DrawingHolds(s, drawn, each);
    case Joining(fd, answers) => JoiningHolds(s, fd, answers);
    case Sending(fd, answers) => SendingHolds(s, fd, answers);
    case Arriving(fd) => ArrivingHolds(s, fd);
    case Typing(typed, answers) => TypingHolds(s, typed, answers);
    case _ => OtherHolds(s, event);
  }

  /** A run of a host: whatever happens is something that can. */
  ghost predicate AllPossible(s: Story, events: seq<Event>)
    requires Holds(s)
    decreases |events|
  {
    events == []
    || (Possible(s, events[0])
        && (EventHolds(s, events[0]);
            AllPossible(Happens(s, events[0]), events[1..])))
  }

  ghost function Told(s: Story, events: seq<Event>): (told: Story)
    requires Holds(s) && AllPossible(s, events)
    ensures Holds(told)
    decreases |events|
  {
    if events == [] then s
    else
      EventHolds(s, events[0]);
      Told(Happens(s, events[0]), events[1..])
  }

  /** A host nothing has happened to. */
  ghost function Begun(): (s: Story)
    ensures Holds(s)
  {
    Story(START, [], map[], false, None, false, map[], [], [])
  }

  /** Over every run of a host from its beginning: while a terminal is listed, what its socket has taken and what
  it has waiting are the framing of everything drawn since it joined, preceded for the first ever listed by
  everything drawn before unless that spilled or a socket off the list had said hello; what it has waiting is never
  more than may pile up; and what was typed reaches the run in the order it was. */
  lemma {:induction false} TerminalsGetTheRun(events: seq<Event>, fd: Fd)
    requires AllPossible(Begun(), events) && fd in Listed(Told(Begun(), events).host)
    ensures
      var s := Told(Begun(), events);
      && fd in s.since && s.since[fd] <= |s.log| && Short(Owed(s, fd))
      && TookBy(s, fd) + s.host.reading[fd].sending == AllWritten(Owed(s, fd))
      && |s.host.reading[fd].sending| <= BACKLOG && s.through + s.host.typing == s.typed
  {
    var s := Told(Begun(), events);
    assert Right(s, fd, s.host.reading[fd]);
  }

  /** And so a terminal with nothing waiting has read just the frames it was owed, however its reads were
  cut. */
  lemma {:induction false} ATerminalReads(events: seq<Event>, fd: Fd, pieces: seq<Bytes>)
    requires AllPossible(Begun(), events) && fd in Listed(Told(Begun(), events).host)
    requires Told(Begun(), events).host.reading[fd].sending == []
    requires Joined(pieces) == TookBy(Told(Begun(), events), fd)
    ensures
      var s := Told(Begun(), events);
      fd in s.since && s.since[fd] <= |s.log| && Fed([], pieces) == Some((Owed(s, fd), []))
  {
    TerminalsGetTheRun(events, fd);
    var s := Told(Begun(), events);
    assert TookBy(s, fd) + [] == TookBy(s, fd);
    WrittenReadsBack(Owed(s, fd), pieces);
  }

  /* ---- Who gets what was kept ---- */

  /** Whether a socket that is not on the list says hello before any that is. */
  ghost predicate Strays(s: Story, events: seq<Event>)
    requires Holds(s) && AllPossible(s, events)
    decreases |events|
  {
    events != []
    && (if events[0].Joining? then events[0].fd !in s.host.reading
        else (EventHolds(s, events[0]);
              Strays(Happens(s, events[0]), events[1..])))
  }

  /** Once anything has said hello, nothing strays before it. */
  lemma {:induction false} StrayedStays(s: Story, events: seq<Event>)
    requires Holds(s) && AllPossible(s, events) && (s.begun || s.strayed)
    ensures Told(s, events).strayed == s.strayed
    decreases |events|
  {
    hide Holds, Possible;
    if events != [] {
      EventHolds(s, events[0]);
      StrayedStays(Happens(s, events[0]), events[1..]);
    }
  }

  lemma {:induction false} StrayedIs(s: Story, events: seq<Event>)
    requires Holds(s) && AllPossible(s, events) && !s.begun && !s.strayed
    ensures Told(s, events).strayed == Strays(s, events)
    decreases |events|
  {
    hide Holds, Possible;
    if events != [] {
      EventHolds(s, events[0]);
      if events[0].Joining? {
        StrayedStays(Happens(s, events[0]), events[1..]);
      } else {
        StrayedIs(Happens(s, events[0]), events[1..]);
      }
    }
  }

  /** The first terminal ever listed is handed everything drawn before it, unless that spilled, exactly where no
  socket off the list had said hello: otherwise it is handed nothing. */
  lemma {:induction false} FirstListed(events: seq<Event>, fd: Fd, answers: Answers)
    requires AllPossible(Begun(), events) && !Told(Begun(), events).begun
    requires fd in Told(Begun(), events).host.reading
    requires fd in Happens(Told(Begun(), events), Joining(fd, answers)).host.reading
    ensures
      var s := Told(Begun(), events);
      var s1 := Happens(s, Joining(fd, answers));
      TookBy(s1, fd) + s1.host.reading[fd].sending == if Strays(Begun(), events) then [] else AllWritten(Opening(s.log))
  {
    var s := Told(Begun(), events);
    StrayedIs(Begun(), events);
    assert !s.host.reading[fd].joined by {
      assert fd !in Listed(s.host);
    }
    JoinedRight(s, fd, answers);
    FirstOwed(Happens(s, Joining(fd, answers)), fd);
  }

  /** What one socket says that asks something, and says hello in the same breath: it is answered, let go of, and
  then taken for the first terminal.  The next to say hello is listed, and is owed nothing of what was kept. */
  lemma {:induction false} AskedAndSaidHello(drawn: Bytes, each: Fd -> Answers, asks: Fd, fd: Fd, answers: Answers)
    requires 0 < |drawn| <= READ
    ensures
      var events := [Drawing(drawn, each), Arriving(asks), Leaving(asks), Joining(asks, answers), Arriving(fd)];
      && AllPossible(Begun(), events)
      && var s := Told(Begun(), events);
         && !s.begun && !s.host.spilled && Opening(s.log) == [Frame(OUTPUT, drawn)] && fd in s.host.reading
         && var s1 := Happens(s, Joining(fd, answers));
            fd in Listed(s1.host) && s1.host.reading[fd].sending == [] && TookBy(s1, fd) == []
  {
    hide Holds, Happens, Joins, Opening;
    var s, s1 := Begun(), Happens(Begun(), Drawing(drawn, each));
    EventHolds(s, Drawing(drawn, each));
    DrawnFirst(drawn, each);
    EventHolds(s1, Arriving(asks));
    var s2 := Happens(s1, Arriving(asks));
    EventHolds(s2, Leaving(asks));
    var s3 := Happens(s2, Leaving(asks));
    EventHolds(s3, Joining(asks, answers));
    var s4 := Happens(s3, Joining(asks, answers));
    AskedFirst(s1, asks, answers);
    EventHolds(s4, Arriving(fd));
    NextEvent(s4, Arriving(fd), []);
    NextEvent(s3, Joining(asks, answers), [Arriving(fd)]);
    NextEvent(s2, Leaving(asks), [Joining(asks, answers), Arriving(fd)]);
    NextEvent(s1, Arriving(asks), [Leaving(asks), Joining(asks, answers), Arriving(fd)]);
    NextEvent(s, Drawing(drawn, each), [Arriving(asks), Leaving(asks), Joining(asks, answers), Arriving(fd)]);
    ListedLate(s4, fd, answers);
  }

  lemma {:induction false} DrawnFirst(drawn: Bytes, each: Fd -> Answers)
    requires 0 < |drawn| <= READ
    ensures
      var s := Happens(Begun(), Drawing(drawn, each));
      s.host == START.(buffer := drawn) && s.log == [drawn] && !s.begun && Opening(s.log) == [Frame(OUTPUT, drawn)]
  {
    assert Listed(START) == {};
    JoinedMore([], drawn);
    assert [] + [drawn] == [drawn];
  }

  lemma {:induction false} AskedFirst(s: Story, asks: Fd, answers: Answers)
    requires Holds(s) && s.host.reading == map[] && !s.begun && Possible(s, Arriving(asks))
    requires Holds(Happens(s, Arriving(asks))) && Holds(Happens(Happens(s, Arriving(asks)), Leaving(asks)))
    ensures
      var s1 := Happens(Happens(Happens(s, Arriving(asks)), Leaving(asks)), Joining(asks, answers));
      s1.host == s.host.(ever := true, buffer := []) && s1.log == s.log && !s1.begun
  {
    hide Holds;
    assert s.host.reading[asks := Terminal(false, [])] - {asks} == map[];
  }

  lemma {:induction false} ListedLate(s: Story, fd: Fd, answers: Answers)
    requires Holds(s) && fd !in s.host.reading && s.host.ever && Holds(Happens(s, Arriving(fd)))
    ensures
      var s1 := Happens(s, Arriving(fd));
      var s2 := Happens(s1, Joining(fd, answers));
      && s1.begun == s.begun && s1.host.spilled == s.host.spilled && s1.log == s.log && fd in s1.host.reading
      && fd in Listed(s2.host) && s2.host.reading[fd].sending == [] && TookBy(s2, fd) == []
  {
    hide Holds;
  }

  lemma {:induction false} NextEvent(s: Story, event: Event, rest: seq<Event>)
    requires Holds(s) && Possible(s, event) && Holds(Happens(s, event)) && AllPossible(Happens(s, event), rest)
    ensures AllPossible(s, [event] + rest) && Told(s, [event] + rest) == Told(Happens(s, event), rest)
  {
    hide Holds, Happens, Possible;
    assert ([event] + rest)[1..] == rest;
  }
}
