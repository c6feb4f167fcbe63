/** The host as it works in place: each method leaves it as the function of the same thing says. */
module Serving {
  import opened Prelude
  import opened Framing
  import opened HoldingSpec

  class Held {
    var reading: map<Fd, Terminal>
    var letting: map<Fd, string>
    var buffer: Bytes
    var spilled: bool
    var ever: bool
    var typing: Bytes
    var going: bool

    constructor ()
      ensures State() == START
    {
      reading, letting, buffer, spilled, ever, typing, going := map[], map[], [], false, false, [], true;
    }

    function State(): Host
      reads this
    {
      Host(reading, letting, buffer, spilled, ever, typing, going)
    }

    method Draws(drawn: Bytes, answers: Fd -> Answers)
      requires |drawn| <= READ
      modifies this
      ensures State() == Drew(old(State()), drawn, answers)
    {
      var remaining := Listed(State());
      if remaining == {} {
        if !ever {
          Keep(drawn);
        }
        return;
      }
      hide WritesAll;
      ghost var h, all := State(), remaining;
      var sent := Drawn(drawn);
      WritesNone(h, sent, answers);
      assert all - remaining == {};
      while remaining != {}
        invariant remaining <= all <= h.reading.Keys
        invariant State() == WritesAll(h, all - remaining, sent, answers)
      {
        var fd :| fd in remaining;
        WritesMore(h, all - remaining, fd, sent, answers);
        Write(fd, sent, answers(fd));
        assert all - (remaining - {fd}) == all - remaining + {fd};
        remaining := remaining - {fd};
      }
      assert all - {} == all;
    }

    method Keep(drawn: Bytes)
      modifies this
      ensures State() == Keeps(old(State()), drawn)
    {
      if spilled {
        return;
      }
      buffer := buffer + drawn;
      if |buffer| > KEPT {
        spilled := true;
        buffer := [];
      }
    }

    method Write(fd: Fd, sent: Bytes, answers: Answers)
      requires fd in reading
      modifies this
      ensures State() == Writes(old(State()), fd, sent, answers)
    {
      hide Drops, Sends, Writes;
      WriteIs(State(), fd, sent, answers);
      var waiting := reading[fd].(sending := reading[fd].sending + sent);
      reading := reading[fd := waiting];
      if |waiting.sending| > BACKLOG {
        Drop(fd);
        return;
      }
      Send(fd, answers);
    }

    /** As much of what a terminal has waiting as its socket will take now. */
    method Send(fd: Fd, answers: Answers)
      modifies this
      ensures State() == Sends(old(State()), fd, answers)
    {
      if fd !in reading {
        return;
      }
      var sending, broken := Pours(reading[fd].sending, answers);
      if broken {
        Drop(fd);
      } else {
        reading := reading[fd := reading[fd].(sending := sending)];
      }
    }

    method Drop(fd: Fd)
      modifies this
      ensures State() == Drops(old(State()), fd)
    {
      reading := reading - {fd};
      letting := letting[fd := ""];
    }

    method Arrive(fd: Fd)
      modifies this
      ensures State() == Arrives(old(State()), fd)
    {
      reading := reading[fd := Terminal(false, [])];
    }

    method Join(fd: Fd, answers: Answers)
      requires |buffer| <= LONGEST
      modifies this
      ensures State() == Joins(old(State()), fd, answers)
    {
      if fd in reading {
        reading := reading[fd := reading[fd].(joined := true)];
      }
      var first := !ever;
      ever := true;
      var kept := if first && !spilled then buffer else [];
      buffer := [];
      if kept != [] && fd in reading {
        Write(fd, Drawn(kept), answers);
      }
    }

    method LetGo(why: string) returns (count: nat)
      modifies this
      ensures State() == LetsGo(old(State()), why) && count == |Listed(old(State()))|
    {
      hide LetsGoOf;
      ghost var h := State();
      var remaining := Listed(State());
      ghost var all := remaining;
      count := 0;
      LetsNone(h, why);
      assert all - remaining == {};
      while remaining != {}
        invariant remaining <= all && count == |all - remaining|
        invariant State() == LetsGoOf(h, all - remaining, why)
      {
        var fd :| fd in remaining;
        LetsMore(h, all - remaining, fd, why);
        OneFewer(all, remaining, fd);
        letting, reading := letting[fd := why], reading - {fd};
        remaining, count := remaining - {fd}, count + 1;
      }
      assert all - {} == all;
    }

    method Leave(fd: Fd)
      modifies this
      ensures State() == Leaves(old(State()), fd)
    {
      reading := reading - {fd};
    }

    method Close()
      modifies this
      ensures State() == Closes(old(State()))
    {
      letting := map[];
    }

    method Type(typed: Bytes, answers: Answers)
      modifies this
      ensures State() == Into(old(State()), typed, answers)
    {
      typing := typing + typed;
      Put(answers);
    }

    method Put(answers: Answers)
      modifies this
      ensures State() == Puts(old(State()), answers)
    {
      var left, broken := Pours(typing, answers);
      typing := left;
      if broken {
        going := false;
      }
    }
  }

  /** Written until nothing is waiting, or there is no room, or what it is written to has gone. */
  method Pours(waiting: Bytes, answers: Answers) returns (left: Bytes, broken: bool)
    ensures (left, broken) == Drain(waiting, answers)
  {
    left := waiting;
    var i := 0;
    while left != [] && i < |answers|
      invariant i <= |answers|
      invariant Drain(left, answers[i..]) == Drain(waiting, answers)
    {
      assert answers[i..][0] == answers[i] && answers[i..][1..] == answers[i + 1..];
      match answers[i]
      case Blocked => return left, false;
      case Broken => return left, true;
      case Took(n) => left := left[if n < |left| then n else |left|..];
      i := i + 1;
    }
    return left, false;
  }

  lemma {:induction false} WritesNone(h: Host, sent: Bytes, answers: Fd -> Answers)
    ensures WritesAll(h, {}, sent, answers) == h
  {
    assert WritesAll(h, {}, sent, answers).reading == h.reading;
    assert WritesAll(h, {}, sent, answers).letting == h.letting;
  }

  /** One more terminal written to. */
  lemma {:induction false} WritesMore(h: Host, done: set<Fd>, fd: Fd, sent: Bytes, answers: Fd -> Answers)
    requires done <= h.reading.Keys && fd in h.reading && fd !in done
    ensures
      var h1 := WritesAll(h, done, sent, answers);
      fd in h1.reading && Writes(h1, fd, sent, answers(fd)) == WritesAll(h, done + {fd}, sent, answers)
  {
    hide Wrote, WritesAll, Becomes;
    var h1, h2 := WritesAll(h, done, sent, answers), WritesAll(h, done + {fd}, sent, answers);
    WritesAt(h, done, sent, answers, fd);
    var h3 := Writes(h1, fd, sent, answers(fd));
    forall q
      ensures At(h3.reading, q) == At(h2.reading, q) && At(h3.letting, q) == At(h2.letting, q)
    {
      WritesAt(h, done, sent, answers, q);
      WritesAt(h, done + {fd}, sent, answers, q);
      BecomesAt(h1, fd, Wrote(h.reading[fd], sent, answers(fd)), q);
    }
    WritesAt(h, done + {fd}, sent, answers, fd);
    BecomesAt(h1, fd, Wrote(h.reading[fd], sent, answers(fd)), fd);
    SameTables(h3.reading, h2.reading);
    SameTables(h3.letting, h2.letting);
  }

  lemma {:induction false} BecomesAt(h: Host, fd: Fd, t: Option<Terminal>, q: Fd)
    ensures
      var h1 := Becomes(h, fd, t);
      && At(h1.reading, q) == (if q == fd then t else At(h.reading, q))
      && At(h1.letting, q) == (if q == fd && t.None? then Some("") else At(h.letting, q))
      && h1 == h.(reading := h1.reading, letting := h1.letting)
  {
  }

  /** A frame put on its way is waiting, and then too much or to be sent. */
  lemma {:induction false} WriteIs(h: Host, fd: Fd, sent: Bytes, answers: Answers)
    requires fd in h.reading
    ensures
      var waiting := h.reading[fd].(sending := h.reading[fd].sending + sent);
      var h1 := h.(reading := h.reading[fd := waiting]);
      Writes(h, fd, sent, answers) == if |waiting.sending| > BACKLOG then Drops(h1, fd) else Sends(h1, fd, answers)
  {
    hide Drain;
    var waiting := h.reading[fd].(sending := h.reading[fd].sending + sent);
    assert h.reading[fd := waiting] - {fd} == h.reading - {fd};
    if Room(waiting, answers).Some? {
      assert h.reading[fd := waiting][fd := Room(waiting, answers).value] ==
             h.reading[fd := Room(waiting, answers).value];
    }
  }

  lemma {:induction false} OneFewer(all: set<Fd>, remaining: set<Fd>, fd: Fd)
    requires fd in remaining && remaining <= all
    ensures all - (remaining - {fd}) == all - remaining + {fd}
    ensures |all - (remaining - {fd})| == |all - remaining| + 1
  {
    assert all - (remaining - {fd}) == all - remaining + {fd};
  }

  lemma {:induction false} LetsNone(h: Host, why: string)
    ensures LetsGoOf(h, {}, why) == h
  {
    assert LetsGoOf(h, {}, why).reading == h.reading && LetsGoOf(h, {}, why).letting == h.letting;
  }

  lemma {:induction false} LetsMore(h: Host, done: set<Fd>, fd: Fd, why: string)
    ensures
      var h1 := LetsGoOf(h, done, why);
      h1.(letting := h1.letting[fd := why], reading := h1.reading - {fd}) == LetsGoOf(h, done + {fd}, why)
  {
    var h1, h2 := LetsGoOf(h, done, why), LetsGoOf(h, done + {fd}, why);
    assert h1.letting[fd := why] == h2.letting;
    assert h1.reading - {fd} == h2.reading;
  }

  lemma {:induction false} WritesAt(h: Host, to: set<Fd>, sent: Bytes, answers: Fd -> Answers, q: Fd)
    requires to <= h.reading.Keys
    ensures
      var h1 := WritesAll(h, to, sent, answers);
      && At(h1.reading, q) == (if q in to then Wrote(h.reading[q], sent, answers(q)) else At(h.reading, q))
      && At(h1.letting, q) ==
         (if q in to && Wrote(h.reading[q], sent, answers(q)).None? then Some("") else At(h.letting, q))
      && h1 == h.(reading := h1.reading, letting := h1.letting)
  {
    hide Wrote;
  }
}
