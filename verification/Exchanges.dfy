/** Many exchanges over one connection: the callers that open them, the timeouts that give them up, the
one reader that completes them, and the close that fails what is left.  What each of these does under the
lock, or in one breath outside it, is an act; the acts of all of them interleave anyhow. */
module Exchanges {
  import opened Prelude

  type Id = nat

  datatype Sort = Chunk | End | Reply

  /** Where the reader is: about to take a frame, past looking its exchange up, past striking a replied one
  off, failing what it found pending when the connection ended, or over. */
  datatype Reader =
    | Reading
    | Looked(id: Id, sort: Sort)
    | Struck(id: Id)
    | Failing(left: seq<Id>)
    | Ended

  /** Where the close is: not called, waiting for the reader, failing what is left, or over. */
  datatype Closer = Open | Waiting | Clearing(rest: seq<Id>) | Closed

  datatype Event = Delivered(to: Id) | Completed(whose: Id)

  datatype Client = Client(
    next: Id,
    closed: bool,
    pending: set<Id>,
    reader: Reader,
    closer: Closer,
    given: set<Id>,
    trace: seq<Event>)

  const START := Client(1, false, {}, Reading, Open, {}, [])

  /** `Drops` and `Gathers` carry the pending exchanges in the order they are gone through. */
  datatype Act =
    | Register
    | GiveUp(id: Id)
    | Look(id: Id, sort: Sort)
    | Deliver
    | Strike
    | Complete
    | Drops(all: seq<Id>)
    | FailOne
    | Close
    | Gathers(all: seq<Id>)
    | ClearOne

  /** Each pending exchange, once. */
  predicate Lists(all: seq<Id>, pending: set<Id>) {
    && (forall i :: 0 <= i < |all| ==> all[i] in pending)
    && (forall id :: id in pending ==> id in all)
    && (forall i, j :: 0 <= i < j < |all| ==> all[i] != all[j])
  }

  function Says(s: Client, event: Event): Client {
    s.(trace := s.trace + [event])
  }

  /** One act; one that is not the next of whoever would do it changes nothing. */
  function Next(s: Client, act: Act): Client {
    match act
    case Register =>
      if s.closed then s.(next := s.next + 1) else s.(next := s.next + 1, pending := s.pending + {s.next})
    case GiveUp(id) => if id in s.pending then s.(pending := s.pending - {id}, given := s.given + {id}) else s
    case Look(id, sort) => if s.reader.Reading? && id in s.pending then s.(reader := Looked(id, sort)) else s
    case Deliver =>
      (match s.reader
       case Looked(id, Chunk) => Says(s, Delivered(id)).(reader := Reading)
       case Looked(_, End) => s.(reader := Reading)
       case _ => s)
    case Strike =>
      (match s.reader
       case Looked(id, Reply) => s.(pending := s.pending - {id}, reader := Struck(id))
       case _ => s)
    case Complete =>
      (match s.reader
       case Struck(id) => Says(s, Completed(id)).(reader := Reading)
       case _ => s)
    case Drops(all) =>
      if s.reader.Reading? && Lists(all, s.pending) then s.(pending := {}, reader := Failing(all)) else s
    case FailOne =>
      (match s.reader
       case Failing(left) =>
         if left == [] then s.(reader := Ended) else Says(s, Completed(left[0])).(reader := Failing(left[1..]))
       case _ => s)
    case Close => if s.closed then s else s.(closed := true, closer := Waiting)
    case Gathers(all) =>
      if s.closer.Waiting? && Lists(all, s.pending) then s.(pending := {}, closer := Clearing(all)) else s
    case ClearOne =>
      (match s.closer
       case Clearing(rest) =>
         if rest == [] then s.(closer := Closed) else Says(s, Completed(rest[0])).(closer := Clearing(rest[1..]))
       case _ => s)
  }

  function Run(s: Client, acts: seq<Act>): Client
    decreases |acts|
  {
    if acts == [] then s else Run(Next(s, acts[0]), acts[1..])
  }

  /** Whether the reader is not about to deliver or complete anything still pending.  The close waits for the
  reader, but for two seconds and no longer, so this is all that can be asked of the moment it goes on. */
  predicate Clear(s: Client) {
    match s.reader
    case Looked(id, sort) => sort.End? || id !in s.pending
    case _ => true
  }

  /** A run whose close fails what is left at a clear moment. */
  predicate ClosesClear(s: Client, acts: seq<Act>)
    decreases |acts|
  {
    acts == []
    || ((acts[0].Gathers? && s.closer.Waiting? ==> Clear(s)) && ClosesClear(Next(s, acts[0]), acts[1..]))
  }

  /* ---- What every act keeps ---- */

  predicate Done(s: Client, id: Id) {
    Completed(id) in s.trace
  }

  predicate Ahead(left: seq<Id>, s: Client) {
    && (forall id :: id in left ==> id < s.next && id !in s.pending && !Done(s, id))
    && (forall i, j :: 0 <= i < j < |left| ==> left[i] != left[j])
  }

  /** Whether the reader has still to deliver or complete an exchange. */
  predicate Holds(reader: Reader, id: Id) {
    match reader
    case Looked(one, sort) => one == id && !sort.End?
    case Struck(one) => one == id
    case Failing(left) => id in left
    case _ => false
  }

  /** An exchange that is not pending any more is one being completed, by the reader or the close and not
  both, or one that was. */
  ghost predicate Kept(s: Client) {
    && (forall id: Id :: id in s.pending ==> id < s.next && !Done(s, id))
    && (forall id: Id :: Done(s, id) ==> id < s.next)
    && (match s.reader
        case Looked(id, sort) => id < s.next && (sort.End? || !Done(s, id))
        case Struck(id) => id < s.next && !Done(s, id) && id !in s.pending
        case Failing(left) => Ahead(left, s)
        case _ => true)
    && (s.closer.Clearing? ==> Ahead(s.closer.rest, s) && forall id :: id in s.closer.rest ==> !Holds(s.reader, id))
    && (!s.closer.Open? <==> s.closed)
    && (s.closer.Clearing? || s.closer.Closed? ==> s.pending == {})
  }

  /** Whether nothing follows what completes an exchange. */
  predicate OnceOnly(trace: seq<Event>) {
    forall i, j :: 0 <= i < j < |trace| && trace[i].Completed? ==>
      trace[j] != Completed(trace[i].whose) && trace[j] != Delivered(trace[i].whose)
  }

  lemma {:induction false} SaysOnce(s: Client, event: Event)
    requires OnceOnly(s.trace)
    requires match event case Delivered(id) => !Done(s, id) case Completed(id) => !Done(s, id)
    ensures OnceOnly(Says(s, event).trace)
    ensures forall id :: Done(Says(s, event), id) <==> Done(s, id) || event == Completed(id)
  {
    var trace := s.trace + [event];
    assert trace[|s.trace|] == event;
    assert forall e :: e in trace <==> e in s.trace || e == event;
  }

  lemma {:induction false} ActKeeps(s: Client, act: Act)
    requires Kept(s) && OnceOnly(s.trace) && (act.Gathers? && s.closer.Waiting? ==> Clear(s))
    ensures Kept(Next(s, act)) && OnceOnly(Next(s, act).trace)
  {
    if Next(s, act).trace == s.trace {
      SilentKeeps(s, act);
    } else {
      var event := if act.Deliver? then Delivered(s.reader.id)
                   else if act.Complete? then Completed(s.reader.id)
                   else if act.FailOne? then Completed(s.reader.left[0])
                   else Completed(s.closer.rest[0]);
      SaysOnce(s, event);
      SaidKeeps(s, act, event);
    }
  }

  lemma {:induction false} SilentKeeps(s: Client, act: Act)
    requires Kept(s) && (act.Gathers? && s.closer.Waiting? ==> Clear(s)) && Next(s, act).trace == s.trace
    ensures Kept(Next(s, act))
  {
    assert forall id: Id :: Done(Next(s, act), id) <==> Done(s, id);
  }

  lemma {:induction false} SaidKeeps(s: Client, act: Act, event: Event)
    requires Kept(s) && Next(s, act).trace == s.trace + [event]
    requires forall id :: Done(Next(s, act), id) <==> Done(s, id) || event == Completed(id)
    ensures Kept(Next(s, act))
  {
    assert event == Next(s, act).trace[|s.trace|];
    if act.FailOne? {
      RestApart(s.reader.left);
    } else if act.ClearOne? {
      ClearedKeeps(s, event);
    }
  }

  lemma {:induction false} RestApart(left: seq<Id>)
    requires left != [] && forall i, j :: 0 <= i < j < |left| ==> left[i] != left[j]
    ensures left[0] in left && forall id :: id in left[1..] ==> id in left && id != left[0]
  {
    assert left == [left[0]] + left[1..];
  }

  lemma {:induction false} ClearedKeeps(s: Client, event: Event)
    requires Kept(s) && s.closer.Clearing? && s.closer.rest != [] && event == Completed(s.closer.rest[0])
    requires forall id :: Done(Next(s, ClearOne), id) <==> Done(s, id) || event == Completed(id)
    ensures Kept(Next(s, ClearOne))
  {
    RestApart(s.closer.rest);
    assert !Holds(s.reader, s.closer.rest[0]);
  }

  /** Where every exchange that was ever registered has got to. */
  predicate Settled(s: Client, id: Id) {
    id in s.pending || id in s.given || Done(s, id)
    || s.reader == Struck(id)
    || (s.reader.Failing? && id in s.reader.left)
    || (s.closer.Clearing? && id in s.closer.rest)
  }

  lemma {:induction false} ActSettles(s: Client, act: Act, id: Id)
    requires Kept(s) && Settled(s, id)
    ensures Settled(Next(s, act), id)
  {
    match act
    case FailOne =>
      assert s.reader.Failing? && s.reader.left != [] ==>
               s.reader.left == [s.reader.left[0]] + s.reader.left[1..];
    case ClearOne =>
      assert s.closer.Clearing? && s.closer.rest != [] ==>
               s.closer.rest == [s.closer.rest[0]] + s.closer.rest[1..];
    case _ =>
  }

  /** Every exchange a run registers, as it registers it. */
  function Registered(s: Client, acts: seq<Act>): set<Id>
    decreases |acts|
  {
    if acts == [] then {}
    else
      (if acts[0].Register? && !s.closed then {s.next} else {}) + Registered(Next(s, acts[0]), acts[1..])
  }

  lemma {:induction false} RunKeeps(s: Client, acts: seq<Act>, id: Id)
    requires Kept(s) && OnceOnly(s.trace) && ClosesClear(s, acts)
    ensures Kept(Run(s, acts)) && OnceOnly(Run(s, acts).trace)
    ensures Settled(s, id) || id in Registered(s, acts) ==> Settled(Run(s, acts), id)
    decreases |acts|
  {
    if acts != [] {
      ActKeeps(s, acts[0]);
      if Settled(s, id) {
        ActSettles(s, acts[0], id);
      }
      RunKeeps(Next(s, acts[0]), acts[1..], id);
    }
  }

  /** However the acts interleave, where the close goes on at a clear moment: an exchange is completed at most
  once, and no chunk of it is delivered after that. */
  lemma {:induction false} CompletesOnce(acts: seq<Act>)
    requires ClosesClear(START, acts)
    ensures OnceOnly(Run(START, acts).trace)
  {
    RunKeeps(START, acts, 0);
  }

  /** Once the close is over, every exchange ever registered was completed, or given up by whoever waited for
  it, or is in the reader's hands; once the reader has ended too, one of the first two.  None is pending, and
  none can be registered. */
  lemma {:induction false} NothingIsLeftWaiting(acts: seq<Act>, id: Id)
    requires ClosesClear(START, acts) && Run(START, acts).closer.Closed?
    requires id in Registered(START, acts)
    ensures
      var s := Run(START, acts);
      && (Done(s, id) || id in s.given || Holds(s.reader, id))
      && (s.reader.Ended? ==> Done(s, id) || id in s.given)
      && s.pending == {} && Next(s, Register).pending == {}
  {
    RunKeeps(START, acts, id);
  }

  /* ---- What reaches whoever waits ---- */

  /** What of a frame the reader has in hand, followed by the acts alone: nothing, a frame whose exchange it found
  pending, a reply whose exchange it has struck off, or nothing ever again. */
  datatype Hand = Empty | Frame(id: Id, sort: Sort) | Answer(id: Id) | Over

  function Grasps(hand: Hand, pending: set<Id>, act: Act): Hand {
    match (hand, act)
    case (Empty, Look(id, sort)) => if id in pending then Frame(id, sort) else Empty
    case (Empty, Drops(all)) => if Lists(all, pending) then Over else Empty
    case (Frame(id, sort), Deliver) => if sort.Reply? then hand else Empty
    case (Frame(id, Reply), Strike) => Answer(id)
    case (Answer(_), Complete) => Empty
    case _ => hand
  }

  /** What a run acts on of the frames it looked up: the exchanges of the chunks, and those of the replies. */
  function Acted(s: Client, acts: seq<Act>, hand: Hand): (seq<Id>, seq<Id>)
    decreases |acts|
  {
    if acts == [] then ([], [])
    else
      var (chunks, replies) := Acted(Next(s, acts[0]), acts[1..], Grasps(hand, s.pending, acts[0]));
      if acts[0].Deliver? && hand.Frame? && hand.sort.Chunk? then ([hand.id] + chunks, replies)
      else if acts[0].Complete? && hand.Answer? then (chunks, [hand.id] + replies)
      else (chunks, replies)
  }

  function Delivers(trace: seq<Event>): seq<Id> {
    if trace == [] then []
    else (if trace[0].Delivered? then [trace[0].to] else []) + Delivers(trace[1..])
  }

  lemma {:induction false} DeliversMore(trace: seq<Event>, event: Event)
    ensures Delivers(trace + [event]) == Delivers(trace) + if event.Delivered? then [event.to] else []
  {
    if trace == [] {
      assert trace + [event] == [event] && [event][1..] == [];
    } else {
      var more, last := trace + [event], if event.Delivered? then [event.to] else [];
      var first := if trace[0].Delivered? then [trace[0].to] else [];
      assert more[0] == trace[0] && more[1..] == trace[1..] + [event];
      DeliversMore(trace[1..], event);
      assert Delivers(more) == first + Delivers(more[1..]) == first + (Delivers(trace[1..]) + last);
      assert first + (Delivers(trace[1..]) + last) == first + Delivers(trace[1..]) + last;
    }
  }

  /** Whether the reader is where it would be with that in hand. */
  predicate InHand(hand: Hand, reader: Reader) {
    match hand
    case Empty => reader.Reading?
    case Frame(id, sort) => reader == Looked(id, sort)
    case Answer(id) => reader == Struck(id)
    case Over => reader.Failing? || reader.Ended?
  }

  lemma {:induction false} ActDelivers(s: Client, act: Act, hand: Hand)
    requires InHand(hand, s.reader)
    ensures InHand(Grasps(hand, s.pending, act), Next(s, act).reader)
    ensures Delivers(Next(s, act).trace) ==
            Delivers(s.trace) + if act.Deliver? && hand.Frame? && hand.sort.Chunk? then [hand.id] else []
    ensures act.Complete? && hand.Answer? ==> Next(s, act).trace == s.trace + [Completed(hand.id)]
    ensures s.trace <= Next(s, act).trace
  {
    var s1 := Next(s, act);
    if s1.trace != s.trace {
      var event := s1.trace[|s.trace|];
      DeliversMore(s.trace, event);
    } else {
      assert Delivers(s.trace) + [] == Delivers(s.trace);
    }
  }

  lemma {:induction false} RunDelivers(s: Client, acts: seq<Act>, hand: Hand)
    requires InHand(hand, s.reader)
    ensures Delivers(Run(s, acts).trace) == Delivers(s.trace) + Acted(s, acts, hand).0
    ensures s.trace <= Run(s, acts).trace
    ensures forall id :: id in Acted(s, acts, hand).1 ==> Done(Run(s, acts), id)
    decreases |acts|
  {
    if acts == [] {
      assert Delivers(s.trace) + [] == Delivers(s.trace);
    } else {
      hide Next, Delivers, InHand, Grasps;
      var s1 := Next(s, acts[0]);
      ActDelivers(s, acts[0], hand);
      RunDelivers(s1, acts[1..], Grasps(hand, s.pending, acts[0]));
      if acts[0].Complete? && hand.Answer? {
        assert s1.trace[|s.trace|] == Completed(hand.id);
        assert Run(s, acts).trace[|s.trace|] == Completed(hand.id);
      }
    }
  }

  /** Over every run: what is delivered is, one for one and in order, the chunks whose exchange was pending when
  they were looked up and that were then acted on; and every reply acted on completes its exchange. */
  lemma {:induction false} DeliversEveryChunk(acts: seq<Act>)
    ensures Delivers(Run(START, acts).trace) == Acted(START, acts, Empty).0
    ensures forall id :: id in Acted(START, acts, Empty).1 ==> Done(Run(START, acts), id)
  {
    RunDelivers(START, acts, Empty);
    assert Delivers(START.trace) == [];
  }

  /** What one act does to one exchange: it is pending from when it is registered, which it is under a number no
  other was, until it is given up, replied to, or taken with all the others as the connection or the client ends. */
  lemma {:induction false} ActPends(s: Client, act: Act, id: Id)
    ensures
      var ends := s.reader.Reading? && act.Drops? && Lists(act.all, s.pending);
      var closes := s.closer.Waiting? && act.Gathers? && Lists(act.all, s.pending);
      id in Next(s, act).pending <==>
        || (act.Register? && !s.closed && id == s.next)
        || (id in s.pending && act != GiveUp(id) && !(act.Strike? && s.reader == Looked(id, Reply)) && !ends && !closes)
    ensures Next(s, act).next == s.next + if act.Register? then 1 else 0
    ensures Next(s, act).given == s.given + if act.GiveUp? && act.id in s.pending then {act.id} else {}
    ensures Next(s, act).closed <==> s.closed || act.Close?
  {
  }

  /** A close that has gone on does not go on again. */
  lemma {:induction false} GoesOnOnce(s: Client, acts: seq<Act>)
    requires s.closed && !s.closer.Waiting?
    ensures ClosesClear(s, acts)
    decreases |acts|
  {
    if acts != [] {
      GoesOnOnce(Next(s, acts[0]), acts[1..]);
    }
  }

  lemma {:induction false} RunAppend(s: Client, acts: seq<Act>, more: seq<Act>)
    ensures Run(s, acts + more) == Run(Run(s, acts), more)
    decreases |acts|
  {
    if acts == [] {
      assert acts + more == more;
    } else {
      assert (acts + more)[1..] == acts[1..] + more;
      RunAppend(Next(s, acts[0]), acts[1..], more);
    }
  }

  /** Failing what is left as far as some exchange. */
  lemma {:induction false} ClearsTo(s: Client, n: nat)
    requires s.closer.Clearing? && n <= |s.closer.rest|
    ensures
      var s1 := Run(s, Times(ClearOne, n));
      s1 == s.(closer := Clearing(s.closer.rest[n..]), trace := s.trace + Completions(s.closer.rest[..n]))
    decreases n
  {
    var rest := s.closer.rest;
    if n == 0 {
      assert rest[0..] == rest && s.trace + Completions(rest[..0]) == s.trace;
    } else {
      var s1 := Next(s, ClearOne);
      assert Times(ClearOne, n)[1..] == Times(ClearOne, n - 1);
      ClearsTo(s1, n - 1);
      assert rest[1..][n - 1..] == rest[n..];
      assert s1.trace + Completions(rest[1..][..n - 1]) == s.trace + Completions(rest[..n]);
    }
  }

  /** An exchange already completed that the reader has still to deliver or complete. */
  lemma {:induction false} FollowsOn(s: Client) returns (acts: seq<Act>)
    requires s.reader.Looked? && !s.reader.sort.End? && Done(s, s.reader.id)
    ensures !OnceOnly(Run(s, acts).trace)
  {
    var id := s.reader.id;
    var i :| 0 <= i < |s.trace| && s.trace[i] == Completed(id);
    if s.reader.sort.Chunk? {
      acts := [Deliver];
      assert acts[1..] == [];
      assert Run(Next(s, Deliver), []) == Next(s, Deliver);
      assert Run(s, acts).trace == s.trace + [Delivered(id)];
      assert Run(s, acts).trace[i] == Completed(id) && Run(s, acts).trace[|s.trace|] == Delivered(id);
    } else {
      acts := [Strike, Complete];
      var s1 := Next(s, Strike);
      assert acts[1..] == [Complete] && [Complete][1..] == [];
      assert Run(Next(s1, Complete), []) == Next(s1, Complete);
      assert Run(s1, [Complete]) == Next(s1, Complete);
      assert Run(s, acts).trace == s.trace + [Completed(id)];
      assert Run(s, acts).trace[i] == Completed(id) && Run(s, acts).trace[|s.trace|] == Completed(id);
    }
  }

  /** At a moment that is not clear, the acts can go on so that something follows a completion. */
  lemma {:induction false} ClosedTooSoon(s: Client, all: seq<Id>) returns (acts: seq<Act>)
    requires Kept(s) && s.closer.Waiting? && Lists(all, s.pending) && !Clear(s)
    ensures !OnceOnly(Run(Next(s, Gathers(all)), acts).trace)
  {
    var id := s.reader.id;
    var k :| 0 <= k < |all| && all[k] == id;
    var s1 := Next(s, Gathers(all));
    ClearsTo(s1, k + 1);
    var s2 := Run(s1, Times(ClearOne, k + 1));
    assert Completions(all[..k + 1])[k] == Completed(id);
    assert s2.trace[|s.trace| + k] == Completed(id);
    var more := FollowsOn(s2);
    acts := Times(ClearOne, k + 1) + more;
    RunAppend(s1, Times(ClearOne, k + 1), more);
  }

  /** Just when the close may go on: nothing follows a completion, however the acts go on after it, exactly
  where the reader is not about to deliver or complete something still pending. */
  lemma {:induction false} GatheringIsExact(s: Client, all: seq<Id>)
    requires Kept(s) && OnceOnly(s.trace) && s.closer.Waiting? && Lists(all, s.pending)
    ensures Clear(s) <==> forall acts :: OnceOnly(Run(Next(s, Gathers(all)), acts).trace)
  {
    if Clear(s) {
      var s1 := Next(s, Gathers(all));
      ActKeeps(s, Gathers(all));
      forall acts
        ensures OnceOnly(Run(s1, acts).trace)
      {
        GoesOnOnce(s1, acts);
        RunKeeps(s1, acts, 0);
      }
    } else {
      var acts := ClosedTooSoon(s, all);
    }
  }

  /* ---- The client, each part of it run through ---- */

  function Completions(all: seq<Id>): (events: seq<Event>)
    ensures |events| == |all| && forall i :: 0 <= i < |all| ==> events[i] == Completed(all[i])
  {
    seq(|all|, i requires 0 <= i < |all| => Completed(all[i]))
  }

  function Times(act: Act, n: nat): seq<Act> {
    if n == 0 then [] else [act] + Times(act, n - 1)
  }

  /** Failing what is left, one by one to the end. */
  lemma {:induction false} FailsAll(s: Client, all: seq<Id>)
    requires s.reader == Failing(all)
    ensures Run(s, Times(FailOne, |all| + 1)) == s.(reader := Ended, trace := s.trace + Completions(all))
    decreases |all|
  {
    var s1 := Next(s, FailOne);
    assert Times(FailOne, |all| + 1) == [FailOne] + Times(FailOne, |all|);
    assert ([FailOne] + Times(FailOne, |all|))[1..] == Times(FailOne, |all|);
    if all == [] {
      assert s.trace + Completions(all) == s.trace;
    } else {
      FailsAll(s1, all[1..]);
      assert s1.trace + Completions(all[1..]) == s.trace + Completions(all);
    }
  }

  class RemoteClient {
    var next: Id
    var closed: bool
    var pending: set<Id>
    var reader: Reader
    var closer: Closer
    var given: set<Id>
    var trace: seq<Event>

    constructor ()
      ensures State() == START
    {
      next, closed, pending, reader, closer, given, trace := 1, false, {}, Reading, Closer.Open, {}, [];
    }

    function State(): Client
      reads this
    {
      Client(next, closed, pending, reader, closer, given, trace)
    }

    /** A new exchange, or none once the client is closed. */
    method Open() returns (id: Option<Id>)
      modifies this
      ensures State() == Next(old(State()), Register)
      ensures id == if old(closed) then None else Some(old(next))
      ensures next == old(next) + 1 && pending == old(pending) + if old(closed) then {} else {old(next)}
      ensures unchanged(`closed) && unchanged(`reader) && unchanged(`closer) && unchanged(`given) && unchanged(`trace)
    {
      var one := next;
      next := next + 1;
      if closed {
        return None;
      }
      pending := pending + {one};
      return Some(one);
    }

    method Discard(id: Id)
      modifies this
      ensures State() == Next(old(State()), GiveUp(id))
      ensures pending == old(pending) - {id} && given == old(given) + if id in old(pending) then {id} else {}
      ensures unchanged(`next) && unchanged(`closed) && unchanged(`reader) && unchanged(`closer) && unchanged(`trace)
    {
      if id in pending {
        pending, given := pending - {id}, given + {id};
      }
    }

    /** One frame off the connection, delivered to whichever exchange it is of. */
    method DeliverFrame(id: Id, sort: Sort)
      requires reader.Reading?
      modifies this
      ensures State() == Run(old(State()), [Look(id, sort), Deliver, Strike, Complete])
      ensures
        trace == old(trace) + if id !in old(pending) then [] else match sort
                              case Chunk => [Delivered(id)]
                              case End => []
                              case Reply => [Completed(id)]
      ensures pending == if sort.Reply? then old(pending) - {id} else old(pending)
      ensures unchanged(`next) && unchanged(`closed) && unchanged(`reader) && unchanged(`closer) && unchanged(`given)
    {
      FourActs(State(), Look(id, sort), Deliver, Strike, Complete);
      if id !in pending {
        return;
      }
      match sort
      case Chunk => trace := trace + [Delivered(id)];
      case End =>
      case Reply =>
        pending := pending - {id};
        trace := trace + [Completed(id)];
    }

    /** The connection ended: everything pending is failed, on the reader's way out. */
    method FailPending() returns (ghost all: seq<Id>)
      requires reader.Reading?
      modifies this
      ensures Lists(all, old(pending))
      ensures State() == Run(old(State()), [Drops(all)] + Times(FailOne, |all| + 1))
      ensures trace == old(trace) + Completions(all) && pending == {} && reader == Ended
      ensures unchanged(`next) && unchanged(`closed) && unchanged(`closer) && unchanged(`given)
    {
      var listed := Listing(pending);
      all := listed;
      ghost var s := State();
      pending := {};
      Completing(listed);
      reader := Ended;
      FailsAll(Next(s, Drops(all)), all);
      assert ([Drops(all)] + Times(FailOne, |all| + 1))[1..] == Times(FailOne, |all| + 1);
    }

    /** The close, once it has waited as long as it will: whatever is pending is failed. */
    method CloseAfterWait() returns (ghost all: seq<Id>)
      modifies this
      ensures old(closed) ==> State() == old(State())
      ensures !old(closed) ==>
                Lists(all, old(pending))
                && State() == old(State()).(closed := true, closer := Closed, pending := {},
                                            trace := old(trace) + Completions(all))
    {
      all := [];
      if closed {
        return;
      }
      closed := true;
      var listed := Listing(pending);
      all := listed;
      pending := {};
      Completing(listed);
      closer := Closed;
    }

    method Completing(all: seq<Id>)
      modifies this
      ensures State() == old(State()).(trace := old(trace) + Completions(all))
    {
      assert old(trace) + Completions(all)[..0] == old(trace);
      for i := 0 to |all|
        invariant State() == old(State()).(trace := old(trace) + Completions(all)[..i])
      {
        trace := trace + [Completed(all[i])];
        assert Completions(all)[..i + 1] == Completions(all)[..i] + [Completed(all[i])];
      }
      assert Completions(all)[..|all|] == Completions(all);
    }

    /** Everything pending, in some order. */
    method Listing(ids: set<Id>) returns (all: seq<Id>)
      ensures Lists(all, ids)
    {
      all := [];
      var remaining := ids;
      while remaining != {}
        invariant remaining <= ids && Lists(all, ids - remaining)
      {
        var id :| id in remaining;
        var more := all + [id];
        assert forall x :: x in more <==> x in all || x == id;
        all, remaining := more, remaining - {id};
      }
    }
  }

  lemma {:induction false} FourActs(s: Client, a: Act, b: Act, c: Act, d: Act)
    ensures Run(s, [a, b, c, d]) == Next(Next(Next(Next(s, a), b), c), d)
  {
    var s1, s2, s3 := Next(s, a), Next(Next(s, a), b), Next(Next(Next(s, a), b), c);
    assert [a, b, c, d][1..] == [b, c, d] && [b, c, d][1..] == [c, d] && [c, d][1..] == [d] && [d][1..] == [];
    assert Run(s3, [d]) == Run(Next(s3, d), []);
    assert Run(s, [a, b, c, d]) == Run(s1, [b, c, d]) == Run(s2, [c, d]) == Run(s3, [d]);
  }
}
