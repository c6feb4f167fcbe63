/** The frames the socket between a run and its terminals carries, written and read back. */
module Framing {
  import opened Prelude

  const LONGEST := 4194304
  const HEAD := 5
  const OUTPUT: Byte := 79

  datatype Frame = Frame(kind: Byte, payload: Bytes)

  /** Four bytes, the most significant first. */
  function Word(n: nat): (word: Bytes)
    requires n < 0x1_0000_0000
    ensures |word| == 4
  {
    [(n / 0x100_0000) as Byte, (n / 0x1_0000 % 256) as Byte, (n / 256 % 256) as Byte, (n % 256) as Byte]
  }

  function Number(word: Bytes): nat
    requires |word| == 4
  {
    word[0] as nat * 0x100_0000 + word[1] as nat * 0x1_0000 + word[2] as nat * 256 + word[3] as nat
  }

  /** One frame, ready to be written. */
  function Written(f: Frame): Bytes
    requires |f.payload| < 0x1_0000_0000
  {
    [f.kind] + Word(|f.payload|) + f.payload
  }

  /** What a stream holds: its whole frames and what is left, or that a length in it is of no frame. */
  function Parse(held: Bytes): Option<(seq<Frame>, Bytes)>
    decreases |held|
  {
    if |held| < HEAD then Some(([], held))
    else
      var length := Number(held[1..HEAD]);
      if length > LONGEST then None
      else if |held| - HEAD < length then Some(([], held))
      else Prepended([Frame(held[0], held[HEAD..HEAD + length])], Parse(held[HEAD + length..]))
  }

  function Prepended(frames: seq<Frame>, parsed: Option<(seq<Frame>, Bytes)>): Option<(seq<Frame>, Bytes)> {
    match parsed
    case None => None
    case Some((more, left)) => Some((frames + more, left))
  }

  lemma {:induction false} PrependedTwice(a: seq<Frame>, b: seq<Frame>, parsed: Option<(seq<Frame>, Bytes)>)
    ensures Prepended(a, Prepended(b, parsed)) == Prepended(a + b, parsed)
    ensures Prepended([], parsed) == parsed
  {
    if parsed.Some? {
      assert a + (b + parsed.value.0) == (a + b) + parsed.value.0;
      assert [] + parsed.value.0 == parsed.value.0;
    }
  }

  /** A socket read a piece at a time. */
  class Frames {
    var held: Bytes

    constructor ()
      ensures held == []
    {
      held := [];
    }

    /** Every whole frame there now is; or nothing, and nothing kept, where a length is of no frame. */
    method Feed(data: Bytes) returns (whole: Option<seq<Frame>>)
      modifies this
      ensures
        match Parse(old(held) + data)
        case Some((frames, left)) => whole == Some(frames) && held == left
        case None => whole == None && held == []
    {
      var stream := held + data;
      var at := 0;
      var frames: seq<Frame> := [];
      PrependedTwice([], [], Parse(stream));
      assert stream[0..] == stream;
      while |stream| - at >= HEAD
        invariant at <= |stream|
        invariant Parse(stream) == Prepended(frames, Parse(stream[at..]))
        decreases |stream| - at
      {
        var rest := stream[at..];
        var length := Number(rest[1..HEAD]);
        if length > LONGEST {
          held := [];
          return None;
        }
        if |rest| - HEAD < length {
          break;
        }
        var begins := at + HEAD;
        assert rest[HEAD + length..] == stream[begins + length..];
        assert rest[HEAD..HEAD + length] == stream[begins..begins + length];
        at := begins + length;
        var f := Frame(rest[0], stream[begins..at]);
        PrependedTwice(frames, [f], Parse(stream[at..]));
        frames := frames + [f];
      }
      held := stream[at..];
      assert Parse(held) == Some(([], held));
      assert frames + [] == frames;
      return Some(frames);
    }
  }

  /** What is read so far settles what it says whatever follows: its frames come first, and a length
  of no frame stays one. */
  lemma {:induction false} ParseMore(held: Bytes, data: Bytes)
    ensures
      match Parse(held)
      case None => Parse(held + data) == None
      case Some((frames, left)) => Parse(held + data) == Prepended(frames, Parse(left + data))
    decreases |held|
  {
    if |held| >= HEAD {
      assert (held + data)[1..HEAD] == held[1..HEAD];
      var length := Number(held[1..HEAD]);
      if length <= LONGEST && |held| - HEAD >= length {
        assert (held + data)[HEAD + length..] == held[HEAD + length..] + data;
        assert (held + data)[HEAD..HEAD + length] == held[HEAD..HEAD + length];
        var f := Frame(held[0], held[HEAD..HEAD + length]);
        var rest := held[HEAD + length..];
        ParseMore(rest, data);
        if Parse(rest).Some? {
          PrependedTwice([f], Parse(rest).value.0, Parse(Parse(rest).value.1 + data));
        }
        return;
      }
    }
    PrependedTwice([], [], Parse(held + data));
  }

  function Joined(pieces: seq<Bytes>): Bytes {
    if pieces == [] then [] else pieces[0] + Joined(pieces[1..])
  }

  /** What feeding one piece after another gives back in all, and what is kept. */
  function Fed(held: Bytes, pieces: seq<Bytes>): Option<(seq<Frame>, Bytes)>
    decreases |pieces|
  {
    if pieces == [] then Some(([], held))
    else
      match Parse(held + pieces[0])
      case None => None
      case Some((frames, left)) => Prepended(frames, Fed(left, pieces[1..]))
  }

  /** Nothing read whole is left unread. */
  lemma {:induction false} ParseSettles(held: Bytes)
    ensures Parse(held).Some? ==> Parse(Parse(held).value.1) == Some(([], Parse(held).value.1))
    decreases |held|
  {
    if |held| >= HEAD {
      var length := Number(held[1..HEAD]);
      if length <= LONGEST && |held| - HEAD >= length {
        ParseSettles(held[HEAD + length..]);
      }
    }
  }

  /** However a stream is cut into pieces, what is given back and what is kept are those of the whole
  of it, and it is refused just where the whole would be. */
  lemma {:induction false} CuttingIsNothing(held: Bytes, pieces: seq<Bytes>)
    requires Parse(held) == Some(([], held))
    ensures Fed(held, pieces) == Parse(held + Joined(pieces))
    decreases |pieces|
  {
    if pieces == [] {
      assert held + Joined(pieces) == held;
    } else {
      var read := held + pieces[0];
      assert held + Joined(pieces) == read + Joined(pieces[1..]);
      ParseMore(read, Joined(pieces[1..]));
      if Parse(read).Some? {
        ParseSettles(read);
        CuttingIsNothing(Parse(read).value.1, pieces[1..]);
      }
    }
  }

  function AllWritten(frames: seq<Frame>): Bytes
    requires forall i :: 0 <= i < |frames| ==> |frames[i].payload| <= LONGEST
  {
    if frames == [] then [] else Written(frames[0]) + AllWritten(frames[1..])
  }

  lemma {:induction false} NumberOfWord(n: nat)
    requires n < 0x1_0000_0000
    ensures Number(Word(n)) == n
  {
    var a, b, c, d := n / 0x100_0000, n / 0x1_0000 % 256, n / 256 % 256, n % 256;
    assert n / 256 == n / 0x1_0000 * 256 + c;
    assert n / 0x1_0000 == a * 256 + b;
  }

  lemma {:induction false} WrittenParses(f: Frame, after: Bytes)
    requires |f.payload| <= LONGEST
    ensures Parse(Written(f) + after) == Prepended([f], Parse(after))
  {
    var stream := Written(f) + after;
    NumberOfWord(|f.payload|);
    assert stream[1..HEAD] == Word(|f.payload|);
    assert stream[HEAD..HEAD + |f.payload|] == f.payload;
    assert stream[HEAD + |f.payload|..] == after;
  }

  /** Frames written one after another are read back as just those, with nothing kept, however what
  was written is cut. */
  lemma {:induction false} WrittenReadsBack(frames: seq<Frame>, pieces: seq<Bytes>)
    requires forall i :: 0 <= i < |frames| ==> |frames[i].payload| <= LONGEST
    requires Joined(pieces) == AllWritten(frames)
    ensures Fed([], pieces) == Some((frames, []))
  {
    CuttingIsNothing([], pieces);
    assert [] + Joined(pieces) == AllWritten(frames);
    AllParses(frames);
  }

  lemma {:induction false} AllParses(frames: seq<Frame>)
    requires forall i :: 0 <= i < |frames| ==> |frames[i].payload| <= LONGEST
    ensures Parse(AllWritten(frames)) == Some((frames, []))
    decreases |frames|
  {
    if frames != [] {
      WrittenParses(frames[0], AllWritten(frames[1..]));
      AllParses(frames[1..]);
      assert [frames[0]] + frames[1..] == frames;
    }
  }

  /* ---- What a stream is ---- */

  /** A number and its last eight bits; and, of those before them, the same again. */
  lemma {:induction false} LastByte(high: nat, low: nat)
    requires low < 256
    ensures (high * 256 + low) / 256 == high && (high * 256 + low) % 256 == low
  {
  }

  lemma {:induction false} Halves(n: nat)
    ensures n / 0x1_0000 == n / 256 / 256 && n / 0x100_0000 == n / 256 / 256 / 256
  {
  }

  lemma {:induction false} WordOfNumber(word: Bytes)
    requires |word| == 4
    ensures Number(word) < 0x1_0000_0000 && Word(Number(word)) == word
  {
    var (a, b, c, d) := (word[0] as nat, word[1] as nat, word[2] as nat, word[3] as nat);
    LastByte((a * 256 + b) * 256 + c, d);
    LastByte(a * 256 + b, c);
    LastByte(a, b);
    assert Number(word) == ((a * 256 + b) * 256 + c) * 256 + d;
    Halves(Number(word));
  }

  predicate Fits(frames: seq<Frame>) {
    forall i :: 0 <= i < |frames| ==> |frames[i].payload| <= LONGEST
  }

  /** Not yet a whole frame. */
  predicate Unfinished(left: Bytes) {
    |left| < HEAD || |left| - HEAD < Number(left[1..HEAD]) <= LONGEST
  }

  /** Not the beginning of any frame: a length too long. */
  predicate Senseless(left: Bytes) {
    |left| >= HEAD && Number(left[1..HEAD]) > LONGEST
  }

  lemma {:induction false} FrameIs(held: Bytes)
    requires |held| >= HEAD && Number(held[1..HEAD]) <= |held| - HEAD
    ensures
      var length := Number(held[1..HEAD]);
      && length < 0x1_0000_0000
      && held == Written(Frame(held[0], held[HEAD..HEAD + length])) + held[HEAD + length..]
  {
    WordOfNumber(held[1..HEAD]);
    var length := Number(held[1..HEAD]);
    assert held == [held[0]] + held[1..HEAD] + held[HEAD..HEAD + length] + held[HEAD + length..];
  }

  /** A stream is some frames as they are written and something left, which is either not a whole frame yet, and then
  those are what it is read as, or the beginning of none, and then it is refused. */
  lemma {:induction false} StreamIs(held: Bytes) returns (frames: seq<Frame>, left: Bytes)
    ensures Fits(frames) && held == AllWritten(frames) + left && (Unfinished(left) || Senseless(left))
    ensures Parse(held) == if Senseless(left) then None else Some((frames, left))
    decreases |held|
  {
    hide Parse, Written, Number, Prepended;
    if Unfinished(held) || Senseless(held) {
      frames, left := [], held;
      assert AllWritten([]) + held == held;
      NoneYet(held);
    } else {
      FrameIs(held);
      var length := Number(held[1..HEAD]);
      var f, rest := Frame(held[0], held[HEAD..HEAD + length]), held[HEAD + length..];
      var more;
      more, left := StreamIs(rest);
      frames := [f] + more;
      assert frames[1..] == more;
      Associate(Written(f), AllWritten(more), left);
      WrittenParses(f, rest);
      FirstPrepended(f, more, left);
    }
  }

  lemma {:induction false} NoneYet(held: Bytes)
    requires Unfinished(held) || Senseless(held)
    ensures Parse(held) == if Senseless(held) then None else Some(([], held))
  {
  }

  lemma {:induction false} Associate(a: Bytes, b: Bytes, c: Bytes)
    ensures a + (b + c) == (a + b) + c
  {
  }

  lemma {:induction false} FirstPrepended(f: Frame, more: seq<Frame>, left: Bytes)
    ensures Prepended([f], Some((more, left))) == Some(([f] + more, left)) && Prepended([f], None) == None
  {
  }

  /** And there is one way to read it: whatever frames come first, and whatever unfinished is left of them. */
  lemma {:induction false} StreamReads(frames: seq<Frame>, left: Bytes)
    requires Fits(frames) && (Unfinished(left) || Senseless(left))
    ensures Parse(AllWritten(frames) + left) == if Senseless(left) then None else Some((frames, left))
    decreases |frames|
  {
    if frames == [] {
      assert AllWritten(frames) + left == left;
    } else {
      var rest := AllWritten(frames[1..]) + left;
      assert AllWritten(frames) + left == Written(frames[0]) + rest;
      WrittenParses(frames[0], rest);
      StreamReads(frames[1..], left);
      assert [frames[0]] + frames[1..] == frames;
    }
  }
}
