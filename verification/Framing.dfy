/** Length-prefixed frames over a byte stream that arrives in arbitrary pieces. */
module Framing {

  newtype Octet = x: int | 0 <= x < 256

  const MAX_FRAME_SIZE: nat := 16 * 1024 * 1024

  datatype Framed = TooLarge | Frame(bytes: seq<Octet>)

  /** Four bytes, most significant first. */
  function Big(n: nat): (r: seq<Octet>)
    requires n < 0x1_0000_0000
    ensures |r| == 4
  {
    [(n / 0x100_0000) as Octet, (n / 0x1_0000 % 0x100) as Octet, (n / 0x100 % 0x100) as Octet, (n % 0x100) as Octet]
  }

  function Size(s: seq<Octet>): nat
    requires |s| >= 4
  {
    s[0] as nat * 0x100_0000 + s[1] as nat * 0x1_0000 + s[2] as nat * 0x100 + s[3] as nat
  }

  function Wrap(payload: seq<Octet>): Framed {
    if |payload| > MAX_FRAME_SIZE then TooLarge else Frame(Big(|payload|) + payload)
  }

  lemma SizeOfBig(n: nat)
    requires n < 0x1_0000_0000
    ensures Size(Big(n)) == n
  {
    var high := n / 0x1_0000;
    assert n / 0x100_0000 == high / 0x100 && n / 0x1_0000 % 0x100 == high % 0x100;
    var low := n % 0x1_0000;
    assert n / 0x100 % 0x100 == low / 0x100 && n % 0x100 == low % 0x100;
  }

  // ----- what a stream means ----------------------------------------------------

  /** The complete frames of a stream, what is left, and whether an oversized frame stopped it. */
  datatype Parsed = Parsed(frames: seq<seq<Octet>>, rest: seq<Octet>, oversized: bool)

  function Parse(s: seq<Octet>): Parsed {
    if |s| < 4 then Parsed([], s, false)
    else if Size(s) > MAX_FRAME_SIZE then Parsed([], s, true)
    else if |s| < 4 + Size(s) then Parsed([], s, false)
    else
      var more := Parse(s[4 + Size(s)..]);
      Parsed([s[4..4 + Size(s)]] + more.frames, more.rest, more.oversized)
  }

  lemma ParseFirst(s: seq<Octet>)
    requires |s| >= 4 && Size(s) <= MAX_FRAME_SIZE && |s| >= 4 + Size(s)
    ensures var more := Parse(s[4..][Size(s)..]);
            Parse(s) == Parsed([s[4..][..Size(s)]] + more.frames, more.rest, more.oversized)
  {
    assert s[4..][Size(s)..] == s[4 + Size(s)..] && s[4..][..Size(s)] == s[4..4 + Size(s)];
  }

  lemma ParseStops(s: seq<Octet>)
    ensures |s| < 4 ==> Parse(s) == Parsed([], s, false)
    ensures |s| >= 4 && Size(s) > MAX_FRAME_SIZE ==> Parse(s) == Parsed([], s, true)
    ensures |s| >= 4 && Size(s) <= MAX_FRAME_SIZE && |s| < 4 + Size(s) ==> Parse(s) == Parsed([], s, false)
  {}

  /** The frames of these payloads, one after the other. */
  function Stream(payloads: seq<seq<Octet>>): seq<Octet>
    requires forall i :: 0 <= i < |payloads| ==> |payloads[i]| <= MAX_FRAME_SIZE
  {
    if payloads == [] then [] else Wrap(payloads[0]).bytes + Stream(payloads[1..])
  }

  lemma ParseOne(payload: seq<Octet>, s: seq<Octet>)
    requires |payload| <= MAX_FRAME_SIZE
    ensures Parse(Wrap(payload).bytes + s) == Parsed([payload] + Parse(s).frames, Parse(s).rest, Parse(s).oversized)
  {
    var all := Wrap(payload).bytes + s;
    SizeOfBig(|payload|);
    assert Size(all) == Size(Big(|payload|));
    assert all[4..4 + |payload|] == payload && all[4 + |payload|..] == s;
  }

  /** Round trip: a stream of frames parses into exactly its payloads, in order. */
  lemma {:induction false} ParseStream(payloads: seq<seq<Octet>>)
    requires forall i :: 0 <= i < |payloads| ==> |payloads[i]| <= MAX_FRAME_SIZE
    ensures Parse(Stream(payloads)) == Parsed(payloads, [], false)
  {
    if payloads != [] {
      ParseOne(payloads[0], Stream(payloads[1..]));
      ParseStream(payloads[1..]);
      assert payloads == [payloads[0]] + payloads[1..];
    }
  }

  /** Parsing can stop anywhere and go on with what was left. */
  lemma {:induction false} ParseOn(a: seq<Octet>, b: seq<Octet>)
    ensures var p := Parse(a); var r := Parse(p.rest + b);
            Parse(a + b) == Parsed(p.frames + r.frames, r.rest, r.oversized)
    decreases |a|
  {
    if |a| < 4 || Size(a) > MAX_FRAME_SIZE || |a| < 4 + Size(a) {
      assert Parse(a).rest == a && Parse(a).frames == [];
      assert Parsed([] + Parse(a + b).frames, Parse(a + b).rest, Parse(a + b).oversized) == Parse(a + b);
    } else {
      var n := Size(a);
      var first, later := a[4..4 + n], a[4 + n..];
      assert Size(a + b) == n && (a + b)[4..4 + n] == first && (a + b)[4 + n..] == later + b;
      ParseOn(later, b);
      var r := Parse(Parse(later).rest + b);
      assert [first] + (Parse(later).frames + r.frames) == ([first] + Parse(later).frames) + r.frames;
    }
  }

  // ----- one connection ---------------------------------------------------------

  class Connection {
    var buffer: seq<Octet>
    var frames: seq<seq<Octet>>   // handed to HandleRpc so far
    var shut: bool

    constructor ()
      ensures buffer == [] && frames == [] && !shut
    {
      buffer, frames, shut := [], [], false;
    }

    /** HandleMessage on the arrival of some bytes. */
    method HandleMessage(bytes: seq<Octet>)
      modifies this
      ensures frames == old(frames) + Parse(old(buffer) + bytes).frames
      ensures buffer == Parse(old(buffer) + bytes).rest
      ensures shut <==> old(shut) || Parse(old(buffer) + bytes).oversized
    {
      hide Parse, Size;
      buffer := buffer + bytes;
      ghost var all := buffer;
      while |buffer| >= 4
        invariant shut == old(shut)
        invariant frames + Parse(buffer).frames == old(frames) + Parse(all).frames
        invariant Parse(buffer).rest == Parse(all).rest && Parse(buffer).oversized == Parse(all).oversized
        decreases |buffer|
      {
        var size := Size(buffer);
        ParseStops(buffer);
        if size > MAX_FRAME_SIZE {
          shut := true;
          return;
        }
        if |buffer| < 4 + size {
          return;
        }
        ParseFirst(buffer);
        buffer := buffer[4..];
        var frame := buffer[..size];
        buffer := buffer[size..];
        frames := frames + [frame];
      }
      ParseStops(buffer);
    }
  }

  // ----- any split --------------------------------------------------------------

  function Joined(pieces: seq<seq<Octet>>): seq<Octet> {
    if pieces == [] then [] else Joined(pieces[..|pieces| - 1]) + pieces[|pieces| - 1]
  }

  /** Frames, buffer and refusal of a connection after these arrivals, as HandleMessage
      leaves them one after the other. */
  function Arrived(pieces: seq<seq<Octet>>): Parsed {
    if pieces == [] then Parsed([], [], false)
    else
      var before := Arrived(pieces[..|pieces| - 1]);
      var p := Parse(before.rest + pieces[|pieces| - 1]);
      Parsed(before.frames + p.frames, p.rest, before.oversized || p.oversized)
  }

  lemma {:induction false} OversizedStays(a: seq<Octet>, b: seq<Octet>)
    requires Parse(a).oversized
    ensures Parse(a + b).oversized
    decreases |a|
  {
    if Size(a) > MAX_FRAME_SIZE {
      assert Size(a + b) == Size(a);
    } else {
      var n := Size(a);
      assert (a + b)[4 + n..] == a[4 + n..] + b;
      OversizedStays(a[4 + n..], b);
    }
  }

  /** However the stream is cut, the connection ends as if it had come in one piece. */
  lemma {:induction false} AnySplit(pieces: seq<seq<Octet>>)
    ensures Arrived(pieces) == Parse(Joined(pieces))
  {
    if pieces != [] {
      var down, last := pieces[..|pieces| - 1], pieces[|pieces| - 1];
      AnySplit(down);
      ParseOn(Joined(down), last);
      if Parse(Joined(down)).oversized { OversizedStays(Joined(down), last); }
    }
  }

  /** Stream framing round trip: any payloads, any cut of their frames, exactly those
      payloads in order, nothing left over and no shutdown. */
  lemma FramesArrive(payloads: seq<seq<Octet>>, pieces: seq<seq<Octet>>)
    requires forall i :: 0 <= i < |payloads| ==> |payloads[i]| <= MAX_FRAME_SIZE
    requires Joined(pieces) == Stream(payloads)
    ensures Arrived(pieces) == Parsed(payloads, [], false)
  {
    AnySplit(pieces);
    ParseStream(payloads);
  }

  /** Before the end of the stream, only whole payloads have come out, in order. */
  lemma FramesInOrder(payloads: seq<seq<Octet>>, pieces: seq<seq<Octet>>)
    requires forall i :: 0 <= i < |payloads| ==> |payloads[i]| <= MAX_FRAME_SIZE
    requires Joined(pieces) <= Stream(payloads)
    ensures Arrived(pieces).frames <= payloads && !Arrived(pieces).oversized
  {
    var come := Joined(pieces);
    var due := Stream(payloads)[|come|..];
    assert come + due == Stream(payloads);
    AnySplit(pieces);
    ParseStream(payloads);
    ParseOn(come, due);
    if Parse(come).oversized { OversizedStays(come, due); }
  }

  /** A length field above the limit is refused, whatever follows. */
  lemma OversizedRefused(payloads: seq<seq<Octet>>, header: seq<Octet>, pieces: seq<seq<Octet>>)
    requires forall i :: 0 <= i < |payloads| ==> |payloads[i]| <= MAX_FRAME_SIZE
    requires |header| >= 4 && Size(header) > MAX_FRAME_SIZE && Joined(pieces) == Stream(payloads) + header
    ensures Arrived(pieces) == Parsed(payloads, header, true)
  {
    AnySplit(pieces);
    ParseStream(payloads);
    ParseOn(Stream(payloads), header);
    assert [] + header == header && payloads + [] == payloads;
  }
}
