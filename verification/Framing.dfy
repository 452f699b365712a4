/** Bounded newline framing over a reader that hands out arbitrary chunks. */
module Framing {

  type byte = b: int | 0 <= b < 256

  const NEWLINE: byte := 10

  datatype Frame = Closed | Data(bytes: seq<byte>) | TooLarge | IoError

  function Concat(chunks: seq<seq<byte>>): seq<byte> {
    if chunks == [] then [] else chunks[0] + Concat(chunks[1..])
  }

  /** Position of the first newline, or the length when there is none. */
  function LineEnd(stream: seq<byte>): (n: nat)
    ensures n <= |stream|
    ensures forall k :: 0 <= k < n ==> stream[k] != NEWLINE
    ensures n < |stream| ==> stream[n] == NEWLINE
  {
    if stream == [] || stream[0] == NEWLINE then 0 else 1 + LineEnd(stream[1..])
  }

  /** What one read gives, from the bytes alone: the stream up to and including its
      first newline, refused when more than `max` bytes come before that. */
  function FirstFrame(stream: seq<byte>, broken: bool, max: nat): Frame {
    var n := LineEnd(stream);
    if n > max then TooLarge
    else if n < |stream| then Data(stream[..n + 1])
    else if broken then IoError
    else if stream == [] then Closed
    else Data(stream)
  }

  /** A buffered reader: chunks still to come, then end of file or an I/O error. */
  class Reader {
    var chunks: seq<seq<byte>>
    const broken: bool

    ghost predicate Valid()
      reads this
    {
      forall i :: 0 <= i < |chunks| ==> chunks[i] != []
    }

    ghost function Remaining(): seq<byte>
      reads this
    {
      Concat(chunks)
    }

    constructor (chunks: seq<seq<byte>>, broken: bool)
      requires forall i :: 0 <= i < |chunks| ==> chunks[i] != []
      ensures Valid() && Remaining() == Concat(chunks) && this.broken == broken
    {
      this.chunks, this.broken := chunks, broken;
    }

    /** The buffered bytes, empty only at the end; `ok` is false on an I/O error. */
    method FillBuf() returns (available: seq<byte>, ok: bool)
      requires Valid()
      ensures available <= Remaining()
      ensures available == [] <==> Remaining() == []
      ensures ok == !(available == [] && broken)
      ensures available == if chunks == [] then [] else chunks[0]
    {
      available := if chunks == [] then [] else chunks[0];
      ok := !(available == [] && broken);
    }

    method Consume(n: nat)
      requires Valid() && chunks != [] && n <= |chunks[0]|
      modifies this
      ensures Valid() && Remaining() == old(Remaining())[n..]
    {
      var rest := chunks[1..];
      assert Remaining() == chunks[0] + Concat(rest);
      if n == |chunks[0]| {
        chunks := rest;
      } else {
        chunks := [chunks[0][n..]] + rest;
        assert chunks[1..] == rest;
      }
    }

    /** Reads one frame. The frame depends on the bytes to come and not on how they
        are cut into chunks; after `Data` exactly the frame has been consumed, and
        at no time are more than `max + 1` bytes buffered. */
    method ReadBoundedLine(max: nat) returns (result: Frame, ghost taken: seq<byte>)
      requires Valid()
      modifies this
      ensures Valid()
      ensures result == FirstFrame(old(Remaining()), broken, max)
      ensures old(Remaining()) == taken + Remaining()
      ensures |taken| <= max + 1 && (if result.Data? then taken == result.bytes else NEWLINE !in taken)
    {
      var frame: seq<byte> := [];
      ghost var stream := Remaining();
      while true
        invariant Valid() && stream == frame + Remaining()
        invariant NEWLINE !in frame && |frame| <= max
        decreases |Remaining()|
      {
        ghost var rest := Remaining();
        var available, ok := FillBuf();
        if available == [] {
          assert stream == frame;
          AtEndOfStream(frame, broken, max);
          return if !ok then IoError else if frame == [] then Closed else Data(frame), frame;
        }
        var payload := LineEnd(available);
        InChunk(frame, rest, available, broken, max);
        if |frame| + payload > max {
          return TooLarge, frame;
        }
        var consumed := if payload < |available| then payload + 1 else |available|;
        Consume(consumed);
        Moved(stream, frame, available, rest, consumed);
        frame := frame + available[..consumed];
        if payload < |available| {
          return Data(frame), frame;
        }
      }
    }
  }

  lemma AtEndOfStream(frame: seq<byte>, broken: bool, max: nat)
    requires NEWLINE !in frame && |frame| <= max
    ensures FirstFrame(frame, broken, max) == if broken then IoError else if frame == [] then Closed else Data(frame)
  {
  }

  lemma InChunk(frame: seq<byte>, rest: seq<byte>, available: seq<byte>, broken: bool, max: nat)
    requires NEWLINE !in frame && |frame| <= max && available != [] && available <= rest
    ensures var payload := LineEnd(available);
            && (|frame| + payload > max ==> FirstFrame(frame + rest, broken, max) == TooLarge)
            && (|frame| + payload <= max && payload < |available| ==>
                  FirstFrame(frame + rest, broken, max) == Data(frame + available[..payload + 1]))
            && (payload == |available| ==> NEWLINE !in available)
  {
    var payload := LineEnd(available);
    LineEndAfter(frame, rest);
    LineEndWithin(available, rest);
    if payload < |available| { CutAfter(frame, rest, available, payload + 1); }
  }

  lemma CutAfter(frame: seq<byte>, rest: seq<byte>, available: seq<byte>, n: nat)
    requires available <= rest && n <= |available|
    ensures (frame + rest)[..|frame| + n] == frame + available[..n]
  {
  }

  lemma Moved(stream: seq<byte>, frame: seq<byte>, available: seq<byte>, rest: seq<byte>, n: nat)
    requires stream == frame + rest && available <= rest && n <= |available|
    ensures stream == (frame + available[..n]) + rest[n..]
    ensures frame + available[..n] == stream[..|frame| + n]
  {
  }

  lemma {:induction false} LineEndAfter(head: seq<byte>, tail: seq<byte>)
    requires NEWLINE !in head
    ensures LineEnd(head + tail) == |head| + LineEnd(tail)
  {
    if head == [] {
      assert head + tail == tail;
    } else {
      LineEndAfter(head[1..], tail);
      assert (head + tail)[1..] == head[1..] + tail;
    }
  }

  /** A prefix of the stream shows its first newline or shows that it comes later. */
  lemma {:induction false} LineEndWithin(prefix: seq<byte>, stream: seq<byte>)
    requires prefix <= stream
    ensures LineEnd(prefix) <= LineEnd(stream)
    ensures LineEnd(prefix) < |prefix| ==> LineEnd(prefix) == LineEnd(stream)
  {
    if prefix != [] && prefix[0] != NEWLINE {
      LineEndWithin(prefix[1..], stream[1..]);
    }
  }

  /* ---- Whole streams ---- */

  datatype Frames = Frames(data: seq<seq<byte>>, last: Frame, rest: seq<byte>)

  /** Frames read one after the other until one is not `Data`. */
  function ReadAll(stream: seq<byte>, broken: bool, max: nat): Frames
    decreases |stream|
  {
    var frame := FirstFrame(stream, broken, max);
    if frame.Data? && frame.bytes != [] && |frame.bytes| <= |stream| then
      var later := ReadAll(stream[|frame.bytes|..], broken, max);
      later.(data := [frame.bytes] + later.data)
    else Frames([], frame, stream)
  }

  /** Each frame is one whole line, except that the last may lack its newline. */
  ghost predicate IsLine(frame: seq<byte>, max: nat) {
    frame != [] && LineEnd(frame) >= |frame| - 1 && LineEnd(frame) <= max
  }

  ghost predicate Stops(all: Frames, broken: bool, max: nat) {
    && !all.last.Data?
    && (all.last == TooLarge <==> LineEnd(all.rest) > max)
    && (all.last == Closed ==> all.rest == [] && !broken)
    && (all.last == IoError ==> LineEnd(all.rest) == |all.rest| && broken)
  }

  lemma DataIsLine(stream: seq<byte>, broken: bool, max: nat)
    requires FirstFrame(stream, broken, max).Data?
    ensures var frame := FirstFrame(stream, broken, max).bytes;
            frame <= stream && IsLine(frame, max)
  {
    LineEndWithin(FirstFrame(stream, broken, max).bytes, stream);
  }

  /** The frames concatenate back to what was consumed, each is a single line within
      the limit, and reading stops for one of the three reasons only. */
  lemma {:induction false} FramesCoverStream(stream: seq<byte>, broken: bool, max: nat)
    ensures var all := ReadAll(stream, broken, max);
            && Concat(all.data) + all.rest == stream
            && (forall frame | frame in all.data :: IsLine(frame, max))
            && Stops(all, broken, max)
    decreases |stream|
  {
    var first := FirstFrame(stream, broken, max);
    if first.Data? {
      DataIsLine(stream, broken, max);
      var frame := first.bytes;
      FramesCoverStream(stream[|frame|..], broken, max);
      var later := ReadAll(stream[|frame|..], broken, max);
      ConcatFirst(frame, later.data, later.rest);
      assert stream == frame + stream[|frame|..];
    }
  }

  lemma ConcatFirst(frame: seq<byte>, data: seq<seq<byte>>, rest: seq<byte>)
    ensures Concat([frame] + data) + rest == frame + (Concat(data) + rest)
  {
    assert ([frame] + data)[1..] == data;
  }

  function Encode(payloads: seq<seq<byte>>): seq<byte> {
    if payloads == [] then [] else payloads[0] + [NEWLINE] + Encode(payloads[1..])
  }

  function Terminated(payloads: seq<seq<byte>>): (r: seq<seq<byte>>)
    ensures |r| == |payloads| && forall i :: 0 <= i < |r| ==> r[i] == payloads[i] + [NEWLINE]
  {
    seq(|payloads|, i requires 0 <= i < |payloads| => payloads[i] + [NEWLINE])
  }

  lemma FirstOfEncoded(p: seq<byte>, rest: seq<byte>, max: nat)
    requires NEWLINE !in p && |p| <= max
    ensures FirstFrame(p + [NEWLINE] + rest, false, max) == Data(p + [NEWLINE])
    ensures (p + [NEWLINE] + rest)[|p| + 1..] == rest
  {
    var stream := p + [NEWLINE] + rest;
    assert stream == p + ([NEWLINE] + rest);
    LineEndAfter(p, [NEWLINE] + rest);
    assert stream[..|p| + 1] == p + [NEWLINE];
  }

  lemma ReadOn(frame: seq<byte>, rest: seq<byte>, stream: seq<byte>, broken: bool, max: nat)
    requires FirstFrame(stream, broken, max) == Data(frame) && frame != []
    requires |frame| <= |stream| && stream[|frame|..] == rest
    ensures var later := ReadAll(rest, broken, max);
            ReadAll(stream, broken, max) == Frames([frame] + later.data, later.last, later.rest)
  {
  }

  /** Round trip: what a peer writes line by line is read back line by line. */
  lemma {:induction false} WrittenLinesAreReadBack(payloads: seq<seq<byte>>, max: nat)
    requires forall p | p in payloads :: NEWLINE !in p && |p| <= max
    ensures ReadAll(Encode(payloads), false, max) == Frames(Terminated(payloads), Closed, [])
  {
    if payloads != [] {
      var p, rest := payloads[0], Encode(payloads[1..]);
      WrittenLinesAreReadBack(payloads[1..], max);
      ReadFirst(p, rest, max);
      TerminatedFirst(payloads);
    }
  }

  lemma ReadFirst(p: seq<byte>, rest: seq<byte>, max: nat)
    requires NEWLINE !in p && |p| <= max
    ensures var later := ReadAll(rest, false, max);
            ReadAll(p + [NEWLINE] + rest, false, max) == Frames([p + [NEWLINE]] + later.data, later.last, later.rest)
  {
    FirstOfEncoded(p, rest, max);
    ReadOn(p + [NEWLINE], rest, p + [NEWLINE] + rest, false, max);
  }

  lemma TerminatedFirst(payloads: seq<seq<byte>>)
    requires payloads != []
    ensures Terminated(payloads) == [payloads[0] + [NEWLINE]] + Terminated(payloads[1..])
  {
  }
}
