/** The bounded newline framer (`Frames`) under both directions of the relay. */
module Frames {
  import opened Common
  import opened Mcp

  const NEWLINE: Byte := 10
  const MAX_MESSAGE_BYTES: nat := 64 * 1024 * 1024

  /** What one `receive` leaves behind: the frames it yielded, its buffer, and whether it raised. */
  datatype Scan = Scan(frames: seq<Frame>, rest: Bytes, ok: bool)

  /** Position of the first newline, or the length when there is none. */
  function LineEnd(b: Bytes): (k: nat)
    ensures k <= |b|
  {
    if b == [] then 0
    else if b[0] == NEWLINE then 0
    else 1 + LineEnd(b[1..])
  }

  /** One complete line taken from the front of the buffer. */
  datatype Next = Incomplete | Bad(rest: Bytes) | Taken(frame: Frame, rest: Bytes)

  function TakeLine(decode: Bytes -> Option<Message>, b: Bytes): (r: Next)
    ensures r.Taken? ==> |r.rest| < |b|
  {
    var k := LineEnd(b);
    if k == |b| then Incomplete
    else if k > MAX_MESSAGE_BYTES then Bad(b)
    else
      var m := decode(b[..k + 1]);
      if m.None? then Bad(b[k + 1..]) else Taken(Frame(m.value, b[..k + 1]), b[k + 1..])
  }

  /** The specification of `receive` on a whole buffer. */
  function ScanBuffer(decode: Bytes -> Option<Message>, b: Bytes): (r: Scan)
    decreases |b|
  {
    match TakeLine(decode, b)
    case Incomplete => Scan([], b, |b| <= MAX_MESSAGE_BYTES)
    case Bad(rest) => Scan([], rest, false)
    case Taken(frame, rest) =>
      var tail := ScanBuffer(decode, rest);
      Scan([frame] + tail.frames, tail.rest, tail.ok)
  }

  /** Feeding chunk after chunk; a chunk that raises ends the connection. */
  function Feed(decode: Bytes -> Option<Message>, buffer: Bytes, chunks: seq<Bytes>): (r: Scan)
    decreases |chunks|
  {
    if chunks == [] then Scan([], buffer, true)
    else
      var head := ScanBuffer(decode, buffer + chunks[0]);
      if !head.ok then head
      else
        var tail := Feed(decode, head.rest, chunks[1..]);
        Scan(head.frames + tail.frames, tail.rest, tail.ok)
  }

  function Concat(chunks: seq<Bytes>): Bytes {
    if chunks == [] then [] else chunks[0] + Concat(chunks[1..])
  }

  // ----- properties

  lemma {:induction false} LineEndIsFirstNewline(b: Bytes)
    ensures LineEnd(b) < |b| ==> b[LineEnd(b)] == NEWLINE
    ensures NEWLINE !in b[..LineEnd(b)]
    ensures LineEnd(b) == |b| <==> NEWLINE !in b
  {
    if b != [] && b[0] != NEWLINE {
      LineEndIsFirstNewline(b[1..]);
      assert b[..LineEnd(b)] == [b[0]] + b[1..][..LineEnd(b[1..])];
      assert b == [b[0]] + b[1..];
    }
  }

  lemma {:induction false} LineEndOfAppend(a: Bytes, b: Bytes)
    ensures LineEnd(a) < |a| ==> LineEnd(a + b) == LineEnd(a)
    ensures LineEnd(a) == |a| ==> LineEnd(a + b) == |a| + LineEnd(b)
  {
    if a == [] {
      assert a + b == b;
    } else {
      assert (a + b)[1..] == a[1..] + b;
      LineEndOfAppend(a[1..], b);
    }
  }

  lemma TakeLineOfAppend(decode: Bytes -> Option<Message>, a: Bytes, b: Bytes)
    requires !TakeLine(decode, a).Incomplete?
    ensures TakeLine(decode, a).Taken? ==>
              TakeLine(decode, a + b) == Taken(TakeLine(decode, a).frame, TakeLine(decode, a).rest + b)
    ensures TakeLine(decode, a).Bad? ==> TakeLine(decode, a + b).Bad?
  {
    LineEndOfAppend(a, b);
    var k := LineEnd(a);
    assert (a + b)[..k + 1] == a[..k + 1];
    assert (a + b)[k + 1..] == a[k + 1..] + b;
  }

  function Join(first: Scan, later: Scan): Scan {
    Scan(first.frames + later.frames, later.rest, later.ok)
  }

  /** More input never changes what was already decided about the bytes before it. */
  lemma {:induction false} ScanOfAppend(decode: Bytes -> Option<Message>, a: Bytes, b: Bytes)
    ensures var first := ScanBuffer(decode, a);
            if first.ok then ScanBuffer(decode, a + b) == Join(first, ScanBuffer(decode, first.rest + b))
            else !ScanBuffer(decode, a + b).ok && ScanBuffer(decode, a + b).frames == first.frames
    decreases |a|
  {
    var next := TakeLine(decode, a);
    if next.Taken? {
      TakeLineOfAppend(decode, a, b);
      ScanOfAppend(decode, next.rest, b);
      ScanOfLine(decode, a);
      ScanOfLine(decode, a + b);
      ScanOfLineJoin(next.frame, ScanBuffer(decode, next.rest), ScanBuffer(decode, ScanBuffer(decode, next.rest).rest + b));
    } else if next.Bad? {
      TakeLineOfAppend(decode, a, b);
    } else {
      LineEndOfAppend(a, b);
      if |a| > MAX_MESSAGE_BYTES {
        ScanOfLongLine(decode, a + b);
      }
    }
  }

  lemma ScanOfLine(decode: Bytes -> Option<Message>, b: Bytes)
    requires TakeLine(decode, b).Taken?
    ensures var next := TakeLine(decode, b);
            ScanBuffer(decode, b) == Join(Scan([next.frame], [], true), ScanBuffer(decode, next.rest))
  {
  }

  lemma ScanOfLineJoin(frame: Frame, tail: Scan, later: Scan)
    ensures Join(Join(Scan([frame], [], true), tail), later) == Join(Scan([frame], [], true), Join(tail, later))
  {
    assert [frame] + tail.frames + later.frames == [frame] + (tail.frames + later.frames);
  }

  lemma ScanOfLongLine(decode: Bytes -> Option<Message>, b: Bytes)
    requires LineEnd(b) > MAX_MESSAGE_BYTES
    ensures !ScanBuffer(decode, b).ok && ScanBuffer(decode, b).frames == []
  {
  }

  /** However a byte stream is cut, the same frames come out and the same verdict is reached. */
  lemma {:induction false} ChunkingIsIrrelevant(decode: Bytes -> Option<Message>, buffer: Bytes, chunks: seq<Bytes>)
    requires chunks != []
    ensures var whole, cut := ScanBuffer(decode, buffer + Concat(chunks)), Feed(decode, buffer, chunks);
            whole.frames == cut.frames && whole.ok == cut.ok && (whole.ok ==> whole.rest == cut.rest)
    decreases |chunks|
  {
    var later := Concat(chunks[1..]);
    var head := ScanBuffer(decode, buffer + chunks[0]);
    ScanOfAppend(decode, buffer + chunks[0], later);
    assert buffer + Concat(chunks) == buffer + chunks[0] + later;
    if head.ok {
      if |chunks| == 1 {
        assert head.rest + later == head.rest;
        SettledRest(decode, buffer + chunks[0]);
      } else {
        ChunkingIsIrrelevant(decode, head.rest, chunks[1..]);
      }
    }
  }

  /** What a successful `receive` keeps is one partial line no longer than the limit. */
  lemma {:induction false} SettledRest(decode: Bytes -> Option<Message>, b: Bytes)
    requires ScanBuffer(decode, b).ok
    ensures var rest := ScanBuffer(decode, b).rest;
            |rest| <= MAX_MESSAGE_BYTES && NEWLINE !in rest && ScanBuffer(decode, rest) == Scan([], rest, true)
    decreases |b|
  {
    match TakeLine(decode, b)
    case Incomplete => LineEndIsFirstNewline(b);
    case Bad(_) =>
    case Taken(_, rest) => SettledRest(decode, rest);
  }

  /** The bytes that carry a sequence of frames. */
  function Wire(frames: seq<Frame>): Bytes {
    if frames == [] then [] else frames[0].raw + Wire(frames[1..])
  }

  /** No byte is invented or dropped: the yielded lines and the remainder are the input. */
  lemma {:induction false} LinesArePreserved(decode: Bytes -> Option<Message>, b: Bytes)
    requires ScanBuffer(decode, b).ok
    ensures b == Wire(ScanBuffer(decode, b).frames) + ScanBuffer(decode, b).rest
    decreases |b|
  {
    var next := TakeLine(decode, b);
    if next.Taken? {
      LinesArePreserved(decode, next.rest);
      ScanOfLine(decode, b);
      WireOfLine(next.frame, ScanBuffer(decode, next.rest));
    }
  }

  lemma WireOfLine(frame: Frame, tail: Scan)
    ensures var joined := Join(Scan([frame], [], true), tail);
            Wire(joined.frames) + joined.rest == frame.raw + (Wire(tail.frames) + tail.rest)
  {
    assert ([frame] + tail.frames)[1..] == tail.frames;
  }

  /** A line the framer accepts: one newline, at the end, within the limit, decodable. */
  predicate Framed(decode: Bytes -> Option<Message>, f: Frame) {
    && 0 < |f.raw| <= MAX_MESSAGE_BYTES + 1
    && f.raw[|f.raw| - 1] == NEWLINE
    && NEWLINE !in f.raw[..|f.raw| - 1]
    && decode(f.raw) == Some(f.message)
  }

  lemma TakeFramedLine(decode: Bytes -> Option<Message>, f: Frame, rest: Bytes)
    requires Framed(decode, f)
    ensures TakeLine(decode, f.raw + rest) == Taken(f, rest)
  {
    var body, b := f.raw[..|f.raw| - 1], f.raw + rest;
    LineEndIsFirstNewline(body);
    assert b == body + ([NEWLINE] + rest);
    LineEndOfAppend(body, [NEWLINE] + rest);
    assert b[..|f.raw|] == f.raw && b[|f.raw|..] == rest;
  }

  /** Writing accepted lines one after another and reading them back is the identity. */
  lemma {:induction false} FramingRoundTrip(decode: Bytes -> Option<Message>, frames: seq<Frame>)
    requires forall f :: f in frames ==> Framed(decode, f)
    ensures ScanBuffer(decode, Wire(frames)) == Scan(frames, [], true)
    decreases |frames|
  {
    if frames != [] {
      FramingRoundTrip(decode, frames[1..]);
      TakeFramedLine(decode, frames[0], Wire(frames[1..]));
      ScanOfLine(decode, Wire(frames));
      assert frames == [frames[0]] + frames[1..];
    }
  }

  /** The framer itself: a buffer that `Receive` extends and consumes line by line. */
  class Framer {
    var buffer: Bytes

    constructor ()
      ensures buffer == []
    {
      buffer := [];
    }

    method Receive(decode: Bytes -> Option<Message>, data: Bytes) returns (frames: seq<Frame>, ok: bool)
      modifies this
      ensures Scan(frames, buffer, ok) == ScanBuffer(decode, old(buffer) + data)
    {
      buffer := buffer + data;
      frames, ok := [], true;
      ghost var whole := ScanBuffer(decode, buffer);
      while NEWLINE in buffer
        invariant ok
        invariant var left := ScanBuffer(decode, buffer);
                  whole == Scan(frames + left.frames, left.rest, left.ok)
        decreases |buffer|
      {
        LineEndIsFirstNewline(buffer);
        var boundary := LineEnd(buffer);
        if boundary > MAX_MESSAGE_BYTES {
          return frames, false;
        }
        var raw := buffer[..boundary + 1];
        ghost var before := buffer;
        buffer := buffer[boundary + 1..];
        var message := decode(raw);
        if message.None? {
          return frames, false;
        }
        assert TakeLine(decode, before) == Taken(Frame(message.value, raw), buffer);
        frames := frames + [Frame(message.value, raw)];
      }
      LineEndIsFirstNewline(buffer);
      ok := |buffer| <= MAX_MESSAGE_BYTES;
    }
  }
}
