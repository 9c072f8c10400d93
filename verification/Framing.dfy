/** Frames on the byte stream: their layout, the one-frame parser, and the incremental framer. */
module Framing {
  import opened Core

  const COMPRESSION_THRESHOLD := 3000
  const HEADER_SIZE := 5
  const FLUSHER: Bytes := [10]

  /** The compression library: only that decompressing undoes compressing is assumed, and only where stated. */
  datatype Codec = Codec(compress: Bytes -> Bytes, decompress: Bytes -> Option<Bytes>) {
    ghost predicate Inverse() {
      forall d :: decompress(compress(d)) == Some(d)
    }
  }

  /** The compression flag and the bytes that travel for a message. */
  function Encoded(c: Codec, compress: bool, data: Bytes): (Byte, Bytes) {
    if compress && |data| > COMPRESSION_THRESHOLD then (1, c.compress(data)) else (0, data)
  }

  predicate Sendable(c: Codec, compress: bool, data: Bytes) {
    |Encoded(c, compress, data).1| < TWO_32
  }

  ghost predicate AllSendable(c: Codec, compress: bool, msgs: seq<Bytes>) {
    forall m | m in msgs :: Sendable(c, compress, m)
  }

  function Header(flag: Byte, size: nat): Bytes
    requires size < TWO_32
  {
    Pack4(size) + [flag]
  }

  /** What is put on the stream for a message: length, flag, payload, newline; nothing when the length does not
      fit its four bytes. */
  function Frame(c: Codec, compress: bool, data: Bytes): Bytes {
    var (flag, payload) := Encoded(c, compress, data);
    if |payload| < TWO_32 then Header(flag, |payload|) + payload + FLUSHER else []
  }

  function Frames(c: Codec, compress: bool, msgs: seq<Bytes>): Bytes {
    if msgs == [] then [] else Frame(c, compress, msgs[0]) + Frames(c, compress, msgs[1..])
  }

  datatype Parsed = Incomplete | Corrupt(rest: Bytes) | Whole(data: Bytes, rest: Bytes)

  /** The frame at the front of the bytes, if all of it is there. */
  function ParseFrame(c: Codec, buf: Bytes): (p: Parsed)
    ensures !p.Incomplete? ==> |p.rest| < |buf|
  {
    if |buf| < HEADER_SIZE then Incomplete
    else
      var length := Unpack4(buf[..4]);
      var total := HEADER_SIZE + length + |FLUSHER|;
      if |buf| < total then Incomplete
      else
        var payload := buf[HEADER_SIZE..HEADER_SIZE + length];
        var data := if buf[4] != 0 then c.decompress(payload) else Some(payload);
        if data.None? then Corrupt(buf[total..]) else Whole(data.value, buf[total..])
  }

  /** The frames at the front of a buffer, up to the first incomplete or undecodable one. */
  datatype Drained = Drained(frames: seq<Bytes>, rest: Bytes, ok: bool) {
    function After(earlier: seq<Bytes>): Drained {
      this.(frames := earlier + frames)
    }

    lemma AfterTwo(x: seq<Bytes>, y: seq<Bytes>)
      ensures After([]) == this && After(y).After(x) == After(x + y)
    {
      assert [] + frames == frames && x + (y + frames) == x + y + frames;
    }
  }

  function Drain(c: Codec, buf: Bytes): Drained
    decreases |buf|
  {
    match ParseFrame(c, buf)
    case Incomplete => Drained([], buf, true)
    case Corrupt(rest) => Drained([], rest, false)
    case Whole(data, rest) =>
      Drain(c, rest).After([data])
  }

  /** Every decodable frame of a stream, undecodable ones skipped. */
  function Salvage(c: Codec, buf: Bytes): seq<Bytes>
    decreases |buf|
  {
    match ParseFrame(c, buf)
    case Incomplete => []
    case Corrupt(rest) => Salvage(c, rest)
    case Whole(data, rest) => [data] + Salvage(c, rest)
  }

  /** What one call per chunk delivers, starting from a buffer: a call that raises delivers nothing. */
  datatype Fed = Fed(frames: seq<Bytes>, rest: Bytes)

  function Feed(c: Codec, buf: Bytes, chunks: seq<Bytes>): Fed
    decreases |chunks|
  {
    if chunks == [] then Fed([], buf)
    else
      var d := Drain(c, buf + chunks[0]);
      var more := Feed(c, d.rest, chunks[1..]);
      more.(frames := (if d.ok then d.frames else []) + more.frames)
  }

  // ---- one frame ----

  /** What stands where in a frame: the length of the payload, the flag, the payload, the newline. A message is
      compressed exactly when the sender compresses and it is longer than the threshold. */
  lemma FrameLayout(c: Codec, compress: bool, data: Bytes)
    requires Sendable(c, compress, data)
    ensures var frame := Frame(c, compress, data);
            && |frame| >= 6 && Unpack4(frame[..4]) == |frame| - 6 && frame[|frame| - 1] == 10
            && (if compress && |data| > 3000 then frame[4] == 1 && frame[5..|frame| - 1] == c.compress(data)
                else frame[4] == 0 && frame[5..|frame| - 1] == data)
  {
    var (flag, payload) := Encoded(c, compress, data);
    var frame := Frame(c, compress, data);
    assert frame[..4] == Pack4(|payload|);
    UnpackPack4(|payload|);
    assert frame[5..|frame| - 1] == payload;
  }

  /** Any bytes laid out as a frame, with any flag and any last byte, are taken off the front; with a flag other than
      zero the payload is decompressed, and the frame undecodable if it can not be. */
  lemma ParseAnyFrame(c: Codec, flag: Byte, payload: Bytes, last: Byte, after: Bytes)
    requires |payload| < TWO_32
    ensures var parsed := ParseFrame(c, Header(flag, |payload|) + payload + [last] + after);
            if flag == 0 then parsed == Whole(payload, after)
            else match c.decompress(payload)
              case None => parsed == Corrupt(after)
              case Some(data) => parsed == Whole(data, after)
  {
    var buf := Header(flag, |payload|) + payload + [last] + after;
    assert buf[..4] == Pack4(|payload|);
    UnpackPack4(|payload|);
    assert buf[HEADER_SIZE..HEADER_SIZE + |payload|] == payload;
    assert buf[HEADER_SIZE + |payload| + 1..] == after;
  }

  /** And with one byte less nothing is. */
  lemma ParsePartOfFrame(c: Codec, flag: Byte, payload: Bytes, last: Byte, n: nat)
    requires |payload| < TWO_32 && n < |payload| + 6
    ensures ParseFrame(c, (Header(flag, |payload|) + payload + [last])[..n]).Incomplete?
  {
    var frame := Header(flag, |payload|) + payload + [last];
    if n >= HEADER_SIZE {
      assert frame[..n][..4] == Pack4(|payload|);
      UnpackPack4(|payload|);
    }
  }

  lemma ParseOfFrame(c: Codec, compress: bool, data: Bytes, after: Bytes)
    requires c.Inverse() && Sendable(c, compress, data)
    ensures ParseFrame(c, Frame(c, compress, data) + after) == Whole(data, after)
  {
    var (flag, payload) := Encoded(c, compress, data);
    var buf := Frame(c, compress, data) + after;
    assert buf[..4] == Pack4(|payload|);
    UnpackPack4(|payload|);
    assert buf[HEADER_SIZE..HEADER_SIZE + |payload|] == payload;
    assert buf[HEADER_SIZE + |payload| + 1..] == after;
  }

  /** A complete frame is read the same way whatever follows it. */
  lemma ParseExtends(c: Codec, buf: Bytes, more: Bytes)
    requires !ParseFrame(c, buf).Incomplete?
    ensures ParseFrame(c, buf + more) == match ParseFrame(c, buf)
                                         case Whole(data, rest) => Whole(data, rest + more)
                                         case Corrupt(rest) => Corrupt(rest + more)
  {
    var length := Unpack4(buf[..4]);
    var total := HEADER_SIZE + length + 1;
    assert (buf + more)[..4] == buf[..4];
    assert (buf + more)[HEADER_SIZE..HEADER_SIZE + length] == buf[HEADER_SIZE..HEADER_SIZE + length];
    assert (buf + more)[total..] == buf[total..] + more;
  }

  // ---- the framer ----

  /** Draining what was sent gives back the messages, and keeps an incomplete frame behind them untouched. */
  lemma {:induction false} DrainOfFrames(c: Codec, compress: bool, msgs: seq<Bytes>, tail: Bytes)
    requires c.Inverse() && AllSendable(c, compress, msgs)
    requires ParseFrame(c, tail).Incomplete?
    ensures Drain(c, Frames(c, compress, msgs) + tail) == Drained(msgs, tail, true)
  {
    if msgs == [] {
      assert Frames(c, compress, msgs) + tail == tail;
    } else {
      var after := Frames(c, compress, msgs[1..]) + tail;
      Regroup(Frame(c, compress, msgs[0]), Frames(c, compress, msgs[1..]), tail);
      ParseOfFrame(c, compress, msgs[0], after);
      DrainOfFrames(c, compress, msgs[1..], tail);
      assert [msgs[0]] + msgs[1..] == msgs;
    }
  }

  /** Draining in two goes is draining once. */
  lemma {:induction false} DrainSplit(c: Codec, a: Bytes, b: Bytes)
    requires Drain(c, a).ok
    ensures Drain(c, a + b) == Drain(c, Drain(c, a).rest + b).After(Drain(c, a).frames)
    decreases |a|
  {
    var p := ParseFrame(c, a);
    var last := Drain(c, Drain(c, a).rest + b);
    if p.Whole? {
      ParseExtends(c, a, b);
      DrainSplit(c, p.rest, b);
      last.AfterTwo([p.data], Drain(c, p.rest).frames);
    } else {
      last.AfterTwo([], []);
    }
  }

  lemma {:induction false} DrainPrefixOk(c: Codec, a: Bytes, b: Bytes)
    requires Drain(c, a + b).ok
    ensures Drain(c, a).ok
    decreases |a|
  {
    if !ParseFrame(c, a).Incomplete? {
      ParseExtends(c, a, b);
      DrainPrefixOk(c, ParseFrame(c, a).rest, b);
    }
  }

  /** For a stream without undecodable frames, however it is cut into chunks the framer delivers the frames of
      the one-shot parser in order, and ends with exactly the incomplete suffix in its buffer. */
  lemma {:induction false} ChunkingIndependent(c: Codec, buf: Bytes, chunks: seq<Bytes>)
    requires Drain(c, buf + Join(chunks)).ok && ParseFrame(c, buf).Incomplete?
    ensures var d := Drain(c, buf + Join(chunks));
            Feed(c, buf, chunks) == Fed(d.frames, d.rest) && ParseFrame(c, d.rest).Incomplete?
    decreases |chunks|
  {
    if chunks == [] {
      assert buf + Join(chunks) == buf;
    } else {
      var now, later := buf + chunks[0], Join(chunks[1..]);
      assert buf + Join(chunks) == now + later;
      DrainPrefixOk(c, now, later);
      DrainSplit(c, now, later);
      RestIncomplete(c, now);
      ChunkingIndependent(c, Drain(c, now).rest, chunks[1..]);
    }
  }

  lemma {:induction false} RestIncomplete(c: Codec, buf: Bytes)
    requires Drain(c, buf).ok
    ensures ParseFrame(c, Drain(c, buf).rest).Incomplete?
    decreases |buf|
  {
    if ParseFrame(c, buf).Whole? {
      RestIncomplete(c, ParseFrame(c, buf).rest);
    }
  }

  // ---- undecodable frames ----

  lemma {:induction false} SalvageSplit(c: Codec, a: Bytes, b: Bytes)
    requires Salvage(c, a + b) == []
    ensures Drain(c, a).frames == [] && Salvage(c, Drain(c, a).rest + b) == []
    decreases |a|
  {
    if !ParseFrame(c, a).Incomplete? {
      ParseExtends(c, a, b);
    }
  }

  lemma {:induction false} NothingToDeliver(c: Codec, buf: Bytes, chunks: seq<Bytes>)
    requires Salvage(c, buf + Join(chunks)) == []
    ensures Feed(c, buf, chunks).frames == []
    decreases |chunks|
  {
    if chunks != [] {
      assert buf + Join(chunks) == (buf + chunks[0]) + Join(chunks[1..]);
      SalvageSplit(c, buf + chunks[0], Join(chunks[1..]));
      NothingToDeliver(c, Drain(c, buf + chunks[0]).rest, chunks[1..]);
    }
  }

  /** The chunking that ends every chunk where a frame ends. */
  function FrameByFrame(c: Codec, s: Bytes): seq<Bytes>
    decreases |s|
  {
    var p := ParseFrame(c, s);
    if p.Incomplete? then [s] else [s[..|s| - |p.rest|]] + FrameByFrame(c, p.rest)
  }

  /** A frame parsed off the front of a stream parses by itself too. */
  lemma FirstFrameAlone(c: Codec, s: Bytes)
    requires !ParseFrame(c, s).Incomplete?
    ensures var p := ParseFrame(c, s);
            |p.rest| < |s| && s == s[..|s| - |p.rest|] + p.rest &&
            ParseFrame(c, s[..|s| - |p.rest|]) == if p.Whole? then Whole(p.data, []) else Corrupt([])
  {
    var p := ParseFrame(c, s);
    var length := Unpack4(s[..4]);
    var head := s[..|s| - |p.rest|];
    assert head[..4] == s[..4];
    assert head[HEADER_SIZE..HEADER_SIZE + length] == s[HEADER_SIZE..HEADER_SIZE + length];
  }

  lemma {:induction false} JoinFrameByFrame(c: Codec, s: Bytes)
    ensures Join(FrameByFrame(c, s)) == s
    decreases |s|
  {
    var p := ParseFrame(c, s);
    if p.Incomplete? {
      assert Join([s]) == s + Join([]);
    } else {
      FirstFrameAlone(c, s);
      var chunks := FrameByFrame(c, s);
      assert chunks[0] == s[..|s| - |p.rest|] && chunks[1..] == FrameByFrame(c, p.rest);
      JoinFrameByFrame(c, p.rest);
    }
  }

  /** A chunk that is one frame delivers that frame, or nothing when it is undecodable. */
  lemma FeedFrame(c: Codec, chunk: Bytes, chunks: seq<Bytes>)
    requires !ParseFrame(c, chunk).Incomplete? && ParseFrame(c, chunk).rest == []
    ensures var p := ParseFrame(c, chunk);
            Feed(c, [], [chunk] + chunks).frames == (if p.Whole? then [p.data] else []) + Feed(c, [], chunks).frames
  {
    var all := [chunk] + chunks;
    assert all[0] == chunk && all[1..] == chunks && [] + chunk == chunk;
    assert Drain(c, []) == Drained([], [], true);
  }

  lemma {:induction false} FrameByFrameDelivers(c: Codec, s: Bytes)
    ensures Feed(c, [], FrameByFrame(c, s)).frames == Salvage(c, s)
    decreases |s|
  {
    var p := ParseFrame(c, s);
    if p.Incomplete? {
      assert [] + s == s;
    } else {
      FirstFrameAlone(c, s);
      FeedFrame(c, s[..|s| - |p.rest|], FrameByFrame(c, p.rest));
      FrameByFrameDelivers(c, p.rest);
    }
  }

  /** Every chunking of the stream delivers what the single chunk delivers. */
  ghost predicate DeliveryIndependent(c: Codec, s: Bytes) {
    forall chunks | Join(chunks) == s :: Feed(c, [], chunks).frames == Feed(c, [], [s]).frames
  }

  lemma FeedWhole(c: Codec, s: Bytes)
    ensures Feed(c, [], [s]).frames == (if Drain(c, s).ok then Drain(c, s).frames else []) && Join([s]) == s
  {
    assert [] + s == s && Join([s]) == s + Join([]);
  }

  /** Delivery depends on the chunking exactly when a stream mixes an undecodable frame with a decodable one:
      the call that meets the undecodable frame raises, and loses the frames it had already carved out. */
  lemma IndependentIff(c: Codec, s: Bytes)
    ensures DeliveryIndependent(c, s) <==> Drain(c, s).ok || Salvage(c, s) == []
  {
    FeedWhole(c, s);
    if Drain(c, s).ok || Salvage(c, s) == [] {
      forall chunks | Join(chunks) == s
        ensures Feed(c, [], chunks).frames == Feed(c, [], [s]).frames
      {
        assert [] + Join(chunks) == s;
        if Drain(c, s).ok {
          ChunkingIndependent(c, [], chunks);
        } else {
          NothingToDeliver(c, [], chunks);
        }
      }
    } else {
      FrameByFrameDelivers(c, s);
      JoinFrameByFrame(c, s);
    }
  }
}
