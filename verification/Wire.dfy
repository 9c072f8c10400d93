/** The blocking channel over a socket that may send and receive partially, and the in-memory framer. */
module Wire {
  import opened Core
  import opened Framing

  const MAX_IO_CHUNK := 64000

  datatype Received = Data(buf: Bytes) | Interrupted | Failed

  /** A connected socket: what the peer has sent and not yet been read, and what was sent to the peer. A call is
      interrupted at most `interruptions` more times; a faulty socket may raise a hard error at any call. */
  class Socket {
    var inbound: Bytes
    var outbound: Bytes
    var interruptions: nat
    const faulty: bool

    constructor (inbound: Bytes, interruptions: nat, faulty: bool)
      ensures this.inbound == inbound && outbound == [] && this.faulty == faulty
    {
      this.inbound, this.outbound := inbound, [];
      this.interruptions, this.faulty := interruptions, faulty;
    }

    /** Accepts some non-empty prefix of the data, or raises. */
    method Send(data: Bytes) returns (count: Option<nat>)
      requires data != []
      modifies this`outbound
      ensures count.None? ==> faulty && outbound == old(outbound)
      ensures count.Some? ==> 1 <= count.value <= |data| && outbound == old(outbound) + data[..count.value]
    {
      var fails: bool := *;
      if faulty && fails {
        return None;
      }
      var n :| 1 <= n <= |data|;
      outbound := outbound + data[..n];
      count := Some(n);
    }

    /** Yields some non-empty prefix of what has arrived, or nothing when the peer has closed. */
    method Recv(limit: nat) returns (r: Received)
      requires limit > 0
      modifies this`inbound, this`interruptions
      ensures r.Data? ==> |r.buf| <= limit && r.buf + inbound == old(inbound) && interruptions == old(interruptions)
      ensures r.Data? ==> (r.buf == [] <==> old(inbound) == [])
      ensures r.Interrupted? ==> inbound == old(inbound) && interruptions < old(interruptions)
      ensures r.Failed? ==> faulty && inbound == old(inbound)
    {
      var interrupt: bool, fails: bool := *, *;
      if interruptions > 0 && interrupt {
        interruptions := interruptions - 1;
        return Interrupted;
      }
      if faulty && fails {
        return Failed;
      }
      if inbound == [] {
        return Data([]);
      }
      var n :| 1 <= n <= limit && n <= |inbound|;
      r := Data(inbound[..n]);
      inbound := inbound[n..];
    }
  }

  class SocketStream {
    const sock: Socket
    var closed: bool

    constructor (sock: Socket)
      ensures this.sock == sock && !closed
    {
      this.sock, this.closed := sock, false;
    }

    /** Exactly `count` bytes, or the end of the stream. */
    method Read(count: nat) returns (r: Result<Bytes>)
      modifies this`closed, sock`inbound, sock`interruptions
      ensures r.Ok? ==> |r.value| == count && r.value + sock.inbound == old(sock.inbound) && closed == old(closed)
      ensures r.Err? ==> r.error == EofError && closed
      ensures r.Err? ==> old(closed) || sock.faulty || |old(sock.inbound)| < count
    {
      var data: Bytes := [];
      while |data| < count
        invariant |data| <= count && data + sock.inbound == old(sock.inbound)
        invariant closed == old(closed)
        decreases count - |data|, sock.interruptions
      {
        if closed {
          return Err(EofError);
        }
        var got := sock.Recv(Min(MAX_IO_CHUNK, count - |data|));
        if got.Failed? || (got.Data? && got.buf == []) {
          closed := true;
          return Err(EofError);
        }
        if got.Data? {
          assert data + (got.buf + sock.inbound) == data + got.buf + sock.inbound;
          data := data + got.buf;
        }
      }
      r := Ok(data);
    }

    /** All of the data in order, or a prefix of it and a closed stream. */
    method Write(data: Bytes) returns (r: Result<()>)
      modifies this`closed, sock`outbound
      ensures r.Ok? ==> sock.outbound == old(sock.outbound) + data && closed == old(closed)
      ensures r.Err? ==> r.error == EofError && closed && (old(closed) || sock.faulty)
      ensures r.Err? ==> exists n :: 0 <= n <= |data| && sock.outbound == old(sock.outbound) + data[..n]
    {
      var left := data;
      assert data[..0] == [];
      while left != []
        invariant |left| <= |data| && left == data[|data| - |left|..]
        invariant sock.outbound == old(sock.outbound) + data[..|data| - |left|]
        invariant closed == old(closed)
        decreases |left|
      {
        if closed {
          return Err(EofError);
        }
        var chunk := left[..Min(MAX_IO_CHUNK, |left|)];
        var count := sock.Send(chunk);
        if count.None? {
          closed := true;
          return Err(EofError);
        }
        ghost var done := |data| - |left|;
        assert chunk[..count.value] == data[done..done + count.value];
        assert data[..done] + data[done..done + count.value] == data[..done + count.value];
        left := left[count.value..];
      }
      assert data[..|data|] == data;
      r := Ok(());
    }

    /** One non-blocking read for the event-driven reader: bytes, nothing now, or the end of the stream. */
    method RecvAvailable() returns (r: Result<Option<Bytes>>)
      modifies this`closed, sock`inbound, sock`interruptions
      ensures r.Ok? && r.value.Some? ==> r.value.value + sock.inbound == old(sock.inbound)
      ensures r.Ok? && r.value.Some? ==> (r.value.value == [] <==> old(sock.inbound) == [])
      ensures r.Ok? && r.value.None? ==> sock.inbound == old(sock.inbound)
      ensures r.Ok? ==> closed == old(closed)
      ensures r.Err? ==> r.error == EofError && closed && (old(closed) || sock.faulty)
    {
      if closed {
        return Err(EofError);
      }
      var got := sock.Recv(MAX_IO_CHUNK);
      if got.Failed? {
        closed := true;
        return Err(EofError);
      }
      r := Ok(if got.Data? then Some(got.buf) else None);
    }
  }

  class Channel {
    const stream: SocketStream
    const codec: Codec
    const compress: bool

    constructor (stream: SocketStream, codec: Codec, compress: bool)
      ensures this.stream == stream && this.codec == codec && this.compress == compress
    {
      this.stream, this.codec, this.compress := stream, codec, compress;
    }

    /** Puts the message's frame on the socket whole, in one write or in three. */
    method Send(data: Bytes) returns (r: Result<()>)
      modifies stream`closed, stream.sock`outbound
      ensures !Sendable(codec, compress, data) ==>
                r == Err(StructError) && stream.sock.outbound == old(stream.sock.outbound)
      ensures r.Ok? ==> Sendable(codec, compress, data) && stream.closed == old(stream.closed) &&
                        stream.sock.outbound == old(stream.sock.outbound) + Frame(codec, compress, data)
      ensures Sendable(codec, compress, data) && r.Err? ==>
                r.error == EofError && (old(stream.closed) || stream.sock.faulty)
    {
      var (flag, payload) := Encoded(codec, compress, data);
      if |payload| >= TWO_32 {
        return Err(StructError);
      }
      var header := Header(flag, |payload|);
      if |header| + |payload| + |FLUSHER| <= MAX_IO_CHUNK {
        r := stream.Write(header + payload + FLUSHER);
      } else {
        var part1 := MAX_IO_CHUNK - |header|;
        ghost var before := stream.sock.outbound;
        r := stream.Write(header + payload[..part1]);
        if r.Err? { return; }
        r := stream.Write(payload[part1..]);
        if r.Err? { return; }
        r := stream.Write(FLUSHER);
        assert payload == payload[..part1] + payload[part1..];
        assert before + (header + payload[..part1]) + payload[part1..] + FLUSHER
            == before + (header + payload + FLUSHER);
      }
    }

    /** The message of the frame at the front of the incoming bytes, which leave with it. */
    method Recv() returns (r: Result<Bytes>)
      modifies stream`closed, stream.sock`inbound, stream.sock`interruptions
      ensures r.Ok? ==> ParseFrame(codec, old(stream.sock.inbound)) == Whole(r.value, stream.sock.inbound)
                        && stream.closed == old(stream.closed)
      ensures r == Err(ZlibError) ==> ParseFrame(codec, old(stream.sock.inbound)) == Corrupt(stream.sock.inbound)
      ensures r.Err? ==> r.error == ZlibError || r.error == EofError
      ensures r == Err(EofError) ==> old(stream.closed) || stream.sock.faulty ||
                                     ParseFrame(codec, old(stream.sock.inbound)).Incomplete?
    {
      ghost var was := stream.sock.inbound;
      var header := stream.Read(HEADER_SIZE);
      if header.Err? {
        return header;
      }
      var length := Unpack4(header.value[..4]);
      assert header.value == was[..HEADER_SIZE] && header.value[..4] == was[..4];
      var body := stream.Read(length + |FLUSHER|);
      if body.Err? {
        return body;
      }
      var payload := body.value[..length];
      assert payload == was[HEADER_SIZE..HEADER_SIZE + length];
      assert stream.sock.inbound == was[HEADER_SIZE + length + 1..];
      if header.value[4] != 0 {
        var data := codec.decompress(payload);
        return if data.None? then Err(ZlibError) else Ok(data.value);
      }
      r := Ok(payload);
    }
  }

  /** The connection's inbound buffer on the asyncio path. */
  class FrameReader {
    const codec: Codec
    var inbuf: Bytes

    constructor (codec: Codec)
      ensures this.codec == codec && inbuf == []
    {
      this.codec, this.inbuf := codec, [];
    }

    /** Appends a chunk and carves off every complete frame; an undecodable one raises. */
    method ExtractFrames(chunk: Bytes) returns (r: Result<seq<Bytes>>)
      modifies this
      ensures var d := Drain(codec, old(inbuf) + chunk);
              inbuf == d.rest && r == if d.ok then Ok(d.frames) else Err(ZlibError)
    {
      inbuf := inbuf + chunk;
      ghost var all := Drain(codec, inbuf);
      var frames: seq<Bytes> := [];
      all.AfterTwo([], []);
      while |inbuf| >= HEADER_SIZE
        invariant all == Drain(codec, inbuf).After(frames)
        decreases |inbuf|
      {
        ghost var rest := inbuf;
        var length := Unpack4(inbuf[..4]);
        var total := HEADER_SIZE + length + |FLUSHER|;
        if |inbuf| < total {
          break;
        }
        var payload := inbuf[HEADER_SIZE..HEADER_SIZE + length];
        var compressed := inbuf[4] != 0;
        inbuf := inbuf[total..];
        if compressed {
          var data := codec.decompress(payload);
          if data.None? {
            assert ParseFrame(codec, rest) == Corrupt(inbuf);
            return Err(ZlibError);
          }
          payload := data.value;
        }
        assert ParseFrame(codec, rest) == Whole(payload, inbuf);
        Drain(codec, inbuf).AfterTwo(frames, [payload]);
        frames := frames + [payload];
      }
      assert ParseFrame(codec, inbuf).Incomplete?;
      assert frames + [] == frames;
      r := Ok(frames);
    }
  }

  /** Messages sent through one channel and received through another over the same bytes: the same list, for any
      partial sends and receives and any compression settings of the two ends. */
  method Transfer(sender: Channel, receiver: Channel, msgs: seq<Bytes>) returns (got: seq<Bytes>)
    requires sender.codec == receiver.codec && sender.codec.Inverse()
    requires AllSendable(sender.codec, sender.compress, msgs)
    requires sender.stream != receiver.stream && sender.stream.sock != receiver.stream.sock
    requires !sender.stream.sock.faulty && !receiver.stream.sock.faulty
    requires !sender.stream.closed && !receiver.stream.closed
    requires sender.stream.sock.outbound == []
    modifies sender.stream, sender.stream.sock, receiver.stream, receiver.stream.sock
    ensures got == msgs && receiver.stream.sock.inbound == []
  {
    SendAll(sender, msgs);
    receiver.stream.sock.inbound := sender.stream.sock.outbound;
    got := RecvAll(receiver, sender.compress, msgs);
  }

  method SendAll(sender: Channel, msgs: seq<Bytes>)
    requires AllSendable(sender.codec, sender.compress, msgs)
    requires !sender.stream.sock.faulty && !sender.stream.closed && sender.stream.sock.outbound == []
    modifies sender.stream, sender.stream.sock`outbound
    ensures !sender.stream.closed
    ensures sender.stream.sock.outbound == Frames(sender.codec, sender.compress, msgs)
  {
    for i := 0 to |msgs|
      invariant !sender.stream.closed
      invariant sender.stream.sock.outbound == Frames(sender.codec, sender.compress, msgs[..i])
    {
      var sent := sender.Send(msgs[i]);
      FramesUpTo(sender.codec, sender.compress, msgs, i);
    }
    assert msgs[..|msgs|] == msgs;
  }

  /** As many messages as were sent, from bytes sent with either compression setting. */
  method RecvAll(receiver: Channel, compress: bool, ghost msgs: seq<Bytes>) returns (got: seq<Bytes>)
    requires receiver.codec.Inverse() && AllSendable(receiver.codec, compress, msgs)
    requires !receiver.stream.sock.faulty && !receiver.stream.closed
    requires receiver.stream.sock.inbound == Frames(receiver.codec, compress, msgs)
    modifies receiver.stream, receiver.stream.sock
    ensures got == msgs && receiver.stream.sock.inbound == []
  {
    got := [];
    ghost var left := msgs;
    while receiver.stream.sock.inbound != []
      invariant !receiver.stream.closed && got + left == msgs
      invariant receiver.stream.sock.inbound == Frames(receiver.codec, compress, left)
      invariant AllSendable(receiver.codec, compress, left)
      decreases |left|
    {
      var data := RecvFirst(receiver, compress, left);
      MoveFirst(got, left);
      got, left := got + [data], left[1..];
    }
    if left != [] {
      FirstFrame(receiver.codec, compress, left);
    }
    assert got + [] == got;
  }

  method RecvFirst(receiver: Channel, compress: bool, ghost msgs: seq<Bytes>) returns (data: Bytes)
    requires receiver.codec.Inverse() && AllSendable(receiver.codec, compress, msgs) && msgs != []
    requires !receiver.stream.sock.faulty && !receiver.stream.closed
    requires receiver.stream.sock.inbound == Frames(receiver.codec, compress, msgs)
    modifies receiver.stream`closed, receiver.stream.sock`inbound, receiver.stream.sock`interruptions
    ensures data == msgs[0] && receiver.stream.sock.inbound == Frames(receiver.codec, compress, msgs[1..])
    ensures !receiver.stream.closed
  {
    FirstFrame(receiver.codec, compress, msgs);
    var r := receiver.Recv();
    data := r.value;
  }

  lemma FirstFrame(c: Codec, compress: bool, msgs: seq<Bytes>)
    requires c.Inverse() && AllSendable(c, compress, msgs) && msgs != []
    ensures ParseFrame(c, Frames(c, compress, msgs)) == Whole(msgs[0], Frames(c, compress, msgs[1..]))
    ensures Frames(c, compress, msgs) != [] && AllSendable(c, compress, msgs[1..])
  {
    ParseOfFrame(c, compress, msgs[0], Frames(c, compress, msgs[1..]));
  }

  lemma {:induction false} FramesSnoc(c: Codec, compress: bool, msgs: seq<Bytes>, last: Bytes)
    ensures Frames(c, compress, msgs + [last]) == Frames(c, compress, msgs) + Frame(c, compress, last)
  {
    var all := msgs + [last];
    if msgs == [] {
      assert all[1..] == [];
    } else {
      assert all[1..] == msgs[1..] + [last];
      FramesSnoc(c, compress, msgs[1..], last);
      assert Frame(c, compress, msgs[0]) + (Frames(c, compress, msgs[1..]) + Frame(c, compress, last))
          == Frame(c, compress, msgs[0]) + Frames(c, compress, msgs[1..]) + Frame(c, compress, last);
    }
  }

  lemma FramesUpTo(c: Codec, compress: bool, msgs: seq<Bytes>, n: nat)
    requires n < |msgs|
    ensures Frames(c, compress, msgs[..n + 1]) == Frames(c, compress, msgs[..n]) + Frame(c, compress, msgs[n])
  {
    FramesSnoc(c, compress, msgs[..n], msgs[n]);
    assert msgs[..n] + [msgs[n]] == msgs[..n + 1];
  }
}
