/** The try-lock send queue: any number of threads append messages, one at a time writes them to the channel. */
module SendQueue {
  import opened Core
  import opened Framing
  import opened Wire

  /** Where an activation of `_send` is. An activation nested in another by the garbage collector is one more. */
  datatype PC =
    | Outside
    | Testing                            // about to look whether the queue is empty
    | Trying                             // about to try the lock
    | Holding                            // has the lock, about to look at the queue again
    | Sending(data: Bytes, left: Bytes)  // inside the channel's send, with bytes of the frame still to write
    | Releasing                          // about to release the lock

  datatype State = State(pcs: seq<PC>, queue: seq<Bytes>, lock: Option<nat>,
                         appended: seq<Bytes>, sent: seq<Bytes>, wire: Bytes)

  datatype Step =
    | Append(t: nat, data: Bytes)
    | Test(t: nat)
    | Try(t: nat)
    | Pop(t: nat)
    | Write(t: nat, n: nat)
    | Sent(t: nat)
    | Release(t: nat)

  /** The channel the messages go to. */
  datatype Settings = Settings(codec: Codec, compress: bool) {
    function FrameOf(data: Bytes): Bytes {
      Frame(codec, compress, data)
    }
  }

  function Start(threads: nat): State {
    State(seq(threads, i => Outside), [], None, [], [], [])
  }

  predicate Enabled(c: Settings, st: State, step: Step) {
    && step.t < |st.pcs|
    && var pc := st.pcs[step.t];
       match step
       case Append(_, data) => pc.Outside? && Sendable(c.codec, c.compress, data)
       case Test(_) => pc.Testing?
       case Try(_) => pc.Trying?
       case Pop(_) => pc.Holding?
       case Write(_, n) => pc.Sending? && 1 <= n <= |pc.left|
       case Sent(_) => pc.Sending? && pc.left == []
       case Release(_) => pc.Releasing?
  }

  function Next(c: Settings, st: State, step: Step): State
    requires Enabled(c, st, step)
  {
    var t := step.t;
    var pc := st.pcs[t];
    match step
    case Append(_, data) =>
      st.(pcs := st.pcs[t := Testing], queue := st.queue + [data], appended := st.appended + [data])
    case Test(_) => st.(pcs := st.pcs[t := if st.queue == [] then Outside else Trying])
    case Try(_) =>
      if st.lock.None? then st.(pcs := st.pcs[t := Holding], lock := Some(t))
      else st.(pcs := st.pcs[t := Outside])
    case Pop(_) =>
      if st.queue == [] then st.(pcs := st.pcs[t := Releasing])
      else st.(pcs := st.pcs[t := Sending(st.queue[0], c.FrameOf(st.queue[0]))], queue := st.queue[1..])
    case Write(_, n) =>
      st.(pcs := st.pcs[t := Sending(pc.data, pc.left[n..])], wire := st.wire + pc.left[..n])
    case Sent(_) => st.(pcs := st.pcs[t := Releasing], sent := st.sent + [pc.data])
    case Release(_) => st.(pcs := st.pcs[t := Testing], lock := None)
  }

  ghost predicate Reachable(c: Settings, threads: nat, st: State) {
    exists steps :: Run(c, Start(threads), steps, st)
  }

  ghost predicate Run(c: Settings, st: State, steps: seq<Step>, end: State)
    decreases |steps|
  {
    if steps == [] then st == end
    else Enabled(c, st, steps[0]) && Run(c, Next(c, st, steps[0]), steps[1..], end)
  }

  // ---- the invariant ----

  predicate InSection(pc: PC) {
    pc.Holding? || pc.Sending? || pc.Releasing?
  }

  /** The message popped from the queue and not yet sent. */
  function InHand(st: State): seq<Bytes> {
    if st.lock.Some? && st.lock.value < |st.pcs| && st.pcs[st.lock.value].Sending? then [st.pcs[st.lock.value].data] else []
  }

  /** The bytes of its frame that are on the wire. */
  function Written(c: Settings, st: State): Bytes {
    if InHand(st) == [] then []
    else
      var pc := st.pcs[st.lock.value];
      var frame := c.FrameOf(pc.data);
      if |pc.left| <= |frame| then frame[..|frame| - |pc.left|] else []
  }

  /** The lock is held by exactly the activation that is between acquiring and releasing it. */
  ghost predicate LockInv(st: State) {
    && (st.lock.Some? ==> st.lock.value < |st.pcs|)
    && forall t | 0 <= t < |st.pcs| :: InSection(st.pcs[t]) <==> st.lock == Some(t)
  }

  /** Somebody is still going to look at the queue. */
  ghost predicate Attended(st: State) {
    st.queue != [] ==> exists t :: 0 <= t < |st.pcs| && !st.pcs[t].Outside?
  }

  ghost predicate OrderInv(c: Settings, st: State) {
    st.appended == st.sent + InHand(st) + st.queue && AllSendable(c.codec, c.compress, st.appended)
  }

  /** What is left of a frame is its end. */
  predicate LeftOf(c: Settings, pc: PC) {
    pc.Sending? ==> var frame := c.FrameOf(pc.data);
      |pc.left| <= |frame| && pc.left == frame[|frame| - |pc.left|..]
  }

  ghost predicate WireInv(c: Settings, st: State) {
    && (forall t | 0 <= t < |st.pcs| :: LeftOf(c, st.pcs[t]))
    && st.wire == Frames(c.codec, c.compress, st.sent) + Written(c, st)
  }

  ghost predicate Inv(c: Settings, st: State) {
    LockInv(st) && Attended(st) && OrderInv(c, st) && WireInv(c, st)
  }

  lemma LockStep(c: Settings, st: State, step: Step)
    requires LockInv(st) && Enabled(c, st, step)
    ensures LockInv(Next(c, st, step))
  {
  }

  /** A thread that fails to get the lock leaves a holder behind, who looks at the queue again. */
  lemma AttendedStep(c: Settings, st: State, step: Step)
    requires LockInv(st) && Attended(st) && Enabled(c, st, step)
    ensures Attended(Next(c, st, step))
  {
    var st', t := Next(c, st, step), step.t;
    if step.Try? && st.lock.Some? {
      var holder := st.lock.value;
      assert InSection(st.pcs[holder]) && st'.pcs[holder] == st.pcs[holder];
    } else if !step.Test? {
      assert !st'.pcs[t].Outside?;
    } else if st.queue != [] {
      assert st'.pcs[t].Trying?;
    }
  }

  lemma OrderStep(c: Settings, st: State, step: Step)
    requires LockInv(st) && OrderInv(c, st) && Enabled(c, st, step)
    ensures OrderInv(c, Next(c, st, step))
  {
    var st', t := Next(c, st, step), step.t;
    if step.Pop? && st.queue != [] {
      assert InHand(st') == [st.queue[0]] && st.queue == [st.queue[0]] + st.queue[1..];
    } else if step.Sent? {
      assert InHand(st) == [st.pcs[t].data] && InHand(st') == [];
    } else {
      assert InHand(st') == InHand(st);
    }
  }

  lemma WireStep(c: Settings, st: State, step: Step)
    requires LockInv(st) && WireInv(c, st) && Enabled(c, st, step)
    ensures WireInv(c, Next(c, st, step))
  {
    var st', t := Next(c, st, step), step.t;
    if step.Write? {
      WriteStep(c, st, t, step.n);
    } else if step.Sent? {
      SentStep(c, st, t);
    } else if step.Pop? && st.queue != [] {
      var frame := c.FrameOf(st.queue[0]);
      assert frame[|frame| - |frame|..] == frame && frame[..|frame| - |frame|] == [];
      assert st.lock == Some(t) && Written(c, st) == Written(c, st') == [];
    } else {
      assert InHand(st') == InHand(st);
    }
  }

  lemma LeftKept(c: Settings, pcs: seq<PC>, t: nat, pc: PC)
    requires t < |pcs| && LeftOf(c, pc) && forall u | 0 <= u < |pcs| :: LeftOf(c, pcs[u])
    ensures var pcs' := pcs[t := pc]; forall u | 0 <= u < |pcs'| :: LeftOf(c, pcs'[u])
  {
  }

  lemma WriteStep(c: Settings, st: State, t: nat, n: nat)
    requires LockInv(st) && WireInv(c, st) && Enabled(c, st, Write(t, n))
    ensures WireInv(c, Next(c, st, Write(t, n)))
  {
    var st', pc := Next(c, st, Write(t, n)), st.pcs[t];
    assert LeftOf(c, pc);
    WrittenGrows(c, st, t, n);
    LeftKept(c, st.pcs, t, st'.pcs[t]);
    Regroup(Frames(c.codec, c.compress, st.sent), Written(c, st), pc.left[..n]);
  }

  /** The written part of a frame grows by what is cut off the rest. */
  lemma WrittenGrows(c: Settings, st: State, t: nat, n: nat)
    requires LockInv(st) && Enabled(c, st, Write(t, n)) && LeftOf(c, st.pcs[t])
    ensures var st' := Next(c, st, Write(t, n));
            Written(c, st') == Written(c, st) + st.pcs[t].left[..n] && LeftOf(c, st'.pcs[t])
  {
    assert InSection(st.pcs[t]) && st.lock == Some(t);
    CutOff(c.FrameOf(st.pcs[t].data), st.pcs[t].left, n);
  }

  lemma CutOff(frame: Bytes, left: Bytes, n: nat)
    requires n <= |left| <= |frame| && left == frame[|frame| - |left|..]
    ensures var done := |frame| - |left|;
            frame[..done] + left[..n] == frame[..done + n] && left[n..] == frame[done + n..]
  {
  }

  lemma SentStep(c: Settings, st: State, t: nat)
    requires LockInv(st) && WireInv(c, st) && Enabled(c, st, Sent(t))
    ensures WireInv(c, Next(c, st, Sent(t)))
  {
    LeftKept(c, st.pcs, t, Releasing);
    AllWritten(c, st, t);
    FramesSnoc(c.codec, c.compress, st.sent, st.pcs[t].data);
    assert st.wire + [] == st.wire;
  }

  lemma AllWritten(c: Settings, st: State, t: nat)
    requires LockInv(st) && Enabled(c, st, Sent(t))
    ensures Written(c, st) == c.FrameOf(st.pcs[t].data) && Written(c, Next(c, st, Sent(t))) == []
  {
    assert InSection(st.pcs[t]) && st.lock == Some(t);
    var frame := c.FrameOf(st.pcs[t].data);
    assert frame[..|frame|] == frame;
  }

  lemma {:induction false} RunKeepsInv(c: Settings, st: State, steps: seq<Step>, end: State)
    requires Inv(c, st) && Run(c, st, steps, end)
    ensures Inv(c, end)
    decreases |steps|
  {
    if steps != [] {
      LockStep(c, st, steps[0]);
      AttendedStep(c, st, steps[0]);
      OrderStep(c, st, steps[0]);
      WireStep(c, st, steps[0]);
      RunKeepsInv(c, Next(c, st, steps[0]), steps[1..], end);
    }
  }

  lemma ReachableInv(c: Settings, threads: nat, st: State)
    requires Reachable(c, threads, st)
    ensures Inv(c, st)
  {
    var steps :| Run(c, Start(threads), steps, st);
    RunKeepsInv(c, Start(threads), steps, st);
  }

  // ---- the main results ----

  /** Nothing is lost, duplicated or reordered: what was sent, the message in hand and the queue together are
      always what was appended, in append order. */
  lemma OrderKept(c: Settings, threads: nat, st: State)
    requires Reachable(c, threads, st)
    ensures st.sent + InHand(st) + st.queue == st.appended
  {
    ReachableInv(c, threads, st);
  }

  /** No two threads are inside the channel's send, so no frame is written into another. */
  lemma OneSender(c: Settings, threads: nat, st: State, t: nat, u: nat)
    requires Reachable(c, threads, st)
    requires t < |st.pcs| && u < |st.pcs| && st.pcs[t].Sending? && st.pcs[u].Sending?
    ensures t == u
  {
    ReachableInv(c, threads, st);
  }

  /** Once no thread is in the loop nothing is stranded: every appended message is on the wire as a whole frame,
      and the peer's framer gets exactly the appended messages in order. */
  lemma NothingStranded(c: Settings, threads: nat, st: State)
    requires Reachable(c, threads, st) && c.codec.Inverse()
    requires forall t | 0 <= t < |st.pcs| :: st.pcs[t].Outside?
    ensures st.queue == [] && st.lock.None? && st.sent == st.appended
    ensures Drain(c.codec, st.wire) == Drained(st.appended, [], true)
  {
    ReachableInv(c, threads, st);
    assert st.sent + [] + [] == st.sent;
    DrainOfFrames(c.codec, c.compress, st.appended, []);
  }

  // ---- everybody gets out of the loop ----

  /** How many steps an activation can still take, as long as nothing is taken off the queue: with something in it a
      thread that tests goes for the lock, with nothing it goes. */
  function Ahead(busy: bool): PC -> nat {
    (pc: PC) =>
      match pc
      case Outside => 0
      case Testing => if busy then 3 else 1
      case Trying => if busy then 2 else 4
      case Holding => if busy then 1 else 3
      case Sending(_, left) => |left| + 5
      case Releasing => if busy then 4 else 2
  }

  /** The steps a queued message can cost: those of its frame, and those of the threads it sends for the lock. */
  function Cost(c: Settings, threads: nat): Bytes -> nat {
    (data: Bytes) => |c.FrameOf(data)| + 5 + 2 * threads
  }

  function StepsAhead(c: Settings, st: State): nat {
    Sum(st.queue, Cost(c, |st.pcs|)) + Sum(st.pcs, Ahead(st.queue != []))
  }

  lemma {:induction false} LastTaken(pcs: seq<PC>)
    ensures Sum(pcs, Ahead(false)) <= Sum(pcs, Ahead(true)) + 2 * |pcs|
  {
    if pcs != [] {
      LastTaken(pcs[1..]);
    }
  }

  lemma PopFalls(c: Settings, st: State, t: nat)
    requires Enabled(c, st, Pop(t))
    ensures StepsAhead(c, Next(c, st, Pop(t))) < StepsAhead(c, st)
  {
    var st' := Next(c, st, Pop(t));
    var pc' := st'.pcs[t];
    SumUpdate(st.pcs, t, pc', Ahead(st.queue != []));
    if st.queue != [] && st'.queue == [] {
      LastTaken(st'.pcs);
      assert Sum(st'.queue, Cost(c, |st.pcs|)) == 0;
    }
  }

  lemma StepsAheadFall(c: Settings, st: State, step: Step)
    requires Enabled(c, st, step) && !step.Append?
    ensures StepsAhead(c, Next(c, st, step)) < StepsAhead(c, st)
  {
    if step.Pop? {
      PopFalls(c, st, step.t);
    } else {
      var st' := Next(c, st, step);
      assert st'.queue == st.queue && st'.pcs == st.pcs[step.t := st'.pcs[step.t]];
      SumUpdate(st.pcs, step.t, st'.pcs[step.t], Ahead(st.queue != []));
    }
  }

  predicate NothingAppended(steps: seq<Step>) {
    forall step | step in steps :: !step.Append?
  }

  lemma {:induction false} RunsAreShort(c: Settings, st: State, steps: seq<Step>, end: State)
    requires Run(c, st, steps, end) && NothingAppended(steps)
    ensures |steps| + StepsAhead(c, end) <= StepsAhead(c, st)
    decreases |steps|
  {
    if steps != [] {
      StepsAheadFall(c, st, steps[0]);
      RunsAreShort(c, Next(c, st, steps[0]), steps[1..], end);
    }
  }

  /** Nothing is left to do but to append. */
  ghost predicate Idle(c: Settings, st: State) {
    forall step | Enabled(c, st, step) :: step.Append?
  }

  lemma IdleMeansOutside(c: Settings, st: State)
    requires Idle(c, st)
    ensures forall t | 0 <= t < |st.pcs| :: st.pcs[t].Outside?
  {
    forall t | 0 <= t < |st.pcs| ensures st.pcs[t].Outside? {
      var pc := st.pcs[t];
      var step := match pc
        case Testing => Test(t)
        case Trying => Try(t)
        case Holding => Pop(t)
        case Releasing => Release(t)
        case Sending(_, left) => if left == [] then Sent(t) else Write(t, |left|)
        case Outside => Test(t);
      if !pc.Outside? {
        assert Enabled(c, st, step);
      }
    }
  }

  lemma {:induction false} RunExtends(c: Settings, st: State, steps: seq<Step>, mid: State, more: seq<Step>, end: State)
    requires Run(c, st, steps, mid) && Run(c, mid, more, end)
    ensures Run(c, st, steps + more, end)
    decreases |steps|
  {
    if steps == [] {
      assert steps + more == more;
    } else {
      assert (steps + more)[1..] == steps[1..] + more;
      RunExtends(c, Next(c, st, steps[0]), steps[1..], mid, more, end);
    }
  }

  /** From every reachable state, whatever the threads do, the loop comes to an end within a number of steps known
      beforehand unless more is appended, and then everything appended is on the wire. */
  lemma EverythingGetsSent(c: Settings, threads: nat, st: State, steps: seq<Step>, end: State)
    requires Reachable(c, threads, st) && c.codec.Inverse() && Run(c, st, steps, end) && NothingAppended(steps)
    ensures |steps| <= StepsAhead(c, st)
    ensures Idle(c, end) ==>
              end.queue == [] && end.lock.None? && Drain(c.codec, end.wire) == Drained(end.appended, [], true)
  {
    RunsAreShort(c, st, steps, end);
    var before :| Run(c, Start(threads), before, st);
    RunExtends(c, Start(threads), before, st, steps, end);
    if Idle(c, end) {
      IdleMeansOutside(c, end);
      NothingStranded(c, threads, end);
    }
  }

  /** At every moment the peer can read off the wire a prefix of what was appended. */
  lemma PeerSeesPrefix(c: Settings, threads: nat, st: State)
    requires Reachable(c, threads, st) && c.codec.Inverse()
    ensures Drain(c.codec, st.wire).ok && Drain(c.codec, st.wire).frames <= st.appended
  {
    ReachableInv(c, threads, st);
    if InHand(st) == [] {
      assert st.wire == Frames(c.codec, c.compress, st.sent) + [];
      DrainOfFrames(c.codec, c.compress, st.sent, []);
    } else {
      PeerSeesHand(c, st);
    }
  }

  lemma PeerSeesHand(c: Settings, st: State)
    requires Inv(c, st) && c.codec.Inverse() && InHand(st) != []
    ensures Drain(c.codec, st.wire).ok && Drain(c.codec, st.wire).frames <= st.appended
  {
    var data := InHand(st)[0];
    var done := WrittenPart(c, st);
    SendableParts(c, st.sent, data, st.queue);
    PartSeen(c, st.sent, data, done);
  }

  lemma WrittenPart(c: Settings, st: State) returns (done: nat)
    requires WireInv(c, st) && InHand(st) != []
    ensures done <= |c.FrameOf(InHand(st)[0])| && Written(c, st) == c.FrameOf(InHand(st)[0])[..done]
  {
    var pc := st.pcs[st.lock.value];
    assert LeftOf(c, pc);
    done := |c.FrameOf(pc.data)| - |pc.left|;
  }

  lemma SendableParts(c: Settings, sent: seq<Bytes>, data: Bytes, queue: seq<Bytes>)
    requires AllSendable(c.codec, c.compress, sent + [data] + queue)
    ensures AllSendable(c.codec, c.compress, sent) && Sendable(c.codec, c.compress, data)
    ensures sent <= sent + [data] + queue && sent + [data] <= sent + [data] + queue
  {
    var all := sent + [data] + queue;
    assert all[|sent|] == data;
    forall m | m in sent ensures Sendable(c.codec, c.compress, m) {
      assert m in all;
    }
  }

  /** Whole frames with a part of one more, or all of it, behind them. */
  lemma PartSeen(c: Settings, sent: seq<Bytes>, data: Bytes, done: nat)
    requires AllSendable(c.codec, c.compress, sent) && Sendable(c.codec, c.compress, data) && c.codec.Inverse()
    requires done <= |c.FrameOf(data)|
    ensures var wire := Frames(c.codec, c.compress, sent) + c.FrameOf(data)[..done];
            Drain(c.codec, wire).ok && (Drain(c.codec, wire).frames == sent || Drain(c.codec, wire).frames == sent + [data])
  {
    var frame := c.FrameOf(data);
    if done == |frame| {
      FramesSnoc(c.codec, c.compress, sent, data);
      assert frame[..done] == frame;
      assert Frames(c.codec, c.compress, sent) + frame == Frames(c.codec, c.compress, sent + [data]) + [];
      DrainOfFrames(c.codec, c.compress, sent + [data], []);
    } else {
      PartialFrame(c.codec, c.compress, data, done);
      DrainOfFrames(c.codec, c.compress, sent, frame[..done]);
    }
  }

  /** A frame that is not all there is not read. */
  lemma PartialFrame(c: Codec, compress: bool, data: Bytes, n: nat)
    requires Sendable(c, compress, data) && n < |Frame(c, compress, data)|
    ensures ParseFrame(c, Frame(c, compress, data)[..n]).Incomplete?
  {
    var payload := Encoded(c, compress, data).1;
    var part := Frame(c, compress, data)[..n];
    if n >= HEADER_SIZE {
      assert Frame(c, compress, data)[..4] == Pack4(|payload|);
      assert part[..4] == Frame(c, compress, data)[..4];
      UnpackPack4(|payload|);
    }
  }

  // ---- `_send` on its own ----

  class Sender {
    const channel: Channel
    var sendQueue: seq<Bytes>
    var sendLock: bool

    constructor (channel: Channel)
      ensures this.channel == channel && sendQueue == [] && !sendLock
    {
      this.channel := channel;
      sendQueue, sendLock := [], false;
    }

    /** Undisturbed by other threads: with the lock free, everything queued goes out in order, this message last;
        with the lock taken, the message is only queued for the holder. An exception of the channel keeps what is
        still in the queue, and releases the lock. */
    method Send(data: Bytes) returns (r: Result<()>)
      requires AllSendable(channel.codec, channel.compress, sendQueue + [data])
      modifies this`sendQueue, this`sendLock, channel.stream`closed, channel.stream.sock`outbound
      ensures sendLock == old(sendLock)
      ensures old(sendLock) ==> r.Ok? && sendQueue == old(sendQueue) + [data]
                                && channel.stream.sock.outbound == old(channel.stream.sock.outbound)
      ensures !old(sendLock) && r.Ok? ==>
                sendQueue == [] && channel.stream.sock.outbound
                == old(channel.stream.sock.outbound) + Frames(channel.codec, channel.compress, old(sendQueue) + [data])
      ensures r.Err? ==> old(channel.stream.closed) || channel.stream.sock.faulty
      ensures r.Err? ==> |sendQueue| <= |old(sendQueue)| && sendQueue == (old(sendQueue) + [data])[|old(sendQueue)| + 1 - |sendQueue|..]
    {
      sendQueue := sendQueue + [data];
      r := Flush();
    }

    /** The loop of `_send`. */
    method Flush() returns (r: Result<()>)
      requires AllSendable(channel.codec, channel.compress, sendQueue)
      modifies this`sendQueue, this`sendLock, channel.stream`closed, channel.stream.sock`outbound
      ensures sendLock == old(sendLock)
      ensures old(sendLock) ==> r.Ok? && sendQueue == old(sendQueue)
                                && channel.stream.sock.outbound == old(channel.stream.sock.outbound)
      ensures !old(sendLock) && r.Ok? ==>
                sendQueue == [] && channel.stream.sock.outbound
                == old(channel.stream.sock.outbound) + Frames(channel.codec, channel.compress, old(sendQueue))
      ensures r.Err? ==> old(channel.stream.closed) || channel.stream.sock.faulty
      ensures r.Err? ==> |sendQueue| < |old(sendQueue)| && sendQueue == old(sendQueue)[|old(sendQueue)| - |sendQueue|..]
    {
      ghost var all, n := sendQueue, 0;
      while sendQueue != []
        invariant sendLock == old(sendLock) && n <= |all| && sendQueue == all[n..]
        invariant sendLock ==> n == 0
        invariant channel.stream.closed == old(channel.stream.closed)
        invariant channel.stream.sock.outbound
               == old(channel.stream.sock.outbound) + Frames(channel.codec, channel.compress, all[..n])
        decreases |sendQueue|
      {
        if sendLock {
          return Ok(());
        }
        assert sendQueue[0] == all[n];
        r := SendNext();
        if r.Err? {
          return;
        }
        FramesUpTo(channel.codec, channel.compress, all, n);
        Regroup(old(channel.stream.sock.outbound), Frames(channel.codec, channel.compress, all[..n]),
                Frame(channel.codec, channel.compress, all[n]));
        n := n + 1;
      }
      assert all[..|all|] == all;
      r := Ok(());
    }

    /** One message, with the lock held around the channel's send. */
    method SendNext() returns (r: Result<()>)
      requires sendQueue != [] && !sendLock && Sendable(channel.codec, channel.compress, sendQueue[0])
      modifies this`sendQueue, this`sendLock, channel.stream`closed, channel.stream.sock`outbound
      ensures !sendLock && sendQueue == old(sendQueue)[1..]
      ensures r.Ok? ==> channel.stream.closed == old(channel.stream.closed) &&
                        channel.stream.sock.outbound
                        == old(channel.stream.sock.outbound) + Frame(channel.codec, channel.compress, old(sendQueue)[0])
      ensures r.Err? ==> old(channel.stream.closed) || channel.stream.sock.faulty
    {
      sendLock := true;
      var next := sendQueue[0];
      sendQueue := sendQueue[1..];
      r := channel.Send(next);
      sendLock := false;
    }
  }
}
