/** The thread-pool server: file descriptors travel between the polling object, the queue of active connections and
    the hands of one thread at a time. */
module ThreadPool {
  import opened Core

  datatype Worker = Idle | Serving(fd: nat, left: nat)

  /** What `poll` on a connection does. */
  datatype Outcome = NoRequest | Served | EndOfFile | Raises

  /** A ready descriptor, with an error event or with data. */
  datatype Ready = Ready(fd: nat, bad: bool)

  /** `conns` are the keys of the connection table; `ready` is what is left of the last poll's result, `taken` what
      the polling thread has just unregistered, `accepting` what an accepting thread has not yet registered. `closed`
      are those of the table whose connection has closed its socket already; `reused` says that such a number was given
      to a new connection. */
  datatype State = State(inactive: set<nat>, queue: seq<nat>, workers: seq<Worker>, ready: seq<Ready>,
                         taken: Option<Ready>, accepting: seq<nat>, conns: set<nat>, closed: set<nat>,
                         reused: bool)

  datatype Step =
    | Accept(fd: nat)
    | Register(i: nat)
    | PollReturns(ready: seq<Ready>)
    | TakeReady
    | PassOn(raises: bool)    // dropping a connection may raise when it is closed, which ends the loop
    | Get(w: nat)
    | Serve(w: nat, outcome: Outcome)
    | SocketCloses(w: nat)    // the connection being served closes itself, as for the peer's close request

  function Start(workers: nat): State {
    State({}, [], seq(workers, i => Idle), [], None, [], {}, {}, false)
  }

  predicate NoRepeat(ready: seq<Ready>) {
    forall i, j | 0 <= i < j < |ready| :: ready[i].fd != ready[j].fd
  }

  /** A descriptor number is free to be given to a new connection once the old one has closed its socket, whether or
      not the table still has it. */
  predicate Enabled(st: State, step: Step) {
    match step
    case Accept(fd) => fd !in st.conns || fd in st.closed
    case Register(i) => i < |st.accepting|
    case PollReturns(ready) =>
      st.ready == [] && st.taken.None? && NoRepeat(ready) && forall r | r in ready :: r.fd in st.inactive
    case TakeReady => st.ready != [] && st.taken.None?
    case PassOn(raises) => st.taken.Some? && (raises ==> st.taken.value.bad)
    case Get(w) => w < |st.workers| && st.workers[w].Idle? && st.queue != []
    case Serve(w, _) => w < |st.workers| && st.workers[w].Serving?
    case SocketCloses(w) => w < |st.workers| && st.workers[w].Serving? && st.workers[w].fd in st.conns
  }

  function SetWorker(st: State, w: nat, to: Worker): State
    requires w < |st.workers|
  {
    st.(workers := st.workers[w := to])
  }

  function Drop(st: State, fd: nat): State {
    st.(conns := st.conns - {fd}, closed := st.closed - {fd})
  }

  function Next(batch: nat, st: State, step: Step): State
    requires Enabled(st, step)
  {
    match step
    case Accept(fd) =>
      st.(conns := st.conns + {fd}, accepting := st.accepting + [fd], closed := st.closed - {fd},
          reused := st.reused || fd in st.conns)
    case Register(i) => st.(accepting := Without(st.accepting, i), inactive := st.inactive + {st.accepting[i]})
    case PollReturns(ready) => st.(ready := ready)
    case TakeReady =>
      st.(ready := st.ready[1..], taken := Some(st.ready[0]), inactive := st.inactive - {st.ready[0].fd})
    case PassOn(raises) =>
      var r := st.taken.value;
      if r.bad then Drop(st.(taken := None, ready := if raises then [] else st.ready), r.fd)
      else st.(taken := None, queue := st.queue + [r.fd])
    case Get(w) =>
      var fd := st.queue[0];
      SetWorker(st.(queue := st.queue[1..]), w, if fd == 0 then Idle else Serving(fd, batch))
    case Serve(w, outcome) => ServeOne(st, w, outcome)
    case SocketCloses(w) => st.(closed := st.closed + {st.workers[w].fd})
  }

  /** One turn of the loop over at most `left` requests; a descriptor missing from the table raises. */
  function ServeOne(st: State, w: nat, outcome: Outcome): State
    requires w < |st.workers| && st.workers[w].Serving?
  {
    var Serving(fd, left) := st.workers[w];
    var free := SetWorker(st, w, Idle);
    if left == 0 || fd !in st.conns then free.(queue := st.queue + [fd])
    else
      match outcome
      case NoRequest => free.(inactive := st.inactive + {fd})
      case Served => SetWorker(st, w, Serving(fd, left - 1))
      case EndOfFile => Drop(free, fd)
      case Raises => free.(queue := st.queue + [fd])
  }

  /** The state after a worker's turn with a connection of the table, by how the turn ends. */
  function AfterTurn(st: State, w: nat, fd: nat, end: Outcome): State
    requires w < |st.workers|
  {
    var free := SetWorker(st, w, Idle);
    match end
    case NoRequest => free.(inactive := st.inactive + {fd})
    case EndOfFile => Drop(free, fd)
    case _ => free.(queue := st.queue + [fd])
  }

  ghost predicate Run(batch: nat, st: State, steps: seq<Step>, end: State)
    decreases |steps|
  {
    if steps == [] then st == end
    else Enabled(st, steps[0]) && Run(batch, Next(batch, st, steps[0]), steps[1..], end)
  }

  ghost predicate Reachable(batch: nat, workers: nat, st: State) {
    exists steps :: Run(batch, Start(workers), steps, st)
  }

  // ---- where a descriptor is ----

  function Holds(fd: nat): Worker -> nat {
    (w: Worker) => if w.Serving? && w.fd == fd then 1 else 0
  }

  function Has(b: bool): nat {
    if b then 1 else 0
  }

  function Places(st: State, fd: nat): nat {
    Has(fd in st.inactive) + Copies(st.queue, fd) + Sum(st.workers, Holds(fd))
    + Has(st.taken.Some? && st.taken.value.fd == fd) + Copies(st.accepting, fd)
  }

  /** A connection's descriptor is in one place, and no other is anywhere; the number zero can get lost. */
  predicate PlaceInv(st: State, fd: nat) {
    if fd != 0 then Places(st, fd) == Has(fd in st.conns) else Places(st, fd) <= Has(fd in st.conns)
  }

  ghost predicate ReadyInv(st: State) {
    NoRepeat(st.ready) && forall r | r in st.ready :: r.fd in st.inactive
  }

  lemma StepKeepsReady(batch: nat, st: State, step: Step)
    requires ReadyInv(st) && Enabled(st, step)
    ensures ReadyInv(Next(batch, st, step))
  {
  }

  lemma RegisterKeeps(batch: nat, st: State, i: nat, fd: nat)
    requires PlaceInv(st, fd) && Enabled(st, Register(i))
    ensures PlaceInv(Next(batch, st, Register(i)), fd)
  {
    SumWithout(st.accepting, i, Is(fd));
  }

  lemma GetKeeps(batch: nat, st: State, w: nat, fd: nat)
    requires PlaceInv(st, fd) && Enabled(st, Get(w))
    ensures PlaceInv(Next(batch, st, Get(w)), fd)
  {
    SumUpdate(st.workers, w, if st.queue[0] == 0 then Idle else Serving(st.queue[0], batch), Holds(fd));
  }

  lemma LetGo(st: State, w: nat, fd: nat)
    requires w < |st.workers| && st.workers[w].Serving?
    ensures Sum(SetWorker(st, w, Idle).workers, Holds(fd)) + Has(st.workers[w].fd == fd) == Sum(st.workers, Holds(fd))
  {
    SumUpdate(st.workers, w, Idle, Holds(fd));
  }

  lemma HoldOn(st: State, w: nat, left: nat, fd: nat)
    requires w < |st.workers| && st.workers[w].Serving?
    ensures Sum(SetWorker(st, w, Serving(st.workers[w].fd, left)).workers, Holds(fd)) == Sum(st.workers, Holds(fd))
  {
    SumUpdate(st.workers, w, Serving(st.workers[w].fd, left), Holds(fd));
  }

  /** Serving moves a descriptor, and takes it away only together with its connection. */
  lemma ServePlaces(st: State, w: nat, outcome: Outcome, fd: nat)
    requires w < |st.workers| && st.workers[w].Serving? && (st.workers[w].fd == fd ==> fd !in st.inactive)
    ensures var st' := ServeOne(st, w, outcome);
            Places(st', fd) + Has(fd in st.conns) == Places(st, fd) + Has(fd in st'.conns)
  {
    var x, left := st.workers[w].fd, st.workers[w].left;
    if left > 0 && x in st.conns && outcome.Served? {
      HoldOn(st, w, left - 1, fd);
    } else {
      TurnPlaces(st, w, if left == 0 || x !in st.conns then Raises else outcome, fd);
    }
  }

  /** The ends of a turn. */
  lemma TurnPlaces(st: State, w: nat, end: Outcome, fd: nat)
    requires w < |st.workers| && st.workers[w].Serving? && (st.workers[w].fd == fd ==> fd !in st.inactive)
    requires end.EndOfFile? ==> st.workers[w].fd in st.conns
    ensures var st' := AfterTurn(st, w, st.workers[w].fd, end);
            Places(st', fd) + Has(fd in st.conns) == Places(st, fd) + Has(fd in st'.conns)
  {
    LetGo(st, w, fd);
    SumSnoc(st.queue, st.workers[w].fd, Is(fd));
  }

  lemma ServeKeeps(batch: nat, st: State, w: nat, outcome: Outcome, fd: nat)
    requires PlaceInv(st, fd) && Enabled(st, Serve(w, outcome))
    ensures PlaceInv(Next(batch, st, Serve(w, outcome)), fd)
  {
    LetGo(st, w, fd);
    ServePlaces(st, w, outcome, fd);
  }

  lemma StepKeepsPlace(batch: nat, st: State, step: Step, fd: nat)
    requires PlaceInv(st, fd) && ReadyInv(st) && Enabled(st, step) && !Next(batch, st, step).reused
    ensures PlaceInv(Next(batch, st, step), fd)
  {
    match step
    case Accept(n) => SumSnoc(st.accepting, n, Is(fd));
    case Register(i) => RegisterKeeps(batch, st, i, fd);
    case PassOn(_) => SumSnoc(st.queue, st.taken.value.fd, Is(fd));
    case Get(w) => GetKeeps(batch, st, w, fd);
    case Serve(w, outcome) => ServeKeeps(batch, st, w, outcome, fd);
    case _ =>
  }

  lemma {:induction false} StartPlaces(workers: nat, fd: nat)
    ensures Sum(Start(workers).workers, Holds(fd)) == 0
  {
    if workers > 0 {
      assert Start(workers).workers[1..] == Start(workers - 1).workers;
      StartPlaces(workers - 1, fd);
    }
  }

  lemma {:induction false} RunKeepsInv(batch: nat, st: State, steps: seq<Step>, end: State, fd: nat)
    requires (!st.reused ==> PlaceInv(st, fd)) && ReadyInv(st) && Run(batch, st, steps, end)
    ensures (!end.reused ==> PlaceInv(end, fd)) && ReadyInv(end)
    decreases |steps|
  {
    if steps != [] {
      if !Next(batch, st, steps[0]).reused {
        StepKeepsPlace(batch, st, steps[0], fd);
      }
      StepKeepsReady(batch, st, steps[0]);
      RunKeepsInv(batch, Next(batch, st, steps[0]), steps[1..], end, fd);
    }
  }

  lemma ReachableInv(batch: nat, workers: nat, st: State, fd: nat)
    requires Reachable(batch, workers, st)
    ensures (!st.reused ==> PlaceInv(st, fd)) && ReadyInv(st)
  {
    StartPlaces(workers, fd);
    var steps :| Run(batch, Start(workers), steps, st);
    RunKeepsInv(batch, Start(workers), steps, st, fd);
  }

  // ---- the main results ----

  /** With any number of workers and any batch size, and as long as no number was given again while the table had it,
      a connection whose descriptor is not zero is in exactly one of the polling object, the queue and a thread's
      hands, until it is dropped; then its descriptor is nowhere. */
  lemma OneTokenPerConnection(batch: nat, workers: nat, st: State, fd: nat)
    requires Reachable(batch, workers, st) && !st.reused && fd != 0
    ensures Places(st, fd) == Has(fd in st.conns)
  {
    ReachableInv(batch, workers, st, fd);
  }

  /** Exactly the reuse of its number breaks this for a connection. */
  lemma OneTokenIff(batch: nat, workers: nat, st: State, step: Step, fd: nat)
    requires Reachable(batch, workers, st) && !st.reused && fd != 0 && Enabled(st, step)
    ensures var st' := Next(batch, st, step);
            Places(st', fd) == Has(fd in st'.conns) <==> !(step == Accept(fd) && fd in st.conns)
  {
    ReachableInv(batch, workers, st, fd);
    if step.Accept? {
      SumSnoc(st.accepting, step.fd, Is(fd));
    } else {
      StepKeepsPlace(batch, st, step, fd);
    }
  }

  /** No two workers serve the same connection, and the one that a worker serves is in the table. */
  lemma ServedByOne(batch: nat, workers: nat, st: State, v: nat, w: nat)
    requires Reachable(batch, workers, st) && !st.reused && v < |st.workers| && w < |st.workers|
    requires st.workers[v].Serving? && st.workers[w].Serving? && st.workers[v].fd == st.workers[w].fd
    ensures v == w && st.workers[w].fd in st.conns
  {
    var fd := st.workers[v].fd;
    ReachableInv(batch, workers, st, fd);
    SumWithout(st.workers, v, Holds(fd));
    if v != w {
      var i := if w < v then w else w - 1;
      assert Without(st.workers, v)[i] == st.workers[w];
      SumWithout(Without(st.workers, v), i, Holds(fd));
    }
  }

  // ---- descriptor zero ----

  lemma {:induction false} RunSnoc(batch: nat, st: State, steps: seq<Step>, mid: State, step: Step)
    requires Run(batch, st, steps, mid) && Enabled(mid, step)
    ensures Run(batch, st, steps + [step], Next(batch, mid, step))
    decreases |steps|
  {
    if steps == [] {
      assert [step][1..] == [];
      assert steps + [step] == [step];
    } else {
      assert (steps + [step])[1..] == steps[1..] + [step];
      RunSnoc(batch, Next(batch, st, steps[0]), steps[1..], mid, step);
    }
  }

  lemma OneMore(batch: nat, workers: nat, st: State, step: Step)
    requires Reachable(batch, workers, st) && Enabled(st, step)
    ensures Reachable(batch, workers, Next(batch, st, step))
  {
    var steps :| Run(batch, Start(workers), steps, st);
    RunSnoc(batch, Start(workers), steps, st, step);
  }

  lemma ZeroInactive(batch: nat) returns (st: State)
    ensures Reachable(batch, 1, st) && st == State({0}, [], [Idle], [], None, [], {0}, {}, false)
  {
    var s0 := Start(1);
    assert Run(batch, s0, [], s0);
    OneMore(batch, 1, s0, Accept(0));
    var s1 := Next(batch, s0, Accept(0));
    assert s1.accepting == [0];
    OneMore(batch, 1, s1, Register(0));
    st := Next(batch, s1, Register(0));
    assert st.accepting == [] && st.inactive == {0};
  }

  lemma ZeroQueued(batch: nat) returns (st: State)
    ensures Reachable(batch, 1, st) && st == State({}, [0], [Idle], [], None, [], {0}, {}, false)
  {
    var s0 := ZeroInactive(batch);
    OneMore(batch, 1, s0, PollReturns([Ready(0, false)]));
    var s1 := Next(batch, s0, PollReturns([Ready(0, false)]));
    OneMore(batch, 1, s1, TakeReady);
    var s2 := Next(batch, s1, TakeReady);
    OneMore(batch, 1, s2, PassOn(false));
    st := Next(batch, s2, PassOn(false));
    assert st.inactive == {} && st.queue == [0];
  }

  /** The queue's end marker is tested by truth, so a worker that gets descriptor zero lets go of it. */
  lemma ZeroIsLost(batch: nat)
    ensures exists st :: Reachable(batch, 1, st) && 0 in st.conns && Places(st, 0) == 0
  {
    var queued := ZeroQueued(batch);
    OneMore(batch, 1, queued, Get(0));
    var st := Next(batch, queued, Get(0));
    assert st.queue == [] && st.workers == [Idle];
  }

  lemma NowhereStays(batch: nat, st: State, step: Step, fd: nat)
    requires ReadyInv(st) && Enabled(st, step) && step != Accept(fd) && fd in st.conns && Places(st, fd) == 0
    ensures fd in Next(batch, st, step).conns && Places(Next(batch, st, step), fd) == 0
  {
    match step
    case Accept(n) => SumSnoc(st.accepting, n, Is(fd));
    case Register(i) => SumWithout(st.accepting, i, Is(fd));
    case PassOn(_) => SumSnoc(st.queue, st.taken.value.fd, Is(fd));
    case Get(w) =>
      SumUpdate(st.workers, w, if st.queue[0] == 0 then Idle else Serving(st.queue[0], batch), Holds(fd));
    case Serve(w, outcome) => NowhereServe(st, w, outcome, fd);
    case _ =>
  }

  lemma NowhereServe(st: State, w: nat, outcome: Outcome, fd: nat)
    requires Enabled(st, Serve(w, outcome)) && fd in st.conns && Places(st, fd) == 0
    ensures fd in ServeOne(st, w, outcome).conns && Places(ServeOne(st, w, outcome), fd) == 0
  {
    LetGo(st, w, fd);
    ServePlaces(st, w, outcome, fd);
  }

  /** A connection that is nowhere is never served or dropped again, while its number is not given to another. */
  lemma {:induction false} LostForGood(batch: nat, st: State, steps: seq<Step>, end: State, fd: nat)
    requires ReadyInv(st) && Run(batch, st, steps, end) && Accept(fd) !in steps && fd in st.conns && Places(st, fd) == 0
    ensures fd in end.conns && Places(end, fd) == 0
    decreases |steps|
  {
    if steps != [] {
      NowhereStays(batch, st, steps[0], fd);
      StepKeepsReady(batch, st, steps[0]);
      LostForGood(batch, Next(batch, st, steps[0]), steps[1..], end, fd);
    }
  }

  // ---- a number given again ----

  /** One worker is serving the only connection, which has closed its socket. */
  function ServingClosed(batch: nat): State {
    State({}, [], [Serving(1, batch)], [], None, [], {1}, {1}, false)
  }

  lemma OneQueued(batch: nat) returns (st: State)
    ensures Reachable(batch, 1, st) && st == State({}, [1], [Idle], [], None, [], {1}, {}, false)
  {
    var s0 := Start(1);
    assert Run(batch, s0, [], s0);
    OneMore(batch, 1, s0, Accept(1));
    var s1 := Next(batch, s0, Accept(1));
    assert s1.accepting == [1];
    OneMore(batch, 1, s1, Register(0));
    var s2 := Next(batch, s1, Register(0));
    assert s2.accepting == [] && s2.inactive == {1};
    OneMore(batch, 1, s2, PollReturns([Ready(1, false)]));
    var s3 := Next(batch, s2, PollReturns([Ready(1, false)]));
    OneMore(batch, 1, s3, TakeReady);
    var s4 := Next(batch, s3, TakeReady);
    OneMore(batch, 1, s4, PassOn(false));
    st := Next(batch, s4, PassOn(false));
    assert st.inactive == {} && st.queue == [1];
  }

  lemma ClosedReachable(batch: nat)
    ensures Reachable(batch, 1, ServingClosed(batch))
  {
    var s0 := OneQueued(batch);
    OneMore(batch, 1, s0, Get(0));
    var s1 := Next(batch, s0, Get(0));
    assert s1.queue == [] && s1.workers == [Serving(1, batch)];
    OneMore(batch, 1, s1, SocketCloses(0));
    assert Next(batch, s1, SocketCloses(0)).closed == {1};
  }

  /** A connection that closes itself while it is served frees its number before the table forgets it. A new one that
      gets the number is dropped from the table by the worker that finds the old one closed: it is registered, and
      nobody has its connection. */
  lemma ReuseDropsTheNew(batch: nat)
    requires batch > 0
    ensures exists st :: Reachable(batch, 1, st) && 1 !in st.conns && 1 in st.inactive
  {
    ClosedReachable(batch);
    var s0 := ServingClosed(batch);
    OneMore(batch, 1, s0, Accept(1));
    var s1 := Next(batch, s0, Accept(1));
    assert s1.accepting == [1];
    OneMore(batch, 1, s1, Register(0));
    var s2 := Next(batch, s1, Register(0));
    assert s2.workers[0] == Serving(1, batch) && 1 in s2.conns;
    OneMore(batch, 1, s2, Serve(0, EndOfFile));
    var st := Next(batch, s2, Serve(0, EndOfFile));
    assert 1 !in st.conns && 1 in st.inactive;
  }

  // ---- the polling thread and a worker, each on its own ----

  function Readable(ready: seq<Ready>): seq<nat> {
    if ready == [] then []
    else if ready[|ready| - 1].bad then Readable(ready[..|ready| - 1])
    else Readable(ready[..|ready| - 1]) + [ready[|ready| - 1].fd]
  }

  function Fds(ready: seq<Ready>): set<nat> {
    set r | r in ready :: r.fd
  }

  function BadFds(ready: seq<Ready>): set<nat> {
    set r | r in ready && r.bad :: r.fd
  }

  lemma OneMoreReady(ready: seq<Ready>, n: nat)
    requires n < |ready|
    ensures var r := ready[n];
            && Fds(ready[..n + 1]) == Fds(ready[..n]) + {r.fd} && ready[n..][0] == r && ready[n..][1..] == ready[n + 1..]
            && BadFds(ready[..n + 1]) == (if r.bad then BadFds(ready[..n]) + {r.fd} else BadFds(ready[..n]))
            && Readable(ready[..n + 1]) == Readable(ready[..n]) + if r.bad then [] else [r.fd]
  {
    assert ready[..n + 1] == ready[..n] + [ready[n]] && ready[..n + 1][..n] == ready[..n];
    assert Readable(ready[..n]) + [] == Readable(ready[..n]);
  }

  /** Dropping the connection of this descriptor raises. */
  predicate Ends(r: Ready, faulty: set<nat>) {
    r.bad && r.fd in faulty
  }

  /** The first outcome that ends a turn, or that the whole batch was served. */
  function TurnEnd(outcomes: seq<Outcome>): Outcome {
    if outcomes == [] then Served else if outcomes[0].Served? then TurnEnd(outcomes[1..]) else outcomes[0]
  }

  lemma OneHandled(batch: nat, st: State, steps: seq<Step>, mid: State, raises: bool)
    returns (more: seq<Step>, end: State)
    requires Run(batch, st, steps, mid) && mid.ready != [] && mid.taken.None? && (raises ==> mid.ready[0].bad)
    ensures Run(batch, st, more, end)
    ensures var r := mid.ready[0];
            && end.inactive == mid.inactive - {r.fd} && end.workers == mid.workers && end.taken.None?
            && end.ready == (if raises then [] else mid.ready[1..])
            && end.queue == (if r.bad then mid.queue else mid.queue + [r.fd])
            && end.conns == (if r.bad then mid.conns - {r.fd} else mid.conns)
  {
    RunSnoc(batch, st, steps, mid, TakeReady);
    var taken := Next(batch, mid, TakeReady);
    RunSnoc(batch, st, steps + [TakeReady], taken, PassOn(raises));
    more, end := steps + [TakeReady] + [PassOn(raises)], Next(batch, taken, PassOn(raises));
  }

  lemma OneServed(batch: nat, st: State, steps: seq<Step>, mid: State, w: nat, outcome: Outcome)
    returns (more: seq<Step>, end: State)
    requires Run(batch, st, steps, mid) && Enabled(mid, Serve(w, outcome))
    ensures Run(batch, st, more, end) && end == Next(batch, mid, Serve(w, outcome))
  {
    RunSnoc(batch, st, steps, mid, Serve(w, outcome));
    more, end := steps + [Serve(w, outcome)], Next(batch, mid, Serve(w, outcome));
  }

  class Server {
    var inactive: set<nat>
    var queue: seq<nat>
    var conns: set<nat>

    constructor ()
      ensures inactive == {} && queue == [] && conns == {}
    {
      inactive, queue, conns := {}, [], {};
    }

    ghost predicate Shows(st: State)
      reads this
    {
      inactive == st.inactive && queue == st.queue && conns == st.conns
    }

    /** Unregisters the reported descriptors, queues those with data in the order reported, and drops the others.
        `faulty` are the descriptors whose connection raises when it is closed: the first of them that is dropped ends
        the loop, and those reported after it stay registered. A run of the machine. */
    method HandlePollResult(ready: seq<Ready>, faulty: set<nat>, ghost batch: nat, ghost st: State)
      returns (handled: nat, ghost end: State)
      requires Shows(st) && st.ready == ready && st.taken.None?
      modifies this
      ensures Shows(end) && end.ready == [] && end.taken.None? && end.workers == st.workers
      ensures exists steps :: Run(batch, st, steps, end)
      ensures handled <= |ready| && forall j | 0 <= j < handled - 1 :: !Ends(ready[j], faulty)
      ensures handled < |ready| ==> handled > 0 && Ends(ready[handled - 1], faulty)
      ensures inactive == old(inactive) - Fds(ready[..handled])
      ensures queue == old(queue) + Readable(ready[..handled])
      ensures conns == old(conns) - BadFds(ready[..handled])
    {
      handled, end := 0, st;
      ghost var steps: seq<Step> := [];
      assert ready[0..] == ready;
      while handled < |ready|
        invariant Run(batch, st, steps, end) && Shows(end) && end.workers == st.workers
        invariant handled <= |ready| && end.ready == ready[handled..] && end.taken.None?
        invariant handled <= |ready| && forall j | 0 <= j < handled :: !Ends(ready[j], faulty)
        invariant inactive == old(inactive) - Fds(ready[..handled])
        invariant queue == old(queue) + Readable(ready[..handled])
        invariant conns == old(conns) - BadFds(ready[..handled])
      {
        var r := ready[handled];
        OneMoreReady(ready, handled);
        steps, end := OneHandled(batch, st, steps, end, r.bad && r.fd in faulty);
        handled := handled + 1;
        inactive := inactive - {r.fd};
        if r.bad {
          conns := conns - {r.fd};
          if r.fd in faulty {
            return;
          }
        } else {
          queue := queue + [r.fd];
        }
      }
    }

    /** A worker's turn with a connection, given what polling it would do for each request of the batch: afterwards
        the descriptor is with the inactive ones, in the queue, or dropped. A descriptor that is not in the table
        raises, and is queued again; one that is dropped stays dropped when closing its connection raises. */
    method ServeRequests(fd: nat, outcomes: seq<Outcome>, closeRaises: bool, ghost batch: nat, ghost st: State, ghost w: nat)
      returns (raised: bool, ghost end: State)
      requires Shows(st) && w < |st.workers| && st.workers[w] == Serving(fd, |outcomes|)
      modifies this
      ensures Shows(end) && end.workers == st.workers[w := Idle] && end.ready == st.ready && end.taken == st.taken
      ensures exists steps :: Run(batch, st, steps, end)
      ensures raised <==> outcomes != [] && (fd !in old(conns) || TurnEnd(outcomes).Raises?
                                             || (TurnEnd(outcomes).EndOfFile? && closeRaises))
      ensures if outcomes == [] || fd in old(conns) then
                match TurnEnd(outcomes)
                case NoRequest => inactive == old(inactive) + {fd} && queue == old(queue) && conns == old(conns)
                case EndOfFile => conns == old(conns) - {fd} && queue == old(queue) && inactive == old(inactive)
                case _ => queue == old(queue) + [fd] && inactive == old(inactive) && conns == old(conns)
              else queue == old(queue) + [fd] && inactive == old(inactive) && conns == old(conns)
    {
      assert outcomes[0..] == outcomes && st.workers[w := Serving(fd, |outcomes|)] == st.workers;
      end := st;
      ghost var steps: seq<Step> := [];
      for i := 0 to |outcomes|
        invariant Run(batch, st, steps, end) && end == SetWorker(st, w, Serving(fd, |outcomes| - i))
        invariant inactive == old(inactive) && queue == old(queue) && conns == old(conns)
        invariant TurnEnd(outcomes[i..]) == TurnEnd(outcomes) && (i > 0 ==> fd in conns)
      {
        assert outcomes[i..][1..] == outcomes[i + 1..];
        steps, end := OneServed(batch, st, steps, end, w, outcomes[i]);
        if fd !in conns || outcomes[i].Raises? {
          queue := queue + [fd];
          raised := true;
          return;
        }
        if outcomes[i].NoRequest? {
          inactive := inactive + {fd};
          raised := false;
          return;
        }
        if outcomes[i].EndOfFile? {
          conns := conns - {fd};
          raised := closeRaises;
          return;
        }
      }
      steps, end := OneServed(batch, st, steps, end, w, Served);
      queue := queue + [fd];
      raised := false;
    }
  }

  // ---- a turn as steps ----

  /** A worker that nobody disturbs takes its turn in steps, whatever the batch size. */
  lemma {:induction false} TurnAsSteps(batch: nat, st: State, w: nat, outcomes: seq<Outcome>)
    requires w < |st.workers| && st.workers[w].Serving? && st.workers[w].left == |outcomes|
    requires st.workers[w].fd in st.conns
    ensures exists steps :: Run(batch, st, steps, AfterTurn(st, w, st.workers[w].fd, TurnEnd(outcomes)))
    decreases |outcomes|
  {
    var fd := st.workers[w].fd;
    var end := AfterTurn(st, w, fd, TurnEnd(outcomes));
    var first := Serve(w, if outcomes == [] then Served else outcomes[0]);
    var st' := Next(batch, st, first);
    if outcomes != [] && outcomes[0].Served? {
      TurnAsSteps(batch, st', w, outcomes[1..]);
      assert st'.workers[w := Idle] == st.workers[w := Idle];
      var steps :| Run(batch, st', steps, end);
      assert ([first] + steps)[1..] == steps;
      assert Run(batch, st, [first] + steps, end);
    } else {
      assert st' == end && Run(batch, st', [], end);
      assert Run(batch, st, [first], end);
    }
  }

  /** The worker takes the descriptor that is longest in the queue, unless it is zero, and serves at most a batch. */
  lemma TurnFromQueue(batch: nat, st: State, w: nat, outcomes: seq<Outcome>)
    requires Enabled(st, Get(w)) && st.queue[0] != 0 && st.queue[0] in st.conns && |outcomes| == batch
    ensures exists steps, end ::
      && Run(batch, st, steps, end) && end.workers == st.workers
      && end.inactive == st.inactive + (if TurnEnd(outcomes).NoRequest? then {st.queue[0]} else {})
      && end.conns == st.conns - (if TurnEnd(outcomes).EndOfFile? then {st.queue[0]} else {})
      && end.queue == st.queue[1..] + (if TurnEnd(outcomes).Served? || TurnEnd(outcomes).Raises? then [st.queue[0]] else [])
  {
    var fd, got := st.queue[0], Next(batch, st, Get(w));
    TurnAsSteps(batch, got, w, outcomes);
    var end := AfterTurn(got, w, fd, TurnEnd(outcomes));
    var steps :| Run(batch, got, steps, end);
    assert ([Get(w)] + steps)[1..] == steps;
    assert Run(batch, st, [Get(w)] + steps, end);
    assert end.workers == st.workers;
    assert st.queue[1..] + [] == st.queue[1..];
  }
}
