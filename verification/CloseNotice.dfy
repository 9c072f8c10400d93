/** Closing a connection: the teardown, which any number of threads may enter, and the callbacks told about it. */
module CloseNotice {
  import opened Core

  /** An activation of `close`, `aclose` or the teardown, or a registration that came too late and calls back by
      itself. */
  datatype PC =
    | Out
    | Deciding                   // in a close: saw the connection open, about to mark it closed
    | Closing                    // marked it, about to tear down
    | Testing                    // about to look whether the service is still attached
    | Disconnecting              // saw it attached, about to close the channel and call its `on_disconnect`
    | Detaching                  // about to detach it
    | Deleting                   // about to delete the handler table
    | ShuttingDown               // about to shut the executor down
    | Firing                     // about to take the callbacks
    | Calling(batch: seq<nat>)   // calling them, one after the other

  /** Callbacks are numbered as they are registered; the first `early` were registered on an open connection. `fires`
      counts how often the list was taken, `disconnects` the calls of `on_disconnect`, `raises` those that raised.
      `workers` are the activations that run on threads of the connection's own executor, which it has when threads are
      bound. */
  datatype State = State(closed: bool, callbacks: seq<nat>, registered: nat, early: nat, fired: seq<nat>, fires: nat,
                         attached: bool, handlers: bool, disconnects: nat, raises: nat, pcs: seq<PC>,
                         workers: set<nat>)

  const START := State(false, [], 0, 0, [], 0, true, true, 0, 0, [], {})

  datatype Step =
    | Register
    | Close(worker: bool)                  // `close` or `aclose`: nothing on a closed connection
    | Decide(t: nat, givesUp: bool)        // `aclose` may raise before it marks the connection closed
    | Enter(t: nat)
    | PeerCloses(worker: bool)             // the peer's close request is handled
    | ReplyFails                           // a reply cannot be sent, which marks the connection closed
    | Test(t: nat)
    | Abort(t: nat)                        // closing the channel raises
    | Disconnect(t: nat, raises: bool)     // raises anyway, and calls nothing, when the service is detached by now
    | Detach(t: nat)
    | Delete(t: nat)
    | Shutdown(t: nat)                     // a thread of the executor can not wait for itself, and raises
    | Take(t: nat)
    | Call(t: nat)                         // an exception of the callback is swallowed

  predicate At(st: State, step: Step, t: nat) {
    && t < |st.pcs|
    && var pc := st.pcs[t];
       match step
       case Decide(_, _) => pc.Deciding?
       case Enter(_) => pc.Closing?
       case Test(_) => pc.Testing?
       case Abort(_) => pc.Disconnecting?
       case Disconnect(_, _) => pc.Disconnecting?
       case Detach(_) => pc.Detaching?
       case Delete(_) => pc.Deleting?
       case Shutdown(_) => pc.ShuttingDown?
       case Take(_) => pc.Firing?
       case Call(_) => pc.Calling? && pc.batch != []
       case _ => false
  }

  predicate Enabled(st: State, step: Step) {
    step.Register? || step.Close? || step.PeerCloses? || step.ReplyFails? || At(st, step, step.t)
  }

  function Move(st: State, t: nat, pc: PC): State
    requires t < |st.pcs|
  {
    st.(pcs := st.pcs[t := pc])
  }

  function Begin(st: State, pc: PC, worker: bool): State {
    st.(pcs := st.pcs + [pc], workers := if worker then st.workers + {|st.pcs|} else st.workers)
  }

  function Next(st: State, step: Step): State
    requires Enabled(st, step)
  {
    match step
    case Register =>
      if st.closed then Begin(st, Calling([st.registered]), false).(registered := st.registered + 1)
      else st.(callbacks := st.callbacks + [st.registered], registered := st.registered + 1, early := st.early + 1)
    case Close(worker) => if st.closed then st else Begin(st, Deciding, worker)
    case Decide(t, givesUp) => if givesUp then Move(st, t, Out) else Move(st, t, Closing).(closed := true)
    case Enter(t) => Move(st, t, Testing)
    case PeerCloses(worker) => Begin(st, Testing, worker)
    case ReplyFails => st.(closed := true)
    case Test(t) => Move(st, t, if st.attached then Disconnecting else Firing).(closed := true)
    case Abort(t) => Move(st, t, Out)
    case Disconnect(t, raises) =>
      if !st.attached then Move(st, t, Out)
      else Move(st, t, if raises then Out else Detaching)
             .(disconnects := st.disconnects + 1, raises := if raises then st.raises + 1 else st.raises)
    case Detach(t) => Move(st, t, Deleting).(attached := false)
    case Delete(t) => Move(st, t, if st.handlers then ShuttingDown else Out).(handlers := false)
    case Shutdown(t) => Move(st, t, if t in st.workers then Out else Firing)
    case Take(t) => Move(st, t, Calling(st.callbacks)).(callbacks := [], fires := st.fires + 1)
    case Call(t) =>
      var batch := st.pcs[t].batch;
      Move(st, t, Calling(batch[1..])).(fired := st.fired + [batch[0]])
  }

  ghost predicate Run(st: State, steps: seq<Step>, end: State)
    decreases |steps|
  {
    if steps == [] then st == end
    else Enabled(st, steps[0]) && Run(Next(st, steps[0]), steps[1..], end)
  }

  ghost predicate Reachable(st: State) {
    exists steps :: Run(START, steps, st)
  }

  // ---- callbacks ----

  function Batch(pc: PC): seq<nat> {
    if pc.Calling? then pc.batch else []
  }

  function Holding(k: nat): PC -> nat {
    (pc: PC) => Copies(Batch(pc), k)
  }

  function Places(st: State, k: nat): nat {
    Copies(st.callbacks, k) + Sum(st.pcs, Holding(k)) + Copies(st.fired, k)
  }

  function Registered(st: State, k: nat): nat {
    if k < st.registered then 1 else 0
  }

  predicate CallbackInv(st: State, k: nat) {
    Places(st, k) == Registered(st, k)
  }

  predicate InTeardown(pc: PC) {
    pc.Closing? || pc.Disconnecting? || pc.Detaching? || pc.Deleting? || pc.ShuttingDown? || pc.Firing?
    || pc.Calling?
  }

  /** The list holds what was registered on the open connection until it is taken. */
  ghost predicate ListInv(st: State) {
    && st.early <= st.registered && (!st.closed ==> st.early == st.registered)
    && (st.fires > 0 ==> st.callbacks == [] && st.closed)
    && (st.fires == 0 ==> |st.callbacks| == st.early && forall k | 0 <= k < st.early :: st.callbacks[k] == k)
  }

  /** Past its start a teardown has marked the connection closed; the service is detached before the handlers go. */
  ghost predicate TeardownInv(st: State) {
    && (st.attached ==> st.handlers) && (!st.attached ==> st.closed)
    && (forall t | t in st.workers :: t < |st.pcs|)
    && (forall t | 0 <= t < |st.pcs| && InTeardown(st.pcs[t]) :: st.closed)
    && (forall t | 0 <= t < |st.pcs| && st.pcs[t].Deleting? :: !st.attached)
  }

  lemma StepKeepsTeardown(st: State, step: Step)
    requires TeardownInv(st) && Enabled(st, step)
    ensures TeardownInv(Next(st, step))
  {
    var st' := Next(st, step);
    assert step.Detach? ==> InTeardown(st.pcs[step.t]);
    forall t | 0 <= t < |st'.pcs|
      ensures (InTeardown(st'.pcs[t]) ==> st'.closed) && (st'.pcs[t].Deleting? ==> !st'.attached)
    {
      assert t < |st.pcs| ==> (InTeardown(st.pcs[t]) ==> st.closed) && (st.pcs[t].Deleting? ==> !st.attached);
    }
  }

  lemma StepKeepsList(st: State, step: Step)
    requires ListInv(st) && TeardownInv(st) && Enabled(st, step)
    ensures ListInv(Next(st, step))
  {
  }

  lemma RegisterKeeps(st: State, k: nat)
    requires CallbackInv(st, k)
    ensures CallbackInv(Next(st, Register), k)
  {
    if st.closed {
      LateHolds(st.pcs, st.registered, k);
    } else {
      SumSnoc(st.callbacks, st.registered, Is(k));
    }
  }

  lemma LateHolds(pcs: seq<PC>, late: nat, k: nat)
    ensures Sum(pcs + [Calling([late])], Holding(k)) == Sum(pcs, Holding(k)) + Is(k)(late)
  {
    SumSnoc(pcs, Calling([late]), Holding(k));
    SumSnoc([], late, Is(k));
    assert [] + [late] == [late];
  }

  lemma TakeKeeps(st: State, t: nat, k: nat)
    requires CallbackInv(st, k) && Enabled(st, Take(t))
    ensures CallbackInv(Next(st, Take(t)), k)
  {
    var taken := Calling(st.callbacks);
    SumUpdate(st.pcs, t, taken, Holding(k));
    assert Holding(k)(taken) == Copies(st.callbacks, k) && Holding(k)(Firing) == 0;
  }

  lemma CallKeeps(st: State, t: nat, k: nat)
    requires CallbackInv(st, k) && Enabled(st, Call(t))
    ensures CallbackInv(Next(st, Call(t)), k)
  {
    var batch := st.pcs[t].batch;
    SumUpdate(st.pcs, t, Calling(batch[1..]), Holding(k));
    SumSnoc(st.fired, batch[0], Is(k));
  }

  lemma StepKeepsCallback(st: State, step: Step, k: nat)
    requires CallbackInv(st, k) && Enabled(st, step)
    ensures CallbackInv(Next(st, step), k)
  {
    match step
    case Register => RegisterKeeps(st, k);
    case ReplyFails =>
    case Close(_) => SumSnoc(st.pcs, Deciding, Holding(k));
    case PeerCloses(_) => SumSnoc(st.pcs, Testing, Holding(k));
    case Take(t) => TakeKeeps(st, t, k);
    case Call(t) => CallKeeps(st, t, k);
    case _ => OwnStepKeepsCallback(st, step, k);
  }

  lemma OwnStepKeepsCallback(st: State, step: Step, k: nat)
    requires CallbackInv(st, k) && Enabled(st, step) && !step.Take? && !step.Call?
    requires !step.Register? && !step.ReplyFails? && !step.Close? && !step.PeerCloses?
    ensures CallbackInv(Next(st, step), k)
  {
    OwnStepMoves(st, step);
    Replaced(st.pcs, step.t, Next(st, step).pcs[step.t], k);
  }

  lemma OwnStepMoves(st: State, step: Step)
    requires Enabled(st, step) && !step.Take? && !step.Call?
    requires !step.Register? && !step.ReplyFails? && !step.Close? && !step.PeerCloses?
    ensures var st', pc := Next(st, step), Next(st, step).pcs[step.t];
            && st'.pcs == st.pcs[step.t := pc] && Batch(pc) == Batch(st.pcs[step.t])
            && st'.callbacks == st.callbacks && st'.fired == st.fired && st'.registered == st.registered
  {
  }

  lemma Replaced(pcs: seq<PC>, t: nat, pc: PC, k: nat)
    requires t < |pcs| && Batch(pcs[t]) == Batch(pc)
    ensures Sum(pcs[t := pc], Holding(k)) == Sum(pcs, Holding(k))
  {
    SumUpdate(pcs, t, pc, Holding(k));
  }

  // ---- the service's `on_disconnect` ----

  function Told(): PC -> nat {
    (pc: PC) => if pc.Detaching? then 1 else 0
  }

  /** While the service is attached, every call made has raised or is about to detach it. */
  predicate ToldInv(st: State) {
    (st.disconnects == 0 ==> st.raises == 0) && (st.attached ==> st.disconnects == Sum(st.pcs, Told()) + st.raises)
  }

  /** The calls of `on_disconnect` made by a step. */
  function Tells(st: State, step: Step): nat {
    if step.Disconnect? && st.attached then 1 else 0
  }

  lemma StepKeepsTold(st: State, step: Step)
    requires ToldInv(st) && Enabled(st, step)
    ensures ToldInv(Next(st, step)) && Next(st, step).disconnects == st.disconnects + Tells(st, step)
  {
    match step
    case Register => SumSnoc(st.pcs, Calling([st.registered]), Told());
    case ReplyFails =>
    case Close(_) => SumSnoc(st.pcs, Deciding, Told());
    case PeerCloses(_) => SumSnoc(st.pcs, Testing, Told());
    case _ => OwnStepKeepsTold(st, step);
  }

  lemma OwnStepKeepsTold(st: State, step: Step)
    requires ToldInv(st) && Enabled(st, step)
    requires !step.Register? && !step.ReplyFails? && !step.Close? && !step.PeerCloses?
    ensures ToldInv(Next(st, step)) && Next(st, step).disconnects == st.disconnects + Tells(st, step)
  {
    SumUpdate(st.pcs, step.t, Next(st, step).pcs[step.t], Told());
  }

  lemma {:induction false} TellersCount(pcs: seq<PC>)
    ensures Sum(pcs, Told()) > 0 <==> exists t :: 0 <= t < |pcs| && pcs[t].Detaching?
  {
    if pcs != [] {
      TellersCount(pcs[1..]);
      if exists t :: 0 <= t < |pcs[1..]| && pcs[1..][t].Detaching? {
        var t :| 0 <= t < |pcs[1..]| && pcs[1..][t].Detaching?;
        assert pcs[t + 1].Detaching?;
      }
      if exists t :: 0 <= t < |pcs| && pcs[t].Detaching? {
        var t :| 0 <= t < |pcs| && pcs[t].Detaching?;
        assert t > 0 ==> pcs[1..][t - 1] == pcs[t];
      }
    }
  }

  // ---- the main results ----

  ghost predicate Inv(st: State) {
    ListInv(st) && TeardownInv(st) && ToldInv(st) && forall k :: CallbackInv(st, k)
  }

  lemma StepKeepsInv(st: State, step: Step)
    requires Inv(st) && Enabled(st, step)
    ensures Inv(Next(st, step))
  {
    StepKeepsTeardown(st, step);
    StepKeepsList(st, step);
    StepKeepsTold(st, step);
    forall k ensures CallbackInv(Next(st, step), k) {
      StepKeepsCallback(st, step, k);
    }
  }

  lemma {:induction false} RunKeepsInv(st: State, steps: seq<Step>, end: State)
    requires Inv(st) && Run(st, steps, end)
    ensures Inv(end)
    decreases |steps|
  {
    if steps != [] {
      StepKeepsInv(st, steps[0]);
      RunKeepsInv(Next(st, steps[0]), steps[1..], end);
    }
  }

  lemma StartInv()
    ensures Inv(START)
  {
    assert Sum(START.pcs, Told()) == 0;
    forall k ensures CallbackInv(START, k) {
      assert Sum(START.pcs, Holding(k)) == 0;
    }
  }

  lemma FromStart(start: State, steps: seq<Step>, st: State)
    requires start == START && Run(start, steps, st)
    ensures Inv(st)
  {
    assert Inv(start) by { StartInv(); }
    RunKeepsInv(start, steps, st);
  }

  lemma ReachableInv(st: State)
    requires Reachable(st)
    ensures Inv(st)
  {
    var steps :| Run(START, steps, st);
    FromStart(START, steps, st);
  }

  /** Every registered callback is in one place: still listed, about to be called, or called; so it is called at
      most once, whatever the number of teardowns and of threads registering. */
  lemma CalledAtMostOnce(st: State, k: nat)
    requires Reachable(st)
    ensures Places(st, k) == if k < st.registered then 1 else 0
    ensures Copies(st.fired, k) <= 1
  {
    ReachableInv(st);
    assert CallbackInv(st, k);
  }

  /** With nobody calling, a callback has been called exactly when it was registered on a closed connection, or a
      teardown has taken the list. */
  lemma CalledIff(st: State, k: nat)
    requires Reachable(st) && k < st.registered
    requires forall t | 0 <= t < |st.pcs| :: Batch(st.pcs[t]) == []
    ensures Copies(st.fired, k) == if st.fires > 0 || k >= st.early then 1 else 0
    ensures st.fires > 0 ==> st.callbacks == []
  {
    ReachableInv(st);
    assert CallbackInv(st, k);
    NobodyHolds(st.pcs, k);
    if k < st.early && st.fires == 0 {
      assert st.callbacks[k] == k;
      CopyOf(st.callbacks, k);
    } else if k in st.callbacks {
      assert false;
    } else {
      NoCopyOf(st.callbacks, k);
    }
  }

  lemma {:induction false} NobodyHolds(pcs: seq<PC>, k: nat)
    requires forall t | 0 <= t < |pcs| :: Batch(pcs[t]) == []
    ensures Sum(pcs, Holding(k)) == 0
  {
    if pcs != [] {
      NobodyHolds(pcs[1..], k);
    }
  }

  lemma {:induction false} NoCopyOf(s: seq<nat>, k: nat)
    requires k !in s
    ensures Copies(s, k) == 0
  {
    if s != [] {
      NoCopyOf(s[1..], k);
    }
  }

  // ---- when the list can still be taken ----

  /** Not yet past testing the service. */
  predicate Early(pc: PC) {
    pc.Deciding? || pc.Closing? || pc.Testing?
  }

  /** An activation that can get to taking the list by itself. On a thread of the executor it never gets past the
      shutdown, unless it finds the service detached and has nothing to shut down. */
  predicate OnItsWay(st: State, t: nat)
    requires t < |st.pcs|
  {
    match st.pcs[t]
    case Firing => true
    case ShuttingDown => t !in st.workers
    case Deleting => t !in st.workers && st.handlers
    case Detaching => t !in st.workers && st.handlers
    case Disconnecting => t !in st.workers && st.attached
    case Out => false
    case Calling(_) => false
    case _ => t !in st.workers || !st.attached
  }

  /** Another activation can detach the service before this one tests it. */
  predicate Overtaken(st: State, t: nat, u: nat)
    requires t < |st.pcs| && u < |st.pcs|
  {
    t != u && Early(st.pcs[t]) && (Early(st.pcs[u]) || st.pcs[u].Disconnecting? || st.pcs[u].Detaching?)
  }

  ghost predicate CanFire(st: State) {
    || (exists t :: 0 <= t < |st.pcs| && OnItsWay(st, t))
    || (st.attached && exists t, u :: 0 <= t < |st.pcs| && 0 <= u < |st.pcs| && Overtaken(st, t, u))
  }

  predicate WithoutPeer(steps: seq<Step>) {
    forall step | step in steps :: !step.PeerCloses?
  }

  /** Whether the list is taken in some run without the peer's help. */
  ghost predicate MayFire(st: State) {
    exists steps, end :: WithoutPeer(steps) && Run(st, steps, end) && end.fires > 0
  }

  lemma MayFireAfter(st: State, step: Step)
    requires Enabled(st, step) && !step.PeerCloses? && MayFire(Next(st, step))
    ensures MayFire(st)
  {
    var steps, end :| WithoutPeer(steps) && Run(Next(st, step), steps, end) && end.fires > 0;
    assert ([step] + steps)[1..] == steps && Run(st, [step] + steps, end);
  }

  lemma FiringFires(st: State, t: nat)
    requires t < |st.pcs| && st.pcs[t].Firing?
    ensures MayFire(st)
  {
    assert Run(Next(st, Take(t)), [], Next(st, Take(t)));
    MayFireAfter(st, Take(t));
  }

  /** How far an activation is from taking the list. */
  function Distance(pc: PC): nat {
    match pc
    case Deciding => 7
    case Closing => 6
    case Testing => 5
    case Disconnecting => 4
    case Detaching => 3
    case Deleting => 2
    case ShuttingDown => 1
    case _ => 0
  }

  /** What an activation does next, when nothing it calls raises. */
  function Onward(pc: PC, t: nat): Step
    requires Distance(pc) > 0
  {
    match pc
    case Deciding => Decide(t, false)
    case Closing => Enter(t)
    case Testing => Test(t)
    case Disconnecting => Disconnect(t, false)
    case Detaching => Detach(t)
    case Deleting => Delete(t)
    case _ => Shutdown(t)
  }

  /** The rest of the way of an activation that nobody disturbs and whose service does not raise. */
  lemma {:induction false} WayToFire(st: State, t: nat)
    requires TeardownInv(st) && t < |st.pcs| && OnItsWay(st, t)
    ensures MayFire(st)
    decreases Distance(st.pcs[t])
  {
    if st.pcs[t].Firing? {
      FiringFires(st, t);
    } else {
      var step := Onward(st.pcs[t], t);
      StepKeepsTeardown(st, step);
      WayToFire(Next(st, step), t);
      MayFireAfter(st, step);
    }
  }

  /** An activation that another one overtakes, and that then finds the service detached. */
  lemma {:induction false} OvertakenFires(st: State, t: nat, u: nat)
    requires TeardownInv(st) && st.attached && t < |st.pcs| && u < |st.pcs| && Overtaken(st, t, u)
    ensures MayFire(st)
    decreases Distance(st.pcs[u])
  {
    var step := Onward(st.pcs[u], u);
    StepKeepsTeardown(st, step);
    if st.pcs[u].Detaching? {
      WayToFire(Next(st, step), t);
    } else {
      OvertakenFires(Next(st, step), t, u);
    }
    MayFireAfter(st, step);
  }

  /** Nothing is lost for the listed callbacks by one more step. */
  lemma StepStaysDead(st: State, step: Step)
    requires TeardownInv(st) && st.closed && !CanFire(st) && Enabled(st, step) && !step.PeerCloses?
    ensures var st' := Next(st, step);
            st'.closed && !CanFire(st') && st'.callbacks == st.callbacks && st'.fires == st.fires
  {
    var st' := Next(st, step);
    if step.Take? {
      TakingIsOnItsWay(st, step.t);
    }
    forall t | 0 <= t < |st'.pcs| ensures !OnItsWay(st', t) {
      StaysOff(st, step, t);
    }
    if st'.attached {
      forall t, u | 0 <= t < |st'.pcs| && 0 <= u < |st'.pcs| ensures !Overtaken(st', t, u) {
        assert t < |st.pcs| && u < |st.pcs| ==> !Overtaken(st, t, u);
      }
    }
  }

  lemma TakingIsOnItsWay(st: State, t: nat)
    requires Enabled(st, Take(t))
    ensures CanFire(st)
  {
    assert OnItsWay(st, t);
  }

  lemma StaysOff(st: State, step: Step, t: nat)
    requires TeardownInv(st) && st.closed && !CanFire(st) && Enabled(st, step) && !step.PeerCloses?
    requires t < |Next(st, step).pcs|
    ensures !OnItsWay(Next(st, step), t)
  {
    if t < |st.pcs| {
      assert !OnItsWay(st, t);
      if step.Detach? && st.attached && step.t != t {
        assert !OnItsWay(st, step.t) && !Overtaken(st, t, step.t);
      }
    }
  }

  lemma {:induction false} RunStaysDead(st: State, steps: seq<Step>, end: State)
    requires TeardownInv(st) && st.closed && !CanFire(st) && Run(st, steps, end) && WithoutPeer(steps)
    ensures end.callbacks == st.callbacks && end.fires == st.fires
    decreases |steps|
  {
    if steps != [] {
      StepStaysDead(st, steps[0]);
      StepKeepsTeardown(st, steps[0]);
      RunStaysDead(Next(st, steps[0]), steps[1..], end);
    }
  }

  /** A list that was not taken can still be taken without the peer exactly when the connection is open, so that a new
      `close` can, or some activation is on its way to the list, or two are, of which one can overtake the other: on a
      closed connection a new `close` does nothing. */
  lemma FiresIff(st: State)
    requires Reachable(st) && st.fires == 0
    ensures MayFire(st) <==> !st.closed || CanFire(st)
  {
    ReachableInv(st);
    if !st.closed {
      OpenFires(st);
    } else if CanFire(st) {
      if t :| 0 <= t < |st.pcs| && OnItsWay(st, t) {
        WayToFire(st, t);
      } else {
        var t, u :| 0 <= t < |st.pcs| && 0 <= u < |st.pcs| && Overtaken(st, t, u);
        OvertakenFires(st, t, u);
      }
    } else if MayFire(st) {
      var steps, end :| WithoutPeer(steps) && Run(st, steps, end) && end.fires > 0;
      RunStaysDead(st, steps, end);
    }
  }

  lemma OpenFires(st: State)
    requires TeardownInv(st) && !st.closed
    ensures MayFire(st)
  {
    var st' := Next(st, Close(false));
    StepKeepsTeardown(st, Close(false));
    assert st'.pcs[|st.pcs|].Deciding?;
    WayToFire(st', |st.pcs|);
    MayFireAfter(st, Close(false));
  }

  /** A reply that cannot be sent marks the connection closed and tears nothing down. Unless a close or a teardown is
      under way, no callback registered by then is ever called, whatever is done on this side. */
  lemma ClosedWithoutNotice(st: State, steps: seq<Step>, end: State, k: nat)
    requires Reachable(st) && !st.closed && !CanFire(st) && k in st.callbacks
    requires Run(Next(st, ReplyFails), steps, end) && WithoutPeer(steps)
    ensures k in end.callbacks && Copies(end.fired, k) == 0
  {
    var st' := Next(st, ReplyFails);
    MarkedStaysDead(st);
    ReachableInv(st);
    StepKeepsInv(st, ReplyFails);
    RunStaysDead(st', steps, end);
    RunKeepsInv(st', steps, end);
    assert CallbackInv(end, k);
    CopyOf(end.callbacks, k);
  }

  lemma MarkedStaysDead(st: State)
    requires !CanFire(st)
    ensures !CanFire(Next(st, ReplyFails))
  {
    var st' := Next(st, ReplyFails);
    forall t | 0 <= t < |st'.pcs| ensures !OnItsWay(st', t) {
      assert !OnItsWay(st, t);
    }
    if st'.attached {
      forall t, u | 0 <= t < |st'.pcs| && 0 <= u < |st'.pcs| ensures !Overtaken(st', t, u) {
        assert !Overtaken(st, t, u);
      }
    }
  }

  // ---- what one teardown does ----

  /** The steps of one activation. */
  predicate Own(steps: seq<Step>, t: nat) {
    forall step | step in steps ::
      !step.Register? && !step.Close? && !step.PeerCloses? && !step.ReplyFails? && step.t == t
  }

  lemma OwnCons(st: State, step: Step, steps: seq<Step>, end: State, t: nat)
    requires Enabled(st, step) && Own([step], t) && Own(steps, t) && Run(Next(st, step), steps, end)
    ensures Own([step] + steps, t) && Run(st, [step] + steps, end)
  {
    assert step in [step] && ([step] + steps)[1..] == steps;
  }

  /** What is left after an activation has taken the list and called what was in it. */
  function Notified(st: State, t: nat): State
    requires t < |st.pcs|
  {
    Move(st, t, Calling([])).(callbacks := [], fired := st.fired + st.callbacks, fires := st.fires + 1)
  }

  /** What is left after a teardown that nobody disturbs, and during which nothing raises by itself. */
  function TornDown(st: State, t: nat): State
    requires t < |st.pcs|
  {
    var torn := if st.attached then st.(closed := true, attached := false, handlers := false, disconnects := st.disconnects + 1)
                else st.(closed := true);
    if st.attached && t in st.workers then Move(torn, t, Out) else Notified(torn, t)
  }

  lemma FiringAlone(st: State, t: nat)
    requires t < |st.pcs| && st.pcs[t].Firing?
    ensures exists steps :: Own(steps, t) && Run(st, steps, Notified(st, t))
  {
    var taken := Next(st, Take(t));
    CallsAll(taken, t);
    assert AllCalled(taken, t) == Notified(st, t);
    var steps :| Own(steps, t) && Run(taken, steps, Notified(st, t));
    OwnCons(st, Take(t), steps, Notified(st, t), t);
  }

  lemma {:induction false} TeardownAlone(st: State, t: nat)
    requires t < |st.pcs| && st.pcs[t].Testing? && (st.attached ==> st.handlers)
    ensures exists steps :: Own(steps, t) && Run(st, steps, TornDown(st, t))
  {
    var s1 := Next(st, Test(t));
    if st.attached {
      DetachingAlone(s1, t);
    } else {
      FiringAlone(s1, t);
    }
    assert TornDown(st, t) == if st.attached then TornDown(s1, t) else Notified(s1, t);
    var steps :| Own(steps, t) && Run(s1, steps, TornDown(st, t));
    OwnCons(st, Test(t), steps, TornDown(st, t), t);
  }

  lemma DetachingAlone(st: State, t: nat)
    requires t < |st.pcs| && st.pcs[t].Disconnecting? && st.attached && st.handlers && st.closed
    ensures exists steps :: Own(steps, t) && Run(st, steps, TornDown(st, t))
  {
    var end := TornDown(st, t);
    var s1 := Next(st, Disconnect(t, false));
    var s2 := Next(s1, Detach(t));
    var s3 := Next(s2, Delete(t));
    var s4 := Next(s3, Shutdown(t));
    if t in st.workers {
      assert s4 == end && Run(s4, [], end) && Own([], t);
    } else {
      FiringAlone(s4, t);
      assert Notified(s4, t) == end;
    }
    var rest :| Own(rest, t) && Run(s4, rest, end);
    OwnCons(s3, Shutdown(t), rest, end, t);
    OwnCons(s2, Delete(t), [Shutdown(t)] + rest, end, t);
    OwnCons(s1, Detach(t), [Delete(t)] + ([Shutdown(t)] + rest), end, t);
    OwnCons(st, Disconnect(t, false), [Detach(t)] + ([Delete(t)] + ([Shutdown(t)] + rest)), end, t);
  }

  /** After the peer's close request its own activation, left to itself, marks the connection closed, tells an attached
      service once and detaches it. It then calls the listed callbacks, each once and in order, exactly unless it runs
      on a thread of the executor and found the service attached: then it leaves the list as it is. */
  lemma PeerCloseTearsDown(st: State, worker: bool)
    requires Reachable(st)
    ensures exists steps, end ::
              && Own(steps, |st.pcs|) && Run(Next(st, PeerCloses(worker)), steps, end)
              && end.closed && !end.attached && end.disconnects == st.disconnects + (if st.attached then 1 else 0)
              && end.raises == st.raises && end.registered == st.registered
              && (if worker && st.attached then end.callbacks == st.callbacks && end.fired == st.fired && end.fires == st.fires
                  else end.callbacks == [] && end.fired == st.fired + st.callbacks && end.fires == st.fires + 1)
  {
    ReachableInv(st);
    TeardownAlone(Next(st, PeerCloses(worker)), |st.pcs|);
  }

  /** The same for a `close` on this side of an open connection. */
  lemma OwnCloseTearsDown(st: State, worker: bool)
    requires Reachable(st) && !st.closed
    ensures exists steps, end ::
              && Own(steps, |st.pcs|) && Run(Next(st, Close(worker)), steps, end)
              && end.closed && !end.attached && end.disconnects == st.disconnects + 1
              && end.raises == st.raises && end.registered == st.registered
              && (if worker then end.callbacks == st.callbacks && end.fired == st.fired && end.fires == st.fires
                  else end.callbacks == [] && end.fired == st.fired + st.callbacks && end.fires == st.fires + 1)
  {
    ReachableInv(st);
    var t, s1 := |st.pcs|, Next(st, Close(worker));
    var s2 := Next(s1, Decide(t, false));
    var s3 := Next(s2, Enter(t));
    TeardownAlone(s3, t);
    var end := TornDown(s3, t);
    var steps :| Own(steps, t) && Run(s3, steps, end);
    OwnCons(s2, Enter(t), steps, end, t);
    OwnCons(s1, Decide(t, false), [Enter(t)] + steps, end, t);
  }

  // ---- when the service is told twice ----

  /** A teardown calls the service while it is attached, after a call that raised or while another teardown is between
      its call and detaching it. */
  ghost predicate TellsAgain(st: State, step: Step) {
    step.Disconnect? && st.attached && (st.raises > 0 || exists t :: 0 <= t < |st.pcs| && st.pcs[t].Detaching?)
  }

  /** Exactly such a step is the second call of `on_disconnect`. A teardown that finds the service detached in the
      meantime raises and calls nothing. */
  lemma SecondCallIff(st: State, step: Step)
    requires Reachable(st) && Enabled(st, step) && st.disconnects <= 1
    ensures Next(st, step).disconnects > 1 <==> TellsAgain(st, step)
  {
    ReachableInv(st);
    SecondCallWhen(st, step);
  }

  lemma SecondCallWhen(st: State, step: Step)
    requires ToldInv(st) && Enabled(st, step) && st.disconnects <= 1
    ensures Next(st, step).disconnects > 1 <==> TellsAgain(st, step)
  {
    StepKeepsTold(st, step);
    TellersCount(st.pcs);
  }

  /** No teardown of the run tells a service that was told, or is being told. */
  ghost predicate TellsOnce(st: State, steps: seq<Step>)
    decreases |steps|
  {
    steps != [] && Enabled(st, steps[0]) ==> !TellsAgain(st, steps[0]) && TellsOnce(Next(st, steps[0]), steps[1..])
  }

  lemma {:induction false} CallsGrow(st: State, steps: seq<Step>, end: State)
    requires ToldInv(st) && Run(st, steps, end)
    ensures st.disconnects <= end.disconnects
    decreases |steps|
  {
    if steps != [] {
      StepKeepsTold(st, steps[0]);
      CallsGrow(Next(st, steps[0]), steps[1..], end);
    }
  }

  lemma {:induction false} OnceIff(st: State, steps: seq<Step>, end: State)
    requires ToldInv(st) && st.disconnects <= 1 && Run(st, steps, end)
    ensures end.disconnects <= 1 <==> TellsOnce(st, steps)
    decreases |steps|
  {
    if steps != [] {
      var st' := Next(st, steps[0]);
      StepKeepsTold(st, steps[0]);
      SecondCallWhen(st, steps[0]);
      if st'.disconnects <= 1 {
        OnceIff(st', steps[1..], end);
      } else {
        CallsGrow(st', steps[1..], end);
      }
    }
  }

  /** A service that was told at most once so far is told at most once in a run exactly when no teardown of the run
      tells it again. */
  lemma ToldOnceIff(st: State, steps: seq<Step>, end: State)
    requires Reachable(st) && st.disconnects <= 1 && Run(st, steps, end)
    ensures end.disconnects <= 1 <==> TellsOnce(st, steps)
  {
    ReachableInv(st);
    OnceIff(st, steps, end);
  }

  // ---- runs that show it ----

  lemma {:induction false} RunSnoc(st: State, steps: seq<Step>, mid: State, step: Step)
    requires Run(st, steps, mid) && Enabled(mid, step)
    ensures Run(st, steps + [step], Next(mid, step))
    decreases |steps|
  {
    if steps == [] {
      assert [step][1..] == [];
      assert steps + [step] == [step];
    } else {
      assert (steps + [step])[1..] == steps[1..] + [step];
      RunSnoc(Next(st, steps[0]), steps[1..], mid, step);
    }
  }

  lemma OneMore(st: State, step: Step)
    requires Reachable(st) && Enabled(st, step)
    ensures Reachable(Next(st, step))
  {
    var steps :| Run(START, steps, st);
    RunSnoc(START, steps, st, step);
  }

  /** Any number of callbacks can be lost so. */
  lemma AnyNumberUncalled(n: nat)
    ensures exists st :: Reachable(st) && st.closed && |st.callbacks| == n && !MayFire(st)
  {
    var open := Listed(n);
    OneMore(open, ReplyFails);
    var st := Next(open, ReplyFails);
    FiresIff(st);
  }

  lemma {:induction false} Listed(n: nat) returns (st: State)
    ensures Reachable(st) && !st.closed && |st.callbacks| == n && st.fires == 0 && st.pcs == []
    ensures st.attached && st.handlers && st.workers == {} && st.registered == n && (n > 0 ==> st.callbacks[0] == 0)
  {
    if n == 0 {
      st := START;
      assert Run(START, [], START);
    } else {
      var fewer := Listed(n - 1);
      OneMore(fewer, Register);
      st := Next(fewer, Register);
    }
  }

  lemma BothTest() returns (st: State)
    ensures Reachable(st) && st.pcs == [Disconnecting, Disconnecting] && st.attached
    ensures st.disconnects == 0 && st.raises == 0
  {
    assert Run(START, [], START);
    OneMore(START, PeerCloses(false));
    var s1 := Next(START, PeerCloses(false));
    OneMore(s1, PeerCloses(false));
    var s2 := Next(s1, PeerCloses(false));
    assert s2.pcs == [Testing, Testing];
    OneMore(s2, Test(0));
    var s3 := Next(s2, Test(0));
    OneMore(s3, Test(1));
    st := Next(s3, Test(1));
  }

  lemma WorkerTeardown() returns (st: State)
    ensures Reachable(st) && st.closed && !st.attached && st.handlers && st.pcs == [Deleting] && st.workers == {0}
    ensures st.callbacks == [0] && st.fires == 0
  {
    var s0 := Listed(1);
    OneMore(s0, PeerCloses(true));
    var s1 := Next(s0, PeerCloses(true));
    assert s1.pcs == [Testing] && s1.workers == {0};
    OneMore(s1, Test(0));
    var s2 := Next(s1, Test(0));
    assert s2.pcs == [Disconnecting];
    OneMore(s2, Disconnect(0, false));
    var s3 := Next(s2, Disconnect(0, false));
    assert s3.pcs == [Detaching];
    OneMore(s3, Detach(0));
    st := Next(s3, Detach(0));
  }

  /** A teardown on a thread of the executor, which the shutdown ends: the connection is closed and taken apart, the
      registered callback is still listed, and no run without the peer calls it. */
  lemma WorkerTeardownNotifiesNobody()
    ensures exists st :: Reachable(st) && st.closed && !st.attached && !st.handlers && st.pcs == [Out]
                         && st.callbacks == [0] && !MayFire(st)
  {
    var s0 := WorkerTeardown();
    OneMore(s0, Delete(0));
    var s1 := Next(s0, Delete(0));
    assert s1.pcs == [ShuttingDown];
    OneMore(s1, Shutdown(0));
    var st := Next(s1, Shutdown(0));
    assert st.pcs == [Out];
    FiresIff(st);
  }

  /** Two threads tearing down at once both find the service attached, and both tell it. */
  lemma TwoTeardownsTellTwice()
    ensures exists st :: Reachable(st) && st.disconnects == 2 && st.raises == 0
  {
    var both := BothTest();
    OneMore(both, Disconnect(0, false));
    var once := Next(both, Disconnect(0, false));
    OneMore(once, Disconnect(1, false));
    assert Next(once, Disconnect(1, false)).disconnects == 2;
  }

  lemma FirstRaises() returns (st: State)
    ensures Reachable(st) && st.pcs == [Out] && st.attached && st.disconnects == 1 && st.raises == 1
  {
    assert Run(START, [], START);
    OneMore(START, PeerCloses(false));
    var s1 := Next(START, PeerCloses(false));
    OneMore(s1, Test(0));
    var s2 := Next(s1, Test(0));
    OneMore(s2, Disconnect(0, true));
    st := Next(s2, Disconnect(0, true));
  }

  /** A service whose `on_disconnect` raises stays attached, and the next teardown tells it again. */
  lemma RaisingTellsTwice()
    ensures exists st :: Reachable(st) && st.disconnects == 2 && st.raises == 1
  {
    var once := FirstRaises();
    OneMore(once, PeerCloses(false));
    var s1 := Next(once, PeerCloses(false));
    assert s1.pcs == [Out, Testing];
    OneMore(s1, Test(1));
    var s2 := Next(s1, Test(1));
    OneMore(s2, Disconnect(1, false));
    assert Next(s2, Disconnect(1, false)).disconnects == 2;
  }

  // ---- one thread on its own ----

  function AllCalled(st: State, t: nat): State
    requires t < |st.pcs|
  {
    Move(st, t, Calling([])).(fired := st.fired + Batch(st.pcs[t]))
  }

  /** An activation that calls its whole batch undisturbed. */
  lemma {:induction false} CallsAll(st: State, t: nat)
    requires t < |st.pcs| && st.pcs[t].Calling?
    ensures exists steps :: Own(steps, t) && Run(st, steps, AllCalled(st, t))
    decreases |Batch(st.pcs[t])|
  {
    var batch, end := st.pcs[t].batch, AllCalled(st, t);
    if batch == [] {
      assert st.fired + batch == st.fired;
      assert st == end && Run(st, [], end) && Own([], t);
    } else {
      var st' := Next(st, Call(t));
      CallsAll(st', t);
      MoveFirst(st.fired, batch);
      assert AllCalled(st', t) == end;
      var steps :| Own(steps, t) && Run(st', steps, end);
      OwnCons(st, Call(t), steps, end, t);
    }
  }

  class Notifier {
    var closed: bool
    var callbacks: seq<nat>
    var fired: seq<nat>

    constructor ()
      ensures Shows(START)
    {
      closed, callbacks, fired := false, [], [];
    }

    ghost predicate Shows(st: State)
      reads this
    {
      closed == st.closed && callbacks == st.callbacks && fired == st.fired
    }

    /** The registration step, and on a closed connection the call that follows it. */
    method AddCloseCallback(k: nat, ghost st: State)
      requires Shows(st) && k == st.registered
      modifies this`callbacks, this`fired
      ensures var listed := Next(st, Register);
              Shows(if st.closed then Next(listed, Call(|st.pcs|)) else listed)
    {
      if !closed {
        callbacks := callbacks + [k];
        return;
      }
      fired := fired + [k];
    }

    /** The list is taken, and the callbacks called in the order of registration. */
    method FireCloseNotifications(ghost st: State, ghost t: nat)
      requires Shows(st) && Enabled(st, Take(t))
      modifies this`callbacks, this`fired
      ensures callbacks == [] && fired == old(fired) + old(callbacks)
      ensures var end := AllCalled(Next(st, Take(t)), t);
              Shows(end) && exists steps :: Run(st, steps, end)
    {
      var batch := callbacks;
      callbacks := [];
      for i := 0 to |batch|
        invariant callbacks == [] && fired == old(fired) + batch[..i]
      {
        fired := fired + [batch[i]];
      }
      ghost var taken := Next(st, Take(t));
      CallsAll(taken, t);
      ghost var steps :| Run(taken, steps, AllCalled(taken, t));
      assert ([Take(t)] + steps)[1..] == steps;
      assert Run(st, [Take(t)] + steps, AllCalled(taken, t));
    }
  }
}
