/** Thread-bound serving as a step machine: the receiving thread, the pool, and where messages are. */
module ServeMachine {
  import opened Core

  /** The thread a message names. */
  datatype Dest = Unbound | Bound(id: nat)

  /** Where a thread is in `_serve_bound`; messages are numbered in the order they are read. */
  datatype PC =
    | Out
    | Waiting                          // entered the pool
    | Receiving                        // in the receive loop
    | Routing(msg: nat, dest: Dest)    // in the receive loop, with a message just read
    | Dispatching(msg: nat)            // about to dispatch a message
    | Adopting                         // a temporary thread that has appended its message, its event still to be set

  /** `given` is what the thread was ever given, `done` what it has dispatched. */
  datatype Thread = Thread(pc: PC, event: bool, deque: seq<nat>, occupation: nat, given: seq<nat>, done: seq<nat>) {
    predicate InLoop() {
      pc.Receiving? || pc.Routing?
    }

    function Given(m: nat): Thread {
      this.(deque := deque + [m], given := given + [m], event := true)
    }

    /** Takes the first message of the deque; the event stays set while there are more. */
    function Popped(): Thread
      requires deque != []
    {
      this.(pc := Dispatching(deque[0]), deque := deque[1..], event := |deque| > 1)
    }
  }

  /** A thread record exists for every id from the start. `submitted` are the messages of temporary threads not yet
      running, `lost` those too short to carry the two thread ids or refused by an executor that was shut down;
      `departed` says that some thread's wait timed out, which leaves it in the pool, `failed` that the channel raised,
      and `aborted` counts how often closing the connection after that raised as well. `bound` says which thread a
      message named, if it named one. */
  datatype State = State(threads: seq<Thread>, pool: seq<nat>, receiving: bool, received: nat,
                         submitted: seq<nat>, lost: seq<nat>, departed: bool, failed: bool,
                         aborted: nat, bound: map<nat, nat>) {
    function With(t: nat, th: Thread): State
      requires t < |threads|
    {
      this.(threads := threads[t := th])
    }

    function Give(u: nat, m: nat): State {
      if u < |threads| then With(u, threads[u].Given(m)) else this
    }

    function Wake(u: nat): State {
      if u < |threads| then With(u, threads[u].(event := true)) else this
    }

    /** Puts the baton down and wakes the first of the pool whose event is not set. */
    function HandOver(): State {
      match FirstUnset(threads, pool)
      case None => this.(receiving := false)
      case Some(u) => this.(receiving := false).Wake(u)
    }

  }

  function FirstUnset(threads: seq<Thread>, pool: seq<nat>): (r: Option<nat>)
    ensures r.None? ==> forall t | t in pool && t < |threads| :: threads[t].event
    ensures r.Some? ==> r.value in pool && r.value < |threads| && !threads[r.value].event
  {
    if pool == [] then None
    else if pool[0] < |threads| && !threads[pool[0]].event then Some(pool[0])
    else FirstUnset(threads, pool[1..])
  }

  /** The first of the pool that is not occupied and has nothing pending. */
  function FirstFree(threads: seq<Thread>, pool: seq<nat>): (r: Option<nat>)
    ensures r.None? ==> forall t | t in pool && t < |threads| :: threads[t].occupation != 0 || threads[t].event
    ensures r.Some? ==> r.value in pool && r.value < |threads|
                        && threads[r.value].occupation == 0 && !threads[r.value].event
  {
    if pool == [] then None
    else if pool[0] < |threads| && threads[pool[0]].occupation == 0 && !threads[pool[0]].event then Some(pool[0])
    else FirstFree(threads, pool[1..])
  }

  /** `list.remove`. */
  function Remove(pool: seq<nat>, t: nat): seq<nat> {
    if pool == [] then [] else if pool[0] == t then pool[1..] else [pool[0]] + Remove(pool[1..], t)
  }

  datatype Step =
    | Enter(t: nat)              // the first section under the lock
    | Check(t: nat)              // in the pool: the wait ended, or timed out
    | Timeout(t: nat)            // the channel had nothing in time
    | Fail(t: nat)               // the channel raised
    | CloseRaises(t: nat)        // the channel was at its end, and closing the connection raised in turn
    | Recv(t: nat, dest: Dest)
    | Short(t: nat)              // a message of fewer than 16 bytes: unpacking its thread ids raises
    | Route(t: nat)
    | SubmitFails(t: nat)        // the executor that should run a temporary thread was shut down
    | Dispatch(t: nat)           // from here on the thread may serve again, nested
    | Adopt(t: nat, i: nat)
    | SetEvent(t: nat)
    | Occupy(t: nat, n: nat)

  function Start(threads: nat): State {
    State(seq(threads, i => Thread(Out, false, [], 0, [], [])), [], false, 0, [], [], false, false, 0, map[])
  }

  predicate Enabled(st: State, step: Step) {
    && step.t < |st.threads|
    && var pc := st.threads[step.t].pc;
       match step
       case Enter(_) => pc.Out?
       case Check(_) => pc.Waiting?
       case Timeout(_) => pc.Receiving?
       case Fail(_) => pc.Receiving?
       case CloseRaises(_) => pc.Receiving?
       case Recv(_, dest) => pc.Receiving? && (dest.Bound? ==> dest.id < |st.threads|)
       case Short(_) => pc.Receiving?
       case Route(_) => pc.Routing? && (pc.dest.Bound? ==> pc.dest.id < |st.threads|)
       case SubmitFails(_) =>
         pc.Routing? && pc.dest.Unbound? && st.threads[step.t].occupation != 0 && FirstFree(st.threads, st.pool).None?
       case Dispatch(_) => pc.Dispatching?
       case Adopt(_, i) => pc.Out? && i < |st.submitted|
       case SetEvent(_) => pc.Adopting?
       case Occupy(_, _) => pc.Out?
  }

  function Next(st: State, step: Step): State
    requires Enabled(st, step)
  {
    var t := step.t;
    var th := st.threads[t];
    match step
    case Enter(_) =>
      if th.event && th.deque != [] then st.With(t, th.Popped())
      else if st.receiving then st.With(t, th.(pc := Waiting)).(pool := st.pool + [t])
      else st.With(t, th.(pc := Receiving)).(receiving := true)
    case Check(_) =>
      if !th.event then st.With(t, th.(pc := Out)).(departed := true)
      else if th.deque != [] then st.With(t, th.Popped()).(pool := Remove(st.pool, t))
      else if st.receiving then st.With(t, th.(event := false))
      else st.With(t, th.(event := false, pc := Receiving)).(receiving := true, pool := Remove(st.pool, t))
    case Timeout(_) => st.With(t, th.(pc := Out)).HandOver()
    case Fail(_) =>
      var out := st.With(t, th.(pc := Out)).(receiving := false, failed := true);
      if st.pool == [] then out else out.Wake(st.pool[0])
    case CloseRaises(_) => st.With(t, th.(pc := Out)).(failed := true, aborted := st.aborted + 1)
    case Recv(_, dest) =>
      st.With(t, th.(pc := Routing(st.received, dest)))
        .(received := st.received + 1, bound := if dest.Bound? then st.bound[st.received := dest.id] else st.bound)
    case Short(_) => st.With(t, th.(pc := Out)).(lost := st.lost + [st.received], received := st.received + 1)
    case Route(_) => RouteMessage(st, t, th.pc.msg, th.pc.dest)
    case SubmitFails(_) => st.With(t, th.(pc := Out)).(lost := st.lost + [th.pc.msg])
    case Dispatch(_) => st.With(t, th.(pc := Out, done := th.done + [th.pc.msg]))
    case Adopt(_, i) =>
      var m := st.submitted[i];
      st.With(t, th.(pc := Adopting, deque := th.deque + [m], given := th.given + [m]))
        .(submitted := Without(st.submitted, i))
    case SetEvent(_) => st.With(t, th.(pc := Out, event := true))
    case Occupy(_, n) => st.With(t, th.(occupation := n))
  }

  /** What the receiver does with a message, by the thread it names and its own occupation. */
  function RouteMessage(st: State, t: nat, m: nat, dest: Dest): State
    requires t < |st.threads|
  {
    if dest.Unbound? && st.threads[t].occupation != 0 then RouteToPool(st, t, m)
    else if dest.Unbound? || dest.id == t then Keep(st, t, m)
    else GoOn(st, t).Give(dest.id, m)
  }

  function GoOn(st: State, t: nat): State
    requires t < |st.threads|
  {
    st.With(t, st.threads[t].(pc := Receiving))
  }

  function RouteToPool(st: State, t: nat, m: nat): State
    requires t < |st.threads|
  {
    match FirstFree(st.threads, st.pool)
    case Some(u) => GoOn(st, t).Give(u, m)
    case None => GoOn(st, t).(submitted := st.submitted + [m])
  }

  function Keep(st: State, t: nat, m: nat): State
    requires t < |st.threads|
  {
    var th := st.threads[t];
    st.With(t, th.(pc := Dispatching(m), given := th.given + [m])).HandOver()
  }

  ghost predicate Run(st: State, steps: seq<Step>, end: State)
    decreases |steps|
  {
    if steps == [] then st == end
    else Enabled(st, steps[0]) && Run(Next(st, steps[0]), steps[1..], end)
  }

  ghost predicate Reachable(threads: nat, st: State) {
    exists steps :: Run(Start(threads), steps, st)
  }

  // ---- what is kept, and what can go wrong ----

  function Hand(pc: PC): seq<nat> {
    if pc.Dispatching? then [pc.msg] else []
  }

  /** A thread dispatches what it is given in the order it is given; whoever has a message pending is signalled;
      the receiver has nothing pending. */
  predicate ThreadInv(th: Thread) {
    && th.given == th.done + Hand(th.pc) + th.deque
    && (th.deque != [] ==> th.event || th.pc.Adopting?)
    && (th.InLoop() ==> th.deque == [])
  }

  ghost predicate ThreadsInv(st: State) {
    forall i | 0 <= i < |st.threads| :: ThreadInv(st.threads[i])
  }

  function LoopWeight(): Thread -> nat {
    (th: Thread) => if th.InLoop() then 1 else 0
  }

  function Baton(receiving: bool): nat {
    if receiving then 1 else 0
  }

  /** The flag is set for one thread in the receive loop, or for a lost message or an aborted closing that nobody
      cleared it after. */
  predicate BatonInv(st: State) {
    Sum(st.threads, LoopWeight()) + |st.lost| + st.aborted == Baton(st.receiving)
  }

  function InLoop(st: State): nat {
    Sum(st.threads, LoopWeight())
  }

  /** The flag says that somebody receives, and nobody does. */
  predicate Jammed(st: State) {
    st.receiving && InLoop(st) == 0
  }

  /** Given to the thread, or in its hands to be routed. */
  function Place(m: nat): Thread -> nat {
    (th: Thread) => Copies(th.given, m) + InTransit(th.pc, m)
  }

  function InTransit(pc: PC, m: nat): nat {
    if pc.Routing? && pc.msg == m then 1 else 0
  }

  function Places(st: State, m: nat): nat {
    Sum(st.threads, Place(m)) + Copies(st.submitted, m) + Copies(st.lost, m)
  }

  function Read(st: State, m: nat): nat {
    if m < st.received then 1 else 0
  }

  /** A message that was read is in exactly one place. */
  predicate MessageInv(st: State, m: nat) {
    Places(st, m) == Read(st, m)
  }

  /** What is known of a thread's messages: the one being routed goes where it says, and what the thread was given named
      it, if it named a thread. */
  ghost predicate DestOk(bound: map<nat, nat>, received: nat, t: nat, th: Thread) {
    && (th.pc.Routing? ==> th.pc.msg < received && (th.pc.dest.Bound? <==> th.pc.msg in bound)
                           && (th.pc.dest.Bound? ==> bound[th.pc.msg] == th.pc.dest.id))
    && forall m | m in th.given :: m < received && (m in bound ==> bound[m] == t)
  }

  /** Messages that name a thread are given to no other, and neither submitted to the executor nor lost. */
  ghost predicate DestInv(st: State) {
    && (forall m | m in st.bound :: m < st.received && st.bound[m] < |st.threads|)
    && (forall t | 0 <= t < |st.threads| :: DestOk(st.bound, st.received, t, st.threads[t]))
    && (forall m | m in st.submitted :: m < st.received && m !in st.bound)
    && (forall m | m in st.lost :: m < st.received && m !in st.bound)
  }

  predicate NoRepeat(pool: seq<nat>) {
    pool == [] || (pool[0] !in pool[1..] && NoRepeat(pool[1..]))
  }

  ghost predicate Pooled(st: State) {
    forall t | 0 <= t < |st.threads| && st.threads[t].pc.Waiting? :: t in st.pool
  }

  /** The pool holds nobody but the waiting threads, each once. */
  ghost predicate PoolExact(st: State) {
    NoRepeat(st.pool) && forall t | t in st.pool :: t < |st.threads| && st.threads[t].pc.Waiting?
  }

  ghost predicate PoolInv(st: State) {
    Pooled(st) && (!st.departed ==> PoolExact(st))
  }

  predicate Asleep(st: State, t: nat) {
    t < |st.threads| && st.threads[t].pc.Waiting? && !st.threads[t].event
  }

  /** A thread of the pool that will take the baton as soon as it runs. */
  predicate Carrier(st: State, t: nat) {
    t < |st.threads| && st.threads[t].pc.Waiting? && st.threads[t].event && st.threads[t].deque == []
  }

  /** A thread sleeps, nobody receives and nobody is woken to. */
  ghost predicate Stalled(st: State) {
    !st.receiving && (exists t :: Asleep(st, t)) && forall t :: !Carrier(st, t)
  }

  ghost predicate Inv(st: State) {
    BatonInv(st) && ThreadsInv(st) && PoolInv(st) && forall m :: MessageInv(st, m)
  }

  /** The receiver keeps the message it has read for itself. */
  predicate Keeps(st: State, t: nat)
    requires Enabled(st, Route(t))
  {
    var dest := st.threads[t].pc.dest;
    (dest.Unbound? && st.threads[t].occupation == 0) || dest == Bound(t)
  }

  /** The receiver leaves the loop and puts the baton down. */
  predicate PutsDown(st: State, step: Step)
    requires Enabled(st, step)
  {
    step.Timeout? || step.Fail? || (step.Route? && Keeps(st, step.t))
  }

  /** The thread it wakes: after an exception the first of the pool, otherwise the first whose event is not set. */
  function Heir(st: State, step: Step): Option<nat> {
    if step.Fail? then if st.pool == [] then None else Some(st.pool[0]) else FirstUnset(st.threads, st.pool)
  }

  /** The wake-up is for a thread that sleeps. */
  predicate WakesSleeper(st: State, step: Step) {
    Heir(st, step).Some? && Asleep(st, Heir(st, step).value)
  }

  // ---- what one step changes ----

  /** A member of the pool that is not occupied and has nothing pending. */
  predicate Free(st: State, u: nat) {
    u < |st.threads| && u in st.pool && st.threads[u].occupation == 0 && !st.threads[u].event
  }

  /** The receiver goes on receiving, another thread is given the message and signalled, and nothing else changes. */
  predicate Handed(st: State, st': State, t: nat, u: nat, m: nat) {
    && t < |st.threads| && u < |st.threads| && |st'.threads| == |st.threads| && t != u
    && st'.threads[t] == st.threads[t].(pc := Receiving)
    && st'.threads[u].given == st.threads[u].given + [m] && st'.threads[u].deque == st.threads[u].deque + [m]
    && st'.threads[u].event && st'.threads[u].pc == st.threads[u].pc && st'.threads[u].done == st.threads[u].done
    && (forall w | 0 <= w < |st.threads| && w != t && w != u :: st'.threads[w] == st.threads[w])
    && st'.pool == st.pool && st'.submitted == st.submitted && st'.receiving == st.receiving
  }

  /** The steps that touch no other thread's record. */
  predicate OwnStep(step: Step) {
    !step.Timeout? && !step.Fail? && !step.Route?
  }

  /** What one thread and the two lists hold of a message changes only as messages are read. */
  predicate Balanced(st: State, st': State, t: nat, m: nat)
    requires t < |st.threads| && t < |st'.threads|
  {
    Place(m)(st'.threads[t]) + Copies(st'.submitted, m) + Copies(st'.lost, m) + Read(st, m)
    == Place(m)(st.threads[t]) + Copies(st.submitted, m) + Copies(st.lost, m) + Read(st', m)
  }

  /** The steps that read no message leave alone what was read. */
  predicate SameRead(st: State, st': State) {
    st'.bound == st.bound && st'.received == st.received && |st'.threads| == |st.threads|
  }

  /** A record that is the same but perhaps signalled. */
  predicate Woken(th: Thread, th': Thread) {
    th' == th || th' == th.(event := true)
  }

  ghost predicate ListsOk(st: State) {
    && (forall m | m in st.submitted :: m < st.received && m !in st.bound)
    && (forall m | m in st.lost :: m < st.received && m !in st.bound)
    && (forall m | m in st.bound :: m < st.received && st.bound[m] < |st.threads|)
  }

  /** Steps that leave the pool and everybody's being in it alone. */
  ghost predicate SamePool(st: State, st': State) {
    && st'.pool == st.pool && st'.departed == st.departed && |st'.threads| == |st.threads|
    && forall i | 0 <= i < |st.threads| :: st'.threads[i].pc.Waiting? <==> st.threads[i].pc.Waiting?
  }

  // ---- the states of the example runs ----

  function Quiet(pc: PC): Thread {
    Thread(pc, false, [], 0, [], [])
  }

  function Three(a: PC, b: PC, c: PC, pool: seq<nat>, receiving: bool, departed: bool): State {
    State([Quiet(a), Quiet(b), Quiet(c)], pool, receiving, 0, [], [], departed, false, 0, map[])
  }

  /** The first thread receives again, after passing a message on to the second. */
  const SERVED :=
    State([Quiet(Receiving), Quiet(Waiting).Given(0), Quiet(Waiting)], [1, 2], true, 1, [], [], false, false, 0,
          map[0 := 1])
}
