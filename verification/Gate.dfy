/** Backpressure on inbound asynchronous requests: the gate, the tasks it lets through, and the quarantine. */
module Gate {
  import opened Core

  /** What a request asks for: a plain handler, a plain handler that returns a coroutine, or an asynchronous one. */
  datatype Kind = Plain | LateCoroutine | Asynchronous

  /** What becomes of a request. Without an event loop, a coroutine is answered with an error, and an asynchronous
      request raises in the dispatching thread and gets no reply; nor does a dropped one. */
  datatype Verdict = Served | Accepted | Refused | Raised | Dropped

  /** `max_inbound_inflight`, zero for no limit, and whether an event loop serves the connection. */
  datatype Settings = Settings(limit: nat, asyncio: bool)

  /** Requests are numbered in the order they are dispatched. An accepted one waits for the loop to create its
      task, runs, and finishes; `inflight` is the counter the gate reads, `peak` the most that ever waited. */
  datatype State = State(log: seq<Verdict>, waiting: seq<nat>, running: seq<nat>, finished: seq<nat>, inflight: int,
                         quarantined: bool, peak: nat)

  const START := State([], [], [], [], 0, false, 0)

  datatype Step =
    | Dispatch(kind: Kind)
    | Begin              // the loop runs the next scheduled callback
    | Finish(i: nat)     // a task returns, raises or is cancelled

  predicate Enabled(st: State, step: Step) {
    match step
    case Dispatch(_) => true
    case Begin => st.waiting != []
    case Finish(i) => i < |st.running|
  }

  /** The gate's decision. */
  function Decide(c: Settings, st: State, kind: Kind): Verdict {
    if kind.Plain? then Served
    else if !c.asyncio then if kind.LateCoroutine? then Refused else Raised
    else if st.quarantined || (c.limit > 0 && st.inflight >= c.limit) then Dropped
    else Accepted
  }

  function Max(a: nat, b: nat): nat {
    if a >= b then a else b
  }

  function Next(c: Settings, st: State, step: Step): State
    requires Enabled(st, step)
  {
    match step
    case Dispatch(kind) =>
      var v := Decide(c, st, kind);
      var waiting := if v.Accepted? then st.waiting + [|st.log|] else st.waiting;
      st.(log := st.log + [v], waiting := waiting, quarantined := st.quarantined || v.Dropped?,
          peak := Max(st.peak, |waiting|))
    case Begin =>
      st.(waiting := st.waiting[1..], running := st.running + [st.waiting[0]], inflight := st.inflight + 1)
    case Finish(i) =>
      st.(running := Without(st.running, i), finished := st.finished + [st.running[i]], inflight := st.inflight - 1)
  }

  ghost predicate Run(c: Settings, st: State, steps: seq<Step>, end: State)
    decreases |steps|
  {
    if steps == [] then st == end
    else Enabled(st, steps[0]) && Run(c, Next(c, st, steps[0]), steps[1..], end)
  }

  ghost predicate Reachable(c: Settings, st: State) {
    exists steps :: Run(c, START, steps, st)
  }

  // ---- invariants ----

  function Places(st: State, n: nat): nat {
    Copies(st.waiting, n) + Copies(st.running, n) + Copies(st.finished, n)
  }

  function AcceptedAt(st: State, n: nat): nat {
    if n < |st.log| && st.log[n].Accepted? then 1 else 0
  }

  /** An accepted request is in one place, any other in none. */
  predicate PlaceInv(st: State, n: nat) {
    Places(st, n) == AcceptedAt(st, n)
  }

  predicate CountInv(c: Settings, st: State) {
    && st.inflight == |st.running|
    && |st.waiting| <= st.peak
    && (c.limit > 0 && st.peak > 0 ==> st.inflight + |st.waiting| <= c.limit - 1 + st.peak)
    && (st.peak == 0 ==> st.inflight == 0)
  }

  function IsAccepted(): Verdict -> nat {
    (v: Verdict) => if v.Accepted? then 1 else 0
  }

  predicate TotalInv(st: State) {
    Sum(st.log, IsAccepted()) == |st.waiting| + |st.running| + |st.finished|
  }

  ghost predicate LogInv(st: State) {
    && (st.quarantined <==> Dropped in st.log)
    && forall i, j | 0 <= i < j < |st.log| && st.log[i].Dropped? :: !st.log[j].Accepted?
  }

  lemma StepKeepsPlace(c: Settings, st: State, step: Step, n: nat)
    requires PlaceInv(st, n) && Enabled(st, step)
    ensures PlaceInv(Next(c, st, step), n)
  {
    match step
    case Dispatch(kind) => SumSnoc<nat>(st.waiting, |st.log|, Is(n));
    case Begin => SumSnoc(st.running, st.waiting[0], Is(n));
    case Finish(i) =>
      SumWithout(st.running, i, Is(n));
      SumSnoc(st.finished, st.running[i], Is(n));
  }

  lemma StepKeepsTotal(c: Settings, st: State, step: Step)
    requires TotalInv(st) && Enabled(st, step)
    ensures TotalInv(Next(c, st, step))
  {
    if step.Dispatch? {
      SumSnoc(st.log, Decide(c, st, step.kind), IsAccepted());
    }
  }

  lemma StepKeepsCounts(c: Settings, st: State, step: Step)
    requires CountInv(c, st) && Enabled(st, step)
    ensures CountInv(c, Next(c, st, step))
  {
  }

  ghost predicate Inv(c: Settings, st: State) {
    CountInv(c, st) && TotalInv(st) && LogInv(st) && forall n :: PlaceInv(st, n)
  }

  lemma {:induction false} RunKeepsInv(c: Settings, st: State, steps: seq<Step>, end: State)
    requires Inv(c, st) && Run(c, st, steps, end)
    ensures Inv(c, end)
    decreases |steps|
  {
    if steps != [] {
      forall n ensures PlaceInv(Next(c, st, steps[0]), n) {
        StepKeepsPlace(c, st, steps[0], n);
      }
      StepKeepsTotal(c, st, steps[0]);
      StepKeepsCounts(c, st, steps[0]);
      RunKeepsInv(c, Next(c, st, steps[0]), steps[1..], end);
    }
  }

  lemma ReachableInv(c: Settings, st: State)
    requires Reachable(c, st)
    ensures Inv(c, st)
  {
    var steps :| Run(c, START, steps, st);
    RunKeepsInv(c, START, steps, st);
  }

  // ---- the main results ----

  /** The counter counts the running tasks, and with the waiting ones makes up what was accepted and has not
      finished; each accepted request is in one of the three places, no other is in any. */
  lemma AcceptedAreAccountedFor(c: Settings, st: State, n: nat)
    requires Reachable(c, st)
    ensures st.inflight + |st.waiting| == Sum(st.log, IsAccepted()) - |st.finished| && st.inflight == |st.running|
    ensures Places(st, n) == if n < |st.log| && st.log[n].Accepted? then 1 else 0
  {
    ReachableInv(c, st);
    assert PlaceInv(st, n);
  }

  /** The gate reads a counter that rises only when a task begins, so a burst gets past it: no more than the
      largest number ever waiting, on top of what the limit admits. */
  lemma Bounded(c: Settings, st: State)
    requires Reachable(c, st) && c.limit > 0
    ensures st.inflight + |st.waiting| <= c.limit - 1 + st.peak
    ensures st.inflight <= c.limit - 1 + st.peak
  {
    ReachableInv(c, st);
  }

  /** With an event loop, a request for a coroutine is accepted exactly when nothing was dropped before and fewer tasks
      run than the limit, or there is no limit; otherwise it is dropped, and the connection is in quarantine. */
  lemma AcceptedIff(c: Settings, st: State, kind: Kind)
    requires Reachable(c, st) && c.asyncio && !kind.Plain?
    ensures var st', n := Next(c, st, Dispatch(kind)), |st.log|;
            && |st'.log| == n + 1 && st'.log[..n] == st.log && (st'.log[n].Accepted? || st'.log[n].Dropped?)
            && (st'.log[n].Accepted? <==> Dropped !in st.log && (c.limit == 0 || |st.running| < c.limit))
            && st'.waiting == (if st'.log[n].Accepted? then st.waiting + [n] else st.waiting)
            && (st'.quarantined <==> Dropped in st'.log)
            && st'.running == st.running && st'.finished == st.finished && st'.inflight == st.inflight
  {
    ReachableInv(c, st);
    assert LogInv(Next(c, st, Dispatch(kind)));
  }

  /** A plain request is served in any case; without an event loop a coroutine is refused and an asynchronous request
      raises. Nothing else changes. */
  lemma OtherVerdicts(c: Settings, st: State, kind: Kind)
    requires Reachable(c, st) && (kind.Plain? || !c.asyncio)
    ensures var verdict := match kind case Plain => Served case LateCoroutine => Refused case Asynchronous => Raised;
            Next(c, st, Dispatch(kind)) == st.(log := st.log + [verdict])
  {
    ReachableInv(c, st);
  }

  /** Without a limit, and without an event loop, nothing is ever dropped and nothing quarantined. */
  lemma UnlimitedNeverDrops(c: Settings, st: State)
    requires Reachable(c, st) && (c.limit == 0 || !c.asyncio)
    ensures !st.quarantined && Dropped !in st.log
  {
    ReachableInv(c, st);
    var steps :| Run(c, START, steps, st);
    RunNeverDrops(c, START, steps, st);
  }

  lemma {:induction false} RunNeverDrops(c: Settings, st: State, steps: seq<Step>, end: State)
    requires (c.limit == 0 || !c.asyncio) && !st.quarantined && Run(c, st, steps, end)
    ensures !end.quarantined
    decreases |steps|
  {
    if steps != [] {
      RunNeverDrops(c, Next(c, st, steps[0]), steps[1..], end);
    }
  }

  /** Quarantine is for good: from the first dropped request on no request is accepted, and being quarantined
      means having dropped one. */
  lemma QuarantineIsForGood(c: Settings, st: State, i: nat, j: nat)
    requires Reachable(c, st) && i < j < |st.log| && st.log[i].Dropped?
    ensures st.quarantined && !st.log[j].Accepted?
  {
    ReachableInv(c, st);
  }

  lemma {:induction false} LogGrows(c: Settings, st: State, steps: seq<Step>, end: State)
    requires Run(c, st, steps, end)
    ensures st.log <= end.log && (st.quarantined ==> end.quarantined)
    decreases |steps|
  {
    if steps != [] {
      LogGrows(c, Next(c, st, steps[0]), steps[1..], end);
    }
  }

  /** Once quarantined, whatever happens, a plain request is served and any other is not accepted. */
  lemma QuarantinedServesPlain(c: Settings, st: State, steps: seq<Step>, end: State, kind: Kind)
    requires st.quarantined && Run(c, st, steps, end)
    ensures var log := Next(c, end, Dispatch(kind)).log;
            |log| == |end.log| + 1 && (kind.Plain? ==> log[|end.log|].Served?)
            && (!kind.Plain? ==> if c.asyncio then log[|end.log|].Dropped?
                                 else log[|end.log|].Refused? || log[|end.log|].Raised?)
  {
    LogGrows(c, st, steps, end);
  }

  // ---- the bound is reached ----

  lemma {:induction false} RunSnoc(c: Settings, st: State, steps: seq<Step>, mid: State, step: Step)
    requires Run(c, st, steps, mid) && Enabled(mid, step)
    ensures Run(c, st, steps + [step], Next(c, mid, step))
    decreases |steps|
  {
    if steps == [] {
      assert [step][1..] == [];
      assert steps + [step] == [step];
    } else {
      assert (steps + [step])[1..] == steps[1..] + [step];
      RunSnoc(c, Next(c, st, steps[0]), steps[1..], mid, step);
    }
  }

  lemma OneMore(c: Settings, st: State, step: Step)
    requires Reachable(c, st) && Enabled(st, step)
    ensures Reachable(c, Next(c, st, step))
  {
    var steps :| Run(c, START, steps, st);
    RunSnoc(c, START, steps, st, step);
  }

  /** Requests that come one by one fill the gate up to the limit. */
  lemma {:induction false} OneByOne(c: Settings, n: nat) returns (st: State)
    requires c.asyncio && c.limit > 0 && n < c.limit
    ensures Reachable(c, st) && !st.quarantined && st.inflight == n && st.waiting == [] && st.peak <= 1
  {
    if n == 0 {
      st := START;
      assert Run(c, START, [], START);
    } else {
      var fewer := OneByOne(c, n - 1);
      OneMore(c, fewer, Dispatch(Asynchronous));
      var asked := Next(c, fewer, Dispatch(Asynchronous));
      OneMore(c, asked, Begin);
      st := Next(c, asked, Begin);
    }
  }

  /** A burst of any size gets in while no task begins. */
  lemma {:induction false} Burst(c: Settings, s: nat) returns (st: State)
    requires c.asyncio && c.limit > 0 && s > 0
    ensures Reachable(c, st) && !st.quarantined && st.inflight == c.limit - 1 && |st.waiting| == s && st.peak == s
  {
    if s == 1 {
      var full := OneByOne(c, c.limit - 1);
      OneMore(c, full, Dispatch(Asynchronous));
      st := Next(c, full, Dispatch(Asynchronous));
    } else {
      var fewer := Burst(c, s - 1);
      OneMore(c, fewer, Dispatch(Asynchronous));
      st := Next(c, fewer, Dispatch(Asynchronous));
    }
  }

  lemma {:induction false} AllBegin(c: Settings, st: State) returns (end: State)
    requires Reachable(c, st)
    ensures Reachable(c, end) && end.waiting == [] && end.inflight == st.inflight + |st.waiting| && end.peak == st.peak
    decreases |st.waiting|
  {
    if st.waiting == [] {
      end := st;
    } else {
      OneMore(c, st, Begin);
      end := AllBegin(c, Next(c, st, Begin));
    }
  }

  /** For every limit and every burst size the bound is reached, by running tasks alone. */
  lemma BoundIsReached(c: Settings, s: nat)
    requires c.asyncio && c.limit > 0 && s > 0
    ensures exists st :: Reachable(c, st) && st.peak == s && st.inflight == c.limit - 1 + s
  {
    var burst := Burst(c, s);
    var st := AllBegin(c, burst);
  }

  /** The peak that the bound speaks of is a number of requests that did wait at once. */
  lemma PeakIsAttained(c: Settings, st: State)
    requires Reachable(c, st)
    ensures |st.waiting| <= st.peak && exists st0 :: Reachable(c, st0) && |st0.waiting| == st.peak
  {
    ReachableInv(c, st);
    var steps :| Run(c, START, steps, st);
    assert Run(c, START, [], START) && |START.waiting| == START.peak;
    RunAttains(c, START, steps, st);
  }

  lemma {:induction false} RunAttains(c: Settings, st: State, steps: seq<Step>, end: State)
    requires Reachable(c, st) && Run(c, st, steps, end)
    requires exists st0 :: Reachable(c, st0) && |st0.waiting| == st.peak
    ensures exists st0 :: Reachable(c, st0) && |st0.waiting| == end.peak
    decreases |steps|
  {
    if steps != [] {
      OneMore(c, st, steps[0]);
      var st' := Next(c, st, steps[0]);
      assert st'.peak == st.peak || |st'.waiting| == st'.peak;
      RunAttains(c, st', steps[1..], end);
    }
  }

  // ---- the connection's fields ----

  class InboundGate {
    const c: Settings
    var inflight: int
    var quarantined: bool
    var scheduled: seq<nat>
    var requestCallbacks: set<nat>

    constructor (c: Settings)
      ensures this.c == c && inflight == 0 && !quarantined && scheduled == [] && requestCallbacks == {}
    {
      this.c := c;
      inflight, quarantined, scheduled, requestCallbacks := 0, false, [], {};
    }

    ghost predicate Shows(st: State)
      reads this
    {
      inflight == st.inflight && quarantined == st.quarantined && scheduled == st.waiting
    }

    /** Serves plain requests; of the others those in quarantine are dropped, and one that finds as many in flight as the
        limit allows starts the quarantine, which clears the outstanding requests; any other is scheduled, behind those
        that are. A step of the machine. */
    method Dispatch(kind: Kind, number: nat, ghost st: State) returns (verdict: Verdict)
      requires Shows(st) && number == |st.log|
      modifies this`quarantined, this`scheduled, this`requestCallbacks
      ensures Shows(Next(c, st, Step.Dispatch(kind))) && Next(c, st, Step.Dispatch(kind)).log == st.log + [verdict]
      ensures verdict.Served? <==> kind.Plain?
      ensures verdict.Refused? <==> kind.LateCoroutine? && !c.asyncio
      ensures verdict.Raised? <==> kind.Asynchronous? && !c.asyncio
      ensures verdict.Accepted? <==>
                !kind.Plain? && c.asyncio && !old(quarantined) && (c.limit == 0 || old(inflight) < c.limit)
      ensures quarantined <==> old(quarantined) || verdict.Dropped?
      ensures scheduled == old(scheduled) + if verdict.Accepted? then [number] else []
      ensures requestCallbacks == if quarantined && !old(quarantined) then {} else old(requestCallbacks)
    {
      if kind.Plain? {
        return Served;
      }
      if !c.asyncio {
        return if kind.LateCoroutine? then Refused else Raised;
      }
      if quarantined {
        return Dropped;
      }
      if c.limit != 0 && inflight >= c.limit {
        EnterQuarantine();
        return Dropped;
      }
      scheduled := scheduled + [number];
      return Accepted;
    }

    method EnterQuarantine()
      modifies this`quarantined, this`requestCallbacks
      ensures quarantined && requestCallbacks == if old(quarantined) then old(requestCallbacks) else {}
    {
      if quarantined {
        return;
      }
      quarantined := true;
      requestCallbacks := {};
    }

    method Begin(ghost st: State)
      requires Shows(st) && scheduled != []
      modifies this`inflight, this`scheduled
      ensures Shows(Next(c, st, Step.Begin)) && inflight == old(inflight) + 1 && scheduled == old(scheduled)[1..]
      ensures Next(c, st, Step.Begin).running == st.running + [old(scheduled)[0]]
    {
      scheduled := scheduled[1..];
      inflight := inflight + 1;
    }

    method OnDone(ghost st: State, ghost i: nat)
      requires Shows(st) && i < |st.running|
      modifies this`inflight
      ensures Shows(Next(c, st, Finish(i))) && inflight == old(inflight) - 1
    {
      inflight := inflight - 1;
    }
  }
}
