/** Waking the task that returns dead proxies to their owner: enqueuers, the debounced signal and the event loop. */
module Wakeup {
  // Callbacks and the task share one thread, and a collection can run an enqueuer between any two of their steps; here
  // every step may interleave with every other.

  import opened Core

  /** An activation of `_enqueue_deletion`, after its item was put. */
  datatype Enqueuer =
    | Looking     // about to read the event and the loop
    | Checking    // about to test the pending flag
    | Setting     // saw it clear, about to set it
    | Scheduling  // about to hand the callback to the loop
    | Done

  /** The cleanup task. */
  datatype Task =
    | Absent
    | Testing               // at the top of its loop
    | Waiting               // in the wait on the event
    | Woken                 // the wait is over, the event still to be cleared
    | Draining(batch: nat)  // emptying the queue
    | Acking(left: nat)     // sending, each time waiting for the acknowledgment

  /** A queued deletion is fresh if it was put while the task ran. `soon` counts callbacks handed to the loop,
      `timers` armed debounce timers; a firing callback has cleared the flag and not yet set the event. */
  datatype State = State(queue: seq<bool>, enqueuers: seq<Enqueuer>, pending: bool, soon: nat, timers: nat,
                         firing: bool, event: bool, task: Task)

  const START := State([], [], false, 0, 0, false, false, Absent)

  datatype Step =
    | Start
    | Put
    | Look(e: nat)
    | Check(e: nat)
    | Set(e: nat)
    | Schedule(e: nat)
    | RunSoon
    | TimerFires
    | SetEvent
    | Await
    | Wake
    | Clear
    | Drain(keys: nat)
    | Ack
    | Fail

  predicate At(st: State, e: nat, pc: Enqueuer) {
    e < |st.enqueuers| && st.enqueuers[e] == pc
  }

  predicate Enabled(st: State, step: Step) {
    match step
    case Start => st.task.Absent?
    case Put => true
    case Look(e) => At(st, e, Looking)
    case Check(e) => At(st, e, Checking)
    case Set(e) => At(st, e, Setting)
    case Schedule(e) => At(st, e, Scheduling)
    case RunSoon => st.soon > 0 && !st.firing
    case TimerFires => st.timers > 0 && !st.firing
    case SetEvent => st.firing
    case Await => st.task.Testing?
    case Wake => st.task.Waiting? && st.event
    case Clear => st.task.Woken?
    case Drain(keys) => st.task.Draining? && (st.queue != [] || keys <= st.task.batch)
    case Ack => st.task.Acking?
    case Fail => st.task.Acking?
  }

  function Move(st: State, e: nat, pc: Enqueuer): State
    requires e < |st.enqueuers|
  {
    st.(enqueuers := st.enqueuers[e := pc])
  }

  function Next(debounce: bool, st: State, step: Step): State
    requires Enabled(st, step)
  {
    match step
    case Start => st.(task := Testing)
    case Put => st.(queue := st.queue + [!st.task.Absent?], enqueuers := st.enqueuers + [Looking])
    case Look(e) => Move(st, e, if st.task.Absent? then Done else Checking)
    case Check(e) => Move(st, e, if st.pending then Done else Setting)
    case Set(e) => Move(st, e, Scheduling).(pending := true)
    case Schedule(e) => Move(st, e, Done).(soon := st.soon + 1)
    case RunSoon =>
      if debounce then st.(soon := st.soon - 1, timers := st.timers + 1)
      else st.(soon := st.soon - 1, pending := false, firing := true)
    case TimerFires => st.(timers := st.timers - 1, pending := false, firing := true)
    case SetEvent => st.(firing := false, event := true)
    case Await => st.(task := Waiting)
    case Wake => st.(task := Woken)
    case Clear => st.(event := false, task := Draining(0))
    case Drain(keys) =>
      if st.queue == [] then st.(task := Acking(keys))
      else st.(queue := st.queue[1..], task := Draining(st.task.batch + 1))
    case Ack => st.(task := if st.task.left == 0 then Testing else Acking(st.task.left - 1))
    case Fail => st.(task := Testing)
  }

  ghost predicate Run(debounce: bool, st: State, steps: seq<Step>, end: State)
    decreases |steps|
  {
    if steps == [] then st == end
    else Enabled(st, steps[0]) && Run(debounce, Next(debounce, st, steps[0]), steps[1..], end)
  }

  ghost predicate Reachable(debounce: bool, st: State) {
    exists steps :: Run(debounce, START, steps, st)
  }

  // ---- the invariant ----

  /** A callback that will set the event is on its way. */
  predicate Scheduled(st: State) {
    st.soon > 0 || st.timers > 0
  }

  /** The flag coalesces signals only while somebody answers for the wake-up. */
  ghost predicate FlagInv(st: State) {
    st.pending ==> Scheduled(st) || exists e :: 0 <= e < |st.enqueuers| && st.enqueuers[e].Scheduling?
  }

  /** An enqueuer has not finished its signal. */
  ghost predicate Signalling(st: State) {
    exists e :: 0 <= e < |st.enqueuers| && !st.enqueuers[e].Done?
  }

  /** The task has woken, or has cleared the event and is emptying the queue. */
  predicate Collecting(st: State) {
    st.task.Woken? || st.task.Draining?
  }

  predicate TaskInv(st: State) {
    && (st.task.Woken? ==> st.event)
    && (st.task.Absent? ==> true !in st.queue)
  }

  ghost predicate NoLostWakeUp(st: State) {
    true in st.queue ==> st.event || Scheduled(st) || st.firing || Collecting(st) || Signalling(st)
  }

  ghost predicate Inv(st: State) {
    FlagInv(st) && TaskInv(st) && NoLostWakeUp(st)
  }

  // ---- the main results, proved below ----

  /** A deletion put while the task runs and still queued is never forgotten, with and without the debounce and
      whether or not the task is waiting for an acknowledgment. */
  lemma FreshIsAttended(debounce: bool, st: State)
    requires Reachable(debounce, st) && true in st.queue
    ensures st.event || Scheduled(st) || st.firing || Collecting(st) || Signalling(st)
  {
    ReachableInv(debounce, st);
  }

  /** Nothing is left to do but to wait for new deletions. */
  ghost predicate Idle(st: State) {
    forall step | Enabled(st, step) :: step.Put?
  }

  /** The task sleeps only on a queue without fresh deletions. */
  lemma IdleMeansDrained(debounce: bool, st: State)
    requires Reachable(debounce, st) && Idle(st)
    ensures st.task.Waiting? && true !in st.queue
  {
    ReachableInv(debounce, st);
    if !st.task.Waiting? || true in st.queue {
      SomethingToDo(st);
    }
  }

  function Ahead(pc: Enqueuer): nat {
    match pc
    case Looking => 12
    case Checking => 11
    case Setting => 10
    case Scheduling => 9
    case Done => 0
  }

  function TaskAhead(task: Task): nat {
    match task
    case Absent => 3
    case Testing => 2
    case Waiting => 1
    case Woken => 0
    case Draining(batch) => batch + 4
    case Acking(left) => left + 3
  }

  /** A bound on the steps still possible without a new deletion. */
  function StepsAhead(st: State): nat {
    Sum(st.enqueuers, Ahead) + 8 * st.soon + 7 * st.timers + (if st.firing then 6 else 0)
    + (if st.event then 5 else 0) + 2 * |st.queue| + TaskAhead(st.task)
  }

  /** Without new deletions the task and its callbacks come to rest, within a number of steps known beforehand. */
  lemma {:induction false} RunsAreShort(debounce: bool, st: State, steps: seq<Step>, end: State)
    requires Inv(st) && Run(debounce, st, steps, end) && Put !in steps
    ensures |steps| + StepsAhead(end) <= StepsAhead(st)
    decreases |steps|
  {
    if steps != [] {
      StepsAheadFall(debounce, st, steps[0]);
      StepKeepsFlag(debounce, st, steps[0]);
      StepKeepsTask(debounce, st, steps[0]);
      StepKeepsWakeUp(debounce, st, steps[0]);
      RunsAreShort(debounce, Next(debounce, st, steps[0]), steps[1..], end);
    }
  }

  /** From every reachable state, every continuation without new deletions takes at most `StepsAhead(st)` steps,
      and when it can go no further the queue holds no fresh deletion. */
  lemma EventuallyDrained(debounce: bool, st: State, steps: seq<Step>, end: State)
    requires Reachable(debounce, st) && Run(debounce, st, steps, end) && Put !in steps
    ensures |steps| <= StepsAhead(st)
    ensures Idle(end) ==> true !in end.queue && end.task.Waiting?
  {
    ReachableInv(debounce, st);
    RunsAreShort(debounce, st, steps, end);
    if Idle(end) {
      var before :| Run(debounce, START, before, st);
      RunExtends(debounce, START, before, st, steps, end);
      IdleMeansDrained(debounce, end);
    }
  }

  // ---- the signal, step by step ----

  function Count(steps: seq<Step>, p: Step -> bool): nat {
    if steps == [] then 0 else (if p(steps[0]) then 1 else 0) + Count(steps[1..], p)
  }

  predicate IsSchedule(step: Step) { step.Schedule? }

  predicate IsRunSoon(step: Step) { step.RunSoon? }

  predicate IsTimerFires(step: Step) { step.TimerFires? }

  predicate IsSetEvent(step: Step) { step.SetEvent? }

  predicate IsPut(step: Step) { step.Put? }

  predicate OnlyEnqueuer(steps: seq<Step>, e: nat) {
    forall step | step in steps :: step in [Look(e), Check(e), Set(e), Schedule(e)]
  }

  predicate OnlyTask(steps: seq<Step>) {
    forall step | step in steps :: step.Wake? || step.Clear? || step.Drain?
  }

  /** How many deletions the task takes off the queue in a run. */
  function Taken(debounce: bool, st: State, steps: seq<Step>): nat
    decreases |steps|
  {
    if steps == [] || !Enabled(st, steps[0]) then 0
    else (if steps[0].Drain? && st.queue != [] then 1 else 0) + Taken(debounce, Next(debounce, st, steps[0]), steps[1..])
  }

  /** Every callback handed to the loop is run once. With the debounce it arms a timer, and it is the timers, each once,
      that set the event; without, no timer is ever armed, and the callbacks set it themselves. */
  lemma SignalsAreCounted(debounce: bool, steps: seq<Step>, st: State)
    requires Run(debounce, START, steps, st)
    ensures Count(steps, IsSchedule) == st.soon + Count(steps, IsRunSoon)
    ensures var fires := if debounce then Count(steps, IsTimerFires)
                         else Count(steps, IsRunSoon);
            fires == Count(steps, IsSetEvent) + if st.firing then 1 else 0
    ensures if debounce then Count(steps, IsRunSoon)
                             == st.timers + Count(steps, IsTimerFires)
            else st.timers == 0 && Count(steps, IsTimerFires) == 0
  {
    RunSchedules(debounce, START, steps, st);
    RunFires(debounce, START, steps, st);
    RunArms(debounce, START, steps, st);
  }

  lemma {:induction false} RunSchedules(debounce: bool, st: State, steps: seq<Step>, end: State)
    requires Run(debounce, st, steps, end)
    ensures st.soon + Count(steps, IsSchedule) == end.soon + Count(steps, IsRunSoon)
    decreases |steps|
  {
    if steps != [] {
      RunSchedules(debounce, Next(debounce, st, steps[0]), steps[1..], end);
    }
  }

  lemma {:induction false} RunArms(debounce: bool, st: State, steps: seq<Step>, end: State)
    requires Run(debounce, st, steps, end) && (debounce || st.timers == 0)
    ensures if debounce then st.timers + Count(steps, IsRunSoon) == end.timers + Count(steps, IsTimerFires)
            else end.timers == 0 && Count(steps, IsTimerFires) == 0
    decreases |steps|
  {
    if steps != [] {
      RunArms(debounce, Next(debounce, st, steps[0]), steps[1..], end);
    }
  }

  function Firing(st: State): nat {
    if st.firing then 1 else 0
  }

  lemma {:induction false} RunFires(debounce: bool, st: State, steps: seq<Step>, end: State)
    requires Run(debounce, st, steps, end) && (debounce || st.timers == 0)
    ensures Firing(st) + (if debounce then Count(steps, IsTimerFires) else Count(steps, IsRunSoon))
            == Count(steps, IsSetEvent) + Firing(end)
    decreases |steps|
  {
    if steps != [] {
      RunFires(debounce, Next(debounce, st, steps[0]), steps[1..], end);
    }
  }

  /** Every deletion put is still queued or was taken by the task, once; it is fresh exactly if the task ran. */
  lemma PutsAreCounted(debounce: bool, steps: seq<Step>, st: State)
    requires Run(debounce, START, steps, st)
    ensures Count(steps, IsPut) == |st.queue| + Taken(debounce, START, steps)
    ensures Next(debounce, st, Put).queue == st.queue + [!st.task.Absent?]
    ensures Next(debounce, st, Put).enqueuers == st.enqueuers + [Looking]
  {
    RunTakes(debounce, START, steps, st);
  }

  lemma {:induction false} RunTakes(debounce: bool, st: State, steps: seq<Step>, end: State)
    requires Run(debounce, st, steps, end)
    ensures |st.queue| + Count(steps, IsPut) == |end.queue| + Taken(debounce, st, steps)
    decreases |steps|
  {
    if steps != [] {
      RunTakes(debounce, Next(debounce, st, steps[0]), steps[1..], end);
    }
  }

  /** What an enqueuer leaves. */
  function Signalled(st: State, e: nat): State
    requires e < |st.enqueuers|
  {
    if st.task.Absent? || st.pending then Move(st, e, Done) else Move(st, e, Done).(pending := true, soon := st.soon + 1)
  }

  /** An enqueuer on its own hands a callback to the loop exactly if a task runs and the flag is clear, and sets the flag
      then; so a signal not yet answered takes in those that follow. */
  lemma EnqueuesAlone(debounce: bool, st: State, e: nat)
    requires At(st, e, Looking)
    ensures exists steps :: OnlyEnqueuer(steps, e) && Run(debounce, st, steps, Signalled(st, e))
  {
    var end := Signalled(st, e);
    var s1 := Next(debounce, st, Look(e));
    if st.task.Absent? {
      assert s1 == end && Run(debounce, s1, [], end);
      OwnCons(debounce, st, Look(e), [], end, e);
    } else {
      var s2 := Next(debounce, s1, Check(e));
      if st.pending {
        assert s2 == end && Run(debounce, s2, [], end);
        OwnCons(debounce, s1, Check(e), [], end, e);
        OwnCons(debounce, st, Look(e), [Check(e)] + [], end, e);
      } else {
        SetsAlone(debounce, s2, e);
        assert Move(s2, e, Done).(pending := true, soon := s2.soon + 1) == end;
        var steps :| OnlyEnqueuer(steps, e) && Run(debounce, s2, steps, end);
        OwnCons(debounce, s1, Check(e), steps, end, e);
        OwnCons(debounce, st, Look(e), [Check(e)] + steps, end, e);
      }
    }
  }

  lemma SetsAlone(debounce: bool, st: State, e: nat)
    requires At(st, e, Setting)
    ensures exists steps :: OnlyEnqueuer(steps, e) &&
                            Run(debounce, st, steps, Move(st, e, Done).(pending := true, soon := st.soon + 1))
  {
    var end := Move(st, e, Done).(pending := true, soon := st.soon + 1);
    var s1 := Next(debounce, st, Set(e));
    assert Next(debounce, s1, Schedule(e)) == end && Run(debounce, end, [], end);
    OwnCons(debounce, s1, Schedule(e), [], end, e);
    OwnCons(debounce, st, Set(e), [Schedule(e)] + [], end, e);
  }

  lemma OwnCons(debounce: bool, st: State, step: Step, steps: seq<Step>, end: State, e: nat)
    requires Enabled(st, step) && OnlyEnqueuer(steps, e) && step in [Look(e), Check(e), Set(e), Schedule(e)]
    requires Run(debounce, Next(debounce, st, step), steps, end)
    ensures OnlyEnqueuer([step] + steps, e) && Run(debounce, st, [step] + steps, end)
  {
    assert ([step] + steps)[1..] == steps;
  }

  /** A waiting task whose event is set clears it and takes everything off the queue, on its own, before it waits for the
      first acknowledgment. */
  lemma DrainsAlone(debounce: bool, st: State, keys: nat)
    requires st.task.Waiting? && st.event && keys <= |st.queue|
    ensures exists steps :: OnlyTask(steps) &&
              Run(debounce, st, steps, st.(event := false, queue := [], task := Acking(keys)))
  {
    var s1 := Next(debounce, st, Wake);
    var s2 := Next(debounce, s1, Clear);
    var end := st.(event := false, queue := [], task := Acking(keys));
    EmptiesQueue(debounce, s2, keys);
    var steps :| OnlyTask(steps) && Run(debounce, s2, steps, end);
    assert ([Clear] + steps)[1..] == steps && Run(debounce, s1, [Clear] + steps, end);
    assert ([Wake] + ([Clear] + steps))[1..] == [Clear] + steps && Run(debounce, st, [Wake] + ([Clear] + steps), end);
  }

  lemma {:induction false} EmptiesQueue(debounce: bool, st: State, keys: nat)
    requires st.task.Draining? && keys <= st.task.batch + |st.queue|
    ensures exists steps :: OnlyTask(steps) &&
              Run(debounce, st, steps, st.(queue := [], task := Acking(keys)))
    decreases |st.queue|
  {
    var end := st.(queue := [], task := Acking(keys));
    var st' := Next(debounce, st, Drain(keys));
    if st.queue == [] {
      assert Run(debounce, st', [], end) && Run(debounce, st, [Drain(keys)], end);
    } else {
      EmptiesQueue(debounce, st', keys);
      var steps :| OnlyTask(steps) && Run(debounce, st', steps, end);
      assert ([Drain(keys)] + steps)[1..] == steps;
      assert Run(debounce, st, [Drain(keys)] + steps, end);
    }
  }

  // ---- every step keeps the invariant ----

  lemma StepKeepsWakeUp(debounce: bool, st: State, step: Step)
    requires Inv(st) && Enabled(st, step)
    ensures NoLostWakeUp(Next(debounce, st, step))
  {
    var st' := Next(debounce, st, step);
    match step
    case Put => assert !st'.enqueuers[|st.enqueuers|].Done?;
    case Look(e) =>
      if !st.task.Absent? {
        assert !st'.enqueuers[e].Done?;
      }
    case Check(e) =>
      if !st.pending {
        assert !st'.enqueuers[e].Done?;
      } else if !Scheduled(st) {
        var f :| 0 <= f < |st.enqueuers| && st.enqueuers[f].Scheduling?;
        assert st'.enqueuers[f] == st.enqueuers[f];
      }
    case Set(e) => assert !st'.enqueuers[e].Done?;
    case _ => assert st'.enqueuers == st.enqueuers || Scheduled(st');
  }

  lemma StepKeepsFlag(debounce: bool, st: State, step: Step)
    requires FlagInv(st) && Enabled(st, step)
    ensures FlagInv(Next(debounce, st, step))
  {
    var st' := Next(debounce, st, step);
    if step.Set? {
      assert st'.enqueuers[step.e].Scheduling?;
    } else if st'.pending && !Scheduled(st') {
      var e :| 0 <= e < |st.enqueuers| && st.enqueuers[e].Scheduling?;
      assert st'.enqueuers[e].Scheduling?;
    }
  }

  lemma StepKeepsTask(debounce: bool, st: State, step: Step)
    requires TaskInv(st) && Enabled(st, step)
    ensures TaskInv(Next(debounce, st, step))
  {
  }

  lemma {:induction false} RunKeepsInv(debounce: bool, st: State, steps: seq<Step>, end: State)
    requires Inv(st) && Run(debounce, st, steps, end)
    ensures Inv(end)
    decreases |steps|
  {
    if steps != [] {
      StepKeepsFlag(debounce, st, steps[0]);
      StepKeepsTask(debounce, st, steps[0]);
      StepKeepsWakeUp(debounce, st, steps[0]);
      RunKeepsInv(debounce, Next(debounce, st, steps[0]), steps[1..], end);
    }
  }

  lemma ReachableInv(debounce: bool, st: State)
    requires Reachable(debounce, st)
    ensures Inv(st)
  {
    var steps :| Run(debounce, START, steps, st);
    RunKeepsInv(debounce, START, steps, st);
  }

  // ---- the task gets to sleep ----

  /** Something can be done as long as the task, a callback or an enqueuer has something to do. */
  lemma SomethingToDo(st: State)
    requires !st.task.Waiting? || st.event || Scheduled(st) || st.firing || Signalling(st)
    ensures !Idle(st)
  {
    if !st.task.Waiting? || st.event {
      var step := match st.task
        case Absent => Start
        case Testing => Await
        case Waiting => Wake
        case Woken => Clear
        case Draining(_) => Drain(0)
        case Acking(_) => Ack;
      assert Enabled(st, step);
    } else if Scheduled(st) || st.firing {
      var step := if st.firing then SetEvent else if st.soon > 0 then RunSoon else TimerFires;
      assert Enabled(st, step);
    } else {
      var e :| 0 <= e < |st.enqueuers| && !st.enqueuers[e].Done?;
      var pc := st.enqueuers[e];
      var step := if pc.Looking? then Look(e) else if pc.Checking? then Check(e) else if pc.Setting? then Set(e)
                  else Schedule(e);
      assert Enabled(st, step);
    }
  }

  lemma StepsAheadFall(debounce: bool, st: State, step: Step)
    requires TaskInv(st) && Enabled(st, step) && !step.Put?
    ensures StepsAhead(Next(debounce, st, step)) < StepsAhead(st)
  {
    if step.Look? || step.Check? || step.Set? || step.Schedule? {
      SumUpdate(st.enqueuers, step.e, Next(debounce, st, step).enqueuers[step.e], Ahead);
    }
  }

  lemma {:induction false} RunExtends(debounce: bool, st: State, steps: seq<Step>, mid: State, more: seq<Step>, end: State)
    requires Run(debounce, st, steps, mid) && Run(debounce, mid, more, end)
    ensures Run(debounce, st, steps + more, end)
    decreases |steps|
  {
    if steps == [] {
      assert steps + more == more;
    } else {
      assert (steps + more)[1..] == steps[1..] + more;
      RunExtends(debounce, Next(debounce, st, steps[0]), steps[1..], mid, more, end);
    }
  }
}
