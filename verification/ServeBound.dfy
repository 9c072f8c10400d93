/** Thread-bound serving: one thread at a time holds the receiving baton and hands messages to the threads they are
    meant for; the others wait in a pool until they are given a message or the baton. */
module ServeBound {
  import opened Core
  import opened ServeMachine
  import opened ServeSteps

  // ---- the main results ----

  /** There is never a second thread in the receive loop. The flag is set exactly while there is one, as long as no
      message was too short or refused by the executor and closing the connection never raised; any of the three leaves
      the flag set with nobody in the loop. */
  lemma OneReceiver(threads: nat, st: State)
    requires Reachable(threads, st)
    ensures InLoop(st) <= 1
    ensures (st.receiving <==> InLoop(st) == 1) <==> st.lost == [] && st.aborted == 0
    ensures Jammed(st) <==> st.lost != [] || st.aborted > 0
  {
    ReachableInv(threads, st);
  }

  /** Exactly the steps that end the receiver by an exception outside the one handler that clears the flag jam it. */
  lemma JamsIff(threads: nat, st: State, step: Step)
    requires Reachable(threads, st) && Enabled(st, step) && !Jammed(st)
    ensures Jammed(Next(st, step)) <==> step.Short? || step.CloseRaises? || step.SubmitFails?
  {
    ReachableInv(threads, st);
    StepKeepsBaton(st, step);
    LossesOf(st, step);
  }

  /** Whatever the threads do then, no message is ever read again. */
  lemma {:induction false} JammedForGood(st: State, steps: seq<Step>, end: State)
    requires BatonInv(st) && Jammed(st) && Run(st, steps, end)
    ensures Jammed(end) && end.received == st.received
    decreases |steps|
  {
    if steps != [] {
      StaysJammed(st, steps[0]);
      JammedForGood(Next(st, steps[0]), steps[1..], end);
    }
  }

  /** Every message read is in one place: given to one thread, in the receiver's hands, with one temporary thread,
      or dropped for being short or refused; a message not yet read is nowhere. */
  lemma ReadOnce(threads: nat, st: State, m: nat)
    requires Reachable(threads, st)
    ensures Places(st, m) == if m < st.received then 1 else 0
  {
    ReachableInv(threads, st);
    assert MessageInv(st, m);
  }

  /** A message that names a thread reaches that thread: from the moment it is read, whatever happens, it is in the
      receiver's hands to be passed on to the thread, or the thread was given it; no other thread ever gets it, the
      executor does not, and it is not lost. */
  lemma BoundArrives(threads: nat, st: State, t: nat, u: nat, steps: seq<Step>, end: State)
    requires Reachable(threads, st) && Enabled(st, Recv(t, Bound(u))) && Run(Next(st, Recv(t, Bound(u))), steps, end)
    ensures var m := st.received;
            && |end.threads| == |st.threads| && m !in end.submitted && m !in end.lost
            && (forall w | 0 <= w < |end.threads| && w != u :: m !in end.threads[w].given)
            && (m in end.threads[u].given || exists w :: 0 <= w < |end.threads| && end.threads[w].pc == Routing(m, Bound(u)))
  {
    var m, st' := st.received, Next(st, Recv(t, Bound(u)));
    OneMore(threads, st, Recv(t, Bound(u)));
    assert st'.bound[m] == u;
    BoundStays(st', steps, end, m);
    ReachableRun(threads, st', steps, end);
    ReachableInv(threads, end);
    ReachableDest(threads, end);
    assert MessageInv(end, m);
    forall w | 0 <= w < |end.threads| && w != u ensures m !in end.threads[w].given {
      assert DestOk(end.bound, end.received, w, end.threads[w]);
    }
    NotIn(end.submitted, m);
    NotIn(end.lost, m);
    var w := SomePlace(end.threads, m);
    assert DestOk(end.bound, end.received, w, end.threads[w]);
  }

  /** What the receiver does with a message that names a thread, or none. One for another thread is appended to that
      thread's deque and the thread is signalled. One for itself, or for anybody while it is not occupied, it dispatches
      itself. Any other goes to a free thread of the pool, which is signalled, or, if there is none, to the executor. */
  lemma RoutingReaches(st: State, t: nat)
    requires Enabled(st, Route(t))
    ensures var st', m, dest := Next(st, Route(t)), st.threads[t].pc.msg, st.threads[t].pc.dest;
            && |st'.threads| == |st.threads|
            && (dest.Bound? && dest.id != t ==> Handed(st, st', t, dest.id, m))
            && (dest == Bound(t) || (dest.Unbound? && st.threads[t].occupation == 0) ==>
                  st'.threads[t].pc == Dispatching(m) && st'.threads[t].given == st.threads[t].given + [m]
                  && st'.submitted == st.submitted && !st'.receiving)
            && (dest.Unbound? && st.threads[t].occupation != 0 ==>
                  if exists u :: Free(st, u) then exists u :: Free(st, u) && u != t && Handed(st, st', t, u, m)
                  else st'.submitted == st.submitted + [m] && st'.threads == st.threads[t := st'.threads[t]]
                       && st'.threads[t] == st.threads[t].(pc := Receiving))
  {
    var m, dest := st.threads[t].pc.msg, st.threads[t].pc.dest;
    if dest.Unbound? && st.threads[t].occupation != 0 {
      PoolReaches(st, t, m);
    } else if dest.Unbound? || dest.id == t {
      KeepRecords(st, t, m);
    } else {
      GivesRecords(st, t, dest.id, m);
    }
  }

  /** A thread that enters with a message pending dispatches the first; without one it waits while somebody receives, and
      otherwise receives. */
  lemma EnteringDoes(st: State, t: nat)
    requires Enabled(st, Enter(t))
    ensures var th, st' := st.threads[t], Next(st, Enter(t));
            && st'.threads == st.threads[t := st'.threads[t]]
            && (if th.deque != [] && th.event then st'.threads[t].pc == Dispatching(th.deque[0])
                                              && st'.threads[t].deque == th.deque[1..]
                                              && st'.pool == st.pool && st'.receiving == st.receiving
                else if st.receiving then st'.threads[t].pc.Waiting? && st'.pool == st.pool + [t] && st'.receiving
                else st'.threads[t].pc.Receiving? && st'.receiving && st'.pool == st.pool)
  {
  }

  /** A waiting thread that is not signalled by the end of its time goes, and stays in the pool. One that is signalled
      leaves the pool to dispatch the first message pending, or, with none, to receive if nobody does; otherwise it
      waits on. */
  lemma WokenDoes(threads: nat, st: State, t: nat)
    requires Reachable(threads, st) && Enabled(st, Check(t))
    ensures var th, st' := st.threads[t], Next(st, Check(t));
            && st'.threads == st.threads[t := st'.threads[t]]
            && (if !th.event then st'.threads[t].pc.Out? && st'.pool == st.pool && st'.receiving == st.receiving
                else if th.deque != [] then st'.threads[t].pc == Dispatching(th.deque[0]) && st'.receiving == st.receiving
                                            && st'.threads[t].deque == th.deque[1..]
                                            && (st'.threads[t].event <==> |th.deque| > 1)
                else if st.receiving then st'.threads[t] == th.(event := false) && st'.pool == st.pool && st'.receiving
                else st'.threads[t].pc.Receiving? && st'.receiving && !st'.threads[t].event)
            && (th.event && !st'.threads[t].pc.Waiting? ==>
                  (!st.departed ==> t !in st'.pool) && forall u | u != t :: u in st'.pool <==> u in st.pool)
  {
    ReachableInv(threads, st);
    RemoveOne(st.pool, t);
  }

  /** A thread dispatches what it is given, all of it, in order; what is still in its deque it is signalled for. */
  lemma DispatchedInOrder(threads: nat, st: State, t: nat)
    requires Reachable(threads, st) && t < |st.threads|
    ensures var th := st.threads[t];
            th.given == th.done + Hand(th.pc) + th.deque && (th.deque != [] ==> th.event || th.pc.Adopting?)
  {
    ReachableInv(threads, st);
    assert ThreadInv(st.threads[t]);
  }

  /** While no wait has timed out and the channel has not raised, nobody sleeps while the baton lies down. */
  lemma NeverStalled(threads: nat, st: State)
    requires Reachable(threads, st) && !st.departed && !st.failed
    ensures !Stalled(st)
  {
    StartInv(threads);
    var steps :| Run(Start(threads), steps, st);
    assert forall t :: !Asleep(Start(threads), t);
    RunNotStalled(Start(threads), steps, st);
  }

  /** A step leaves a thread asleep with the baton down and nobody woken to take it up exactly when it puts the baton
      down, some thread sleeps, none is on its way to the baton, and the thread it wakes is not asleep: it has left
      after its wait timed out, or, after an exception, has been woken already for messages of its own. */
  lemma StallsIff(threads: nat, st: State, step: Step)
    requires Reachable(threads, st) && Enabled(st, step) && !Stalled(st)
    ensures Stalled(Next(st, step)) <==>
              PutsDown(st, step) && (exists t :: Asleep(st, t)) && (forall t :: !Carrier(st, t)) && !WakesSleeper(st, step)
  {
    ReachableInv(threads, st);
    StallsWhen(st, step);
  }

  /** A wait that times out leaves its thread in the pool, and the baton can then be handed to it while another
      thread sleeps. */
  lemma TimeoutCanStall()
    ensures exists st :: Reachable(3, st) && Stalled(st) && !st.failed && st.lost == []
  {
    var st := Three(Receiving, Out, Waiting, [1, 2], true, true);
    GhostInPool();
    OneMore(3, st, Timeout(0));
    GhostIsWoken();
    assert Asleep(Next(st, Timeout(0)), 2);
  }

  /** An exception wakes the first of the pool whether or not it sleeps, and leaves the others asleep: no wait has
      timed out, and the woken thread has a message to dispatch. */
  lemma FailureCanStall()
    ensures exists st :: Reachable(3, st) && Stalled(st) && !st.departed && st.lost == []
  {
    SecondIsGiven();
    OneMore(3, SERVED, Fail(0));
    var st := Next(SERVED, Fail(0));
    assert st.threads == [Quiet(Out), Quiet(Waiting).Given(0), Quiet(Waiting)];
    assert Asleep(st, 2);
  }

  /** The end of the connection is seen by the receiver, closing it raises, and the thread that waits sleeps for good:
      no later run reads a message. */
  lemma ClosingCanJam()
    ensures exists st :: Reachable(3, st) && Jammed(st) && Asleep(st, 1) && st.lost == [] && !st.departed
                         && forall steps, end | Run(st, steps, end) :: Jammed(end) && end.received == st.received
  {
    var st := Three(Receiving, Waiting, Out, [1], true, false);
    SecondWaits();
    OneMore(3, st, CloseRaises(0));
    var st' := Next(st, CloseRaises(0));
    OneReceiver(3, st');
    ReachableInv(3, st');
    forall steps, end | Run(st', steps, end) ensures Jammed(end) && end.received == st'.received {
      JammedForGood(st', steps, end);
    }
    assert Asleep(st', 1);
  }

  lemma StepKeepsBaton(st: State, step: Step)
    requires BatonInv(st) && Enabled(st, step)
    ensures BatonInv(Next(st, step))
  {
    if step.Route? {
      RouteKeepsBaton(st, step.t);
    } else if OwnStep(step) {
      OwnStepFrame(st, step);
      OwnStepBaton(st, step);
      SumUpdate(st.threads, step.t, Next(st, step).threads[step.t], LoopWeight());
    } else {
      LeaveKeepsBaton(st, step);
    }
  }

  lemma StepKeepsThreads(st: State, step: Step)
    requires BatonInv(st) && ThreadsInv(st) && Enabled(st, step)
    ensures ThreadsInv(Next(st, step))
  {
    if step.Route? {
      RouteKeepsThreads(st, step.t);
    } else if OwnStep(step) {
      OwnStepFrame(st, step);
      OwnStepOk(st, step);
    } else {
      LeaveKeepsThreads(st, step);
    }
  }

  lemma StepKeepsMessage(st: State, step: Step, m: nat)
    requires MessageInv(st, m) && ThreadsInv(st) && Enabled(st, step)
    ensures MessageInv(Next(st, step), m)
  {
    if step.Route? {
      RouteKeepsMessage(st, step.t, m);
    } else if OwnStep(step) {
      OwnStepFrame(st, step);
      OwnStepBalanced(st, step, m);
      SumUpdate(st.threads, step.t, Next(st, step).threads[step.t], Place(m));
    } else {
      LeaveKeepsMessage(st, step, m);
    }
  }

  lemma StepKeepsPool(st: State, step: Step)
    requires PoolInv(st) && Enabled(st, step)
    ensures PoolInv(Next(st, step))
  {
    if OwnStep(step) {
      OwnStepKeepsPool(st, step);
    } else {
      if step.Route? {
        RouteSamePool(st, step.t);
      } else {
        LeaveSamePool(st, step);
      }
    }
  }

  lemma PuttingDownStalls(st: State, step: Step)
    requires ThreadsInv(st) && PoolInv(st) && Enabled(st, step) && PutsDown(st, step)
    ensures Stalled(Next(st, step)) <==>
              (exists t :: Asleep(st, t)) && (forall t :: !Carrier(st, t)) && !WakesSleeper(st, step)
  {
    var t, th := step.t, st.threads[step.t];
    assert ThreadInv(th);
    var after := if step.Route? then th.(pc := Dispatching(th.pc.msg), given := th.given + [th.pc.msg]) else th.(pc := Out);
    FirstUnsetAfter(st.threads, t, after, st.pool);
    if !step.Fail? && Heir(st, step).None? {
      NobodyToWake(st);
    }
    LeavingStalls(st, t, after, Heir(st, step), st.failed || step.Fail?);
  }

  // ---- which steps stall ----

  lemma StallsWhen(st: State, step: Step)
    requires Inv(st) && Enabled(st, step) && !Stalled(st)
    ensures Stalled(Next(st, step)) <==>
              PutsDown(st, step) && (exists t :: Asleep(st, t)) && (forall t :: !Carrier(st, t)) && !WakesSleeper(st, step)
  {
    if PutsDown(st, step) {
      PuttingDownStalls(st, step);
    } else if OwnStep(step) {
      OwnStepNotStalled(st, step);
    } else {
      RoutingOnNotStalled(st, step.t);
    }
  }

  // ---- every reachable state ----

  lemma StepKeepsInv(st: State, step: Step)
    requires Inv(st) && Enabled(st, step)
    ensures Inv(Next(st, step))
  {
    StepKeepsBaton(st, step);
    StepKeepsThreads(st, step);
    StepKeepsPool(st, step);
    forall m ensures MessageInv(Next(st, step), m) {
      StepKeepsMessage(st, step, m);
    }
  }

  lemma {:induction false} RunKeepsInv(st: State, steps: seq<Step>, end: State)
    requires Inv(st) && Run(st, steps, end)
    ensures Inv(end)
    decreases |steps|
  {
    if steps != [] {
      StepKeepsInv(st, steps[0]);
      RunKeepsInv(Next(st, steps[0]), steps[1..], end);
    }
  }

  lemma {:induction false} RunNotStalled(st: State, steps: seq<Step>, end: State)
    requires Inv(st) && Run(st, steps, end) && !Stalled(st) && !end.departed && !end.failed
    ensures !Stalled(end) && !st.departed && !st.failed
    decreases |steps|
  {
    if steps != [] {
      var st' := Next(st, steps[0]);
      StepKeepsInv(st, steps[0]);
      FlagsStay(st, steps[0]);
      if Stalled(st') {
        FlagsOfRun(st', steps[1..], end);
        StepNotStalled(st, steps[0]);
      }
      RunNotStalled(st', steps[1..], end);
    }
  }

  lemma StepNotStalled(st: State, step: Step)
    requires Inv(st) && Enabled(st, step) && !Stalled(st) && !st.departed && !Next(st, step).failed
    ensures !Stalled(Next(st, step))
  {
    StallsWhen(st, step);
    if exists t :: Asleep(st, t) {
      if !step.Fail? {
        ExactPoolWakes(st, step);
      }
    }
  }

  lemma ReachableInv(threads: nat, st: State)
    requires Reachable(threads, st)
    ensures Inv(st)
  {
    StartInv(threads);
    var steps :| Run(Start(threads), steps, st);
    RunKeepsInv(Start(threads), steps, st);
  }

  lemma StaysJammed(st: State, step: Step)
    requires BatonInv(st) && Jammed(st) && Enabled(st, step)
    ensures var st' := Next(st, step); BatonInv(st') && Jammed(st') && st'.received == st.received
  {
    StepKeepsBaton(st, step);
    SumWithout(st.threads, step.t, LoopWeight());
    LossesOf(st, step);
  }
}
