/** What the single steps of the thread-bound serving machine do to a thread's record, to the flag, to the places of a
    message, to the pool and to those who sleep in it. The lemmas follow the cases of a step, from the thread that takes
    it to the others; together they are the steps of the results about all reachable states. */
module ServeSteps {
  import opened Core
  import opened ServeMachine

  // ---- every thread on its own ----

  /** Only one thread is in the receive loop. */
  lemma OnlyReceiver(st: State, t: nat, u: nat)
    requires BatonInv(st) && t < |st.threads| && u < |st.threads|
    requires st.threads[t].InLoop() && st.threads[u].InLoop()
    ensures t == u
  {
    if t != u {
      SumWithout(st.threads, t, LoopWeight());
      var i := if u < t then u else u - 1;
      assert Without(st.threads, t)[i] == st.threads[u];
      SumWithout(Without(st.threads, t), i, LoopWeight());
    }
  }

  lemma HandOverOk(st: State)
    requires ThreadsInv(st)
    ensures ThreadsInv(st.HandOver())
  {
  }

  lemma RouteKeepsThreads(st: State, t: nat)
    requires BatonInv(st) && ThreadsInv(st) && Enabled(st, Route(t))
    ensures ThreadsInv(Next(st, Route(t)))
  {
    var th := st.threads[t];
    var m, dest := th.pc.msg, th.pc.dest;
    assert ThreadInv(th) && ThreadInv(th.(pc := Receiving));
    if dest.Unbound? && th.occupation != 0 {
      var free := FirstFree(st.threads, st.pool);
      if free.Some? {
        GiveOk(st, t, free.value, m);
      }
    } else if dest.Unbound? || dest.id == t {
      HandOverOk(st.With(t, th.(pc := Dispatching(m), given := th.given + [m])));
    } else {
      GiveOk(st, t, dest.id, m);
    }
  }

  lemma GiveOk(st: State, t: nat, u: nat, m: nat)
    requires BatonInv(st) && ThreadsInv(st) && Enabled(st, Route(t)) && u < |st.threads| && u != t
    ensures ThreadsInv(GoOn(st, t).Give(u, m))
  {
    if st.threads[u].InLoop() {
      OnlyReceiver(st, t, u);
    }
    assert ThreadInv(st.threads[t]) && ThreadInv(st.threads[u]);
  }

  lemma OwnStepFrame(st: State, step: Step)
    requires Enabled(st, step) && OwnStep(step)
    ensures Next(st, step).threads == st.threads[step.t := Next(st, step).threads[step.t]]
  {
  }

  lemma OwnStepOk(st: State, step: Step)
    requires Enabled(st, step) && OwnStep(step) && ThreadInv(st.threads[step.t])
    ensures ThreadInv(Next(st, step).threads[step.t])
  {
    if step.Enter? || step.Check? {
      PickUpOk(st, step);
    }
  }

  lemma PickUpOk(st: State, step: Step)
    requires Enabled(st, step) && (step.Enter? || step.Check?) && ThreadInv(st.threads[step.t])
    ensures ThreadInv(Next(st, step).threads[step.t])
  {
    var th := st.threads[step.t];
    if th.event && th.deque != [] {
      PoppedOk(th);
    }
  }

  lemma PoppedOk(th: Thread)
    requires ThreadInv(th) && th.deque != [] && (th.pc.Out? || th.pc.Waiting?)
    ensures ThreadInv(th.Popped())
  {
    assert th.done + [th.deque[0]] + th.deque[1..] == th.done + th.deque;
  }

  lemma LeaveKeepsThreads(st: State, step: Step)
    requires ThreadsInv(st) && Enabled(st, step) && (step.Timeout? || step.Fail?)
    ensures ThreadsInv(Next(st, step))
  {
    var out := st.With(step.t, st.threads[step.t].(pc := Out));
    assert ThreadInv(st.threads[step.t]) && ThreadsInv(out);
    HandOverOk(out);
  }

  // ---- every step keeps the baton ----

  lemma HandOverSum(st: State, w: Thread -> nat)
    requires forall th: Thread :: w(th.(event := true)) == w(th)
    ensures Sum(st.HandOver().threads, w) == Sum(st.threads, w)
  {
    var u := FirstUnset(st.threads, st.pool);
    if u.Some? {
      SumUpdate(st.threads, u.value, st.threads[u.value].(event := true), w);
    }
  }

  lemma WakeSum(st: State, u: nat, w: Thread -> nat)
    requires forall th: Thread :: w(th.(event := true)) == w(th)
    ensures Sum(st.Wake(u).threads, w) == Sum(st.threads, w)
  {
    if u < |st.threads| {
      SumUpdate(st.threads, u, st.threads[u].(event := true), w);
    }
  }

  lemma GiveLoopSum(st: State, u: nat, m: nat)
    ensures Sum(st.Give(u, m).threads, LoopWeight()) == Sum(st.threads, LoopWeight())
  {
    if u < |st.threads| {
      SumUpdate(st.threads, u, st.threads[u].Given(m), LoopWeight());
    }
  }

  lemma GoOnLoopSum(st: State, t: nat)
    requires t < |st.threads| && st.threads[t].InLoop()
    ensures Sum(GoOn(st, t).threads, LoopWeight()) == Sum(st.threads, LoopWeight())
  {
    SumUpdate(st.threads, t, st.threads[t].(pc := Receiving), LoopWeight());
  }

  lemma KeepLoopSum(st: State, t: nat, m: nat)
    requires t < |st.threads| && st.threads[t].InLoop()
    ensures Sum(Keep(st, t, m).threads, LoopWeight()) + 1 == Sum(st.threads, LoopWeight())
    ensures !Keep(st, t, m).receiving && Keep(st, t, m).lost == st.lost && Keep(st, t, m).aborted == st.aborted
  {
    var th := st.threads[t];
    var kept := th.(pc := Dispatching(m), given := th.given + [m]);
    SumUpdate(st.threads, t, kept, LoopWeight());
    HandOverSum(st.With(t, kept), LoopWeight());
  }

  lemma RouteKeepsBaton(st: State, t: nat)
    requires BatonInv(st) && Enabled(st, Route(t))
    ensures BatonInv(Next(st, Route(t)))
  {
    var th := st.threads[t];
    var m, dest := th.pc.msg, th.pc.dest;
    if dest.Unbound? && th.occupation != 0 {
      GoOnLoopSum(st, t);
      var free := FirstFree(st.threads, st.pool);
      if free.Some? {
        GiveLoopSum(GoOn(st, t), free.value, m);
      }
    } else if dest.Unbound? || dest.id == t {
      KeepLoopSum(st, t, m);
    } else {
      GoOnLoopSum(st, t);
      GiveLoopSum(GoOn(st, t), dest.id, m);
    }
  }

  lemma OwnStepBaton(st: State, step: Step)
    requires Enabled(st, step) && OwnStep(step)
    ensures var w, st' := LoopWeight(), Next(st, step);
            w(st'.threads[step.t]) + |st'.lost| + st'.aborted + Baton(st.receiving)
            == w(st.threads[step.t]) + |st.lost| + st.aborted + Baton(st'.receiving)
  {
    if step.Enter? || step.Check? {
      PickUpBaton(st, step);
    }
  }

  lemma PickUpBaton(st: State, step: Step)
    requires Enabled(st, step) && (step.Enter? || step.Check?)
    ensures var w, st' := LoopWeight(), Next(st, step);
            && w(st'.threads[step.t]) + Baton(st.receiving) == Baton(st'.receiving) && w(st.threads[step.t]) == 0
            && st'.lost == st.lost && st'.aborted == st.aborted
  {
  }

  lemma LeaveKeepsBaton(st: State, step: Step)
    requires BatonInv(st) && Enabled(st, step) && (step.Timeout? || step.Fail?)
    ensures BatonInv(Next(st, step))
  {
    var out := st.With(step.t, st.threads[step.t].(pc := Out));
    SumUpdate(st.threads, step.t, st.threads[step.t].(pc := Out), LoopWeight());
    if step.Timeout? {
      HandOverSum(out, LoopWeight());
    } else if st.pool != [] {
      WakeSum(out.(receiving := false, failed := true), st.pool[0], LoopWeight());
    }
  }

  // ---- every message is in one place ----

  lemma ShortBalanced(st: State, t: nat, m: nat)
    requires Enabled(st, Short(t))
    ensures Balanced(st, Next(st, Short(t)), t, m)
  {
    SumSnoc(st.lost, st.received, Is(m));
  }

  lemma RefusedBalanced(st: State, t: nat, m: nat)
    requires Enabled(st, SubmitFails(t))
    ensures Balanced(st, Next(st, SubmitFails(t)), t, m)
  {
    SumSnoc(st.lost, st.threads[t].pc.msg, Is(m));
  }

  lemma AdoptBalanced(st: State, t: nat, i: nat, m: nat)
    requires Enabled(st, Adopt(t, i))
    ensures Balanced(st, Next(st, Adopt(t, i)), t, m)
  {
    SumWithout(st.submitted, i, Is(m));
    SumSnoc(st.threads[t].given, st.submitted[i], Is(m));
  }

  lemma OtherStepsBalanced(st: State, step: Step, m: nat)
    requires Enabled(st, step) && OwnStep(step) && !step.Short? && !step.SubmitFails? && !step.Adopt?
    ensures Balanced(st, Next(st, step), step.t, m)
  {
    var st' := Next(st, step);
    assert st'.threads[step.t].given == st.threads[step.t].given && st'.submitted == st.submitted && st'.lost == st.lost;
    assert InTransit(st'.threads[step.t].pc, m) + Read(st, m) == InTransit(st.threads[step.t].pc, m) + Read(st', m);
  }

  lemma OwnStepBalanced(st: State, step: Step, m: nat)
    requires Enabled(st, step) && OwnStep(step)
    ensures Balanced(st, Next(st, step), step.t, m)
  {
    if step.Short? {
      ShortBalanced(st, step.t, m);
    } else if step.SubmitFails? {
      RefusedBalanced(st, step.t, m);
    } else if step.Adopt? {
      AdoptBalanced(st, step.t, step.i, m);
    } else {
      OtherStepsBalanced(st, step, m);
    }
  }

  lemma GivePlace(st: State, u: nat, x: nat, m: nat)
    requires u < |st.threads|
    ensures Sum(st.Give(u, x).threads, Place(m)) == Sum(st.threads, Place(m)) + Is(m)(x)
  {
    SumUpdate(st.threads, u, st.threads[u].Given(x), Place(m));
    SumSnoc(st.threads[u].given, x, Is(m));
  }

  lemma GoOnPlace(st: State, t: nat, m: nat)
    requires t < |st.threads| && st.threads[t].pc.Routing?
    ensures Sum(GoOn(st, t).threads, Place(m)) + Is(m)(st.threads[t].pc.msg) == Sum(st.threads, Place(m))
  {
    SumUpdate(st.threads, t, st.threads[t].(pc := Receiving), Place(m));
  }

  lemma WakePlaces(st: State, u: nat, m: nat)
    ensures Places(st.Wake(u), m) == Places(st, m)
  {
    if u < |st.threads| {
      SumUpdate(st.threads, u, st.threads[u].(event := true), Place(m));
    }
  }

  lemma KeepPlace(st: State, t: nat, m: nat)
    requires t < |st.threads| && st.threads[t].pc.Routing?
    ensures Sum(Keep(st, t, st.threads[t].pc.msg).threads, Place(m)) == Sum(st.threads, Place(m))
  {
    var th := st.threads[t];
    var x := th.pc.msg;
    var kept := th.(pc := Dispatching(x), given := th.given + [x]);
    SumSnoc(th.given, x, Is(m));
    SumUpdate(st.threads, t, kept, Place(m));
    var u := FirstUnset(st.With(t, kept).threads, st.pool);
    if u.Some? {
      WakePlaces(st.With(t, kept), u.value, m);
    }
  }

  lemma PassOnPlace(st: State, t: nat, u: nat, m: nat)
    requires t < |st.threads| && st.threads[t].pc.Routing? && u < |st.threads|
    ensures Sum(GoOn(st, t).Give(u, st.threads[t].pc.msg).threads, Place(m)) == Sum(st.threads, Place(m))
  {
    GoOnPlace(st, t, m);
    GivePlace(GoOn(st, t), u, st.threads[t].pc.msg, m);
  }

  lemma RouteToPoolPlace(st: State, t: nat, m: nat)
    requires t < |st.threads| && st.threads[t].pc.Routing?
    ensures Places(RouteToPool(st, t, st.threads[t].pc.msg), m) == Places(st, m)
  {
    var free := FirstFree(st.threads, st.pool);
    if free.Some? {
      PassOnPlace(st, t, free.value, m);
    } else {
      GoOnPlace(st, t, m);
      SumSnoc(st.submitted, st.threads[t].pc.msg, Is(m));
    }
  }

  lemma RouteKeepsMessage(st: State, t: nat, m: nat)
    requires MessageInv(st, m) && Enabled(st, Route(t))
    ensures MessageInv(Next(st, Route(t)), m)
  {
    var dest := st.threads[t].pc.dest;
    if dest.Unbound? && st.threads[t].occupation != 0 {
      RouteToPoolPlace(st, t, m);
    } else if dest.Unbound? || dest.id == t {
      KeepPlace(st, t, m);
    } else {
      PassOnPlace(st, t, dest.id, m);
    }
  }

  lemma OutPlace(st: State, t: nat, m: nat)
    requires t < |st.threads| && st.threads[t].pc.Receiving?
    ensures Sum(st.With(t, st.threads[t].(pc := Out)).threads, Place(m)) == Sum(st.threads, Place(m))
  {
    SumUpdate(st.threads, t, st.threads[t].(pc := Out), Place(m));
  }

  lemma LeaveKeepsMessage(st: State, step: Step, m: nat)
    requires MessageInv(st, m) && Enabled(st, step) && (step.Timeout? || step.Fail?)
    ensures MessageInv(Next(st, step), m)
  {
    var out := st.With(step.t, st.threads[step.t].(pc := Out)).(receiving := false);
    OutPlace(st, step.t, m);
    if step.Timeout? {
      var u := FirstUnset(out.threads, out.pool);
      if u.Some? {
        WakePlaces(out, u.value, m);
      }
    } else if st.pool != [] {
      WakePlaces(out.(failed := true), st.pool[0], m);
    }
  }

  // ---- messages reach the thread they name ----

  lemma {:induction false} BoundStays(st: State, steps: seq<Step>, end: State, m: nat)
    requires m in st.bound && m < st.received && Run(st, steps, end)
    ensures m in end.bound && end.bound[m] == st.bound[m] && m < end.received && |end.threads| == |st.threads|
    decreases |steps|
  {
    if steps != [] {
      KeepsBound(st, steps[0]);
      BoundStays(Next(st, steps[0]), steps[1..], end, m);
    }
  }

  lemma KeepsBound(st: State, step: Step)
    requires Enabled(st, step)
    ensures var st' := Next(st, step);
            && |st'.threads| == |st.threads| && st.received <= st'.received
            && (if step.Recv? && step.dest.Bound? then st'.bound == st.bound[st.received := step.dest.id]
                else st'.bound == st.bound)
  {
    if step.Route? {
      RouteKeepsRead(st, step.t);
    } else if !OwnStep(step) {
      LeaveRecords(st, step);
    }
  }

  lemma RouteKeepsRead(st: State, t: nat)
    requires Enabled(st, Route(t))
    ensures SameRead(st, Next(st, Route(t)))
  {
    var m, dest := st.threads[t].pc.msg, st.threads[t].pc.dest;
    if (dest.Unbound? && st.threads[t].occupation == 0) || dest == Bound(t) {
      KeepRecords(st, t, m);
    }
  }

  lemma HandOverRecords(st: State)
    ensures var st' := st.HandOver();
            && SameRead(st, st') && st'.submitted == st.submitted && st'.lost == st.lost && !st'.receiving
            && forall i | 0 <= i < |st.threads| :: Woken(st.threads[i], st'.threads[i])
  {
  }

  lemma WakeRecords(st: State, u: nat)
    ensures var st' := st.Wake(u);
            && SameRead(st, st') && st'.submitted == st.submitted && st'.lost == st.lost
            && forall i | 0 <= i < |st.threads| :: Woken(st.threads[i], st'.threads[i])
  {
  }

  lemma LeaveRecords(st: State, step: Step)
    requires Enabled(st, step) && (step.Timeout? || step.Fail?)
    ensures var st', out := Next(st, step), st.threads[step.t].(pc := Out);
            && SameRead(st, st') && st'.submitted == st.submitted && st'.lost == st.lost
            && forall i | 0 <= i < |st.threads| :: Woken(if i == step.t then out else st.threads[i], st'.threads[i])
  {
    var left := st.With(step.t, st.threads[step.t].(pc := Out));
    if step.Timeout? {
      HandOverRecords(left);
    } else if st.pool != [] {
      WakeRecords(left.(receiving := false, failed := true), st.pool[0]);
    }
  }

  lemma KeepRecords(st: State, t: nat, m: nat)
    requires t < |st.threads|
    ensures var st', kept := Keep(st, t, m), st.threads[t].(pc := Dispatching(m), given := st.threads[t].given + [m]);
            && SameRead(st, st') && st'.submitted == st.submitted && st'.lost == st.lost && !st'.receiving
            && forall i | 0 <= i < |st.threads| :: Woken(if i == t then kept else st.threads[i], st'.threads[i])
  {
    var th := st.threads[t];
    HandOverRecords(st.With(t, th.(pc := Dispatching(m), given := th.given + [m])));
  }

  lemma PoolReaches(st: State, t: nat, m: nat)
    requires t < |st.threads| && st.threads[t].occupation != 0
    ensures var st' := RouteToPool(st, t, m);
            && |st'.threads| == |st.threads|
            && if exists u :: Free(st, u) then exists u :: Free(st, u) && u != t && Handed(st, st', t, u, m)
               else st'.submitted == st.submitted + [m] && st'.threads == st.threads[t := st'.threads[t]]
                    && st'.threads[t] == st.threads[t].(pc := Receiving)
  {
    var free := FirstFree(st.threads, st.pool);
    if free.Some? {
      GivesRecords(st, t, free.value, m);
      assert Free(st, free.value);
    }
  }

  lemma GivesRecords(st: State, t: nat, u: nat, m: nat)
    requires t < |st.threads| && u < |st.threads| && t != u
    ensures Handed(st, GoOn(st, t).Give(u, m), t, u, m)
  {
  }

  lemma NotIn(s: seq<nat>, m: nat)
    requires m !in s
    ensures Copies(s, m) == 0
  {
    if s != [] {
      NotIn(s[1..], m);
    }
  }

  lemma {:induction false} SomePlace(threads: seq<Thread>, m: nat) returns (t: nat)
    requires Sum(threads, Place(m)) > 0
    ensures t < |threads| && (m in threads[t].given || (threads[t].pc.Routing? && threads[t].pc.msg == m))
  {
    if Place(m)(threads[0]) > 0 {
      t := 0;
      if m !in threads[0].given {
        NotIn(threads[0].given, m);
      }
    } else {
      var u := SomePlace(threads[1..], m);
      t := u + 1;
    }
  }

  lemma {:induction false} ReachableRun(threads: nat, st: State, steps: seq<Step>, end: State)
    requires Reachable(threads, st) && Run(st, steps, end)
    ensures Reachable(threads, end)
    decreases |steps|
  {
    if steps != [] {
      OneMore(threads, st, steps[0]);
      ReachableRun(threads, Next(st, steps[0]), steps[1..], end);
    }
  }

  lemma ReachableDest(threads: nat, st: State)
    requires Reachable(threads, st)
    ensures DestInv(st)
  {
    var steps :| Run(Start(threads), steps, st);
    RunKeepsDest(Start(threads), steps, st);
  }

  lemma {:induction false} RunKeepsDest(st: State, steps: seq<Step>, end: State)
    requires DestInv(st) && Run(st, steps, end)
    ensures DestInv(end)
    decreases |steps|
  {
    if steps != [] {
      StepKeepsDest(st, steps[0]);
      RunKeepsDest(Next(st, steps[0]), steps[1..], end);
    }
  }

  lemma StepKeepsDest(st: State, step: Step)
    requires DestInv(st) && Enabled(st, step)
    ensures DestInv(Next(st, step))
  {
    ListsKeepDest(st, step);
    if step.Route? {
      RouteKeepsDest(st, step.t);
    } else if OwnStep(step) {
      OwnStepDest(st, step);
    } else {
      LeaveKeepsDest(st, step);
    }
  }

  lemma ListsKeepDest(st: State, step: Step)
    requires DestInv(st) && Enabled(st, step)
    ensures ListsOk(Next(st, step))
  {
    assert DestOk(st.bound, st.received, step.t, st.threads[step.t]);
    if step.Route? {
      RouteKeepsLists(st, step.t);
    } else if OwnStep(step) {
      OwnStepKeepsLists(st, step);
    } else {
      LeaveRecords(st, step);
    }
  }

  lemma RouteKeepsLists(st: State, t: nat)
    requires DestInv(st) && Enabled(st, Route(t))
    ensures ListsOk(Next(st, Route(t)))
  {
    var m, dest := st.threads[t].pc.msg, st.threads[t].pc.dest;
    assert DestOk(st.bound, st.received, t, st.threads[t]);
    if dest.Unbound? && st.threads[t].occupation != 0 {
      PoolLists(st, t, m);
    } else if dest.Unbound? || dest.id == t {
      KeepRecords(st, t, m);
    }
  }

  lemma PoolLists(st: State, t: nat, m: nat)
    requires t < |st.threads|
    ensures var st' := RouteToPool(st, t, m);
            SameRead(st, st') && st'.lost == st.lost && (st'.submitted == st.submitted || st'.submitted == st.submitted + [m])
  {
  }

  lemma OwnStepKeepsLists(st: State, step: Step)
    requires DestInv(st) && Enabled(st, step) && OwnStep(step)
    ensures ListsOk(Next(st, step))
  {
    if step.Adopt? {
      WithoutIn(st.submitted, step.i);
    } else if step.Recv? || step.Short? || step.SubmitFails? {
      ReadingKeepsLists(st, step);
    } else {
      var st' := Next(st, step);
      assert SameRead(st, st') && st'.submitted == st.submitted && st'.lost == st.lost;
    }
  }

  lemma ReadingKeepsLists(st: State, step: Step)
    requires DestInv(st) && Enabled(st, step) && (step.Recv? || step.Short? || step.SubmitFails?)
    ensures ListsOk(Next(st, step))
  {
    assert DestOk(st.bound, st.received, step.t, st.threads[step.t]);
    assert Next(st, step).submitted == st.submitted;
  }

  lemma WithoutIn(s: seq<nat>, i: nat)
    requires i < |s|
    ensures s[i] in s && forall m | m in Without(s, i) :: m in s
  {
  }

  lemma OwnStepDest(st: State, step: Step)
    requires DestInv(st) && Enabled(st, step) && OwnStep(step)
    ensures var st' := Next(st, step);
            forall i | 0 <= i < |st'.threads| :: DestOk(st'.bound, st'.received, i, st'.threads[i])
  {
    var st' := Next(st, step);
    OwnStepFrame(st, step);
    OwnRecordDest(st, step);
    KeepsBound(st, step);
    forall i | 0 <= i < |st'.threads| ensures DestOk(st'.bound, st'.received, i, st'.threads[i]) {
      assert DestOk(st.bound, st.received, i, st.threads[i]);
    }
  }

  lemma OwnRecordDest(st: State, step: Step)
    requires DestInv(st) && Enabled(st, step) && OwnStep(step)
    ensures var st' := Next(st, step); DestOk(st'.bound, st'.received, step.t, st'.threads[step.t])
  {
    var th, st' := st.threads[step.t], Next(st, step);
    assert DestOk(st.bound, st.received, step.t, th);
    if step.Adopt? {
      assert st.submitted[step.i] in st.submitted;
      assert st'.threads[step.t].given == th.given + [st.submitted[step.i]];
    } else if step.Recv? {
      assert st'.threads[step.t].given == th.given && st.received !in st.bound;
    } else {
      OtherRecordsSame(st, step);
    }
  }

  lemma OtherRecordsSame(st: State, step: Step)
    requires Enabled(st, step) && OwnStep(step) && !step.Adopt? && !step.Recv?
    ensures var st', t := Next(st, step), step.t;
            && st'.bound == st.bound && st.received <= st'.received
            && st'.threads[t].given == st.threads[t].given && !st'.threads[t].pc.Routing?
  {
    if step.Enter? || step.Check? {
      PickUpSame(st, step);
    }
  }

  lemma PickUpSame(st: State, step: Step)
    requires Enabled(st, step) && (step.Enter? || step.Check?)
    ensures var st', t := Next(st, step), step.t;
            && st'.bound == st.bound && st.received == st'.received
            && st'.threads[t].given == st.threads[t].given && !st'.threads[t].pc.Routing?
  {
  }

  lemma LeaveKeepsDest(st: State, step: Step)
    requires DestInv(st) && Enabled(st, step) && (step.Timeout? || step.Fail?)
    ensures var st' := Next(st, step);
            forall i | 0 <= i < |st'.threads| :: DestOk(st'.bound, st'.received, i, st'.threads[i])
  {
    var st' := Next(st, step);
    LeaveRecords(st, step);
    forall i | 0 <= i < |st'.threads| ensures DestOk(st'.bound, st'.received, i, st'.threads[i]) {
      assert DestOk(st.bound, st.received, i, st.threads[i]);
    }
  }

  lemma RouteKeepsDest(st: State, t: nat)
    requires DestInv(st) && Enabled(st, Route(t))
    ensures var st' := Next(st, Route(t));
            forall i | 0 <= i < |st'.threads| :: DestOk(st'.bound, st'.received, i, st'.threads[i])
  {
    RouteKeepsRead(st, t);
    forall i | 0 <= i < |st.threads|
      ensures DestOk(st.bound, st.received, i, Next(st, Route(t)).threads[i])
    {
      assert DestOk(st.bound, st.received, i, st.threads[i]);
      assert DestOk(st.bound, st.received, t, st.threads[t]);
      RoutedRecord(st, t, i);
    }
  }

  /** A record that routing changes gets nothing but the message, and that only if it named the thread or none. */
  lemma RoutedRecord(st: State, t: nat, i: nat)
    requires Enabled(st, Route(t)) && i < |st.threads|
    ensures var st', m, dest := Next(st, Route(t)), st.threads[t].pc.msg, st.threads[t].pc.dest;
            && i < |st'.threads| && (st'.threads[i].pc.Routing? ==> st'.threads[i].pc == st.threads[i].pc)
            && (st'.threads[i].given == st.threads[i].given
                || (st'.threads[i].given == st.threads[i].given + [m] && (dest.Unbound? || dest.id == i)))
  {
    var m, dest := st.threads[t].pc.msg, st.threads[t].pc.dest;
    if dest.Unbound? && st.threads[t].occupation != 0 {
      PoolRecord(st, t, m, i);
    } else if dest.Unbound? || dest.id == t {
      KeepRecords(st, t, m);
    } else {
      GivesRecords(st, t, dest.id, m);
    }
  }

  lemma PoolRecord(st: State, t: nat, m: nat, i: nat)
    requires t < |st.threads| && st.threads[t].pc.Routing? && st.threads[t].occupation != 0 && i < |st.threads|
    ensures var st' := RouteToPool(st, t, m);
            && i < |st'.threads| && (st'.threads[i].pc.Routing? ==> st'.threads[i].pc == st.threads[i].pc)
            && (st'.threads[i].given == st.threads[i].given || st'.threads[i].given == st.threads[i].given + [m])
  {
    var free := FirstFree(st.threads, st.pool);
    if free.Some? {
      GivesRecords(st, t, free.value, m);
    }
  }

  // ---- nobody sleeps while the baton lies down ----

  lemma {:induction false} NoRepeatSnoc(pool: seq<nat>, t: nat)
    requires NoRepeat(pool) && t !in pool
    ensures NoRepeat(pool + [t])
  {
    if pool != [] {
      assert (pool + [t])[1..] == pool[1..] + [t];
      NoRepeatSnoc(pool[1..], t);
    }
  }

  lemma {:induction false} RemoveOne(pool: seq<nat>, t: nat)
    ensures forall x | x != t :: x in Remove(pool, t) <==> x in pool
    ensures forall x | x in Remove(pool, t) :: x in pool
    ensures NoRepeat(pool) ==> NoRepeat(Remove(pool, t)) && t !in Remove(pool, t)
  {
    if pool != [] && pool[0] != t {
      RemoveOne(pool[1..], t);
      assert Remove(pool, t)[1..] == Remove(pool[1..], t);
    }
  }

  lemma CheckKeepsPool(st: State, t: nat)
    requires PoolInv(st) && Enabled(st, Check(t))
    ensures PoolInv(Next(st, Check(t)))
  {
    var th := st.threads[t];
    if th.event && (th.deque != [] || !st.receiving) {
      LeavingKeepsPool(st, Next(st, Check(t)), t);
    }
  }

  lemma LeavingKeepsPool(st: State, st': State, t: nat)
    requires PoolInv(st) && t < |st.threads| && |st'.threads| == |st.threads|
    requires st'.threads == st.threads[t := st'.threads[t]] && !st'.threads[t].pc.Waiting?
    requires st'.pool == Remove(st.pool, t) && st'.departed == st.departed
    ensures PoolInv(st')
  {
    RemoveOne(st.pool, t);
  }

  lemma EnterKeepsPool(st: State, t: nat)
    requires PoolInv(st) && Enabled(st, Enter(t))
    ensures PoolInv(Next(st, Enter(t)))
  {
    if !st.departed {
      assert t !in st.pool;
      NoRepeatSnoc(st.pool, t);
    }
  }

  lemma OtherStepsSamePool(st: State, step: Step)
    requires Enabled(st, step) && OwnStep(step) && !step.Enter? && !step.Check?
    ensures SamePool(st, Next(st, step))
  {
    OwnStepFrame(st, step);
  }

  lemma OwnStepKeepsPool(st: State, step: Step)
    requires PoolInv(st) && Enabled(st, step) && OwnStep(step)
    ensures PoolInv(Next(st, step))
  {
    if step.Enter? {
      EnterKeepsPool(st, step.t);
    } else if step.Check? {
      CheckKeepsPool(st, step.t);
    } else {
      OtherStepsSamePool(st, step);
    }
  }

  lemma KeepSamePool(st: State, t: nat, m: nat)
    requires t < |st.threads| && st.threads[t].InLoop()
    ensures SamePool(st, Keep(st, t, m))
  {
    var th := st.threads[t];
    var kept := st.With(t, th.(pc := Dispatching(m), given := th.given + [m]));
    assert SamePool(st, kept);
    assert SamePool(kept, kept.HandOver());
  }

  lemma GoOnSamePool(st: State, t: nat, u: nat, m: nat)
    requires t < |st.threads| && st.threads[t].InLoop()
    ensures SamePool(st, GoOn(st, t)) && SamePool(st, GoOn(st, t).Give(u, m))
  {
  }

  lemma RouteSamePool(st: State, t: nat)
    requires Enabled(st, Route(t))
    ensures SamePool(st, Next(st, Route(t)))
  {
    var m, dest := st.threads[t].pc.msg, st.threads[t].pc.dest;
    if dest.Unbound? && st.threads[t].occupation != 0 {
      var free := FirstFree(st.threads, st.pool);
      GoOnSamePool(st, t, if free.Some? then free.value else t, m);
    } else if dest.Unbound? || dest.id == t {
      KeepSamePool(st, t, m);
    } else {
      GoOnSamePool(st, t, dest.id, m);
    }
  }

  lemma LeaveSamePool(st: State, step: Step)
    requires Enabled(st, step) && (step.Timeout? || step.Fail?)
    ensures SamePool(st, Next(st, step))
  {
  }

  lemma LoopMeansReceiving(st: State, t: nat)
    requires BatonInv(st) && t < |st.threads| && st.threads[t].InLoop()
    ensures st.receiving && st.lost == [] && st.aborted == 0
  {
    SumWithout(st.threads, t, LoopWeight());
  }

  // ---- which steps stall ----

  lemma {:induction false} FirstUnsetAfter(threads: seq<Thread>, t: nat, th: Thread, pool: seq<nat>)
    requires t < |threads| && th.event == threads[t].event
    ensures FirstUnset(threads[t := th], pool) == FirstUnset(threads, pool)
  {
    if pool != [] {
      FirstUnsetAfter(threads, t, th, pool[1..]);
    }
  }

  /** Waking a thread leaves the others asleep as they were, and makes a carrier of a sleeper. */
  lemma WakeStalls(st: State, u: nat)
    requires ThreadsInv(st) && !st.receiving
    ensures Stalled(st.Wake(u)) <==> (exists t :: Asleep(st, t)) && (forall t :: !Carrier(st, t)) && !Asleep(st, u)
  {
    var st' := st.Wake(u);
    if Asleep(st, u) {
      assert ThreadInv(st.threads[u]);
      assert Carrier(st', u);
    } else {
      assert forall t :: Asleep(st', t) <==> Asleep(st, t);
      assert forall t :: Carrier(st', t) <==> Carrier(st, t);
    }
  }

  /** With nobody left to wake nobody sleeps. */
  lemma NobodyToWake(st: State)
    requires Pooled(st) && FirstUnset(st.threads, st.pool).None?
    ensures forall t :: !Asleep(st, t)
  {
  }

  /** The receiver's own record changes, and the baton goes down. */
  lemma LeavingStalls(st: State, t: nat, th: Thread, u: Option<nat>, failed: bool)
    requires ThreadsInv(st) && Pooled(st) && t < |st.threads| && st.threads[t].InLoop()
    requires ThreadInv(th) && (th.pc.Out? || th.pc.Dispatching?) && th.event == st.threads[t].event
    requires u.None? ==> forall w :: !Asleep(st, w)
    ensures var left := st.With(t, th).(receiving := false, failed := failed);
            Stalled(if u.None? then left else left.Wake(u.value)) <==>
              (exists w :: Asleep(st, w)) && (forall c :: !Carrier(st, c)) && !(u.Some? && Asleep(st, u.value))
  {
    var left := st.With(t, th).(receiving := false, failed := failed);
    assert forall w :: Asleep(left, w) <==> Asleep(st, w);
    assert forall c :: Carrier(left, c) <==> Carrier(st, c);
    if u.Some? {
      WakeStalls(left, u.value);
    }
  }

  lemma OwnStepNotStalled(st: State, step: Step)
    requires BatonInv(st) && Enabled(st, step) && OwnStep(step) && !Stalled(st)
    ensures !Stalled(Next(st, step))
  {
    var st', t := Next(st, step), step.t;
    OwnStepFrame(st, step);
    if st.threads[t].InLoop() {
      LoopMeansReceiving(st, t);
    }
    if !st'.receiving && exists w :: Asleep(st', w) {
      var w :| Asleep(st', w);
      assert Asleep(st, w);
      var c :| Carrier(st, c);
      assert Carrier(st', c);
    }
  }

  lemma RoutingOnNotStalled(st: State, t: nat)
    requires BatonInv(st) && Enabled(st, Route(t)) && !Keeps(st, t)
    ensures !Stalled(Next(st, Route(t)))
  {
    LoopMeansReceiving(st, t);
  }

  /** As long as the pool holds nobody but the waiting threads, a hand-over wakes a sleeper if there is one. */
  lemma ExactPoolWakes(st: State, step: Step)
    requires PoolInv(st) && !st.departed && !step.Fail? && exists t :: Asleep(st, t)
    ensures WakesSleeper(st, step)
  {
    var t :| Asleep(st, t);
    assert t in st.pool;
  }

  // ---- the start, the flags and the losses ----

  lemma {:induction false} StartSums(threads: nat, w: Thread -> nat)
    requires w(Thread(Out, false, [], 0, [], [])) == 0
    ensures Sum(Start(threads).threads, w) == 0
  {
    if threads > 0 {
      assert Start(threads).threads[1..] == Start(threads - 1).threads;
      StartSums(threads - 1, w);
    }
  }

  lemma StartInv(threads: nat)
    ensures Inv(Start(threads))
  {
    StartSums(threads, LoopWeight());
    forall m ensures MessageInv(Start(threads), m) {
      StartSums(threads, Place(m));
    }
  }

  lemma {:induction false} FlagsOfRun(st: State, steps: seq<Step>, end: State)
    requires Run(st, steps, end)
    ensures (end.departed || !st.departed) && (end.failed || !st.failed)
    decreases |steps|
  {
    if steps != [] {
      FlagsStay(st, steps[0]);
      FlagsOfRun(Next(st, steps[0]), steps[1..], end);
    }
  }

  lemma FlagsStay(st: State, step: Step)
    requires Enabled(st, step)
    ensures Next(st, step).departed || !st.departed
    ensures Next(st, step).failed || !st.failed
  {
  }

  lemma LossesOf(st: State, step: Step)
    requires Enabled(st, step)
    ensures |Next(st, step).lost| + Next(st, step).aborted
            == |st.lost| + st.aborted + if step.Short? || step.CloseRaises? || step.SubmitFails? then 1 else 0
  {
    if step.Route? {
      KeepsLosses(st, step.t, st.threads[step.t].pc.msg, st.threads[step.t].pc.dest);
    }
  }

  lemma KeepsLosses(st: State, t: nat, m: nat, dest: Dest)
    requires t < |st.threads|
    ensures RouteMessage(st, t, m, dest).lost == st.lost && RouteMessage(st, t, m, dest).aborted == st.aborted
  {
  }

  // ---- the runs, up to the step that shows it ----

  lemma GhostIsWoken()
    ensures var st' := Next(Three(Receiving, Out, Waiting, [1, 2], true, true), Timeout(0));
            && st'.threads == [Quiet(Out), Quiet(Out).(event := true), Quiet(Waiting)]
            && !st'.receiving && !st'.failed && st'.lost == []
  {
    var left := Three(Receiving, Out, Waiting, [1, 2], true, true).With(0, Quiet(Out));
    assert left.threads == [Quiet(Out), Quiet(Out), Quiet(Waiting)];
    assert FirstUnset(left.threads, [1, 2]) == Some(1);
  }

  lemma {:induction false} RunSnoc(st: State, steps: seq<Step>, mid: State, step: Step)
    requires Run(st, steps, mid) && Enabled(mid, step)
    ensures Run(st, steps + [step], Next(mid, step))
    decreases |steps|
  {
    if steps == [] {
      assert [step][1..] == [];
      assert steps + [step] == [step];
    } else {
      assert (steps + [step])[1..] == steps[1..] + [step];
      RunSnoc(Next(st, steps[0]), steps[1..], mid, step);
    }
  }

  lemma OneMore(threads: nat, st: State, step: Step)
    requires Reachable(threads, st) && Enabled(st, step)
    ensures Reachable(threads, Next(st, step))
  {
    var steps :| Run(Start(threads), steps, st);
    RunSnoc(Start(threads), steps, st, step);
  }

  lemma FirstReceives()
    ensures Reachable(3, Three(Receiving, Out, Out, [], true, false))
  {
    assert Run(Start(3), [], Start(3));
    assert Start(3) == Three(Out, Out, Out, [], false, false);
    OneMore(3, Start(3), Enter(0));
    assert Next(Start(3), Enter(0)).threads == [Quiet(Receiving), Quiet(Out), Quiet(Out)];
  }

  lemma SecondWaits()
    ensures Reachable(3, Three(Receiving, Waiting, Out, [1], true, false))
  {
    var st := Three(Receiving, Out, Out, [], true, false);
    FirstReceives();
    OneMore(3, st, Enter(1));
    assert Next(st, Enter(1)).threads == [Quiet(Receiving), Quiet(Waiting), Quiet(Out)];
    assert Next(st, Enter(1)).pool == [1];
  }

  lemma SecondLeaves()
    ensures Reachable(3, Three(Receiving, Out, Out, [1], true, true))
  {
    var st := Three(Receiving, Waiting, Out, [1], true, false);
    SecondWaits();
    OneMore(3, st, Check(1));
    assert Next(st, Check(1)).threads == [Quiet(Receiving), Quiet(Out), Quiet(Out)];
  }

  /** The first thread receives, the second has left after its wait timed out, the third waits. */
  lemma GhostInPool()
    ensures Reachable(3, Three(Receiving, Out, Waiting, [1, 2], true, true))
  {
    var st := Three(Receiving, Out, Out, [1], true, true);
    SecondLeaves();
    OneMore(3, st, Enter(2));
    assert Next(st, Enter(2)).threads == [Quiet(Receiving), Quiet(Out), Quiet(Waiting)];
    assert Next(st, Enter(2)).pool == [1, 2];
  }

  lemma ThirdWaits()
    ensures Reachable(3, Three(Receiving, Waiting, Waiting, [1, 2], true, false))
  {
    var st := Three(Receiving, Waiting, Out, [1], true, false);
    SecondWaits();
    OneMore(3, st, Enter(2));
    assert Next(st, Enter(2)).threads == [Quiet(Receiving), Quiet(Waiting), Quiet(Waiting)];
    assert Next(st, Enter(2)).pool == [1, 2];
  }

  lemma SecondIsGiven()
    ensures Reachable(3, SERVED)
  {
    var st := Three(Receiving, Waiting, Waiting, [1, 2], true, false);
    ThirdWaits();
    OneMore(3, st, Recv(0, Bound(1)));
    var st' := Next(st, Recv(0, Bound(1)));
    assert st'.threads == [Quiet(Routing(0, Bound(1))), Quiet(Waiting), Quiet(Waiting)];
    OneMore(3, st', Route(0));
    assert Next(st', Route(0)).threads == SERVED.threads;
  }
}
