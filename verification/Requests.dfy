/** The table of outstanding requests and the results registered in it: requests, replies, cancellations, garbage
    collection and table clears in any interleaving. */
module Requests {
  import opened Core

  /** Where the delivery of a result is. While the callbacks run, `detached` holds those left of a list that a
      cancellation has replaced. */
  datatype Delivery =
    | Pending
    | Popped(reply: nat)                    // a reply with this number took the slot
    | Looping(detached: Option<seq<nat>>)   // set, running the callbacks
    | Clearing                              // the loop is over, the list still to be emptied
    | Finished

  /** `callbacks` are those still to run; registrations are numbered, and end up among `ran` or `dropped`. `sets`
      lists the reply numbers the result was set by. */
  datatype AsyncResult = AsyncResult(number: nat, stamped: bool, delivery: Delivery, ready: bool, sets: seq<nat>,
                           callbacks: seq<nat>, ran: seq<nat>, dropped: seq<nat>)

  /** An `add_callback` that found the result not ready, about to append. */
  datatype Adder = Adder(r: nat, k: nat)

  datatype State = State(next: nat, table: map<nat, nat>, results: seq<AsyncResult>, adders: seq<Adder>, registered: nat)

  const START := State(0, map[], [], [], 0)

  datatype Step =
    | Request
    | Stamp(r: nat)
    | SendFails(r: nat)
    | Reply(number: nat)                 // any number, expected or not, first or duplicate
    | Deliver(r: nat, expired: bool)
    | RunCallback(r: nat)
    | CallbackRaises(r: nat)             // the callback is called and raises, which ends the loop
    | EndLoop(r: nat)
    | EmptyList(r: nat)
    | AddCallback(r: nat)
    | Append(i: nat)
    | FutureDone(r: nat)                 // an awaiter was cancelled, timed out or got its result
    | Collect(r: nat)                    // `__del__`
    | ClearTable                         // quarantine or close

  function Left(res: AsyncResult): seq<nat> {
    if res.delivery.Looping? && res.delivery.detached.Some? then res.delivery.detached.value else res.callbacks
  }

  predicate Enabled(st: State, step: Step) {
    match step
    case Request => true
    case Reply(_) => true
    case ClearTable => true
    case Append(i) => i < |st.adders| && st.adders[i].r < |st.results|
    case Stamp(r) => r < |st.results|
    case SendFails(r) => r < |st.results|
    case AddCallback(r) => r < |st.results|
    case FutureDone(r) => r < |st.results|
    case Collect(r) => r < |st.results|
    case Deliver(r, _) => r < |st.results| && st.results[r].delivery.Popped?
    case RunCallback(r) => r < |st.results| && st.results[r].delivery.Looping? && Left(st.results[r]) != []
    case CallbackRaises(r) => r < |st.results| && st.results[r].delivery.Looping? && Left(st.results[r]) != []
    case EndLoop(r) => r < |st.results| && st.results[r].delivery.Looping? && Left(st.results[r]) == []
    case EmptyList(r) => r < |st.results| && st.results[r].delivery.Clearing?
  }

  function With(st: State, r: nat, res: AsyncResult): State
    requires r < |st.results|
  {
    st.(results := st.results[r := res])
  }

  function Next(st: State, step: Step): State
    requires Enabled(st, step)
  {
    match step
    case Request =>
      st.(next := st.next + 1, table := st.table[st.next := |st.results|],
          results := st.results + [AsyncResult(st.next, false, Pending, false, [], [], [], [])])
    case Reply(number) =>
      if number in st.table && st.table[number] < |st.results| then
        var r := st.table[number];
        With(st, r, st.results[r].(delivery := Popped(number))).(table := st.table - {number})
      else st
    case ClearTable => st.(table := map[])
    case Append(i) =>
      var a := st.adders[i];
      var res := st.results[a.r];
      With(st, a.r, res.(callbacks := res.callbacks + [a.k])).(adders := Without(st.adders, i))
    case Stamp(r) => With(st, r, st.results[r].(stamped := true))
    case SendFails(r) => st.(table := st.table - {st.results[r].number})
    case AddCallback(r) =>
      var res := st.results[r];
      if res.ready then With(st, r, res.(ran := res.ran + [st.registered])).(registered := st.registered + 1)
      else st.(adders := st.adders + [Adder(r, st.registered)], registered := st.registered + 1)
    case FutureDone(r) =>
      var res := st.results[r];
      With(st, r, CallbacksReplaced(res)).(table := if res.stamped then st.table - {res.number} else st.table)
    case Collect(r) =>
      var n := st.results[r].number;
      if st.results[r].stamped && n in st.table && st.table[n] == r then st.(table := st.table - {n}) else st
    case Deliver(r, expired) => With(st, r, Delivered(st.results[r], expired))
    case RunCallback(r) => With(st, r, CallbackRun(st.results[r]))
    case CallbackRaises(r) => With(st, r, LoopBroken(st.results[r]))
    case EndLoop(r) => With(st, r, st.results[r].(delivery := Clearing))
    case EmptyList(r) =>
      var res := st.results[r];
      With(st, r, res.(delivery := Finished, callbacks := [], dropped := res.dropped + res.callbacks))
  }

  /** `__call__` up to its loop: an expired result is left as it is. */
  function Delivered(res: AsyncResult, expired: bool): AsyncResult
    requires res.delivery.Popped?
  {
    if expired && !res.ready then res.(delivery := Finished)
    else res.(delivery := Looping(None), ready := true, sets := res.sets + [res.delivery.reply])
  }

  function CallbackRun(res: AsyncResult): AsyncResult
    requires res.delivery.Looping? && Left(res) != []
  {
    var now := res.(ran := res.ran + [Left(res)[0]]);
    if res.delivery.detached.Some? then now.(delivery := Looping(Some(Left(res)[1..])))
    else now.(callbacks := res.callbacks[1..])
  }

  /** The list is not emptied: what is left of it stays with the result, or goes with a list that was replaced. */
  function LoopBroken(res: AsyncResult): AsyncResult
    requires res.delivery.Looping? && Left(res) != []
  {
    var now := CallbackRun(res).(delivery := Finished);
    if res.delivery.detached.Some? then now.(dropped := res.dropped + Left(res)[1..]) else now
  }

  /** The list is replaced by an empty one; a loop under way goes on over the old list. */
  function CallbacksReplaced(res: AsyncResult): AsyncResult {
    if res.delivery == Looping(None) then res.(delivery := Looping(Some(res.callbacks)), callbacks := [])
    else res.(callbacks := [], dropped := res.dropped + res.callbacks)
  }

  ghost predicate Run(st: State, steps: seq<Step>, end: State)
    decreases |steps|
  {
    if steps == [] then st == end
    else Enabled(st, steps[0]) && Run(Next(st, steps[0]), steps[1..], end)
  }

  ghost predicate Reachable(st: State) {
    exists steps :: Run(START, steps, st)
  }

  // ---- slots ----

  /** Numbers are given out in order, so no two results share one. */
  ghost predicate NumbersInv(st: State) {
    st.next == |st.results| && forall r | 0 <= r < |st.results| :: st.results[r].number == r
  }

  /** A slot holds the result that was given its number, and a result with a slot has had no reply yet. */
  ghost predicate SlotsInv(st: State) {
    forall n | n in st.table :: st.table[n] == n && n < |st.results| && st.results[n].delivery.Pending?
  }

  /** Set at most once, and by the reply with the result's own number. */
  predicate SetOnce(res: AsyncResult) {
    && (res.delivery.Popped? ==> res.delivery.reply == res.number)
    && (res.delivery.Pending? || res.delivery.Popped? ==> res.sets == [])
    && (res.sets == [] || res.sets == [res.number])
    && (res.ready <==> res.sets != [])
    && (res.ran != [] || res.delivery.Looping? ==> res.ready)
  }

  ghost predicate ResultsInv(st: State) {
    forall r | 0 <= r < |st.results| :: SetOnce(st.results[r])
  }

  ghost predicate Inv(st: State) {
    NumbersInv(st) && SlotsInv(st) && ResultsInv(st)
  }

  lemma StepKeepsNumbers(st: State, step: Step)
    requires NumbersInv(st) && Enabled(st, step)
    ensures NumbersInv(Next(st, step))
  {
  }

  lemma StepKeepsSlots(st: State, step: Step)
    requires NumbersInv(st) && SlotsInv(st) && Enabled(st, step)
    ensures SlotsInv(Next(st, step))
  {
  }

  lemma StepKeepsResults(st: State, step: Step)
    requires Inv(st) && Enabled(st, step)
    ensures ResultsInv(Next(st, step))
  {
    if step.Deliver? {
      var res := st.results[step.r];
      assert SetOnce(res) && res.sets + [res.delivery.reply] == [res.number];
    }
  }

  lemma {:induction false} RunKeepsInv(st: State, steps: seq<Step>, end: State)
    requires Inv(st) && Run(st, steps, end)
    ensures Inv(end)
    decreases |steps|
  {
    if steps != [] {
      StepKeepsNumbers(st, steps[0]);
      StepKeepsSlots(st, steps[0]);
      StepKeepsResults(st, steps[0]);
      RunKeepsInv(Next(st, steps[0]), steps[1..], end);
    }
  }

  lemma ReachableInv(st: State)
    requires Reachable(st)
    ensures Inv(st)
  {
    var steps :| Run(START, steps, st);
    RunKeepsInv(START, steps, st);
  }

  // ---- callbacks ----

  function Detached(res: AsyncResult): seq<nat> {
    if res.delivery.Looping? && res.delivery.detached.Some? then res.delivery.detached.value else []
  }

  /** The copies of a registration with one result: run, dropped, or still to run. */
  function Held(res: AsyncResult, k: nat): nat {
    Copies(res.ran, k) + Copies(res.dropped, k) + Copies(res.callbacks, k) + Copies(Detached(res), k)
  }

  function Holding(k: nat): AsyncResult -> nat {
    (res: AsyncResult) => Held(res, k)
  }

  function Adding(k: nat): Adder -> nat {
    (a: Adder) => Is(k)(a.k)
  }

  function Places(st: State, k: nat): nat {
    Sum(st.results, Holding(k)) + Sum(st.adders, Adding(k))
  }

  function Registered(st: State, k: nat): nat {
    if k < st.registered then 1 else 0
  }

  predicate CallbackInv(st: State, k: nat) {
    Places(st, k) == Registered(st, k)
  }

  lemma RunHolds(res: AsyncResult, k: nat)
    requires res.delivery.Looping? && Left(res) != []
    ensures Held(CallbackRun(res), k) == Held(res, k)
  {
    SumSnoc(res.ran, Left(res)[0], Is(k));
  }

  lemma BrokenHolds(res: AsyncResult, k: nat)
    requires res.delivery.Looping? && Left(res) != []
    ensures Held(LoopBroken(res), k) == Held(res, k)
  {
    SumSnoc(res.ran, Left(res)[0], Is(k));
    SumConcat(res.dropped, Left(res)[1..], Is(k));
  }

  lemma ReplacedHolds(res: AsyncResult, k: nat)
    ensures Held(CallbacksReplaced(res), k) == Held(res, k)
  {
    SumConcat(res.dropped, res.callbacks, Is(k));
  }

  /** A step that changes one result and moves no registration in or out of it. */
  lemma Moved(st: State, r: nat, res: AsyncResult, k: nat)
    requires CallbackInv(st, k) && r < |st.results| && Held(res, k) == Held(st.results[r], k)
    ensures CallbackInv(With(st, r, res), k)
  {
    SumUpdate(st.results, r, res, Holding(k));
  }

  lemma AppendKeeps(st: State, i: nat, k: nat)
    requires CallbackInv(st, k) && Enabled(st, Append(i))
    ensures CallbackInv(Next(st, Append(i)), k)
  {
    var a := st.adders[i];
    var res := st.results[a.r];
    SumWithout(st.adders, i, Adding(k));
    SumSnoc(res.callbacks, a.k, Is(k));
    SumUpdate(st.results, a.r, res.(callbacks := res.callbacks + [a.k]), Holding(k));
  }

  lemma AddKeeps(st: State, r: nat, k: nat)
    requires CallbackInv(st, k) && Enabled(st, AddCallback(r))
    ensures CallbackInv(Next(st, AddCallback(r)), k)
  {
    var res := st.results[r];
    if res.ready {
      SumSnoc(res.ran, st.registered, Is(k));
      SumUpdate(st.results, r, res.(ran := res.ran + [st.registered]), Holding(k));
    } else {
      SumSnoc(st.adders, Adder(r, st.registered), Adding(k));
    }
  }

  lemma OtherStepsKeep(st: State, step: Step, k: nat)
    requires CallbackInv(st, k) && Enabled(st, step) && !step.Append? && !step.AddCallback?
    requires !step.Request? && !step.Reply?
    ensures CallbackInv(Next(st, step), k)
  {
    match step
    case Stamp(r) => Moved(st, r, st.results[r].(stamped := true), k);
    case Deliver(r, expired) => Moved(st, r, Delivered(st.results[r], expired), k);
    case RunCallback(r) =>
      RunHolds(st.results[r], k);
      Moved(st, r, CallbackRun(st.results[r]), k);
    case CallbackRaises(r) =>
      BrokenHolds(st.results[r], k);
      Moved(st, r, LoopBroken(st.results[r]), k);
    case EndLoop(r) => Moved(st, r, st.results[r].(delivery := Clearing), k);
    case EmptyList(r) =>
      var res := st.results[r];
      SumConcat(res.dropped, res.callbacks, Is(k));
      Moved(st, r, res.(delivery := Finished, callbacks := [], dropped := res.dropped + res.callbacks), k);
    case FutureDone(r) =>
      ReplacedHolds(st.results[r], k);
      Moved(st, r, CallbacksReplaced(st.results[r]), k);
    case _ =>
  }

  lemma StepKeepsCallback(st: State, step: Step, k: nat)
    requires CallbackInv(st, k) && Inv(st) && Enabled(st, step)
    ensures CallbackInv(Next(st, step), k)
  {
    match step
    case Request => SumSnoc(st.results, AsyncResult(st.next, false, Pending, false, [], [], [], []), Holding(k));
    case Reply(n) =>
      if n in st.table {
        Moved(st, n, st.results[n].(delivery := Popped(n)), k);
      }
    case Append(i) => AppendKeeps(st, i, k);
    case AddCallback(r) => AddKeeps(st, r, k);
    case _ => OtherStepsKeep(st, step, k);
  }

  lemma {:induction false} RunKeepsCallback(st: State, steps: seq<Step>, end: State, k: nat)
    requires Inv(st) && CallbackInv(st, k) && Run(st, steps, end)
    ensures CallbackInv(end, k)
    decreases |steps|
  {
    if steps != [] {
      StepKeepsNumbers(st, steps[0]);
      StepKeepsSlots(st, steps[0]);
      StepKeepsResults(st, steps[0]);
      StepKeepsCallback(st, steps[0], k);
      RunKeepsCallback(Next(st, steps[0]), steps[1..], end, k);
    }
  }

  // ---- the main results ----

  /** In every interleaving a result is set at most once, by the reply that carries its own number, and its
      callbacks run only after that. */
  lemma SetOnceByOwnReply(st: State, r: nat)
    requires Reachable(st) && r < |st.results|
    ensures var res := st.results[r];
            (res.sets == [] || res.sets == [res.number]) && (res.ready <==> res.sets != []) &&
            (res.ran != [] ==> res.ready)
    ensures forall q | 0 <= q < |st.results| && st.results[q].number == st.results[r].number :: q == r
  {
    ReachableInv(st);
    assert SetOnce(st.results[r]);
  }

  /** Every registered callback is in exactly one place: about to be appended, waiting with its result, run, or
      dropped with a replaced or emptied list. */
  lemma RegisteredOnce(st: State, k: nat)
    requires Reachable(st)
    ensures Places(st, k) == if k < st.registered then 1 else 0
  {
    var steps :| Run(START, steps, st);
    RunKeepsCallback(START, steps, st, k);
  }

  /** A callback runs at most once, and with one result only. */
  lemma RunsAtMostOnce(st: State, k: nat, r: nat, q: nat)
    requires Reachable(st) && r < |st.results| && q < |st.results|
    ensures Copies(st.results[r].ran, k) <= 1
    ensures k in st.results[r].ran && k in st.results[q].ran ==> r == q
  {
    RegisteredOnce(st, k);
    SumWithout(st.results, r, Holding(k));
    if k in st.results[r].ran && k in st.results[q].ran && r != q {
      var i := if q < r then q else q - 1;
      assert Without(st.results, r)[i] == st.results[q];
      SumWithout(Without(st.results, r), i, Holding(k));
      CopyOf(st.results[r].ran, k);
      CopyOf(st.results[q].ran, k);
    }
  }

  /** A failed send, a cancellation and a collection take away no slot but the result's own, though only the
      collection looks whose slot it is. */
  lemma OthersKeepTheirSlots(st: State, r: nat, step: Step)
    requires Reachable(st) && Enabled(st, step)
    requires step == SendFails(r) || step == FutureDone(r) || step == Collect(r)
    ensures var st' := Next(st, step);
            st'.table.Keys <= st.table.Keys && forall n | n in st.table && st.table[n] != r ::
              n in st'.table && st'.table[n] == st.table[n]
  {
    ReachableInv(st);
  }

  /** A number that has lost its slot never gets one again, so a late or repeated reply changes nothing. */
  lemma {:induction false} GoneForGood(st: State, steps: seq<Step>, end: State, n: nat)
    requires Inv(st) && Run(st, steps, end) && n < st.next && n !in st.table
    ensures n !in end.table && Next(end, Reply(n)) == end
    decreases |steps|
  {
    if steps != [] {
      StepKeepsNumbers(st, steps[0]);
      StepKeepsSlots(st, steps[0]);
      StepKeepsResults(st, steps[0]);
      GoneForGood(Next(st, steps[0]), steps[1..], end, n);
    }
  }

  /** A failed send, a cancellation and a collection free the slot of their own result for good, once the result
      knows its number; the first does so in any case. */
  lemma SlotReleased(st: State, r: nat, step: Step, steps: seq<Step>, end: State)
    requires Reachable(st) && Enabled(st, step) && Run(Next(st, step), steps, end)
    requires step == SendFails(r) || ((step == FutureDone(r) || step == Collect(r)) && st.results[r].stamped)
    ensures st.results[r].number !in end.table
  {
    ReachableInv(st);
    StepKeepsNumbers(st, step);
    StepKeepsSlots(st, step);
    StepKeepsResults(st, step);
    GoneForGood(Next(st, step), steps, end, st.results[r].number);
  }

  /** After a reply, whatever happens, a second reply with the same number changes nothing. */
  lemma SecondReplyIgnored(st: State, n: nat, steps: seq<Step>, end: State)
    requires Reachable(st) && n < st.next && Run(Next(st, Reply(n)), steps, end)
    ensures Next(end, Reply(n)) == end
  {
    ReachableInv(st);
    StepKeepsNumbers(st, Reply(n));
    StepKeepsSlots(st, Reply(n));
    StepKeepsResults(st, Reply(n));
    GoneForGood(Next(st, Reply(n)), steps, end, n);
  }

  // ---- which callbacks are lost ----

  /** The result is still going to go through its list: its reply may come, has come, or its loop is under way. */
  predicate Delivers(st: State, r: nat)
    requires r < |st.results|
  {
    var d := st.results[r].delivery;
    (d.Pending? && st.results[r].number in st.table) || d.Popped? || d == Looping(None)
  }

  predicate Waits(st: State, r: nat, k: nat)
    requires r < |st.results|
  {
    k in st.results[r].callbacks || Adder(r, k) in st.adders
  }

  /** The callback can still run. */
  predicate Hopeful(st: State, r: nat, k: nat)
    requires r < |st.results|
  {
    (Delivers(st, r) && Waits(st, r, k)) || k in Detached(st.results[r])
  }

  lemma StepLeavesLost(st: State, step: Step, r: nat, k: nat)
    requires Inv(st) && Enabled(st, step) && r < |st.results| && k < st.registered
    requires !Hopeful(st, r, k) && k !in st.results[r].ran
    ensures var st' := Next(st, step);
            r < |st'.results| && k < st'.registered && !Hopeful(st', r, k) && k !in st'.results[r].ran
  {
    if step.RunCallback? || step.CallbackRaises? {
      LoopLeavesLost(st, step, r, k);
    }
  }

  lemma LoopLeavesLost(st: State, step: Step, r: nat, k: nat)
    requires Enabled(st, step) && (step.RunCallback? || step.CallbackRaises?)
    requires r < |st.results| && !Hopeful(st, r, k) && k !in st.results[r].ran
    ensures !Hopeful(Next(st, step), r, k) && k !in Next(st, step).results[r].ran
  {
    if step.r == r {
      assert Left(st.results[r])[0] in Left(st.results[r]);
    }
  }

  /** A callback that has not run and can not any more never does. */
  lemma {:induction false} LostForGood(st: State, steps: seq<Step>, end: State, r: nat, k: nat)
    requires Inv(st) && Run(st, steps, end) && r < |st.results| && k < st.registered
    requires !Hopeful(st, r, k) && k !in st.results[r].ran
    ensures r < |end.results| && k !in end.results[r].ran
    decreases |steps|
  {
    if steps != [] {
      StepLeavesLost(st, steps[0], r, k);
      StepKeepsNumbers(st, steps[0]);
      StepKeepsSlots(st, steps[0]);
      StepKeepsResults(st, steps[0]);
      LostForGood(Next(st, steps[0]), steps[1..], end, r, k);
    }
  }

  /** Some run of the callback's result calls it. */
  ghost predicate MayRun(st: State, r: nat, k: nat) {
    exists steps, end :: Run(st, steps, end) && r < |end.results| && k in end.results[r].ran
  }

  lemma MayRunAfter(st: State, step: Step, r: nat, k: nat)
    requires Enabled(st, step) && MayRun(Next(st, step), r, k)
    ensures MayRun(st, r, k)
  {
    var steps, end :| Run(Next(st, step), steps, end) && r < |end.results| && k in end.results[r].ran;
    assert ([step] + steps)[1..] == steps && Run(st, [step] + steps, end);
  }

  /** A registration is with one result only, and in one of its places. */
  lemma InOnePlace(st: State, r: nat, k: nat)
    requires CallbackInv(st, k) && r < |st.results|
    ensures Held(st.results[r], k) + Sum(st.adders, Adding(k)) <= 1
    ensures k in st.results[r].callbacks ==> k !in Detached(st.results[r]) && Adder(r, k) !in st.adders
    ensures k in Detached(st.results[r]) ==> Adder(r, k) !in st.adders
    ensures Hopeful(st, r, k) ==> k !in st.results[r].ran && k < st.registered
  {
    var res := st.results[r];
    SumWithout(st.results, r, Holding(k));
    if k in res.ran { CopyOf(res.ran, k); }
    if k in res.callbacks { CopyOf(res.callbacks, k); }
    if k in Detached(res) { CopyOf(Detached(res), k); }
    if Adder(r, k) in st.adders {
      var i :| 0 <= i < |st.adders| && st.adders[i] == Adder(r, k);
      SumWithout(st.adders, i, Adding(k));
    }
  }

  /** The way a hopeful callback has to go at most. */
  function WayToRun(st: State, r: nat, k: nat): nat
    requires r < |st.results|
  {
    var res := st.results[r];
    (if Adder(r, k) in st.adders then 2 else 0) + |res.callbacks| + |Detached(res)|
    + if res.delivery.Pending? then 3 else if res.delivery.Popped? then 2 else 1
  }

  lemma {:induction false} HopefulRuns(st: State, r: nat, k: nat)
    requires Inv(st) && CallbackInv(st, k) && r < |st.results| && Hopeful(st, r, k)
    ensures MayRun(st, r, k)
    decreases WayToRun(st, r, k), 2
  {
    InOnePlace(st, r, k);
    if Adder(r, k) in st.adders {
      AppendedRuns(st, r, k);
    } else if st.results[r].delivery.Pending? {
      OneStepCloser(st, Reply(st.results[r].number), r, k);
    } else if st.results[r].delivery.Popped? {
      OneStepCloser(st, Deliver(r, false), r, k);
    } else if Left(st.results[r])[0] == k {
      FirstRuns(st, r, k);
    } else {
      OneStepCloser(st, RunCallback(r), r, k);
    }
  }

  lemma FirstRuns(st: State, r: nat, k: nat)
    requires Enabled(st, RunCallback(r)) && Left(st.results[r])[0] == k
    ensures MayRun(st, r, k)
  {
    var end := Next(st, RunCallback(r));
    assert end.results[r].ran[|st.results[r].ran|] == k;
    assert Run(end, [], end);
    MayRunAfter(st, RunCallback(r), r, k);
  }

  lemma {:induction false} OneStepCloser(st: State, step: Step, r: nat, k: nat)
    requires Inv(st) && CallbackInv(st, k) && r < |st.results| && Enabled(st, step)
    requires r < |Next(st, step).results| && Hopeful(Next(st, step), r, k)
    requires WayToRun(Next(st, step), r, k) < WayToRun(st, r, k)
    ensures MayRun(st, r, k)
    decreases WayToRun(st, r, k), 0
  {
    StepKeepsNumbers(st, step);
    StepKeepsSlots(st, step);
    StepKeepsResults(st, step);
    StepKeepsCallback(st, step, k);
    HopefulRuns(Next(st, step), r, k);
    MayRunAfter(st, step, r, k);
  }

  lemma {:induction false} AppendedRuns(st: State, r: nat, k: nat)
    requires Inv(st) && CallbackInv(st, k) && r < |st.results| && Hopeful(st, r, k) && Adder(r, k) in st.adders
    ensures MayRun(st, r, k)
    decreases WayToRun(st, r, k), 1
  {
    var i :| 0 <= i < |st.adders| && st.adders[i] == Adder(r, k);
    InOnePlace(st, r, k);
    var st' := Next(st, Append(i));
    StepKeepsCallback(st, Append(i), k);
    assert st'.results[r].callbacks[|st.results[r].callbacks|] == k;
    InOnePlace(st', r, k);
    OneStepCloser(st, Append(i), r, k);
  }

  /** A callback that has not run can still run exactly when it waits with a result that is still going to go through
      its list, or is left of a list that a loop is going through. */
  lemma RunsIff(st: State, r: nat, k: nat)
    requires Reachable(st) && r < |st.results| && k < st.registered && k !in st.results[r].ran
    ensures MayRun(st, r, k) <==> Hopeful(st, r, k)
  {
    ReachableInv(st);
    RegisteredOnce(st, k);
    if Hopeful(st, r, k) {
      HopefulRuns(st, r, k);
    } else if MayRun(st, r, k) {
      var steps, end :| Run(st, steps, end) && r < |end.results| && k in end.results[r].ran;
      LostForGood(st, steps, end, r, k);
    }
  }

  /** The steps that lose a waiting callback. */
  predicate Loses(st: State, step: Step, r: nat, k: nat)
    requires r < |st.results|
  {
    var res := st.results[r];
    match step
    case SendFails(q) => q == r && res.delivery.Pending?
    case Collect(q) => q == r && res.delivery.Pending? && res.stamped
    case ClearTable => res.delivery.Pending?
    case Deliver(q, expired) => q == r && expired
    case FutureDone(q) =>
      q == r && if k in res.callbacks then res.delivery.Pending? || res.delivery.Popped?
                else Adder(r, k) in st.adders && ((res.delivery.Pending? && res.stamped) || res.delivery == Looping(None))
    case CallbackRaises(q) => q == r && Left(res) != [] && k != Left(res)[0]
    case EndLoop(q) => q == r && Adder(r, k) in st.adders
    case _ => false
  }

  /** A callback that could still run is lost exactly by a step that takes the slot of its result away before the
      reply, by a reply that comes too late, by an awaiter that ends and replaces the list it is in before it is gone
      through, or the list it is about to join, by another callback of the result that raises and so ends the loop, and
      by a loop that ends while it is about to join the list. */
  lemma LostIff(st: State, step: Step, r: nat, k: nat)
    requires Reachable(st) && Enabled(st, step) && r < |st.results| && Hopeful(st, r, k)
    ensures var st' := Next(st, step);
            r < |st'.results| && (!Hopeful(st', r, k) && k !in st'.results[r].ran <==> Loses(st, step, r, k))
  {
    ReachableInv(st);
    RegisteredOnce(st, k);
    InOnePlace(st, r, k);
    LostWhen(st, step, r, k);
  }

  lemma LostWhen(st: State, step: Step, r: nat, k: nat)
    requires Inv(st) && Enabled(st, step) && r < |st.results| && Hopeful(st, r, k) && k < st.registered
    requires k in st.results[r].callbacks ==> k !in Detached(st.results[r]) && Adder(r, k) !in st.adders
    requires k in Detached(st.results[r]) ==> Adder(r, k) !in st.adders
    requires k !in st.results[r].ran
    ensures var st' := Next(st, step);
            r < |st'.results| && (!Hopeful(st', r, k) && k !in st'.results[r].ran <==> Loses(st, step, r, k))
  {
    if step.CallbackRaises? {
      RaisingLosesWhen(st, step.r, r, k);
    } else if !step.FutureDone? && !step.RunCallback? && !step.Append? && !step.AddCallback? {
      OthersLoseWhen(st, step, r, k);
    }
  }

  lemma OthersLoseWhen(st: State, step: Step, r: nat, k: nat)
    requires Inv(st) && Enabled(st, step) && r < |st.results| && Hopeful(st, r, k) && k !in st.results[r].ran
    requires !step.FutureDone? && !step.RunCallback? && !step.Append? && !step.AddCallback? && !step.CallbackRaises?
    requires k in Detached(st.results[r]) ==> Adder(r, k) !in st.adders
    ensures var st' := Next(st, step);
            r < |st'.results| && (!Hopeful(st', r, k) && k !in st'.results[r].ran <==> Loses(st, step, r, k))
  {
    assert SetOnce(st.results[r]);
  }

  lemma RaisingLosesWhen(st: State, q: nat, r: nat, k: nat)
    requires Inv(st) && Enabled(st, CallbackRaises(q)) && r < |st.results| && Hopeful(st, r, k)
    requires k !in st.results[r].ran
    ensures var st' := Next(st, CallbackRaises(q));
            r < |st'.results| &&
            (!Hopeful(st', r, k) && k !in st'.results[r].ran <==> Loses(st, CallbackRaises(q), r, k))
  {
    if q == r {
      var res := st.results[r];
      assert LoopBroken(res).ran == res.ran + [Left(res)[0]];
      assert LoopBroken(res).ran[|res.ran|] == Left(res)[0];
    }
  }

  // ---- what adding, sending and answering do ----

  /** A callback added to a ready result is called at once, and no result keeps it waiting. One added to a result that
      is not ready is about to join its list, and can still be called exactly when the result is going to be
      delivered. */
  lemma AddedIsCalled(st: State, r: nat)
    requires Reachable(st) && r < |st.results|
    ensures var st', k := Next(st, AddCallback(r)), st.registered;
            && |st'.results| == |st.results| && st'.registered == k + 1
            && (st.results[r].ready ==> st'.adders == st.adders && st'.results[r].ran == st.results[r].ran + [k]
                                        && st'.results[r].callbacks == st.results[r].callbacks)
            && (!st.results[r].ready ==> st'.results == st.results && st'.adders == st.adders + [Adder(r, k)]
                                         && (MayRun(st', r, k) <==> Delivers(st, r)))
  {
    var st', k := Next(st, AddCallback(r)), st.registered;
    if !st.results[r].ready {
      assert st'.adders[|st.adders|] == Adder(r, k);
      OneMore(st, AddCallback(r));
      ReachableInv(st);
      NotYetRun(st, r, k);
      RunsIff(st', r, k);
    }
  }

  /** A number not given out yet is with no result. */
  lemma NotYetRun(st: State, r: nat, k: nat)
    requires Reachable(st) && r < |st.results| && k >= st.registered
    ensures k !in st.results[r].ran && k !in st.results[r].callbacks && k !in Detached(st.results[r])
  {
    RegisteredOnce(st, k);
    SumWithout(st.results, r, Holding(k));
    var res := st.results[r];
    if k in res.ran { CopyOf(res.ran, k); }
    if k in res.callbacks { CopyOf(res.callbacks, k); }
    if k in Detached(res) { CopyOf(Detached(res), k); }
  }

  /** A request gets a number of its own and a slot of its own, in which a result waits that nobody has answered; what
      is added to it from then on can be called. */
  lemma RequestWaits(st: State)
    requires Reachable(st)
    ensures var st', r := Next(st, Request), |st.results|;
            && |st'.results| == r + 1 && st'.results[..r] == st.results
            && (forall q | 0 <= q < r :: st.results[q].number != st'.results[r].number)
            && st'.results[r].number in st'.table && st'.table[st'.results[r].number] == r
            && !st'.results[r].ready && Delivers(st', r)
  {
    ReachableInv(st);
  }

  /** The first reply with the number of a waiting request sets its result, and calls every callback that is in its list
      by then, in order, if nobody interferes and none raises. */
  lemma ReplySetsAndCalls(st: State, r: nat)
    requires Reachable(st) && r < |st.results| && st.results[r].number in st.table
    ensures exists steps, end ::
              && Run(st, [Reply(st.results[r].number), Deliver(r, false)] + steps, end) && |end.results| == |st.results|
              && end.results[r].ready && end.results[r].sets == [st.results[r].number] && end.results[r].callbacks == []
              && end.results[r].ran == st.results[r].ran + st.results[r].callbacks
              && end.table == st.table - {st.results[r].number}
  {
    ReplyDelivered(st, r);
    var n := st.results[r].number;
    var s1 := Next(st, Reply(n));
    var s2 := Next(s1, Deliver(r, false));
    LoopsThrough(s2, r, None);
    var end := LoopedThrough(s2, r, None);
    var steps :| Run(s2, steps, end);
    RunCons(s1, Deliver(r, false), steps, end);
    RunCons(st, Reply(n), [Deliver(r, false)] + steps, end);
    assert [Reply(n)] + ([Deliver(r, false)] + steps) == [Reply(n), Deliver(r, false)] + steps;
    var cs := st.results[r].callbacks;
    assert cs[|cs|..] == [] && cs[..|cs|] == cs;
  }

  lemma RunCons(st: State, step: Step, steps: seq<Step>, end: State)
    requires Enabled(st, step) && Run(Next(st, step), steps, end)
    ensures Run(st, [step] + steps, end)
  {
    assert ([step] + steps)[1..] == steps;
  }

  lemma ReplyDelivered(st: State, r: nat)
    requires Reachable(st) && r < |st.results| && st.results[r].number in st.table
    ensures var n := st.results[r].number;
            && Enabled(Next(st, Reply(n)), Deliver(r, false))
            && Next(Next(st, Reply(n)), Deliver(r, false))
               == With(st, r, st.results[r].(delivery := Looping(None), ready := true, sets := [n]))
                  .(table := st.table - {n})
  {
    ReachableInv(st);
    var n := st.results[r].number;
    assert SetOnce(st.results[r]) && [] + [n] == [n];
    var s2 := Next(Next(st, Reply(n)), Deliver(r, false));
    assert s2.results == st.results[r := st.results[r].(delivery := Looping(None), ready := true, sets := [n])];
  }

  /** Once a result knows its number it always does, so from then on an awaiter that ends, and a collection, free the
      slot for good. */
  lemma StampedReleases(st: State, r: nat, steps: seq<Step>, mid: State, step: Step, more: seq<Step>, end: State)
    requires Reachable(st) && r < |st.results| && Run(Next(st, Stamp(r)), steps, mid)
    requires (step == FutureDone(r) || step == Collect(r)) && Enabled(mid, step) && Run(Next(mid, step), more, end)
    ensures r < |mid.results| && mid.results[r].number == st.results[r].number
    ensures st.results[r].number !in end.table
  {
    OneMore(st, Stamp(r));
    ReachableInv(st);
    StaysStamped(Next(st, Stamp(r)), steps, mid, r);
    ReachableRun(Next(st, Stamp(r)), steps, mid);
    SlotReleased(mid, r, step, more, end);
  }

  lemma {:induction false} StaysStamped(st: State, steps: seq<Step>, end: State, r: nat)
    requires r < |st.results| && st.results[r].stamped && Run(st, steps, end)
    ensures r < |end.results| && end.results[r].stamped && end.results[r].number == st.results[r].number
    decreases |steps|
  {
    if steps != [] {
      StaysStamped(Next(st, steps[0]), steps[1..], end, r);
    }
  }

  lemma {:induction false} ReachableRun(st: State, steps: seq<Step>, end: State)
    requires Reachable(st) && Run(st, steps, end)
    ensures Reachable(end)
    decreases |steps|
  {
    if steps != [] {
      OneMore(st, steps[0]);
      ReachableRun(Next(st, steps[0]), steps[1..], end);
    }
  }

  // ---- a callback appended too late, and one behind a callback that raises ----

  lemma {:induction false} RunSnoc(st: State, steps: seq<Step>, mid: State, step: Step)
    requires Run(st, steps, mid) && Enabled(mid, step)
    ensures Run(st, steps + [step], Next(mid, step))
    decreases |steps|
  {
    if steps == [] {
      assert [step][1..] == [];
      assert steps + [step] == [step];
    } else {
      assert (steps + [step])[1..] == steps[1..] + [step];
      RunSnoc(Next(st, steps[0]), steps[1..], mid, step);
    }
  }

  lemma OneMore(st: State, step: Step)
    requires Reachable(st) && Enabled(st, step)
    ensures Reachable(Next(st, step))
  {
    var steps :| Run(START, steps, st);
    RunSnoc(START, steps, st, step);
  }

  /** One request, whose only callback found the result not ready and is about to be appended. */
  function Single(delivery: Delivery, table: map<nat, nat>, ready: bool, sets: seq<nat>): State {
    State(1, table, [AsyncResult(0, false, delivery, ready, sets, [], [], [])], [Adder(0, 0)], 1)
  }

  lemma AdderAndReply()
    ensures Reachable(Single(Popped(0), map[], false, []))
  {
    assert Run(START, [], START);
    OneMore(START, Request);
    var s1 := Next(START, Request);
    assert s1.results == [AsyncResult(0, false, Pending, false, [], [], [], [])];
    OneMore(s1, AddCallback(0));
    var s2 := Next(s1, AddCallback(0));
    assert s2 == Single(Pending, map[0 := 0], false, []);
    OneMore(s2, Reply(0));
    assert Next(s2, Reply(0)) == Single(Popped(0), map[], false, []);
  }

  lemma DeliveredAround()
    ensures Reachable(Single(Finished, map[], true, [0]))
  {
    AdderAndReply();
    var s0 := Single(Popped(0), map[], false, []);
    OneMore(s0, Deliver(0, false));
    var s1 := Next(s0, Deliver(0, false));
    assert s1.results[0].sets == [0];
    assert s1 == Single(Looping(None), map[], true, [0]);
    OneMore(s1, EndLoop(0));
    var s2 := Next(s1, EndLoop(0));
    OneMore(s2, EmptyList(0));
    var s3 := Next(s2, EmptyList(0));
    assert s3.results[0].dropped == [];
    assert s3 == Single(Finished, map[], true, [0]);
  }

  /** A callback added while the reply is being delivered can be appended when the loop is over, and never run: the
      result is ready, and nothing was cancelled. */
  lemma LateCallbackIsLost()
    ensures exists st :: Reachable(st) && |st.results| == 1 && st.results[0].ready && st.results[0].callbacks == [0]
                         && st.registered == 1 && st.adders == [] && !MayRun(st, 0, 0)
  {
    DeliveredAround();
    var s0 := Single(Finished, map[], true, [0]);
    OneMore(s0, Append(0));
    var st := Next(s0, Append(0));
    assert st.results[0].callbacks == [0] && st.adders == [];
    RunsIff(st, 0, 0);
  }

  /** One request with two callbacks, of which as many have been called as `ran` says. */
  function Double(delivery: Delivery, table: map<nat, nat>, sets: seq<nat>, callbacks: seq<nat>, ran: seq<nat>): State {
    State(1, table, [AsyncResult(0, false, delivery, sets != [], sets, callbacks, ran, [])], [], 2)
  }

  lemma TwoCallbacks()
    ensures Reachable(Double(Pending, map[0 := 0], [], [0, 1], []))
  {
    assert Run(START, [], START);
    OneMore(START, Request);
    var s1 := Next(START, Request);
    assert s1.results == [AsyncResult(0, false, Pending, false, [], [], [], [])];
    OneMore(s1, AddCallback(0));
    var s2 := Next(s1, AddCallback(0));
    assert s2.adders == [Adder(0, 0)];
    OneMore(s2, Append(0));
    var s3 := Next(s2, Append(0));
    assert s3.results[0].callbacks == [0] && s3.adders == [];
    OneMore(s3, AddCallback(0));
    var s4 := Next(s3, AddCallback(0));
    assert s4.adders == [Adder(0, 1)];
    OneMore(s4, Append(0));
    var s5 := Next(s4, Append(0));
    assert s5.results[0].callbacks == [0, 1] && s5.adders == [];
    assert s5 == Double(Pending, map[0 := 0], [], [0, 1], []);
  }

  /** A callback that raises takes the one behind it along: the result is ready, nothing was cancelled, the second
      callback is still in the list, and no run calls it. */
  lemma RaisingCallbackLosesTheNext()
    ensures exists st :: Reachable(st) && |st.results| == 1 && st.results[0].ready && st.registered == 2
                         && st.results[0].ran == [0] && st.results[0].callbacks == [1] && !MayRun(st, 0, 1)
  {
    TwoCallbacks();
    var s0 := Double(Pending, map[0 := 0], [], [0, 1], []);
    OneMore(s0, Reply(0));
    var s1 := Next(s0, Reply(0));
    assert s1 == Double(Popped(0), map[], [], [0, 1], []);
    OneMore(s1, Deliver(0, false));
    var s2 := Next(s1, Deliver(0, false));
    assert s2.results[0].sets == [0];
    assert s2 == Double(Looping(None), map[], [0], [0, 1], []);
    OneMore(s2, CallbackRaises(0));
    var st := Next(s2, CallbackRaises(0));
    assert st.results[0].ran == [0] && st.results[0].callbacks == [1];
    RunsIff(st, 0, 1);
  }

  // ---- one result, undisturbed by other threads ----

  /** How many of `n` callbacks a loop calls when the one with the given index raises, if any does. */
  function Called(n: nat, raises: Option<nat>): (r: nat)
    ensures r <= n && (r < n ==> raises == Some(r - 1))
  {
    if raises.Some? && raises.value < n then raises.value + 1 else n
  }

  function LoopedThrough(st: State, r: nat, raises: Option<nat>): State
    requires r < |st.results|
  {
    var res := st.results[r];
    var n := Called(|res.callbacks|, raises);
    With(st, r, res.(delivery := Finished, callbacks := res.callbacks[n..], ran := res.ran + res.callbacks[..n]))
  }

  /** The loop of a delivery, up to its end or the callback that raises. */
  lemma {:induction false} LoopsThrough(st: State, r: nat, raises: Option<nat>)
    requires r < |st.results| && st.results[r].delivery == Looping(None)
    ensures exists steps :: Run(st, steps, LoopedThrough(st, r, raises))
    decreases |st.results[r].callbacks|
  {
    var res, end := st.results[r], LoopedThrough(st, r, raises);
    if res.callbacks == [] {
      var s1 := Next(st, EndLoop(r));
      var s2 := Next(s1, EmptyList(r));
      assert res.ran + res.callbacks[..0] == res.ran && res.dropped + [] == res.dropped;
      assert s2.results == end.results;
      assert Run(s2, [], s2) && Run(s1, [EmptyList(r)], s2);
      assert Run(st, [EndLoop(r), EmptyList(r)], s2);
    } else if raises == Some(0) {
      assert res.callbacks[..1] == [res.callbacks[0]];
      var s1 := Next(st, CallbackRaises(r));
      assert s1.results == end.results;
      assert Run(s1, [], s1) && Run(st, [CallbackRaises(r)], s1);
    } else {
      var fewer := if raises.Some? then Some(raises.value - 1) else None;
      var st' := Next(st, RunCallback(r));
      OneCalled(st, r, raises, fewer);
      LoopsThrough(st', r, fewer);
      var steps :| Run(st', steps, end);
      assert ([RunCallback(r)] + steps)[1..] == steps;
      assert Run(st, [RunCallback(r)] + steps, end);
    }
  }

  lemma OneCalled(st: State, r: nat, raises: Option<nat>, fewer: Option<nat>)
    requires r < |st.results| && st.results[r].delivery == Looping(None) && st.results[r].callbacks != []
    requires raises != Some(0) && fewer == if raises.Some? then Some(raises.value - 1) else None
    ensures LoopedThrough(Next(st, RunCallback(r)), r, fewer) == LoopedThrough(st, r, raises)
  {
    var cs, ran := st.results[r].callbacks, st.results[r].ran;
    var n := Called(|cs|, raises);
    assert Called(|cs[1..]|, fewer) == n - 1 && cs[1..][n - 1..] == cs[n..];
    assert ran + [cs[0]] + cs[1..][..n - 1] == ran + cs[..n];
    assert LoopedThrough(Next(st, RunCallback(r)), r, fewer).results == LoopedThrough(st, r, raises).results;
  }

  /** A delivery that nobody disturbs. */
  function DeliveredAlone(st: State, r: nat, expired: bool, raises: Option<nat>): State
    requires Enabled(st, Deliver(r, expired))
  {
    var st' := Next(st, Deliver(r, expired));
    if st'.results[r].delivery.Finished? then st' else LoopedThrough(st', r, raises)
  }

  lemma DeliversAlone(st: State, r: nat, expired: bool, raises: Option<nat>)
    requires Enabled(st, Deliver(r, expired))
    ensures exists steps :: Run(st, steps, DeliveredAlone(st, r, expired, raises))
  {
    var st', end := Next(st, Deliver(r, expired)), DeliveredAlone(st, r, expired, raises);
    if st'.results[r].delivery.Finished? {
      assert Run(st', [], end) && Run(st, [Deliver(r, expired)], end);
    } else {
      LoopsThrough(st', r, raises);
      var steps :| Run(st', steps, end);
      assert ([Deliver(r, expired)] + steps)[1..] == steps;
      assert Run(st, [Deliver(r, expired)] + steps, end);
    }
  }

  class Outcome<T> {
    var isReady: bool
    var isExc: Option<bool>
    var obj: Option<T>
    var callbacks: seq<nat>
    var ran: seq<nat>

    constructor ()
      ensures !isReady && isExc.None? && obj.None? && callbacks == [] && ran == []
    {
      isReady, isExc, obj, callbacks, ran := false, None, None, [], [];
    }

    ghost predicate Shows(res: AsyncResult)
      reads this
    {
      isReady == res.ready && callbacks == res.callbacks && ran == res.ran
    }

    /** Sets the result and runs the callbacks in the order they were added, unless it has expired: a delivery that
        nobody disturbs. `raises` is the index of the callback that raises, if one does; then those behind it do not
        run, and the list is left as it was. */
    method Call(ttlExpired: bool, exc: bool, value: T, raises: Option<nat>, ghost st: State, ghost r: nat)
      returns (raised: bool)
      requires Enabled(st, Deliver(r, ttlExpired)) && Shows(st.results[r])
      modifies this
      ensures var res := DeliveredAlone(st, r, ttlExpired, raises).results[r];
              if raised then isReady == res.ready && ran == res.ran
                             && callbacks[Called(|callbacks|, raises)..] == res.callbacks
              else Shows(res)
      ensures exists steps :: Run(st, steps, DeliveredAlone(st, r, ttlExpired, raises))
      ensures ttlExpired && !old(isReady) ==> unchanged(this) && !raised
      ensures !ttlExpired || old(isReady) ==>
                isReady && isExc == Some(exc) && obj == Some(value)
                && (raised <==> raises.Some? && raises.value < |old(callbacks)|)
                && callbacks == (if raised then old(callbacks) else [])
                && ran == old(ran) + if raised then old(callbacks)[..raises.value + 1] else old(callbacks)
    {
      DeliversAlone(st, r, ttlExpired, raises);
      if !isReady && ttlExpired {
        return false;
      }
      isExc, obj, isReady := Some(exc), Some(value), true;
      raised := RunCallbacks(raises);
      if !raised {
        callbacks := [];
      }
    }

    /** The loop over the callbacks. */
    method RunCallbacks(raises: Option<nat>) returns (raised: bool)
      modifies this`ran
      ensures raised <==> raises.Some? && raises.value < |callbacks|
      ensures ran == old(ran) + callbacks[..Called(|callbacks|, raises)]
    {
      var i := 0;
      while i < |callbacks|
        invariant 0 <= i <= |callbacks| && ran == old(ran) + callbacks[..i]
        invariant raises.Some? && raises.value < |callbacks| ==> i <= raises.value
      {
        ran := ran + [callbacks[i]];
        if raises == Some(i) {
          return true;
        }
        i := i + 1;
      }
      return false;
    }

    /** The step of adding a callback and, when it found the result not ready, the append that follows it. */
    method AddCallback(k: nat, ghost st: State, ghost r: nat)
      requires Enabled(st, Step.AddCallback(r)) && Shows(st.results[r]) && k == st.registered
      modifies this`callbacks, this`ran
      ensures var added := Next(st, Step.AddCallback(r));
              Shows((if st.results[r].ready then added else Next(added, Append(|st.adders|))).results[r])
      ensures ran == old(ran) + (if isReady then [k] else []) && callbacks == old(callbacks) + if isReady then [] else [k]
    {
      if isReady {
        ran := ran + [k];
      } else {
        callbacks := callbacks + [k];
      }
    }
  }
}
