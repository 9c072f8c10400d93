/** Distributed reference counting between the two ends of a connection: what is boxed, travels, waits, lives as a
    proxy, dies, is queued, batched and given back. */
module Lifetime {
  import opened Core
  import opened Registry
  import opened RefMachine
  import opened RefSteps

  // ---- what the table operations do to the ledger ----

  /** Grouping keeps the total of every key. */
  lemma {:induction false} GroupedSum(pending: seq<Entry>, k: Key)
    ensures Sum(Grouped(pending), EntryWeight(k)) == Sum(pending, EntryWeight(k))
  {
    if pending != [] {
      var init, last := pending[..|pending| - 1], pending[|pending| - 1];
      GroupedSum(init, k);
      MergeSum(Grouped(init), last, k);
      SumSnoc(init, last, EntryWeight(k));
      assert init + [last] == pending;
    }
  }

  /** Grouping leaves one entry for each key that was queued, and none for others. */
  lemma {:induction false} GroupedKeys(pending: seq<Entry>)
    ensures Distinct(Grouped(pending))
    ensures forall x | x in Grouped(pending) :: exists y :: y in pending && y.key == x.key && y.count <= x.count
  {
    if pending != [] {
      var init, last := pending[..|pending| - 1], pending[|pending| - 1];
      GroupedKeys(init);
      MergeKeys(Grouped(init), last);
    }
  }

  // ---- every step keeps the ledger ----

  lemma BoxConserves(st: State, s: Side, refs: seq<Key>, k: Key)
    requires Conserved(st, k) && Enabled(st, Box(s, refs))
    ensures Conserved(Next(st, Box(s, refs)), k)
  {
    AddOwnCounts(st.At(s).local, s, refs, k);
    SumSnoc(st.At(s).outbox, refs, RefsWeight(k));
  }

  lemma SendFailsConserves(st: State, s: Side, i: nat, k: Key)
    requires Conserved(st, k) && Enabled(st, SendFails(s, i))
    ensures Conserved(Next(st, SendFails(s, i)), k)
  {
    var refs := st.At(s).outbox[i];
    SumWithout(st.At(s).outbox, i, RefsWeight(k));
    LostSum(s.Other(), refs, k);
    SumConcat(st.abandoned, Lost(s.Other(), refs), EntryWeight(k));
  }

  lemma ArriveConserves(st: State, s: Side, n: nat, k: Key)
    requires Conserved(st, k) && WellOwned(st, s) && Enabled(st, Arrive(s, n)) && !Next(st, Arrive(s, n)).missed
    ensures Conserved(Next(st, Arrive(s, n)), k)
  {
    ArriveMisses(st, s, n);
    UnboxArrivedCounts(st.At(s), s, st.To(s)[0].refs, n, k);
  }

  lemma ParkConserves(st: State, s: Side, k: Key)
    requires Conserved(st, k) && Enabled(st, Defer(s)) && st.To(s)[0].Package?
    ensures Conserved(Next(st, Defer(s)), k)
  {
    SumSnoc(st.At(s).parked, Parked(st.To(s)[0].refs, false), ParkedWeight(k));
  }

  lemma ReceiveConserves(st: State, s: Side, k: Key)
    requires Conserved(st, k) && WellOwned(st, s) && Enabled(st, Defer(s)) && st.To(s)[0].Del?
    ensures Conserved(Next(st, Defer(s)), k)
  {
    var m := st.To(s)[0];
    assert m in st.To(s);
    SumSnoc(st.At(s).deferred, Entry(m.key, m.count), EntryWeight(k));
  }

  lemma DropConserves(st: State, s: Side, k: Key)
    requires Conserved(st, k) && Enabled(st, Drop(s))
    ensures Conserved(Next(st, Drop(s)), k)
  {
    LostSum(s, st.To(s)[0].refs, k);
    SumConcat(st.abandoned, Lost(s, st.To(s)[0].refs), EntryWeight(k));
  }

  lemma UnboxNextConserves(st: State, s: Side, i: nat, slow: bool, k: Key)
    requires Conserved(st, k) && WellOwned(st, s)
    requires Enabled(st, UnboxNext(s, i, slow)) && !Next(st, UnboxNext(s, i, slow)).missed
    ensures Conserved(Next(st, UnboxNext(s, i, slow)), k)
  {
    var q := UnboxParked(st.At(s), i, slow);
    UnboxParkedCounts(st.At(s), s, i, slow, k);
    assert Next(st, UnboxNext(s, i, slow)).At(s) == q && q.local == st.At(s).local;
  }

  lemma BuiltConserves(st: State, s: Side, i: nat, k: Key)
    requires Conserved(st, k) && WellOwned(st, s) && Enabled(st, Built(s, i))
    ensures Conserved(Next(st, Built(s, i)), k)
  {
    var p := st.At(s);
    var keys := p.parked[i].keys;
    assert p.parked[i] in p.parked;
    if k.owner != s {
      SumUpdate(p.parked, i, Parked(keys[1..], false), ParkedWeight(k));
      AddProxySum(p.proxies, keys[0], k);
    }
  }

  lemma GiveUpConserves(st: State, s: Side, i: nat, k: Key)
    requires Conserved(st, k) && Enabled(st, GiveUp(s, i))
    ensures Conserved(Next(st, GiveUp(s, i)), k)
  {
    var keys := st.At(s).parked[i].keys;
    SumWithout(st.At(s).parked, i, ParkedWeight(k));
    LostSum(s, keys, k);
    SumConcat(st.abandoned, Lost(s, keys), EntryWeight(k));
  }

  lemma HandleDelConserves(st: State, s: Side, i: nat, k: Key)
    requires Conserved(st, k) && Enabled(st, HandleDel(s, i))
    requires var d := st.At(s).deferred[i]; d.key.owner == s && CountOf(st.At(s).local, d.key) >= d.count
    ensures Conserved(Next(st, HandleDel(s, i)), k)
  {
    var d := st.At(s).deferred[i];
    DecRefCounts(st.At(s).local, d.key, d.count, k);
    SumWithout(st.At(s).deferred, i, EntryWeight(k));
  }

  lemma DieConserves(st: State, s: Side, i: nat, k: Key)
    requires Conserved(st, k) && Enabled(st, Die(s, i))
    ensures Conserved(Next(st, Die(s, i)), k)
  {
    var p := st.At(s);
    if k.owner == s { return; }
    SumWithout(p.proxies, i, ProxyWeight(k));
    SumSnoc(p.pending, Entry(p.proxies[i].key, p.proxies[i].count), EntryWeight(k));
  }

  lemma CollectConserves(st: State, s: Side, k: Key)
    requires Conserved(st, k)
    ensures Conserved(Next(st, Collect(s)), k)
  {
    if k.owner != s {
      GroupedSum(st.At(s).pending, k);
      SumConcat(st.At(s).batch, Grouped(st.At(s).pending), EntryWeight(k));
    }
  }

  lemma SkipConserves(st: State, s: Side, i: nat, k: Key)
    requires Conserved(st, k) && Enabled(st, Process(s, i)) && st.At(s).batch[i].key.owner == s.Other()
    requires HasCached(st.At(s).proxies, st.At(s).batch[i].key)
    ensures Conserved(Next(st, Process(s, i)), k)
  {
    SumWithout(st.At(s).batch, i, EntryWeight(k));
    SumSnoc(st.abandoned, st.At(s).batch[i], EntryWeight(k));
  }

  lemma DelFailsConserves(st: State, s: Side, i: nat, k: Key)
    requires Conserved(st, k) && Enabled(st, DelFails(s, i)) && st.At(s).batch[i].key.owner == s.Other()
    ensures Conserved(Next(st, DelFails(s, i)), k)
  {
    SumWithout(st.At(s).batch, i, EntryWeight(k));
    SumSnoc(st.abandoned, st.At(s).batch[i], EntryWeight(k));
  }

  lemma SendDelConserves(st: State, s: Side, i: nat, k: Key)
    requires Conserved(st, k) && Enabled(st, Process(s, i)) && st.At(s).batch[i].key.owner == s.Other()
    requires !HasCached(st.At(s).proxies, st.At(s).batch[i].key)
    ensures Conserved(Next(st, Process(s, i)), k)
  {
    var e := st.At(s).batch[i];
    SumWithout(st.At(s).batch, i, EntryWeight(k));
    SumSnoc(st.To(s.Other()), Del(e.key, e.count), MsgRefs(k));
    SumSnoc(st.To(s.Other()), Del(e.key, e.count), MsgDels(k));
  }

  lemma StepConserves(st: State, step: Step, k: Key)
    requires Inv(st) && Enabled(st, step) && !Next(st, step).missed
    ensures Conserved(Next(st, step), k)
  {
    assert Conserved(st, k);
    match step
    case Box(s, refs) => BoxConserves(st, s, refs, k);
    case Post(s, i) => PostConserves(st, s, i, k);
    case SendFails(s, i) => SendFailsConserves(st, s, i, k);
    case Arrive(s, n) => ArriveConserves(st, s, n, k);
    case Defer(s) =>
      if st.To(s)[0].Package? {
        ParkConserves(st, s, k);
      } else {
        ReceiveConserves(st, s, k);
      }
    case Drop(s) => DropConserves(st, s, k);
    case UnboxNext(s, i, slow) => UnboxNextConserves(st, s, i, slow, k);
    case Built(s, i) => BuiltConserves(st, s, i, k);
    case GiveUp(s, i) => GiveUpConserves(st, s, i, k);
    case HandleDel(s, i) =>
      DelCovered(st, s, i);
      HandleDelConserves(st, s, i, k);
    case Die(s, i) => DieConserves(st, s, i, k);
    case Collect(s) => CollectConserves(st, s, k);
    case Process(s, i) =>
      if HasCached(st.At(s).proxies, st.At(s).batch[i].key) {
        SkipConserves(st, s, i, k);
      } else {
        SendDelConserves(st, s, i, k);
      }
    case DelFails(s, i) => DelFailsConserves(st, s, i, k);
  }

  // ---- every step keeps the tables well owned ----

  lemma CollectOwned(p: Peer, s: Side)
    requires PeerOwned(p, s)
    ensures PeerOwned(p.(pending := [], batch := p.batch + Grouped(p.pending)), s)
  {
    GroupedKeys(p.pending);
  }

  lemma ActorPeerOwned(st: State, step: Step)
    requires WellOwned(st, step.s) && Enabled(st, step) && !Next(st, step).missed && !Unboxes(step)
    ensures PeerOwned(Next(st, step).At(step.s), step.s)
  {
    var s, p := step.s, st.At(step.s);
    assert PeerOwned(p, s);
    match step
    case Box(_, refs) => BoxOwned(p, s, refs);
    case HandleDel(_, i) => HandleDelOwned(p, s, i);
    case Die(_, i) => DieOwned(p, s, i);
    case Collect(_) => CollectOwned(p, s);
    case Process(_, i) => ProcessOwned(p, s, i);
    case DelFails(_, i) => ProcessOwned(p, s, i);
    case _ =>
  }

  lemma ActorStaysOwned(st: State, step: Step)
    requires WellOwned(st, step.s) && Enabled(st, step) && !Next(st, step).missed
    ensures WellOwned(Next(st, step), step.s)
  {
    if Unboxes(step) {
      UnboxingOwned(st, step);
    } else {
      ActorPeerOwned(st, step);
    }
    var w, w' := st.To(step.s), Next(st, step).To(step.s);
    assert w' == w || (w != [] && w' == w[1..]);
  }

  // ---- every step keeps the references on the way back safe ----

  /** While a proxy of an object lives, the owner's count exceeds every deletion received or on the stream. */
  lemma ProxyCovers(st: State, s: Side, k: Key)
    requires Conserved(st, k) && WellOwned(st, s) && HasProxy(st.At(s), k)
    ensures k.owner == s.Other() && Covered(st, k.owner, k) >= Sum(st.To(k.owner), MsgDels(k)) + 1
  {
    var ps := st.At(s).proxies;
    var i :| 0 <= i < |ps| && ps[i].key == k;
    assert ps[i] in ps;
    SumPositive(ps, ps[i], ProxyWeight(k));
  }

  lemma PostBackSafe(st: State, s: Side, i: nat)
    requires BackSafe(st, s.Other()) && WellOwned(st, s) && Enabled(st, Post(s, i))
    requires forall k :: Conserved(st, k)
    ensures BackSafe(Next(st, Post(s, i)), s.Other())
  {
    var refs, o := st.At(s).outbox[i], s.Other();
    forall k | k in refs && k.owner == o
      ensures Covered(st, o, k) >= Sum(st.To(o), MsgDels(k)) + 1
    {
      assert Conserved(st, k);
      ProxyCovers(st, s, k);
    }
    SnocKeepsBackSafe(st, Next(st, Post(s, i)), o, Package(refs));
  }

  /** The other side, whose registry does not change. */
  lemma OtherBackSafe(st: State, step: Step)
    requires Inv(st) && Enabled(st, step)
    ensures BackSafe(Next(st, step), step.s.Other())
  {
    var st', s, o := Next(st, step), step.s, step.s.Other();
    if step.Post? {
      PostBackSafe(st, s, step.i);
    } else if step.Process? && !HasCached(st.At(s).proxies, st.At(s).batch[step.i].key) {
      var e := st.At(s).batch[step.i];
      SnocKeepsBackSafe(st, st', o, Del(e.key, e.count));
    } else {
      assert st'.To(o) == st.To(o) && st'.At(o) == st.At(o);
      StreamKeepsBackSafe(st, st', o);
    }
  }

  // ---- the main results ----

  lemma StepKeepsInv(st: State, step: Step)
    requires Inv(st) && Enabled(st, step) && !Next(st, step).missed
    ensures Inv(Next(st, step))
  {
    forall k ensures Conserved(Next(st, step), k) {
      StepConserves(st, step, k);
    }
    OtherStaysOwned(st, step);
    ActorStaysOwned(st, step);
    ActorBackSafe(st, step);
    OtherBackSafe(st, step);
  }

  lemma {:induction false} RunKeepsInv(st: State, steps: seq<Step>)
    requires Inv(st) && Run(st, steps) && !Final(st, steps).missed
    ensures Inv(Final(st, steps))
    decreases |steps|
  {
    if steps != [] {
      var st' := Next(st, steps[0]);
      if st'.missed {
        MissedForGood(st', steps[1..]);
      }
      StepKeepsInv(st, steps[0]);
      RunKeepsInv(st', steps[1..]);
    }
  }

  lemma ReachableInv(st: State)
    requires Reachable(st)
    ensures Inv(st)
  {
    StartInv();
    var steps :| Run(START, steps) && Final(START, steps) == st;
    RunKeepsInv(START, steps);
  }

  lemma ReachableConserved(st: State, k: Key)
    requires Reachable(st)
    ensures Conserved(st, k)
  {
    ReachableInv(st);
  }

  lemma ReachableOwned(st: State, s: Side)
    requires Reachable(st)
    ensures WellOwned(st, s)
  {
    ReachableInv(st);
  }

  /** Conservation. In every reachable state the owner's count of every id pack is the sum of everything that
      stands for it: packages boxed and in flight, packages waiting in tasks, netrefs being built, live netrefs,
      queued, batched and travelling deletions, and what was abandoned. */
  lemma CountsAreConserved(st: State, k: Key)
    requires Reachable(st)
    ensures CountOf(st.At(k.owner).local, k) == InFlight(st, k) + Live(st, k) + GoingBack(st, k) + Abandoned(st, k)
  {
    ReachableConserved(st, k);
  }

  /** An object with a live netref at the peer is registered, under its own id pack. */
  lemma LiveProxyKeepsObject(st: State, s: Side, x: Proxy)
    requires Reachable(st) && x in st.At(s).proxies
    ensures var owner := st.At(s.Other()).local;
            x.key.owner == s.Other() && x.key in owner && owner[x.key].obj == x.key && owner[x.key].count >= x.count
  {
    ReachableOwned(st, s);
    ReachableOwned(st, s.Other());
    ReachableConserved(st, x.key);
    SumPositive(st.At(s).proxies, x, ProxyWeight(x.key));
  }

  /** A deletion never meets a missing key and never takes a count below zero; it removes the entry exactly when
      nothing else stands for the object any more. */
  lemma DeletionIsExact(st: State, s: Side, i: nat)
    requires Reachable(st) && Enabled(st, HandleDel(s, i))
    ensures var d, st' := st.At(s).deferred[i], Next(st, HandleDel(s, i));
            && d.key in st.At(s).local && st.At(s).local[d.key].count >= d.count
            && (d.key !in st'.At(s).local <==> Outstanding(st', d.key) + Abandoned(st', d.key) == 0)
  {
    var d := st.At(s).deferred[i];
    assert d.key.owner == s && d.count >= 1 && CountOf(st.At(s).local, d.key) >= d.count by {
      ReachableInv(st);
      DelCovered(st, s, i);
    }
    ReachableConserved(st, d.key);
    HandleDelConserves(st, s, i, d.key);
    ReachableOwned(st, s);
    ActorStaysOwned(st, HandleDel(s, i));
  }

  /** A reference that has come back to its owner at the head of the stream names a registered object, whatever
      deletions travel behind it. */
  lemma BackReferenceRegistered(st: State, s: Side, k: Key)
    requires Reachable(st) && st.To(s) != [] && st.To(s)[0].Package?
    requires k in st.To(s)[0].refs && k.owner == s
    ensures k in st.At(s).local && st.At(s).local[k].obj == k
  {
    ReachableOwned(st, s);
    assert BackSafe(st, s) by { ReachableInv(st); }
    assert Covered(st, s, k) >= Sum(st.To(s)[..0], MsgDels(k)) + 1;
  }

  /** A package unboxed on arrival never misses. Of the references to own objects in it, those ahead of the first
      reference whose class must be fetched resolve there and then; those behind it are parked. */
  lemma BackReferenceResolves(st: State, s: Side, n: nat, j: nat)
    requires Reachable(st) && Enabled(st, Arrive(s, n))
    requires j < |st.To(s)[0].refs| && st.To(s)[0].refs[j].owner == s
    ensures var k, st' := st.To(s)[0].refs[j], Next(st, Arrive(s, n));
            && !st'.missed && st'.At(s).local == st.At(s).local && k in st'.At(s).local && st'.At(s).local[k].obj == k
            && j != n
            && (j > n ==> Parked(st.To(s)[0].refs[n..], true) in st'.At(s).parked && k in st.To(s)[0].refs[n..][1..])
  {
    var refs := st.To(s)[0].refs;
    ArrivalNeverMisses(st, s, n);
    BackReferenceRegistered(st, s, refs[j]);
    UnboxKeysKeep(st.At(s), refs[..n]);
    if j > n {
      assert refs[n..][1..][j - n - 1] == refs[j];
      assert Next(st, Arrive(s, n)).At(s).parked == st.At(s).parked + [Parked(refs[n..], true)];
    }
  }

  /** At rest the registries hold exactly what was abandoned: an object nothing was abandoned for is gone. */
  lemma QuiescenceReleases(st: State, k: Key)
    requires Reachable(st) && Quiescent(st)
    ensures k in st.At(k.owner).local <==> Abandoned(st, k) > 0
    ensures CountOf(st.At(k.owner).local, k) == Abandoned(st, k)
  {
    ReachableOwned(st, k.owner);
    ReachableConserved(st, k);
    NothingParked(st.At(k.owner.Other()).parked, k);
  }

  /** Boxing an object that had been removed starts its count afresh, under the same id pack. */
  lemma BoxedAgain(st: State, s: Side, k: Key)
    requires Reachable(st) && k.owner == s && k !in st.At(s).local
    ensures Outstanding(st, k) == 0 && Abandoned(st, k) == 0
    ensures Enabled(st, Box(s, [k]))
    ensures var st' := Next(st, Box(s, [k]));
            st'.At(s).local == st.At(s).local[k := Slot(k, 1)] && Outstanding(st', k) == 1
  {
    ReachableOwned(st, s);
    ReachableConserved(st, k);
    BoxOutstanding(st, s, k);
  }

  /** Counts are abandoned in exactly five ways: a batched deletion is skipped because its key has a cached netref
      again, one is not sent because that raises or its task is cancelled, the gate drops a package with references of
      its sender in it, unboxing a package raises or is cancelled before such a reference, or a message with the object
      in it was boxed and could not be sent. */
  lemma AbandonsIff(st: State, step: Step, k: Key)
    requires Reachable(st) && Enabled(st, step)
    ensures Abandoned(Next(st, step), k) > Abandoned(st, k) <==>
              || (step.Process? && st.At(step.s).batch[step.i].key == k && HasCached(st.At(step.s).proxies, k))
              || (step.DelFails? && st.At(step.s).batch[step.i].key == k)
              || (step.Drop? && k.owner != step.s && k in st.To(step.s)[0].refs)
              || (step.GiveUp? && k.owner != step.s && k in st.At(step.s).parked[step.i].keys)
              || (step.SendFails? && k.owner == step.s && k in st.At(step.s).outbox[step.i])
  {
    match step
    case Process(s, i) =>
      ReachableOwned(st, s);
      var e := st.At(s).batch[i];
      assert e in st.At(s).batch;
      SumSnoc(st.abandoned, e, EntryWeight(k));
    case DelFails(s, i) =>
      ReachableOwned(st, s);
      assert st.At(s).batch[i] in st.At(s).batch;
      SumSnoc(st.abandoned, st.At(s).batch[i], EntryWeight(k));
    case Drop(s) => LostIff(st.abandoned, s, st.To(s)[0].refs, k);
    case GiveUp(s, i) => LostIff(st.abandoned, s, st.At(s).parked[i].keys, k);
    case SendFails(s, i) => LostIff(st.abandoned, s.Other(), st.At(s).outbox[i], k);
    case _ =>
  }

  // ---- late unboxing ----

  lemma ArrivalNeverMisses(st: State, s: Side, n: nat)
    requires Reachable(st) && Enabled(st, Arrive(s, n))
    ensures !Next(st, Arrive(s, n)).missed
  {
    var refs := st.To(s)[0].refs;
    forall k | k in refs[..Min(n + 1, |refs|)] && k.owner == s ensures k in st.At(s).local {
      BackReferenceRegistered(st, s, k);
    }
  }

  /** Only the next reference of a parked package can miss. */
  lemma OnlyParkedMisses(st: State, step: Step)
    requires Reachable(st) && Enabled(st, step) && Next(st, step).missed
    ensures step.UnboxNext? && Misses(st.At(step.s), step.s, st.At(step.s).parked[step.i].keys[0])
  {
    if step.Arrive? {
      ArrivalNeverMisses(st, step.s, step.n);
    }
  }

  lemma {:induction false} GoneIff(st: State, steps: seq<Step>, k: Key)
    requires Inv(st) && Run(st, steps) && !Final(st, steps).missed
    ensures k !in Final(st, steps).At(k.owner).local <==> TakenAway(st, steps, k, k !in st.At(k.owner).local)
    decreases |steps|
  {
    if steps != [] {
      var st' := Next(st, steps[0]);
      if st'.missed {
        MissedForGood(st', steps[1..]);
      }
      EntryComesAndGoes(st, steps[0], k);
      StepKeepsInv(st, steps[0]);
      GoneIff(st', steps[1..], k);
    }
  }

  /** A reference that came back parked, for whatever reason, misses its object when it is unboxed at last, exactly
      when since its arrival at the head of the stream a deletion as large as the object's count was applied and the
      object was not boxed again. */
  lemma MissIff(st: State, steps: seq<Step>, s: Side, i: nat, slow: bool, k: Key)
    requires Reachable(st) && st.To(s) != [] && st.To(s)[0].Package? && k in st.To(s)[0].refs && k.owner == s
    requires Run(st, steps) && !Final(st, steps).missed && Enabled(Final(st, steps), UnboxNext(s, i, slow))
    requires Final(st, steps).At(s).parked[i].keys[0] == k
    ensures Next(Final(st, steps), UnboxNext(s, i, slow)).missed <==> TakenAway(st, steps, k, false)
  {
    ReachableInv(st);
    BackReferenceRegistered(st, s, k);
    GoneIff(st, steps, k);
  }

  lemma HeldNeverMisses(st: State, step: Step)
    requires Inv(st) && !st.missed && Enabled(st, step) && SendersHold(st, [step])
    ensures !Next(st, step).missed
  {
    var s := step.s;
    match step
    case Arrive(_, n) =>
      var refs := st.To(s)[0].refs;
      forall k | k in refs[..Min(n + 1, |refs|)] && k.owner == s ensures k in st.At(s).local {
        assert k in refs && Covered(st, s, k) >= Sum(st.To(s)[..0], MsgDels(k)) + 1;
      }
    case UnboxNext(_, i, _) =>
      var k := st.At(s).parked[i].keys[0];
      assert Conserved(st, k);
      if k.owner == s { ProxyCovers(st, s.Other(), k); }
    case _ =>
  }

  /** Then no reference misses, so everything above holds of the whole run. */
  lemma {:induction false} HeldReferencesNeverMiss(st: State, steps: seq<Step>)
    requires Inv(st) && !st.missed && Run(st, steps) && SendersHold(st, steps)
    ensures !Final(st, steps).missed && Inv(Final(st, steps))
    decreases |steps|
  {
    if steps != [] {
      HeldNeverMisses(st, steps[0]);
      StepKeepsInv(st, steps[0]);
      HeldReferencesNeverMiss(Next(st, steps[0]), steps[1..]);
    }
  }
}
