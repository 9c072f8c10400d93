/** The netref lifetime code of one connection end, as it updates its tables, and the runs that show what it
    does not guarantee. */
module Netrefs {
  import opened Core
  import opened Registry
  import opened RefMachine
  import opened Proxies

  /** The deletions that are sent for a grouped batch: those whose key has no cached proxy. */
  function SentFor(ps: seq<Proxy>, g: seq<Entry>): seq<Msg> {
    if g == [] then [] else SentOne(ps, g[0]) + SentFor(ps, g[1..])
  }

  function SentOne(ps: seq<Proxy>, e: Entry): seq<Msg> {
    if HasCached(ps, e.key) then [] else [Del(e.key, e.count)]
  }

  /** The dictionary of grouped deletions, read in insertion order. */
  ghost function Entries(order: seq<Key>, counts: map<Key, nat>): seq<Entry>
    requires forall k | k in order :: k in counts
  {
    seq(|order|, i requires 0 <= i < |order| => Entry(order[i], counts[order[i]]))
  }

  lemma {:induction false} MergeAt(g: seq<Entry>, i: nat, e: Entry)
    requires i < |g| && g[i].key == e.key && forall j | 0 <= j < i :: g[j].key != e.key
    ensures Merge(g, e) == g[i := Entry(e.key, g[i].count + e.count)]
  {
    if i > 0 {
      MergeAt(g[1..], i - 1, e);
    }
  }

  lemma {:induction false} MergeNew(g: seq<Entry>, e: Entry)
    requires forall x | x in g :: x.key != e.key
    ensures Merge(g, e) == g + [e]
  {
    if g != [] {
      MergeNew(g[1..], e);
    }
  }

  function KeysOf(g: seq<Entry>): seq<Key> {
    if g == [] then [] else [g[0].key] + KeysOf(g[1..])
  }

  /** The keys in the order in which they were first seen. */
  function FirstSeen(keys: seq<Key>): seq<Key> {
    if keys == [] then []
    else
      var init, last := FirstSeen(keys[..|keys| - 1]), keys[|keys| - 1];
      if last in init then init else init + [last]
  }

  lemma {:induction false} MergeOrder(g: seq<Entry>, e: Entry)
    ensures KeysOf(Merge(g, e)) == if e.key in KeysOf(g) then KeysOf(g) else KeysOf(g) + [e.key]
  {
    if g == [] {
      assert KeysOf([e]) == [e.key] + KeysOf([]);
    } else if g[0].key != e.key {
      MergeOrder(g[1..], e);
      assert Merge(g, e)[1..] == Merge(g[1..], e);
      assert [g[0].key] + (KeysOf(g[1..]) + [e.key]) == KeysOf(g) + [e.key];
    } else {
      assert Merge(g, e)[1..] == g[1..];
    }
  }

  lemma {:induction false} KeysSnoc(g: seq<Entry>, e: Entry)
    ensures KeysOf(g + [e]) == KeysOf(g) + [e.key]
  {
    if g == [] {
      assert g + [e] == [e] && [e][1..] == [];
    } else {
      assert (g + [e])[1..] == g[1..] + [e];
      KeysSnoc(g[1..], e);
    }
  }

  /** Grouping keeps the order in which the id packs were first queued. */
  lemma {:induction false} GroupedInOrder(pending: seq<Entry>)
    ensures KeysOf(Grouped(pending)) == FirstSeen(KeysOf(pending))
  {
    if pending != [] {
      var init, last := pending[..|pending| - 1], pending[|pending| - 1];
      GroupedInOrder(init);
      MergeOrder(Grouped(init), last);
      KeysSnoc(init, last);
      assert init + [last] == pending;
      var keys := KeysOf(pending);
      assert keys[..|keys| - 1] == KeysOf(init);
    }
  }

  lemma AddToOld(order: seq<Key>, counts: map<Key, nat>, e: Entry, j: nat)
    requires (forall k | k in order :: k in counts) && j < |order| && order[j] == e.key
    requires forall x | 0 <= x < |order| && x != j :: order[x] != e.key
    ensures Entries(order, counts[e.key := counts[e.key] + e.count]) == Merge(Entries(order, counts), e)
  {
    var g := Entries(order, counts);
    MergeAt(g, j, e);
    assert Entries(order, counts[e.key := counts[e.key] + e.count]) == g[j := Entry(e.key, g[j].count + e.count)];
  }

  lemma AddToNew(order: seq<Key>, counts: map<Key, nat>, e: Entry)
    requires counts.Keys == (set k | k in order) && e.key !in counts
    ensures Entries(order + [e.key], counts[e.key := e.count]) == Merge(Entries(order, counts), e)
  {
    var g := Entries(order, counts);
    MergeNew(g, e);
    assert Entries(order + [e.key], counts[e.key := e.count]) == g + [e];
  }

  /** Groups deletions by id pack and adds their counts up. */
  method GroupDeletions(batch: seq<Entry>) returns (order: seq<Key>, deletions: map<Key, nat>)
    ensures forall k | k in order :: k in deletions
    ensures Entries(order, deletions) == Grouped(batch)
  {
    order, deletions := [], map[];
    assert batch[..0] == [];
    for i := 0 to |batch|
      invariant deletions.Keys == set k | k in order
      invariant forall x, y | 0 <= x < y < |order| :: order[x] != order[y]
      invariant Entries(order, deletions) == Grouped(batch[..i])
    {
      var e := batch[i];
      var init := batch[..i + 1];
      assert init[..|init| - 1] == batch[..i] && init[|init| - 1] == e;
      if e.key in deletions {
        ghost var j :| 0 <= j < |order| && order[j] == e.key;
        AddToOld(order, deletions, e, j);
        deletions := deletions[e.key := deletions[e.key] + e.count];
      } else {
        AddToNew(order, deletions, e);
        order, deletions := order + [e.key], deletions[e.key := e.count];
      }
    }
    assert batch[..|batch|] == batch;
  }

  class Connection {
    const side: Side
    const localObjects: RefCountingColl<Key, Key>
    var proxies: seq<Proxy>
    var pendingDeletions: seq<Entry>
    var sent: seq<Msg>

    constructor (side: Side)
      ensures fresh(localObjects) && this.side == side
      ensures AsPeer() == NEW_PEER && sent == []
    {
      this.side := side;
      localObjects := new RefCountingColl();
      proxies, pendingDeletions, sent := [], [], [];
    }

    /** The tables of this end, with nothing else under way. */
    ghost function AsPeer(): Peer
      reads this, localObjects
    {
      NEW_PEER.(local := localObjects.slots, proxies := proxies, pending := pendingDeletions)
    }

    /** `_unbox` of one remote reference: an own object changes no netref, the cached netref of the key counts one more,
        and if there is none one is made that counts one. */
    method UnboxRef(k: Key)
      modifies this`proxies
      ensures AsPeer() == UnboxKey(old(AsPeer()), k)
      ensures k in localObjects.slots ==> proxies == old(proxies)
      ensures k !in localObjects.slots && !HasCached(old(proxies), k) ==> proxies == old(proxies) + [Proxy(k, 1, true)]
      ensures k !in localObjects.slots && HasCached(old(proxies), k) ==>
                exists i :: 0 <= i < |old(proxies)| && old(proxies)[i].key == k && old(proxies)[i].cached
                            && proxies == old(proxies)[i := old(proxies)[i].(count := old(proxies)[i].count + 1)]
    {
      var own := localObjects.GetItem(k);
      if own.Ok? {
        return;
      }
      var i := FindCached(k);
      if i < |proxies| {
        BumpAt(proxies, i, k);
        proxies := proxies[i := proxies[i].(count := proxies[i].count + 1)];
      } else {
        UncacheNone(proxies, k);
        proxies := AddProxy(proxies, k);
      }
    }

    /** Where the cache finds the proxy of a key, or the number of proxies. */
    method FindCached(k: Key) returns (i: nat)
      ensures i <= |proxies| && (i < |proxies| <==> HasCached(proxies, k))
      ensures i < |proxies| ==> proxies[i].key == k && proxies[i].cached
                                && forall j | 0 <= j < i :: !(proxies[j].key == k && proxies[j].cached)
    {
      i := 0;
      while i < |proxies| && !(proxies[i].key == k && proxies[i].cached)
        invariant i <= |proxies|
        invariant forall j | 0 <= j < i :: !(proxies[j].key == k && proxies[j].cached)
      {
        i := i + 1;
      }
    }

    /** `__del__`: the step of a dying netref. The netref is gone, no key's references change in number, and those of
        its key are queued behind the others. */
    method Collected(i: nat, ghost st: State)
      requires i < |proxies| && st.At(side) == AsPeer()
      modifies this`proxies, this`pendingDeletions
      ensures Next(st, Die(side, i)).At(side) == AsPeer()
      ensures forall k :: Sum(proxies, ProxyWeight(k)) + Sum(pendingDeletions, EntryWeight(k))
                          == old(Sum(proxies, ProxyWeight(k)) + Sum(pendingDeletions, EntryWeight(k)))
      ensures |proxies| == |old(proxies)| - 1 && old(pendingDeletions) <= pendingDeletions
    {
      ghost var dead := Entry(proxies[i].key, proxies[i].count);
      forall k ensures Sum(proxies, ProxyWeight(k)) + Sum(pendingDeletions, EntryWeight(k))
                       == Sum(Without(proxies, i), ProxyWeight(k)) + Sum(pendingDeletions + [dead], EntryWeight(k)) {
        SumWithout(proxies, i, ProxyWeight(k));
        SumSnoc(pendingDeletions, dead, EntryWeight(k));
      }
      pendingDeletions := pendingDeletions + [Entry(proxies[i].key, proxies[i].count)];
      proxies := Without(proxies, i);
    }

    /** `_handle_del`: the reply says whether the object was removed. */
    method HandleDel(k: Key, count: nat) returns (deleted: bool)
      modifies localObjects
      ensures localObjects.slots == DecRef(old(localObjects.slots), k, count)
      ensures deleted <==> k in old(localObjects.slots) && k !in localObjects.slots
    {
      deleted := localObjects.Decref(k, count);
    }

    /** The drain of the deletion queue when nothing else runs meanwhile: every queued count is sent back in one
        deletion per key, except for keys that have a cached proxy again. */
    method ProcessPendingDeletions()
      modifies this`pendingDeletions, this`sent
      ensures pendingDeletions == [] && proxies == old(proxies)
      ensures sent == old(sent) + SentFor(proxies, Grouped(old(pendingDeletions)))
    {
      var batch := TakeBatch();
      var order, deletions := GroupDeletions(batch);
      SendDeletions(order, deletions);
    }

    /** The queue emptied, item by item. */
    method TakeBatch() returns (batch: seq<Entry>)
      modifies this`pendingDeletions
      ensures batch == old(pendingDeletions) && pendingDeletions == []
    {
      batch := [];
      while pendingDeletions != []
        invariant batch + pendingDeletions == old(pendingDeletions)
        decreases |pendingDeletions|
      {
        MoveFirst(batch, pendingDeletions);
        batch := batch + [pendingDeletions[0]];
        pendingDeletions := pendingDeletions[1..];
      }
    }

    method SendDeletions(order: seq<Key>, deletions: map<Key, nat>)
      requires forall k | k in order :: k in deletions
      modifies this`sent
      ensures sent == old(sent) + SentFor(proxies, Entries(order, deletions))
    {
      ghost var g := Entries(order, deletions);
      ghost var whole := sent + SentFor(proxies, g);
      assert g[0..] == g;
      for i := 0 to |order|
        invariant sent + SentFor(proxies, g[i..]) == whole
      {
        var k := order[i];
        ghost var e, rest := g[i], SentFor(proxies, g[i + 1..]);
        assert e == Entry(k, deletions[k]) && g[i..][0] == e && g[i..][1..] == g[i + 1..];
        assert sent + (SentOne(proxies, e) + rest) == (sent + SentOne(proxies, e)) + rest;
        ghost var before := sent;
        var at := FindCached(k);
        if at == |proxies| {
          sent := sent + [Del(k, deletions[k])];
        }
        assert sent == before + SentOne(proxies, e);
      }
      assert g[|order|..] == [] && sent + [] == sent;
    }
  }

  // ---- the drain as steps ----

  /** A batch worked off from the front. */
  function DrainSteps(s: Side, n: nat): seq<Step> {
    if n == 0 then [] else [Process(s, 0)] + DrainSteps(s, n - 1)
  }

  /** What the synchronous drain leaves: the batch is gone, and its deletions are on the stream in order. */
  function Drained(st: State, s: Side): State {
    var p := st.At(s);
    st.Put(s, p.(batch := [])).PutTo(s.Other(), st.To(s.Other()) + SentFor(p.proxies, p.batch))
    .(abandoned := st.abandoned + SkippedFor(p.proxies, p.batch))
  }

  /** The deletions of a batch that are skipped: those whose key has a cached proxy. */
  function SkippedFor(ps: seq<Proxy>, g: seq<Entry>): seq<Entry> {
    if g == [] then [] else SkippedOne(ps, g[0]) + SkippedFor(ps, g[1..])
  }

  function SkippedOne(ps: seq<Proxy>, e: Entry): seq<Entry> {
    if HasCached(ps, e.key) then [e] else []
  }

  /** Working off a whole batch step by step does the same, and changes nothing else. */
  lemma {:induction false} DrainIsSteps(st: State, s: Side)
    ensures Run(st, DrainSteps(s, |st.At(s).batch|))
    ensures Final(st, DrainSteps(s, |st.At(s).batch|)) == Drained(st, s)
    decreases |st.At(s).batch|
  {
    var n := |st.At(s).batch|;
    if n == 0 {
      NothingToDrain(st, s);
    } else {
      DrainedFront(st, s);
      DrainIsSteps(Next(st, Process(s, 0)), s);
      RunCons(st, Process(s, 0), DrainSteps(s, n - 1));
    }
  }

  lemma NothingToDrain(st: State, s: Side)
    requires st.At(s).batch == []
    ensures Drained(st, s) == st
  {
    assert st.To(s.Other()) + [] == st.To(s.Other()) && st.abandoned + [] == st.abandoned;
  }

  lemma DrainedFront(st: State, s: Side)
    requires st.At(s).batch != []
    ensures Enabled(st, Process(s, 0))
    ensures var st' := Next(st, Process(s, 0));
            |st'.At(s).batch| == |st.At(s).batch| - 1 && Drained(st', s) == Drained(st, s)
  {
    var batch, ps := st.At(s).batch, st.At(s).proxies;
    assert Without(batch, 0) == batch[1..];
    DrainedOne(st.To(s.Other()), ps, batch);
    SkippedFirst(st.abandoned, ps, batch);
  }

  lemma DrainedOne(wire: seq<Msg>, ps: seq<Proxy>, g: seq<Entry>)
    requires g != []
    ensures SentFor(ps, g) == if HasCached(ps, g[0].key) then SentFor(ps, g[1..])
                              else [Del(g[0].key, g[0].count)] + SentFor(ps, g[1..])
    ensures wire + [Del(g[0].key, g[0].count)] + SentFor(ps, g[1..])
            == wire + ([Del(g[0].key, g[0].count)] + SentFor(ps, g[1..]))
  {
    if HasCached(ps, g[0].key) {
      assert [] + SentFor(ps, g[1..]) == SentFor(ps, g[1..]);
    }
    Regroup(wire, [Del(g[0].key, g[0].count)], SentFor(ps, g[1..]));
  }

  lemma SkippedFirst(abandoned: seq<Entry>, ps: seq<Proxy>, g: seq<Entry>)
    requires g != []
    ensures SkippedFor(ps, g) == if HasCached(ps, g[0].key) then [g[0]] + SkippedFor(ps, g[1..]) else SkippedFor(ps, g[1..])
    ensures abandoned + [g[0]] + SkippedFor(ps, g[1..]) == abandoned + ([g[0]] + SkippedFor(ps, g[1..]))
  {
    if !HasCached(ps, g[0].key) {
      assert [] + SkippedFor(ps, g[1..]) == SkippedFor(ps, g[1..]);
    }
    Regroup(abandoned, [g[0]], SkippedFor(ps, g[1..]));
  }

  lemma RunCons(st: State, step: Step, steps: seq<Step>)
    requires Enabled(st, step) && Run(Next(st, step), steps)
    ensures Run(st, [step] + steps) && Final(st, [step] + steps) == Final(Next(st, step), steps)
  {
    assert ([step] + steps)[1..] == steps;
  }

  // ---- runs that show what is not guaranteed ----

  ghost predicate Reaches(st: State) {
    exists steps :: Run(START, steps) && Final(START, steps) == st
  }

  lemma {:induction false} RunSnoc(st: State, steps: seq<Step>, step: Step)
    requires Run(st, steps) && Enabled(Final(st, steps), step)
    ensures Run(st, steps + [step]) && Final(st, steps + [step]) == Next(Final(st, steps), step)
    decreases |steps|
  {
    if steps == [] {
      assert steps + [step] == [step] && [step][1..] == [];
    } else {
      assert (steps + [step])[1..] == steps[1..] + [step];
      RunSnoc(Next(st, steps[0]), steps[1..], step);
    }
  }

  lemma ReachesNext(st: State, step: Step)
    requires Reaches(st) && Enabled(st, step)
    ensures Reaches(Next(st, step))
  {
    var steps :| Run(START, steps) && Final(START, steps) == st;
    RunSnoc(START, steps, step);
  }

  lemma ReachesStart()
    ensures Reaches(START)
  {
    assert Run(START, []) && Final(START, []) == START;
  }

  const X := Key(Left, 0)

  /** The left side's registry with n references to X, and nothing else. */
  function Owner(n: nat): Peer {
    NEW_PEER.(local := map[X := Slot(X, n)])
  }

  /** The right side with one netref of X, and nothing else. */
  const HOLDER := NEW_PEER.(proxies := [Proxy(X, 1, true)])

  const DELIVERED := START.(left := Owner(1), right := HOLDER)

  lemma AddOwnOne(m: map<Key, Slot<Key>>, s: Side)
    ensures AddOwn(m, s, [X]) == if s == Left then AddRef(m, X, X) else m
  {
    assert [X][1..] == [];
    assert AddOwn(m, s, [X]) == AddOwn(if s == Left then AddRef(m, X, X) else m, s, []);
  }

  lemma UnboxOne(p: Peer)
    ensures UnboxKeys(p, [X]) == UnboxKey(p, X)
  {
    assert [X][1..] == [];
    assert UnboxKeys(p, [X]) == UnboxKeys(UnboxKey(p, X), []);
  }

  lemma Boxed(st: State, n: nat)
    requires Reaches(st) && ((st.left == NEW_PEER && n == 0) || st.left == Owner(n))
    ensures Reaches(st.(left := Owner(n + 1).(outbox := [[X]])))
  {
    AddOwnOne(st.left.local, Left);
    ReachesNext(st, Box(Left, [X]));
    assert Next(st, Box(Left, [X])).left == Owner(n + 1).(outbox := [[X]]);
  }

  /** The left side boxes X once more and sends it. */
  lemma Sent(st: State, n: nat)
    requires Reaches(st) && ((st.left == NEW_PEER && n == 0) || st.left == Owner(n))
    ensures Reaches(st.(left := Owner(n + 1), toRight := st.toRight + [Package([X])]))
  {
    Boxed(st, n);
    var st1 := st.(left := Owner(n + 1).(outbox := [[X]]));
    ReachesNext(st1, Post(Left, 0));
    assert Next(st1, Post(Left, 0)).left == Owner(n + 1);
  }

  lemma DeliveredReachable()
    ensures Reaches(DELIVERED)
  {
    ReachesStart();
    Sent(START, 0);
    var st := START.(left := Owner(1), toRight := [] + [Package([X])]);
    Delivered(st);
  }

  /** A package with X alone reaches the right side, which has no netref, and is unboxed on arrival. */
  lemma Delivered(st: State)
    requires Reaches(st) && st.toRight == [] + [Package([X])] && !st.missed
    requires st.right.local == map[] && st.right.proxies == []
    ensures Reaches(st.(toRight := [], right := st.right.(proxies := [Proxy(X, 1, true)])))
  {
    assert [X][..1] == [X];
    UnboxOne(st.right);
    ReachesNext(st, Arrive(Right, 1));
    assert Next(st, Arrive(Right, 1)) == st.(toRight := [], right := st.right.(proxies := [Proxy(X, 1, true)]));
  }

  lemma GroupedOne()
    ensures Grouped([Entry(X, 1)]) == [Entry(X, 1)]
  {
    assert [Entry(X, 1)][..0] == [];
  }

  lemma Died(st: State, rest: Peer)
    requires Reaches(st) && st.right == rest.(proxies := [Proxy(X, 1, true)]) && rest.proxies == [] && rest.pending == []
    ensures Reaches(st.(right := rest.(pending := [Entry(X, 1)])))
  {
    ReachesNext(st, Die(Right, 0));
    assert Next(st, Die(Right, 0)).right == rest.(pending := [Entry(X, 1)]);
  }

  /** The right side's only netref dies, and its deletion is about to be processed. */
  lemma Batched(st: State, rest: Peer)
    requires Reaches(st) && st.right == rest.(proxies := [Proxy(X, 1, true)])
    requires rest.proxies == [] && rest.pending == [] && rest.batch == []
    ensures Reaches(st.(right := rest.(batch := [Entry(X, 1)])))
  {
    Died(st, rest);
    var st1 := st.(right := rest.(pending := [Entry(X, 1)]));
    GroupedOne();
    ReachesNext(st1, Collect(Right));
    assert Next(st1, Collect(Right)).right == rest.(batch := [Entry(X, 1)]);
  }

  /** The right side's only netref dies and its deletion is sent. */
  lemma ReleasedBy(st: State, rest: Peer)
    requires Reaches(st) && st.right == rest.(proxies := [Proxy(X, 1, true)])
    requires rest.proxies == [] && rest.pending == [] && rest.batch == []
    ensures Reaches(st.(right := rest, toLeft := st.toLeft + [Del(X, 1)]))
  {
    Batched(st, rest);
    var st1 := st.(right := rest.(batch := [Entry(X, 1)]));
    ReachesNext(st1, Process(Right, 0));
    assert Next(st1, Process(Right, 0)) == st.(right := rest, toLeft := st.toLeft + [Del(X, 1)]);
  }

  lemma Released(st: State)
    requires Reaches(st) && st.right == HOLDER
    ensures Reaches(st.(right := NEW_PEER, toLeft := st.toLeft + [Del(X, 1)]))
  {
    ReleasedBy(st, NEW_PEER);
  }

  /** The left side receives the deletion of X and applies it: X, with one reference, is gone. */
  lemma Removed(st: State)
    requires Reaches(st) && st.toLeft == [] + [Del(X, 1)] && X in st.left.local && st.left.local[X].count == 1
    requires st.left.deferred == []
    ensures Reaches(st.(toLeft := [], left := st.left.(local := st.left.local - {X})))
  {
    ReachesNext(st, Defer(Left));
    var st1 := Next(st, Defer(Left));
    assert st1 == st.(toLeft := [], left := st.left.(deferred := [Entry(X, 1)]));
    ReachesNext(st1, HandleDel(Left, 0));
    assert Next(st1, HandleDel(Left, 0)) == st.(toLeft := [], left := st.left.(local := st.left.local - {X}));
  }

  // ---- late unboxing ----

  /** The right side's netref of X has travelled back, with an object of the right side's own ahead of it or alone. */
  const Y := Key(Right, 0)

  const RETURNED := HOLDER.(local := map[Y := Slot(Y, 1)])

  lemma AnsweredReachable(refs: seq<Key>)
    requires refs == [X] || refs == [Y, X]
    ensures Reaches(DELIVERED.(right := if refs == [X] then HOLDER else RETURNED, toLeft := [] + [Package(refs)]))
  {
    var after := if refs == [X] then HOLDER else RETURNED;
    DeliveredReachable();
    assert HOLDER.proxies[0].key == X && [Y, X][1..] == [X];
    AddOwnOne(map[], Right);
    AddOwnOne(map[Y := Slot(Y, 1)], Right);
    assert AddOwn(map[], Right, [Y, X]) == AddOwn(AddRef(map[], Y, Y), Right, [X]);
    var st1 := Next(DELIVERED, Box(Right, refs));
    ReachesNext(DELIVERED, Box(Right, refs));
    assert st1 == DELIVERED.(right := after.(outbox := [refs]));
    ReachesNext(st1, Post(Right, 0));
    assert Next(st1, Post(Right, 0)) == DELIVERED.(right := after, toLeft := [] + [Package(refs)]);
  }

  /** The right side holds nothing any more, and the left side has the rest of a package to unbox. */
  const PARKED := DELIVERED.(left := NEW_PEER.(parked := [Parked([X], false)]), right := NEW_PEER)

  /** A reference left to a task can miss: the deletion that follows it on the stream is applied first, the object
      is gone when the task runs, and the reference becomes a netref to an object that does not exist. */
  lemma LateUnboxingCanMiss()
    ensures Reaches(PARKED) && !PARKED.missed && Enabled(PARKED, UnboxNext(Left, 0, false))
    ensures Next(PARKED, UnboxNext(Left, 0, false)).missed
    ensures Next(PARKED, UnboxNext(Left, 0, false)).left.proxies == [Proxy(X, 1, true)]
  {
    AnsweredReachable([X]);
    var st := DELIVERED.(toLeft := [] + [Package([X])]);
    ReachesNext(st, Defer(Left));
    var st1 := Next(st, Defer(Left));
    assert st1 == DELIVERED.(left := Owner(1).(parked := [Parked([X], false)]));
    Released(st1);
    Removed(st1.(right := NEW_PEER, toLeft := [] + [Del(X, 1)]));
    assert map[X := Slot(X, 1)] - {X} == map[];
  }

  /** The same, with the package unboxed on arrival: its first reference needs a class, which is fetched with
      messages served meanwhile, and the deletion behind the package is one of them. */
  const FETCHING := DELIVERED.(left := NEW_PEER.(parked := [Parked([Y, X], true)]),
                               right := NEW_PEER.(local := map[Y := Slot(Y, 1)]))

  lemma FetchingReachable()
    ensures Reaches(FETCHING)
  {
    AnsweredReachable([Y, X]);
    var st := DELIVERED.(right := RETURNED, toLeft := [] + [Package([Y, X])]);
    assert [Y, X][..0] == [] && [Y, X][0..] == [Y, X];
    ReachesNext(st, Arrive(Left, 0));
    var st1 := Next(st, Arrive(Left, 0));
    assert st1 == DELIVERED.(right := RETURNED, left := Owner(1).(parked := [Parked([Y, X], true)]));
    ReleasedBy(st1, NEW_PEER.(local := map[Y := Slot(Y, 1)]));
    Removed(st1.(right := NEW_PEER.(local := map[Y := Slot(Y, 1)]), toLeft := [] + [Del(X, 1)]));
    assert map[X := Slot(X, 1)] - {X} == map[];
  }

  lemma SuspendedArrivalCanMiss()
    ensures Reaches(FETCHING) && !FETCHING.missed && Enabled(FETCHING, Built(Left, 0))
    ensures var st := Next(FETCHING, Built(Left, 0));
            Enabled(st, UnboxNext(Left, 0, false)) && Next(st, UnboxNext(Left, 0, false)).missed
            && Proxy(X, 1, true) in Next(st, UnboxNext(Left, 0, false)).left.proxies
  {
    FetchingReachable();
    var st := Next(FETCHING, Built(Left, 0));
    assert st.left == NEW_PEER.(parked := [Parked([X], false)], proxies := [Proxy(Y, 1, true)]);
    var end := Next(st, UnboxNext(Left, 0, false)).left.proxies;
    assert end == AddProxy([Proxy(Y, 1, true)], X) && end[|end| - 1] == Proxy(X, 1, true);
  }

  // ---- abandoned counts ----

  /** The second reference arrives after the first netref has died, and before its deletion is processed. */
  lemma Resurrected(st: State)
    requires Reaches(st) && st.right == HOLDER && st.toRight == [] + [Package([X])] && !st.missed
    ensures Reaches(st.(toRight := [], abandoned := st.abandoned + [Entry(X, 1)]))
  {
    Died(st, NEW_PEER);
    Delivered(st.(right := NEW_PEER.(pending := [Entry(X, 1)])));
    var st2 := st.(right := HOLDER.(pending := [Entry(X, 1)]), toRight := []);
    assert Reaches(st2);
    GroupedOne();
    ReachesNext(st2, Collect(Right));
    assert Next(st2, Collect(Right)).right == HOLDER.(batch := [Entry(X, 1)]);
    Skipped(st2.(right := HOLDER.(batch := [Entry(X, 1)])));
    assert st2.(right := HOLDER) == st.(toRight := []);
  }

  lemma Skipped(st: State)
    requires Reaches(st) && st.right == HOLDER.(batch := [Entry(X, 1)])
    ensures Reaches(st.(right := HOLDER, abandoned := st.abandoned + [Entry(X, 1)]))
  {
    assert HOLDER.proxies[0].key == X;
    ReachesNext(st, Process(Right, 0));
    assert Next(st, Process(Right, 0)).right == HOLDER;
  }

  /** A netref that dies after a new one took its place is not given back: everything has come to rest, and the
      object stays registered for good. */
  lemma ResurrectionLeaks()
    ensures exists st :: Reaches(st) && !st.missed && Quiescent(st) && X in st.left.local
  {
    DeliveredReachable();
    Sent(DELIVERED, 1);
    var st := DELIVERED.(left := Owner(2), toRight := [] + [Package([X])]);
    Resurrected(st);
    var st1 := st.(toRight := [], abandoned := [] + [Entry(X, 1)]);
    Released(st1);
    LastGiven(st1.(right := NEW_PEER, toLeft := [] + [Del(X, 1)]));
  }

  lemma LastGiven(st: State)
    requires Reaches(st) && st.left == Owner(2) && st.right == NEW_PEER && st.toLeft == [] + [Del(X, 1)] && st.toRight == []
    ensures Reaches(st.(left := Owner(1), toLeft := [])) && Quiescent(st.(left := Owner(1), toLeft := []))
  {
    ReachesNext(st, Defer(Left));
    var st1 := Next(st, Defer(Left));
    assert st1 == st.(toLeft := [], left := Owner(2).(deferred := [Entry(X, 1)]));
    OneGiven(st1);
    assert st1.(left := Owner(1)) == st.(left := Owner(1), toLeft := []);
  }

  lemma OneGiven(st: State)
    requires Reaches(st) && st.left == Owner(2).(deferred := [Entry(X, 1)])
    ensures Reaches(st.(left := Owner(1)))
  {
    ReachesNext(st, HandleDel(Left, 0));
    assert Next(st, HandleDel(Left, 0)) == st.(left := Owner(1));
  }
}
