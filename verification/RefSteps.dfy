/** What the single steps of the reference-counting machine do to the tables of the two ends: sums over lists of proxies,
    entries and messages, unboxing one key and many, grouping deletions, and which tables may hold which keys. The
    lemmas here speak of one function or one step each. */
module RefSteps {
  import opened Core
  import opened Registry
  import opened RefMachine

  // ---- what the table operations do to the ledger ----

  lemma {:induction false} AddOwnCounts(m: map<Key, Slot<Key>>, s: Side, refs: seq<Key>, k: Key)
    ensures CountOf(AddOwn(m, s, refs), k)
            == CountOf(m, k) + if k.owner == s then Sum(refs, KeyWeight(k)) else 0
    decreases refs
  {
    if refs != [] {
      AddOwnCounts(if refs[0].owner == s then AddRef(m, refs[0], refs[0]) else m, s, refs[1..], k);
    }
  }

  lemma {:induction false} AddOwnOwned(m: map<Key, Slot<Key>>, s: Side, refs: seq<Key>)
    requires forall k | k in m :: k.owner == s && m[k].obj == k && m[k].count >= 1
    ensures var m' := AddOwn(m, s, refs);
            forall k | k in m' :: k.owner == s && m'[k].obj == k && m'[k].count >= 1
    decreases refs
  {
    if refs != [] {
      AddOwnOwned(if refs[0].owner == s then AddRef(m, refs[0], refs[0]) else m, s, refs[1..]);
    }
  }

  lemma {:induction false} BumpSum(ps: seq<Proxy>, k: Key, k': Key)
    requires HasCached(ps, k)
    ensures Sum(Bump(ps, k), ProxyWeight(k')) == Sum(ps, ProxyWeight(k')) + if k == k' then 1 else 0
  {
    if !(ps[0].key == k && ps[0].cached) {
      var i :| 0 <= i < |ps| && ps[i].key == k && ps[i].cached;
      assert ps[1..][i - 1] == ps[i];
      BumpSum(ps[1..], k, k');
    }
  }

  lemma {:induction false} UncacheSum(ps: seq<Proxy>, k: Key, k': Key)
    ensures Sum(Uncache(ps, k), ProxyWeight(k')) == Sum(ps, ProxyWeight(k'))
  {
    if ps != [] {
      UncacheSum(ps[1..], k, k');
    }
  }

  lemma AddProxySum(ps: seq<Proxy>, k: Key, k': Key)
    ensures Sum(AddProxy(ps, k), ProxyWeight(k')) == Sum(ps, ProxyWeight(k')) + if k == k' then 1 else 0
  {
    UncacheSum(ps, k, k');
    SumSnoc(Uncache(ps, k), Proxy(k, 1, true), ProxyWeight(k'));
  }

  lemma {:induction false} BumpOwned(ps: seq<Proxy>, k: Key, s: Side)
    requires ProxiesOwned(ps, s)
    ensures ProxiesOwned(Bump(ps, k), s)
  {
    if ps != [] {
      BumpOwned(ps[1..], k, s);
    }
  }

  lemma {:induction false} UncacheOwned(ps: seq<Proxy>, k: Key, s: Side)
    requires ProxiesOwned(ps, s)
    ensures ProxiesOwned(Uncache(ps, k), s)
  {
    if ps != [] {
      UncacheOwned(ps[1..], k, s);
    }
  }

  /** Unboxing a reference that resolves or belongs to the peer counts it on the proxies' side, and nowhere else. */
  lemma UnboxKeyCounts(p: Peer, s: Side, k: Key, k': Key)
    requires !Misses(p, s, k) && (forall x | x in p.local :: x.owner == s) && ProxiesOwned(p.proxies, s.Other())
    ensures var q := UnboxKey(p, k);
            && q == p.(proxies := q.proxies) && ProxiesOwned(q.proxies, s.Other())
            && Sum(q.proxies, ProxyWeight(k')) == Sum(p.proxies, ProxyWeight(k')) + if k == k' && k.owner != s then 1 else 0
  {
    if k !in p.local {
      if HasCached(p.proxies, k) {
        BumpSum(p.proxies, k, k');
        BumpOwned(p.proxies, k, s.Other());
      } else {
        AddProxySum(p.proxies, k, k');
        UncacheOwned(p.proxies, k, s.Other());
      }
    }
  }

  lemma {:induction false} UnboxKeysCounts(p: Peer, s: Side, refs: seq<Key>, k: Key)
    requires (forall x | x in refs :: !Misses(p, s, x)) && (forall x | x in p.local :: x.owner == s)
    requires ProxiesOwned(p.proxies, s.Other())
    ensures var q := UnboxKeys(p, refs);
            && q == p.(proxies := q.proxies) && ProxiesOwned(q.proxies, s.Other())
            && Sum(q.proxies, ProxyWeight(k))
               == Sum(p.proxies, ProxyWeight(k)) + if k.owner != s then Sum(refs, KeyWeight(k)) else 0
    decreases refs
  {
    if refs != [] {
      assert refs[0] in refs && forall x | x in refs[1..] :: x in refs;
      UnboxKeyCounts(p, s, refs[0], k);
      UnboxKeysCounts(UnboxKey(p, refs[0]), s, refs[1..], k);
    }
  }

  lemma {:induction false} LostSum(s: Side, refs: seq<Key>, k: Key)
    ensures Sum(Lost(s, refs), EntryWeight(k)) == if k.owner != s then Sum(refs, KeyWeight(k)) else 0
  {
    if refs != [] {
      LostSum(s, refs[1..], k);
      var one := if refs[0].owner == s then [] else [Entry(refs[0], 1)];
      SumConcat(one, Lost(s, refs[1..]), EntryWeight(k));
      assert one != [] ==> one[1..] == [];
    }
  }

  lemma {:induction false} MergeSum(g: seq<Entry>, e: Entry, k: Key)
    ensures Sum(Merge(g, e), EntryWeight(k)) == Sum(g, EntryWeight(k)) + EntryWeight(k)(e)
  {
    if g == [] {
      assert [e][1..] == [];
    } else if g[0].key != e.key {
      MergeSum(g[1..], e, k);
    }
  }

  lemma {:induction false} MergeKeys(g: seq<Entry>, e: Entry)
    requires Distinct(g)
    ensures Distinct(Merge(g, e))
    ensures forall x | x in Merge(g, e) ::
              (x.key == e.key && x.count >= e.count) || exists y :: y in g && y.key == x.key && y.count <= x.count
  {
    if g != [] && g[0].key != e.key {
      MergeKeys(g[1..], e);
      var m := Merge(g[1..], e);
      forall j | 0 <= j < |m| ensures m[j].key != g[0].key {
        assert m[j] in m;
      }
    }
  }

  lemma {:induction false} SumPositive<T>(s: seq<T>, x: T, w: T -> nat)
    requires x in s
    ensures Sum(s, w) >= w(x)
  {
    if s[0] != x {
      SumPositive(s[1..], x, w);
    }
  }

  // ---- every step keeps the ledger ----

  lemma PostConserves(st: State, s: Side, i: nat, k: Key)
    requires Conserved(st, k) && Enabled(st, Post(s, i))
    ensures Conserved(Next(st, Post(s, i)), k)
  {
    var refs := st.At(s).outbox[i];
    SumWithout(st.At(s).outbox, i, RefsWeight(k));
    SumSnoc(st.To(s.Other()), Package(refs), MsgRefs(k));
    SumSnoc(st.To(s.Other()), Package(refs), MsgDels(k));
  }

  lemma UnboxArrivedCounts(p: Peer, s: Side, refs: seq<Key>, n: nat, k: Key)
    requires n <= |refs| && NoneMisses(p, s, refs[..n])
    requires (forall x | x in p.local :: x.owner == s) && ProxiesOwned(p.proxies, s.Other())
    ensures var q := UnboxArrived(p, refs, n);
            && q == p.(parked := q.parked, proxies := q.proxies) && ProxiesOwned(q.proxies, s.Other())
            && (k.owner != s ==>
                  Sum(q.parked, ParkedWeight(k)) + Sum(q.proxies, ProxyWeight(k))
                  == Sum(p.parked, ParkedWeight(k)) + Sum(p.proxies, ProxyWeight(k)) + Sum(refs, KeyWeight(k)))
  {
    UnboxKeysCounts(p, s, refs[..n], k);
    SumConcat(refs[..n], refs[n..], KeyWeight(k));
    assert refs[..n] + refs[n..] == refs;
    if n < |refs| {
      SumSnoc(p.parked, Parked(refs[n..], true), ParkedWeight(k));
    } else {
      assert refs[n..] == [];
    }
  }

  lemma ArriveMisses(st: State, s: Side, n: nat)
    requires Enabled(st, Arrive(s, n)) && !Next(st, Arrive(s, n)).missed
    ensures NoneMisses(st.At(s), s, st.To(s)[0].refs[..n])
    ensures n < |st.To(s)[0].refs| ==> !Misses(st.At(s), s, st.To(s)[0].refs[n])
  {
    var refs := st.To(s)[0].refs;
    var seen := refs[..Min(n + 1, |refs|)];
    forall k | k in refs[..n] ensures k in seen {
      var i :| 0 <= i < n && refs[..n][i] == k;
      assert seen[i] == k;
    }
    assert n < |refs| ==> seen[n] == refs[n];
  }

  lemma UnboxParkedCounts(p: Peer, s: Side, i: nat, slow: bool, k: Key)
    requires i < |p.parked| && p.parked[i].keys != [] && !Misses(p, s, p.parked[i].keys[0])
    requires (forall x | x in p.local :: x.owner == s) && ProxiesOwned(p.proxies, s.Other())
    ensures var q := UnboxParked(p, i, slow);
            && q == p.(parked := q.parked, proxies := q.proxies) && ProxiesOwned(q.proxies, s.Other())
            && (k.owner != s ==>
                  Sum(q.parked, ParkedWeight(k)) + Sum(q.proxies, ProxyWeight(k))
                  == Sum(p.parked, ParkedWeight(k)) + Sum(p.proxies, ProxyWeight(k)))
  {
    var keys := p.parked[i].keys;
    SumUpdate(p.parked, i, Parked(keys, true), ParkedWeight(k));
    SumUpdate(p.parked, i, Parked(keys[1..], false), ParkedWeight(k));
    UnboxKeyCounts(p.(parked := p.parked[i := Parked(keys[1..], false)]), s, keys[0], k);
  }

  /** A received deletion is covered by the owner's count. */
  lemma DelCovered(st: State, s: Side, i: nat)
    requires Inv(st) && Enabled(st, HandleDel(s, i))
    ensures var d := st.At(s).deferred[i];
            d.key.owner == s && d.count >= 1 && d.key in st.At(s).local
            && CountOf(st.At(s).local, d.key) >= Sum(st.At(s).deferred, EntryWeight(d.key)) >= d.count
  {
    var d := st.At(s).deferred[i];
    assert d in st.At(s).deferred && Conserved(st, d.key);
    SumPositive(st.At(s).deferred, d, EntryWeight(d.key));
  }

  lemma DecRefCounts(m: map<Key, Slot<Key>>, d: Key, n: nat, k: Key)
    requires CountOf(m, d) >= n
    ensures CountOf(DecRef(m, d, n), k) == CountOf(m, k) - if k == d then n else 0
  {
  }

  // ---- every step keeps the tables well owned ----

  /** The side that did not act only sees its stream grow. */
  lemma OtherStaysOwned(st: State, step: Step)
    requires WellOwned(st, step.s) && WellOwned(st, step.s.Other()) && Enabled(st, step)
    ensures WellOwned(Next(st, step), step.s.Other())
  {
    var s, p := step.s.Other(), st.At(step.s);
    var st' := Next(st, step);
    assert st'.At(s) == st.At(s);
    if step.Process? {
      assert p.batch[step.i] in p.batch;
      var e := p.batch[step.i];
      assert st'.To(s) == st.To(s) || st'.To(s) == st.To(s) + [Del(e.key, e.count)];
    } else if step.Post? {
      assert st'.To(s) == st.To(s) + [Package(p.outbox[step.i])];
    } else {
      assert st'.To(s) == st.To(s);
    }
  }

  lemma BoxOwned(p: Peer, s: Side, refs: seq<Key>)
    requires PeerOwned(p, s)
    ensures PeerOwned(p.(local := AddOwn(p.local, s, refs), outbox := p.outbox + [refs]), s)
  {
    AddOwnOwned(p.local, s, refs);
  }

  lemma UnboxArrivedOwned(p: Peer, s: Side, refs: seq<Key>, n: nat)
    requires PeerOwned(p, s) && n <= |refs| && NoneMisses(p, s, refs[..n])
    requires n < |refs| ==> NeedsNetref(UnboxKeys(p, refs[..n]), refs[n]) && !Misses(p, s, refs[n])
    ensures PeerOwned(UnboxArrived(p, refs, n), s)
  {
    UnboxArrivedCounts(p, s, refs, n, Key(s, 0));
    UnboxKeysKeep(p, refs[..n]);
  }

  lemma UnboxParkedOwned(p: Peer, s: Side, i: nat, slow: bool)
    requires PeerOwned(p, s) && i < |p.parked| && p.parked[i].keys != [] && !Misses(p, s, p.parked[i].keys[0])
    ensures PeerOwned(UnboxParked(p, i, slow), s)
  {
    UnboxParkedCounts(p, s, i, slow, Key(s, 0));
  }

  lemma BuiltOwned(p: Peer, s: Side, i: nat)
    requires PeerOwned(p, s) && i < |p.parked| && p.parked[i].fetching
    ensures p.parked[i].keys != [] && PeerOwned(BuildNetref(p, i), s)
  {
    assert p.parked[i] in p.parked;
    UncacheOwned(p.proxies, p.parked[i].keys[0], s.Other());
  }

  lemma DeferOwned(st: State, s: Side)
    requires WellOwned(st, s) && Enabled(st, Defer(s))
    ensures PeerOwned(Next(st, Defer(s)).At(s), s)
  {
    assert st.To(s)[0] in st.To(s);
  }

  lemma DieOwned(p: Peer, s: Side, i: nat)
    requires PeerOwned(p, s) && i < |p.proxies|
    ensures PeerOwned(p.(proxies := Without(p.proxies, i),
                         pending := p.pending + [Entry(p.proxies[i].key, p.proxies[i].count)]), s)
  {
    assert p.proxies[i] in p.proxies;
  }

  lemma UnboxingOwned(st: State, step: Step)
    requires WellOwned(st, step.s) && Enabled(st, step) && !Next(st, step).missed && Unboxes(step)
    ensures PeerOwned(Next(st, step).At(step.s), step.s)
  {
    var s, p := step.s, st.At(step.s);
    assert PeerOwned(p, s);
    match step
    case Arrive(_, n) =>
      ArriveMisses(st, s, n);
      UnboxArrivedOwned(p, s, st.To(s)[0].refs, n);
    case Defer(_) => DeferOwned(st, s);
    case UnboxNext(_, i, slow) => UnboxParkedOwned(p, s, i, slow);
    case Built(_, i) => BuiltOwned(p, s, i);
    case GiveUp(_, i) => GiveUpOwned(p, s, i);
  }

  lemma GiveUpOwned(p: Peer, s: Side, i: nat)
    requires PeerOwned(p, s) && i < |p.parked|
    ensures PeerOwned(p.(parked := Without(p.parked, i)), s)
  {
  }

  lemma HandleDelOwned(p: Peer, s: Side, i: nat)
    requires PeerOwned(p, s) && i < |p.deferred|
    ensures PeerOwned(p.(local := DecRef(p.local, p.deferred[i].key, p.deferred[i].count), deferred := Without(p.deferred, i)), s)
  {
  }

  lemma ProcessOwned(p: Peer, s: Side, i: nat)
    requires PeerOwned(p, s) && i < |p.batch|
    ensures PeerOwned(p.(batch := Without(p.batch, i)), s)
  {
  }

  // ---- every step keeps the references on the way back safe ----

  lemma HeadGone(w: seq<Msg>, i: nat, k: Key)
    requires i < |w| - 1
    ensures Sum(w[..i + 1], MsgDels(k)) == MsgDels(k)(w[0]) + Sum(w[1..][..i], MsgDels(k))
  {
    assert w[..i + 1][1..] == w[1..][..i];
  }

  /** A package leaves the stream, or a deletion is received. */
  lemma HeadKeepsBackSafe(st: State, st': State, s: Side)
    requires BackSafe(st, s) && st.To(s) != [] && st'.To(s) == st.To(s)[1..]
    requires forall k: Key | k.owner == s :: Covered(st', s, k) >= Covered(st, s, k) - MsgDels(k)(st.To(s)[0])
    ensures BackSafe(st', s)
  {
    forall i, k | 0 <= i < |st'.To(s)| && st'.To(s)[i].Package? && k in st'.To(s)[i].refs && k.owner == s
      ensures Covered(st', s, k) >= Sum(st'.To(s)[..i], MsgDels(k)) + 1
    {
      HeadGone(st.To(s), i, k);
      assert st.To(s)[i + 1] == st'.To(s)[i];
    }
  }

  /** A deletion, or a package whose back references are covered, joins the stream. */
  lemma SnocKeepsBackSafe(st: State, st': State, s: Side, m: Msg)
    requires BackSafe(st, s) && st'.To(s) == st.To(s) + [m] && st'.At(s) == st.At(s)
    requires m.Package? ==> forall k | k in m.refs && k.owner == s ::
                              Covered(st, s, k) >= Sum(st.To(s), MsgDels(k)) + 1
    ensures BackSafe(st', s)
  {
    forall i, k | 0 <= i < |st'.To(s)| && st'.To(s)[i].Package? && k in st'.To(s)[i].refs && k.owner == s
      ensures Covered(st', s, k) >= Sum(st'.To(s)[..i], MsgDels(k)) + 1
    {
      if i < |st.To(s)| {
        assert st'.To(s)[..i] == st.To(s)[..i] && st'.To(s)[i] == st.To(s)[i];
      } else {
        assert st'.To(s)[..i] == st.To(s);
      }
    }
  }

  /** The stream stays, and nothing loses cover. */
  lemma StreamKeepsBackSafe(st: State, st': State, s: Side)
    requires BackSafe(st, s) && st'.To(s) == st.To(s)
    requires forall k: Key | k.owner == s :: Covered(st', s, k) >= Covered(st, s, k)
    ensures BackSafe(st', s)
  {
  }

  lemma {:induction false} UnboxKeysKeep(p: Peer, refs: seq<Key>)
    ensures UnboxKeys(p, refs) == p.(proxies := UnboxKeys(p, refs).proxies)
    decreases refs
  {
    if refs != [] {
      UnboxKeysKeep(UnboxKey(p, refs[0]), refs[1..]);
    }
  }

  lemma BoxBackSafe(st: State, s: Side, refs: seq<Key>)
    requires BackSafe(st, s) && Enabled(st, Box(s, refs))
    ensures BackSafe(Next(st, Box(s, refs)), s)
  {
    var st' := Next(st, Box(s, refs));
    forall k: Key | k.owner == s ensures Covered(st', s, k) >= Covered(st, s, k) {
      AddOwnCounts(st.At(s).local, s, refs, k);
    }
    StreamKeepsBackSafe(st, st', s);
  }

  lemma HandleDelBackSafe(st: State, s: Side, i: nat)
    requires Inv(st) && Enabled(st, HandleDel(s, i))
    ensures BackSafe(Next(st, HandleDel(s, i)), s)
  {
    var d, st' := st.At(s).deferred[i], Next(st, HandleDel(s, i));
    DelCovered(st, s, i);
    forall k: Key | k.owner == s ensures Covered(st', s, k) >= Covered(st, s, k) {
      DecRefCounts(st.At(s).local, d.key, d.count, k);
      SumWithout(st.At(s).deferred, i, EntryWeight(k));
    }
    StreamKeepsBackSafe(st, st', s);
  }

  lemma DeferBackSafe(st: State, s: Side)
    requires BackSafe(st, s) && Enabled(st, Defer(s))
    ensures BackSafe(Next(st, Defer(s)), s)
  {
    var m, st' := st.To(s)[0], Next(st, Defer(s));
    forall k: Key | k.owner == s ensures Covered(st', s, k) >= Covered(st, s, k) - MsgDels(k)(m) {
      if m.Del? {
        SumSnoc(st.At(s).deferred, Entry(m.key, m.count), EntryWeight(k));
      }
    }
    HeadKeepsBackSafe(st, st', s);
  }

  lemma PackageGoneBackSafe(st: State, step: Step)
    requires BackSafe(st, step.s) && Enabled(st, step) && (step.Arrive? || step.Drop?)
    ensures BackSafe(Next(st, step), step.s)
  {
    if step.Arrive? {
      UnboxKeysKeep(st.At(step.s), st.To(step.s)[0].refs[..step.n]);
    }
    HeadKeepsBackSafe(st, Next(st, step), step.s);
  }

  lemma OtherStepsKeepRegistry(st: State, step: Step)
    requires Enabled(st, step) && !step.Box? && !step.HandleDel? && !step.Arrive? && !step.Defer? && !step.Drop?
    ensures Next(st, step).To(step.s) == st.To(step.s)
    ensures Next(st, step).At(step.s).local == st.At(step.s).local
    ensures Next(st, step).At(step.s).deferred == st.At(step.s).deferred
  {
  }

  /** The acting side. */
  lemma ActorBackSafe(st: State, step: Step)
    requires Inv(st) && Enabled(st, step)
    ensures BackSafe(Next(st, step), step.s)
  {
    match step
    case Box(s, refs) => BoxBackSafe(st, s, refs);
    case HandleDel(s, i) => HandleDelBackSafe(st, s, i);
    case Defer(s) => DeferBackSafe(st, s);
    case Arrive(_, _) => PackageGoneBackSafe(st, step);
    case Drop(_) => PackageGoneBackSafe(st, step);
    case _ =>
      OtherStepsKeepRegistry(st, step);
      StreamKeepsBackSafe(st, Next(st, step), step.s);
  }

  // ---- single facts for the results ----

  lemma {:induction false} MissedForGood(st: State, steps: seq<Step>)
    requires Run(st, steps) && st.missed
    ensures Final(st, steps).missed
    decreases |steps|
  {
    if steps != [] {
      MissedForGood(Next(st, steps[0]), steps[1..]);
    }
  }

  lemma StartInv()
    ensures Inv(START)
  {
  }

  lemma {:induction false} NothingParked(parked: seq<Parked>, k: Key)
    requires forall t | t in parked :: t.keys == []
    ensures Sum(parked, ParkedWeight(k)) == 0
  {
    if parked != [] {
      NothingParked(parked[1..], k);
    }
  }

  lemma BoxOutstanding(st: State, s: Side, k: Key)
    requires k.owner == s
    ensures Outstanding(Next(st, Box(s, [k])), k) == Outstanding(st, k) + 1
    ensures Next(st, Box(s, [k])).At(s).local == AddRef(st.At(s).local, k, k)
  {
    var m := st.At(s).local;
    assert [k][1..] == [];
    assert AddOwn(m, s, [k]) == AddOwn(AddRef(m, k, k), s, []);
    assert Sum([k], KeyWeight(k)) == 1 + Sum([], KeyWeight(k));
    SumSnoc(st.At(s).outbox, [k], RefsWeight(k));
  }

  lemma LostIff(abandoned: seq<Entry>, s: Side, refs: seq<Key>, k: Key)
    ensures Sum(abandoned + Lost(s, refs), EntryWeight(k)) > Sum(abandoned, EntryWeight(k)) <==> k.owner != s && k in refs
  {
    LostSum(s, refs, k);
    SumConcat(abandoned, Lost(s, refs), EntryWeight(k));
    OccursIff(refs, k);
  }

  lemma {:induction false} OccursIff(refs: seq<Key>, k: Key)
    ensures Sum(refs, KeyWeight(k)) > 0 <==> k in refs
  {
    if refs != [] {
      OccursIff(refs[1..], k);
    }
  }

  // ---- late unboxing ----

  lemma {:induction false} AddOwnKeys(m: map<Key, Slot<Key>>, s: Side, refs: seq<Key>, k: Key)
    ensures k in AddOwn(m, s, refs) <==> k in m || (k.owner == s && k in refs)
    decreases refs
  {
    if refs != [] {
      AddOwnKeys(if refs[0].owner == s then AddRef(m, refs[0], refs[0]) else m, s, refs[1..], k);
    }
  }

  lemma OthersKeepEntry(st: State, step: Step)
    requires Enabled(st, step) && !step.Box? && !step.HandleDel?
    ensures Next(st, step).At(step.s).local == st.At(step.s).local
  {
    if step.Arrive? {
      UnboxKeysKeep(st.At(step.s), st.To(step.s)[0].refs[..step.n]);
    }
  }

  lemma EntryComesAndGoes(st: State, step: Step, k: Key)
    requires Inv(st) && Enabled(st, step)
    ensures k !in Next(st, step).At(k.owner).local <==>
              Takes(st, step, k) || (k !in st.At(k.owner).local && !(step.Box? && step.s == k.owner && k in step.refs))
  {
    if step.s == k.owner {
      match step
      case Box(s, refs) => AddOwnKeys(st.At(s).local, s, refs, k);
      case HandleDel(s, i) => DelCovered(st, s, i);
      case _ => OthersKeepEntry(st, step);
    } else {
      assert Next(st, step).At(k.owner) == st.At(k.owner);
    }
  }
}
