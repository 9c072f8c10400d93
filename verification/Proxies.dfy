/** The netrefs of one end and its proxy cache: what unboxing, a class fetch and a collection do to them. */
module Proxies {
  import opened Core
  import opened RefMachine
  import opened RefSteps

  /** The cache points to at most one netref of a key. */
  ghost predicate CachedOnce(ps: seq<Proxy>) {
    forall i, j | 0 <= i < j < |ps| && ps[i].cached && ps[j].cached :: ps[i].key != ps[j].key
  }

  // ---- the list of netrefs ----

  lemma {:induction false} BumpAt(ps: seq<Proxy>, i: nat, k: Key)
    requires i < |ps| && ps[i].key == k && ps[i].cached
    requires forall j | 0 <= j < i :: !(ps[j].key == k && ps[j].cached)
    ensures Bump(ps, k) == ps[i := ps[i].(count := ps[i].count + 1)]
  {
    if i > 0 {
      BumpAt(ps[1..], i - 1, k);
    }
  }

  lemma {:induction false} UncacheEach(ps: seq<Proxy>, k: Key)
    ensures |Uncache(ps, k)| == |ps|
    ensures forall i | 0 <= i < |ps| :: Uncache(ps, k)[i] == if ps[i].key == k then ps[i].(cached := false) else ps[i]
  {
    if ps != [] {
      UncacheEach(ps[1..], k);
      forall i | 0 <= i < |ps| ensures Uncache(ps, k)[i] == if ps[i].key == k then ps[i].(cached := false) else ps[i] {
        if i > 0 {
          assert Uncache(ps, k)[i] == Uncache(ps[1..], k)[i - 1] && ps[i] == ps[1..][i - 1];
        }
      }
    }
  }

  lemma {:induction false} UncacheNone(ps: seq<Proxy>, k: Key)
    requires forall i | 0 <= i < |ps| && ps[i].cached :: ps[i].key != k
    requires forall i | 0 <= i < |ps| && ps[i].key == k :: !ps[i].cached
    ensures Uncache(ps, k) == ps
  {
    UncacheEach(ps, k);
  }

  lemma {:induction false} AddKeepsOnce(ps: seq<Proxy>, k: Key)
    requires CachedOnce(ps)
    ensures CachedOnce(AddProxy(ps, k))
  {
    UncacheEach(ps, k);
  }

  /** What one unboxed reference does: an own object resolves, the cached netref of the key counts one more, or one is
      added that counts one. */
  lemma {:induction false} OneUnboxed(p: Peer, k: Key)
    requires CachedOnce(p.proxies)
    ensures CachedOnce(UnboxKey(p, k).proxies)
    ensures UnboxKey(p, k) == p.(proxies := UnboxKey(p, k).proxies)
    ensures k in p.local ==> UnboxKey(p, k) == p
    ensures forall j | 0 <= j < |p.proxies| && k !in p.local && p.proxies[j].cached && p.proxies[j].key == k ::
              UnboxKey(p, k).proxies == p.proxies[j := p.proxies[j].(count := p.proxies[j].count + 1)]
    ensures k !in p.local && !HasCached(p.proxies, k) ==> UnboxKey(p, k).proxies == p.proxies + [Proxy(k, 1, true)]
  {
    var ps := p.proxies;
    if k !in p.local {
      if HasCached(ps, k) {
        var j :| 0 <= j < |ps| && ps[j].key == k && ps[j].cached;
        BumpAt(ps, j, k);
      } else {
        UncacheNone(ps, k);
        AddKeepsOnce(ps, k);
      }
    }
  }

  // ---- a whole package ----

  /** The netrefs after the references of a package were unboxed: those there stay where they are, each cached one
      counts every reference with its key, and each key that had none has one new netref, which counts them all. */
  ghost predicate Received(p: Peer, refs: seq<Key>, ps': seq<Proxy>) {
    var ps := p.proxies;
    && |ps| <= |ps'|
    && (forall j | 0 <= j < |ps| :: ps'[j] ==
         if ps[j].cached && ps[j].key !in p.local then ps[j].(count := ps[j].count + Sum(refs, KeyWeight(ps[j].key)))
         else ps[j])
    && (forall j | |ps| <= j < |ps'| ::
         && ps'[j].cached && ps'[j].key in refs && ps'[j].key !in p.local && !HasCached(ps, ps'[j].key)
         && ps'[j].count == Sum(refs, KeyWeight(ps'[j].key)))
    && (forall k | k in refs && k !in p.local :: HasCached(ps', k))
  }

  lemma {:induction false} ReceivedFirst(p: Peer, refs: seq<Key>, ps': seq<Proxy>)
    requires refs != [] && CachedOnce(p.proxies) && Received(UnboxKey(p, refs[0]), refs[1..], ps')
    ensures Received(p, refs, ps')
  {
    var k, rest, ps := refs[0], refs[1..], p.proxies;
    var q := UnboxKey(p, k);
    OneUnboxed(p, k);
    assert forall x :: Sum(refs, KeyWeight(x)) == KeyWeight(x)(k) + Sum(rest, KeyWeight(x));
    forall j | 0 <= j < |ps|
      ensures ps'[j] ==
        if ps[j].cached && ps[j].key !in p.local then ps[j].(count := ps[j].count + Sum(refs, KeyWeight(ps[j].key)))
        else ps[j]
    {
      FirstCounts(p, k, j);
    }
    forall j | |ps| <= j < |ps'|
      ensures && ps'[j].cached && ps'[j].key in refs && ps'[j].key !in p.local && !HasCached(ps, ps'[j].key)
              && ps'[j].count == Sum(refs, KeyWeight(ps'[j].key))
    {
      NewCounts(p, refs, ps', j);
    }
    if k !in p.local {
      FirstStaysCached(p, refs, ps');
    }
  }

  /** The first reference counts for the netrefs that were there. */
  lemma {:induction false} FirstCounts(p: Peer, k: Key, j: nat)
    requires CachedOnce(p.proxies) && j < |p.proxies|
    ensures var q, x := UnboxKey(p, k), p.proxies[j];
            j < |q.proxies| && q.proxies[j] ==
              if x.cached && x.key == k && k !in p.local then x.(count := x.count + 1) else x
  {
    OneUnboxed(p, k);
    if k !in p.local && HasCached(p.proxies, k) {
      var i :| 0 <= i < |p.proxies| && p.proxies[i].key == k && p.proxies[i].cached;
      assert i == j || !(p.proxies[j].cached && p.proxies[j].key == k);
    }
  }

  lemma {:induction false} NewCounts(p: Peer, refs: seq<Key>, ps': seq<Proxy>, j: nat)
    requires refs != [] && CachedOnce(p.proxies) && Received(UnboxKey(p, refs[0]), refs[1..], ps')
    requires |p.proxies| <= j < |ps'|
    ensures && ps'[j].cached && ps'[j].key in refs && ps'[j].key !in p.local && !HasCached(p.proxies, ps'[j].key)
            && ps'[j].count == Sum(refs, KeyWeight(ps'[j].key))
  {
    var k, ps := refs[0], p.proxies;
    var q := UnboxKey(p, k);
    OneUnboxed(p, k);
    FirstIsCached(p, k);
    if j < |q.proxies| {
      assert q.proxies == ps + [Proxy(k, 1, true)] && q.proxies[j] == Proxy(k, 1, true);
    } else {
      var x := ps'[j].key;
      assert x in refs[1..] && !HasCached(q.proxies, x);
      if HasCached(p.proxies, x) {
        CachedStays(p, k, x);
      }
    }
  }

  lemma {:induction false} FirstIsCached(p: Peer, k: Key)
    requires CachedOnce(p.proxies)
    ensures k !in p.local ==> HasCached(UnboxKey(p, k).proxies, k)
  {
    OneUnboxed(p, k);
    var ps := p.proxies;
    if k !in p.local {
      if HasCached(ps, k) {
        var i :| 0 <= i < |ps| && ps[i].key == k && ps[i].cached;
        assert UnboxKey(p, k).proxies[i].cached;
      } else {
        assert UnboxKey(p, k).proxies[|ps|] == Proxy(k, 1, true);
      }
    }
  }

  lemma {:induction false} CachedStays(p: Peer, k: Key, x: Key)
    requires CachedOnce(p.proxies) && HasCached(p.proxies, x)
    ensures HasCached(UnboxKey(p, k).proxies, x)
  {
    var i :| 0 <= i < |p.proxies| && p.proxies[i].key == x && p.proxies[i].cached;
    FirstCounts(p, k, i);
  }

  lemma {:induction false} FirstStaysCached(p: Peer, refs: seq<Key>, ps': seq<Proxy>)
    requires refs != [] && refs[0] !in p.local && CachedOnce(p.proxies) && Received(UnboxKey(p, refs[0]), refs[1..], ps')
    ensures HasCached(ps', refs[0])
  {
    FirstIsCached(p, refs[0]);
    var q := UnboxKey(p, refs[0]).proxies;
    var i :| 0 <= i < |q| && q[i].key == refs[0] && q[i].cached;
    assert ps'[i].cached && ps'[i].key == refs[0];
  }

  lemma {:induction false} AllUnboxed(p: Peer, refs: seq<Key>)
    requires CachedOnce(p.proxies)
    ensures CachedOnce(UnboxKeys(p, refs).proxies) && Received(p, refs, UnboxKeys(p, refs).proxies)
    decreases refs
  {
    if refs != [] {
      OneUnboxed(p, refs[0]);
      AllUnboxed(UnboxKey(p, refs[0]), refs[1..]);
      ReceivedFirst(p, refs, UnboxKeys(p, refs).proxies);
    }
  }

  // ---- the main results ----

  ghost predicate EachOnce(st: State) {
    CachedOnce(st.left.proxies) && CachedOnce(st.right.proxies)
  }

  lemma {:induction false} StepKeepsOnce(st: State, step: Step)
    requires EachOnce(st) && Enabled(st, step)
    ensures EachOnce(Next(st, step))
  {
    var ps, ps' := st.At(step.s).proxies, Next(st, step).At(step.s).proxies;
    OtherSideKeeps(st, step);
    if step.Arrive? || step.UnboxNext? || step.Built? {
      UnboxingKeepsOnce(st, step);
    } else if step.Die? {
      assert ps' == ps[..step.i] + ps[step.i + 1..];
    } else {
      assert ps' == ps;
    }
  }

  lemma {:induction false} OtherSideKeeps(st: State, step: Step)
    requires Enabled(st, step)
    ensures Next(st, step).At(step.s.Other()) == st.At(step.s.Other())
  {
  }

  lemma {:induction false} UnboxingKeepsOnce(st: State, step: Step)
    requires EachOnce(st) && Enabled(st, step) && (step.Arrive? || step.UnboxNext? || step.Built?)
    ensures CachedOnce(Next(st, step).At(step.s).proxies)
  {
    var p := st.At(step.s);
    match step
    case Arrive(s, n) => AllUnboxed(p, st.To(s)[0].refs[..n]);
    case UnboxNext(s, i, slow) =>
      var keys := p.parked[i].keys;
      OneUnboxed(p.(parked := p.parked[i := Parked(keys[1..], false)]), keys[0]);
    case Built(s, i) => AddKeepsOnce(p.proxies, p.parked[i].keys[0]);
  }

  lemma {:induction false} RunKeepsOnce(st: State, steps: seq<Step>)
    requires EachOnce(st) && Run(st, steps)
    ensures EachOnce(Final(st, steps))
    decreases |steps|
  {
    if steps != [] {
      StepKeepsOnce(st, steps[0]);
      RunKeepsOnce(Next(st, steps[0]), steps[1..]);
    }
  }

  /** In every reachable state the cache of either side points to at most one netref of a key. */
  lemma {:induction false} CachedAtMostOnce(st: State, s: Side, i: nat, j: nat)
    requires Reachable(st) && i < |st.At(s).proxies| && j < |st.At(s).proxies|
    requires st.At(s).proxies[i].cached && st.At(s).proxies[j].cached
    requires st.At(s).proxies[i].key == st.At(s).proxies[j].key
    ensures i == j
  {
    ReachableOnce(st);
  }

  lemma {:induction false} ReachableOnce(st: State)
    requires Reachable(st)
    ensures EachOnce(st) && CachedOnce(st.At(Left).proxies) && CachedOnce(st.At(Right).proxies)
  {
    var steps :| Run(START, steps) && Final(START, steps) == st;
    RunKeepsOnce(START, steps);
  }

  /** A package unboxed on arrival: the references up to the one whose class must be fetched are counted each by the
      one cached netref of its key, made if there was none, and no netref goes or leaves the cache. */
  lemma {:induction false} ArrivalCounts(st: State, s: Side, n: nat)
    requires Reachable(st) && Enabled(st, Arrive(s, n))
    ensures var p, p' := st.At(s), Next(st, Arrive(s, n)).At(s);
            CachedOnce(p'.proxies) && Received(p, st.To(s)[0].refs[..n], p'.proxies) && p'.local == p.local
  {
    ReachableOnce(st);
    AllUnboxed(st.At(s), st.To(s)[0].refs[..n]);
    UnboxKeysKeep(st.At(s), st.To(s)[0].refs[..n]);
  }

  /** The next reference of a parked package: with a cached netref of its key, exactly that one counts one more; for an
      own object no netref changes; otherwise one netref that counts one is added, or, if its class must be fetched,
      nothing changes but that the package waits for it. */
  lemma {:induction false} NextReferenceCounts(st: State, s: Side, i: nat, slow: bool)
    requires Reachable(st) && Enabled(st, UnboxNext(s, i, slow))
    ensures var p, p' := st.At(s), Next(st, UnboxNext(s, i, slow)).At(s);
            var keys, ps := p.parked[i].keys, p.proxies;
            && p' == p.(parked := p'.parked, proxies := p'.proxies)
            && (keys[0] in p.local ==> p'.proxies == ps)
            && (forall j | 0 <= j < |ps| && keys[0] !in p.local && ps[j].cached && ps[j].key == keys[0] ::
                 p'.proxies == ps[j := ps[j].(count := ps[j].count + 1)])
            && (keys[0] !in p.local && !HasCached(ps, keys[0]) ==>
                  p'.proxies == if slow then ps else ps + [Proxy(keys[0], 1, true)])
            && p'.parked == p.parked[i := if slow && keys[0] !in p.local && !HasCached(ps, keys[0]) then Parked(keys, true)
                                          else Parked(keys[1..], false)]
  {
    ReachableOnce(st);
    var p := st.At(s);
    var keys := p.parked[i].keys;
    OneUnboxed(p.(parked := p.parked[i := Parked(keys[1..], false)]), keys[0]);
  }

  /** A class that comes in makes a netref in any case, and takes the cache away from one made meanwhile, which keeps its
      count. */
  lemma {:induction false} BuiltReplaces(st: State, s: Side, i: nat)
    requires Enabled(st, Built(s, i))
    ensures var p, p' := st.At(s), Next(st, Built(s, i)).At(s);
            var keys, ps := p.parked[i].keys, p.proxies;
            && |p'.proxies| == |ps| + 1 && p'.proxies[|ps|] == Proxy(keys[0], 1, true)
            && (forall j | 0 <= j < |ps| ::
                 p'.proxies[j] == if ps[j].key == keys[0] then ps[j].(cached := false) else ps[j])
            && p' == p.(parked := p.parked[i := Parked(keys[1..], false)], proxies := p'.proxies)
  {
    UncacheEach(st.At(s).proxies, st.At(s).parked[i].keys[0]);
  }

  /** Either stream is first in, first out: a step of one side appends at most one message to the other's stream, and
      takes at most the first off its own. */
  lemma {:induction false} StreamsAreFifo(st: State, step: Step)
    requires Enabled(st, step)
    ensures var s, st' := step.s, Next(st, step);
            && (st'.To(s) == st.To(s) || (st.To(s) != [] && st'.To(s) == st.To(s)[1..]))
            && (st'.To(s.Other()) == st.To(s.Other())
                || exists m :: st'.To(s.Other()) == st.To(s.Other()) + [m] && (m.Package? <==> step.Post?))
            && (st'.To(s) != st.To(s) <==> step.Arrive? || step.Defer? || step.Drop?)
  {
    var wire := st.To(step.s.Other());
    if step.Post? {
      assert Next(st, step).To(step.s.Other()) == wire + [Package(st.At(step.s).outbox[step.i])];
    } else if step.Process? {
      var e := st.At(step.s).batch[step.i];
      assert HasCached(st.At(step.s).proxies, e.key)
             || Next(st, step).To(step.s.Other()) == wire + [Del(e.key, e.count)];
    }
  }

  /** What is boxed is sent as it is, parked as it is when it is left to another thread, and unboxed from its first
      reference on; a deletion is received and applied as it was sent. */
  lemma {:induction false} TravelsWhole(st: State, step: Step)
    requires Enabled(st, step)
    ensures var s, p, p', st' := step.s, st.At(step.s), Next(st, step).At(step.s), Next(st, step);
            && (step.Box? ==> p'.outbox == p.outbox + [step.refs])
            && (step.Post? ==> st'.To(s.Other()) == st.To(s.Other()) + [Package(p.outbox[step.i])]
                               && p'.outbox == Without(p.outbox, step.i))
            && (step.Defer? && st.To(s)[0].Package? ==> p'.parked == p.parked + [Parked(st.To(s)[0].refs, false)])
            && (step.Defer? && st.To(s)[0].Del? ==>
                  p'.deferred == p.deferred + [Entry(st.To(s)[0].key, st.To(s)[0].count)])
            && (step.Arrive? && step.n < |st.To(s)[0].refs| ==>
                  p'.parked == p.parked + [Parked(st.To(s)[0].refs[step.n..], true)])
            && (step.Arrive? && step.n == |st.To(s)[0].refs| ==> p'.parked == p.parked)
  {
    if step.Arrive? {
      UnboxKeysKeep(st.At(step.s), st.To(step.s)[0].refs[..step.n]);
    }
  }
}
