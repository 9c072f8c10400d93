/** The two ends of a connection as a step machine: what is boxed, travels, is parked, counted and given back. */
module RefMachine {
  import opened Core
  import opened Registry

  datatype Side = Left | Right {
    function Other(): Side {
      if this == Left then Right else Left
    }
  }

  /** An id pack: stable ids name one object of one side. */
  datatype Key = Key(owner: Side, id: nat)

  /** A queued deletion. */
  datatype Entry = Entry(key: Key, count: nat)

  /** A live netref; `cached` when the proxy cache points to it. */
  datatype Proxy = Proxy(key: Key, count: nat, cached: bool)

  /** What travels: a boxed package with the keys in it, or HANDLE_DEL. */
  datatype Msg = Package(refs: seq<Key>) | Del(key: Key, count: nat)

  /** What is left to unbox of a package; the class of the first key may be on its way from the peer. */
  datatype Parked = Parked(keys: seq<Key>, fetching: bool)

  datatype Peer = Peer(
    local: map<Key, Slot<Key>>, // the registry of own objects
    proxies: seq<Proxy>,        // live netrefs
    outbox: seq<seq<Key>>,      // boxed, not yet sent
    parked: seq<Parked>,        // packages taken off the stream and not unboxed to the end
    deferred: seq<Entry>,       // deletions taken off the stream and not yet applied
    pending: seq<Entry>,        // the deletion queue
    batch: seq<Entry>)          // grouped deletions being worked off

  datatype State = State(left: Peer, right: Peer, toLeft: seq<Msg>, toRight: seq<Msg>,
                         abandoned: seq<Entry>, missed: bool) {
    function At(s: Side): Peer {
      if s == Left then left else right
    }

    function To(s: Side): seq<Msg> {
      if s == Left then toLeft else toRight
    }

    function Put(s: Side, p: Peer): State {
      if s == Left then this.(left := p) else this.(right := p)
    }

    function PutTo(s: Side, w: seq<Msg>): State {
      if s == Left then this.(toLeft := w) else this.(toRight := w)
    }
  }

  const NEW_PEER := Peer(map[], [], [], [], [], [], [])

  const START := State(NEW_PEER, NEW_PEER, [], [], [], false)

  // ---- boxing and unboxing one key ----

  predicate HasProxy(p: Peer, k: Key) {
    exists i :: 0 <= i < |p.proxies| && p.proxies[i].key == k
  }

  predicate HasCached(ps: seq<Proxy>, k: Key) {
    exists i :: 0 <= i < |ps| && ps[i].key == k && ps[i].cached
  }

  /** Every own object in a package is registered once more. */
  function AddOwn(m: map<Key, Slot<Key>>, s: Side, refs: seq<Key>): map<Key, Slot<Key>>
    decreases refs
  {
    if refs == [] then m
    else AddOwn(if refs[0].owner == s then AddRef(m, refs[0], refs[0]) else m, s, refs[1..])
  }

  /** The cached proxy of the key counts one more reference. */
  function Bump(ps: seq<Proxy>, k: Key): seq<Proxy> {
    if ps == [] then []
    else if ps[0].key == k && ps[0].cached then [ps[0].(count := ps[0].count + 1)] + ps[1..]
    else [ps[0]] + Bump(ps[1..], k)
  }

  /** A new proxy takes the key's place in the cache. */
  function Uncache(ps: seq<Proxy>, k: Key): seq<Proxy> {
    if ps == [] then []
    else [if ps[0].key == k then ps[0].(cached := false) else ps[0]] + Uncache(ps[1..], k)
  }

  function AddProxy(ps: seq<Proxy>, k: Key): seq<Proxy> {
    Uncache(ps, k) + [Proxy(k, 1, true)]
  }

  /** Unboxing a reference: one of our own objects resolves, a cached proxy is counted, otherwise one is made. */
  function UnboxKey(p: Peer, k: Key): Peer {
    if k in p.local then p
    else p.(proxies := if HasCached(p.proxies, k) then Bump(p.proxies, k) else AddProxy(p.proxies, k))
  }

  function UnboxKeys(p: Peer, refs: seq<Key>): Peer
    decreases refs
  {
    if refs == [] then p else UnboxKeys(UnboxKey(p, refs[0]), refs[1..])
  }

  /** No netref to reuse: one must be made, and its class may have to be fetched. */
  predicate NeedsNetref(p: Peer, k: Key) {
    k !in p.local && !HasCached(p.proxies, k)
  }

  /** A package unboxed on arrival, up to the first reference whose class must be fetched; messages are served
      during the fetch, so from there on the package is parked. */
  function UnboxArrived(p: Peer, refs: seq<Key>, n: nat): Peer
    requires n <= |refs|
  {
    var q := UnboxKeys(p, refs[..n]);
    if n == |refs| then q else q.(parked := q.parked + [Parked(refs[n..], true)])
  }

  /** The next reference of a parked package; `slow` when a class must be fetched for it. */
  function UnboxParked(p: Peer, i: nat, slow: bool): Peer
    requires i < |p.parked| && p.parked[i].keys != []
  {
    var keys := p.parked[i].keys;
    if slow && NeedsNetref(p, keys[0]) then p.(parked := p.parked[i := Parked(keys, true)])
    else UnboxKey(p.(parked := p.parked[i := Parked(keys[1..], false)]), keys[0])
  }

  /** The class has come: the netref is made, whatever the cache holds by now. */
  function BuildNetref(p: Peer, i: nat): Peer
    requires i < |p.parked| && p.parked[i].keys != []
  {
    var keys := p.parked[i].keys;
    p.(parked := p.parked[i := Parked(keys[1..], false)], proxies := AddProxy(p.proxies, keys[0]))
  }

  /** A reference to one of our own objects that is not registered any more. */
  predicate Misses(p: Peer, s: Side, k: Key) {
    k.owner == s && k !in p.local
  }

  /** The references of the other side that a dropped package takes with it. */
  function Lost(s: Side, refs: seq<Key>): seq<Entry> {
    if refs == [] then []
    else (if refs[0].owner == s then [] else [Entry(refs[0], 1)]) + Lost(s, refs[1..])
  }

  // ---- grouping deletions ----

  /** One more queued deletion in the dictionary: a new key goes last, a known one keeps its place. */
  function Merge(g: seq<Entry>, e: Entry): seq<Entry> {
    if g == [] then [e]
    else if g[0].key == e.key then [Entry(e.key, g[0].count + e.count)] + g[1..]
    else [g[0]] + Merge(g[1..], e)
  }

  function Grouped(pending: seq<Entry>): seq<Entry> {
    if pending == [] then [] else Merge(Grouped(pending[..|pending| - 1]), pending[|pending| - 1])
  }

  // ---- the steps ----

  datatype Step =
    | Box(s: Side, refs: seq<Key>)  // box a value: own objects, and proxies that are held
    | Post(s: Side, i: nat)         // append a boxed message to the stream
    | SendFails(s: Side, i: nat)    // sending a boxed message raises
    | Arrive(s: Side, n: nat)       // a package unboxed on arrival, by the thread that received it
    | Defer(s: Side)                // a message left to a task, to another thread, or to the reader's list of frames
    | Drop(s: Side)                 // an async request dropped by the inbound gate
    | UnboxNext(s: Side, i: nat, slow: bool)
    | Built(s: Side, i: nat)        // a fetched class yields its netref
    | GiveUp(s: Side, i: nat)       // unboxing raises, or its task is cancelled
    | HandleDel(s: Side, i: nat)    // a deletion is applied
    | Die(s: Side, i: nat)          // a netref is collected
    | Collect(s: Side)              // the queue is emptied into a batch
    | Process(s: Side, i: nat)      // a batched deletion is sent, or skipped as resurrected
    | DelFails(s: Side, i: nat)     // sending a batched deletion raises, or its task is cancelled before

  predicate Enabled(st: State, step: Step) {
    var p, wire := st.At(step.s), st.To(step.s);
    match step
    case Box(s, refs) => forall k | k in refs :: k.owner == s || HasProxy(p, k)
    case Post(s, i) => i < |p.outbox| && forall k | k in p.outbox[i] :: k.owner == s || HasProxy(p, k)
    case SendFails(_, i) => i < |p.outbox|
    case Arrive(_, n) =>
      wire != [] && wire[0].Package? && n <= |wire[0].refs|
      && (n < |wire[0].refs| ==> NeedsNetref(UnboxKeys(p, wire[0].refs[..n]), wire[0].refs[n]))
    case Defer(_) => wire != []
    case Drop(_) => wire != [] && wire[0].Package?
    case UnboxNext(_, i, _) => i < |p.parked| && p.parked[i].keys != [] && !p.parked[i].fetching
    case Built(_, i) => i < |p.parked| && p.parked[i].keys != [] && p.parked[i].fetching
    case GiveUp(_, i) => i < |p.parked|
    case HandleDel(_, i) => i < |p.deferred|
    case Die(_, i) => i < |p.proxies|
    case Collect(_) => true
    case Process(_, i) => i < |p.batch|
    case DelFails(_, i) => i < |p.batch|
  }

  function Next(st: State, step: Step): State
    requires Enabled(st, step)
  {
    var p, wire, out := st.At(step.s), st.To(step.s), st.To(step.s.Other());
    match step
    case Box(s, refs) => st.Put(s, p.(local := AddOwn(p.local, s, refs), outbox := p.outbox + [refs]))
    case Post(s, i) =>
      st.Put(s, p.(outbox := Without(p.outbox, i))).PutTo(s.Other(), out + [Package(p.outbox[i])])
    case SendFails(s, i) =>
      st.Put(s, p.(outbox := Without(p.outbox, i))).(abandoned := st.abandoned + Lost(s.Other(), p.outbox[i]))
    case Arrive(s, n) =>
      var refs := wire[0].refs;
      st.Put(s, UnboxArrived(p, refs, n)).PutTo(s, wire[1..])
      .(missed := st.missed || exists k :: k in refs[..Min(n + 1, |refs|)] && Misses(p, s, k))
    case Defer(s) =>
      var m := wire[0];
      if m.Package? then st.Put(s, p.(parked := p.parked + [Parked(m.refs, false)])).PutTo(s, wire[1..])
      else st.Put(s, p.(deferred := p.deferred + [Entry(m.key, m.count)])).PutTo(s, wire[1..])
    case Drop(s) => st.PutTo(s, wire[1..]).(abandoned := st.abandoned + Lost(s, wire[0].refs))
    case UnboxNext(s, i, slow) =>
      st.Put(s, UnboxParked(p, i, slow)).(missed := st.missed || Misses(p, s, p.parked[i].keys[0]))
    case Built(s, i) => st.Put(s, BuildNetref(p, i))
    case GiveUp(s, i) =>
      st.Put(s, p.(parked := Without(p.parked, i))).(abandoned := st.abandoned + Lost(s, p.parked[i].keys))
    case HandleDel(s, i) =>
      var d := p.deferred[i];
      st.Put(s, p.(local := DecRef(p.local, d.key, d.count), deferred := Without(p.deferred, i)))
    case Die(s, i) =>
      var dead := p.proxies[i];
      st.Put(s, p.(proxies := Without(p.proxies, i), pending := p.pending + [Entry(dead.key, dead.count)]))
    case Collect(s) => st.Put(s, p.(pending := [], batch := p.batch + Grouped(p.pending)))
    case Process(s, i) =>
      var e, q := p.batch[i], p.(batch := Without(p.batch, i));
      if HasCached(p.proxies, e.key) then
        st.Put(s, q).(abandoned := st.abandoned + [e])
      else st.Put(s, q).PutTo(s.Other(), out + [Del(e.key, e.count)])
    case DelFails(s, i) =>
      st.Put(s, p.(batch := Without(p.batch, i))).(abandoned := st.abandoned + [p.batch[i]])
  }

  /** Runs of the system. */
  predicate Run(st: State, steps: seq<Step>)
    decreases |steps|
  {
    steps != [] ==> Enabled(st, steps[0]) && Run(Next(st, steps[0]), steps[1..])
  }

  function Final(st: State, steps: seq<Step>): State
    requires Run(st, steps)
    decreases |steps|
  {
    if steps == [] then st else Final(Next(st, steps[0]), steps[1..])
  }

  // ---- the ledger of one key ----

  function KeyWeight(k: Key): Key -> nat {
    (x: Key) => if x == k then 1 else 0
  }

  function RefsWeight(k: Key): seq<Key> -> nat {
    (refs: seq<Key>) => Sum(refs, KeyWeight(k))
  }

  function ParkedWeight(k: Key): Parked -> nat {
    (t: Parked) => Sum(t.keys, KeyWeight(k))
  }

  function EntryWeight(k: Key): Entry -> nat {
    (e: Entry) => if e.key == k then e.count else 0
  }

  function ProxyWeight(k: Key): Proxy -> nat {
    (p: Proxy) => if p.key == k then p.count else 0
  }

  function MsgRefs(k: Key): Msg -> nat {
    (m: Msg) => if m.Package? then Sum(m.refs, KeyWeight(k)) else 0
  }

  function MsgDels(k: Key): Msg -> nat {
    (m: Msg) => if m.Del? && m.key == k then m.count else 0
  }

  /** References boxed by the owner for which the holder has no proxy yet. */
  function InFlight(st: State, k: Key): nat {
    var owner, holder := st.At(k.owner), st.At(k.owner.Other());
    Sum(owner.outbox, RefsWeight(k)) + Sum(st.To(k.owner.Other()), MsgRefs(k))
    + Sum(holder.parked, ParkedWeight(k))
  }

  /** References counted by live proxies. */
  function Live(st: State, k: Key): nat {
    Sum(st.At(k.owner.Other()).proxies, ProxyWeight(k))
  }

  /** References on their way back: queued, batched, travelling, and received. */
  function GoingBack(st: State, k: Key): nat {
    var owner, holder := st.At(k.owner), st.At(k.owner.Other());
    Sum(holder.pending, EntryWeight(k)) + Sum(holder.batch, EntryWeight(k)) + Sum(st.To(k.owner), MsgDels(k))
    + Sum(owner.deferred, EntryWeight(k))
  }

  function Outstanding(st: State, k: Key): nat {
    InFlight(st, k) + Live(st, k) + GoingBack(st, k)
  }

  /** References that were counted and will never be given back. */
  function Abandoned(st: State, k: Key): nat {
    Sum(st.abandoned, EntryWeight(k))
  }

  /** The owner's count is exactly what is outstanding plus what was abandoned. */
  ghost predicate Conserved(st: State, k: Key) {
    CountOf(st.At(k.owner).local, k) == Outstanding(st, k) + Abandoned(st, k)
  }

  /** Tables hold what their side may hold. */
  ghost predicate WellOwned(st: State, s: Side) {
    var p := st.At(s);
    && (forall k | k in p.local :: k.owner == s && p.local[k].obj == k && p.local[k].count >= 1)
    && (forall x | x in p.proxies :: x.key.owner == s.Other() && x.count >= 1)
    && (forall t | t in p.parked && t.fetching :: t.keys != [] && t.keys[0].owner == s.Other())
    && (forall e | e in p.deferred :: e.key.owner == s && e.count >= 1)
    && (forall e | e in p.pending :: e.key.owner == s.Other() && e.count >= 1)
    && (forall e | e in p.batch :: e.key.owner == s.Other() && e.count >= 1)
    && (forall m | m in st.To(s) && m.Del? :: m.key.owner == s && m.count >= 1)
  }

  /** The count of an own object less the deletions received and not yet applied. */
  function Covered(st: State, s: Side, k: Key): int {
    CountOf(st.At(s).local, k) - Sum(st.At(s).deferred, EntryWeight(k))
  }

  /** For every reference travelling back to its owner, the deletions ahead of it leave the object alive. */
  ghost predicate BackSafe(st: State, s: Side) {
    forall i, k | 0 <= i < |st.To(s)| && st.To(s)[i].Package? && k in st.To(s)[i].refs && k.owner == s ::
      Covered(st, s, k) >= Sum(st.To(s)[..i], MsgDels(k)) + 1
  }

  ghost predicate Inv(st: State) {
    && (forall k :: Conserved(st, k))
    && WellOwned(st, Left) && WellOwned(st, Right)
    && BackSafe(st, Left) && BackSafe(st, Right)
  }

  // ---- what one side may hold ----

  ghost predicate ProxiesOwned(ps: seq<Proxy>, s: Side) {
    forall x | x in ps :: x.key.owner == s && x.count >= 1
  }

  ghost predicate Distinct(g: seq<Entry>) {
    forall i, j | 0 <= i < j < |g| :: g[i].key != g[j].key
  }

  /** None of the keys is one of our own that is not registered any more. */
  ghost predicate NoneMisses(p: Peer, s: Side, refs: seq<Key>) {
    forall k | k in refs :: !Misses(p, s, k)
  }

  /** What the acting side's tables hold afterwards. */
  ghost predicate PeerOwned(p: Peer, s: Side) {
    && (forall k | k in p.local :: k.owner == s && p.local[k].obj == k && p.local[k].count >= 1)
    && ProxiesOwned(p.proxies, s.Other())
    && (forall t | t in p.parked && t.fetching :: t.keys != [] && t.keys[0].owner == s.Other())
    && (forall e | e in p.deferred :: e.key.owner == s && e.count >= 1)
    && (forall e | e in p.pending :: e.key.owner == s.Other() && e.count >= 1)
    && (forall e | e in p.batch :: e.key.owner == s.Other() && e.count >= 1)
  }

  predicate Unboxes(step: Step) {
    step.Arrive? || step.Defer? || step.UnboxNext? || step.Built? || step.GiveUp?
  }

  // ---- reachable states, and states at rest ----

  /** The states a connection can get into as long as no late unboxing has missed its object. */
  ghost predicate Reachable(st: State) {
    !st.missed && exists steps :: Run(START, steps) && Final(START, steps) == st
  }

  /** Nothing is on the move or waiting at either end. */
  ghost predicate Quiescent(st: State) {
    && st.toLeft == [] && st.toRight == []
    && Idle(st.left) && Idle(st.right)
  }

  predicate Idle(p: Peer) {
    && p.outbox == [] && p.deferred == [] && p.proxies == [] && p.pending == [] && p.batch == []
    && forall t | t in p.parked :: t.keys == []
  }

  // ---- late unboxing ----

  /** A deletion of the object is applied that is as large as its count. */
  predicate Takes(st: State, step: Step, k: Key)
    requires Enabled(st, step)
  {
    step.HandleDel? && step.s == k.owner && st.At(step.s).deferred[step.i].key == k
    && st.At(step.s).deferred[step.i].count >= CountOf(st.At(step.s).local, k)
  }

  /** Whether a run has such a deletion of the object with no boxing of it afterwards. */
  predicate TakenAway(st: State, steps: seq<Step>, k: Key, before: bool)
    requires Run(st, steps)
    decreases |steps|
  {
    if steps == [] then before
    else
      var step := steps[0];
      var now := Takes(st, step, k) || (before && !(step.Box? && step.s == k.owner && k in step.refs));
      TakenAway(Next(st, step), steps[1..], k, now)
  }

  /** In every step of the run, a parked reference to an own object is unboxed while the peer, who sent it, still
      holds a netref of the object: the sender keeps it until the reply. */
  ghost predicate SendersHold(st: State, steps: seq<Step>)
    requires Run(st, steps)
    decreases |steps|
  {
    steps != [] ==>
      && (steps[0].UnboxNext? ==>
            var k := st.At(steps[0].s).parked[steps[0].i].keys[0];
            k.owner == steps[0].s ==> HasProxy(st.At(k.owner.Other()), k))
      && SendersHold(Next(st, steps[0]), steps[1..])
  }
}
