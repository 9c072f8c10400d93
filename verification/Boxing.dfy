/** Boxing and unboxing: what travels for a value, and what each side's tables become. */
module Boxing {
  import opened Core
  import opened Brine
  import opened Registry

  const LABEL_VALUE := 1
  const LABEL_TUPLE := 2
  const LABEL_LOCAL_REF := 3
  const LABEL_REMOTE_REF := 4
  const FLAGS_SYNC := 0
  const FLAGS_ASYNC := 1

  datatype IdPack = IdPack(name: Bytes, cls: int, inst: int)

  /** What the proxy cache knows of a live proxy. */
  datatype Proxy = Proxy(count: int, isAsync: bool)

  /** The two tables of one end of a connection. */
  datatype Peer = Peer(local: map<IdPack, Slot<Value>>, proxies: map<IdPack, Proxy>)

  /** The stable id of every object that is sent by reference. */
  type Ids = Value -> IdPack

  predicate IsNetref(v: Value) {
    v.Object? && v.ref.Netref?
  }

  /** `inspect.iscoroutinefunction`. */
  predicate IsAsync(v: Value) {
    v.Object? && v.ref.Local? && v.ref.isAsync
  }

  function KeyOf(v: Value): IdPack
    requires IsNetref(v)
  {
    IdPack(v.ref.name, v.ref.cls, v.ref.inst)
  }

  function NetrefTo(k: IdPack): Value {
    Object(Netref(k.name, k.cls, k.inst))
  }

  function Labelled(tag: int, v: Value): Value {
    Tuple([Int(tag), v])
  }

  function IdTuple(k: IdPack): Value {
    Tuple([Str(k.name), Int(k.cls), Int(k.inst)])
  }

  /** The extended form of an id pack, with flags. */
  function FlaggedTuple(k: IdPack, isAsync: bool): Value {
    Tuple([Str(k.name), Int(k.cls), Int(k.inst), Int(if isAsync then FLAGS_ASYNC else FLAGS_SYNC)])
  }

  function RemoteRef(k: IdPack, isAsync: bool): Value {
    Labelled(LABEL_REMOTE_REF, FlaggedTuple(k, isAsync))
  }

  // ---- boxing ----

  /** `_box`: the package for a value, and the tables afterwards. */
  function Box(p: Peer, ids: Ids, v: Value): (Value, Peer)
    decreases v, 1
  {
    if Dumpable(v) then (Labelled(LABEL_VALUE, v), p)
    else if v.Tuple? then
      var (packages, p') := BoxAll(p, ids, v.items);
      (Labelled(LABEL_TUPLE, Tuple(packages)), p')
    else if IsNetref(v) then (BoxNetref(p, KeyOf(v)), p)
    else
      var k := ids(v);
      (if IsAsync(v) then RemoteRef(k, true) else Labelled(LABEL_REMOTE_REF, IdTuple(k)),
       p.(local := AddRef(p.local, k, v)))
  }

  /** A proxy of this connection goes back as a reference the peer resolves among its own objects. */
  function BoxNetref(p: Peer, k: IdPack): Value {
    if k in p.proxies then RemoteRef(k, p.proxies[k].isAsync)
    else if k in p.local then Labelled(LABEL_LOCAL_REF, IdTuple(k))
    else RemoteRef(k, false)
  }

  function BoxAll(p: Peer, ids: Ids, items: seq<Value>): (seq<Value>, Peer)
    decreases items, 0
  {
    if items == [] then ([], p)
    else
      var (first, p1) := Box(p, ids, items[0]);
      var (others, p2) := BoxAll(p1, ids, items[1..]);
      ([first] + others, p2)
  }

  // ---- unboxing ----

  /** A label as Python compares it with the constants: `True == 1`. */
  function LabelOf(v: Value): int {
    match v
    case Int(i) => i
    case Bool(b) => if b then 1 else 0
    case _ => -1
  }

  /** The id pack and flags in a reference, for the three- and four-element forms. */
  function ParseRef(v: Value): Result<(IdPack, bool)> {
    if !v.Tuple? || !(3 <= |v.items| <= 4) then Err(ValueError)
    else if !(v.items[0].Str? && v.items[1].Int? && v.items[2].Int?) then Err(TypeError)
    else
      var k := IdPack(v.items[0].utf8, v.items[1].i, v.items[2].i);
      if |v.items| == 3 then Ok((k, false))
      else if !v.items[3].Int? then Err(TypeError)
      else Ok((k, v.items[3].i % 2 == FLAGS_ASYNC))
  }

  /** A reference to one of our own objects yields the object; any other yields the proxy, created or counted. */
  function UnboxRemote(p: Peer, k: IdPack, isAsync: bool): (Value, Peer) {
    if k in p.local then (p.local[k].obj, p)
    else
      var count := if k in p.proxies then p.proxies[k].count + 1 else 1;
      (NetrefTo(k), p.(proxies := p.proxies[k := Proxy(count, isAsync)]))
  }

  /** `_unbox`: the value of a package, and the tables afterwards. */
  function Unbox(p: Peer, package: Value): (Result<Value>, Peer)
    decreases package, 1
  {
    if !package.Tuple? || |package.items| != 2 then (Err(ValueError), p)
    else
      var tag, v := LabelOf(package.items[0]), package.items[1];
      if tag == LABEL_VALUE then (Ok(v), p)
      else if tag == LABEL_TUPLE then
        if !v.Tuple? then (Err(TypeError), p)
        else
          var (r, p') := UnboxAll(p, v.items);
          (if r.Ok? then Ok(Tuple(r.value)) else Err(r.error), p')
      else if tag == LABEL_LOCAL_REF then
        var r := ParseRef(v);
        (if r.Err? || |v.items| != 3 || r.value.0 !in p.local then Err(ValueError) else Ok(p.local[r.value.0].obj), p)
      else if tag == LABEL_REMOTE_REF then
        var r := ParseRef(v);
        if r.Err? then (Err(r.error), p)
        else
          var (w, p') := UnboxRemote(p, r.value.0, r.value.1);
          (Ok(w), p')
      else (Err(ValueError), p)
  }

  function UnboxAll(p: Peer, packages: seq<Value>): (Result<seq<Value>>, Peer)
    decreases packages, 0
  {
    if packages == [] then (Ok([]), p)
    else
      var (first, p1) := Unbox(p, packages[0]);
      if first.Err? then (Err(first.error), p1)
      else
        var (others, p2) := UnboxAll(p1, packages[1..]);
        (if others.Ok? then Ok([first.value] + others.value) else others, p2)
  }

  // ---- every package is dumpable ----

  /** Whatever is boxed, the package is something the serializer accepts. */
  lemma {:induction false} BoxedIsDumpable(p: Peer, ids: Ids, v: Value)
    ensures Dumpable(Box(p, ids, v).0)
    decreases v, 1
  {
    if !Dumpable(v) && v.Tuple? {
      BoxedAllDumpable(p, ids, v.items);
    }
  }

  lemma {:induction false} BoxedAllDumpable(p: Peer, ids: Ids, items: seq<Value>)
    ensures forall x | x in BoxAll(p, ids, items).0 :: Dumpable(x)
    decreases items, 0
  {
    if items != [] {
      BoxedIsDumpable(p, ids, items[0]);
      BoxedAllDumpable(Box(p, ids, items[0]).1, ids, items[1..]);
    }
  }

  /** The body of a request or a reply: a sequence number, and the boxed arguments with their handler or alone. */
  function RequestBody(seqno: int, handler: int, package: Value): Value {
    Tuple([Int(seqno), Tuple([Int(handler), package])])
  }

  function ReplyBody(seqno: int, package: Value): Value {
    Tuple([Int(seqno), package])
  }

  /** Serializing a boxed message never raises a type error, and the peer loads the very same body from it. */
  lemma BoxedMessageTravels(p: Peer, ids: Ids, v: Value, seqno: int, handler: int, after: Bytes)
    ensures var body := RequestBody(seqno, handler, Box(p, ids, v).0);
            Fits(body) ==> Dump(body).Ok? && Load(Dump(body).value + after) == Ok((body, after))
    ensures var body := ReplyBody(seqno, Box(p, ids, v).0);
            Fits(body) ==> Dump(body).Ok? && Load(Dump(body).value + after) == Ok((body, after))
  {
    BoxedIsDumpable(p, ids, v);
    var package := Box(p, ids, v).0;
    assert Dumpable(Tuple([Int(handler), package]));
    var request, reply := RequestBody(seqno, handler, Box(p, ids, v).0), ReplyBody(seqno, Box(p, ids, v).0);
    DumpableIffDumps(request);
    DumpableIffDumps(reply);
    if Fits(request) { LoadDump(request, after); }
    if Fits(reply) { LoadDump(reply, after); }
  }

  // ---- the round trip ----

  /** A value with no proxies in it: plain values, objects that live here, and tuples of such. */
  predicate Native(v: Value) {
    Dumpable(v) || if v.Tuple? then forall x | x in v.items :: Native(x) else !IsNetref(v)
  }

  /** The occurrences of by-reference objects in a value, left to right. */
  function Refs(v: Value): seq<Value>
    decreases v, 1
  {
    if Dumpable(v) then [] else if v.Tuple? then RefsAll(v.items) else [v]
  }

  function RefsAll(items: seq<Value>): seq<Value>
    decreases items, 0
  {
    if items == [] then [] else Refs(items[0]) + RefsAll(items[1..])
  }

  /** How many of the occurrences have the given id. */
  function Occurrences(ids: Ids, refs: seq<Value>, k: IdPack): nat {
    if refs == [] then 0 else (if ids(refs[0]) == k then 1 else 0) + Occurrences(ids, refs[1..], k)
  }

  /** The value as the peer holds it: proxies in place of the objects. */
  function Mirror(ids: Ids, v: Value): Value
    decreases v, 1
  {
    if Dumpable(v) then v else if v.Tuple? then Tuple(MirrorAll(ids, v.items)) else NetrefTo(ids(v))
  }

  function MirrorAll(ids: Ids, items: seq<Value>): seq<Value>
    decreases items, 0
  {
    if items == [] then [] else [Mirror(ids, items[0])] + MirrorAll(ids, items[1..])
  }

  /** Ids name the objects that are alive here apart. */
  ghost predicate Injective(ids: Ids, alive: set<Value>) {
    forall x, y | x in alive && y in alive && ids(x) == ids(y) :: x == y
  }

  /** Every registered object is alive, and sits under its own id. */
  ghost predicate Registered(p: Peer, ids: Ids, alive: set<Value>) {
    forall k | k in p.local :: p.local[k].obj in alive && ids(p.local[k].obj) == k
  }

  ghost predicate Alive(refs: seq<Value>, alive: set<Value>) {
    forall x | x in refs :: x in alive
  }

  /** Each object is registered under its id here, with as many more references as it occurs. */
  ghost predicate Counted(ids: Ids, refs: seq<Value>, before: Peer, after: Peer) {
    && after.proxies == before.proxies
    && (forall x | x in refs :: ids(x) in after.local && after.local[ids(x)].obj == x)
    && (forall k | k in before.local :: k in after.local && after.local[k].obj == before.local[k].obj)
    && (forall k :: CountOf(after.local, k) == CountOf(before.local, k) + Occurrences(ids, refs, k))
  }

  function ProxyCount(p: Peer, k: IdPack): int {
    if k in p.proxies then p.proxies[k].count else 0
  }

  /** Each object has a live proxy with its own async flag, counted once per occurrence. */
  ghost predicate Proxied(ids: Ids, refs: seq<Value>, before: Peer, after: Peer) {
    && after.local == before.local
    && Held(ids, refs, after)
    && before.proxies.Keys <= after.proxies.Keys
    && (forall k :: ProxyCount(after, k) == ProxyCount(before, k) + Occurrences(ids, refs, k))
    && (forall k | k in before.proxies && Occurrences(ids, refs, k) == 0 :: after.proxies[k] == before.proxies[k])
  }

  ghost predicate Held(ids: Ids, refs: seq<Value>, p: Peer) {
    forall x | x in refs :: ids(x) in p.proxies && p.proxies[ids(x)].isAsync == IsAsync(x)
  }

  /** The owner's table holds each of the objects under its id. */
  ghost predicate Kept(ids: Ids, refs: seq<Value>, p: Peer) {
    forall x | x in refs :: ids(x) in p.local && p.local[ids(x)].obj == x
  }

  lemma {:induction false} OccurrencesConcat(ids: Ids, a: seq<Value>, b: seq<Value>, k: IdPack)
    ensures Occurrences(ids, a + b, k) == Occurrences(ids, a, k) + Occurrences(ids, b, k)
  {
    if a == [] {
      assert a + b == b;
    } else {
      assert (a + b)[1..] == a[1..] + b;
      OccurrencesConcat(ids, a[1..], b, k);
    }
  }

  lemma {:induction false} NotOccurring(ids: Ids, refs: seq<Value>, k: IdPack)
    requires forall x | x in refs :: ids(x) != k
    ensures Occurrences(ids, refs, k) == 0
  {
    if refs != [] {
      NotOccurring(ids, refs[1..], k);
    }
  }

  /** Boxing registers every occurrence once. */
  lemma {:induction false} BoxCounts(p: Peer, ids: Ids, v: Value, alive: set<Value>)
    requires Native(v) && Injective(ids, alive) && Registered(p, ids, alive) && Alive(Refs(v), alive)
    ensures var p' := Box(p, ids, v).1;
            Counted(ids, Refs(v), p, p') && Registered(p', ids, alive)
    decreases v, 1
  {
    if !Dumpable(v) {
      if v.Tuple? {
        BoxAllCounts(p, ids, v.items, alive);
      } else {
        assert v in Refs(v) && Occurrences(ids, [v], ids(v)) == 1;
        forall k ensures Occurrences(ids, [v], k) == if k == ids(v) then 1 else 0 {
          assert [v][1..] == [];
        }
      }
    }
  }

  lemma {:induction false} BoxAllCounts(p: Peer, ids: Ids, items: seq<Value>, alive: set<Value>)
    requires (forall x | x in items :: Native(x)) && Injective(ids, alive) && Registered(p, ids, alive)
    requires Alive(RefsAll(items), alive)
    ensures var p' := BoxAll(p, ids, items).1;
            Counted(ids, RefsAll(items), p, p') && Registered(p', ids, alive)
    decreases items, 0
  {
    if items != [] {
      var p1 := Box(p, ids, items[0]).1;
      BoxCounts(p, ids, items[0], alive);
      BoxAllCounts(p1, ids, items[1..], alive);
      forall k ensures Occurrences(ids, RefsAll(items), k)
                       == Occurrences(ids, Refs(items[0]), k) + Occurrences(ids, RefsAll(items[1..]), k) {
        OccurrencesConcat(ids, Refs(items[0]), RefsAll(items[1..]), k);
      }
    }
  }

  /** Both forms of a reference are read alike. */
  lemma UnboxRef(p: Peer, k: IdPack, isAsync: bool)
    ensures Unbox(p, RemoteRef(k, isAsync)) == (Ok(UnboxRemote(p, k, isAsync).0), UnboxRemote(p, k, isAsync).1)
    ensures Unbox(p, Labelled(LABEL_REMOTE_REF, IdTuple(k))) == (Ok(UnboxRemote(p, k, false).0), UnboxRemote(p, k, false).1)
  {
    assert ParseRef(FlaggedTuple(k, isAsync)) == Ok((k, isAsync));
    assert ParseRef(IdTuple(k)) == Ok((k, false));
  }

  /** A reference resolves to the own object of its id pack; without one it is the netref of the id pack, which counts
      one more, or is new and counts one, and has the flag of the reference. A reference to an own object that is not
      there is an error. */
  lemma ReferenceResolves(p: Peer, k: IdPack, isAsync: bool)
    ensures var (r, q) := Unbox(p, RemoteRef(k, isAsync));
            if k in p.local then r == Ok(p.local[k].obj) && q == p
            else && r == Ok(NetrefTo(k)) && q.local == p.local && q.proxies.Keys == p.proxies.Keys + {k}
                 && q.proxies[k] == Proxy(if k in p.proxies then p.proxies[k].count + 1 else 1, isAsync)
                 && forall x | x in p.proxies && x != k :: q.proxies[x] == p.proxies[x]
    ensures var (r, q) := Unbox(p, Labelled(LABEL_LOCAL_REF, IdTuple(k)));
            q == p && r == if k in p.local then Ok(p.local[k].obj) else Err(ValueError)
  {
    UnboxRef(p, k, isAsync);
    assert ParseRef(IdTuple(k)) == Ok((k, false));
  }

  /** A netref goes out as a reference with its flag while it is among the proxies, as one to an own object if its id pack
      is registered here, and otherwise as a plain reference; boxing it changes no table. */
  lemma NetrefBoxed(p: Peer, ids: Ids, v: Value)
    requires IsNetref(v)
    ensures var (package, q) := Box(p, ids, v); var k := KeyOf(v);
            q == p && if k in p.proxies then package == RemoteRef(k, p.proxies[k].isAsync)
                      else if k in p.local then package == Labelled(LABEL_LOCAL_REF, IdTuple(k))
                      else package == RemoteRef(k, false)
  {
  }

  /** Unboxing at the peer yields the mirror image, and counts every occurrence on the proxy's side. */
  lemma {:induction false} UnboxMirrors(p: Peer, q: Peer, ids: Ids, v: Value, alive: set<Value>)
    requires Native(v) && Injective(ids, alive) && Alive(Refs(v), alive)
    requires forall x | x in Refs(v) :: ids(x) !in q.local
    ensures var (r, q') := Unbox(q, Box(p, ids, v).0);
            r == Ok(Mirror(ids, v)) && Proxied(ids, Refs(v), q, q')
    decreases v, 1
  {
    if !Dumpable(v) {
      if v.Tuple? {
        UnboxAllMirrors(p, q, ids, v.items, alive);
      } else {
        assert v in Refs(v);
        UnboxRef(q, ids(v), IsAsync(v));
        forall k ensures Occurrences(ids, [v], k) == if k == ids(v) then 1 else 0 {
          assert [v][1..] == [];
        }
      }
    }
  }

  lemma {:induction false} UnboxAllMirrors(p: Peer, q: Peer, ids: Ids, items: seq<Value>, alive: set<Value>)
    requires (forall x | x in items :: Native(x)) && Injective(ids, alive) && Alive(RefsAll(items), alive)
    requires forall x | x in RefsAll(items) :: ids(x) !in q.local
    ensures var (r, q') := UnboxAll(q, BoxAll(p, ids, items).0);
            r == Ok(MirrorAll(ids, items)) && Proxied(ids, RefsAll(items), q, q')
    decreases items, 0
  {
    if items != [] {
      var (first, p1) := Box(p, ids, items[0]);
      var others := BoxAll(p1, ids, items[1..]).0;
      UnboxMirrors(p, q, ids, items[0], alive);
      var q1 := Unbox(q, first).1;
      UnboxAllMirrors(p1, q1, ids, items[1..], alive);
      ProxiedTwice(ids, Refs(items[0]), RefsAll(items[1..]), q, q1, UnboxAll(q1, others).1, alive);
    }
  }

  lemma ProxiedTwice(ids: Ids, a: seq<Value>, b: seq<Value>, q: Peer, q1: Peer, q2: Peer, alive: set<Value>)
    requires Injective(ids, alive) && Alive(a + b, alive)
    requires Proxied(ids, a, q, q1) && Proxied(ids, b, q1, q2)
    ensures Proxied(ids, a + b, q, q2)
  {
    forall k ensures Occurrences(ids, a + b, k) == Occurrences(ids, a, k) + Occurrences(ids, b, k) {
      OccurrencesConcat(ids, a, b, k);
    }
    forall x | x in a + b
      ensures ids(x) in q2.proxies && q2.proxies[ids(x)].isAsync == IsAsync(x)
    {
      if x !in b && exists y :: y in b && ids(y) == ids(x) {
        assert false;
      } else if x !in b {
        NotOccurring(ids, b, ids(x));
      }
    }
  }

  /** A value is sent back as plain exactly when it was sent plain. */
  lemma {:induction false} MirrorDumpable(ids: Ids, v: Value)
    requires Native(v)
    ensures Dumpable(Mirror(ids, v)) <==> Dumpable(v)
    decreases v, 1
  {
    if !Dumpable(v) && v.Tuple? {
      MirrorAllDumpable(ids, v.items);
    }
  }

  lemma {:induction false} MirrorAllDumpable(ids: Ids, items: seq<Value>)
    requires forall x | x in items :: Native(x)
    ensures (forall x | x in MirrorAll(ids, items) :: Dumpable(x)) <==> (forall x | x in items :: Dumpable(x))
    decreases items, 0
  {
    if items != [] {
      MirrorDumpable(ids, items[0]);
      MirrorAllDumpable(ids, items[1..]);
      assert forall x :: x in items <==> x == items[0] || x in items[1..];
      var first, others := Mirror(ids, items[0]), MirrorAll(ids, items[1..]);
      assert forall x :: x in [first] + others <==> x == first || x in others;
    }
  }

  /** Sending the mirror image back, while its proxies live, changes nothing on either side and yields the
      original value at its owner. */
  lemma {:induction false} MirrorReturns(q: Peer, p: Peer, ids: Ids, ids': Ids, v: Value)
    requires Native(v) && Held(ids, Refs(v), q) && Kept(ids, Refs(v), p)
    ensures var (package, q') := Box(q, ids', Mirror(ids, v));
            q' == q && Unbox(p, package) == (Ok(v), p)
    decreases v, 1
  {
    MirrorDumpable(ids, v);
    if !Dumpable(v) {
      if v.Tuple? {
        MirrorAllReturns(q, p, ids, ids', v.items);
      } else {
        assert v in Refs(v);
        UnboxRef(p, ids(v), IsAsync(v));
      }
    }
  }

  lemma {:induction false} MirrorAllReturns(q: Peer, p: Peer, ids: Ids, ids': Ids, items: seq<Value>)
    requires forall x | x in items :: Native(x)
    requires Held(ids, RefsAll(items), q) && Kept(ids, RefsAll(items), p)
    ensures var (packages, q') := BoxAll(q, ids', MirrorAll(ids, items));
            q' == q && UnboxAll(p, packages) == (Ok(items), p)
    decreases items, 0
  {
    if items != [] {
      MirrorReturns(q, p, ids, ids', items[0]);
      MirrorAllReturns(q, p, ids, ids', items[1..]);
      var mirrors := MirrorAll(ids, items);
      assert mirrors[0] == Mirror(ids, items[0]) && mirrors[1..] == MirrorAll(ids, items[1..]);
      var first, others := Box(q, ids', mirrors[0]).0, BoxAll(q, ids', mirrors[1..]).0;
      var packages := BoxAll(q, ids', mirrors).0;
      assert [items[0]] + items[1..] == items;
    }
  }

  /** The whole trip. A value boxed at its owner, unboxed at the peer, boxed there again while the proxies live
      and unboxed back at the owner is the identical value, down to the objects. Each object is counted at both
      ends once per occurrence, its proxy has its async flag, and the way back changes no table. */
  lemma RoundTrip(p: Peer, q: Peer, ids: Ids, ids': Ids, v: Value, q': Peer, p': Peer, alive: set<Value>)
    requires Native(v) && Injective(ids, alive) && Registered(p, ids, alive) && Alive(Refs(v), alive)
    requires forall x | x in Refs(v) :: ids(x) !in q.local
    requires Held(ids, Refs(v), q') && Kept(ids, Refs(v), p')
    ensures var (there, p1) := Box(p, ids, v);
            var (got, q1) := Unbox(q, there);
            && Counted(ids, Refs(v), p, p1) && Kept(ids, Refs(v), p1)
            && Proxied(ids, Refs(v), q, q1)
            && got.Ok?
            && var (back, q2) := Box(q', ids', got.value);
               q2 == q' && Unbox(p', back) == (Ok(v), p')
  {
    BoxCounts(p, ids, v, alive);
    UnboxMirrors(p, q, ids, v, alive);
    MirrorReturns(q', p', ids, ids', v);
  }

  // ---- the tables as the connection updates them ----

  /** One end of a connection: the registry of its own objects, and its proxies. */
  class Connection {
    const localObjects: RefCountingColl<IdPack, Value>
    const ids: Ids
    var proxies: map<IdPack, Proxy>

    constructor (ids: Ids)
      ensures fresh(localObjects) && State() == Peer(map[], map[]) && this.ids == ids
    {
      this.ids := ids;
      localObjects := new RefCountingColl();
      proxies := map[];
    }

    ghost function State(): Peer
      reads this, localObjects
    {
      Peer(localObjects.slots, proxies)
    }

    method BoxValue(v: Value) returns (package: Value)
      modifies this, localObjects
      ensures (package, State()) == Box(old(State()), ids, v)
      decreases v, 1
    {
      if Dumpable(v) {
        package := Labelled(LABEL_VALUE, v);
      } else if v.Tuple? {
        var packages := BoxItems(v.items);
        package := Labelled(LABEL_TUPLE, Tuple(packages));
      } else if IsNetref(v) {
        var k := KeyOf(v);
        if k in proxies {
          package := RemoteRef(k, proxies[k].isAsync);
        } else {
          var found := localObjects.GetItem(k);
          package := if found.Ok? then Labelled(LABEL_LOCAL_REF, IdTuple(k)) else RemoteRef(k, false);
        }
      } else {
        var k := ids(v);
        localObjects.Add(k, v);
        package := if IsAsync(v) then RemoteRef(k, true) else Labelled(LABEL_REMOTE_REF, IdTuple(k));
      }
    }

    method BoxItems(items: seq<Value>) returns (packages: seq<Value>)
      modifies this, localObjects
      ensures (packages, State()) == BoxAll(old(State()), ids, items)
      decreases items, 0
    {
      packages := [];
      ghost var whole := BoxAll(State(), ids, items);
      assert items[0..] == items && [] + whole.0 == whole.0;
      for i := 0 to |items|
        invariant whole == (packages + BoxAll(State(), ids, items[i..]).0, BoxAll(State(), ids, items[i..]).1)
      {
        ghost var before := State();
        var package := BoxValue(items[i]);
        assert items[i..][0] == items[i] && items[i..][1..] == items[i + 1..];
        ghost var others := BoxAll(State(), ids, items[i + 1..]).0;
        assert BoxAll(before, ids, items[i..]).0 == [package] + others;
        assert packages + ([package] + others) == (packages + [package]) + others;
        packages := packages + [package];
      }
      assert packages + [] == packages;
    }

    method UnboxPackage(package: Value) returns (r: Result<Value>)
      modifies this
      ensures (r, State()) == Unbox(old(State()), package)
      decreases package, 1
    {
      if !package.Tuple? || |package.items| != 2 {
        return Err(ValueError);
      }
      var tag, v := LabelOf(package.items[0]), package.items[1];
      if tag == LABEL_VALUE {
        r := Ok(v);
      } else if tag == LABEL_TUPLE {
        if !v.Tuple? {
          return Err(TypeError);
        }
        var items := UnboxItems(v.items);
        r := if items.Ok? then Ok(Tuple(items.value)) else Err(items.error);
      } else if tag == LABEL_LOCAL_REF {
        var ref := ParseRef(v);
        if ref.Err? || |v.items| != 3 {
          return Err(ValueError);
        }
        r := localObjects.GetItem(ref.value.0);
        if r.Err? {
          return Err(ValueError);
        }
      } else if tag == LABEL_REMOTE_REF {
        var ref := ParseRef(v);
        if ref.Err? {
          return Err(ref.error);
        }
        var (k, isAsync) := ref.value;
        var own := localObjects.GetItem(k);
        if own.Ok? {
          return own;
        }
        var count := if k in proxies then proxies[k].count + 1 else 1;
        proxies := proxies[k := Proxy(count, isAsync)];
        r := Ok(NetrefTo(k));
      } else {
        r := Err(ValueError);
      }
    }

    method UnboxItems(packages: seq<Value>) returns (r: Result<seq<Value>>)
      modifies this
      ensures (r, State()) == UnboxAll(old(State()), packages)
      decreases packages, 0
    {
      var items: seq<Value> := [];
      ghost var whole := UnboxAll(State(), packages);
      assert packages[0..] == packages;
      OntoNothing(whole);
      for i := 0 to |packages|
        invariant whole == Onto(items, UnboxAll(State(), packages[i..]))
      {
        ghost var before := State();
        var item := UnboxPackage(packages[i]);
        assert packages[i..][0] == packages[i] && packages[i..][1..] == packages[i + 1..];
        if item.Err? {
          return Err(item.error);
        }
        assert UnboxAll(before, packages[i..]) == Onto([item.value], UnboxAll(State(), packages[i + 1..]));
        OntoOnto(items, item.value, UnboxAll(State(), packages[i + 1..]));
        items := items + [item.value];
      }
      assert items + [] == items;
      r := Ok(items);
    }
  }

  /** An outcome with the items already unboxed put in front of it. */
  ghost function Onto(items: seq<Value>, more: (Result<seq<Value>>, Peer)): (Result<seq<Value>>, Peer) {
    if more.0.Ok? then (Ok(items + more.0.value), more.1) else more
  }

  lemma OntoNothing(more: (Result<seq<Value>>, Peer))
    ensures Onto([], more) == more
  {
    if more.0.Ok? { assert [] + more.0.value == more.0.value; }
  }

  lemma OntoOnto(items: seq<Value>, v: Value, more: (Result<seq<Value>>, Peer))
    ensures Onto(items, Onto([v], more)) == Onto(items + [v], more)
  {
    if more.0.Ok? { assert items + ([v] + more.0.value) == items + [v] + more.0.value; }
  }
}
