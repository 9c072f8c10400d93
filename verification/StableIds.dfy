/** The connection's allocator of stable object ids. */
module StableIds {
  import opened Core

  /** An object: its identity over all time, its address while it lives, and what Python can do with it. Equality of
      objects is identity. */
  datatype Obj = Obj(n: nat, addr: nat, isClass: bool, weakrefable: bool, hashable: bool)

  /** An entry of the table by address keeps its object alive. */
  datatype Entry = Entry(obj: Obj, id: nat)

  /** `next` is the next number of the counter, `weak` the table that forgets dead objects by itself. */
  datatype Tables = Tables(next: nat, weak: map<Obj, nat>, byAddr: map<nat, Entry>)

  function First(pid: nat): nat {
    pid * TWO_32 + 1
  }

  /** The id of an object and the tables after asking for it. An object that can be referred to weakly but not
      hashed uses up a number each time before its entry by address is looked at. */
  function Alloc(t: Tables, obj: Obj): (nat, Tables) {
    if obj.isClass then (0, t)
    else if obj.weakrefable && obj.hashable then
      if obj in t.weak then (t.weak[obj], t)
      else (t.next, t.(next := t.next + 1, weak := t.weak[obj := t.next]))
    else
      var next := if obj.weakrefable then t.next + 1 else t.next;
      if obj.addr in t.byAddr && t.byAddr[obj.addr].obj == obj then (t.byAddr[obj.addr].id, t.(next := next))
      else (next, t.(next := next + 1, byAddr := t.byAddr[obj.addr := Entry(obj, next)]))
  }

  /** Without the entries by address that have this id. */
  function Forget(t: Tables, id: nat): Tables {
    t.(byAddr := map a | a in t.byAddr && (id == 0 || t.byAddr[a].id != id) :: t.byAddr[a])
  }

  function Lookup(t: Tables, obj: Obj): Option<nat> {
    if obj.isClass then None
    else if obj.weakrefable && obj.hashable then if obj in t.weak then Some(t.weak[obj]) else None
    else if obj.addr in t.byAddr && t.byAddr[obj.addr].obj == obj then Some(t.byAddr[obj.addr].id)
    else None
  }

  // ---- runs ----

  datatype Issue = Issue(obj: Obj, id: nat)

  /** `alive` are the objects in memory, `born` how many there ever were, `issued` every id given out. */
  datatype State = State(t: Tables, alive: set<Obj>, born: nat, issued: seq<Issue>)

  datatype Step = Create(obj: Obj) | Ask(obj: Obj) | Release(id: nat) | Die(obj: Obj)

  function Start(pid: nat): State {
    State(Tables(First(pid), map[], map[]), {}, 0, [])
  }

  /** A new object may get the address of a dead one; an object in the table by address cannot die. */
  ghost predicate Enabled(st: State, step: Step) {
    match step
    case Create(obj) => obj.n == st.born && forall o | o in st.alive :: o.addr != obj.addr
    case Ask(obj) => obj in st.alive
    case Release(_) => true
    case Die(obj) => obj in st.alive && forall a | a in st.t.byAddr :: st.t.byAddr[a].obj != obj
  }

  function Next(st: State, step: Step): State {
    match step
    case Create(obj) => st.(alive := st.alive + {obj}, born := st.born + 1)
    case Ask(obj) => var (id, t) := Alloc(st.t, obj); st.(t := t, issued := st.issued + [Issue(obj, id)])
    case Release(id) => st.(t := Forget(st.t, id))
    case Die(obj) => st.(t := st.t.(weak := st.t.weak - {obj}), alive := st.alive - {obj})
  }

  ghost predicate Run(st: State, steps: seq<Step>, end: State)
    decreases |steps|
  {
    if steps == [] then st == end
    else Enabled(st, steps[0]) && Run(Next(st, steps[0]), steps[1..], end)
  }

  ghost predicate Reachable(pid: nat, st: State) {
    exists steps :: Run(Start(pid), steps, st)
  }

  // ---- the invariant ----

  /** The table by address holds living objects under their addresses, which living objects do not share. */
  ghost predicate AddrInv(st: State) {
    && (forall o | o in st.alive :: o.n < st.born)
    && (forall o, p | o in st.alive && p in st.alive && o.addr == p.addr :: o == p)
    && (forall a | a in st.t.byAddr :: st.t.byAddr[a].obj in st.alive && st.t.byAddr[a].obj.addr == a)
    && (forall o | o in st.t.weak :: o in st.alive)
  }

  /** What the tables hold was issued. */
  ghost predicate TabledInv(st: State) {
    && (forall o | o in st.t.weak :: Issue(o, st.t.weak[o]) in st.issued && !o.isClass)
    && (forall a | a in st.t.byAddr :: Issue(st.t.byAddr[a].obj, st.t.byAddr[a].id) in st.issued && !st.t.byAddr[a].obj.isClass)
  }

  ghost predicate RangeInv(first: nat, st: State) {
    && first <= st.t.next
    && (forall s | s in st.issued :: if s.obj.isClass then s.id == 0 else first <= s.id < st.t.next)
  }

  ghost predicate UniqueInv(st: State) {
    forall r, s | r in st.issued && s in st.issued && r.id == s.id && r.id != 0 :: r.obj == s.obj
  }

  ghost predicate Inv(first: nat, st: State) {
    AddrInv(st) && TabledInv(st) && RangeInv(first, st) && UniqueInv(st)
  }

  lemma StepKeepsAddr(st: State, step: Step)
    requires AddrInv(st) && Enabled(st, step)
    ensures AddrInv(Next(st, step))
  {
  }

  /** An id that is not in the tables is above all issued before. */
  lemma AllocFresh(first: nat, st: State, obj: Obj)
    requires Inv(first, st)
    ensures var (id, t) := Alloc(st.t, obj);
            t.next >= st.t.next &&
            if obj.isClass then id == 0
            else if Lookup(st.t, obj).Some? then id == Lookup(st.t, obj).value && Issue(obj, id) in st.issued
            else st.t.next <= id < t.next
  {
  }

  lemma StepKeepsTabled(st: State, step: Step)
    requires TabledInv(st) && Enabled(st, step)
    ensures TabledInv(Next(st, step))
  {
    if step.Ask? {
      var (id, t) := Alloc(st.t, step.obj);
      assert forall s | s in st.issued :: s in st.issued + [Issue(step.obj, id)];
      assert Issue(step.obj, id) in st.issued + [Issue(step.obj, id)];
    }
  }

  lemma AskKeepsIssued(first: nat, st: State, obj: Obj)
    requires Inv(first, st) && first > 0
    ensures RangeInv(first, Next(st, Ask(obj))) && UniqueInv(Next(st, Ask(obj)))
  {
    AllocFresh(first, st, obj);
    var st', id := Next(st, Ask(obj)), Alloc(st.t, obj).0;
    assert forall s | s in st'.issued :: s in st.issued || s == Issue(obj, id);
    assert Issue(obj, id) in st'.issued;
  }

  lemma StepKeepsInv(first: nat, st: State, step: Step)
    requires Inv(first, st) && first > 0 && Enabled(st, step)
    ensures Inv(first, Next(st, step))
  {
    StepKeepsAddr(st, step);
    StepKeepsTabled(st, step);
    if step.Ask? {
      AskKeepsIssued(first, st, step.obj);
    }
  }

  lemma {:induction false} RunKeepsInv(first: nat, st: State, steps: seq<Step>, end: State)
    requires Inv(first, st) && first > 0 && Run(st, steps, end)
    ensures Inv(first, end)
    ensures end.t.next <= st.t.next + 2 * |steps|
    decreases |steps|
  {
    if steps != [] {
      StepKeepsInv(first, st, steps[0]);
      RunKeepsInv(first, Next(st, steps[0]), steps[1..], end);
    }
  }

  lemma ReachableInv(pid: nat, st: State)
    requires Reachable(pid, st)
    ensures Inv(First(pid), st)
  {
    var steps :| Run(Start(pid), steps, st);
    RunKeepsInv(First(pid), Start(pid), steps, st);
  }

  // ---- the main results ----

  /** No id other than zero is ever given to two objects, dead or alive; zero is for classes, and only for them. */
  lemma NeverShared(pid: nat, st: State, r: Issue, s: Issue)
    requires Reachable(pid, st) && r in st.issued && s in st.issued
    ensures (r.id == 0 <==> r.obj.isClass) && (r.id == s.id && r.id != 0 ==> r.obj == s.obj)
  {
    ReachableInv(pid, st);
  }

  /** An object that is not in the tables gets an id above every one issued before. */
  lemma FreshIsAbove(pid: nat, st: State, obj: Obj, s: Issue)
    requires Reachable(pid, st) && s in st.issued && !obj.isClass && Lookup(st.t, obj).None?
    ensures Alloc(st.t, obj).0 > s.id
  {
    ReachableInv(pid, st);
    AllocFresh(First(pid), st, obj);
  }

  lemma StepKeepsLookup(st: State, step: Step, obj: Obj, id: nat)
    requires AddrInv(st) && Enabled(st, step) && Lookup(st.t, obj) == Some(id)
    requires step != Die(obj) && (step == Release(id) ==> obj.weakrefable && obj.hashable)
    ensures Lookup(Next(st, step).t, obj) == Some(id)
  {
    if step.Ask? && !(obj.weakrefable && obj.hashable) {
      assert st.t.byAddr[obj.addr].obj in st.alive;
    }
  }

  /** A tabled object keeps its id as long as it lives and its id is not released; one in the weak table even if
      it is released. */
  lemma {:induction false} KeepsId(first: nat, st: State, steps: seq<Step>, end: State, obj: Obj, id: nat)
    requires Inv(first, st) && first > 0 && Run(st, steps, end) && Lookup(st.t, obj) == Some(id)
    requires Die(obj) !in steps && (Release(id) !in steps || (obj.weakrefable && obj.hashable))
    ensures Lookup(end.t, obj) == Some(id) && Alloc(end.t, obj).0 == id
    decreases |steps|
  {
    if steps != [] {
      var st' := Next(st, steps[0]);
      StepKeepsInv(first, st, steps[0]);
      StepKeepsLookup(st, steps[0], obj, id);
      KeepsId(first, st', steps[1..], end, obj, id);
    }
  }

  /** Asking for the id of an instance puts it in the tables: in the weak one, which does not keep the object alive,
      exactly if it can be referred to weakly and hashed. */
  lemma AskedIsTabled(pid: nat, st: State, obj: Obj)
    requires Reachable(pid, st) && Enabled(st, Ask(obj)) && !obj.isClass
    ensures var st' := Next(st, Ask(obj)); var id := st'.issued[|st'.issued| - 1].id;
            && st'.issued == st.issued + [Issue(obj, id)] && Lookup(st'.t, obj) == Some(id)
            && (if obj.weakrefable && obj.hashable then obj in st'.t.weak && st'.t.byAddr == st.t.byAddr
                else obj.addr in st'.t.byAddr && st'.t.byAddr[obj.addr] == Entry(obj, id) && st'.t.weak == st.t.weak)
  {
  }

  /** So the tables never keep an object alive that can be referred to weakly and hashed, nor a class. */
  lemma WeakOnesCanDie(pid: nat, st: State, obj: Obj)
    requires Reachable(pid, st) && obj in st.alive && (obj.isClass || (obj.weakrefable && obj.hashable))
    ensures Enabled(st, Die(obj))
  {
    var steps :| Run(Start(pid), steps, st);
    RunKeepsStrong(Start(pid), steps, st);
  }

  ghost predicate OnlyStrong(st: State) {
    forall a | a in st.t.byAddr :: var obj := st.t.byAddr[a].obj; !obj.isClass && !(obj.weakrefable && obj.hashable)
  }

  lemma {:induction false} RunKeepsStrong(st: State, steps: seq<Step>, end: State)
    requires OnlyStrong(st) && Run(st, steps, end)
    ensures OnlyStrong(end)
    decreases |steps|
  {
    if steps != [] {
      RunKeepsStrong(Next(st, steps[0]), steps[1..], end);
    }
  }

  /** Releasing an id takes away the entry by address that has it, and nothing else. */
  lemma ReleasesOnlyIts(pid: nat, st: State, id: nat, a: nat)
    requires Reachable(pid, st) && a in st.t.byAddr
    ensures var t := Forget(st.t, id);
            t.weak == st.t.weak && t.next == st.t.next &&
            (a in t.byAddr <==> st.t.byAddr[a].id != id) && (a in t.byAddr ==> t.byAddr[a] == st.t.byAddr[a])
    ensures forall b | b in st.t.byAddr && st.t.byAddr[b].id == st.t.byAddr[a].id :: b == a
  {
    ReachableInv(pid, st);
    assert Issue(st.t.byAddr[a].obj, st.t.byAddr[a].id) in st.issued;
    forall b | b in st.t.byAddr && st.t.byAddr[b].id == st.t.byAddr[a].id ensures b == a {
      assert Issue(st.t.byAddr[b].obj, st.t.byAddr[b].id) in st.issued;
    }
  }

  // ---- process ids ----

  /** The n-th number of the counter carries its process id in the upper half exactly up to the 2^32 - 1st. */
  lemma PidOfNth(pid: nat, n: nat)
    requires n > 0
    ensures (First(pid) + n - 1) / TWO_32 == pid <==> n < TWO_32
  {
  }

  /** Two processes that each drew at most 2^32 - 1 numbers have given no object of theirs the same id. */
  lemma PidsKeepApart(pid: nat, st: State, pid': nat, st': State, s: Issue, s': Issue)
    requires Reachable(pid, st) && Reachable(pid', st') && pid != pid'
    requires st.t.next - First(pid) < TWO_32 && st'.t.next - First(pid') < TWO_32
    requires s in st.issued && s' in st'.issued && !s.obj.isClass && !s'.obj.isClass
    ensures s.id / TWO_32 == pid && s'.id / TWO_32 == pid' && s.id != s'.id
  {
    ReachableInv(pid, st);
    ReachableInv(pid', st');
    PidOfNth(pid, s.id - First(pid) + 1);
    PidOfNth(pid', s'.id - First(pid') + 1);
  }

  // ---- the connection's fields ----

  class Allocator {
    var idPackSeq: nat
    var objToSeqWeak: map<Obj, nat>
    var objToSeqById: map<nat, Entry>

    constructor (pid: nat)
      ensures Contents() == Start(pid).t
    {
      idPackSeq, objToSeqWeak, objToSeqById := First(pid), map[], map[];
    }

    function Contents(): Tables
      reads this
    {
      Tables(idPackSeq, objToSeqWeak, objToSeqById)
    }

    method AllocStableObjId(obj: Obj) returns (id: nat)
      modifies this
      ensures (id, Contents()) == Alloc(old(Contents()), obj)
    {
      if obj.isClass {
        return 0;
      }
      if obj.weakrefable && obj.hashable && obj in objToSeqWeak {
        return objToSeqWeak[obj];
      }
      if obj.weakrefable {
        var seqNo := idPackSeq;
        idPackSeq := idPackSeq + 1;
        if obj.hashable {
          objToSeqWeak := objToSeqWeak[obj := seqNo];
          return seqNo;
        }
      }
      if obj.addr in objToSeqById && objToSeqById[obj.addr].obj == obj {
        return objToSeqById[obj.addr].id;
      }
      id := idPackSeq;
      idPackSeq := idPackSeq + 1;
      objToSeqById := objToSeqById[obj.addr := Entry(obj, id)];
    }

    /** Scans the table by address and stops at the first entry with the id; there is no other. */
    method ForgetStableObjId(id: nat)
      requires forall a, b | a in objToSeqById && b in objToSeqById && objToSeqById[a].id == objToSeqById[b].id :: a == b
      modifies this`objToSeqById
      ensures Contents() == Forget(old(Contents()), id)
    {
      if id == 0 {
        assert objToSeqById == map a | a in objToSeqById :: objToSeqById[a];
        return;
      }
      var left := objToSeqById.Keys;
      while left != {}
        invariant left <= objToSeqById.Keys && objToSeqById == old(objToSeqById)
        invariant forall a | a in objToSeqById && a !in left :: objToSeqById[a].id != id
        decreases |left|
      {
        var a :| a in left;
        if objToSeqById[a].id == id {
          objToSeqById := objToSeqById - {a};
          assert Contents().byAddr == Forget(old(Contents()), id).byAddr;
          return;
        }
        left := left - {a};
      }
      assert Contents().byAddr == Forget(old(Contents()), id).byAddr;
    }
  }
}
