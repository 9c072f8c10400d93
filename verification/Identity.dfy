/** The ids the allocator gives, as the names under which objects are boxed. */
module Identity {
  import opened Core
  import opened Brine
  import opened Boxing
  import S = StableIds

  /** What an id pack is made of: the object, its class's name, and for an instance the address of the class. */
  datatype Named = Named(obj: S.Obj, name: Bytes, cls: nat)

  /** `_stable_id_pack`: a class is named by its own address, an instance by the class's address and its own id. */
  function PackOf(x: Named, id: nat): IdPack {
    if x.obj.isClass then IdPack(x.name, x.obj.addr, 0) else IdPack(x.name, x.cls, id)
  }

  /** Two living objects that have been given ids have different id packs, be they instances or classes. */
  lemma PacksApart(pid: nat, st: S.State, x: Named, i: nat, y: Named, j: nat)
    requires S.Reachable(pid, st) && S.Issue(x.obj, i) in st.issued && S.Issue(y.obj, j) in st.issued
    requires x.obj in st.alive && y.obj in st.alive && PackOf(x, i) == PackOf(y, j)
    ensures x.obj == y.obj
  {
    S.NeverShared(pid, st, S.Issue(x.obj, i), S.Issue(y.obj, j));
    S.NeverShared(pid, st, S.Issue(x.obj, i), S.Issue(x.obj, i));
    S.NeverShared(pid, st, S.Issue(y.obj, j), S.Issue(y.obj, j));
    S.ReachableInv(pid, st);
  }

  /** Each value of the set stands for a living object of its own, and is named by the pack of an id it was given. */
  ghost predicate NamedBy(st: S.State, alive: set<Value>, named: Value -> Named, ids: Ids) {
    && (forall x, y | x in alive && y in alive && named(x).obj == named(y).obj :: x == y)
    && (forall x | x in alive ::
          named(x).obj in st.alive && exists i :: S.Issue(named(x).obj, i) in st.issued && ids(x) == PackOf(named(x), i))
  }

  /** So in every run of the allocator its ids name the living objects apart, as boxing needs. */
  lemma AllocatedIdsAreInjective(pid: nat, st: S.State, alive: set<Value>, named: Value -> Named, ids: Ids)
    requires S.Reachable(pid, st) && NamedBy(st, alive, named, ids)
    ensures Injective(ids, alive)
  {
    forall x, y | x in alive && y in alive && ids(x) == ids(y) ensures x == y {
      var i :| S.Issue(named(x).obj, i) in st.issued && ids(x) == PackOf(named(x), i);
      var j :| S.Issue(named(y).obj, j) in st.issued && ids(y) == PackOf(named(y), j);
      PacksApart(pid, st, named(x), i, named(y), j);
    }
  }
}
