/** uvmcopy: the address-space half of fork. */
module UserCopy {
  import opened Wrappers
  import opened PageTable
  import opened Vm
  import opened UserSpace
  import opened UserVm
  import opened UserGrow

  ghost predicate Disjoint(s: Space, o: Space) {
    (s.node.Values + s.user.Values) !! (o.node.Values + o.user.Values)
  }

  ghost predicate SamePages(ram: Ram, ram': Ram, o: Space) {
    |ram'| == |ram| && SameMap(ram, o.node, ram', o.node)
    && forall v :: v in o.user ==> o.user[v] < |ram| && ram'[o.user[v]] == ram[o.user[v]]
  }

  lemma OutsideFrames(ram: Ram, free: seq<nat>, s: Space, o: Space, f: nat)
    requires SpaceOk(ram, free, o) && Disjoint(s, o) && f in o.node.Values + o.user.Values
    ensures f !in Frames(free, s)
  {
    if f in o.user.Values {
      var v :| v in o.user && o.user[v] == f;
      assert PageOk(ram, free, o, v);
    }
  }

  lemma BystanderFrames(ram: Ram, free: seq<nat>, s: Space, ram': Ram, free': seq<nat>, s': Space, o: Space)
    requires SpaceOk(ram, free, o) && Disjoint(s, o) && Conserves(ram, free, s, ram', free', s')
    ensures forall f :: f in o.node.Values + o.user.Values ==>
              f !in Frames(free', s') && (f < |ram| ==> f < |ram'| && ram'[f] == ram[f])
  {
    hide SpaceOk, Frames, Disjoint;
    forall f | f in o.node.Values + o.user.Values
      ensures f !in Frames(free', s') && (f < |ram| ==> f < |ram'| && ram'[f] == ram[f])
    {
      OutsideFrames(ram, free, s, o, f);
    }
  }

  lemma BystanderTree(ram: Ram, free: seq<nat>, ram': Ram, free': seq<nat>, t: Tree)
    requires Base(ram, free, t) && |ram'| == |ram| && FreeOk(ram', free')
    requires forall f :: f in t.Values ==> f !in free' && (f < |ram| ==> ram'[f] == ram[f])
    ensures Base(ram', free', t) && SameMap(ram, t, ram', t)
  {
    forall p | p in t ensures t[p] < |ram| && ram'[t[p]] == ram[t[p]] && t[p] !in free' {
      assert t[p] in t.Values;
      assert IsTable(ram, t[p]);
    }
    Elsewhere(ram, ram', t);
  }

  /** Whatever an operation on s does, another address space keeps its map and bytes. */
  lemma BystanderOk(ram: Ram, free: seq<nat>, s: Space, ram': Ram, free': seq<nat>, s': Space, o: Space)
    requires SpaceOk(ram, free, o) && Disjoint(s, o) && Conserves(ram, free, s, ram', free', s')
    requires SpaceOk(ram', free', s')
    ensures SpaceOk(ram', free', o) && Disjoint(s', o) && SamePages(ram, ram', o)
  {
    hide TreeOk, Lookup, V, U, FreeOk;
    BystanderFrames(ram, free, s, ram', free', s', o);
    forall f | f in o.node.Values + o.user.Values
      ensures f !in free' && f !in s'.node.Values && f !in s'.user.Values
    {
    }
    BystanderTree(ram, free, ram', free', o.node);
    forall v | v in o.user ensures PageOk(ram', free', o, v) && ram'[o.user[v]] == ram[o.user[v]] {
      assert PageOk(ram, free, o, v);
      assert o.user[v] in o.user.Values;
    }
  }

  /** The first k pages of o copied into s, with the flags they have in o. */
  ghost predicate Copied(r0: Ram, f0: seq<nat>, s0: Space, o: Space, ram: Ram, free: seq<nat>, s: Space, k: nat) {
    && Image(ram, free, s, k) && Conserves(r0, f0, s0, ram, free, s)
    && SpaceOk(ram, free, o) && Disjoint(s, o) && SamePages(r0, ram, o)
    && (forall v: nat :: v < k ==> v in o.user && v in s.user && s.user[v] < |ram| && ram[s.user[v]] == r0[o.user[v]])
    && (forall v: nat :: Lookup(ram, s.node, v)
                         == if v < k && v in s.user then MakePte(s.user[v], Flags(Lookup(r0, o.node, v)))
                             else Lookup(r0, s0.node, v))
    && Root in s0.node && Root in s.node && s.node[Root] == s0.node[Root]
  }

  lemma CopiedNone(ram: Ram, free: seq<nat>, s: Space, o: Space)
    requires Image(ram, free, s, 0) && SpaceOk(ram, free, o) && Disjoint(s, o)
    ensures Copied(ram, free, s, o, ram, free, s, 0)
  {
    hide Lookup, V, U;
    forall v | v in o.user ensures o.user[v] < |ram| { assert PageOk(ram, free, o, v); }
  }

  lemma SamePagesTrans(r0: Ram, r1: Ram, r2: Ram, o: Space)
    requires SamePages(r0, r1, o) && SamePages(r1, r2, o)
    ensures SamePages(r0, r2, o)
  {
  }

  lemma CopiedMore(r0: Ram, f0: seq<nat>, s0: Space, o: Space, ram: Ram, free: seq<nat>, s: Space, k: nat,
                   r2: Ram, f2: seq<nat>, t2: Tree, flags: nat)
    requires Copied(r0, f0, s0, o, ram, free, s, k) && free != [] && free[0] < |ram| && k in o.user && o.user[k] < |r0|
    requires IsData(r0[o.user[k]]) && flags == Flags(Lookup(r0, o.node, k)) && V(flags) && IsLeaf(flags) && flags < 1024
    requires Maps(ram[free[0] := r0[o.user[k]]], free[1..], s.node, r2, f2, t2, k, 1, free[0], flags)
    requires Base(r2, f2, t2)
    ensures Copied(r0, f0, s0, o, r2, f2, Space(t2, s.user[k := free[0]]), k + 1)
  {
    hide Lookup, V, U, Flags, Frames, MakePte, SpaceOk, Maps, Base, IsData, Disjoint, SamePages;
    ImageFits(ram, free, s, k);
    TakeAndMap(ram, free, s, r0[o.user[k]], r2, f2, t2, k, flags);
    var s2 := Space(t2, s.user[k := free[0]]);
    ConservesTrans(r0, f0, s0, ram, free, s, r2, f2, s2);
    BystanderOk(ram, free, s, r2, f2, s2, o);
    SamePagesTrans(r0, ram, r2, o);
  }

  lemma CopiedStuck(r0: Ram, f0: seq<nat>, s0: Space, o: Space, ram: Ram, free: seq<nat>, s: Space, k: nat,
                    p: Page, r2: Ram, f2: seq<nat>, t2: Tree, f: nat, flags: nat)
    requires Copied(r0, f0, s0, o, ram, free, s, k) && free != [] && f == free[0] < |ram|
    requires Maps(ram[f := p], free[1..], s.node, r2, f2, t2, k, 0, f, flags) && Base(r2, f2, t2)
    ensures f < |r2| && f !in f2
    ensures Copied(r0, f0, s0, o, r2[f := Junk], [f] + f2, Space(t2, s.user), k)
  {
    hide Lookup, V, U, Flags, Frames, MakePte, SpaceOk, Maps, Base, IsData, Disjoint, SamePages;
    TakeAndGive(ram, free, s, p, r2, f2, t2, k, f, flags);
    var r3, f3, s3 := r2[f := Junk], [f] + f2, Space(t2, s.user);
    ConservesTrans(r0, f0, s0, ram, free, s, r3, f3, s3);
    BystanderOk(ram, free, s, r3, f3, s3, o);
    SamePagesTrans(r0, ram, r3, o);
  }

  /** The error path unmaps what was copied and leaves the child as empty as it was. */
  lemma CopiedUndo(r0: Ram, f0: seq<nat>, s0: Space, o: Space, ram: Ram, free: seq<nat>, s: Space, k: nat,
                   r2: Ram, f2: seq<nat>, s2: Space)
    requires Copied(r0, f0, s0, o, ram, free, s, k) && Image(r0, f0, s0, 0)
    requires Unmapped(ram, free, s, r2, f2, s2, 0, k) && SpaceOk(r2, f2, s2)
    ensures Copied(r0, f0, s0, o, r2, f2, s2, 0) && SameMap(r0, s0.node, r2, s2.node)
  {
    hide Lookup, V, U, Flags, Frames, MakePte, SpaceOk, Disjoint, SamePages;
    NewPagesWereFree(r0, f0, s0, ram, free, s, 0, k);
    ConservesTrans(r0, f0, s0, ram, free, s, r2, f2, s2);
    BystanderOk(ram, free, s, r2, f2, s2, o);
    SamePagesTrans(r0, ram, r2, o);
    ShrunkImage(ram, free, s, r2, f2, s2, 0, k);
  }

  lemma ParentPage(r0: Ram, f0: seq<nat>, s0: Space, o: Space, ram: Ram, free: seq<nat>, s: Space, k: nat)
    requires Copied(r0, f0, s0, o, ram, free, s, k) && k in o.user
    ensures LeafOf(k) in o.node && IsTable(ram, o.node[LeafOf(k)]) && I0(k) < ENTRIES && k < MAXVPN
    ensures var e := ram[o.node[LeafOf(k)]].ptes[I0(k)];
            && e == Lookup(r0, o.node, k) && V(e) && Frame(e) == o.user[k] < |ram| && IsLeaf(Flags(e))
            && o.user[k] < |r0| && ram[Frame(e)] == r0[o.user[k]] && IsData(r0[o.user[k]]) && V(Flags(e))
            && Flags(e) < 1024
            && OrV(Flags(e)) == Flags(e)
    ensures Base(ram, free, o.node) && Root in o.node
    ensures free != [] ==> free[0] < |ram| && free[0] != o.user[k]
  {
    hide Lookup, V, U, Flags, Frame, MakePte, Image, Conserves, Disjoint, I2, I1, I0, OrV;
    OwnedEntry(ram, free, o, k);
  }

  lemma OwnedEntry(ram: Ram, free: seq<nat>, o: Space, k: nat)
    requires SpaceOk(ram, free, o) && k in o.user
    ensures LeafOf(k) in o.node && IsTable(ram, o.node[LeafOf(k)]) && I0(k) < ENTRIES && k < MAXVPN
    ensures var e := ram[o.node[LeafOf(k)]].ptes[I0(k)];
            && e == Lookup(ram, o.node, k) && V(e) && Frame(e) == o.user[k] < |ram| && IsLeaf(Flags(e))
            && IsData(ram[o.user[k]]) && V(Flags(e)) && Flags(e) < 1024 && OrV(Flags(e)) == Flags(e)
    ensures free != [] ==> free[0] < |ram| && free[0] != o.user[k]
  {
    hide TreeOk, V, U, Frame, Flags, IsLeaf, I2, I1, I0, Separate, Lookup;
    assert PageOk(ram, free, o, k);
    MappedHasLeaf(ram, o.node, k);
    FlagBits(ram[o.node[LeafOf(k)]].ptes[I0(k)]);
    OrVValid(ram[o.node[LeafOf(k)]].ptes[I0(k)]);
  }

  lemma OrVValid(e: nat)
    requires V(e)
    ensures OrV(Flags(e)) == Flags(e)
  {
  }

  /** Copies the sz bytes of the parent's image, page by page; it fails only for want of frames. */
  method Uvmcopy(m: Machine, old': nat, new': nat, sz: nat, ghost o: Space, ghost s: Space)
    returns (r: int, ghost s': Space)
    requires Image(m.ram, m.free, o, Pages(sz)) && Image(m.ram, m.free, s, 0) && Disjoint(s, o)
    requires Root in o.node && o.node[Root] == old' && Root in s.node && s.node[Root] == new'
    modifies m
    ensures r == 0 || r == -1
    ensures Copied(old(m.ram), old(m.free), s, o, m.ram, m.free, s', if r == 0 then Pages(sz) else 0)
    ensures r == -1 ==> s'.user == s.user && SameMap(old(m.ram), s.node, m.ram, s'.node) && |m.free| <= Pages(sz)
  {
    hide Lookup, V, U, Flags, Frame, Frames, MakePte, SpaceOk, Maps, Base, IsData, Disjoint, SamePages, FreeOk, I2, I1;
    hide I0;
    hide OrV, Quiet, Conserves, Separate, TreeOk, MapsTo;
    ghost var r0, f0, k := m.ram, m.free, 0;
    CopiedNone(m.ram, m.free, s, o);
    s' := s;
    var i := 0;
    while i < sz
      invariant i == k * PGSIZE && k <= Pages(sz) && Copied(r0, f0, s, o, m.ram, m.free, s', k)
    {
      ghost var r1, f1, s1 := m.ram, m.free, s';
      assert k in o.user;
      ParentPage(r0, f0, s, o, m.ram, m.free, s', k);
      var pte: Option<PteAddr>;
      ghost var t;
      pte, t := m.Walk(old', i, false, o.node);
      var e := m.ram[pte.value.frame].ptes[pte.value.index];
      var flags := Flags(e);
      BaseFree(m.ram, m.free, o.node);
      var mem := m.Kalloc();
      if mem.None? {
        s' := UndoCopy(m, new', i, r0, f0, s, o, k, s');
        return -1, s';
      }
      var page := m.ram[Frame(e)];
      ImageTake(r1, f1, s1, k, page);
      m.ram := m.ram[mem.value := page];
      var ok: int;
      ghost var n, t2;
      ok, n, t2 := m.Mappages(new', i, PGSIZE, mem.value, flags, s'.node);
      if ok != 0 {
        CopiedStuck(r0, f0, s, o, r1, f1, s1, k, page, m.ram, m.free, t2, mem.value, flags);
        BaseFree(m.ram, m.free, t2);
        m.Kfree(mem.value);
        s' := UndoCopy(m, new', i, r0, f0, s, o, k, Space(t2, s'.user));
        return -1, s';
      }
      CopiedMore(r0, f0, s, o, r1, f1, s1, k, m.ram, m.free, t2, flags);
      s' := Space(t2, s'.user[k := mem.value]);
      i := i + PGSIZE;
      k := k + 1;
    }
    return 0, s';
  }

  lemma ImageTake(ram: Ram, free: seq<nat>, s: Space, k: nat, p: Page)
    requires Image(ram, free, s, k) && free != []
    ensures free[0] < |ram| && ram[free[0] := Junk][free[0] := p] == ram[free[0] := p]
    ensures Base(ram[free[0] := p], free[1..], s.node) && k < TRAPFRAME && !V(Lookup(ram[free[0] := p], s.node, k))
  {
    ImageFits(ram, free, s, k);
    TakeOk(ram, free, s, p);
  }

  /** uvmunmap(new, 0, i / PGSIZE, 1) on uvmcopy's error path. */
  method UndoCopy(m: Machine, new': nat, i: nat, ghost r0: Ram, ghost f0: seq<nat>, ghost s0: Space, ghost o: Space,
                  ghost k: nat, ghost s: Space)
    returns (ghost s': Space)
    requires Copied(r0, f0, s0, o, m.ram, m.free, s, k) && Image(r0, f0, s0, 0) && i == k * PGSIZE
    requires s.node[Root] == new'
    modifies m
    ensures Copied(r0, f0, s0, o, m.ram, m.free, s', 0) && s'.user == s0.user && SameMap(r0, s0.node, m.ram, s'.node)
    ensures |m.free| <= |old(m.free)| + k
  {
    hide Lookup, V, U, Flags, Frame, Frames, MakePte, SpaceOk, IsData, Disjoint, SamePages, I2, I1, I0;
    ghost var r1, f1 := m.ram, m.free;
    ImageFits(m.ram, m.free, s, k);
    forall v | 0 <= v < k
      ensures MapsTo(Lookup(m.ram, s.node, v), Frame(Lookup(m.ram, s.node, v))) && v in s.user
    {
      OwnedPagesMapped(m.ram, m.free, s, v);
    }
    s' := Uvmunmap(m, new', 0, i / PGSIZE, true, s);
    UnmappedFrees(r1, f1, s, m.ram, m.free, s', 0, k);
    CopiedUndo(r0, f0, s0, o, r1, f1, s, k, m.ram, m.free, s');
  }
}
