/** freewalk, uvmfree and proc_freepagetable: giving back an address space. */
module UserFree {
  import opened Wrappers
  import opened PageTable
  import opened Vm
  import opened UserSpace
  import opened UserVm
  import opened UserGrow

  /** q is the table page p or below it. */
  predicate Under(p: Path, q: Path) {
    match p
    case Root => true
    case Mid(i) => q == p || (q.Leaf? && q.i == i)
    case Leaf(i, j) => q == p
  }

  function Height(p: Path): nat { if p.Root? then 2 else if p.Mid? then 1 else 0 }

  function Child(p: Path, i: nat): Path
    requires !p.Leaf?
  {
    if p.Root? then Mid(i) else Leaf(p.i, i)
  }

  /** Which child of p leads to q; ENTRIES for p itself. */
  function Branch(p: Path, q: Path): nat
    requires Under(p, q)
  {
    if p == q then ENTRIES else if p.Root? then q.i else q.j
  }

  /** Table page q has the right children, or as a leaf table no valid entry. */
  ghost predicate NodeOk(ram: Ram, t: Tree, q: Path)
    requires q in t
  {
    IsTable(ram, t[q]) && forall i :: 0 <= i < ENTRIES ==>
      if q.Leaf? then !V(ram[t[q]].ptes[i]) else EntryOk(ram[t[q]].ptes[i], t, Child(q, i))
  }

  ghost predicate SubOk(ram: Ram, t: Tree, p: Path) {
    forall q :: q in t && Under(p, q) ==> NodeOk(ram, t, q)
  }

  ghost predicate WellShaped(t: Tree) {
    Injective(t) && forall q :: q in t ==>
      (q.Mid? ==> q.i < ENTRIES) && (q.Leaf? ==> q.j < ENTRIES && q.i < ENTRIES && Mid(q.i) in t)
  }

  /** The frames under p reached through children below n. */
  ghost function Below(t: Tree, p: Path, n: nat): set<nat> {
    set q | q in t && Under(p, q) && Branch(p, q) < n :: t[q]
  }

  ghost function All(t: Tree, p: Path): set<nat> { Below(t, p, ENTRIES + 1) }

  /** With the first n branches of p freed: what is free and what is untouched. */
  ghost predicate Freed(t: Tree, p: Path, n: nat, r0: Ram, f0: seq<nat>, ram: Ram, free: seq<nat>) {
    && |ram| == |r0| && FreeOk(ram, free) && Elems(free) == Elems(f0) + Below(t, p, n)
    && forall f :: 0 <= f < |ram| && f !in Below(t, p, n) && (p !in t || f != t[p]) ==> ram[f] == r0[f]
  }

  lemma BelowStep(t: Tree, p: Path, n: nat)
    requires p in t && WellShaped(t) && n < ENTRIES
    ensures p.Leaf? ==> Below(t, p, n + 1) == Below(t, p, n)
    ensures !p.Leaf? && Child(p, n) !in t ==> Below(t, p, n + 1) == Below(t, p, n)
    ensures !p.Leaf? && Child(p, n) in t ==> Below(t, p, n + 1) == Below(t, p, n) + All(t, Child(p, n))
  {
    if !p.Leaf? {
      var c := Child(p, n);
      forall q | q in t && Under(p, q) ensures Branch(p, q) == n <==> Under(c, q) { }
      if c !in t {
        forall q | q in t && Under(p, q) ensures Branch(p, q) != n { }
      }
    }
  }

  lemma BelowEnd(t: Tree, p: Path)
    requires p in t && WellShaped(t)
    ensures All(t, p) == Below(t, p, ENTRIES) + {t[p]}
  {
    assert Branch(p, p) == ENTRIES && Under(p, p);
    forall q | q in t && Under(p, q) && Branch(p, q) < ENTRIES + 1 && q != p ensures Branch(p, q) < ENTRIES { }
  }

  lemma Untouched(t: Tree, p: Path, n: nat, q: Path)
    requires WellShaped(t) && p in t && q in t && Under(p, q) && q != p && Branch(p, q) >= n
    ensures t[q] !in Below(t, p, n) && t[q] != t[p] && t[q] in All(t, p)
  {
    assert Branch(p, q) < ENTRIES + 1;
  }

  /** What a turn of freewalk's loop finds at entry n. */
  lemma AtEntry(t: Tree, p: Path, n: nat, r0: Ram, f0: seq<nat>, ram: Ram, free: seq<nat>)
    requires WellShaped(t) && p in t && SubOk(r0, t, p) && All(t, p) !! Elems(f0) && n < ENTRIES
    requires Freed(t, p, n, r0, f0, ram, free) && IsTable(ram, t[p]) && ram[t[p]].ptes[n] == r0[t[p]].ptes[n]
    ensures var e := ram[t[p]].ptes[n];
            if !p.Leaf? && Child(p, n) in t then
              && V(e) && !R(e) && !W(e) && !X(e) && Frame(e) == t[Child(p, n)]
              && SubOk(ram, t, Child(p, n)) && All(t, Child(p, n)) !! Elems(free)
            else !V(e)
  {
    assert Under(p, p) && NodeOk(r0, t, p);
    if !p.Leaf? && Child(p, n) in t {
      var c := Child(p, n);
      PteFields(t[c], 1);
      forall q | q in t && Under(c, q) ensures NodeOk(ram, t, q) && t[q] !in Elems(free) {
        assert Under(p, q) && Branch(p, q) == n && q != p;
        Untouched(t, p, n, q);
        assert NodeOk(r0, t, q);
        assert ram[t[q]] == r0[t[q]];
      }
    }
  }

  lemma AfterChild(t: Tree, p: Path, n: nat, r0: Ram, f0: seq<nat>, ram: Ram, free: seq<nat>, r1: Ram, f1: seq<nat>)
    requires WellShaped(t) && p in t && n < ENTRIES && !p.Leaf? && Child(p, n) in t
    requires Freed(t, p, n, r0, f0, ram, free) && |r1| == |ram| && FreeOk(r1, f1)
    requires Elems(f1) == Elems(free) + All(t, Child(p, n))
    requires forall g :: 0 <= g < |ram| && g !in All(t, Child(p, n)) ==> r1[g] == ram[g]
    ensures Freed(t, p, n + 1, r0, f0, r1, f1) && t[p] !in All(t, Child(p, n))
  {
    BelowStep(t, p, n);
    hide Elems;
  }

  /** Frees the table page f and every table page below it, each once; the panic
      "freewalk: leaf" cannot happen when no leaf entry is valid. */
  method Freewalk(m: Machine, f: nat, ghost t: Tree, ghost p: Path)
    requires p in t && t[p] == f && WellShaped(t) && SubOk(m.ram, t, p)
    requires FreeOk(m.ram, m.free) && All(t, p) !! Elems(m.free)
    modifies m
    ensures FreeOk(m.ram, m.free) && |m.ram| == |old(m.ram)| && Elems(m.free) == Elems(old(m.free)) + All(t, p)
    ensures forall g :: 0 <= g < |m.ram| && g !in All(t, p) ==> m.ram[g] == old(m.ram)[g]
    decreases Height(p)
  {
    ghost var r0, f0 := m.ram, m.free;
    assert Under(p, p) && NodeOk(m.ram, t, p);
    BelowEnd(t, p);
    hide Below, Elems, FreeOk, SubOk, NodeOk, WellShaped, V, R, W, X, Frame;
    BelowNone(t, p);
    for i := 0 to ENTRIES
      invariant Freed(t, p, i, r0, f0, m.ram, m.free) && IsTable(m.ram, f)
      invariant forall k :: i <= k < ENTRIES ==> m.ram[f].ptes[k] == r0[f].ptes[k]
    {
      AtEntry(t, p, i, r0, f0, m.ram, m.free);
      BelowStep(t, p, i);
      ghost var r1, f1 := m.ram, m.free;
      var pte := m.ram[f].ptes[i];
      if V(pte) && !R(pte) && !W(pte) && !X(pte) {
        Freewalk(m, Frame(pte), t, Child(p, i));
        AfterChild(t, p, i, r0, f0, r1, f1, m.ram, m.free);
        m.ram := PutPte(m.ram, f, i, 0);
      } else if V(pte) {
        assert false;
      }
    }
    LastFrame(t, p, r0, f0, m.ram, m.free);
    m.Kfree(f);
  }

  lemma BelowNone(t: Tree, p: Path)
    ensures Below(t, p, 0) == {}
  {
  }

  lemma LastFrame(t: Tree, p: Path, r0: Ram, f0: seq<nat>, ram: Ram, free: seq<nat>)
    requires p in t && WellShaped(t) && Freed(t, p, ENTRIES, r0, f0, ram, free) && All(t, p) !! Elems(f0)
    ensures t[p] !in free && Elems([t[p]] + free) == Elems(f0) + All(t, p) && t[p] in All(t, p)
    ensures forall g :: 0 <= g < |ram| && g !in All(t, p) ==> ram[g] == r0[g]
  {
    BelowEnd(t, p);
    forall q | q in t && Under(p, q) && Branch(p, q) < ENTRIES ensures t[q] != t[p] { }
  }

  lemma TreeShape(ram: Ram, t: Tree)
    requires TreeOk(ram, t)
    ensures WellShaped(t) && All(t, Root) == t.Values
  {
    forall q | q in t ensures Under(Root, q) && Branch(Root, q) < ENTRIES + 1 { }
  }

  lemma VpnOf(i: nat, j: nat, k: nat) returns (v: nat)
    requires j < ENTRIES && k < ENTRIES
    ensures I2(v) == i && I1(v) == j && I0(v) == k
  {
    v := i * 0x4_0000 + j * ENTRIES + k;
    assert v / ENTRIES == i * ENTRIES + j;
  }

  /** With no page mapped, every leaf table is empty and freewalk can run. */
  lemma EmptyTree(ram: Ram, t: Tree)
    requires TreeOk(ram, t) && forall v: nat :: !V(Lookup(ram, t, v))
    ensures SubOk(ram, t, Root)
  {
    forall q | q in t && Under(Root, q) ensures NodeOk(ram, t, q) {
      if q.Leaf? {
        forall k | 0 <= k < ENTRIES ensures !V(ram[t[q]].ptes[k]) {
          var v := VpnOf(q.i, q.j, k);
          assert !V(Lookup(ram, t, v));
        }
      }
    }
  }

  /** No page is mapped except the owned ones. */
  ghost predicate OnlyOwned(ram: Ram, s: Space) {
    forall v: nat :: V(Lookup(ram, s.node, v)) ==> v in s.user
  }

  lemma NothingLeft(r0: Ram, f0: seq<nat>, s0: Space, ram: Ram, free: seq<nat>, s: Space, n: nat)
    requires Image(r0, f0, s0, n) && OnlyOwned(r0, s0) && Unmapped(r0, f0, s0, ram, free, s, 0, n)
    requires SpaceOk(ram, free, s)
    ensures WellShaped(s.node) && SubOk(ram, s.node, Root) && FreeOk(ram, free) && Root in s.node
    ensures All(s.node, Root) !! Elems(free) && Elems(free) + All(s.node, Root) == Frames(f0, s0)
  {
    ZeroPte();
    hide TreeOk, Lookup, V, U, PageOk, FreeOk, Separate;
    forall v: nat ensures !V(Lookup(ram, s.node, v)) { }
    EmptyTree(ram, s.node);
    TreeShape(ram, s.node);
    assert s.user == map[];
    assert forall f :: f in s.node.Values ==> f !in free;
  }

  /** Returns every frame of the address space: the user pages, then the table pages. */
  method Uvmfree(m: Machine, root: nat, sz: nat, ghost s: Space)
    requires Image(m.ram, m.free, s, Pages(sz)) && OnlyOwned(m.ram, s) && Root in s.node && s.node[Root] == root
    modifies m
    ensures FreeOk(m.ram, m.free) && |m.ram| == |old(m.ram)| && Elems(m.free) == Frames(old(m.free), s)
    ensures forall g :: 0 <= g < |m.ram| && g !in Frames(old(m.free), s) ==> m.ram[g] == old(m.ram)[g]
  {
    hide SpaceOk, Lookup, V, U, Frames, Covers, OnlyOwned, Flags, Frame, Below, Elems, WellShaped, SubOk, FreeOk;
    ghost var r0, f0, s' := m.ram, m.free, s;
    ImageFits(m.ram, m.free, s, Pages(sz));
    if sz > 0 {
      forall v | 0 <= v < Pages(sz)
        ensures MapsTo(Lookup(m.ram, s.node, v), Frame(Lookup(m.ram, s.node, v))) && v in s.user
      {
        CoversPage(m.ram, s, Pages(sz), v);
        OwnedPagesMapped(m.ram, m.free, s, v);
      }
      s' := Uvmunmap(m, root, 0, Pages(sz), true, s);
    } else {
      UnmappedNone(m.ram, m.free, s, 0);
    }
    NothingLeft(r0, f0, s, m.ram, m.free, s', Pages(sz));
    Freewalk(m, root, s'.node, Root);
  }

  lemma CoversPage(ram: Ram, s: Space, n: nat, v: nat)
    requires Covers(ram, s, n) && v < n
    ensures v in s.user
  {
  }

  /** What a process's page table maps: its image, the trapframe and the trampoline. */
  ghost predicate ProcSpace(ram: Ram, free: seq<nat>, s: Space, n: nat) {
    && Image(ram, free, s, n)
    && (forall v: nat :: V(Lookup(ram, s.node, v)) ==> v in s.user || v == TRAPFRAME || v == TRAPFRAME + 1)
    && (forall v :: v in [TRAPFRAME, TRAPFRAME + 1] ==> MapsTo(Lookup(ram, s.node, v), Frame(Lookup(ram, s.node, v))))
  }

  lemma OneUnmapped(r0: Ram, f0: seq<nat>, s0: Space, ram: Ram, free: seq<nat>, s: Space, v: nat, n: nat)
    requires Image(r0, f0, s0, n) && Unmapped(r0, f0, s0, ram, free, s, v, 1) && SpaceOk(ram, free, s) && v !in s0.user
    ensures s == s0 && Image(ram, free, s, n)
  {
    ZeroPte();
    hide Lookup, V, U, SpaceOk, Frames;
    assert Minus(s0.user, v, 1) == s0.user;
  }

  /** Frees a process's address space; the trapframe page stays with its owner. */
  method ProcFreepagetable(m: Machine, root: nat, sz: nat, ghost s: Space)
    requires ProcSpace(m.ram, m.free, s, Pages(sz)) && Root in s.node && s.node[Root] == root
    modifies m
    ensures FreeOk(m.ram, m.free) && |m.ram| == |old(m.ram)| && Elems(m.free) == Frames(old(m.free), s)
    ensures forall g :: 0 <= g < |m.ram| && g !in Frames(old(m.free), s) ==> m.ram[g] == old(m.ram)[g]
  {
    hide SpaceOk, Lookup, V, U, Frames, Flags, Frame, Below, Elems, WellShaped, SubOk, FreeOk;
    ghost var r0, f0, s' := m.ram, m.free, s;
    ImageFits(m.ram, m.free, s, Pages(sz));
    s' := Uvmunmap(m, root, (TRAPFRAME + 1) * PGSIZE, 1, false, s);
    OneUnmapped(r0, f0, s, m.ram, m.free, s', TRAPFRAME + 1, Pages(sz));
    ghost var r1, f1 := m.ram, m.free;
    s' := Uvmunmap(m, root, TRAPFRAME * PGSIZE, 1, false, s);
    OneUnmapped(r1, f1, s, m.ram, m.free, s', TRAPFRAME, Pages(sz));
    ZeroPte();
    Uvmfree(m, root, sz, s);
  }
}
