/** walk, mappages and the page allocator of kernel/vm.c and kernel/kalloc.c. */
module Vm {
  import opened PageTable
  import opened Wrappers

  ghost predicate FreeOk(ram: Ram, free: seq<nat>) {
    && (forall k :: 0 <= k < |free| ==> free[k] < |ram|)
    && (forall j, k :: 0 <= j < k < |free| ==> free[j] != free[k])
  }

  /** A well-formed tree whose pages are not on the free list. */
  ghost predicate Base(ram: Ram, free: seq<nat>, t: Tree) {
    Root in t && TreeOk(ram, t) && FreeOk(ram, free) && forall p :: p in t ==> t[p] !in free
  }

  /** The frames that the tree and the free list account for. */
  ghost function Pool(free: seq<nat>, t: Tree): set<nat> { (set f | f in free) + t.Values }

  /** From one state to the next every frame outside the pool and the pool itself stay;
      only table pages were added. */
  ghost predicate Contained(ram: Ram, free: seq<nat>, t: Tree, ram': Ram, free': seq<nat>, t': Tree) {
    && |ram'| == |ram| && (forall f :: 0 <= f < |ram| && f !in Pool(free, t) ==> ram'[f] == ram[f])
    && Pool(free', t') == Pool(free, t)
    && (forall p :: p in t ==> p in t' && t'[p] == t[p])
    && (forall f :: f in free' ==> f in free)
  }

  ghost predicate SameMap(ram: Ram, t: Tree, ram': Ram, t': Tree) {
    forall vpn: nat :: Lookup(ram', t', vpn) == Lookup(ram, t, vpn)
  }

  /** As Contained, with the flat map unchanged. */
  ghost predicate Quiet(ram: Ram, free: seq<nat>, t: Tree, ram': Ram, free': seq<nat>, t': Tree) {
    Contained(ram, free, t, ram', free', t') && SameMap(ram, t, ram', t')
  }

  /** As Contained, with n pages from lo newly mapped to consecutive frames from f. */
  ghost predicate Maps(ram: Ram, free: seq<nat>, t: Tree, ram': Ram, free': seq<nat>, t': Tree,
                       lo: nat, n: nat, f: nat, flags: nat)
  {
    && Contained(ram, free, t, ram', free', t')
    && forall vpn: nat :: Lookup(ram', t', vpn)
                          == if lo <= vpn < lo + n then MakePte(f + (vpn - lo), flags) else Lookup(ram, t, vpn)
  }

  lemma MapsNone(ram: Ram, free: seq<nat>, t: Tree, ram': Ram, free': seq<nat>, t': Tree, lo: nat, f: nat, flags: nat)
    requires Quiet(ram, free, t, ram', free', t')
    ensures Maps(ram, free, t, ram', free', t', lo, 0, f, flags)
  {
  }

  lemma MapsQuiet(r0: Ram, f0: seq<nat>, t0: Tree, r1: Ram, f1: seq<nat>, t1: Tree, r2: Ram, f2: seq<nat>, t2: Tree,
                  lo: nat, n: nat, f: nat, flags: nat)
    requires Maps(r0, f0, t0, r1, f1, t1, lo, n, f, flags) && Quiet(r1, f1, t1, r2, f2, t2)
    ensures Maps(r0, f0, t0, r2, f2, t2, lo, n, f, flags)
  {
  }

  lemma ContainedTrans(r0: Ram, f0: seq<nat>, t0: Tree, r1: Ram, f1: seq<nat>, t1: Tree, r2: Ram, f2: seq<nat>,
                       t2: Tree)
    requires Contained(r0, f0, t0, r1, f1, t1) && Contained(r1, f1, t1, r2, f2, t2)
    ensures Contained(r0, f0, t0, r2, f2, t2)
  {
  }

  /** Storing a leaf entry. */
  lemma StoreOne(ram: Ram, free: seq<nat>, t: Tree, vpn: nat, e: nat)
    requires Base(ram, free, t) && Leaf(I2(vpn), I1(vpn)) in t
    ensures IsTable(ram, t[Leaf(I2(vpn), I1(vpn))]) && I0(vpn) < ENTRIES
    ensures var r := PutPte(ram, t[Leaf(I2(vpn), I1(vpn))], I0(vpn), e);
            && Base(r, free, t) && Contained(ram, free, t, r, free, t)
            && forall w: nat :: Lookup(r, t, w) == if w == vpn then e else Lookup(ram, t, w)
  {
    var p := Leaf(I2(vpn), I1(vpn));
    var r := PutPte(ram, t[p], I0(vpn), e);
    StoreOk(ram, t, vpn, e);
    forall w: nat
      ensures Lookup(r, t, w) == if w == vpn then e else Lookup(ram, t, w)
    {
      StoreLookup(ram, t, vpn, e, w);
    }
    assert t[p] in t.Values;
  }

  lemma StoreMaps(r0: Ram, f0: seq<nat>, t0: Tree, ram: Ram, free: seq<nat>, t: Tree,
                  lo: nat, n: nat, f: nat, flags: nat)
    requires Maps(r0, f0, t0, ram, free, t, lo, n, f, flags) && Base(ram, free, t)
    requires Leaf(I2(lo + n), I1(lo + n)) in t
    ensures IsTable(ram, t[Leaf(I2(lo + n), I1(lo + n))]) && I0(lo + n) < ENTRIES
    ensures Lookup(ram, t, lo + n) == Lookup(r0, t0, lo + n)
    ensures var r := PutPte(ram, t[Leaf(I2(lo + n), I1(lo + n))], I0(lo + n), MakePte(f + n, flags));
            Base(r, free, t) && Maps(r0, f0, t0, r, free, t, lo, n + 1, f, flags)
  {
    hide TreeOk, Lookup, I2, I1, I0, MakePte, Contained, FreeOk, PutPte;
    StoreOne(ram, free, t, lo + n, MakePte(f + n, flags));
    var r := PutPte(ram, t[Leaf(I2(lo + n), I1(lo + n))], I0(lo + n), MakePte(f + n, flags));
    ContainedTrans(r0, f0, t0, ram, free, t, r, free, t);
  }

  lemma QuietTrans(r0: Ram, f0: seq<nat>, t0: Tree, r1: Ram, f1: seq<nat>, t1: Tree, r2: Ram, f2: seq<nat>, t2: Tree)
    requires Quiet(r0, f0, t0, r1, f1, t1) && Quiet(r1, f1, t1, r2, f2, t2)
    ensures Quiet(r0, f0, t0, r2, f2, t2)
  {
  }

  /** walk takes the first free frame for a missing table page. */
  lemma GrowQuiet(ram: Ram, free: seq<nat>, t: Tree, p: Path)
    requires Base(ram, free, t) && free != [] && !p.Root? && p !in t && Parent(p) in t && Slot(p) < ENTRIES
    ensures CanGrow(ram, t, p, free[0])
    ensures Base(Grow(ram, t, p, free[0]), free[1..], t[p := free[0]])
    ensures Quiet(ram, free, t, Grow(ram, t, p, free[0]), free[1..], t[p := free[0]])
  {
    var f, r, u := free[0], Grow(ram, t, p, free[0]), t[p := free[0]];
    assert f in free;
    GrowOk(ram, t, p, f);
    forall vpn: nat ensures Lookup(r, u, vpn) == Lookup(ram, t, vpn) { GrowLookup(ram, t, p, f, vpn); }
    assert u.Values == t.Values + {f} by {
      assert forall q :: q in t ==> u[q] == t[q];
      assert u[p] == f;
    }
    assert (set g | g in free) == {f} + (set g | g in free[1..]);
    hide TreeOk, Lookup;
    forall g | 0 <= g < |ram| && g !in Pool(free, t) ensures r[g] == ram[g] { assert t[Parent(p)] in t.Values; }
  }

  /** The address of a page-table entry. */
  datatype PteAddr = PteAddr(frame: nat, index: nat)

  /** The path of the table page of the given level on the way to va. */
  function OnPath(level: nat, va: nat): Path
    requires level <= 2
  {
    if level == 2 then Root else if level == 1 then Mid(Px(2, va)) else Leaf(Px(2, va), Px(1, va))
  }

  lemma TableEntry(ram: Ram, t: Tree, level: nat, va: nat)
    requires TreeOk(ram, t) && 1 <= level <= 2 && OnPath(level, va) in t
    ensures var p, q := OnPath(level, va), OnPath(level - 1, va);
            && !q.Root? && Parent(q) == p && Slot(q) == Px(level, va) && IsTable(ram, t[p])
            && var e := ram[t[p]].ptes[Px(level, va)];
            && (V(e) <==> q in t) && (q in t ==> Frame(e) == t[q])
  {
    if level == 2 {
      assert EntryOk(ram[t[Root]].ptes[Px(2, va)], t, Mid(Px(2, va)));
    } else {
      assert EntryOk(ram[t[Mid(Px(2, va))]].ptes[Px(1, va)], t, Leaf(Px(2, va), Px(1, va)));
    }
    if OnPath(level - 1, va) in t { PteFields(t[OnPath(level - 1, va)], 1); }
  }

  /** Physical memory and kmem.freelist. */
  class Machine {
    var ram: Ram
    var free: seq<nat>

    method Kalloc() returns (r: Option<nat>)
      requires FreeOk(ram, free)
      modifies this
      ensures r.None? <==> old(free) == []
      ensures r.None? ==> ram == old(ram) && free == old(free)
      ensures r.Some? ==> r.value == old(free)[0] && free == old(free)[1..]
      ensures r.Some? ==> r.value < |old(ram)| && ram == old(ram)[r.value := Junk]
      ensures FreeOk(ram, free)
    {
      if free == [] {
        return None;
      }
      r := Some(free[0]);
      free := free[1..];
      ram := ram[r.value := Junk];
    }

    method Kfree(f: nat)
      requires f < |ram| && f !in free && FreeOk(ram, free)
      modifies this
      ensures ram == old(ram)[f := Junk] && free == [f] + old(free) && FreeOk(ram, free)
    {
      ram := ram[f := Junk];
      free := [f] + free;
    }

    method Walk(root: nat, va: nat, alloc: bool, ghost t: Tree) returns (pte: Option<PteAddr>, ghost t': Tree)
      requires Base(ram, free, t) && t[Root] == root && va < MAXVPN * PGSIZE
      modifies this
      ensures Base(ram, free, t') && Quiet(old(ram), old(free), t, ram, free, t')
      ensures pte.Some? ==> var p := Leaf(I2(va / PGSIZE), I1(va / PGSIZE));
                            p in t' && pte.value == PteAddr(t'[p], I0(va / PGSIZE))
      ensures !alloc ==> ram == old(ram) && free == old(free) && t' == t
                         && (pte.Some? <==> Leaf(I2(va / PGSIZE), I1(va / PGSIZE)) in t)
      ensures alloc && pte.None? ==> free == []
    {
      hide TreeOk, FreeOk, Quiet, Lookup, I2, I1, I0, Px, V, Frame;
      QuietRefl(ram, free, t);
      Indices(va);
      t' := t;
      var pagetable := root;
      var level := 2;
      while level > 0
        invariant 0 <= level <= 2 && Base(ram, free, t') && Quiet(old(ram), old(free), t, ram, free, t')
        invariant OnPath(level, va) in t' && pagetable == t'[OnPath(level, va)]
        invariant !alloc ==> ram == old(ram) && free == old(free) && t' == t
      {
        TableEntry(ram, t', level, va);
        var e := ram[pagetable].ptes[Px(level, va)];
        if V(e) {
          pagetable := Frame(e);
        } else {
          if !alloc { LeafNeedsMid(ram, t, level, va); return None, t'; }
          ghost var r, fr, q := ram, free, OnPath(level - 1, va);
          var page := Kalloc();
          if page.None? { return None, t'; }
          GrowQuiet(r, fr, t', q);
          QuietTrans(old(ram), old(free), t, r, fr, t', Grow(r, t', q, fr[0]), fr[1..], t'[q := fr[0]]);
          var parent := pagetable;
          pagetable := page.value;
          ram := ram[pagetable := ZeroTable()];
          ram := PutPte(ram, parent, Px(level, va), MakePte(pagetable, 1));
          assert ram == Grow(r, t', q, fr[0]);
          t' := t'[q := pagetable];
        }
        level := level - 1;
      }
      pte := Some(PteAddr(pagetable, Px(0, va)));
    }

    /** Maps size bytes at va to the frames from f on. It stops early, with -1, only when
        a table page is needed and no frame is free; k pages are then mapped. */
    method Mappages(root: nat, va: nat, size: nat, f: nat, perm: nat, ghost t: Tree)
      returns (r: int, ghost k: nat, ghost t': Tree)
      requires Base(ram, free, t) && t[Root] == root && perm < 1024
      requires va % PGSIZE == 0 && size % PGSIZE == 0 && size > 0 && va + size <= MAXVPN * PGSIZE
      requires forall vpn :: va / PGSIZE <= vpn < va / PGSIZE + size / PGSIZE ==> !V(Lookup(ram, t, vpn))
      modifies this
      ensures Base(ram, free, t')
      ensures Maps(old(ram), old(free), t, ram, free, t', va / PGSIZE, k, f, OrV(perm))
      ensures k <= size / PGSIZE && r == (if k == size / PGSIZE then 0 else -1)
      ensures r == -1 ==> free == []
    {
      hide TreeOk, FreeOk, Contained, SameMap, Lookup, I2, I1, I0, V, MakePte, Maps;
      QuietRefl(ram, free, t);
      t', k := t, 0;
      MapsNone(ram, free, t, ram, free, t, va / PGSIZE, f, OrV(perm));
      var a, fr := va, f;
      var last := va + size - PGSIZE;
      while true
        invariant 0 <= k < size / PGSIZE && a == va + k * PGSIZE && fr == f + k
        invariant Base(ram, free, t') && t'[Root] == root
        invariant Maps(old(ram), old(free), t, ram, free, t', va / PGSIZE, k, f, OrV(perm))
        decreases size / PGSIZE - k
      {
        ghost var r1, f1, t1 := ram, free, t';
        var pte: Option<PteAddr>;
        pte, t' := Walk(root, a, true, t');
        assert a / PGSIZE == va / PGSIZE + k;
        MapsQuiet(old(ram), old(free), t, r1, f1, t1, ram, free, t', va / PGSIZE, k, f, OrV(perm));
        RootStays(r1, f1, t1, ram, free, t');
        if pte.None? {
          return -1, k, t';
        }
        StoreMaps(old(ram), old(free), t, ram, free, t', va / PGSIZE, k, f, OrV(perm));
        LeafIsTable(ram, t', a / PGSIZE);
        assert !V(ram[pte.value.frame].ptes[pte.value.index]);
        ram := PutPte(ram, pte.value.frame, pte.value.index, MakePte(fr, OrV(perm)));
        k := k + 1;
        if a == last {
          break;
        }
        a := a + PGSIZE;
        fr := fr + 1;
      }
      r := 0;
    }
  }

  lemma QuietRefl(ram: Ram, free: seq<nat>, t: Tree)
    ensures Quiet(ram, free, t, ram, free, t)
  {
  }

  lemma LeafNeedsMid(ram: Ram, t: Tree, level: nat, va: nat)
    requires TreeOk(ram, t) && 1 <= level <= 2 && OnPath(level - 1, va) !in t
    ensures Leaf(Px(2, va), Px(1, va)) !in t
  {
  }

  /** perm | PTE_V */
  function OrV(perm: nat): nat { if perm % 2 == 1 then perm else perm + 1 }

  lemma RootStays(r1: Ram, f1: seq<nat>, t1: Tree, r2: Ram, f2: seq<nat>, t2: Tree)
    requires Quiet(r1, f1, t1, r2, f2, t2) && Root in t1
    ensures Root in t2 && t2[Root] == t1[Root]
  {
  }

  lemma LeafIsTable(ram: Ram, t: Tree, vpn: nat)
    requires TreeOk(ram, t) && Leaf(I2(vpn), I1(vpn)) in t
    ensures IsTable(ram, t[Leaf(I2(vpn), I1(vpn))]) && I0(vpn) < ENTRIES
    ensures Lookup(ram, t, vpn) == ram[t[Leaf(I2(vpn), I1(vpn))]].ptes[I0(vpn)]
  {
  }
}
