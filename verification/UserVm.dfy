/** The user half of kernel/vm.c. Every method takes the address space it works on as a
    ghost argument and returns what becomes of it. */
module UserVm {
  import opened Wrappers
  import opened PageTable
  import opened Vm
  import opened UserSpace

  /** Nothing outside this address space and the free list is touched, and no frame is
      lost or gained. */
  ghost predicate Conserves(ram: Ram, free: seq<nat>, s: Space, ram': Ram, free': seq<nat>, s': Space) {
    && |ram'| == |ram| && Frames(free', s') == Frames(free, s)
    && forall g :: 0 <= g < |ram| && g !in Frames(free, s) ==> ram'[g] == ram[g]
  }

  /** Pages owned before and after keep their frame and their bytes. */
  ghost predicate KeepsPages(ram: Ram, s: Space, ram': Ram, s': Space) {
    |ram'| == |ram| && forall v :: v in s.user && v in s'.user ==>
      s'.user[v] == s.user[v] && s.user[v] < |ram| && ram'[s.user[v]] == ram[s.user[v]]
  }

  lemma ConservesTrans(r0: Ram, f0: seq<nat>, s0: Space, r1: Ram, f1: seq<nat>, s1: Space, r2: Ram, f2: seq<nat>,
                       s2: Space)
    requires Conserves(r0, f0, s0, r1, f1, s1) && Conserves(r1, f1, s1, r2, f2, s2)
    ensures Conserves(r0, f0, s0, r2, f2, s2)
  {
    hide Frames;
  }

  predicate InRange(v: nat, lo: nat, n: nat) { lo <= v < lo + n }

  function Minus(user: map<nat, nat>, lo: nat, n: nat): map<nat, nat> {
    map v | v in user && !InRange(v, lo, n) :: user[v]
  }

  /** The effect of uvmunmap on n pages from lo, freeing the frames of owned ones. */
  ghost predicate Unmapped(ram: Ram, free: seq<nat>, s: Space, ram': Ram, free': seq<nat>, s': Space, lo: nat, n: nat) {
    && s' == Space(s.node, Minus(s.user, lo, n))
    && Conserves(ram, free, s, ram', free', s') && KeepsPages(ram, s, ram', s')
    && forall w: nat :: Lookup(ram', s.node, w) == if InRange(w, lo, n) then 0 else Lookup(ram, s.node, w)
  }

  /** The frames of n pages from lo. */
  function RangeFrames(user: map<nat, nat>, lo: nat, n: nat): (r: set<nat>)
    ensures |r| <= n && forall v :: v in user && InRange(v, lo, n) ==> user[v] in r
  {
    if n == 0 then {} else RangeFrames(user, lo, n - 1) + if lo + n - 1 in user then {user[lo + n - 1]} else {}
  }

  lemma FreedWas(ram: Ram, free: seq<nat>, s: Space, ram': Ram, free': seq<nat>, s': Space, lo: nat, n: nat, f: nat)
    requires Unmapped(ram, free, s, ram', free', s', lo, n) && SpaceOk(ram', free', s') && f in free'
    ensures f in free || f in RangeFrames(s.user, lo, n)
  {
    hide Lookup, V, U, TreeOk, MapsTo, IsData, FreeOk, Separate, RangeFrames;
    assert f in Frames(free', s') && f in Frames(free, s);
    if f !in free {
      assert f !in s.node.Values;
      var v :| v in s.user && s.user[v] == f;
    }
  }

  /** Unmapping n pages frees at most n frames. */
  lemma UnmappedFrees(ram: Ram, free: seq<nat>, s: Space, ram': Ram, free': seq<nat>, s': Space, lo: nat, n: nat)
    requires Unmapped(ram, free, s, ram', free', s', lo, n) && SpaceOk(ram', free', s')
    ensures |free'| <= |free| + n
  {
    hide Unmapped, TreeOk, PageOk, Separate, Lookup, RangeFrames;
    forall i | 0 <= i < |free'| ensures free'[i] in Elems(free) + RangeFrames(s.user, lo, n) {
      FreedWas(ram, free, s, ram', free', s', lo, n, free'[i]);
    }
    DistinctFit(free', Elems(free) + RangeFrames(s.user, lo, n));
    ElemsFit(free);
  }

  lemma UnmappedNone(ram: Ram, free: seq<nat>, s: Space, lo: nat)
    requires SpaceOk(ram, free, s)
    ensures Unmapped(ram, free, s, ram, free, s, lo, 0)
  {
    hide Base, Lookup, V, U;
    assert Minus(s.user, lo, 0) == s.user;
    forall v | v in s.user ensures s.user[v] < |ram| { assert PageOk(ram, free, s, v); }
  }

  lemma UnmappedOwned(r0: Ram, f0: seq<nat>, s0: Space, ram: Ram, free: seq<nat>, s: Space, lo: nat, n: nat)
    requires Unmapped(r0, f0, s0, ram, free, s, lo, n) && SpaceOk(ram, free, s) && lo + n in s.user
    ensures var f := s.user[lo + n];
            && f < |ram| && f !in free && LeafOf(lo + n) in s.node && f != s.node[LeafOf(lo + n)]
            && IsTable(ram, s.node[LeafOf(lo + n)]) && I0(lo + n) < ENTRIES
            && var r := PutPte(ram[f := Junk], s.node[LeafOf(lo + n)], I0(lo + n), 0);
            var s' := Space(s.node, s.user - {lo + n});
            SpaceOk(r, [f] + free, s') && Unmapped(r0, f0, s0, r, [f] + free, s', lo, n + 1)
  {
    hide Base, Lookup, V, U, Frames, PutPte, I0, LeafOf, PageOk, SpaceOk, Separate;
    ReleaseOk(ram, free, s, lo + n);
    var f := s.user[lo + n];
    var r, s' := PutPte(ram[f := Junk], s.node[LeafOf(lo + n)], I0(lo + n), 0), Space(s.node, s.user - {lo + n});
    assert Minus(s0.user, lo, n + 1) == Minus(s0.user, lo, n) - {lo + n};
    ConservesTrans(r0, f0, s0, ram, free, s, r, [f] + free, s');
  }

  lemma UnmappedBorrowed(r0: Ram, f0: seq<nat>, s0: Space, ram: Ram, free: seq<nat>, s: Space, lo: nat, n: nat)
    requires Unmapped(r0, f0, s0, ram, free, s, lo, n) && SpaceOk(ram, free, s)
    requires lo + n !in s.user && V(Lookup(ram, s.node, lo + n))
    ensures LeafOf(lo + n) in s.node && IsTable(ram, s.node[LeafOf(lo + n)]) && I0(lo + n) < ENTRIES
    ensures var r := PutPte(ram, s.node[LeafOf(lo + n)], I0(lo + n), 0);
            SpaceOk(r, free, s) && Unmapped(r0, f0, s0, r, free, s, lo, n + 1)
  {
    hide Base, Lookup, V, U, Frames, PutPte, I0, LeafOf, PageOk;
    ZeroPte();
    UnmapOk(ram, free, s, lo + n, 0);
    var r := PutPte(ram, s.node[LeafOf(lo + n)], I0(lo + n), 0);
    assert Minus(s0.user, lo, n + 1) == Minus(s0.user, lo, n);
    ConservesTrans(r0, f0, s0, ram, free, s, r, free, s);
  }

  /** Removes n pages from va on; owned ones are freed, the others must not be. */
  method Uvmunmap(m: Machine, root: nat, va: nat, n: nat, doFree: bool, ghost s: Space) returns (ghost s': Space)
    requires SpaceOk(m.ram, m.free, s) && Root in s.node && s.node[Root] == root && va % PGSIZE == 0
    requires va + n * PGSIZE <= MAXVPN * PGSIZE
    requires forall v :: va / PGSIZE <= v < va / PGSIZE + n ==>
               MapsTo(Lookup(m.ram, s.node, v), Frame(Lookup(m.ram, s.node, v))) && (doFree <==> v in s.user)
    modifies m
    ensures SpaceOk(m.ram, m.free, s')
    ensures Unmapped(old(m.ram), old(m.free), s, m.ram, m.free, s', va / PGSIZE, n)
  {
    hide Base, Unmapped, PageOk, Quiet, Lookup, I2, I1, I0, V, Flags, Frame, Separate, FreeOk;
    ghost var lo, k := va / PGSIZE, 0;
    UnmappedNone(m.ram, m.free, s, lo);
    s' := s;
    var a := va;
    while a < va + n * PGSIZE
      invariant k <= n && a == va + k * PGSIZE && SpaceOk(m.ram, m.free, s') && s'.node == s.node
      invariant Unmapped(old(m.ram), old(m.free), s, m.ram, m.free, s', lo, k)
    {
      UnmapTurn(old(m.ram), old(m.free), s, m.ram, m.free, s', lo, k, n, doFree);
      assert a / PGSIZE == lo + k;
      var pte: Option<PteAddr>;
      ghost var t;
      pte, t := m.Walk(root, a, false, s'.node);
      var at := pte.value;
      var e := m.ram[at.frame].ptes[at.index];
      if doFree {
        m.Kfree(Frame(e));
        s' := Space(s'.node, s'.user - {lo + k});
      }
      m.ram := PutPte(m.ram, at.frame, at.index, 0);
      a := a + PGSIZE;
      k := k + 1;
    }
  }

  /** What one turn of uvmunmap's loop meets and does. */
  lemma UnmapTurn(r0: Ram, f0: seq<nat>, s0: Space, ram: Ram, free: seq<nat>, s: Space, lo: nat, k: nat, n: nat,
                  doFree: bool)
    requires Unmapped(r0, f0, s0, ram, free, s, lo, k) && SpaceOk(ram, free, s) && k < n
    requires forall v :: lo <= v < lo + n ==>
               MapsTo(Lookup(r0, s0.node, v), Frame(Lookup(r0, s0.node, v))) && (doFree <==> v in s0.user)
    ensures LeafOf(lo + k) in s.node && IsTable(ram, s.node[LeafOf(lo + k)]) && I0(lo + k) < ENTRIES
    ensures FreeOk(ram, free)
    ensures var e := ram[s.node[LeafOf(lo + k)]].ptes[I0(lo + k)];
            && V(e) && IsLeaf(e) && Flags(e) != 1
            && (if doFree then
                  && lo + k in s.user && Frame(e) == s.user[lo + k] < |ram| && Frame(e) !in free
                  && Frame(e) != s.node[LeafOf(lo + k)]
                  && var r := PutPte(ram[Frame(e) := Junk], s.node[LeafOf(lo + k)], I0(lo + k), 0);
                  var s' := Space(s.node, s.user - {lo + k});
                  SpaceOk(r, [Frame(e)] + free, s') && Unmapped(r0, f0, s0, r, [Frame(e)] + free, s', lo, k + 1)
                else
                  var r := PutPte(ram, s.node[LeafOf(lo + k)], I0(lo + k), 0);
                  SpaceOk(r, free, s) && Unmapped(r0, f0, s0, r, free, s, lo, k + 1))
  {
    hide TreeOk, V, U, Frame, Flags, IsLeaf, I2, I1, I0, Separate, Lookup, PutPte;
    var v := lo + k;
    assert Lookup(ram, s.node, v) == Lookup(r0, s0.node, v);
    assert v in s.user <==> doFree;
    MappedHasLeaf(ram, s.node, v);
    FlagBits(Lookup(ram, s.node, v));
    if doFree {
      assert PageOk(ram, free, s, v);
      UnmappedOwned(r0, f0, s0, ram, free, s, lo, k);
    } else {
      UnmappedBorrowed(r0, f0, s0, ram, free, s, lo, k);
    }
  }
}
