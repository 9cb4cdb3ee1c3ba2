/** uvmalloc, uvmdealloc and growproc: changing the size of a process. */
module UserGrow {
  import opened Wrappers
  import opened PageTable
  import opened Vm
  import opened UserSpace
  import opened UserVm

  const PTE_R: nat := 2
  const PTE_U: nat := 16
  /** The page number of TRAPFRAME; the trampoline is the page above it. */
  const TRAPFRAME: nat := MAXVPN - 2

  /** PGROUNDUP(sz) / PGSIZE */
  function Pages(sz: nat): nat { (sz + PGSIZE - 1) / PGSIZE }

  function ZeroPage(): (p: Page)
    ensures IsData(p) && forall i :: 0 <= i < PGSIZE ==> p.data[i] == 0
  {
    Bytes(seq<Byte>(PGSIZE, _ => 0))
  }

  /** The owned pages are exactly pages 0..n, and below TRAPFRAME nothing else is mapped. */
  ghost predicate Covers(ram: Ram, s: Space, n: nat) {
    && (forall v: nat :: v in s.user <==> v < n)
    && (forall v: nat :: v < TRAPFRAME && V(Lookup(ram, s.node, v)) ==> v in s.user)
  }

  /** A process image of n pages. Physical memory has fewer frames than the user part of
      the address space has pages. */
  ghost predicate Image(ram: Ram, free: seq<nat>, s: Space, n: nat) {
    SpaceOk(ram, free, s) && Covers(ram, s, n) && |ram| <= TRAPFRAME
  }

  /** The frames of pages 0..n, all different. */
  ghost function FirstFrames(user: map<nat, nat>, n: nat): (r: set<nat>)
    requires Separate(user) && forall v: nat :: v < n ==> v in user
    ensures |r| == n && forall f :: f in r ==> exists v: nat :: v < n && user[v] == f
  {
    if n == 0 then {}
    else
      var a := FirstFrames(user, n - 1);
      assert user[n - 1] !in a;
      a + {user[n - 1]}
  }

  /** An image has fewer pages than there are frames, so it ends below TRAPFRAME. */
  lemma ImageFits(ram: Ram, free: seq<nat>, s: Space, n: nat)
    requires Image(ram, free, s, n)
    ensures n < |ram| && n < TRAPFRAME && !V(Lookup(ram, s.node, n))
  {
    hide TreeOk, Lookup, V, U, Below, FreeOk, FirstFrames;
    var used := FirstFrames(s.user, n);
    var root := s.node[Root];
    RootFrame(ram, free, s.node);
    forall f | f in used ensures f in Below(|ram|) && f != root {
      var v: nat :| v < n && s.user[v] == f;
      assert PageOk(ram, free, s, v);
    }
    SubsetCard(used + {root}, Below(|ram|));
  }

  lemma RootFrame(ram: Ram, free: seq<nat>, t: Tree)
    requires Base(ram, free, t)
    ensures t[Root] in t.Values && t[Root] < |ram|
  {
  }

  /** After k turns of uvmalloc's loop: k zeroed pages from lo on, all else as before. */
  ghost predicate Grown(r0: Ram, f0: seq<nat>, s0: Space, ram: Ram, free: seq<nat>, s: Space, lo: nat, k: nat,
                        flags: nat) {
    && Image(ram, free, s, lo + k) && Conserves(r0, f0, s0, ram, free, s) && KeepsPages(r0, s0, ram, s)
    && (forall v: nat :: Lookup(ram, s.node, v)
                         == if InRange(v, lo, k) && v in s.user then MakePte(s.user[v], flags)
                             else Lookup(r0, s0.node, v))
    && (forall v :: v in s.user && InRange(v, lo, k) ==> s.user[v] < |ram| && ram[s.user[v]] == ZeroPage())
    && (forall v :: v in s0.user ==> v < lo)
    && Root in s0.node && Root in s.node && s.node[Root] == s0.node[Root]
  }

  lemma GrownNone(ram: Ram, free: seq<nat>, s: Space, lo: nat, flags: nat)
    requires Image(ram, free, s, lo)
    ensures Grown(ram, free, s, ram, free, s, lo, 0, flags)
  {
    hide Lookup, V, U;
    forall v | v in s.user ensures s.user[v] < |ram| { assert PageOk(ram, free, s, v); }
  }

  lemma ContainedConserves(ram: Ram, free: seq<nat>, s: Space, r1: Ram, r2: Ram, f2: seq<nat>, t2: Tree, s2: Space)
    requires free != [] && free[0] < |ram| && |r1| == |ram|
    requires (forall g :: 0 <= g < |ram| && g != free[0] ==> r1[g] == ram[g])
    requires Contained(r1, free[1..], s.node, r2, f2, t2)
    requires Frames(f2, s2) == Frames(free, s) == Frames(free[1..], s) + {free[0]}
    ensures Conserves(ram, free, s, r2, f2, s2)
  {
  }

  /** kalloc, memset and mappages of one page. */
  lemma TakeAndMap(ram: Ram, free: seq<nat>, s: Space, p: Page, r2: Ram, f2: seq<nat>, t2: Tree, v: nat, flags: nat)
    requires SpaceOk(ram, free, s) && free != [] && free[0] < |ram| && IsData(p)
    requires Maps(ram[free[0] := p], free[1..], s.node, r2, f2, t2, v, 1, free[0], flags) && Base(r2, f2, t2)
    requires v < MAXVPN && flags < 1024 && V(flags) && IsLeaf(flags) && !V(Lookup(ram, s.node, v))
    ensures var s2 := Space(t2, s.user[v := free[0]]);
            && v !in s.user && SpaceOk(r2, f2, s2) && Conserves(ram, free, s, r2, f2, s2) && KeepsPages(ram, s, r2, s2)
            && |r2| == |ram| && r2[free[0]] == p
            && (forall w: nat :: Lookup(r2, t2, w) == if w == v then MakePte(free[0], flags)
                else Lookup(ram, s.node, w))
            && (Root in s.node ==> Root in t2 && t2[Root] == s.node[Root])
  {
    hide Base, Lookup, V, U, Pool, Separate, MakePte;
    var f, r1 := free[0], ram[free[0] := p];
    TakeOk(ram, free, s, p);
    MapUserOk(r1, free[1..], s, r2, f2, t2, v, f, flags);
    ContainedConserves(ram, free, s, r1, r2, f2, t2, Space(t2, s.user[v := f]));
    forall w | w in s.user ensures s.user[w] < |ram| && r2[s.user[w]] == ram[s.user[w]] && s.user[w] != f {
      assert s.user[w] in s.user.Values;
    }
  }

  /** The same when mappages finds no frame for a table page, and kfree undoes kalloc. */
  lemma TakeAndGive(ram: Ram, free: seq<nat>, s: Space, p: Page, r2: Ram, f2: seq<nat>, t2: Tree, v: nat, f: nat,
                    flags: nat)
    requires SpaceOk(ram, free, s) && free != [] && f == free[0] < |ram|
    requires Maps(ram[f := p], free[1..], s.node, r2, f2, t2, v, 0, f, flags) && Base(r2, f2, t2)
    ensures f < |r2| && f !in f2
    ensures var r3, f3, s3 := r2[f := Junk], [f] + f2, Space(t2, s.user);
            && SpaceOk(r3, f3, s3) && Conserves(ram, free, s, r3, f3, s3) && KeepsPages(ram, s, r3, s3)
            && SameMap(ram, s.node, r3, t2)
            && (Root in s.node ==> Root in t2 && t2[Root] == s.node[Root])
  {
    hide Base, Lookup, V, U, Separate, MakePte;
    var r1 := ram[f := p];
    TakeOk(ram, free, s, p);
    assert Quiet(r1, free[1..], s.node, r2, f2, t2);
    QuietOk(r1, free[1..], s, r2, f2, t2);
    GiveOk(r2, f2, Space(t2, s.user), f);
    hide Pool;
    forall w | w in s.user ensures s.user[w] < |ram| && r2[f := Junk][s.user[w]] == ram[s.user[w]] {
      assert s.user[w] in s.user.Values;
    }
  }

  lemma KeepsTrans(r0: Ram, s0: Space, r1: Ram, s1: Space, r2: Ram, s2: Space)
    requires KeepsPages(r0, s0, r1, s1) && KeepsPages(r1, s1, r2, s2)
    requires forall v :: v in s0.user && v in s2.user ==> v in s1.user
    ensures KeepsPages(r0, s0, r2, s2)
  {
  }

  lemma GrownMore(r0: Ram, f0: seq<nat>, s0: Space, ram: Ram, free: seq<nat>, s: Space, lo: nat, k: nat, flags: nat,
                  r2: Ram, f2: seq<nat>, t2: Tree)
    requires Grown(r0, f0, s0, ram, free, s, lo, k, flags) && free != [] && free[0] < |ram|
    requires Maps(ram[free[0] := ZeroPage()], free[1..], s.node, r2, f2, t2, lo + k, 1, free[0], flags)
    requires Base(r2, f2, t2)
    requires flags < 1024 && V(flags) && IsLeaf(flags)
    ensures Grown(r0, f0, s0, r2, f2, Space(t2, s.user[lo + k := free[0]]), lo, k + 1, flags)
  {
    hide Base, Lookup, V, U, Frames, Separate, MakePte, SpaceOk, ZeroPage, Maps;
    ImageFits(ram, free, s, lo + k);
    TakeAndMap(ram, free, s, ZeroPage(), r2, f2, t2, lo + k, flags);
    var s2 := Space(t2, s.user[lo + k := free[0]]);
    ConservesTrans(r0, f0, s0, ram, free, s, r2, f2, s2);
    KeepsTrans(r0, s0, ram, s, r2, s2);
  }

  lemma GrownStuck(r0: Ram, f0: seq<nat>, s0: Space, ram: Ram, free: seq<nat>, s: Space, lo: nat, k: nat, flags: nat,
                   r2: Ram, f2: seq<nat>, t2: Tree, f: nat)
    requires Grown(r0, f0, s0, ram, free, s, lo, k, flags) && free != [] && f == free[0] < |ram|
    requires Maps(ram[f := ZeroPage()], free[1..], s.node, r2, f2, t2, lo + k, 0, f, flags) && Base(r2, f2, t2)
    ensures f < |r2| && f !in f2
    ensures Grown(r0, f0, s0, r2[f := Junk], [f] + f2, Space(t2, s.user), lo, k, flags)
  {
    hide Base, Lookup, V, U, Frames, Separate, MakePte, SpaceOk, ZeroPage, Maps;
    TakeAndGive(ram, free, s, ZeroPage(), r2, f2, t2, lo + k, f, flags);
    var s2 := Space(t2, s.user);
    ConservesTrans(r0, f0, s0, ram, free, s, r2[f := Junk], [f] + f2, s2);
    KeepsTrans(r0, s0, ram, s, r2[f := Junk], s2);
  }

  /** Unmapping the new pages brings back the image as it was. */
  lemma GrownUndo(r0: Ram, f0: seq<nat>, s0: Space, ram: Ram, free: seq<nat>, s: Space, lo: nat, k: nat, flags: nat,
                  r2: Ram, f2: seq<nat>, s2: Space)
    requires Grown(r0, f0, s0, ram, free, s, lo, k, flags) && Image(r0, f0, s0, lo)
    requires Unmapped(ram, free, s, r2, f2, s2, lo, k) && SpaceOk(r2, f2, s2)
    ensures s2.user == s0.user && Image(r2, f2, s2, lo) && Conserves(r0, f0, s0, r2, f2, s2)
    ensures KeepsPages(r0, s0, r2, s2)
    ensures SameMap(r0, s0.node, r2, s2.node)
  {
    hide SpaceOk, Lookup, V, U, Frames, MakePte, ZeroPage;
    NewPagesWereFree(r0, f0, s0, ram, free, s, lo, k);
    assert s2.user == s0.user;
    ConservesTrans(r0, f0, s0, ram, free, s, r2, f2, s2);
    KeepsTrans(r0, s0, ram, s, r2, s2);
  }

  lemma NewPagesWereFree(r0: Ram, f0: seq<nat>, s0: Space, ram: Ram, free: seq<nat>, s: Space, lo: nat, k: nat)
    requires Image(r0, f0, s0, lo) && Image(ram, free, s, lo + k) && |ram| == |r0|
    ensures forall v: nat :: InRange(v, lo, k) ==> Lookup(r0, s0.node, v) == 0
  {
    ImageFits(ram, free, s, lo + k);
  }

  lemma OwnedPagesMapped(ram: Ram, free: seq<nat>, s: Space, v: nat)
    requires SpaceOk(ram, free, s) && v in s.user
    ensures MapsTo(Lookup(ram, s.node, v), Frame(Lookup(ram, s.node, v)))
  {
    assert PageOk(ram, free, s, v);
  }

  /** Shrinks an image: pages from PGROUNDUP(newsz) on are unmapped and freed. */
  method Uvmdealloc(m: Machine, root: nat, oldsz: nat, newsz: nat, ghost s: Space) returns (r: nat, ghost s': Space)
    requires Image(m.ram, m.free, s, Pages(oldsz)) && Root in s.node && s.node[Root] == root
    modifies m
    ensures r == if newsz >= oldsz then oldsz else newsz
    ensures SpaceOk(m.ram, m.free, s') && Image(m.ram, m.free, s', Pages(r))
    ensures Unmapped(old(m.ram), old(m.free), s, m.ram, m.free, s', Pages(r), Pages(oldsz) - Pages(r))
  {
    hide Base, Lookup, V, U, Frames, Separate, PageOk;
    s' := s;
    if newsz >= oldsz {
      UnmappedNone(m.ram, m.free, s, Pages(oldsz));
      return oldsz, s;
    }
    assert Pages(newsz) <= Pages(oldsz);
    if Pages(newsz) < Pages(oldsz) {
      ImageFits(m.ram, m.free, s, Pages(oldsz));
      forall v | Pages(newsz) <= v < Pages(oldsz)
        ensures MapsTo(Lookup(m.ram, s.node, v), Frame(Lookup(m.ram, s.node, v))) && v in s.user
      {
        OwnedPagesMapped(m.ram, m.free, s, v);
      }
      var npages := Pages(oldsz) - Pages(newsz);
      s' := Uvmunmap(m, root, Pages(newsz) * PGSIZE, npages, true, s);
      ShrunkImage(old(m.ram), old(m.free), s, m.ram, m.free, s', Pages(newsz), npages);
    } else {
      UnmappedNone(m.ram, m.free, s, Pages(oldsz));
    }
    return newsz, s';
  }

  /** Grows an image page by page. It fails only for want of frames, and then the address
      space is as it was: same pages, same bytes, same flat map; only table pages may
      have been added. */
  method Uvmalloc(m: Machine, root: nat, oldsz: nat, newsz: nat, xperm: nat, ghost s: Space)
    returns (r: nat, ghost ok: bool, ghost s': Space)
    requires Image(m.ram, m.free, s, Pages(oldsz)) && Root in s.node && s.node[Root] == root
    requires xperm in {0, 4, 8, 12}
    modifies m
    ensures newsz < oldsz ==> r == oldsz && ok && s' == s && m.ram == old(m.ram) && m.free == old(m.free)
    ensures newsz >= oldsz ==> r == if ok then newsz else 0
    ensures newsz >= oldsz && ok ==>
              Grown(old(m.ram), old(m.free), s, m.ram, m.free, s', Pages(oldsz), Pages(newsz) - Pages(oldsz),
                    19 + xperm)
    ensures !ok ==> s'.user == s.user && SameMap(old(m.ram), s.node, m.ram, s'.node)
    ensures !ok ==> |m.free| <= Pages(newsz) - Pages(oldsz)
    ensures Image(m.ram, m.free, s', Pages(if ok && newsz >= oldsz then newsz else oldsz))
    ensures Root in s'.node && s'.node[Root] == root
    ensures Conserves(old(m.ram), old(m.free), s, m.ram, m.free, s') && KeepsPages(old(m.ram), s, m.ram, s')
  {
    hide Base, Lookup, V, U, Frames, Separate, PageOk, Maps, FreeOk, MakePte, ZeroPage, Covers;
    ghost var lo, k, flags := Pages(oldsz), 0, 19 + xperm;
    FlagsOk(xperm);
    GrownNone(m.ram, m.free, s, lo, flags);
    s' := s;
    if newsz < oldsz {
      return oldsz, true, s;
    }
    var a := Pages(oldsz) * PGSIZE;
    while a < newsz
      invariant a == (lo + k) * PGSIZE && lo + k <= Pages(newsz)
      invariant Grown(old(m.ram), old(m.free), s, m.ram, m.free, s', lo, k, flags)
    {
      ghost var r1, f1, s1 := m.ram, m.free, s';
      ImageFits(m.ram, m.free, s', lo + k);
      BaseFree(m.ram, m.free, s'.node);
      var mem := m.Kalloc();
      if mem.None? {
        s' := Undo(m, root, a, oldsz, old(m.ram), old(m.free), s, k, flags, s');
        return 0, false, s';
      }
      TakeBase(r1, f1, s1.node, ZeroPage());
      TakeOk(r1, f1, s1, ZeroPage());
      m.ram := m.ram[mem.value := ZeroPage()];
      var e: int;
      ghost var n, t;
      e, n, t := m.Mappages(root, a, PGSIZE, mem.value, PTE_R + PTE_U + xperm, s'.node);
      if e != 0 {
        GrownStuck(old(m.ram), old(m.free), s, r1, f1, s1, lo, k, flags, m.ram, m.free, t, mem.value);
        BaseFree(m.ram, m.free, t);
        m.Kfree(mem.value);
        s' := Space(t, s'.user);
        s' := Undo(m, root, a, oldsz, old(m.ram), old(m.free), s, k, flags, s');
        return 0, false, s';
      }
      GrownMore(old(m.ram), old(m.free), s, r1, f1, s1, lo, k, flags, m.ram, m.free, t);
      s' := Space(t, s'.user[lo + k := mem.value]);
      a := a + PGSIZE;
      k := k + 1;
    }
    return newsz, true, s';
  }

  /** uvmdealloc(pagetable, a, oldsz), as uvmalloc calls it to back out. */
  method Undo(m: Machine, root: nat, a: nat, oldsz: nat, ghost r0: Ram, ghost f0: seq<nat>, ghost s0: Space,
              ghost k: nat, ghost flags: nat, ghost s: Space)
    returns (ghost s': Space)
    requires Grown(r0, f0, s0, m.ram, m.free, s, Pages(oldsz), k, flags) && Image(r0, f0, s0, Pages(oldsz))
    requires s.node[Root] == root && a == (Pages(oldsz) + k) * PGSIZE
    modifies m
    ensures s'.user == s0.user && Image(m.ram, m.free, s', Pages(oldsz)) && SameMap(r0, s0.node, m.ram, s'.node)
    ensures Conserves(r0, f0, s0, m.ram, m.free, s') && KeepsPages(r0, s0, m.ram, s')
    ensures |m.free| <= |old(m.free)| + k && s'.node == s.node
  {
    hide SpaceOk, Lookup, V, U, Frames, Covers, Conserves, KeepsPages;
    ghost var r1, f1 := m.ram, m.free;
    var r;
    assert Pages(a) == Pages(oldsz) + k && Pages(Pages(oldsz) * PGSIZE) == Pages(oldsz);
    r, s' := Uvmdealloc(m, root, a, Pages(oldsz) * PGSIZE, s);
    UnmappedFrees(r1, f1, s, m.ram, m.free, s', Pages(oldsz), k);
    GrownUndo(r0, f0, s0, r1, f1, s, Pages(oldsz), k, flags, m.ram, m.free, s');
  }

  /** Pages lo..hi are new: owned, for the user to read and write but not to execute, and all zero.
      Every other page is mapped as before. */
  ghost predicate NewPages(r0: Ram, s0: Space, ram: Ram, s: Space, lo: nat, hi: nat) {
    && (forall v: nat :: lo <= v < hi ==> v in s.user && ZeroAt(ram, s, v) && UserData(Lookup(ram, s.node, v)))
    && (forall v: nat :: v < lo || hi <= v ==> Lookup(ram, s.node, v) == Lookup(r0, s0.node, v))
  }

  predicate ZeroAt(ram: Ram, s: Space, v: nat)
    requires v in s.user
  {
    s.user[v] < |ram| && IsData(ram[s.user[v]]) && forall i :: 0 <= i < PGSIZE ==> ram[s.user[v]].data[i] == 0
  }

  predicate UserData(pte: nat) { V(pte) && U(pte) && R(pte) && W(pte) && !X(pte) }

  lemma DataFlags(frame: nat)
    ensures UserData(MakePte(frame, 23))
  {
    PteFields(frame, 23);
  }

  lemma GrownNew(r0: Ram, f0: seq<nat>, s0: Space, ram: Ram, free: seq<nat>, s: Space, lo: nat, k: nat)
    requires Grown(r0, f0, s0, ram, free, s, lo, k, 23)
    ensures NewPages(r0, s0, ram, s, lo, lo + k)
  {
    hide SpaceOk, Lookup, MakePte, ZeroPage, UserData, Conserves, KeepsPages;
    forall v: nat | lo <= v < lo + k ensures v in s.user && ZeroAt(ram, s, v) && UserData(Lookup(ram, s.node, v)) {
      DataFlags(s.user[v]);
    }
  }

  /** growproc: the size and the image change together, or not at all. A decrease past
      zero wraps around to a size above the old one, which uvmdealloc ignores. */
  method Growproc(m: Machine, root: nat, sz: nat, n: int, ghost s: Space) returns (r: int, sz': nat, ghost s': Space)
    requires Image(m.ram, m.free, s, Pages(sz)) && Root in s.node && s.node[Root] == root
    requires -0x8000_0000 <= n < 0x8000_0000
    modifies m
    ensures Image(m.ram, m.free, s', Pages(sz')) && Conserves(old(m.ram), old(m.free), s, m.ram, m.free, s')
    ensures KeepsPages(old(m.ram), s, m.ram, s') && Root in s'.node && s'.node[Root] == root
    ensures r == 0 ==> sz' == if sz + n >= 0 then sz + n else sz
    ensures r == 0 && n > 0 ==> NewPages(old(m.ram), s, m.ram, s', Pages(sz), Pages(sz'))
    ensures n <= 0 ==>
              r == 0 && Unmapped(old(m.ram), old(m.free), s, m.ram, m.free, s', Pages(sz'), Pages(sz) - Pages(sz'))
    ensures r != 0 ==> r == -1 && n > 0 && sz' == sz && s'.user == s.user && SameMap(old(m.ram), s.node, m.ram, s'.node)
    ensures r != 0 ==> |m.free| <= Pages(sz + n) - Pages(sz)
  {
    hide SpaceOk, Lookup, V, U, Frames, Covers;
    sz', s' := sz, s;
    if n > 0 {
      ghost var ok;
      var z;
      z, ok, s' := Uvmalloc(m, root, sz, sz + n, 4, s);
      if z == 0 {
        return -1, sz, s';
      }
      GrownNew(old(m.ram), old(m.free), s, m.ram, m.free, s', Pages(sz), Pages(sz + n) - Pages(sz));
      sz' := z;
    } else if n < 0 {
      var newsz := if sz + n >= 0 then sz + n else sz + n + 0x1_0000_0000_0000_0000;
      sz', s' := Uvmdealloc(m, root, sz, newsz, s);
    } else {
      UnmappedNone(m.ram, m.free, s, Pages(sz));
    }
    r := 0;
  }

  lemma BaseFree(ram: Ram, free: seq<nat>, t: Tree)
    requires Base(ram, free, t)
    ensures FreeOk(ram, free)
  {
  }

  lemma TakeBase(ram: Ram, free: seq<nat>, t: Tree, p: Page)
    requires Base(ram, free, t) && free != []
    ensures free[0] < |ram| && ram[free[0] := Junk][free[0] := p] == ram[free[0] := p]
  {
  }

  /** PTE_R | PTE_U | xperm | PTE_V */
  lemma FlagsOk(xperm: nat)
    requires xperm in {0, 4, 8, 12}
    ensures OrV(PTE_R + PTE_U + xperm) == 19 + xperm && V(19 + xperm) && IsLeaf(19 + xperm)
  {
  }

  lemma ShrunkImage(r0: Ram, f0: seq<nat>, s0: Space, ram: Ram, free: seq<nat>, s: Space, lo: nat, n: nat)
    requires Image(r0, f0, s0, lo + n) && Unmapped(r0, f0, s0, ram, free, s, lo, n) && SpaceOk(ram, free, s)
    ensures Image(ram, free, s, lo)
  {
    ZeroPte();
    hide Base, Lookup, V, U, Frames, Separate, PageOk;
  }
}
