/** Which inode owns which data block, and what a file contains. */
module FsOwnership {
  import opened Blocks
  import opened FsLayout

  /** The pointer slots of an inode: 0..11 direct, 12 the indirect block, 13..268 the
      entries of the indirect block. */
  const SLOTS: nat := 269

  datatype Slot = Slot(inum: nat, k: nat)

  /** The disk, the inodes (those in memory where they are newer), and for every
      allocated data block the slot that points at it. */
  datatype View = View(disk: Disk, tab: seq<Inode>, owner: map<nat, Slot>)

  predicate InData(sb: Superblock, b: nat) { sb.datastart <= b < sb.size }

  predicate GoodInode(sb: Superblock, n: Inode) {
    |n.addrs| == NDIRECT + 1 && (n.addrs[NDIRECT] == 0 || InData(sb, n.addrs[NDIRECT]))
  }

  ghost predicate Shape(sb: Superblock, v: View) {
    Fits(sb, v.disk) && |v.tab| == sb.ninodes && forall i :: 0 <= i < |v.tab| ==> GoodInode(sb, v.tab[i])
  }

  /** The block that slot k of inode n points at, 0 for none. */
  function Ref(d: Disk, n: Inode, k: nat): nat
    requires |n.addrs| == NDIRECT + 1 && n.addrs[NDIRECT] < |d| && k < SLOTS
  {
    if k <= NDIRECT then n.addrs[k]
    else if n.addrs[NDIRECT] == 0 then 0
    else Word(d[n.addrs[NDIRECT]], k - NDIRECT - 1)
  }

  /** Slots of inode i that itrunc has released but not erased: the first m entries
      of its indirect block. */
  predicate Gone(i: nat, m: nat, j: nat, k: nat) { j == i && NDIRECT < k <= NDIRECT + m }

  /** The set bits are exactly the metadata blocks and the owned blocks, and a block's
      owner is the one slot that points at it. */
  ghost predicate Owned(sb: Superblock, v: View, i: nat, m: nat) { Shape(sb, v) && Exact(sb, v, i, m) }

  ghost predicate Exact(sb: Superblock, v: View, i: nat, m: nat)
    requires Shape(sb, v)
  {
    && (forall b :: 0 <= b < sb.size ==> (Used(sb, v.disk, b) <==> b < sb.datastart || b in v.owner))
    && (forall b :: b in v.owner ==>
          && InData(sb, b) && v.owner[b].inum < |v.tab| && v.owner[b].k < SLOTS
          && Ref(v.disk, v.tab[v.owner[b].inum], v.owner[b].k) == b
          && !Gone(i, m, v.owner[b].inum, v.owner[b].k))
    && (forall j, k :: 0 <= j < |v.tab| && 0 <= k < SLOTS && !Gone(i, m, j, k) ==>
          || Ref(v.disk, v.tab[j], k) == 0
          || (Ref(v.disk, v.tab[j], k) in v.owner && v.owner[Ref(v.disk, v.tab[j], k)] == Slot(j, k)))
  }

  ghost predicate Inv(sb: Superblock, v: View) { Owned(sb, v, 0, 0) }

  /** What the invariant says without naming owners: every pointer is to an allocated
      data block, no two slots share a block, and no allocated data block is leaked. */
  lemma OwnershipMeaning(sb: Superblock, v: View)
    requires Inv(sb, v)
    ensures forall b :: 0 <= b < sb.datastart ==> Used(sb, v.disk, b)
    ensures forall j, k :: 0 <= j < |v.tab| && 0 <= k < SLOTS && Ref(v.disk, v.tab[j], k) != 0 ==>
              InData(sb, Ref(v.disk, v.tab[j], k)) && Used(sb, v.disk, Ref(v.disk, v.tab[j], k))
    ensures forall j, k, j', k' :: (0 <= j < |v.tab| && 0 <= k < SLOTS && 0 <= j' < |v.tab| && 0 <= k' < SLOTS
                                    && Ref(v.disk, v.tab[j], k) == Ref(v.disk, v.tab[j'], k') != 0)
                                   ==> j == j' && k == k'
    ensures forall b :: InData(sb, b) && Used(sb, v.disk, b) ==>
              exists j, k :: 0 <= j < |v.tab| && 0 <= k < SLOTS && Ref(v.disk, v.tab[j], k) == b
  {
    hide Ref, Used;
    forall b | InData(sb, b) && Used(sb, v.disk, b)
      ensures exists j, k :: 0 <= j < |v.tab| && 0 <= k < SLOTS && Ref(v.disk, v.tab[j], k) == b
    {
      var s := v.owner[b];
      assert Ref(v.disk, v.tab[s.inum], s.k) == b;
    }
  }

  lemma FreeIsData(sb: Superblock, v: View, b: nat)
    requires Inv(sb, v) && b < sb.size && !Used(sb, v.disk, b)
    ensures InData(sb, b) && b !in v.owner && b != 0
  {
  }

  lemma BitmapBlocks(sb: Superblock, b: nat)
    requires WellFormed(sb) && b < sb.size
    ensures sb.bmapstart <= BBlock(sb, b) < sb.datastart
  {
  }

  lemma InodeBlocks(sb: Superblock, i: nat)
    requires WellFormed(sb) && i < sb.ninodes
    ensures sb.inodestart <= IBlock(sb, i) < sb.bmapstart
  {
  }

  // Allocation: balloc takes free block b, and bmap stores it in slot k of inode i.

  function Taken(sb: Superblock, d: Disk, b: nat): (r: Disk)
    requires Fits(sb, d) && b < sb.size
    ensures |r| == |d|
  {
    Mark(sb, d, b, true)[b := ZeroBlock()]
  }

  function SetAddr(n: Inode, k: nat, b: U32): Inode
    requires k < |n.addrs|
  {
    Inode(n.kind, n.links, n.size, n.addrs[k := b])
  }

  /** Entry k of indirect block ind set to b. */
  function PutEntry(d: Disk, ind: nat, k: nat, b: U32): Disk
    requires ind < |d| && k < WORDS
  {
    d[ind := PutWord(d[ind], k, b)]
  }

  function Adopt(sb: Superblock, v: View, b: nat, i: nat, k: nat): View
    requires Shape(sb, v) && InData(sb, b) && i < |v.tab| && k < SLOTS
    requires k > NDIRECT ==> v.tab[i].addrs[NDIRECT] != 0
  {
    if k <= NDIRECT then
      View(Taken(sb, v.disk, b), v.tab[i := SetAddr(v.tab[i], k, b)], v.owner[b := Slot(i, k)])
    else
      View(PutEntry(Taken(sb, v.disk, b), v.tab[i].addrs[NDIRECT], k - NDIRECT - 1, b), v.tab, v.owner[b := Slot(i, k)])
  }

  lemma ZeroWords(k: nat)
    requires k < WORDS
    ensures Word(ZeroBlock(), k) == 0
  {
  }

  ghost predicate CanAdopt(sb: Superblock, v: View, b: nat, i: nat, k: nat) {
    && Inv(sb, v) && InData(sb, b) && !Used(sb, v.disk, b) && i < |v.tab| && k < SLOTS
    && Ref(v.disk, v.tab[i], k) == 0
    && (k > NDIRECT ==> v.tab[i].addrs[NDIRECT] != 0)
  }

  /** Blocks that were owned, other than an indirect block being extended, keep their bytes. */
  lemma AdoptBlocks(sb: Superblock, v: View, b: nat, i: nat, k: nat, c: nat)
    requires CanAdopt(sb, v, b, i, k) && c in v.owner
    requires k > NDIRECT ==> c != v.tab[i].addrs[NDIRECT]
    ensures c < sb.size && Adopt(sb, v, b, i, k).disk[c] == v.disk[c]
  {
    BitmapBlocks(sb, b);
  }

  lemma AdoptShape(sb: Superblock, v: View, b: nat, i: nat, k: nat)
    requires CanAdopt(sb, v, b, i, k)
    ensures Shape(sb, Adopt(sb, v, b, i, k))
  {
  }

  /** The entries of the indirect block of any inode j after the allocation. */
  lemma AdoptEntries(sb: Superblock, v: View, b: nat, i: nat, k: nat, j: nat, l: nat)
    requires CanAdopt(sb, v, b, i, k) && j < |v.tab| && NDIRECT < l < SLOTS
    requires var ind := v.tab[j].addrs[NDIRECT]; ind != 0
    ensures var ind := v.tab[j].addrs[NDIRECT];
            Word(Adopt(sb, v, b, i, k).disk[ind], l - NDIRECT - 1)
              == if j == i && l == k then b else Word(v.disk[ind], l - NDIRECT - 1)
  {
    var ind := v.tab[j].addrs[NDIRECT];
    assert Ref(v.disk, v.tab[j], NDIRECT) == ind && ind in v.owner && v.owner[ind] == Slot(j, NDIRECT);
    if k > NDIRECT && j == i {
      BitmapBlocks(sb, b);
      WordOfPutWord(v.disk[ind], k - NDIRECT - 1, b, l - NDIRECT - 1);
    } else {
      assert k > NDIRECT ==> Ref(v.disk, v.tab[i], NDIRECT) == v.tab[i].addrs[NDIRECT];
      AdoptBlocks(sb, v, b, i, k, ind);
    }
  }

  lemma AdoptRefs(sb: Superblock, v: View, b: nat, i: nat, k: nat, j: nat, l: nat)
    requires CanAdopt(sb, v, b, i, k) && j < |v.tab| && l < SLOTS
    requires Shape(sb, Adopt(sb, v, b, i, k))
    ensures var w := Adopt(sb, v, b, i, k);
            Ref(w.disk, w.tab[j], l) == if j == i && l == k then b else Ref(v.disk, v.tab[j], l)
  {
    if l > NDIRECT {
      hide Exact;
      if v.tab[j].addrs[NDIRECT] != 0 {
        assert !(j == i && k == NDIRECT);
        AdoptEntries(sb, v, b, i, k, j, l);
      } else if j == i && k == NDIRECT {
        ZeroWords(l - NDIRECT - 1);
        BitmapBlocks(sb, b);
      }
    }
  }

  lemma AdoptBits(sb: Superblock, v: View, b: nat, i: nat, k: nat, c: nat)
    requires CanAdopt(sb, v, b, i, k) && c < sb.size
    ensures var w := Adopt(sb, v, b, i, k);
            Fits(sb, w.disk) && (Used(sb, w.disk, c) <==> c == b || Used(sb, v.disk, c))
  {
    BitmapBlocks(sb, c);
    MarkUsed(sb, v.disk, b, true, c);
  }

  lemma OwnedAfterAdopt(sb: Superblock, v: View, w: View, b: nat, i: nat, k: nat)
    requires Inv(sb, v) && Shape(sb, w) && |w.tab| == |v.tab|
    requires InData(sb, b) && b !in v.owner && i < |v.tab| && k < SLOTS && w.owner == v.owner[b := Slot(i, k)]
    requires forall j, l :: 0 <= j < |v.tab| && 0 <= l < SLOTS ==>
               Ref(w.disk, w.tab[j], l) == if j == i && l == k then b else Ref(v.disk, v.tab[j], l)
    requires forall c :: 0 <= c < sb.size ==> (Used(sb, w.disk, c) <==> c == b || Used(sb, v.disk, c))
    requires Ref(v.disk, v.tab[i], k) == 0
    ensures Inv(sb, w)
  {
    hide Ref, Used;
  }

  /** Allocation keeps ownership exact. */
  lemma AdoptKeeps(sb: Superblock, v: View, b: nat, i: nat, k: nat)
    requires CanAdopt(sb, v, b, i, k)
    ensures Inv(sb, Adopt(sb, v, b, i, k))
  {
    var w := Adopt(sb, v, b, i, k);
    AdoptShape(sb, v, b, i, k);
    forall j, l | 0 <= j < |v.tab| && 0 <= l < SLOTS
      ensures Ref(w.disk, w.tab[j], l) == if j == i && l == k then b else Ref(v.disk, v.tab[j], l)
    {
      AdoptRefs(sb, v, b, i, k, j, l);
    }
    forall c | 0 <= c < sb.size
      ensures Used(sb, w.disk, c) <==> c == b || Used(sb, v.disk, c)
    {
      AdoptBits(sb, v, b, i, k, c);
    }
    OwnedAfterAdopt(sb, v, w, b, i, k);
  }

  // Release: bfree returns block b, and itrunc forgets the slot that pointed at it.

  function Release(sb: Superblock, v: View, b: nat, tab: seq<Inode>): View
    requires Fits(sb, v.disk) && b < sb.size
  {
    View(Mark(sb, v.disk, b, false), tab, v.owner - {b})
  }

  lemma ReleaseBlocks(sb: Superblock, v: View, b: nat, tab: seq<Inode>, c: nat)
    requires Fits(sb, v.disk) && b < sb.size && c < sb.size
    ensures var w := Release(sb, v, b, tab);
            Fits(sb, w.disk) && (Used(sb, w.disk, c) <==> c != b && Used(sb, v.disk, c))
    ensures InData(sb, c) ==> Release(sb, v, b, tab).disk[c] == v.disk[c]
  {
    BitmapBlocks(sb, b);
    MarkUsed(sb, v.disk, b, false, c);
  }

  /** What releasing block b needs of the pointers before (v) and after (w). */
  ghost predicate Forgets(sb: Superblock, v: View, w: View, b: nat, i: nat, m: nat, i': nat, m': nat)
    requires Shape(sb, v) && Shape(sb, w) && |w.tab| == |v.tab| && b in v.owner
  {
    && (forall j, l :: 0 <= j < |v.tab| && 0 <= l < SLOTS && !Gone(i', m', j, l) ==>
          || Ref(w.disk, w.tab[j], l) == 0
          || (Ref(w.disk, w.tab[j], l) == Ref(v.disk, v.tab[j], l) && !Gone(i, m, j, l) && Slot(j, l) != v.owner[b]))
    && (forall j, l :: (0 <= j < |v.tab| && 0 <= l < SLOTS && !Gone(i, m, j, l)
                        && Slot(j, l) != v.owner[b] && Ref(v.disk, v.tab[j], l) != 0) ==>
          !Gone(i', m', j, l) && Ref(w.disk, w.tab[j], l) == Ref(v.disk, v.tab[j], l))
  }

  lemma OwnedAfterRelease(sb: Superblock, v: View, w: View, b: nat, i: nat, m: nat, i': nat, m': nat)
    requires Owned(sb, v, i, m) && Shape(sb, w) && |w.tab| == |v.tab| && b in v.owner && w.owner == v.owner - {b}
    requires Forgets(sb, v, w, b, i, m, i', m')
    requires forall c :: 0 <= c < sb.size ==> (Used(sb, w.disk, c) <==> c != b && Used(sb, v.disk, c))
    ensures Owned(sb, w, i', m')
  {
    hide Ref, Used;
  }

  lemma ReleaseRefs(sb: Superblock, v: View, b: nat, tab: seq<Inode>, n: Inode, l: nat)
    requires Shape(sb, v) && b < sb.size && GoodInode(sb, n) && l < SLOTS
    ensures Ref(Release(sb, v, b, tab).disk, n, l) == Ref(v.disk, n, l)
  {
    if n.addrs[NDIRECT] != 0 { ReleaseBlocks(sb, v, b, tab, n.addrs[NDIRECT]); }
  }

  lemma ReleaseShape(sb: Superblock, v: View, b: nat, tab: seq<Inode>)
    requires Shape(sb, v) && b < sb.size && |tab| == |v.tab|
    requires forall j :: 0 <= j < |tab| ==> GoodInode(sb, tab[j])
    ensures Shape(sb, Release(sb, v, b, tab))
  {
  }

  /** The pointers and bits after block b is released, when tab[j] has the indirect block of v.tab[j]. */
  lemma ReleasedAll(sb: Superblock, v: View, b: nat, tab: seq<Inode>)
    requires Shape(sb, v) && b < sb.size && |tab| == |v.tab| && forall j :: 0 <= j < |tab| ==> GoodInode(sb, tab[j])
    ensures var w := Release(sb, v, b, tab);
            && Shape(sb, w)
            && (forall j, l :: 0 <= j < |tab| && 0 <= l < SLOTS ==> Ref(w.disk, w.tab[j], l) == Ref(v.disk, tab[j], l))
            && (forall c :: 0 <= c < sb.size ==> (Used(sb, w.disk, c) <==> c != b && Used(sb, v.disk, c)))
  {
    hide Ref, Used;
    ReleaseShape(sb, v, b, tab);
    var w := Release(sb, v, b, tab);
    forall j, l | 0 <= j < |tab| && 0 <= l < SLOTS ensures Ref(w.disk, w.tab[j], l) == Ref(v.disk, tab[j], l) {
      ReleaseRefs(sb, v, b, tab, tab[j], l);
    }
    forall c | 0 <= c < sb.size ensures Used(sb, w.disk, c) <==> c != b && Used(sb, v.disk, c) {
      ReleaseBlocks(sb, v, b, tab, c);
    }
  }

  lemma OwnerPoints(sb: Superblock, v: View, b: nat)
    requires Inv(sb, v) && b in v.owner
    ensures InData(sb, b) && v.owner[b].inum < |v.tab| && v.owner[b].k < SLOTS
    ensures Ref(v.disk, v.tab[v.owner[b].inum], v.owner[b].k) == b
  {
    hide Ref, Used;
  }

  lemma OwnedRef(sb: Superblock, v: View, i: nat, m: nat, j: nat, k: nat)
    requires Owned(sb, v, i, m) && j < |v.tab| && k < SLOTS && !Gone(i, m, j, k) && Ref(v.disk, v.tab[j], k) != 0
    ensures var b := Ref(v.disk, v.tab[j], k);
            b in v.owner && v.owner[b] == Slot(j, k) && InData(sb, b) && Used(sb, v.disk, b)
  {
    hide Ref, Used;
  }

  /** itrunc's loop over the direct blocks. */
  lemma ReleaseDirect(sb: Superblock, v: View, i: nat, k: nat)
    requires Inv(sb, v) && i < |v.tab| && k < NDIRECT && v.tab[i].addrs[k] != 0
    ensures v.tab[i].addrs[k] < sb.size && Used(sb, v.disk, v.tab[i].addrs[k]) && v.tab[i].addrs[k] in v.owner
    ensures Inv(sb, Release(sb, v, v.tab[i].addrs[k], v.tab[i := SetAddr(v.tab[i], k, 0)]))
  {
    hide Used, Exact;
    var b, tab := v.tab[i].addrs[k], v.tab[i := SetAddr(v.tab[i], k, 0)];
    assert Ref(v.disk, v.tab[i], k) == b;
    OwnedRef(sb, v, 0, 0, i, k);
    ReleasedAll(sb, v, b, tab);
    assert forall l :: 0 <= l < SLOTS ==> Ref(v.disk, tab[i], l) == if l == k then 0 else Ref(v.disk, v.tab[i], l);
    hide Ref;
    OwnedAfterRelease(sb, v, Release(sb, v, b, tab), b, 0, 0, 0, 0);
  }

  /** itrunc's loop over the entries of the indirect block, which it does not erase. */
  lemma ReleaseEntry(sb: Superblock, v: View, i: nat, m: nat)
    requires Owned(sb, v, i, m) && i < |v.tab| && v.tab[i].addrs[NDIRECT] != 0 && m < NINDIRECT
    ensures var b := Word(v.disk[v.tab[i].addrs[NDIRECT]], m);
            if b == 0 then Owned(sb, v, i, m + 1)
            else b < sb.size && b in v.owner && Used(sb, v.disk, b) && Owned(sb, Release(sb, v, b, v.tab), i, m + 1)
  {
    hide Used, Exact, Word, Release;
    var b, k := Word(v.disk[v.tab[i].addrs[NDIRECT]], m), NDIRECT + 1 + m;
    assert Ref(v.disk, v.tab[i], k) == b;
    if b == 0 { SkipEntry(sb, v, i, m); } else { DropEntry(sb, v, i, m); }
  }

  lemma DropEntry(sb: Superblock, v: View, i: nat, m: nat)
    requires Owned(sb, v, i, m) && i < |v.tab| && m < NINDIRECT && Ref(v.disk, v.tab[i], NDIRECT + 1 + m) != 0
    ensures var b := Ref(v.disk, v.tab[i], NDIRECT + 1 + m);
            b < sb.size && b in v.owner && Used(sb, v.disk, b) && Owned(sb, Release(sb, v, b, v.tab), i, m + 1)
  {
    hide Used, Exact, Ref;
    var b := Ref(v.disk, v.tab[i], NDIRECT + 1 + m);
    OwnedRef(sb, v, i, m, i, NDIRECT + 1 + m);
    ReleasedAll(sb, v, b, v.tab);
    OwnedAfterRelease(sb, v, Release(sb, v, b, v.tab), b, i, m, i, m + 1);
  }

  lemma SkipEntry(sb: Superblock, v: View, i: nat, m: nat)
    requires Owned(sb, v, i, m) && i < |v.tab| && m < NINDIRECT && Ref(v.disk, v.tab[i], NDIRECT + 1 + m) == 0
    ensures Owned(sb, v, i, m + 1)
  {
    hide Used, Ref;
    forall j, l ensures Gone(i, m + 1, j, l) <==> Gone(i, m, j, l) || (j == i && l == NDIRECT + 1 + m) {}
  }

  /** itrunc's release of the indirect block itself, with every entry gone. */
  lemma ReleaseIndirect(sb: Superblock, v: View, i: nat)
    requires Owned(sb, v, i, NINDIRECT) && i < |v.tab| && v.tab[i].addrs[NDIRECT] != 0
    ensures Used(sb, v.disk, v.tab[i].addrs[NDIRECT]) && v.tab[i].addrs[NDIRECT] in v.owner
    ensures Inv(sb, Release(sb, v, v.tab[i].addrs[NDIRECT], v.tab[i := SetAddr(v.tab[i], NDIRECT, 0)]))
  {
    hide Used, Exact;
    var b, tab := v.tab[i].addrs[NDIRECT], v.tab[i := SetAddr(v.tab[i], NDIRECT, 0)];
    assert Ref(v.disk, v.tab[i], NDIRECT) == b;
    OwnedRef(sb, v, i, NINDIRECT, i, NDIRECT);
    ReleasedAll(sb, v, b, tab);
    assert forall l :: 0 <= l < SLOTS ==> Ref(v.disk, tab[i], l) == if l >= NDIRECT then 0
             else Ref(v.disk, v.tab[i], l);
    hide Ref;
    OwnedAfterRelease(sb, v, Release(sb, v, b, tab), b, i, NINDIRECT, 0, 0);
  }
}
