/** The bound on what one write logs is reached: a chunk that crosses into the indirect
    block, on a disk whose next free blocks lie under four different bitmap blocks. */
module FsTight {
  import opened Wrappers
  import opened Blocks
  import opened FsLayout
  import opened FsOwnership
  import opened FsContent
  import opened FsWrite
  import opened FsBudget

  /** f lists the first four free blocks, and each has its bit in another bitmap block. */
  ghost predicate FourFree(sb: Superblock, d: Disk, f: seq<nat>) {
    && Fits(sb, d) && |f| == 4 && f[0] < f[1] < f[2] < f[3] < sb.size
    && (forall c :: 0 <= c <= f[3] ==> (!Used(sb, d, c) <==> c in f))
    && BBlock(sb, f[0]) < BBlock(sb, f[1]) < BBlock(sb, f[2]) < BBlock(sb, f[3])
  }

  /** n bytes at off start inside file block 9, 10 or 11, end in the third block after
      it, and the file has neither those three blocks nor the indirect block. */
  ghost predicate Crosses(sb: Superblock, v: View, i: nat, off: nat, n: nat) {
    && Shape(sb, v) && i < |v.tab| && off % BSIZE != 0 && 9 <= off / BSIZE <= 11 && Spans(off, n) == 4
    && (forall k :: off / BSIZE < k <= NDIRECT ==> v.tab[i].addrs[k] == 0)
  }

  /** The slots that such a write fills, for the three file blocks and the indirect block. */
  function NewSlot(lo: nat, j: nat): nat { if j == 3 then NDIRECT else DataSlot(lo + 1 + j) }

  ghost function NewRef(w: View, i: nat, lo: nat, j: nat): nat
    requires i < |w.tab| && |w.tab[i].addrs| == NDIRECT + 1 && w.tab[i].addrs[NDIRECT] < |w.disk| && lo <= 11 && j < 4
  {
    Ref(w.disk, w.tab[i], NewSlot(lo, j))
  }

  ghost predicate Span(sb: Superblock, v: View, w: View, i: nat, lo: nat) {
    && Inv(sb, v) && Inv(sb, w) && i < |v.tab| == |w.tab| && 9 <= lo <= 11
    && Allocated(sb, v, w, i, lo, lo + 4) && DataRef(v.disk, v.tab[i], lo) != 0
    && forall k :: lo < k <= NDIRECT ==> v.tab[i].addrs[k] == 0
  }

  /** The block that the write starts in stays where it was. */
  lemma FirstKept(sb: Superblock, v: View, w: View, i: nat, lo: nat)
    requires Span(sb, v, w, i, lo)
    ensures var r := DataRef(v.disk, v.tab[i], lo); r in v.owner && DataRef(w.disk, w.tab[i], lo) == r
  {
    hide Exact, Ref;
    OwnedRef(sb, v, 0, 0, i, lo);
    OwnerPoints(sb, w, DataRef(v.disk, v.tab[i], lo));
  }

  /** Whatever is new was put in one of the four slots. */
  lemma NewHasSlot(sb: Superblock, v: View, w: View, i: nat, lo: nat, b: nat)
    requires Span(sb, v, w, i, lo) && b in NewBlocks(v, w)
    ensures InData(sb, b) && b !in v.owner && exists j :: 0 <= j < 4 && NewRef(w, i, lo, j) == b
  {
    hide Exact, Ref;
    FirstKept(sb, v, w, i, lo);
    OwnerPoints(sb, w, b);
    var k := w.owner[b].k;
    var j := if k == NDIRECT then 3 else (if k < NDIRECT then k else k - 1) - lo - 1;
    assert NewRef(w, i, lo, j) == b;
  }

  /** A block in one of the four slots is new. */
  lemma SlotHasNew(sb: Superblock, v: View, w: View, i: nat, lo: nat, j: nat)
    requires Span(sb, v, w, i, lo) && j < 4 && NewRef(w, i, lo, j) != 0
    ensures NewRef(w, i, lo, j) in NewBlocks(v, w) && w.owner[NewRef(w, i, lo, j)] == Slot(i, NewSlot(lo, j))
  {
    var b := NewRef(w, i, lo, j);
    assert Ref(v.disk, v.tab[i], NewSlot(lo, j)) == 0;
    hide Exact, Ref;
    OwnedRef(sb, w, 0, 0, i, NewSlot(lo, j));
    if b in v.owner { OwnerPoints(sb, v, b); }
  }

  /** The first four free blocks are new once anything beyond them is, or once the disk is full. */
  lemma FreeAreTaken(sb: Superblock, v: View, w: View, i: nat, lo: nat, f: seq<nat>, j: nat)
    requires Span(sb, v, w, i, lo) && FourFree(sb, v.disk, f) && j < 4
    ensures InData(sb, f[j]) && f[j] !in v.owner
    ensures Full(sb, w.disk) ==> f[j] in NewBlocks(v, w)
    ensures forall b :: b in NewBlocks(v, w) && f[3] < b ==> f[j] in NewBlocks(v, w)
  {
    hide Ref, Used, DataRef;
    FreeIsData(sb, v, f[j]);
  }

  lemma FourElements(f: seq<nat>, s: set<nat>)
    requires |f| == 4 && f[0] < f[1] < f[2] < f[3] && forall j :: 0 <= j < 4 ==> f[j] in s
    ensures {f[0], f[1], f[2], f[3]} <= s && |s| >= 4
    ensures forall b :: b in s && b > f[3] ==> |s| >= 5
  {
    SubsetCard({f[0], f[1], f[2], f[3]}, s);
    forall b | b in s && b > f[3] ensures |s| >= 5 {
      SubsetCard({f[0], f[1], f[2], f[3], b}, s);
    }
  }

  lemma AtMostThree(r: seq<nat>, j: nat, s: set<nat>)
    requires |r| == 4 && j < 4 && forall x :: x in s ==> x in r && x != r[j]
    ensures |s| <= 3
  {
    SubsetCard(s, {r[(j + 1) % 4], r[(j + 2) % 4], r[(j + 3) % 4]});
  }

  /** While one of the slots is empty, some of the four free blocks are still free. */
  lemma NotStuck(sb: Superblock, v: View, w: View, i: nat, lo: nat, f: seq<nat>, j: nat)
    requires Span(sb, v, w, i, lo) && FourFree(sb, v.disk, f) && j < 4 && NewRef(w, i, lo, j) == 0
    ensures !Full(sb, w.disk)
  {
    hide Exact, Allocated, DataRef, NewRef, Used, Full, NewBlocks;
    var s := NewBlocks(v, w);
    var r := seq(4, l requires 0 <= l < 4 => NewRef(w, i, lo, l));
    forall x | x in s ensures x in r && x != r[j] {
      NewHasSlot(sb, v, w, i, lo, x);
      var l :| 0 <= l < 4 && NewRef(w, i, lo, l) == x;
      assert r[l] == x;
    }
    AtMostThree(r, j, s);
    if Full(sb, w.disk) {
      forall l | 0 <= l < 4 ensures f[l] in s { FreeAreTaken(sb, v, w, i, lo, f, l); }
      FourElements(f, s);
      assert false;
    }
  }

  lemma SlotsDiffer(sb: Superblock, v: View, w: View, i: nat, lo: nat)
    requires Span(sb, v, w, i, lo) && forall j :: 0 <= j < 4 ==> NewRef(w, i, lo, j) != 0
    ensures forall j, l :: 0 <= j < l < 4 ==> NewRef(w, i, lo, j) != NewRef(w, i, lo, l)
    ensures NewBlocks(v, w) == {NewRef(w, i, lo, 0), NewRef(w, i, lo, 1), NewRef(w, i, lo, 2), NewRef(w, i, lo, 3)}
    ensures |NewBlocks(v, w)| == 4
  {
    hide Exact, Allocated, DataRef, NewRef, NewSlot;
    SlotNumbers(lo);
    forall j | 0 <= j < 4
      ensures NewRef(w, i, lo, j) in NewBlocks(v, w) && w.owner[NewRef(w, i, lo, j)] == Slot(i, NewSlot(lo, j))
    {
      SlotHasNew(sb, v, w, i, lo, j);
    }
    forall x | x in NewBlocks(v, w) ensures exists j :: 0 <= j < 4 && NewRef(w, i, lo, j) == x {
      NewHasSlot(sb, v, w, i, lo, x);
    }
    hide NewBlocks;
    FourDistinct(NewRef(w, i, lo, 0), NewRef(w, i, lo, 1), NewRef(w, i, lo, 2), NewRef(w, i, lo, 3));
  }

  lemma SlotNumbers(lo: nat)
    requires lo <= 11
    ensures forall j, l :: 0 <= j < l < 4 ==> NewSlot(lo, j) != NewSlot(lo, l)
  {
  }

  lemma FourDistinct(a: nat, b: nat, c: nat, d: nat)
    requires a != b && a != c && a != d && b != c && b != d && c != d
    ensures |{a, b, c, d}| == 4
  {
  }

  /** With all four filled, the new blocks are the first four free ones. */
  lemma NewAreFirst(sb: Superblock, v: View, w: View, i: nat, lo: nat, f: seq<nat>)
    requires Span(sb, v, w, i, lo) && FourFree(sb, v.disk, f) && |NewBlocks(v, w)| == 4
    ensures NewBlocks(v, w) == {f[0], f[1], f[2], f[3]}
  {
    hide Exact, Allocated, DataRef, Used, NewRef, NewBlocks;
    var s := NewBlocks(v, w);
    forall x | x in s ensures x in {f[0], f[1], f[2], f[3]} { NewIsFree(sb, v, w, i, lo, f, x); }
    SubsetAll(s, {f[0], f[1], f[2], f[3]});
  }

  lemma NewIsFree(sb: Superblock, v: View, w: View, i: nat, lo: nat, f: seq<nat>, x: nat)
    requires Span(sb, v, w, i, lo) && FourFree(sb, v.disk, f) && |NewBlocks(v, w)| == 4 && x in NewBlocks(v, w)
    ensures x in {f[0], f[1], f[2], f[3]}
  {
    hide Allocated, DataRef, NewRef, NewBlocks, Used;
    NewHasSlot(sb, v, w, i, lo, x);
    if x > f[3] {
      forall j | 0 <= j < 4 ensures f[j] in NewBlocks(v, w) { FreeAreTaken(sb, v, w, i, lo, f, j); }
      FourElements(f, NewBlocks(v, w));
      assert false;
    }
  }

  lemma SubsetAll(s: set<nat>, t: set<nat>)
    requires s <= t && |t| <= |s|
    ensures s == t
  {
    assert t == s + (t - s);
  }

  lemma DisjointCard(a: set<nat>, b: set<nat>)
    requires a !! b
    ensures |a + b| == |a| + |b|
  {
  }

  lemma TenApart(ib: nat, m: seq<nat>, f: seq<nat>, r: nat, ms: set<nat>, fs: set<nat>)
    requires |m| == |f| == 4 && ib < m[0] < m[1] < m[2] < m[3] < f[0] < f[1] < f[2] < f[3] && m[3] < r && r !in f
    requires ms == {m[0], m[1], m[2], m[3]} && fs == {f[0], f[1], f[2], f[3]}
    ensures |{ib} + ms + (fs + {r})| == 10
  {
    FourDistinct(m[0], m[1], m[2], m[3]);
    FourDistinct(f[0], f[1], f[2], f[3]);
    assert forall x :: x in ms ==> ib < x <= m[3];
    assert forall x :: x in fs ==> m[3] < x && x in f;
    DisjointCard({ib}, ms);
    DisjointCard(fs, {r});
    DisjointCard({ib} + ms, fs + {r});
  }

  lemma BitmapsOfFour(sb: Superblock, f: seq<nat>)
    requires |f| == 4
    ensures Bitmaps(sb, {f[0], f[1], f[2], f[3]})
              == {BBlock(sb, f[0]), BBlock(sb, f[1]), BBlock(sb, f[2]), BBlock(sb, f[3])}
  {
    hide BBlock;
  }

  lemma TenBlocks(sb: Superblock, i: nat, f: seq<nat>, r: nat, logged: set<nat>)
    requires WellFormed(sb) && i < sb.ninodes && InData(sb, r) && r !in f
    requires |f| == 4 && f[0] < f[1] < f[2] < f[3] && forall j :: 0 <= j < 4 ==> InData(sb, f[j])
    requires BBlock(sb, f[0]) < BBlock(sb, f[1]) < BBlock(sb, f[2]) < BBlock(sb, f[3])
    requires logged == {IBlock(sb, i)} + {f[0], f[1], f[2], f[3]} + Bitmaps(sb, {f[0], f[1], f[2], f[3]}) + {r}
    ensures |logged| == 10
  {
    hide WellFormed, BBlock, IBlock, Bitmaps;
    InodeBlocks(sb, i);
    BitmapBlocks(sb, f[0]);
    BitmapBlocks(sb, f[3]);
    BitmapsOfFour(sb, f);
    var m := [BBlock(sb, f[0]), BBlock(sb, f[1]), BBlock(sb, f[2]), BBlock(sb, f[3])];
    var ms, fs := {m[0], m[1], m[2], m[3]}, {f[0], f[1], f[2], f[3]};
    TenApart(IBlock(sb, i), m, f, r, ms, fs);
    assert logged == {IBlock(sb, i)} + ms + (fs + {r});
  }

  lemma TouchedFour(d: Disk, n: Inode, lo: nat)
    requires |n.addrs| == NDIRECT + 1 && n.addrs[NDIRECT] < |d| && lo + 4 <= MAXFILE
    ensures Touched(d, n, lo, lo + 4)
              == {DataRef(d, n, lo), DataRef(d, n, lo + 1), DataRef(d, n, lo + 2), DataRef(d, n, lo + 3)}
  {
    hide DataRef;
    assert Touched(d, n, lo, lo) == {};
    assert Touched(d, n, lo, lo + 2) == {DataRef(d, n, lo), DataRef(d, n, lo + 1)};
  }

  lemma AllFilled(sb: Superblock, v: View, w: View, i: nat, lo: nat)
    requires Span(sb, v, w, i, lo) && forall bn :: lo < bn < lo + 4 ==> DataRef(w.disk, w.tab[i], bn) != 0
    ensures forall j :: 0 <= j < 4 ==> NewRef(w, i, lo, j) != 0
    ensures Touched(w.disk, w.tab[i], lo, lo + 4)
         == {DataRef(v.disk, v.tab[i], lo), NewRef(w, i, lo, 0), NewRef(w, i, lo, 1), NewRef(w, i, lo, 2)}
  {
    hide Exact, Allocated;
    FirstKept(sb, v, w, i, lo);
    assert DataRef(w.disk, w.tab[i], lo + 3) != 0;
    TouchedFour(w.disk, w.tab[i], lo);
  }

  lemma Complete(sb: Superblock, logged: set<nat>, v: View, w: View, i: nat, lo: nat, f: seq<nat>)
    requires Span(sb, v, w, i, lo) && FourFree(sb, v.disk, f)
    requires forall bn :: lo < bn < lo + 4 ==> DataRef(w.disk, w.tab[i], bn) != 0
    requires logged == {IBlock(sb, i)} + Cost(sb, v, w, i) + Touched(w.disk, w.tab[i], lo, lo + 4)
    ensures |logged| == 10
  {
    hide Exact, Allocated, DataRef, Touched, NewBlocks, Used, NewEntry, Bitmaps, BBlock, IBlock, WellFormed;
    AllFilled(sb, v, w, i, lo);
    SlotsDiffer(sb, v, w, i, lo);
    NewAreFirst(sb, v, w, i, lo, f);
    FirstKept(sb, v, w, i, lo);
    var r := DataRef(v.disk, v.tab[i], lo);
    OwnerPoints(sb, v, r);
    forall j | 0 <= j < 4 ensures InData(sb, f[j]) && f[j] != r { FreeAreTaken(sb, v, w, i, lo, f, j); }
    assert NewRef(w, i, lo, 3) == w.tab[i].addrs[NDIRECT];
    hide NewRef;
    TenBlocks(sb, i, f, r, logged);
  }

  /** Such a write goes through, and logs ten blocks: four data blocks, the indirect
      block, four bitmap blocks and the inode's block. */
  lemma TightBudget(sb: Superblock, logged: set<nat>, v: View, w: View, i: nat, off: nat, tot: nat, n: nat, f: seq<nat>)
    requires Inv(sb, v) && Inv(sb, w) && i < |v.tab| == |w.tab| && Crosses(sb, v, i, off, n) && FourFree(sb, v.disk, f)
    requires Logs(sb, {IBlock(sb, i)}, logged, v, w, i, off, tot, n) && DataRef(v.disk, v.tab[i], off / BSIZE) != 0
    requires tot < n ==> Stuck(sb, w, i, off + tot)
    requires tot == n ==> Backed(w.disk, w.tab[i], off + n)
    ensures tot == n && |logged| == 10
  {
    hide Exact, Allocated, Used, Full, Cost, Touched, DataRef;
    var lo := off / BSIZE;
    FirstKept(sb, v, w, i, lo);
    if tot < n {
      var j := (off + tot) / BSIZE - lo - 1;
      assert NewRef(w, i, lo, j) == DataRef(w.disk, w.tab[i], lo + 1 + j) by { SlotIsData(w, i, lo, j); }
      NotStuck(sb, v, w, i, lo, f, j);
      assert false;
    }
    assert forall bn :: lo < bn < lo + 4 ==> bn * BSIZE < off + n;
    Complete(sb, logged, v, w, i, lo, f);
  }

  lemma SlotIsData(w: View, i: nat, lo: nat, j: nat)
    requires i < |w.tab| && |w.tab[i].addrs| == NDIRECT + 1 && w.tab[i].addrs[NDIRECT] < |w.disk| && lo <= 11 && j < 3
    ensures NewRef(w, i, lo, j) == DataRef(w.disk, w.tab[i], lo + 1 + j)
  {
  }
}
