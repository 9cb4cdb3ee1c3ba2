/** The steps of writei, seen as changes to a flat byte string. */
module FsWrite {
  import opened Blocks
  import opened FsLayout
  import opened FsOwnership
  import opened FsContent

  function Max(a: nat, b: nat): nat { if a < b then b else a }

  /** s copied into block b at position `at`. */
  function Patch(b: Block, at: nat, s: seq<Byte>): Block
    requires at + |s| <= BSIZE
  {
    b[..at] + s + b[at + |s|..]
  }

  /** v becomes w by allocating blocks to inode i: no file loses a block or a byte. */
  ghost predicate Grows(sb: Superblock, v: View, w: View, i: nat) {
    && Inv(sb, v) && Inv(sb, w) && Extends(sb, v, w) && i < |v.tab| == |w.tab|
    && (forall j :: 0 <= j < |v.tab| && j != i ==> w.tab[j] == v.tab[j])
    && w.tab[i] == Inode(v.tab[i].kind, v.tab[i].links, v.tab[i].size, w.tab[i].addrs)
    && (v.tab[i].addrs[NDIRECT] != 0 ==> w.tab[i].addrs[NDIRECT] == v.tab[i].addrs[NDIRECT])
    && (forall j :: 0 <= j < sb.ninodes ==> ReadInode(sb, w.disk, j) == ReadInode(sb, v.disk, j))
  }

  lemma GrowsRefl(sb: Superblock, v: View, i: nat)
    requires Inv(sb, v) && i < |v.tab|
    ensures Grows(sb, v, v, i)
  {
    forall j, bn | 0 <= j < |v.tab| && 0 <= bn < MAXFILE && DataRef(v.disk, v.tab[j], bn) != 0
      ensures SameBlock(sb, v, v, j, bn)
    {
      assert DataRef(v.disk, v.tab[j], bn) in v.owner;
    }
  }

  lemma GrowsTrans(sb: Superblock, u: View, v: View, w: View, i: nat)
    requires Grows(sb, u, v, i) && Grows(sb, v, w, i)
    ensures Grows(sb, u, w, i)
  {
    ExtendsTrans(sb, u, v, w);
    hide Exact, Extends, ReadInode;
  }

  lemma AdoptReadsInodes(sb: Superblock, v: View, b: nat, i: nat, k: nat)
    requires CanAdopt(sb, v, b, i, k)
    ensures Adopt(sb, v, b, i, k).disk[b] == ZeroBlock()
    ensures forall j :: 0 <= j < sb.ninodes ==>
              ReadInode(sb, Adopt(sb, v, b, i, k).disk, j) == ReadInode(sb, v.disk, j)
  {
    BitmapBlocks(sb, b);
    assert k > NDIRECT ==> Ref(v.disk, v.tab[i], NDIRECT) in v.owner;
    forall j | 0 <= j < sb.ninodes ensures ReadInode(sb, Adopt(sb, v, b, i, k).disk, j) == ReadInode(sb, v.disk, j) {
      InodeBlocks(sb, j);
    }
  }

  lemma AdoptGrows(sb: Superblock, v: View, b: nat, i: nat, k: nat)
    requires CanAdopt(sb, v, b, i, k)
    ensures Grows(sb, v, Adopt(sb, v, b, i, k), i)
    ensures var w := Adopt(sb, v, b, i, k);
            w.disk[b] == ZeroBlock() && Ref(w.disk, w.tab[i], k) == b
  {
    hide Exact, Extends, ReadInode;
    AdoptKeeps(sb, v, b, i, k);
    AdoptExtends(sb, v, b, i, k);
    AdoptRefs(sb, v, b, i, k, i, k);
    AdoptReadsInodes(sb, v, b, i, k);
  }

  /** Every other file is as it was. */
  ghost predicate OthersKept(sb: Superblock, v: View, w: View, i: nat)
    requires Shape(sb, v) && Shape(sb, w)
  {
    && |w.tab| == |v.tab|
    && (forall j :: 0 <= j < |v.tab| && j != i ==> w.tab[j] == v.tab[j])
    && (forall j, bn :: 0 <= j < |v.tab| && j != i && 0 <= bn < MAXFILE && DataRef(v.disk, v.tab[j], bn) != 0
          ==> SameBlock(sb, v, w, j, bn))
  }

  /** From v to w, bytes off..off+|s| of inode i became s, and the rest of its first
      `size` bytes stayed; everything up to there is backed by blocks. */
  ghost predicate Written(sb: Superblock, v: View, w: View, i: nat, size: nat, off: nat, s: seq<Byte>) {
    && Inv(sb, v) && Inv(sb, w) && i < |v.tab| == |w.tab| && OthersKept(sb, v, w, i)
    && w.tab[i] == Inode(v.tab[i].kind, v.tab[i].links, v.tab[i].size, w.tab[i].addrs)
    && (v.tab[i].addrs[NDIRECT] != 0 ==> w.tab[i].addrs[NDIRECT] == v.tab[i].addrs[NDIRECT])
    && (forall j :: 0 <= j < sb.ninodes ==> ReadInode(sb, w.disk, j) == ReadInode(sb, v.disk, j))
    && Backed(w.disk, w.tab[i], Max(size, off + |s|))
    && Bytes(v, w, i, size, off, s)
  }

  ghost predicate Bytes(v: View, w: View, i: nat, size: nat, off: nat, s: seq<Byte>)
    requires i < |v.tab| && i < |w.tab|
    requires |v.tab[i].addrs| == NDIRECT + 1 && v.tab[i].addrs[NDIRECT] < |v.disk|
    requires |w.tab[i].addrs| == NDIRECT + 1 && w.tab[i].addrs[NDIRECT] < |w.disk|
  {
    forall o :: 0 <= o < Max(size, off + |s|) ==>
      ByteAt(w.disk, w.tab[i], o) == if off <= o < off + |s| then s[o - off] else ByteAt(v.disk, v.tab[i], o)
  }

  lemma WrittenGrows(sb: Superblock, v: View, u: View, w: View, i: nat, size: nat, off: nat, s: seq<Byte>)
    requires Written(sb, v, u, i, size, off, s) && Grows(sb, u, w, i)
    ensures Written(sb, v, w, i, size, off, s)
  {
    BackedAfter(sb, u, w, i, Max(size, off + |s|));
    forall o | 0 <= o < Max(size, off + |s|)
      ensures ByteAt(w.disk, w.tab[i], o) == ByteAt(u.disk, u.tab[i], o)
    {
      assert o / BSIZE * BSIZE <= o;
      ExtendsByte(sb, u, w, i, o);
    }
    forall j, bn | 0 <= j < |v.tab| && j != i && 0 <= bn < MAXFILE && DataRef(v.disk, v.tab[j], bn) != 0
      ensures SameBlock(sb, v, w, j, bn)
    {
      assert SameBlock(sb, v, u, j, bn) && SameBlock(sb, u, w, j, bn);
    }
    hide Exact, ReadInode, Backed, SameBlock, ByteAt;
  }

  /** One turn of writei's loop, after bmap: copy the next m bytes into their block. */
  lemma WrittenStore(sb: Superblock, v: View, u: View, i: nat, size: nat, off: nat, s: seq<Byte>, t: seq<Byte>)
    requires Written(sb, v, u, i, size, off, s) && off + |s| + |t| <= MAXFILE * BSIZE
    requires 0 < |t| <= BSIZE - (off + |s|) % BSIZE && off <= size
    requires DataRef(u.disk, u.tab[i], (off + |s|) / BSIZE) != 0
    ensures DataRef(u.disk, u.tab[i], (off + |s|) / BSIZE) < sb.size
    ensures var c := DataRef(u.disk, u.tab[i], (off + |s|) / BSIZE);
            var w := View(u.disk[c := Patch(u.disk[c], (off + |s|) % BSIZE, t)], u.tab, u.owner);
            Written(sb, v, w, i, size, off, s + t)
  {
    hide Exact, ReadInode, Backed, OthersKept, Bytes, Patch, Ref, SameBlock;
    var p := off + |s|;
    var bn, c := p / BSIZE, DataRef(u.disk, u.tab[i], p / BSIZE);
    RefInData(sb, u, i, bn);
    StoreKeeps(sb, u, i, bn, Patch(u.disk[c], p % BSIZE, t));
    var w := View(u.disk[c := Patch(u.disk[c], p % BSIZE, t)], u.tab, u.owner);
    StoreReadsInodes(sb, u, c, Patch(u.disk[c], p % BSIZE, t));
    StoreOthers(sb, v, u, w, i, bn);
    StoreBacked(sb, u, w, i, size, p, |t|);
    StoreBytes(sb, v, u, w, i, size, off, s, t);
  }

  lemma StoreReadsInodes(sb: Superblock, u: View, c: nat, blk: Block)
    requires Shape(sb, u) && InData(sb, c)
    ensures forall j :: 0 <= j < sb.ninodes ==> ReadInode(sb, u.disk[c := blk], j) == ReadInode(sb, u.disk, j)
  {
    forall j | 0 <= j < sb.ninodes ensures ReadInode(sb, u.disk[c := blk], j) == ReadInode(sb, u.disk, j) {
      InodeBlocks(sb, j);
    }
  }

  lemma StoreOthers(sb: Superblock, v: View, u: View, w: View, i: nat, bn: nat)
    requires Shape(sb, v) && Shape(sb, u) && Shape(sb, w) && OthersKept(sb, v, u, i) && w.tab == u.tab
    requires forall j, m ::
               (0 <= j < |u.tab| && 0 <= m < MAXFILE && (j != i || m != bn) && DataRef(u.disk, u.tab[j], m) != 0)
               ==> SameBlock(sb, u, w, j, m)
    ensures OthersKept(sb, v, w, i)
  {
    forall j, m | 0 <= j < |v.tab| && j != i && 0 <= m < MAXFILE && DataRef(v.disk, v.tab[j], m) != 0
      ensures SameBlock(sb, v, w, j, m)
    {
      assert SameBlock(sb, v, u, j, m);
      assert SameBlock(sb, u, w, j, m);
    }
  }

  lemma StoreBacked(sb: Superblock, u: View, w: View, i: nat, size: nat, p: nat, m: nat)
    requires Shape(sb, u) && Shape(sb, w) && w.tab == u.tab && i < |u.tab| && p + m <= MAXFILE * BSIZE
    requires Backed(u.disk, u.tab[i], Max(size, p)) && m <= BSIZE - p % BSIZE
    requires p / BSIZE < MAXFILE && DataRef(u.disk, u.tab[i], p / BSIZE) != 0
    requires forall j, m :: 0 <= j < |u.tab| && 0 <= m < MAXFILE ==>
               DataRef(w.disk, u.tab[j], m) == DataRef(u.disk, u.tab[j], m)
    ensures Backed(w.disk, w.tab[i], Max(size, p + m))
  {
    forall b | 0 <= b < MAXFILE && b * BSIZE < Max(size, p + m) ensures DataRef(w.disk, w.tab[i], b) != 0 {
      assert DataRef(w.disk, u.tab[i], b) == DataRef(u.disk, u.tab[i], b);
      if b * BSIZE >= Max(size, p) { assert b == p / BSIZE; }
    }
  }

  lemma StoreBytes(sb: Superblock, v: View, u: View, w: View, i: nat, size: nat, off: nat, s: seq<Byte>, t: seq<Byte>)
    requires Shape(sb, v) && Shape(sb, u) && Shape(sb, w) && i < |v.tab| == |u.tab| && w.tab == u.tab
    requires off <= size && off + |s| + |t| <= MAXFILE * BSIZE && 0 < |t| <= BSIZE - (off + |s|) % BSIZE
    requires Backed(u.disk, u.tab[i], Max(size, off + |s|)) && Bytes(v, u, i, size, off, s)
    requires 0 < DataRef(u.disk, u.tab[i], (off + |s|) / BSIZE) < sb.size
    requires var c := DataRef(u.disk, u.tab[i], (off + |s|) / BSIZE);
             w.disk == u.disk[c := Patch(u.disk[c], (off + |s|) % BSIZE, t)]
    requires forall j, m :: 0 <= j < |u.tab| && 0 <= m < MAXFILE ==>
               DataRef(w.disk, u.tab[j], m) == DataRef(u.disk, u.tab[j], m)
    requires forall j, m ::
               (0 <= j < |u.tab| && 0 <= m < MAXFILE
                && (j != i || m != (off + |s|) / BSIZE) && DataRef(u.disk, u.tab[j], m) != 0)
               ==> SameBlock(sb, u, w, j, m)
    ensures Bytes(v, w, i, size, off, s + t)
  {
    var p := off + |s|;
    forall o | 0 <= o < Max(size, p + |t|)
      ensures ByteAt(w.disk, w.tab[i], o) == if off <= o < p + |t| then (s + t)[o - off]
                else ByteAt(v.disk, v.tab[i], o)
    {
      assert DataRef(w.disk, u.tab[i], o / BSIZE) == DataRef(u.disk, u.tab[i], o / BSIZE);
      if o / BSIZE == p / BSIZE {
        PatchAt(u.disk[DataRef(u.disk, u.tab[i], p / BSIZE)], p % BSIZE, t, o % BSIZE);
        if p <= o < p + |t| {
          assert o % BSIZE - p % BSIZE == o - p;
        } else {
          assert ByteAt(w.disk, w.tab[i], o) == ByteAt(u.disk, u.tab[i], o);
        }
      } else {
        assert o < Max(size, p);
        assert o / BSIZE * BSIZE <= o;
        assert SameBlock(sb, u, w, i, o / BSIZE);
        assert ByteAt(w.disk, w.tab[i], o) == ByteAt(u.disk, u.tab[i], o);
      }
    }
  }

  lemma PatchAt(b: Block, at: nat, t: seq<Byte>, k: nat)
    requires at + |t| <= BSIZE && k < BSIZE
    ensures Patch(b, at, t)[k] == if at <= k < at + |t| then t[k - at] else b[k]
  {
  }

  // Writing an inode back.

  lemma InodeStoreRefs(sb: Superblock, v: View, i: nat, n: Inode, m: Inode, l: nat)
    requires Shape(sb, v) && i < sb.ninodes && |n.addrs| == NDIRECT + 1 && GoodInode(sb, m) && l < SLOTS
    ensures Ref(WriteInode(sb, v.disk, i, n), m, l) == Ref(v.disk, m, l)
  {
    InodeBlocks(sb, i);
  }

  /** iupdate leaves ownership and every file's bytes alone. */
  lemma InodeStoreKeeps(sb: Superblock, v: View, i: nat, n: Inode)
    requires Inv(sb, v) && i < sb.ninodes && |n.addrs| == NDIRECT + 1
    ensures var w := View(WriteInode(sb, v.disk, i, n), v.tab, v.owner);
            Inv(sb, w) && Extends(sb, v, w) && SameBits(sb, v.disk, w.disk)
  {
    var w := View(WriteInode(sb, v.disk, i, n), v.tab, v.owner);
    InodeBlocks(sb, i);
    forall j, l | 0 <= j < |v.tab| && 0 <= l < SLOTS ensures Ref(w.disk, w.tab[j], l) == Ref(v.disk, v.tab[j], l) {
      InodeStoreRefs(sb, v, i, n, v.tab[j], l);
    }
    forall e | 0 <= e < sb.size ensures Used(sb, w.disk, e) <==> Used(sb, v.disk, e) { BitmapBlocks(sb, e); }
    forall j, bn | 0 <= j < |v.tab| && 0 <= bn < MAXFILE && DataRef(v.disk, v.tab[j], bn) != 0
      ensures SameBlock(sb, v, w, j, bn)
    {
      RefInData(sb, v, j, bn);
    }
    hide Exact, Ref, Used, WriteInode;
    OwnedAfterStore(sb, v, w);
  }

  // The end of writei.

  function SetSize(n: Inode, size: U32): Inode { Inode(n.kind, n.links, size, n.addrs) }

  lemma SetSizeRef(d: Disk, n: Inode, size: U32, l: nat)
    requires |n.addrs| == NDIRECT + 1 && n.addrs[NDIRECT] < |d| && l < SLOTS
    ensures Ref(d, SetSize(n, size), l) == Ref(d, n, l)
  {
  }

  lemma SetSizeKeeps(sb: Superblock, v: View, i: nat, size: U32)
    requires Inv(sb, v) && i < |v.tab|
    ensures var w := View(v.disk, v.tab[i := SetSize(v.tab[i], size)], v.owner);
            Inv(sb, w) && Extends(sb, v, w)
  {
    var w := View(v.disk, v.tab[i := SetSize(v.tab[i], size)], v.owner);
    forall j, l | 0 <= j < |v.tab| && 0 <= l < SLOTS ensures Ref(w.disk, w.tab[j], l) == Ref(v.disk, v.tab[j], l) {
      SetSizeRef(v.disk, v.tab[i], size, l);
    }
    forall j, bn | 0 <= j < |v.tab| && 0 <= bn < MAXFILE && DataRef(v.disk, v.tab[j], bn) != 0
      ensures SameBlock(sb, v, w, j, bn)
    {
      RefInData(sb, v, j, bn);
    }
    hide Ref, Used;
  }

  lemma WrittenInit(sb: Superblock, v: View, i: nat, off: nat)
    requires Inv(sb, v) && i < |v.tab| && off <= v.tab[i].size && Backed(v.disk, v.tab[i], v.tab[i].size)
    ensures Written(sb, v, v, i, v.tab[i].size, off, [])
  {
    GrowsRefl(sb, v, i);
    hide Exact, ReadInode;
  }

  lemma SpliceLength(c: seq<Byte>, off: nat, s: seq<Byte>)
    requires off <= |c|
    ensures |Splice(c, off, s)| == Max(|c|, off + |s|)
  {
  }

  lemma SpliceAt(c: seq<Byte>, off: nat, s: seq<Byte>, o: nat)
    requires off <= |c| && o < Max(|c|, off + |s|)
    ensures |Splice(c, off, s)| == Max(|c|, off + |s|)
    ensures Splice(c, off, s)[o] == if off <= o < off + |s| then s[o - off] else c[o]
  {
  }

  lemma SetSizeBytes(d: Disk, n: Inode, size: U32)
    requires |n.addrs| == NDIRECT + 1 && n.addrs[NDIRECT] < |d|
    ensures forall o :: 0 <= o ==> ByteAt(d, SetSize(n, size), o) == ByteAt(d, n, o)
    ensures forall m :: 0 <= m && Backed(d, n, m) ==> Backed(d, SetSize(n, size), m)
  {
    forall bn | 0 <= bn < MAXFILE ensures DataRef(d, SetSize(n, size), bn) == DataRef(d, n, bn) {
      SetSizeRef(d, n, size, DataSlot(bn));
    }
    hide Ref;
  }

  /** The bytes of the file after the write are the old ones with s spliced in. */
  lemma WrittenContent(sb: Superblock, v: View, w: View, i: nat, off: nat, s: seq<Byte>, size: U32)
    requires i < |v.tab| && Written(sb, v, w, i, v.tab[i].size, off, s) && off <= v.tab[i].size
    requires size == Max(v.tab[i].size, off + |s|)
    ensures var n := SetSize(w.tab[i], size);
            Backed(w.disk, n, size) && Content(w.disk, n) == Splice(Content(v.disk, v.tab[i]), off, s)
  {
    hide Exact, ReadInode, Backed, OthersKept, Ref, ByteAt, Splice;
    var n := SetSize(w.tab[i], size);
    SetSizeBytes(w.disk, w.tab[i], size);
    var c := Content(v.disk, v.tab[i]);
    var c', e := Content(w.disk, n), Splice(c, off, s);
    SpliceLength(c, off, s);
    forall o | 0 <= o < size ensures c'[o] == e[o] {
      SpliceAt(c, off, s, o);
      assert ByteAt(w.disk, n, o) == ByteAt(w.disk, w.tab[i], o);
    }
  }

  lemma OtherFinal(sb: Superblock, v: View, w: View, x: View, i: nat, j: nat)
    requires Shape(sb, v) && Shape(sb, w) && Shape(sb, x) && OthersKept(sb, v, w, i) && Extends(sb, w, x)
    requires j < |v.tab| && j != i && j < |x.tab| && x.tab[j] == w.tab[j] && Backed(v.disk, v.tab[j], v.tab[j].size)
    ensures x.tab[j] == v.tab[j] && Backed(x.disk, x.tab[j], x.tab[j].size)
    ensures Content(x.disk, x.tab[j]) == Content(v.disk, v.tab[j])
  {
    hide Ref;
    var n := v.tab[j];
    forall bn | 0 <= bn < MAXFILE && DataRef(v.disk, n, bn) != 0
      ensures DataRef(x.disk, n, bn) == DataRef(v.disk, n, bn) < |v.disk|
      ensures x.disk[DataRef(v.disk, n, bn)] == v.disk[DataRef(v.disk, n, bn)]
    {
      assert SameBlock(sb, v, w, j, bn);
      assert SameBlock(sb, w, x, j, bn);
    }
    forall o | 0 <= o < n.size ensures ByteAt(x.disk, n, o) == ByteAt(v.disk, n, o) {
      assert o / BSIZE * BSIZE <= o;
      assert DataRef(v.disk, n, o / BSIZE) != 0;
    }
  }

  // Truncation.

  /** The disks differ in the bitmap at most. */
  ghost predicate BitmapOnly(sb: Superblock, d: Disk, e: Disk) {
    Fits(sb, d) && Fits(sb, e) && forall c :: 0 <= c < sb.size && !(sb.bmapstart <= c < sb.datastart) ==> e[c] == d[c]
  }

  lemma MarkBitmapOnly(sb: Superblock, d: Disk, e: Disk, b: nat, used: bool)
    requires BitmapOnly(sb, d, e) && b < sb.size
    ensures BitmapOnly(sb, d, Mark(sb, e, b, used))
  {
    BitmapBlocks(sb, b);
  }

  lemma BitmapOnlyTrans(sb: Superblock, d: Disk, e: Disk, f: Disk)
    requires BitmapOnly(sb, d, e) && BitmapOnly(sb, e, f)
    ensures BitmapOnly(sb, d, f)
  {
  }

  lemma BitmapOnlyRefs(sb: Superblock, d: Disk, e: Disk, n: Inode, l: nat)
    requires BitmapOnly(sb, d, e) && GoodInode(sb, n) && l < SLOTS
    ensures Ref(e, n, l) == Ref(d, n, l)
  {
  }

  lemma BitmapOnlyInodes(sb: Superblock, d: Disk, e: Disk)
    requires BitmapOnly(sb, d, e)
    ensures forall j :: 0 <= j < sb.ninodes ==> ReadInode(sb, e, j) == ReadInode(sb, d, j)
  {
    forall j | 0 <= j < sb.ninodes ensures ReadInode(sb, e, j) == ReadInode(sb, d, j) { InodeBlocks(sb, j); }
  }

  ghost predicate Emptied(n: Inode) {
    |n.addrs| == NDIRECT + 1 && forall k :: 0 <= k <= NDIRECT ==> n.addrs[k] == 0
  }

  lemma BitmapOnlyOthers(sb: Superblock, v: View, w: View, i: nat)
    requires Inv(sb, v) && Shape(sb, w) && BitmapOnly(sb, v.disk, w.disk) && |w.tab| == |v.tab|
    requires forall j :: 0 <= j < |v.tab| && j != i ==> w.tab[j] == v.tab[j]
    ensures OthersKept(sb, v, w, i)
  {
    forall j, bn | 0 <= j < |v.tab| && j != i && 0 <= bn < MAXFILE && DataRef(v.disk, v.tab[j], bn) != 0
      ensures SameBlock(sb, v, w, j, bn)
    {
      BitmapOnlyRefs(sb, v.disk, w.disk, v.tab[j], DataSlot(bn));
      RefInData(sb, v, j, bn);
    }
  }

  /** Truncation frees exactly the blocks that inode i owned. */
  lemma TruncatedBits(sb: Superblock, v: View, w: View, i: nat, b: nat)
    requires Inv(sb, v) && Inv(sb, w) && BitmapOnly(sb, v.disk, w.disk) && i < |v.tab| == |w.tab| && b < sb.size
    requires Emptied(w.tab[i]) && forall j :: 0 <= j < |v.tab| && j != i ==> w.tab[j] == v.tab[j]
    ensures Used(sb, w.disk, b) <==> Used(sb, v.disk, b) && !(b in v.owner && v.owner[b].inum == i)
  {
    if b in v.owner && v.owner[b].inum != i {
      var s := v.owner[b];
      BitmapOnlyRefs(sb, v.disk, w.disk, v.tab[s.inum], s.k);
      assert Ref(w.disk, w.tab[s.inum], s.k) == b;
    }
    if b in w.owner {
      var s := w.owner[b];
      assert Ref(w.disk, w.tab[s.inum], s.k) == b;
      BitmapOnlyRefs(sb, v.disk, w.disk, w.tab[s.inum], s.k);
      assert s.inum != i;
      assert Ref(v.disk, v.tab[s.inum], s.k) == b;
    }
  }

  /** How many blocks the bytes off..off+n lie in. */
  function Spans(off: nat, n: nat): nat {
    if n == 0 then 0 else (off + n - 1) / BSIZE - off / BSIZE + 1
  }

  lemma SpansStep(off: nat, tot: nat, k: nat, n: nat)
    requires tot == 0 || (off + tot) % BSIZE == 0
    requires 0 < k <= BSIZE - (off + tot) % BSIZE && tot + k <= n
    ensures Spans(off, tot + k) == Spans(off, tot) + 1 <= Spans(off, n)
  {
    assert (off + tot + k - 1) / BSIZE == (off + tot) / BSIZE;
    if tot > 0 { assert (off + tot - 1) / BSIZE == (off + tot) / BSIZE - 1; }
    assert (off + tot + k - 1) / BSIZE <= (off + n - 1) / BSIZE;
  }

  /** How many blocks writing n bytes at off may log: the data blocks, a bitmap block
      for each that can be new, the indirect block and its bitmap block, the inode. A
      write that starts inside a block finds that block allocated. */
  function LogBound(off: nat, n: nat): nat {
    if n == 0 then 1 else 2 * Spans(off, n) + 3 - if off % BSIZE != 0 then 1 else 0
  }

  /** filewrite's chunk of at most three blocks stays within MAXOPBLOCKS. */
  lemma ChunkWithinBudget(off: nat, n: nat)
    requires n <= 3 * BSIZE
    ensures LogBound(off, n) <= 10
  {
  }
}
