/** What a file contains, read through its direct and indirect blocks. */
module FsContent {
  import opened Blocks
  import opened FsLayout
  import opened FsOwnership

  /** The slot that holds block bn of a file. */
  function DataSlot(bn: nat): nat { if bn < NDIRECT then bn else bn + 1 }

  function DataRef(d: Disk, n: Inode, bn: nat): nat
    requires |n.addrs| == NDIRECT + 1 && n.addrs[NDIRECT] < |d| && bn < MAXFILE
  {
    Ref(d, n, DataSlot(bn))
  }

  /** Byte o of the file, 0 where no block is allocated. */
  function ByteAt(d: Disk, n: Inode, o: nat): Byte
    requires |n.addrs| == NDIRECT + 1 && n.addrs[NDIRECT] < |d|
  {
    if o / BSIZE < MAXFILE && 0 < DataRef(d, n, o / BSIZE) < |d| then d[DataRef(d, n, o / BSIZE)][o % BSIZE] else 0
  }

  function Content(d: Disk, n: Inode): (c: seq<Byte>)
    requires |n.addrs| == NDIRECT + 1 && n.addrs[NDIRECT] < |d|
    ensures |c| == n.size && forall o :: 0 <= o < n.size ==> c[o] == ByteAt(d, n, o)
  {
    seq<Byte>(n.size, o requires 0 <= o < n.size => ByteAt(d, n, o))
  }

  /** No holes: every block below `size` is allocated. */
  ghost predicate Backed(d: Disk, n: Inode, size: nat)
    requires |n.addrs| == NDIRECT + 1 && n.addrs[NDIRECT] < |d|
  {
    size <= MAXFILE * BSIZE
    && forall bn :: 0 <= bn < MAXFILE && bn * BSIZE < size ==> DataRef(d, n, bn) != 0
  }

  ghost predicate Solid(sb: Superblock, v: View)
    requires Shape(sb, v)
  {
    forall j :: 0 <= j < |v.tab| ==> Backed(v.disk, v.tab[j], v.tab[j].size)
  }

  /** From v to w every file keeps its allocated blocks and the bytes in them. */
  ghost predicate Extends(sb: Superblock, v: View, w: View)
    requires Shape(sb, v) && Shape(sb, w)
  {
    forall j, bn :: 0 <= j < |v.tab| && 0 <= bn < MAXFILE && DataRef(v.disk, v.tab[j], bn) != 0 ==>
      SameBlock(sb, v, w, j, bn)
  }

  ghost predicate SameBlock(sb: Superblock, v: View, w: View, j: nat, bn: nat)
    requires Shape(sb, v) && Shape(sb, w) && j < |v.tab| && bn < MAXFILE
  {
    && DataRef(w.disk, w.tab[j], bn) == DataRef(v.disk, v.tab[j], bn) < |v.disk|
    && w.disk[DataRef(v.disk, v.tab[j], bn)] == v.disk[DataRef(v.disk, v.tab[j], bn)]
  }

  lemma ExtendsByte(sb: Superblock, v: View, w: View, j: nat, o: nat)
    requires Shape(sb, v) && Shape(sb, w) && Extends(sb, v, w) && j < |v.tab|
    requires o / BSIZE < MAXFILE && DataRef(v.disk, v.tab[j], o / BSIZE) != 0
    ensures DataRef(w.disk, w.tab[j], o / BSIZE) != 0
    ensures ByteAt(w.disk, w.tab[j], o) == ByteAt(v.disk, v.tab[j], o)
  {
    assert SameBlock(sb, v, w, j, o / BSIZE);
  }

  lemma ExtendsTrans(sb: Superblock, u: View, v: View, w: View)
    requires Shape(sb, u) && Shape(sb, v) && Shape(sb, w) && Extends(sb, u, v) && Extends(sb, v, w)
    ensures Extends(sb, u, w)
  {
    forall j, bn | 0 <= j < |u.tab| && 0 <= bn < MAXFILE && DataRef(u.disk, u.tab[j], bn) != 0
      ensures SameBlock(sb, u, w, j, bn)
    {
      assert SameBlock(sb, u, v, j, bn);
      assert SameBlock(sb, v, w, j, bn);
    }
  }

  lemma BackedAfter(sb: Superblock, v: View, w: View, j: nat, size: nat)
    requires Shape(sb, v) && Shape(sb, w) && Extends(sb, v, w) && j < |v.tab|
    requires Backed(v.disk, v.tab[j], size)
    ensures Backed(w.disk, w.tab[j], size)
  {
    forall bn | 0 <= bn < MAXFILE && bn * BSIZE < size ensures DataRef(w.disk, w.tab[j], bn) != 0 {
      assert SameBlock(sb, v, w, j, bn);
    }
  }

  lemma ContentAfter(sb: Superblock, v: View, w: View, j: nat)
    requires Shape(sb, v) && Shape(sb, w) && Extends(sb, v, w) && j < |v.tab| && w.tab[j].size == v.tab[j].size
    requires Backed(v.disk, v.tab[j], v.tab[j].size)
    ensures Content(w.disk, w.tab[j]) == Content(v.disk, v.tab[j])
  {
    forall o | 0 <= o < v.tab[j].size ensures ByteAt(w.disk, w.tab[j], o) == ByteAt(v.disk, v.tab[j], o) {
      assert o / BSIZE * BSIZE <= o;
      ExtendsByte(sb, v, w, j, o);
    }
  }

  /** Allocation disturbs no file. */
  lemma AdoptExtends(sb: Superblock, v: View, b: nat, i: nat, k: nat)
    requires CanAdopt(sb, v, b, i, k)
    ensures Shape(sb, Adopt(sb, v, b, i, k)) && Extends(sb, v, Adopt(sb, v, b, i, k))
  {
    AdoptShape(sb, v, b, i, k);
    var w := Adopt(sb, v, b, i, k);
    forall j, bn | 0 <= j < |v.tab| && 0 <= bn < MAXFILE && DataRef(v.disk, v.tab[j], bn) != 0
      ensures SameBlock(sb, v, w, j, bn)
    {
      var r := DataRef(v.disk, v.tab[j], bn);
      AdoptRefs(sb, v, b, i, k, j, DataSlot(bn));
      assert r in v.owner && v.owner[r] == Slot(j, DataSlot(bn));
      assert v.tab[i].addrs[NDIRECT] != 0 ==> Ref(v.disk, v.tab[i], NDIRECT) in v.owner;
      AdoptBlocks(sb, v, b, i, k, r);
    }
  }

  lemma RefInData(sb: Superblock, v: View, i: nat, bn: nat)
    requires Inv(sb, v) && i < |v.tab| && bn < MAXFILE && DataRef(v.disk, v.tab[i], bn) != 0
    ensures InData(sb, DataRef(v.disk, v.tab[i], bn))
  {
    assert DataRef(v.disk, v.tab[i], bn) in v.owner;
  }

  // Storing into a data block.

  lemma StoreRefs(sb: Superblock, v: View, i: nat, bn: nat, blk: Block, j: nat, l: nat)
    requires Inv(sb, v) && i < |v.tab| && bn < MAXFILE && DataRef(v.disk, v.tab[i], bn) != 0
    requires j < |v.tab| && l < SLOTS
    ensures DataRef(v.disk, v.tab[i], bn) < sb.size
    ensures Ref(v.disk[DataRef(v.disk, v.tab[i], bn) := blk], v.tab[j], l) == Ref(v.disk, v.tab[j], l)
  {
    var c := DataRef(v.disk, v.tab[i], bn);
    assert v.owner[c] == Slot(i, DataSlot(bn));
    if v.tab[j].addrs[NDIRECT] != 0 {
      assert v.owner[Ref(v.disk, v.tab[j], NDIRECT)] == Slot(j, NDIRECT);
    }
  }

  lemma OwnedAfterStore(sb: Superblock, v: View, w: View)
    requires Inv(sb, v) && Shape(sb, w) && w.tab == v.tab && w.owner == v.owner
    requires forall j, l :: 0 <= j < |v.tab| && 0 <= l < SLOTS ==> Ref(w.disk, w.tab[j], l) == Ref(v.disk, v.tab[j], l)
    requires forall c :: 0 <= c < sb.size ==> (Used(sb, w.disk, c) <==> Used(sb, v.disk, c))
    ensures Inv(sb, w)
  {
    hide Ref, Used;
  }

  /** Storing a block of one file changes that block of that file and nothing else. */
  lemma StoreKeeps(sb: Superblock, v: View, i: nat, bn: nat, blk: Block)
    requires Inv(sb, v) && i < |v.tab| && bn < MAXFILE && DataRef(v.disk, v.tab[i], bn) != 0
    ensures InData(sb, DataRef(v.disk, v.tab[i], bn))
    ensures var w := View(v.disk[DataRef(v.disk, v.tab[i], bn) := blk], v.tab, v.owner);
            && Inv(sb, w)
            && (forall j, m :: 0 <= j < |v.tab| && 0 <= m < MAXFILE ==>
                  DataRef(w.disk, v.tab[j], m) == DataRef(v.disk, v.tab[j], m))
            && (forall j, m ::
                  (0 <= j < |v.tab| && 0 <= m < MAXFILE && (j != i || m != bn) && DataRef(v.disk, v.tab[j], m) != 0)
                  ==> SameBlock(sb, v, w, j, m))
  {
    var c := DataRef(v.disk, v.tab[i], bn);
    assert v.owner[c] == Slot(i, DataSlot(bn));
    var w := View(v.disk[c := blk], v.tab, v.owner);
    forall j, l | 0 <= j < |v.tab| && 0 <= l < SLOTS ensures Ref(w.disk, w.tab[j], l) == Ref(v.disk, v.tab[j], l) {
      StoreRefs(sb, v, i, bn, blk, j, l);
    }
    forall e | 0 <= e < sb.size ensures Used(sb, w.disk, e) <==> Used(sb, v.disk, e) { BitmapBlocks(sb, e); }
    OwnedAfterStore(sb, v, w);
    forall j, m | 0 <= j < |v.tab| && 0 <= m < MAXFILE && (j != i || m != bn) && DataRef(v.disk, v.tab[j], m) != 0
      ensures SameBlock(sb, v, w, j, m)
    {
      assert v.owner[DataRef(v.disk, v.tab[j], m)] == Slot(j, DataSlot(m));
    }
  }

  // The flat view of a file.

  function Splice(c: seq<Byte>, off: nat, s: seq<Byte>): seq<Byte>
    requires off <= |c|
  {
    c[..off] + s + if off + |s| <= |c| then c[off + |s|..] else []
  }
}
