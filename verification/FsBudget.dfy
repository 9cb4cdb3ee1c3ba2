/** What a write logs: the blocks that balloc hands out, first fit, with their bitmap
    blocks, the indirect block, and the data blocks written. */
module FsBudget {
  import opened Wrappers
  import opened Blocks
  import opened FsLayout
  import opened FsOwnership
  import opened FsContent
  import opened FsWrite

  /** A transaction of the log: its writes and the file system after it. */
  datatype Tx = Tx(writes: seq<Update>, view: View)

  ghost function NewBlocks(v: View, w: View): set<nat> { w.owner.Keys - v.owner.Keys }

  /** The bitmap blocks that hold the bits of the blocks in s. */
  function Bitmaps(sb: Superblock, s: set<nat>): set<nat> { set b | b in s :: BBlock(sb, b) }

  ghost predicate NewEntry(v: View, w: View) { exists b :: b in NewBlocks(v, w) && w.owner[b].k > NDIRECT }

  /** Everything that bmap logs on the way from v to w, for inode i. */
  ghost function Cost(sb: Superblock, v: View, w: View, i: nat): set<nat>
    requires i < |w.tab| && |w.tab[i].addrs| == NDIRECT + 1
  {
    NewBlocks(v, w) + Bitmaps(sb, NewBlocks(v, w)) + if NewEntry(v, w) then {w.tab[i].addrs[NDIRECT]} else {}
  }

  /** Slot k is that of a file block in lo..hi, or of the indirect block that one of those needs. */
  predicate InSpan(k: nat, lo: nat, hi: nat) {
    if k == NDIRECT then lo < hi && NDIRECT < hi else lo <= (if k < NDIRECT then k else k - 1) < hi
  }

  /** From v to w blocks were allocated, first fit, to slots of inode i for file blocks lo..hi. */
  ghost predicate Allocated(sb: Superblock, v: View, w: View, i: nat, lo: nat, hi: nat) {
    && (forall b :: b in v.owner ==> b in w.owner && w.owner[b] == v.owner[b])
    && (forall b :: b in NewBlocks(v, w) ==> w.owner[b].inum == i && InSpan(w.owner[b].k, lo, hi))
    && (forall b, c :: b in NewBlocks(v, w) && sb.datastart <= c < b && c !in v.owner ==> c in w.owner)
  }

  lemma AllocatedNone(sb: Superblock, v: View, i: nat, lo: nat, hi: nat)
    requires i < |v.tab| && |v.tab[i].addrs| == NDIRECT + 1
    ensures Allocated(sb, v, v, i, lo, hi) && Cost(sb, v, v, i) == {}
  {
  }

  lemma AllocatedOne(sb: Superblock, v: View, w: View, i: nat, lo: nat, hi: nat, b: nat, k: nat)
    requires i < |w.tab| && |w.tab[i].addrs| == NDIRECT + 1
    requires w.owner == v.owner[b := Slot(i, k)] && b !in v.owner && InSpan(k, lo, hi)
    requires forall c :: sb.datastart <= c < b ==> c in v.owner
    ensures Allocated(sb, v, w, i, lo, hi)
    ensures Cost(sb, v, w, i) == {b, BBlock(sb, b)} + if k > NDIRECT then {w.tab[i].addrs[NDIRECT]} else {}
  {
    assert NewBlocks(v, w) == {b};
    assert Bitmaps(sb, {b}) == {BBlock(sb, b)};
  }

  lemma AllocatedWiden(sb: Superblock, v: View, w: View, i: nat, lo: nat, hi: nat, lo': nat, hi': nat)
    requires Allocated(sb, v, w, i, lo, hi) && lo' <= lo && hi <= hi'
    ensures Allocated(sb, v, w, i, lo', hi')
  {
  }

  lemma NewEntryHasBlock(sb: Superblock, v: View, w: View, i: nat, lo: nat, hi: nat)
    requires Inv(sb, w) && i < |w.tab| && Allocated(sb, v, w, i, lo, hi) && NewEntry(v, w)
    ensures w.tab[i].addrs[NDIRECT] != 0
  {
    var b :| b in NewBlocks(v, w) && w.owner[b].k > NDIRECT;
    assert Ref(w.disk, w.tab[i], w.owner[b].k) == b;
  }

  lemma AllocatedTrans(sb: Superblock, u: View, v: View, w: View, i: nat, lo: nat, hi: nat)
    requires Inv(sb, v) && Inv(sb, w) && i < |v.tab| == |w.tab|
    requires Allocated(sb, u, v, i, lo, hi) && Allocated(sb, v, w, i, lo, hi)
    requires v.tab[i].addrs[NDIRECT] != 0 ==> w.tab[i].addrs[NDIRECT] == v.tab[i].addrs[NDIRECT]
    ensures Allocated(sb, u, w, i, lo, hi)
    ensures Cost(sb, u, w, i) == Cost(sb, u, v, i) + Cost(sb, v, w, i)
  {
    hide Exact, InSpan;
    assert NewBlocks(u, w) == NewBlocks(u, v) + NewBlocks(v, w);
    if NewEntry(u, v) {
      NewEntryHasBlock(sb, u, v, i, lo, hi);
      var b :| b in NewBlocks(u, v) && v.owner[b].k > NDIRECT;
      assert b in NewBlocks(u, w);
    }
    if NewEntry(v, w) {
      var b :| b in NewBlocks(v, w) && w.owner[b].k > NDIRECT;
      assert b in NewBlocks(u, w);
    }
  }

  /** Storing bytes, or an inode, allocates nothing. */
  lemma AllocatedSame(sb: Superblock, v: View, u: View, w: View, i: nat, lo: nat, hi: nat)
    requires Allocated(sb, v, u, i, lo, hi) && w.owner == u.owner && i < |w.tab| == |u.tab|
    requires |w.tab[i].addrs| == |u.tab[i].addrs| == NDIRECT + 1 && w.tab[i].addrs[NDIRECT] == u.tab[i].addrs[NDIRECT]
    ensures Allocated(sb, v, w, i, lo, hi) && Cost(sb, v, w, i) == Cost(sb, v, u, i)
  {
  }

  /** The blocks that hold file blocks lo..hi. */
  function Touched(d: Disk, n: Inode, lo: nat, hi: nat): (r: set<nat>)
    requires |n.addrs| == NDIRECT + 1 && n.addrs[NDIRECT] < |d| && hi <= MAXFILE
    ensures |r| <= if lo < hi then hi - lo else 0
    ensures forall bn :: lo <= bn < hi ==> DataRef(d, n, bn) in r
  {
    if lo < hi then Touched(d, n, lo, hi - 1) + {DataRef(d, n, hi - 1)} else {}
  }

  lemma {:induction false} TouchedKept(d: Disk, n: Inode, e: Disk, m: Inode, lo: nat, hi: nat)
    requires |n.addrs| == NDIRECT + 1 && n.addrs[NDIRECT] < |d| && hi <= MAXFILE
    requires |m.addrs| == NDIRECT + 1 && m.addrs[NDIRECT] < |e|
    requires forall bn :: lo <= bn < hi ==> DataRef(e, m, bn) == DataRef(d, n, bn)
    ensures Touched(e, m, lo, hi) == Touched(d, n, lo, hi)
  {
    if lo < hi { TouchedKept(d, n, e, m, lo, hi - 1); }
  }

  /** What writing tot of n bytes at off has logged since `base`. */
  ghost predicate Logs(sb: Superblock, base: set<nat>, logged: set<nat>, v: View, w: View, i: nat, off: nat, tot: nat,
                       n: nat) {
    && Shape(sb, w) && i < |w.tab| && tot <= n && off + n <= MAXFILE * BSIZE
    && var lo := off / BSIZE;
       && Allocated(sb, v, w, i, lo, lo + Spans(off, n))
       && lo + Spans(off, tot) <= MAXFILE
       && logged == base + Cost(sb, v, w, i) + Touched(w.disk, w.tab[i], lo, lo + Spans(off, tot))
  }

  /** No block is left for byte o of file i, which has none. */
  ghost predicate Stuck(sb: Superblock, v: View, i: nat, o: nat) {
    && Shape(sb, v) && i < |v.tab| && Full(sb, v.disk)
    && o / BSIZE < MAXFILE && DataRef(v.disk, v.tab[i], o / BSIZE) == 0
  }

  lemma LogsNone(sb: Superblock, base: set<nat>, v: View, i: nat, off: nat, n: nat)
    requires Shape(sb, v) && i < |v.tab| && off + n <= MAXFILE * BSIZE
    ensures Logs(sb, base, base, v, v, i, off, 0, n)
  {
    AllocatedNone(sb, v, i, off / BSIZE, off / BSIZE + Spans(off, n));
  }

  /** Blocks that file i has stay its blocks. */
  ghost predicate KeepsRefs(sb: Superblock, v: View, w: View, i: nat)
    requires Shape(sb, v) && Shape(sb, w)
  {
    i < |v.tab| == |w.tab| && forall bn :: 0 <= bn < MAXFILE && DataRef(v.disk, v.tab[i], bn) != 0 ==>
      DataRef(w.disk, w.tab[i], bn) == DataRef(v.disk, v.tab[i], bn)
  }

  lemma KeepsRefsTrans(sb: Superblock, u: View, v: View, w: View, i: nat)
    requires Shape(sb, u) && Shape(sb, v) && Shape(sb, w) && KeepsRefs(sb, u, v, i) && KeepsRefs(sb, v, w, i)
    ensures KeepsRefs(sb, u, w, i)
  {
    hide DataRef;
  }

  lemma GrowsKeepsRefs(sb: Superblock, v: View, w: View, i: nat)
    requires Grows(sb, v, w, i)
    ensures KeepsRefs(sb, v, w, i)
  {
    hide Exact, DataRef;
    forall bn | 0 <= bn < MAXFILE && DataRef(v.disk, v.tab[i], bn) != 0
      ensures DataRef(w.disk, w.tab[i], bn) == DataRef(v.disk, v.tab[i], bn)
    {
      assert SameBlock(sb, v, w, i, bn);
    }
  }

  lemma StoreKeepsRefs(sb: Superblock, v: View, i: nat, bn: nat, blk: Block)
    requires Inv(sb, v) && i < |v.tab| && bn < MAXFILE && DataRef(v.disk, v.tab[i], bn) != 0
    ensures InData(sb, DataRef(v.disk, v.tab[i], bn))
    ensures var w := View(v.disk[DataRef(v.disk, v.tab[i], bn) := blk], v.tab, v.owner);
            Shape(sb, w) && KeepsRefs(sb, v, w, i) && DataRef(w.disk, w.tab[i], bn) == DataRef(v.disk, v.tab[i], bn)
  {
    hide Exact, DataRef;
    StoreKeeps(sb, v, i, bn, blk);
  }

  /** One more block, of which m bytes are stored unless `stored` is false. */
  lemma LogsMore(sb: Superblock, base: set<nat>, was: set<nat>, logged: set<nat>, u: View, v: View, w: View, i: nat,
                 off: nat, tot: nat, m: nat, n: nat, stored: bool)
    requires Logs(sb, base, was, u, v, i, off, tot, n) && Inv(sb, v) && Inv(sb, w) && i < |v.tab| == |w.tab|
    requires tot == 0 || (off + tot) % BSIZE == 0
    requires 0 < m <= BSIZE - (off + tot) % BSIZE && tot + m <= n
    requires v.tab[i].addrs[NDIRECT] != 0 ==> w.tab[i].addrs[NDIRECT] == v.tab[i].addrs[NDIRECT]
    requires KeepsRefs(sb, v, w, i) && Backed(v.disk, v.tab[i], off + tot)
    requires var bn := (off + tot) / BSIZE;
             && Allocated(sb, v, w, i, bn, bn + 1)
             && logged == was + Cost(sb, v, w, i) + if stored then {DataRef(w.disk, w.tab[i], bn)} else {}
    ensures Logs(sb, base, logged, u, w, i, off, if stored then tot + m else tot, n)
  {
    hide Exact, Allocated, Cost, DataRef, Spans, Touched, GoodInode;
    var lo, bn := off / BSIZE, (off + tot) / BSIZE;
    SpansStep(off, tot, m, n);
    SpanPlace(off, tot, n);
    AllocatedWiden(sb, v, w, i, bn, bn + 1, lo, lo + Spans(off, n));
    AllocatedTrans(sb, u, v, w, i, lo, lo + Spans(off, n));
    TouchedNext(sb, v, w, i, lo, bn);
  }

  lemma TouchedNext(sb: Superblock, v: View, w: View, i: nat, lo: nat, bn: nat)
    requires Shape(sb, v) && Shape(sb, w) && KeepsRefs(sb, v, w, i) && lo <= bn < MAXFILE
    requires forall b :: lo <= b < bn ==> DataRef(v.disk, v.tab[i], b) != 0
    ensures Touched(w.disk, w.tab[i], lo, bn) == Touched(v.disk, v.tab[i], lo, bn)
    ensures Touched(w.disk, w.tab[i], lo, bn + 1) == Touched(v.disk, v.tab[i], lo, bn) + {DataRef(w.disk, w.tab[i], bn)}
  {
    hide DataRef;
    TouchedKept(v.disk, v.tab[i], w.disk, w.tab[i], lo, bn);
  }

  lemma SpanPlace(off: nat, tot: nat, n: nat)
    requires tot < n && off + n <= MAXFILE * BSIZE && (tot == 0 || (off + tot) % BSIZE == 0)
    ensures var lo, k := off / BSIZE, off / BSIZE + Spans(off, tot);
            && (off + tot) / BSIZE == k < lo + Spans(off, n) <= MAXFILE
            && forall b :: 0 <= b < k ==> b * BSIZE < off + tot
  {
  }

  // The bound.

  lemma {:induction false} TouchedMore(d: Disk, n: Inode, lo: nat, mid: nat, hi: nat)
    requires |n.addrs| == NDIRECT + 1 && n.addrs[NDIRECT] < |d| && mid <= hi <= MAXFILE
    ensures Touched(d, n, lo, mid) <= Touched(d, n, lo, hi)
  {
    if mid < hi { TouchedMore(d, n, lo, mid, hi - 1); }
  }

  lemma BitmapsMore(sb: Superblock, s: set<nat>, b: nat)
    ensures Bitmaps(sb, s + {b}) == Bitmaps(sb, s) + {BBlock(sb, b)}
  {
    hide BBlock;
  }

  lemma {:induction false} BitmapsCard(sb: Superblock, s: set<nat>)
    ensures |Bitmaps(sb, s)| <= |s|
  {
    if s != {} {
      hide BBlock, Bitmaps;
      var b :| b in s;
      BitmapsCard(sb, s - {b});
      BitmapsMore(sb, s - {b}, b);
      assert s == (s - {b}) + {b};
    }
  }

  /** A new block is the indirect block or one of the file blocks the span covers; the
      first of them cannot be new if the write starts `inside` it. */
  lemma NewIsTouched(sb: Superblock, v: View, w: View, i: nat, lo: nat, hi: nat, inside: bool, b: nat)
    requires Inv(sb, v) && Inv(sb, w) && i < |v.tab| == |w.tab| && Allocated(sb, v, w, i, lo, hi) && hi <= MAXFILE
    requires inside ==> lo < hi && DataRef(v.disk, v.tab[i], lo) != 0
    requires b in NewBlocks(v, w)
    ensures lo < hi && b in Touched(w.disk, w.tab[i], if inside then lo + 1 else lo, hi) + {w.tab[i].addrs[NDIRECT]}
  {
    hide Exact, Touched;
    OwnerPoints(sb, w, b);
    var k := w.owner[b].k;
    if k != NDIRECT {
      var bn := if k < NDIRECT then k else k - 1;
      assert DataRef(w.disk, w.tab[i], bn) == b;
      if inside {
        OwnedRef(sb, v, 0, 0, i, DataSlot(lo));
        OwnerPoints(sb, w, DataRef(v.disk, v.tab[i], lo));
        assert bn != lo;
      }
    }
  }

  lemma NewWithin(sb: Superblock, v: View, w: View, i: nat, lo: nat, hi: nat, inside: bool)
    requires Inv(sb, v) && Inv(sb, w) && i < |v.tab| == |w.tab| && Allocated(sb, v, w, i, lo, hi) && hi <= MAXFILE
    requires inside ==> lo < hi && DataRef(v.disk, v.tab[i], lo) != 0
    ensures NewBlocks(v, w) <= Touched(w.disk, w.tab[i], if inside then lo + 1 else lo, hi) + {w.tab[i].addrs[NDIRECT]}
    ensures lo == hi ==> NewBlocks(v, w) == {}
  {
    hide Exact, DataRef, Allocated, Touched;
    forall b | b in NewBlocks(v, w)
      ensures lo < hi && b in Touched(w.disk, w.tab[i], if inside then lo + 1 else lo, hi) + {w.tab[i].addrs[NDIRECT]}
    {
      NewIsTouched(sb, v, w, i, lo, hi, inside, b);
    }
  }

  lemma SpansFit(off: nat, tot: nat, n: nat)
    requires tot <= n && off + n <= MAXFILE * BSIZE
    ensures Spans(off, tot) <= Spans(off, n) && off / BSIZE + Spans(off, n) <= MAXFILE
    ensures n > 0 <==> Spans(off, n) > 0
  {
  }

  lemma BoundOfSpans(off: nat, n: nat)
    ensures LogBound(off, n) == if n == 0 then 1 else 2 * Spans(off, n) + 3 - if off % BSIZE != 0 then 1 else 0
  {
  }

  /** New blocks, their bitmap blocks, the data blocks and the inode's block, counted. */
  lemma CostCard(sb: Superblock, base: set<nat>, logged: set<nat>, added: set<nat>, extra: set<nat>, data: set<nat>,
                 fits: set<nat>, ind: nat, ib: nat)
    requires logged <= base + (added + Bitmaps(sb, added) + extra) + data
    requires extra <= {ind} && added <= fits && added <= data + {ind}
    ensures |logged + {ib} - base| <= |data| + |fits| + 2
  {
    SubsetCard(added, fits);
    BitmapsCard(sb, added);
    hide Bitmaps;
    SubsetCard(logged + {ib} - base, data + {ind} + Bitmaps(sb, added) + {ib});
  }

  lemma SpanBound(sb: Superblock, base: set<nat>, logged: set<nat>, v: View, w: View, i: nat, lo: nat, hi: nat,
                  inside: bool, ib: nat)
    requires Inv(sb, v) && Inv(sb, w) && i < |v.tab| == |w.tab| && Allocated(sb, v, w, i, lo, hi) && lo <= hi <= MAXFILE
    requires inside ==> lo < hi && DataRef(v.disk, v.tab[i], lo) != 0
    requires logged <= base + Cost(sb, v, w, i) + Touched(w.disk, w.tab[i], lo, hi)
    ensures |logged + {ib} - base| <= if lo == hi then 1 else 2 * (hi - lo) + 3 - if inside then 1 else 0
  {
    hide Exact, DataRef, Allocated, Cost, Touched, NewBlocks;
    NewWithin(sb, v, w, i, lo, hi, inside);
    NewWithin(sb, v, w, i, lo, hi, false);
    if lo == hi {
      CostOfNothing(sb, v, w, i);
      SubsetCard(logged + {ib} - base, {ib});
    } else {
      CostOfSome(sb, base, logged, v, w, i, Touched(w.disk, w.tab[i], lo, hi),
                 Touched(w.disk, w.tab[i], if inside then lo + 1 else lo, hi), ib);
    }
  }

  lemma CostOfSome(sb: Superblock, base: set<nat>, logged: set<nat>, v: View, w: View, i: nat, data: set<nat>,
                   fits: set<nat>, ib: nat)
    requires i < |w.tab| && |w.tab[i].addrs| == NDIRECT + 1 && logged <= base + Cost(sb, v, w, i) + data
    requires NewBlocks(v, w) <= fits + {w.tab[i].addrs[NDIRECT]} && NewBlocks(v, w) <= data + {w.tab[i].addrs[NDIRECT]}
    ensures |logged + {ib} - base| <= |data| + |fits| + 3
  {
    hide Bitmaps, NewEntry, NewBlocks, BBlock;
    var ind := w.tab[i].addrs[NDIRECT];
    CostCard(sb, base, logged, NewBlocks(v, w), if NewEntry(v, w) then {ind} else {}, data, fits + {ind}, ind, ib);
  }

  lemma CostOfNothing(sb: Superblock, v: View, w: View, i: nat)
    requires i < |w.tab| && |w.tab[i].addrs| == NDIRECT + 1 && NewBlocks(v, w) == {}
    ensures Cost(sb, v, w, i) == {}
  {
  }

  /** Only bitmap and data blocks are logged besides the inode. */
  lemma LogsBelong(sb: Superblock, base: set<nat>, logged: set<nat>, v: View, w: View, i: nat, off: nat, tot: nat,
                   n: nat)
    requires Inv(sb, v) && Inv(sb, w) && i < |v.tab| == |w.tab| && Logs(sb, base, logged, v, w, i, off, tot, n)
    requires Backed(w.disk, w.tab[i], off + tot)
    ensures forall b :: b in logged && b !in base ==> sb.bmapstart <= b < sb.size
  {
    hide Allocated, DataRef, Exact, Spans, Touched, Cost;
    var lo, hi := off / BSIZE, off / BSIZE + Spans(off, tot);
    SpanBelow(off, tot);
    forall bn | lo <= bn < hi ensures InData(sb, DataRef(w.disk, w.tab[i], bn)) { RefInData(sb, w, i, bn); }
    TouchedBelong(sb, w.disk, w.tab[i], lo, hi);
    CostBelongs(sb, v, w, i, lo, lo + Spans(off, n));
  }

  lemma SpanBelow(off: nat, tot: nat)
    ensures forall bn :: 0 <= bn < off / BSIZE + Spans(off, tot) ==> bn * BSIZE < off + tot
  {
  }

  lemma CostBelongs(sb: Superblock, v: View, w: View, i: nat, lo: nat, hi: nat)
    requires Inv(sb, w) && i < |w.tab| && Allocated(sb, v, w, i, lo, hi)
    ensures forall b :: b in Cost(sb, v, w, i) ==> sb.bmapstart <= b < sb.size
  {
    hide Allocated, Exact;
    forall b | b in NewBlocks(v, w) ensures InData(sb, b) && sb.bmapstart <= BBlock(sb, b) < sb.size {
      OwnerPoints(sb, w, b);
      BitmapBlocks(sb, b);
    }
    if NewEntry(v, w) { NewEntryHasBlock(sb, v, w, i, lo, hi); }
  }

  lemma {:induction false} TouchedBelong(sb: Superblock, d: Disk, n: Inode, lo: nat, hi: nat)
    requires |n.addrs| == NDIRECT + 1 && n.addrs[NDIRECT] < |d| && hi <= MAXFILE
    requires forall bn :: lo <= bn < hi ==> InData(sb, DataRef(d, n, bn))
    ensures forall b :: b in Touched(d, n, lo, hi) ==> InData(sb, b)
  {
    if lo < hi { TouchedBelong(sb, d, n, lo, hi - 1); }
  }

  /** Writing n bytes logs at most the bound, the inode's block included. */
  lemma LogsBound(sb: Superblock, base: set<nat>, logged: set<nat>, v: View, w: View, i: nat, off: nat, tot: nat,
                  n: nat, ib: nat)
    requires Inv(sb, v) && Inv(sb, w) && i < |v.tab| == |w.tab| && Logs(sb, base, logged, v, w, i, off, tot, n)
    requires n > 0 && off % BSIZE != 0 ==> off / BSIZE < MAXFILE && DataRef(v.disk, v.tab[i], off / BSIZE) != 0
    ensures |logged + {ib} - base| <= LogBound(off, n)
  {
    hide Exact, DataRef, Allocated, Cost, Touched, Spans, LogBound;
    SpansFit(off, tot, n);
    BoundOfSpans(off, n);
    var lo, k, hi := off / BSIZE, Spans(off, tot), off / BSIZE + Spans(off, n);
    TouchedMore(w.disk, w.tab[i], lo, lo + k, hi);
    SpanBound(sb, base, logged, v, w, i, lo, hi, n > 0 && off % BSIZE != 0, ib);
  }

  // What truncation logs: the bitmap blocks of the blocks it frees.

  ghost predicate Freed(sb: Superblock, base: set<nat>, logged: set<nat>, v: View, w: View) {
    w.owner.Keys <= v.owner.Keys && logged == base + Bitmaps(sb, NewBlocks(w, v))
  }

  lemma FreedNone(sb: Superblock, base: set<nat>, v: View)
    ensures Freed(sb, base, base, v, v)
  {
    assert Bitmaps(sb, {}) == {};
  }

  lemma FreedMore(sb: Superblock, base: set<nat>, was: set<nat>, logged: set<nat>, v: View, w: View, b: nat, x: View)
    requires Freed(sb, base, was, v, w) && b in w.owner && x.owner == w.owner - {b} && logged == was + {BBlock(sb, b)}
    ensures Freed(sb, base, logged, v, x)
  {
    BitmapsMore(sb, NewBlocks(w, v), b);
    hide Bitmaps, BBlock;
    assert NewBlocks(x, v) == NewBlocks(w, v) + {b};
  }

  lemma FreedTrans(sb: Superblock, base: set<nat>, was: set<nat>, logged: set<nat>, u: View, v: View, w: View)
    requires Freed(sb, base, was, u, v) && Freed(sb, was, logged, v, w)
    ensures Freed(sb, base, logged, u, w)
  {
    hide BBlock;
    assert NewBlocks(w, u) == NewBlocks(v, u) + NewBlocks(w, v);
  }

  /** The blocks of file i. */
  ghost function BlocksOfFile(v: View, i: nat): set<nat> { set b | b in v.owner && v.owner[b].inum == i }

  lemma FreedAll(sb: Superblock, base: set<nat>, logged: set<nat>, v: View, w: View, i: nat)
    requires Inv(sb, v) && Inv(sb, w) && Freed(sb, base, logged, v, w)
    requires forall b :: 0 <= b < sb.size ==> (Used(sb, w.disk, b) <==>
               Used(sb, v.disk, b) && !(b in v.owner && v.owner[b].inum == i))
    ensures logged == base + Bitmaps(sb, BlocksOfFile(v, i))
  {
    hide Used, Ref, Bitmaps;
    assert NewBlocks(w, v) == BlocksOfFile(v, i);
  }

  /** Truncation stays within a budget of n blocks exactly if the bits of the file's blocks lie in
      fewer than n bitmap blocks. */
  lemma TruncateBudget(sb: Superblock, v: View, i: nat, n: nat)
    requires Inv(sb, v) && i < sb.ninodes
    ensures |Bitmaps(sb, BlocksOfFile(v, i)) + {IBlock(sb, i)}| <= n <==> |Bitmaps(sb, BlocksOfFile(v, i))| < n
  {
    hide Exact;
    InodeBlocks(sb, i);
    forall b | b in BlocksOfFile(v, i) ensures sb.bmapstart <= BBlock(sb, b) {
      OwnerPoints(sb, v, b);
      BitmapBlocks(sb, b);
    }
    assert IBlock(sb, i) !in Bitmaps(sb, BlocksOfFile(v, i));
  }

  lemma TruncateBelongs(sb: Superblock, v: View, i: nat)
    requires Inv(sb, v) && i < sb.ninodes
    ensures forall b :: b in Bitmaps(sb, BlocksOfFile(v, i)) + {IBlock(sb, i)} ==> sb.inodestart <= b < sb.size
  {
    hide Exact;
    InodeBlocks(sb, i);
    forall b | b in BlocksOfFile(v, i) ensures sb.bmapstart <= BBlock(sb, b) < sb.datastart {
      OwnerPoints(sb, v, b);
      BitmapBlocks(sb, b);
    }
  }
}
