/** A file system in which truncating a file of ten blocks logs more than one operation may:
    each block of the file has its bit in another bitmap block. */
module FsTruncateState {
  import opened Wrappers
  import LogDisk
  import opened Blocks
  import opened FsLayout
  import opened FsOwnership
  import opened FsContent
  import opened FsWrite
  import opened FsBudget
  import opened Fs

  const SB: Superblock := Superblock(81920, 1, 32, 33, 43)
  const BLOCKS: nat := 10

  /** Where block k of the file is. */
  function Place(k: nat): nat { BPB * k + 100 }

  ghost predicate Taken(m: nat, c: nat) { c % BPB == 100 && c / BPB < m }

  /** The first m blocks of the one file are there. */
  ghost predicate Built(v: View, m: nat) {
    && Inv(SB, v) && v.tab[0].size == BLOCKS * BSIZE
    && (forall k :: 0 <= k < SLOTS ==> Ref(v.disk, v.tab[0], k) == if k < m then Place(k) else 0)
    && (forall c :: 0 <= c < SB.size ==> (Used(SB, v.disk, c) <==> c < SB.datastart || Taken(m, c)))
  }

  lemma Start() returns (v: View)
    ensures Built(v, 0)
  {
    var d := Marked(SB, SB.datastart);
    v := View(d, [Inode(2, 0x1_0000, BLOCKS * BSIZE, seq<U32>(NDIRECT + 1, _ => 0))], map[]);
    hide Used;
  }

  lemma {:induction false} Build(m: nat) returns (v: View)
    requires m <= BLOCKS
    ensures Built(v, m)
  {
    if m == 0 {
      v := Start();
    } else {
      var u := Build(m - 1);
      v := BuildStep(u, m - 1);
    }
  }

  lemma BuildStep(u: View, m: nat) returns (v: View)
    requires Built(u, m) && m < BLOCKS
    ensures Built(v, m + 1)
  {
    hide Exact, Ref, Used;
    assert Ref(u.disk, u.tab[0], m) == 0;
    v := Adopt(SB, u, Place(m), 0, m);
    AdoptKeeps(SB, u, Place(m), 0, m);
    forall k | 0 <= k < SLOTS ensures Ref(v.disk, v.tab[0], k) == if k < m + 1 then Place(k) else 0 {
      AdoptRefs(SB, u, Place(m), 0, m, 0, k);
    }
    forall c | 0 <= c < SB.size ensures Used(SB, v.disk, c) <==> c < SB.datastart || Taken(m + 1, c) {
      AdoptBits(SB, u, Place(m), 0, m, c);
    }
  }

  /** The inode written to disk. */
  lemma Flush(u: View) returns (v: View)
    requires Built(u, BLOCKS)
    ensures Built(v, BLOCKS) && Synced(SB, v, SB.ninodes)
  {
    hide Exact, Ref, Used, ReadInode, WriteInode;
    v := View(WriteInode(SB, u.disk, 0, u.tab[0]), u.tab, u.owner);
    InodeStoreKeeps(SB, u, 0, u.tab[0]);
    forall k | 0 <= k < SLOTS ensures Ref(v.disk, v.tab[0], k) == Ref(u.disk, u.tab[0], k) {
      InodeStoreRefs(SB, u, 0, u.tab[0], u.tab[0], k);
    }
    ReadOfWriteInode(SB, u.disk, 0, u.tab[0], 0);
  }

  lemma BitsApart(v: View)
    requires Built(v, BLOCKS)
    ensures |Bitmaps(SB, BlocksOfFile(v, 0))| >= BLOCKS
  {
    hide Exact, Ref, Used;
    var s := Bitmaps(SB, BlocksOfFile(v, 0));
    var maps := seq(BLOCKS, k => SB.bmapstart + k);
    forall k | 0 <= k < BLOCKS ensures maps[k] in s {
      OwnedRef(SB, v, 0, 0, 0, k);
      assert Place(k) in BlocksOfFile(v, 0);
      assert BBlock(SB, Place(k)) == SB.bmapstart + k;
    }
    DistinctFit(maps, s);
  }

  lemma BuiltSolid(v: View)
    requires Built(v, BLOCKS)
    ensures Solid(SB, v)
  {
    hide Exact, Ref, Used;
    forall bn | 0 <= bn < MAXFILE && bn * BSIZE < BLOCKS * BSIZE ensures DataRef(v.disk, v.tab[0], bn) != 0 {
      assert DataSlot(bn) == bn;
    }
  }

  /** The state is one that the kernel keeps, and truncating its file is over the budget. */
  lemma TruncationOverBudget() returns (v: View)
    ensures Resting(SB, v)
    ensures |Bitmaps(SB, BlocksOfFile(v, 0))| >= LogDisk.MAXOPBLOCKS
    ensures |Bitmaps(SB, BlocksOfFile(v, 0)) + {IBlock(SB, 0)}| > LogDisk.MAXOPBLOCKS
  {
    v := Build(BLOCKS);
    v := Flush(v);
    BuiltSolid(v);
    BitsApart(v);
    hide Exact, Ref, Used, Bitmaps, BlocksOfFile, ReadInode, Solid;
    TruncateBudget(SB, v, 0, LogDisk.MAXOPBLOCKS);
  }
}
