/** The block allocator and the inode layer of kernel/fs.c. */
module Fs {
  import opened Blocks
  import opened FsLayout
  import opened FsOwnership
  import opened FsContent
  import opened FsWrite
  import opened FsBudget

  type Addrs = a: seq<U32> | |a| == NDIRECT + 1 witness seq<U32>(NDIRECT + 1, _ => 0)

  /** A locked in-memory inode. */
  class Incore {
    const inum: nat
    const kind: U32
    const links: U32
    var size: U32
    var addrs: Addrs

    function N(): Inode
      reads this
    {
      Inode(kind, links, size, addrs)
    }
  }

  /** Every inode but `inum` is on disk as the table has it. */
  ghost predicate Synced(sb: Superblock, v: View, inum: nat) {
    && Fits(sb, v.disk) && |v.tab| == sb.ninodes
    && forall j :: 0 <= j < sb.ninodes && j != inum ==> v.tab[j] == ReadInode(sb, v.disk, j)
  }

  /** What holds between operations: ownership is exact, files have no holes, and every
      inode is on disk. */
  ghost predicate Resting(sb: Superblock, v: View) { Inv(sb, v) && Solid(sb, v) && Synced(sb, v, sb.ninodes) }

  /** A transaction that takes disk d to a file system at rest, writing nothing below the inodes. */
  ghost predicate Steps(sb: Superblock, d: Disk, tx: Tx) {
    && Resting(sb, tx.view) && tx.view.disk == Applied(d, tx.writes)
    && forall b :: b in BlocksOf(tx.writes) ==> sb.inodestart <= b < sb.size
  }

  /** The file system after k transactions on v. */
  function ViewAt(v: View, txs: seq<Tx>, k: nat): View
    requires k <= |txs|
  {
    if k == 0 then v else txs[k - 1].view
  }

  ghost predicate Journal(sb: Superblock, v: View, txs: seq<Tx>) {
    forall k :: 0 <= k < |txs| ==> Steps(sb, ViewAt(v, txs, k).disk, txs[k])
  }

  /** From v to w the file of inode i is left alone. */
  ghost predicate Spares(sb: Superblock, v: View, w: View, i: nat) {
    && Shape(sb, v) && Shape(sb, w) && i < |v.tab| == |w.tab|
    && w.tab[i] == v.tab[i] && Content(w.disk, w.tab[i]) == Content(v.disk, v.tab[i])
  }

  /** Ownership is exact with inode i as its in-memory copy n has it. */
  ghost predicate Holds(sb: Superblock, v: View, i: nat, n: Inode) {
    Inv(sb, v) && Synced(sb, v, i) && i < sb.ninodes && v.tab[i] == n
  }

  /** The file system as its code sees it: the logged disk. */
  class FileSystem {
    const sb: Superblock
    var disk: Disk
    /** Inode contents, newest first; and who owns each data block. */
    ghost var tab: seq<Inode>
    ghost var owner: map<nat, Slot>
    /** The disk at begin_op, the calls of log_write since, and the transactions before. */
    ghost var start: Disk
    ghost var writes: seq<Update>
    ghost var history: seq<Tx>

    ghost function V(): View
      reads this
    {
      View(disk, tab, owner)
    }

    /** The state while inode ip is locked and possibly ahead of the disk. */
    ghost predicate Open(ip: Incore)
      reads this, ip
    {
      Holds(sb, V(), ip.inum, ip.N()) && Recorded()
    }

    ghost predicate Recorded()
      reads this
    {
      disk == Applied(start, writes)
    }

    /** The blocks passed to log_write since begin_op. */
    ghost function Logged(): set<nat>
      reads this
    {
      BlocksOf(writes)
    }

    /** The state between operations. */
    ghost predicate Valid()
      reads this
    {
      Resting(sb, V())
    }

    method LogWrite(b: nat, v: Block)
      requires b < |disk|
      modifies this`disk, this`writes
      ensures disk == old(disk)[b := v] && Logged() == old(Logged()) + {b} && writes == old(writes) + [Update(b, v)]
      ensures old(Recorded()) ==> Recorded()
    {
      disk := disk[b := v];
      writes := writes + [Update(b, v)];
      AppliedMore(start, old(writes), Update(b, v));
    }

    /** Whatever transactions other processes commit meanwhile, as long as they leave the file of ip
        alone. The contract is all that a caller may rely on; the body has them do nothing. */
    method OtherProcesses(ip: Incore) returns (ghost txs: seq<Tx>)
      requires Valid() && Open(ip)
      modifies this`disk, this`tab, this`owner, this`start, this`writes, this`history
      ensures Valid() && Open(ip) && history == old(history) + txs
      ensures Journal(sb, old(V()), txs) && V() == ViewAt(old(V()), txs, |txs|)
      ensures forall k :: 0 <= k < |txs| ==> Spares(sb, old(V()), txs[k].view, ip.inum)
    {
      txs := [];
    }

    /** First fit; 0 exactly when every block is in use. */
    method Balloc() returns (r: nat)
      requires Fits(sb, disk) && sb.size > 0 && Used(sb, disk, 0)
      modifies this`disk, this`writes
      ensures r == 0 <==> Full(sb, old(disk))
      ensures r == 0 ==> disk == old(disk) && writes == old(writes)
      ensures r != 0 ==> r < sb.size && !Used(sb, old(disk), r)
      ensures r != 0 ==> forall c :: 0 <= c < r ==> Used(sb, old(disk), c)
      ensures r != 0 ==> disk == Taken(sb, old(disk), r) && Logged() == old(Logged()) + {BBlock(sb, r), r}
      ensures old(Recorded()) ==> Recorded()
    {
      hide Used, MarkBlock, Applied, BlocksOf;
      var b := 0;
      while b < sb.size
        invariant b % BPB == 0 && disk == old(disk) && writes == old(writes)
        invariant forall c :: 0 <= c < b && c < sb.size ==> Used(sb, disk, c)
      {
        var bp := disk[BBlock(sb, b)];
        var bi := 0;
        while bi < BPB && b + bi < sb.size
          invariant 0 <= bi <= BPB && disk == old(disk) && writes == old(writes)
          invariant forall c :: 0 <= c < b + bi && c < sb.size ==> Used(sb, disk, c)
          decreases BPB - bi
        {
          UsedInBlock(sb, disk, b, bi);
          if !Bit(bp[bi / 8], bi % 8) {
            LogWrite(BBlock(sb, b), MarkBlock(bp, bi, true));
            LogWrite(b + bi, ZeroBlock());
            return b + bi;
          }
          bi := bi + 1;
        }
        b := b + BPB;
      }
      r := 0;
    }

    /** The precondition is the test that panics with "freeing free block". */
    method Bfree(b: nat)
      requires Fits(sb, disk) && b < sb.size && Used(sb, disk, b)
      modifies this`disk, this`writes
      ensures disk == Mark(sb, old(disk), b, false) && Logged() == old(Logged()) + {BBlock(sb, b)}
      ensures old(Recorded()) ==> Recorded()
    {
      var bi := b % BPB;
      LogWrite(BBlock(sb, b), MarkBlock(disk[BBlock(sb, b)], bi, false));
    }

    /** Block bn of the file, allocating it (and the indirect block) if need be. */
    method Bmap(ip: Incore, bn: nat) returns (addr: nat)
      requires Open(ip) && bn < MAXFILE
      modifies this`disk, this`tab, this`owner, this`writes, ip`addrs
      ensures Open(ip) && Grows(sb, old(V()), V(), ip.inum)
      ensures addr == DataRef(disk, ip.N(), bn)
      ensures addr == 0 ==> Full(sb, disk)
      ensures DataRef(old(disk), old(ip.N()), bn) != 0 ==>
                V() == old(V()) && writes == old(writes) && ip.addrs == old(ip.addrs)
      ensures DataRef(old(disk), old(ip.N()), bn) == 0 && addr != 0 ==> disk[addr] == ZeroBlock()
      ensures Allocated(sb, old(V()), V(), ip.inum, bn, bn + 1)
      ensures Logged() == old(Logged()) + Cost(sb, old(V()), V(), ip.inum)
    {
      hide Exact, Extends, ReadInode, Used, Allocated, Cost, Applied, BlocksOf, Full, Word, WellFormed;
      ghost var v := V();
      AllocatedNone(sb, v, ip.inum, bn, bn + 1);
      if bn < NDIRECT {
        addr := ip.addrs[bn];
        if addr == 0 {
          addr := AllocSlot(ip, bn, bn);
        } else {
          GrowsRefl(sb, v, ip.inum);
        }
        return;
      }
      var ind := ip.addrs[NDIRECT];
      if ind == 0 {
        ind := AllocSlot(ip, NDIRECT, bn);
        if ind == 0 { return 0; }
        ZeroWords(bn - NDIRECT);
      } else {
        GrowsRefl(sb, v, ip.inum);
      }
      ghost var u := V();
      addr := Word(disk[ind], bn - NDIRECT);
      if addr == 0 {
        addr := AllocSlot(ip, bn + 1, bn);
        GrowsTrans(sb, v, u, V(), ip.inum);
        AllocatedTrans(sb, v, u, V(), ip.inum, bn, bn + 1);
      }
    }

    /** The allocation step of bmap: balloc, then the store into slot k of the inode. */
    method AllocSlot(ip: Incore, k: nat, ghost bn: nat) returns (addr: nat)
      requires Open(ip) && k < SLOTS && Ref(disk, ip.N(), k) == 0 && (k > NDIRECT ==> ip.addrs[NDIRECT] != 0)
      requires InSpan(k, bn, bn + 1)
      modifies this`disk, this`tab, this`owner, this`writes, ip`addrs
      ensures Open(ip) && Grows(sb, old(V()), V(), ip.inum)
      ensures addr == Ref(disk, ip.N(), k)
      ensures addr == 0 ==> V() == old(V()) && writes == old(writes)
                            && Full(sb, disk)
      ensures addr != 0 ==> disk[addr] == ZeroBlock()
      ensures Allocated(sb, old(V()), V(), ip.inum, bn, bn + 1)
      ensures Logged() == old(Logged()) + Cost(sb, old(V()), V(), ip.inum)
    {
      hide Exact, Extends, ReadInode, Ref, Used, PutWord, Allocated, Cost, Applied, BlocksOf, Full;
      ghost var v := V();
      NoBlockZero(sb, v);
      addr := Balloc();
      if addr == 0 {
        GrowsRefl(sb, v, ip.inum);
        AllocatedNone(sb, v, ip.inum, bn, bn + 1);
        return;
      }
      FreeIsData(sb, v, addr);
      FirstFit(sb, v, addr);
      AdoptGrows(sb, v, addr, ip.inum, k);
      if k <= NDIRECT {
        ip.addrs := ip.addrs[k := addr];
        tab := tab[ip.inum := ip.N()];
      } else {
        LogWrite(ip.addrs[NDIRECT], PutWord(disk[ip.addrs[NDIRECT]], k - NDIRECT - 1, addr));
      }
      owner := owner[addr := Slot(ip.inum, k)];
      assert V() == Adopt(sb, v, addr, ip.inum, k);
      AllocatedOne(sb, v, V(), ip.inum, bn, bn + 1, addr, k);
    }

    method Iupdate(ip: Incore)
      requires Open(ip)
      modifies this`disk, this`writes
      ensures disk == WriteInode(sb, old(disk), ip.inum, ip.N()) && Logged() == old(Logged()) + {IBlock(sb, ip.inum)}
      ensures |writes| == |old(writes)| + 1 && writes[..|old(writes)|] == old(writes)
      ensures writes[|old(writes)|].block == IBlock(sb, ip.inum)
      ensures Open(ip) && Synced(sb, V(), sb.ninodes) && Extends(sb, old(V()), V())
      ensures SameBits(sb, old(disk), disk)
    {
      hide Exact, Extends, PutWords, SameBits, Applied, BlocksOf;
      InodeStoreKeeps(sb, V(), ip.inum, ip.N());
      forall j | 0 <= j < sb.ninodes
        ensures ReadInode(sb, WriteInode(sb, disk, ip.inum, ip.N()), j)
             == if j == ip.inum then ip.N() else ReadInode(sb, disk, j)
      {
        ReadOfWriteInode(sb, disk, ip.inum, ip.N(), j);
      }
      hide ReadInode, Applied, BlocksOf;
      LogWrite(IBlock(sb, ip.inum), PutWords(disk[IBlock(sb, ip.inum)], ip.inum % IPB * 16, Encode(ip.N()), 16));
      assert disk == WriteInode(sb, old(disk), ip.inum, ip.N());
    }

    /** Copies out the bytes off..off+n clipped to the file; `faults` are the offsets
        of the destination at which either_copyout fails. Reading allocates nothing. */
    method Readi(ip: Incore, off: U32, n: U32, faults: set<nat>) returns (tot: int, dst: seq<Byte>)
      requires Open(ip) && Backed(disk, ip.N(), ip.size)
      modifies this`disk, this`tab, this`owner, this`writes, ip`addrs
      ensures V() == old(V()) && writes == old(writes) && ip.addrs == old(ip.addrs)
      ensures ReadResult(Content(disk, ip.N()), off, n, faults, tot, dst)
    {
      hide Exact, Synced, Content, Backed, ChunkSize, Reading, Applied, BlocksOf;
      dst := [];
      Wraps(off, n);
      if off > ip.size || Add32(off, n) < off {
        return 0, [];
      }
      var m := n;
      if Add32(off, n) > ip.size {
        m := ip.size - off;
      }
      ghost var c := Content(disk, ip.N());
      tot := 0;
      ReadStart(c, off, m, faults);
      while tot < m
        invariant 0 <= tot <= m && V() == old(V()) && ip.addrs == old(ip.addrs) && writes == old(writes)
        invariant Reading(c, off, m, faults, tot, dst)
      {
        var k := ChunkSize(off, tot, m);
        ReadStep(c, off, m, faults, tot, dst);
        var addr, chunk := ReadBlock(ip, off + tot, k);
        if addr == 0 {
          break;
        }
        if tot in faults {
          return -1, dst;
        }
        dst := dst + chunk;
        tot := tot + k;
      }
      ReadEnd(c, off, m, faults, dst);
    }

    /** One turn of readi's loop: bmap, bread, and the k bytes at offset o. */
    method ReadBlock(ip: Incore, o: nat, k: nat) returns (addr: nat, chunk: seq<Byte>)
      requires Open(ip) && Backed(disk, ip.N(), ip.size) && 0 < k && o + k <= ip.size && k <= BSIZE - o % BSIZE
      modifies this`disk, this`tab, this`owner, this`writes, ip`addrs
      ensures V() == old(V()) && writes == old(writes) && ip.addrs == old(ip.addrs)
      ensures addr != 0 && chunk == Content(disk, ip.N())[o..o + k]
    {
      hide Exact, Extends, Synced, Used, Ref, Content, Applied, BlocksOf;
      ghost var bn := o / BSIZE;
      assert bn * BSIZE <= o;
      assert DataRef(disk, ip.N(), bn) != 0;
      RefInData(sb, V(), ip.inum, bn);
      ChunkIsContent(sb, V(), ip.inum, o, k);
      addr := Bmap(ip, o / BSIZE);
      chunk := disk[addr][o % BSIZE..o % BSIZE + k];
    }

    /** One turn of writei's loop: bmap, bread, the copy of the next m bytes, log_write. A
        failed copy (`fault`) leaves the buffer alone and logs nothing. */
    method WriteBlock(ip: Incore, src: seq<Byte>, off: nat, tot: nat, m: nat, fault: bool, ghost v: View)
      returns (addr: nat)
      requires tot + m <= |src|
      requires Open(ip) && Written(sb, v, V(), ip.inum, ip.size, off, src[..tot]) && off <= ip.size
      requires off + tot + m <= MAXFILE * BSIZE && 0 < m <= BSIZE - (off + tot) % BSIZE
      modifies this`disk, this`tab, this`owner, this`writes, ip`addrs
      ensures Open(ip)
      ensures Written(sb, v, V(), ip.inum, ip.size, off, src[..if addr == 0 || fault then tot else tot + m])
      ensures addr == 0 ==> Full(sb, disk)
      ensures addr == DataRef(disk, ip.N(), (off + tot) / BSIZE)
      ensures Allocated(sb, old(V()), V(), ip.inum, (off + tot) / BSIZE, (off + tot) / BSIZE + 1)
      ensures Logged() == old(Logged()) + Cost(sb, old(V()), V(), ip.inum) + if addr == 0 || fault then {} else {addr}
      ensures KeepsRefs(sb, old(V()), V(), ip.inum)
      ensures old(ip.addrs[NDIRECT]) != 0 ==> ip.addrs[NDIRECT] == old(ip.addrs[NDIRECT])
    {
      hide Exact, Extends, Used, Ref, Patch, SameBlock, ReadInode, Bytes, OthersKept, Backed, Allocated, Cost;
      hide KeepsRefs, Applied, BlocksOf;
      ghost var was, bn := V(), (off + tot) / BSIZE;
      addr := Bmap(ip, (off + tot) / BSIZE);
      ghost var u := V();
      WrittenGrows(sb, v, was, u, ip.inum, ip.size, off, src[..tot]);
      GrowsKeepsRefs(sb, was, u, ip.inum);
      if addr == 0 || fault {
        return;
      }
      RefInData(sb, u, ip.inum, bn);
      var t := src[tot..tot + m];
      WrittenStore(sb, v, u, ip.inum, ip.size, off, src[..tot], t);
      assert src[..tot + m] == src[..tot] + t;
      LogWrite(addr, Patch(disk[addr], (off + tot) % BSIZE, t));
      StoreReadsInodes(sb, u, addr, Patch(u.disk[addr], (off + tot) % BSIZE, t));
      StoreKeepsRefs(sb, u, ip.inum, bn, Patch(u.disk[addr], (off + tot) % BSIZE, t));
      KeepsRefsTrans(sb, was, u, V(), ip.inum);
      AllocatedSame(sb, was, u, V(), ip.inum, bn, bn + 1);
    }

    /** writei's loop. */
    method WriteLoop(ip: Incore, src: seq<Byte>, off: nat, faults: set<nat>) returns (tot: nat)
      requires Open(ip) && Backed(disk, ip.N(), ip.size) && off <= ip.size && off + |src| <= MAXFILE * BSIZE
      modifies this`disk, this`tab, this`owner, this`writes, ip`addrs
      ensures Open(ip) && tot <= |src| && Written(sb, old(V()), V(), ip.inum, ip.size, off, src[..tot])
      ensures tot < |src| ==>
                (tot in faults && IsChunk(off, tot, |src|)) || Stuck(sb, V(), ip.inum, off + tot)
      ensures forall t :: t in faults && t < tot ==> !IsChunk(off, t, |src|)
      ensures Logs(sb, old(Logged()), Logged(), old(V()), V(), ip.inum, off, tot, |src|)
    {
      hide Holds, Written, Logs, Used, ChunkSize, IsChunk, DataRef, Backed, Allocated, Cost, KeepsRefs, Full, Stuck;
      hide Applied, BlocksOf, Spans, Inv, Shape, Recorded;
      ghost var v, i, size := V(), ip.inum, ip.size;
      LoopStart(sb, v, i, ip.N(), off);
      HoldsInv(sb, v, i, ip.N());
      assert src[..0] == [];
      LogsNone(sb, Logged(), v, i, off, |src|);
      tot := 0;
      while tot < |src|
        invariant 0 <= tot <= |src| && Open(ip)
        invariant Written(sb, v, V(), i, size, off, src[..tot])
        invariant tot == 0 || tot == |src| || (off + tot) % BSIZE == 0
        invariant forall t :: t in faults && t < tot ==> !IsChunk(off, t, |src|)
        invariant Logs(sb, old(Logged()), Logged(), v, V(), i, off, tot, |src|)
      {
        var m := ChunkSize(off, tot, |src|);
        ChunkFacts(off, tot, |src|);
        ghost var wrote, was := Logged(), V();
        HoldsInv(sb, was, i, ip.N());
        LoopShape(sb, v, was, i, ip.N(), size, off, src[..tot]);
        var addr := WriteBlock(ip, src, off, tot, m, tot in faults, v);
        HoldsInv(sb, V(), i, ip.N());
        if addr == 0 { StuckAt(sb, V(), i, off + tot); }
        LogsMore(sb, old(Logged()), wrote, Logged(), v, was, V(), i, off, tot, m, |src|, addr != 0 && tot !in faults);
        if addr == 0 || tot in faults {
          break;
        }
        tot := tot + m;
      }
    }

    /** Splices the first tot bytes of src into the file at off, and stops short only at
        a failed copy or on a full disk. */
    method Writei(ip: Incore, src: seq<Byte>, off: U32, faults: set<nat>) returns (tot: int)
      requires Open(ip) && Valid() && |src| < 0x1_0000_0000
      modifies this`disk, this`tab, this`owner, this`writes, ip`addrs, ip`size
      ensures Open(ip) && Valid() && OthersUnchanged(sb, old(V()), V(), ip.inum)
      ensures tot == -1 <==> off > old(ip.size) || off + |src| >= 0x1_0000_0000 || off + |src| > MAXFILE * BSIZE
      ensures tot == -1 ==> V() == old(V()) && writes == old(writes) && ip.N() == old(ip.N())
      ensures tot != -1 ==> 0 <= tot <= |src|
                            && Content(disk, ip.N()) == Splice(Content(old(disk), old(ip.N())), off, src[..tot])
      ensures tot != -1 && tot < |src| ==>
                (tot in faults && IsChunk(off, tot, |src|)) || Stuck(sb, V(), ip.inum, off + tot)
      ensures tot != -1 ==> forall t :: t in faults && t < tot ==> !IsChunk(off, t, |src|)
      ensures tot != -1 ==> writes != [] && writes[|writes| - 1].block == IBlock(sb, ip.inum)
      ensures tot != -1 ==>
                && Logs(sb, old(Logged()), BlocksOf(writes[..|writes| - 1]), old(V()), V(), ip.inum, off, tot, |src|)
                && Logs(sb, old(Logged()) + {IBlock(sb, ip.inum)}, Logged(), old(V()), V(), ip.inum, off, tot, |src|)
      ensures |Logged() - old(Logged())| <= LogBound(off, |src|)
    {
      hide Exact, Extends, Used, Backed, ReadInode, Content, Splice, Bytes, OthersKept, LogBound, Logs, IsChunk, Stuck;
      hide Applied, BlocksOf;
      Wraps(off, |src|);
      if off > ip.size || Add32(off, |src|) < off {
        return -1;
      }
      if Add32(off, |src|) > MAXFILE * BSIZE {
        return -1;
      }
      ghost var v, i, base := V(), ip.inum, Logged();
      tot := WriteLoop(ip, src, off, faults);
      ghost var w, wrote := V(), Logged();
      SaveSize(ip, off + tot);
      WriteDone(sb, v, w, V(), i, off, src[..tot], ip.size);
      LoopStart(sb, v, i, v.tab[i], off);
      LogsDone(sb, base, wrote, v, w, V(), i, off, tot, |src|, ip.size);
    }

    /** The end of writei: the new size, and the write of the inode. */
    method SaveSize(ip: Incore, end: U32)
      requires Open(ip)
      modifies this`disk, this`tab, this`writes, ip`size
      ensures Open(ip) && ip.size == Max(old(ip.size), end) && Synced(sb, V(), sb.ninodes)
      ensures tab == old(tab)[ip.inum := ip.N()] && disk == WriteInode(sb, old(disk), ip.inum, ip.N())
      ensures |writes| == |old(writes)| + 1 && writes[..|old(writes)|] == old(writes)
      ensures writes[|old(writes)|].block == IBlock(sb, ip.inum)
      ensures Logged() == old(Logged()) + {IBlock(sb, ip.inum)}
    {
      hide Exact, Extends, ReadInode, SameBits, Applied, BlocksOf;
      ghost var w := V();
      if end > ip.size {
        ip.size := end;
      }
      tab := tab[ip.inum := ip.N()];
      SetSizeKeeps(sb, w, ip.inum, ip.size);
      Iupdate(ip);
    }

    method TruncDirect(ip: Incore)
      requires Open(ip)
      modifies this`disk, this`tab, this`owner, this`writes, ip`addrs
      ensures Open(ip) && BitmapOnly(sb, old(disk), disk) && tab == old(tab)[ip.inum := ip.N()]
      ensures forall k :: 0 <= k < NDIRECT ==> ip.addrs[k] == 0
      ensures Freed(sb, old(Logged()), Logged(), old(V()), V())
    {
      hide Exact, Ref, Used, ReadInode, MarkBlock, Applied, BlocksOf, Freed;
      ghost var v, n := V(), ip.inum;
      FreedNone(sb, Logged(), v);
      for i := 0 to NDIRECT
        invariant Freed(sb, old(Logged()), Logged(), v, V())
        invariant Open(ip) && BitmapOnly(sb, v.disk, disk) && tab == v.tab[n := ip.N()]
        invariant forall k :: 0 <= k < i ==> ip.addrs[k] == 0
      {
        if ip.addrs[i] != 0 {
          ReleaseDirect(sb, V(), n, i);
          MarkBitmapOnly(sb, v.disk, disk, ip.addrs[i], false);
          BitmapOnlyInodes(sb, v.disk, disk);
          ghost var w, was, b := V(), Logged(), ip.addrs[i];
          owner := owner - {ip.addrs[i] as nat};
          Bfree(ip.addrs[i]);
          BitmapOnlyInodes(sb, v.disk, disk);
          ip.addrs := ip.addrs[i := 0];
          tab := tab[n := ip.N()];
          FreedMore(sb, old(Logged()), was, Logged(), v, w, b, V());
        }
      }
    }

    method TruncIndirect(ip: Incore)
      requires Open(ip)
      modifies this`disk, this`tab, this`owner, this`writes, ip`addrs
      ensures Open(ip) && BitmapOnly(sb, old(disk), disk) && tab == old(tab)[ip.inum := ip.N()]
      ensures ip.addrs == old(ip.addrs)[NDIRECT := 0]
      ensures Freed(sb, old(Logged()), Logged(), old(V()), V())
    {
      hide Exact, Used, ReadInode, MarkBlock, Applied, BlocksOf, Freed, Word;
      ghost var v, n := V(), ip.inum;
      FreedNone(sb, Logged(), v);
      if ip.addrs[NDIRECT] != 0 {
        var ind := ip.addrs[NDIRECT];
        var bp := disk[ind];
        StartRelease(sb, v, n);
        for j := 0 to NINDIRECT
          invariant Owned(sb, V(), n, j) && BitmapOnly(sb, v.disk, disk) && tab == v.tab && ip.addrs == old(ip.addrs)
          invariant Recorded() && Freed(sb, old(Logged()), Logged(), v, V())
        {
          ReleaseEntry(sb, V(), n, j);
          BitmapOnlyData(sb, v.disk, disk, ind);
          if Word(bp, j) != 0 {
            MarkBitmapOnly(sb, v.disk, disk, Word(bp, j), false);
            ghost var w, was := V(), Logged();
            owner := owner - {Word(bp, j) as nat};
            Bfree(Word(bp, j));
            FreedMore(sb, old(Logged()), was, Logged(), v, w, Word(bp, j), V());
          }
        }
        ReleaseIndirect(sb, V(), n);
        MarkBitmapOnly(sb, v.disk, disk, ind, false);
        ghost var w, was := V(), Logged();
        owner := owner - {ind as nat};
        Bfree(ind);
        ip.addrs := ip.addrs[NDIRECT := 0];
        tab := tab[n := ip.N()];
        FreedMore(sb, old(Logged()), was, Logged(), v, w, ind, V());
        BitmapOnlyInodes(sb, v.disk, disk);
      }
    }

    /** Discards the content and frees exactly the blocks that the inode owned. */
    method Itrunc(ip: Incore)
      requires Open(ip) && Valid()
      modifies this`disk, this`tab, this`owner, this`writes, ip`addrs, ip`size
      ensures Open(ip) && Valid() && ip.size == 0 && Emptied(ip.N())
      ensures OthersUnchanged(sb, old(V()), V(), ip.inum)
      ensures forall b :: 0 <= b < sb.size ==> (Used(sb, disk, b) <==>
                Used(sb, old(disk), b) && !(b in old(owner) && old(owner)[b].inum == ip.inum))
      ensures Logged() == old(Logged()) + Bitmaps(sb, BlocksOfFile(old(V()), ip.inum)) + {IBlock(sb, ip.inum)}
    {
      hide Exact, Extends, Used, ReadInode, Content, OthersKept, Ref, BitmapOnly, Applied, BlocksOf, Freed, Bitmaps;
      ghost var v, n, base := V(), ip.inum, Logged();
      TruncDirect(ip);
      ghost var u, was := V(), Logged();
      TruncIndirect(ip);
      ghost var w := V();
      FreedTrans(sb, base, was, Logged(), v, u, w);
      BitmapOnlyTrans(sb, v.disk, u.disk, w.disk);
      BitmapOnlyOthers(sb, v, w, n);
      forall b | 0 <= b < sb.size
        ensures Used(sb, w.disk, b) <==> Used(sb, v.disk, b) && !(b in v.owner && v.owner[b].inum == n)
      {
        TruncatedBits(sb, v, w, n, b);
      }
      FreedAll(sb, base, Logged(), v, w, n);
      ip.size := 0;
      tab := tab[n := ip.N()];
      ghost var x := V();
      SetSizeKeeps(sb, w, n, 0);
      Iupdate(ip);
      TruncDone(sb, v, w, x, V(), n);
    }
  }

  /** Every other inode and its content are as they were. */
  ghost predicate OthersUnchanged(sb: Superblock, v: View, w: View, i: nat)
    requires Shape(sb, v) && Shape(sb, w)
  {
    |w.tab| == |v.tab| && forall j :: 0 <= j < |v.tab| && j != i ==>
      w.tab[j] == v.tab[j] && Content(w.disk, w.tab[j]) == Content(v.disk, v.tab[j])
  }

  /** From the loop's last state w to the state y that iupdate leaves. */
  lemma WriteDone(sb: Superblock, v: View, w: View, y: View, i: nat, off: nat, s: seq<Byte>, size: U32)
    requires i < |v.tab| && Written(sb, v, w, i, v.tab[i].size, off, s) && Solid(sb, v) && off <= v.tab[i].size
    requires size == Max(v.tab[i].size, off + |s|) && Inv(sb, y)
    requires var n := SetSize(w.tab[i], size); y == View(WriteInode(sb, w.disk, i, n), w.tab[i := n], w.owner)
    ensures Solid(sb, y) && OthersUnchanged(sb, v, y, i)
    ensures Content(y.disk, y.tab[i]) == Splice(Content(v.disk, v.tab[i]), off, s)
  {
    hide Exact, Extends, ReadInode, WriteInode, Content, Splice, Bytes, OthersKept, Backed;
    var x := View(w.disk, y.tab, w.owner);
    SetSizeKeeps(sb, w, i, size);
    InodeStoreKeeps(sb, x, i, y.tab[i]);
    WrittenContent(sb, v, w, i, off, s, size);
    BackedAfter(sb, x, y, i, size);
    ContentAfter(sb, x, y, i);
    ExtendsTrans(sb, w, x, y);
    forall j | 0 <= j < |v.tab| && j != i
      ensures y.tab[j] == v.tab[j] && Content(y.disk, y.tab[j]) == Content(v.disk, v.tab[j])
      ensures Backed(y.disk, y.tab[j], y.tab[j].size)
    {
      OtherFinal(sb, v, w, y, i, j);
    }
  }

  /** The write of the inode adds its block to what is logged and moves no file block. */
  lemma LogsDone(sb: Superblock, base: set<nat>, wrote: set<nat>, v: View, w: View, y: View, i: nat, off: nat,
                 tot: nat, n: nat, size: U32)
    requires Inv(sb, v) && Inv(sb, w) && i < |v.tab| == |w.tab| && Logs(sb, base, wrote, v, w, i, off, tot, n)
    requires n > 0 && off % BSIZE != 0 ==> off / BSIZE < MAXFILE && DataRef(v.disk, v.tab[i], off / BSIZE) != 0
    requires var m := SetSize(w.tab[i], size);
             y == View(WriteInode(sb, w.disk, i, m), w.tab[i := m], w.owner) && Shape(sb, y)
    ensures var ib := IBlock(sb, i);
            && Logs(sb, base, wrote, v, y, i, off, tot, n) && Logs(sb, base + {ib}, wrote + {ib}, v, y, i, off, tot, n)
            && |wrote + {ib} - base| <= LogBound(off, n)
    ensures Stuck(sb, w, i, off + tot) ==> Stuck(sb, y, i, off + tot)
  {
    hide Exact, Used, WriteInode, LogBound, Allocated, Cost, Touched, Spans;
    LogsBound(sb, base, wrote, v, w, i, off, tot, n, IBlock(sb, i));
    InodeKeepsRefs(sb, w, y, i, size);
    hide DataRef;
    var lo := off / BSIZE;
    TouchedKept(w.disk, w.tab[i], y.disk, y.tab[i], lo, lo + Spans(off, tot));
    AllocatedSame(sb, v, w, y, i, lo, lo + Spans(off, n));
  }

  lemma InodeKeepsRefs(sb: Superblock, w: View, y: View, i: nat, size: U32)
    requires Inv(sb, w) && i < |w.tab| && Shape(sb, y)
    requires var m := SetSize(w.tab[i], size); y == View(WriteInode(sb, w.disk, i, m), w.tab[i := m], w.owner)
    ensures SameBits(sb, w.disk, y.disk)
    ensures forall bn :: 0 <= bn < MAXFILE ==> DataRef(y.disk, y.tab[i], bn) == DataRef(w.disk, w.tab[i], bn)
  {
    hide Exact, Used, WriteInode;
    InodeStoreKeeps(sb, w, i, y.tab[i]);
    forall bn | 0 <= bn < MAXFILE ensures DataRef(y.disk, y.tab[i], bn) == DataRef(w.disk, w.tab[i], bn) {
      InodeStoreRefs(sb, w, i, y.tab[i], y.tab[i], DataSlot(bn));
      SetSizeRef(w.disk, w.tab[i], size, DataSlot(bn));
    }
  }

  lemma LoopShape(sb: Superblock, v: View, w: View, i: nat, n: Inode, size: nat, off: nat, s: seq<Byte>)
    requires Holds(sb, w, i, n) && Written(sb, v, w, i, size, off, s)
    ensures Inv(sb, w) && i < |w.tab| && w.tab[i] == n && Backed(w.disk, w.tab[i], off + |s|)
  {
    hide Exact, DataRef;
  }

  lemma StuckAt(sb: Superblock, v: View, i: nat, o: nat)
    requires Inv(sb, v) && i < |v.tab| && Full(sb, v.disk)
    requires o / BSIZE < MAXFILE && DataRef(v.disk, v.tab[i], o / BSIZE) == 0
    ensures Stuck(sb, v, i, o)
  {
    hide Exact, Full, DataRef;
  }

  lemma HoldsInv(sb: Superblock, v: View, i: nat, n: Inode)
    requires Holds(sb, v, i, n)
    ensures Inv(sb, v) && Shape(sb, v) && i < |v.tab| == sb.ninodes && v.tab[i] == n
  {
    hide Exact;
  }

  lemma FirstFit(sb: Superblock, v: View, b: nat)
    requires Inv(sb, v) && b < sb.size && !Used(sb, v.disk, b) && forall c :: 0 <= c < b ==> Used(sb, v.disk, c)
    ensures b !in v.owner && forall c :: sb.datastart <= c < b ==> c in v.owner
  {
    hide Used, Ref;
  }

  lemma BitmapOnlyData(sb: Superblock, d: Disk, e: Disk, b: nat)
    requires BitmapOnly(sb, d, e) && InData(sb, b)
    ensures e[b] == d[b]
  {
  }

  lemma StartRelease(sb: Superblock, v: View, i: nat)
    requires Inv(sb, v)
    ensures Owned(sb, v, i, 0)
  {
  }

  lemma TruncDone(sb: Superblock, v: View, w: View, x: View, y: View, i: nat)
    requires Inv(sb, v) && Solid(sb, v) && Shape(sb, w) && Shape(sb, x) && Shape(sb, y) && i < |v.tab|
    requires OthersKept(sb, v, w, i) && Extends(sb, w, x) && Extends(sb, x, y)
    requires x.tab == w.tab[i := SetSize(w.tab[i], 0)] && y.tab == x.tab
    ensures Solid(sb, y) && OthersUnchanged(sb, v, y, i)
  {
    hide Exact, Extends, Content, OthersKept;
    ExtendsTrans(sb, w, x, y);
    assert |y.tab| == |v.tab|;
    forall j | 0 <= j < |v.tab| && j != i
      ensures y.tab[j] == v.tab[j] && Content(y.disk, y.tab[j]) == Content(v.disk, v.tab[j])
      ensures Backed(y.disk, y.tab[j], y.tab[j].size)
    {
      OtherFinal(sb, v, w, y, i, j);
    }
  }

  /** What readi promises of a file with content c. */
  ghost predicate ReadResult(c: seq<Byte>, off: nat, n: nat, faults: set<nat>, tot: int, dst: seq<Byte>) {
    if off > |c| || off + n >= 0x1_0000_0000 then tot == 0 && dst == []
    else
      var m := Clip(|c|, off, n);
      && |dst| <= m && dst == c[off..off + |dst|]
      && (tot == -1 || (tot == m && |dst| == m))
      && (tot == -1 <==> exists t :: t in faults && IsChunk(off, t, m))
  }

  /** readi's loop invariant: tot bytes copied, at a place where a copy may start. */
  ghost predicate Reading(c: seq<Byte>, off: nat, m: nat, faults: set<nat>, tot: nat, dst: seq<Byte>)
    requires off + m <= |c| && tot <= m
  {
    && dst == c[off..off + tot]
    && (tot == 0 || tot == m || (off + tot) % BSIZE == 0)
    && forall t :: t in faults && t < tot ==> !IsChunk(off, t, m)
  }

  lemma ReadStart(c: seq<Byte>, off: nat, m: nat, faults: set<nat>)
    requires off + m <= |c|
    ensures Reading(c, off, m, faults, 0, [])
  {
  }

  lemma ReadStep(c: seq<Byte>, off: nat, m: nat, faults: set<nat>, tot: nat, dst: seq<Byte>)
    requires off + m <= |c| && tot < m && Reading(c, off, m, faults, tot, dst)
    ensures var k := ChunkSize(off, tot, m);
            && 0 < k <= BSIZE - (off + tot) % BSIZE && tot + k <= m && IsChunk(off, tot, m)
            && |dst| == tot && dst == c[off..off + tot]
            && (tot !in faults ==> Reading(c, off, m, faults, tot + k, dst + c[off + tot..off + tot + k]))
  {
    ChunkFacts(off, tot, m);
    SliceConcat(c, off, off + tot, off + tot + ChunkSize(off, tot, m));
  }

  lemma ReadEnd(c: seq<Byte>, off: nat, m: nat, faults: set<nat>, dst: seq<Byte>)
    requires off + m <= |c| && Reading(c, off, m, faults, m, dst)
    ensures |dst| == m && dst == c[off..off + m] && forall t :: t in faults ==> !IsChunk(off, t, m)
  {
  }

  /** off + n as a uint. */
  function Add32(off: U32, n: U32): U32 { (off + n) % 0x1_0000_0000 }

  lemma Wraps(off: U32, n: U32)
    ensures Add32(off, n) < off <==> off + n >= 0x1_0000_0000
    ensures off + n < 0x1_0000_0000 ==> Add32(off, n) == off + n
  {
  }

  function Clip(size: nat, off: nat, n: nat): nat
    requires off <= size
  {
    if off + n > size then size - off else n
  }

  /** The loops of readi and writei start a copy at t: the first byte, or a block boundary. */
  predicate IsChunk(off: nat, t: nat, m: nat) { t < m && (t == 0 || (off + t) % BSIZE == 0) }

  function ChunkSize(off: nat, tot: nat, m: nat): nat
    requires tot <= m
  {
    if m - tot < BSIZE - (off + tot) % BSIZE then m - tot else BSIZE - (off + tot) % BSIZE
  }

  lemma SliceConcat(c: seq<Byte>, i: nat, j: nat, k: nat)
    requires i <= j <= k <= |c|
    ensures c[i..j] + c[j..k] == c[i..k]
  {
  }

  lemma WithinBlock(o: nat, t: nat)
    requires t < BSIZE - o % BSIZE
    ensures (o + t) / BSIZE == o / BSIZE && (o + t) % BSIZE == o % BSIZE + t
  {
  }

  lemma ChunkStarts(off: nat, tot: nat, k: nat, m: nat)
    requires 0 < k <= BSIZE - (off + tot) % BSIZE && tot + k <= m
    ensures forall t :: tot < t < tot + k ==> !IsChunk(off, t, m)
    ensures k == BSIZE - (off + tot) % BSIZE ==> (off + tot + k) % BSIZE == 0
  {
    forall t | tot < t < tot + k ensures !IsChunk(off, t, m) {
      WithinBlock(off + tot, t - tot);
    }
  }

  lemma ChunkFacts(off: nat, tot: nat, n: nat)
    requires tot < n && (tot == 0 || (off + tot) % BSIZE == 0)
    ensures var m := ChunkSize(off, tot, n);
            && 0 < m <= BSIZE - (off + tot) % BSIZE && tot + m <= n
            && (tot + m == n || (off + (tot + m)) % BSIZE == 0)
            && IsChunk(off, tot, n) && (forall t :: tot < t < tot + m ==> !IsChunk(off, t, n))
  {
    ChunkStarts(off, tot, ChunkSize(off, tot, n), n);
  }

  lemma ChunkIsContent(sb: Superblock, v: View, i: nat, o: nat, k: nat)
    requires Shape(sb, v) && i < |v.tab| && o + k <= v.tab[i].size && k <= BSIZE - o % BSIZE && o / BSIZE < MAXFILE
    requires InData(sb, DataRef(v.disk, v.tab[i], o / BSIZE)) && 0 < sb.datastart
    ensures v.disk[DataRef(v.disk, v.tab[i], o / BSIZE)][o % BSIZE..o % BSIZE + k]
              == Content(v.disk, v.tab[i])[o..o + k]
  {
    hide Ref;
    var l := v.disk[DataRef(v.disk, v.tab[i], o / BSIZE)][o % BSIZE..o % BSIZE + k];
    var r := Content(v.disk, v.tab[i])[o..o + k];
    forall t | 0 <= t < k ensures l[t] == r[t] {
      WithinBlock(o, t);
      assert r[t] == ByteAt(v.disk, v.tab[i], o + t);
    }
  }

  lemma LoopStart(sb: Superblock, v: View, i: nat, n: Inode, off: nat)
    requires Holds(sb, v, i, n) && off <= n.size && Backed(v.disk, n, n.size)
    ensures i < |v.tab| && v.tab[i] == n && Written(sb, v, v, i, n.size, off, [])
    ensures off % BSIZE != 0 ==> off / BSIZE < MAXFILE && DataRef(v.disk, v.tab[i], off / BSIZE) != 0
  {
    WrittenInit(sb, v, i, off);
    assert off / BSIZE * BSIZE <= off;
  }

  lemma NoBlockZero(sb: Superblock, v: View)
    requires Inv(sb, v)
    ensures 0 < sb.size && Used(sb, v.disk, 0)
    ensures forall b :: InData(sb, b) ==> b != 0
  {
  }
}
