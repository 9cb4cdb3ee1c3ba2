/** filewrite of kernel/file.c: one transaction per chunk. */
module FileWrite {
  import LogDisk
  import opened Blocks
  import opened FsLayout
  import opened FsOwnership
  import opened FsContent
  import opened FsWrite
  import opened FsBudget
  import opened FsTight
  import opened Fs

  /** The most that filewrite writes in one transaction. */
  const CHUNK: nat := (LogDisk.MAXOPBLOCKS - 1 - 1 - 2) / 2 * BSIZE

  /** An open file on inode ip. */
  class File {
    const ip: Incore
    var off: U32

    constructor (inode: Incore)
      ensures ip == inode && off == 0
    {
      ip, off := inode, 0;
    }
  }

  lemma SpliceTwice(c: seq<Byte>, off: nat, a: seq<Byte>, b: seq<Byte>)
    requires off <= |c|
    ensures |Splice(c, off, a)| >= off + |a|
    ensures Splice(Splice(c, off, a), off + |a|, b) == Splice(c, off, a + b)
  {
  }

  lemma SpliceNothing(c: seq<Byte>, off: nat)
    requires off <= |c|
    ensures Splice(c, off, []) == c
  {
  }

  /** The file after filewrite got t bytes of src in. */
  ghost predicate Wrote(sb: Superblock, v: View, w: View, i: nat, off: nat, src: seq<Byte>, t: nat)
  {
    && Shape(sb, v) && Shape(sb, w) && i < |v.tab| == |w.tab| && t <= |src|
    && (off <= v.tab[i].size ==>
          Content(w.disk, w.tab[i]) == Splice(Content(v.disk, v.tab[i]), off, src[..t]))
    && (off > v.tab[i].size ==> t == 0 && Content(w.disk, w.tab[i]) == Content(v.disk, v.tab[i]))
  }

  lemma WroteNothing(sb: Superblock, v: View, i: nat, off: nat, src: seq<Byte>)
    requires Shape(sb, v) && i < |v.tab|
    ensures Wrote(sb, v, v, i, off, src, 0)
  {
    hide Content, Splice;
    if off <= v.tab[i].size { SpliceNothing(Content(v.disk, v.tab[i]), off); }
  }

  /** A writei of r more bytes, starting where the last one ended. */
  lemma WroteMore(sb: Superblock, u: View, v: View, w: View, i: nat, off: nat, src: seq<Byte>, t: nat, r: nat)
    requires Wrote(sb, u, v, i, off, src, t) && t + r <= |src|
    requires Shape(sb, w) && |w.tab| == |u.tab| && off + t <= v.tab[i].size
    requires Content(w.disk, w.tab[i]) == Splice(Content(v.disk, v.tab[i]), off + t, src[t..t + r])
    ensures Wrote(sb, u, w, i, off, src, t + r)
  {
    hide Content, Splice;
    assert off <= u.tab[i].size by {
      assert |Content(u.disk, u.tab[i])| == u.tab[i].size && |Content(v.disk, v.tab[i])| == v.tab[i].size;
    }
    SpliceTwice(Content(u.disk, u.tab[i]), off, src[..t], src[t..t + r]);
    assert src[..t] + src[t..t + r] == src[..t + r];
  }

  lemma WroteReaches(sb: Superblock, v: View, w: View, i: nat, off: nat, src: seq<Byte>, t: nat)
    requires Wrote(sb, v, w, i, off, src, t) && t > 0
    ensures off + t <= w.tab[i].size
  {
    hide Content;
    assert |Content(w.disk, w.tab[i])| == w.tab[i].size && |Content(v.disk, v.tab[i])| == v.tab[i].size;
  }

  lemma WroteStill(sb: Superblock, u: View, v: View, w: View, i: nat, off: nat, src: seq<Byte>, t: nat)
    requires Wrote(sb, u, v, i, off, src, t) && Spares(sb, v, w, i)
    ensures Wrote(sb, u, w, i, off, src, t)
  {
    hide Content, Splice;
  }

  /** A transaction on u: filewrite's own keeps within the log's budget, ends with a block it has not
      written yet and touches no other file; another process's leaves this file alone. */
  ghost predicate Turn(sb: Superblock, u: View, tx: Tx, i: nat, own: bool) {
    && Shape(sb, u) && Steps(sb, u.disk, tx)
    && if own
       then
         && |BlocksOf(tx.writes)| <= LogDisk.MAXOPBLOCKS && EndsFresh(tx.writes)
         && OthersUnchanged(sb, u, tx.view, i)
       else Spares(sb, u, tx.view, i)
  }

  /** filewrite copies from src on at byte k: a chunk or a block begins there. */
  predicate CopyStart(off: nat, k: nat) { k % CHUNK == 0 || (off + k) % BSIZE == 0 }

  function Min(a: nat, b: nat): nat { if a < b then a else b }

  /** How many of the first k transactions are filewrite's own. */
  function Own(mine: seq<bool>, k: nat): nat
    requires k <= |mine|
  {
    if k == 0 then 0 else Own(mine, k - 1) + if mine[k - 1] then 1 else 0
  }

  /** How many bytes are in after n transactions of filewrite, of t in all. */
  function BytesIn(n: nat, t: nat): nat { Min(n * CHUNK, t) }

  /** The transactions since filewrite began; the own ones are marked. */
  ghost predicate Chunked(sb: Superblock, v: View, txs: seq<Tx>, mine: seq<bool>, i: nat, off: nat, src: seq<Byte>,
                          t: nat)
  {
    |mine| == |txs| && forall k :: 0 <= k < |txs| ==> ChunkedAt(sb, v, txs, mine, i, off, src, t, k)
  }

  ghost predicate ChunkedAt(sb: Superblock, v: View, txs: seq<Tx>, mine: seq<bool>, i: nat, off: nat, src: seq<Byte>,
                            t: nat, k: nat)
    requires |mine| == |txs| && k < |txs|
  {
    && Turn(sb, ViewAt(v, txs, k), txs[k], i, mine[k])
    && Wrote(sb, v, txs[k].view, i, off, src, BytesIn(Own(mine, k + 1), t))
  }

  lemma {:induction false} OwnSame(mine: seq<bool>, own: bool, k: nat)
    requires k <= |mine|
    ensures Own(mine + [own], k) == Own(mine, k)
  {
    if k > 0 { OwnSame(mine, own, k - 1); }
  }

  lemma {:induction false} OwnUp(mine: seq<bool>, k: nat)
    requires k <= |mine|
    ensures Own(mine, k) <= Own(mine, |mine|)
    decreases |mine| - k
  {
    if k < |mine| { OwnUp(mine, k + 1); }
  }

  lemma OwnMore(mine: seq<bool>, own: bool)
    ensures Own(mine + [own], |mine| + 1) == Own(mine, |mine|) + if own then 1 else 0
  {
    OwnSame(mine, own, |mine|);
  }

  /** m transactions have got i bytes in, the last one some of them. */
  predicate Covers(m: nat, i: nat) { m * CHUNK < i + CHUNK && i <= m * CHUNK }

  lemma CoversMore(m: nat, i: nat)
    ensures (m + 1) * CHUNK == m * CHUNK + CHUNK
    ensures i <= m * CHUNK ==> BytesIn(m, i) == i
  {
  }

  lemma BytesSame(n: nat, m: nat, i: nat, t: nat)
    requires n <= m && i <= t && (m * CHUNK == i || i == t)
    ensures BytesIn(n, t) == BytesIn(n, i)
  {
    Scale(n, m, CHUNK);
  }

  lemma Scale(a: nat, b: nat, c: nat)
    requires a <= b
    ensures a * c <= b * c
  {
    assert b * c == a * c + (b - a) * c;
  }

  lemma NoMore(p: nat, q: nat, c: nat, x: nat)
    requires p * c <= x < (q + 1) * c
    ensures p <= q
  {
    if p > q {
      Scale(q + 1, p, c);
      assert false;
    }
  }

  lemma Quotient(x: nat, c: nat, q: nat)
    requires c > 0 && q * c <= x < (q + 1) * c
    ensures x / c == q
  {
    var p := x / c;
    assert x == p * c + x % c;
    NoMore(p, q, c, x);
    NoMore(q, p, c, x);
  }

  lemma AtEdge(m: nat, i: nat)
    requires i == m * CHUNK
    ensures i % CHUNK == 0
  {
    CoversMore(m, i);
    Quotient(i, CHUNK, m);
  }

  lemma AllIn(m: nat, n: nat)
    requires Covers(m, n)
    ensures m == Transactions(n, n)
  {
    CoversMore(m, n);
    Quotient(n + CHUNK - 1, CHUNK, m);
  }

  lemma CutShort(m: nat, n: nat, t: nat)
    requires m * CHUNK <= t < n && t < m * CHUNK + CHUNK
    ensures m + 1 == Transactions(n, t)
  {
    CoversMore(m, t);
    Quotient(t, CHUNK, m);
  }

  /** One more transaction, which takes the bytes that are in from i to t. */
  lemma ChunkedMore(sb: Superblock, v: View, txs: seq<Tx>, mine: seq<bool>, inum: nat, off: nat, src: seq<Byte>, i: nat,
                    tx: Tx, own: bool, t: nat)
    requires Chunked(sb, v, txs, mine, inum, off, src, i) && i <= t
    requires var m := Own(mine, |mine|); if own then m * CHUNK == i && t <= i + CHUNK else i <= m * CHUNK && t == i
    requires Turn(sb, ViewAt(v, txs, |txs|), tx, inum, own) && Wrote(sb, v, tx.view, inum, off, src, t)
    ensures Chunked(sb, v, txs + [tx], mine + [own], inum, off, src, t)
  {
    hide Turn, Wrote, Own, BytesIn;
    var all, marks, m := txs + [tx], mine + [own], Own(mine, |mine|);
    OwnMore(mine, own);
    CoversMore(m, t);
    CoversMore(m + 1, t);
    forall k | 0 <= k < |all| ensures ChunkedAt(sb, v, all, marks, inum, off, src, t, k) {
      if k < |txs| {
        OwnSame(mine, own, k + 1);
        OwnUp(mine, k + 1);
        assert ChunkedAt(sb, v, txs, mine, inum, off, src, i, k);
        BytesSame(Own(mine, k + 1), m, i, t);
      }
    }
  }

  /** The first n transactions that others commit between two of filewrite's own. */
  lemma {:induction false} Meanwhile(sb: Superblock, v: View, txs: seq<Tx>, mine: seq<bool>, inum: nat, off: nat,
                                     src: seq<Byte>, i: nat, others: seq<Tx>, n: nat)
    returns (r: seq<bool>)
    requires Chunked(sb, v, txs, mine, inum, off, src, i) && i <= Own(mine, |mine|) * CHUNK && n <= |others|
    requires var u := ViewAt(v, txs, |txs|);
             && Wrote(sb, v, u, inum, off, src, i) && Journal(sb, u, others)
             && forall k :: 0 <= k < |others| ==> Spares(sb, u, others[k].view, inum)
    ensures var all := txs + others[..n];
            && ViewAt(v, all, |all|) == ViewAt(ViewAt(v, txs, |txs|), others, n)
            && Wrote(sb, v, ViewAt(v, all, |all|), inum, off, src, i)
            && Chunked(sb, v, all, r, inum, off, src, i) && Own(r, |r|) == Own(mine, |mine|)
  {
    hide Turn, Wrote, Spares, Own, Steps, Chunked;
    if n == 0 {
      r := mine;
      assert txs + others[..0] == txs;
    } else {
      r := Meanwhile(sb, v, txs, mine, inum, off, src, i, others, n - 1);
      var u, tx, all := ViewAt(v, txs, |txs|), others[n - 1], txs + others[..n - 1];
      assert all + [tx] == txs + others[..n];
      WroteStill(sb, v, u, tx.view, inum, off, src, i);
      TurnOf(sb, u, ViewAt(u, others, n - 1), tx, inum);
      ChunkedMore(sb, v, all, r, inum, off, src, i, tx, false, i);
      OwnMore(r, false);
      r := r + [false];
    }
  }

  lemma TurnOf(sb: Superblock, u: View, w: View, tx: Tx, i: nat)
    requires Spares(sb, u, tx.view, i) && (w == u || Spares(sb, u, w, i)) && Steps(sb, w.disk, tx)
    ensures Turn(sb, w, tx, i, false)
  {
    hide Content, Steps;
  }

  /** How many transactions filewrite makes of n bytes when t of them go in. */
  function Transactions(n: nat, t: nat): nat { if t == n then (n + CHUNK - 1) / CHUNK else t / CHUNK + 1 }

  /** One transaction of filewrite: begin_op, writei at the file offset, end_op. */
  method WriteChunk(fs: FileSystem, f: File, chunk: seq<Byte>, faults: set<nat>) returns (r: int)
    requires fs.Valid() && fs.Open(f.ip) && |chunk| <= CHUNK
    modifies fs, f, f.ip
    ensures fs.Valid() && fs.Open(f.ip) && OthersUnchanged(fs.sb, old(fs.V()), fs.V(), f.ip.inum)
    ensures -1 <= r <= |chunk| && f.off == old(f.off) + (if r > 0 then r else 0)
    ensures r == -1 <==> old(f.off) > old(f.ip.size) || old(f.off) + |chunk| > MAXFILE * BSIZE
    ensures r == -1 ==> fs.V() == old(fs.V())
    ensures r >= 0 ==>
              Content(fs.disk, f.ip.N()) == Splice(Content(old(fs.disk), old(f.ip.N())), old(f.off), chunk[..r])
    ensures 0 <= r < |chunk| ==> (r in faults && IsChunk(old(f.off), r, |chunk|)) || Full(fs.sb, fs.disk)
    ensures forall k :: k in faults && k < r ==> !IsChunk(old(f.off), k, |chunk|)
    ensures fs.history == old(fs.history) + [Tx(fs.writes, fs.V())] && fs.disk == Applied(old(fs.disk), fs.writes)
    ensures |BlocksOf(fs.writes)| <= LogDisk.MAXOPBLOCKS && EndsFresh(fs.writes)
    ensures forall b :: b in BlocksOf(fs.writes) ==> fs.sb.inodestart <= b < fs.sb.size
    ensures Worst(fs.sb, old(fs.V()), f.ip.inum, old(f.off), |chunk|) && faults == {} ==>
              r == |chunk| && |BlocksOf(fs.writes)| == LogDisk.MAXOPBLOCKS
  {
    hide OthersUnchanged, Content, Splice, Resting, Exact, Used, Full, IsChunk, LogBound, Applied, BlocksOf, Logs;
    hide Stuck, Worst;
    AppliedNone(fs.disk);
    fs.start, fs.writes := fs.disk, [];
    ghost var v := fs.V();
    r := fs.Writei(f.ip, chunk, f.off, faults);
    ChunkWithinBudget(f.off, |chunk|);
    WorstFits(fs.sb, v, f.ip.inum, f.off, |chunk|);
    if r != -1 {
      Outcome(fs.sb, fs.Logged(), v, fs.V(), f.ip.inum, f.off, chunk, r);
      InodeLast(fs.sb, BlocksOf(fs.writes[..|fs.writes| - 1]), v, fs.V(), f.ip.inum, f.off, r, |chunk|);
    }
    fs.history := fs.history + [Tx(fs.writes, fs.V())];
    if r > 0 {
      f.off := f.off + r;
    }
  }

  /** The write of n bytes at off that logs the most. */
  ghost predicate Worst(sb: Superblock, v: View, i: nat, off: nat, n: nat) {
    && Crosses(sb, v, i, off, n) && off <= v.tab[i].size && exists f :: FourFree(sb, v.disk, f)
  }

  lemma WorstFits(sb: Superblock, v: View, i: nat, off: nat, n: nat)
    requires n <= CHUNK
    ensures Worst(sb, v, i, off, n) ==> i < |v.tab| && off <= v.tab[i].size && off + n <= MAXFILE * BSIZE
  {
  }

  lemma Outcome(sb: Superblock, logged: set<nat>, v: View, w: View, i: nat, off: nat, s: seq<Byte>, tot: nat)
    requires Resting(sb, v) && Resting(sb, w) && i < |v.tab| == |w.tab| && off <= v.tab[i].size && tot <= |s|
    requires Content(w.disk, w.tab[i]) == Splice(Content(v.disk, v.tab[i]), off, s[..tot])
    requires Logs(sb, {IBlock(sb, i)}, logged, v, w, i, off, tot, |s|)
    ensures off + tot <= w.tab[i].size && forall b :: b in logged ==> sb.inodestart <= b < sb.size
    ensures Stuck(sb, w, i, off + tot) ==> Full(sb, w.disk)
    ensures Worst(sb, v, i, off, |s|) && (tot < |s| ==> Stuck(sb, w, i, off + tot)) ==>
              tot == |s| && |logged| == LogDisk.MAXOPBLOCKS
  {
    hide Exact, Synced, Logs, Used, DataRef, Content, Splice;
    InodeBlocks(sb, i);
    SpliceLength(Content(v.disk, v.tab[i]), off, s[..tot]);
    assert |Content(w.disk, w.tab[i])| == w.tab[i].size && |Content(v.disk, v.tab[i])| == v.tab[i].size;
    assert Backed(w.disk, w.tab[i], off + tot);
    LogsBelong(sb, {IBlock(sb, i)}, logged, v, w, i, off, tot, |s|);
    if Worst(sb, v, i, off, |s|) && (tot < |s| ==> Stuck(sb, w, i, off + tot)) {
      var f :| FourFree(sb, v.disk, f);
      assert off / BSIZE * BSIZE < off;
      TightBudget(sb, logged, v, w, i, off, tot, |s|, f);
    }
  }

  /** No block that a write logs before the inode is the inode's own. */
  lemma InodeLast(sb: Superblock, logged: set<nat>, v: View, w: View, i: nat, off: nat, tot: nat, n: nat)
    requires Resting(sb, v) && Resting(sb, w) && i < |v.tab| == |w.tab| && off + tot <= w.tab[i].size
    requires Logs(sb, {}, logged, v, w, i, off, tot, n)
    ensures IBlock(sb, i) !in logged
  {
    hide Exact, Synced, Logs, Used, DataRef;
    InodeBlocks(sb, i);
    assert Backed(w.disk, w.tab[i], off + tot);
    LogsBelong(sb, {}, logged, v, w, i, off, tot, n);
  }

  /** Writes src at the file offset, at most CHUNK bytes a transaction, while other processes leave
      the file alone. t bytes went in, short of all of them only on a failed copy, a full disk or
      past the largest file size; `txs` are all the transactions meanwhile, `mine` marks filewrite's. */
  method Filewrite(fs: FileSystem, f: File, src: seq<Byte>, faults: set<nat>)
    returns (ret: int, ghost t: nat, ghost txs: seq<Tx>, ghost mine: seq<bool>)
    requires fs.Valid() && fs.Open(f.ip)
    modifies fs, f, f.ip
    ensures fs.Valid() && fs.Open(f.ip) && Wrote(fs.sb, old(fs.V()), fs.V(), f.ip.inum, old(f.off), src, t)
    ensures f.off == old(f.off) + t && ret == if t == |src| then |src| else -1
    ensures t < |src| ==>
              || (t in faults && CopyStart(old(f.off), t)) || Full(fs.sb, fs.disk) || old(f.off) > old(f.ip.size)
              || old(f.off) + |src| > MAXFILE * BSIZE
    ensures forall k :: k in faults && k < t ==> !CopyStart(old(f.off), k)
    ensures fs.history == old(fs.history) + txs && fs.V() == ViewAt(old(fs.V()), txs, |txs|)
    ensures Chunked(fs.sb, old(fs.V()), txs, mine, f.ip.inum, old(f.off), src, t)
    ensures Own(mine, |mine|) == Transactions(|src|, t)
  {
    hide Wrote, OthersUnchanged, Content, Splice, Resting, Exact, Used, Full, Chunked, Applied, BlocksOf, Worst;
    hide Turn, Spares, Journal, Own, Transactions;
    ghost var v, inum, off := fs.V(), f.ip.inum, f.off;
    var i := 0;
    t, txs, mine := 0, [], [];
    WroteNothing(fs.sb, v, inum, off, src);
    ChunkedNone(fs.sb, v, inum, off, src);
    while i < |src|
      invariant 0 <= i <= |src| && t == i && f.off == off + i && (i == 0 ==> f.ip.size == old(f.ip.size))
      invariant fs.Valid() && fs.Open(f.ip) && Wrote(fs.sb, v, fs.V(), inum, off, src, i)
      invariant fs.history == old(fs.history) + txs && fs.V() == ViewAt(v, txs, |txs|)
      invariant Chunked(fs.sb, v, txs, mine, inum, off, src, i)
      invariant forall k :: k in faults && k < t ==> !CopyStart(off, k)
      invariant var m := Own(mine, |mine|); Covers(m, i) && (i == m * CHUNK || i == |src|)
    {
      ghost var m := Own(mine, |mine|);
      CoversMore(m, i);
      AtEdge(m, i);
      ghost var others := fs.OtherProcesses(f.ip);
      mine := Meanwhile(fs.sb, v, txs, mine, inum, off, src, i, others, |others|);
      txs := txs + others[..|others|];
      var n1 := if |src| - i > CHUNK then CHUNK else |src| - i;
      var r := NextChunk(fs, f, src, faults, i, n1, v, off);
      if r > 0 { t := t + r; }
      ChunkedMore(fs.sb, v, txs, mine, inum, off, src, i, Tx(fs.writes, fs.V()), true, t);
      OwnMore(mine, true);
      txs, mine := txs + [Tx(fs.writes, fs.V())], mine + [true];
      if r != n1 {
        CutShort(m, |src|, t);
        break;
      }
      i := i + r;
    }
    if t == |src| { AllIn(Own(mine, |mine|), |src|); }
    ret := if i == |src| then |src| else -1;
  }

  /** The turn of filewrite's loop that writes n1 bytes from byte i of src on. */
  method NextChunk(fs: FileSystem, f: File, src: seq<Byte>, faults: set<nat>, i: nat, n1: nat, ghost v: View,
                   ghost off: nat)
    returns (r: int)
    requires fs.Valid() && fs.Open(f.ip) && i + n1 <= |src| && 0 < n1 <= CHUNK && f.off == off + i
    requires Wrote(fs.sb, v, fs.V(), f.ip.inum, off, src, i) && i % CHUNK == 0
    modifies fs, f, f.ip
    ensures fs.Valid() && fs.Open(f.ip) && -1 <= r <= n1
    ensures var got := i + if r > 0 then r else 0;
            && Wrote(fs.sb, v, fs.V(), f.ip.inum, off, src, got) && f.off == off + got
            && Turn(fs.sb, old(fs.V()), Tx(fs.writes, fs.V()), f.ip.inum, true)
            && (r < n1 ==> (got in faults && CopyStart(off, got)) || Full(fs.sb, fs.disk)
                           || off + |src| > MAXFILE * BSIZE || (i == 0 && off > old(f.ip.size)))
            && (forall k :: k in faults && i <= k < got ==> !CopyStart(off, k))
    ensures fs.history == old(fs.history) + [Tx(fs.writes, fs.V())]
  {
    hide OthersUnchanged, Content, Splice, Exact, Solid, Synced, Used, Full, Applied, BlocksOf, Worst, IsChunk;
    hide CopyStart, Later;
    ghost var was, inum := fs.V(), f.ip.inum;
    if i > 0 { WroteReaches(fs.sb, v, was, inum, off, src, i); }
    r := WriteChunk(fs, f, src[i..i + n1], Later(faults, i));
    Copied(off, i, n1, r, faults);
    if r >= 0 {
      SliceOfSlice(src, i, n1, r);
      WroteMore(fs.sb, v, was, fs.V(), inum, off, src, i, r);
    }
  }

  lemma SliceOfSlice(s: seq<Byte>, i: nat, n: nat, r: nat)
    requires r <= n && i + n <= |s|
    ensures s[i..i + n][..r] == s[i..i + r]
  {
  }

  /** The failing copies from byte i on, counted from there. */
  function Later(faults: set<nat>, i: nat): (r: set<nat>)
    ensures forall k :: k in faults && i <= k ==> k - i in r
  {
    set k | k in faults && i <= k :: k - i
  }

  lemma LaterIs(faults: set<nat>, i: nat, k: nat)
    requires k in Later(faults, i)
    ensures i + k in faults
  {
  }

  /** The failing copies of a chunk, in terms of the whole source. */
  lemma Copied(off: nat, i: nat, n: nat, r: int, faults: set<nat>)
    requires i % CHUNK == 0 && n <= CHUNK && r <= n
    requires forall k :: k in Later(faults, i) && k < r ==> !IsChunk(off + i, k, n)
    ensures forall k :: k in faults && i <= k < i + r ==> !CopyStart(off, k)
    ensures 0 <= r < n && r in Later(faults, i) && IsChunk(off + i, r, n) ==> i + r in faults && CopyStart(off, i + r)
  {
    hide IsChunk, CopyStart, Later;
    forall k: nat | k in faults && i <= k < i + r ensures !CopyStart(off, k) {
      assert k - i in Later(faults, i);
      StartIs(off, i, n, k);
    }
    if 0 <= r < n && r in Later(faults, i) {
      LaterIs(faults, i, r);
      StartIs(off, i, n, i + r);
    }
  }

  lemma StartIs(off: nat, i: nat, n: nat, k: nat)
    requires i % CHUNK == 0 && i <= k < i + n && n <= CHUNK
    ensures CopyStart(off, k) <==> IsChunk(off + i, k - i, n)
  {
    var m := i / CHUNK;
    assert m * CHUNK <= k < (m + 1) * CHUNK;
    Quotient(k, CHUNK, m);
  }

  lemma ChunkedNone(sb: Superblock, v: View, i: nat, off: nat, src: seq<Byte>)
    ensures Chunked(sb, v, [], [], i, off, src, 0) && Own([], 0) == 0
  {
  }

  /** The transaction of an open that truncates: begin_op, itrunc, end_op. */
  method TruncateFile(fs: FileSystem, ip: Incore)
    requires fs.Valid() && fs.Open(ip)
    modifies fs, ip
    ensures fs.Valid() && fs.Open(ip) && ip.size == 0 && OthersUnchanged(fs.sb, old(fs.V()), fs.V(), ip.inum)
    ensures fs.history == old(fs.history) + [Tx(fs.writes, fs.V())] && Steps(fs.sb, old(fs.disk), Tx(fs.writes, fs.V()))
    ensures |BlocksOf(fs.writes)| <= LogDisk.MAXOPBLOCKS <==>
              |Bitmaps(fs.sb, BlocksOfFile(old(fs.V()), ip.inum))| < LogDisk.MAXOPBLOCKS
  {
    hide OthersUnchanged, Exact, Solid, Synced, Used, Applied, BlocksOf, Bitmaps, BlocksOfFile, IBlock;
    AppliedNone(fs.disk);
    fs.start, fs.writes := fs.disk, [];
    ghost var v := fs.V();
    TruncateBudget(fs.sb, v, ip.inum, LogDisk.MAXOPBLOCKS);
    TruncateBelongs(fs.sb, v, ip.inum);
    fs.Itrunc(ip);
    fs.history := fs.history + [Tx(fs.writes, fs.V())];
  }
}
