/** The file system over the log: what a crash leaves of a sequence of transactions. */
module FsCrash {
  import LogDisk
  import LogProtocol
  import LogRuns
  import LogClient
  import LogCommits
  import opened Blocks
  import opened FsLayout
  import opened FsOwnership
  import opened FsContent
  import opened FsBudget
  import opened Fs
  import opened FileWrite

  /** The inodes, the bitmap and the data agree; what lies below them may not. */
  ghost predicate SameAbove(sb: Superblock, d: Disk, e: Disk) {
    |e| == |d| && forall b :: sb.inodestart <= b < |d| ==> e[b] == d[b]
  }

  lemma AboveRefs(sb: Superblock, d: Disk, e: Disk, n: Inode, k: nat)
    requires WellFormed(sb) && |d| == sb.size && SameAbove(sb, d, e) && GoodInode(sb, n) && k < SLOTS
    ensures Ref(e, n, k) == Ref(d, n, k)
  {
  }

  lemma AboveInv(sb: Superblock, v: View, e: Disk)
    requires Inv(sb, v) && SameAbove(sb, v.disk, e)
    ensures Inv(sb, View(e, v.tab, v.owner))
  {
    hide Exact, Ref;
    var w := View(e, v.tab, v.owner);
    forall j, l | 0 <= j < |v.tab| && 0 <= l < SLOTS ensures Ref(w.disk, w.tab[j], l) == Ref(v.disk, v.tab[j], l) {
      AboveRefs(sb, v.disk, e, v.tab[j], l);
    }
    forall c | 0 <= c < sb.size ensures Used(sb, w.disk, c) <==> Used(sb, v.disk, c) { BitmapBlocks(sb, c); }
    OwnedAfterStore(sb, v, w);
  }

  lemma AboveExtends(sb: Superblock, v: View, e: Disk)
    requires Inv(sb, v) && SameAbove(sb, v.disk, e)
    ensures Shape(sb, View(e, v.tab, v.owner)) && Extends(sb, v, View(e, v.tab, v.owner))
  {
    hide Exact, Ref;
    var w := View(e, v.tab, v.owner);
    forall j, bn | 0 <= j < |v.tab| && 0 <= bn < MAXFILE && DataRef(v.disk, v.tab[j], bn) != 0
      ensures SameBlock(sb, v, w, j, bn)
    {
      AboveRefs(sb, v.disk, e, v.tab[j], DataSlot(bn));
      RefInData(sb, v, j, bn);
    }
  }

  /** Nothing below the inodes matters to the file system. */
  lemma AboveRests(sb: Superblock, v: View, e: Disk)
    requires Resting(sb, v) && SameAbove(sb, v.disk, e)
    ensures Resting(sb, View(e, v.tab, v.owner))
    ensures forall j :: 0 <= j < |v.tab| ==> Content(e, v.tab[j]) == Content(v.disk, v.tab[j])
  {
    var w := View(e, v.tab, v.owner);
    AboveInv(sb, v, e);
    AboveExtends(sb, v, e);
    hide Exact, Content, Extends;
    forall j | 0 <= j < |v.tab|
      ensures Content(e, v.tab[j]) == Content(v.disk, v.tab[j]) && Backed(e, v.tab[j], v.tab[j].size)
    {
      ContentAfter(sb, v, w, j);
      BackedAfter(sb, v, w, j, v.tab[j].size);
    }
    forall j | 0 <= j < sb.ninodes ensures ReadInode(sb, e, j) == ReadInode(sb, v.disk, j) { InodeBlocks(sb, j); }
  }

  lemma AboveWrote(sb: Superblock, v: View, w: View, e: Disk, i: nat, off: nat, src: seq<Byte>, t: nat)
    requires Resting(sb, w) && SameAbove(sb, w.disk, e) && Wrote(sb, v, w, i, off, src, t)
    ensures Resting(sb, View(e, w.tab, w.owner)) && Wrote(sb, v, View(e, w.tab, w.owner), i, off, src, t)
  {
    hide Inv, Content, Splice, Solid, Synced;
    AboveRests(sb, w, e);
  }

  function WritesOf(txs: seq<Tx>): (r: seq<seq<Update>>)
    ensures |r| == |txs|
  {
    seq(|txs|, k requires 0 <= k < |txs| => txs[k].writes)
  }

  lemma {:induction false} DiskAtView(sb: Superblock, v: View, txs: seq<Tx>, k: nat)
    requires Journal(sb, v, txs) && k <= |txs|
    ensures LogClient.DiskAt(v.disk, WritesOf(txs), k) == ViewAt(v, txs, k).disk
  {
    hide Applied, Journal;
    if k > 0 {
      DiskAtView(sb, v, txs, k - 1);
      TxStep(sb, v, txs, k - 1);
    }
  }

  lemma TxStep(sb: Superblock, v: View, txs: seq<Tx>, k: nat)
    requires Journal(sb, v, txs) && k < |txs|
    ensures Resting(sb, txs[k].view) && txs[k].view.disk == Applied(ViewAt(v, txs, k).disk, txs[k].writes)
  {
    hide Applied, Resting, BlocksOf;
    assert Steps(sb, ViewAt(v, txs, k).disk, txs[k]);
  }

  lemma ChunkedIsJournal(sb: Superblock, v: View, txs: seq<Tx>, mine: seq<bool>, i: nat, off: nat, src: seq<Byte>,
                         t: nat)
    requires Chunked(sb, v, txs, mine, i, off, src, t)
    ensures Journal(sb, v, txs)
  {
    hide Steps, Wrote, BlocksOf, ViewAt, BytesIn, OthersUnchanged, Spares;
    forall k | 0 <= k < |txs| ensures Steps(sb, ViewAt(v, txs, k).disk, txs[k]) {
      assert ChunkedAt(sb, v, txs, mine, i, off, src, t, k);
    }
  }

  /** The log lies below the inodes of sb. */
  predicate LogBelow(g: LogDisk.Region, sb: Superblock) { g.start + g.size <= sb.inodestart }

  /** The run, of any number of processes, carries out the transactions from file system v at rest. */
  ghost predicate Runs(g: LogDisk.Region, s: LogProtocol.State, ls: seq<LogProtocol.Label>, v: View, txs: seq<Tx>) {
    && LogClient.AtRest(g, s, v.disk) && LogRuns.IsRun(g, s, ls)
    && LogClient.Carries(g, s, ls, LogClient.Begun(WritesOf(txs)), WritesOf(txs))
  }

  /** How far the transactions had got when the run stopped or crashed. */
  ghost function Reached(g: LogDisk.Region, s: LogProtocol.State, ls: seq<LogProtocol.Label>, v: View, txs: seq<Tx>)
    : (at: LogClient.Place)
    requires Runs(g, s, ls, v, txs)
    ensures LogClient.Good(at, WritesOf(txs))
  {
    LogClient.PlaceAfter(g, s, ls, LogClient.Begun(WritesOf(txs)), WritesOf(txs))
  }

  ghost function Rebooted(g: LogDisk.Region, s: LogProtocol.State, ls: seq<LogProtocol.Label>, v: View, txs: seq<Tx>)
    : Disk
    requires Runs(g, s, ls, v, txs)
  {
    LogDisk.Recovered(g, LogRuns.After(g, s, ls).disk)
  }

  /** What a reboot keeps: the transactions up to the last moment at which no process was in one,
      or up to the moment before if the commit since had not got to the header. */
  ghost predicate Survive(g: LogDisk.Region, s: LogProtocol.State, ls: seq<LogProtocol.Label>, v: View, txs: seq<Tx>,
                          k: nat)
    requires Runs(g, s, ls, v, txs)
  {
    var at := Reached(g, s, ls, v, txs);
    (k == at.last || k == at.prev) && (at.At? && LogRuns.After(g, s, ls).phase.Up? ==> k == at.last)
  }

  /** Wherever the machine crashes while the transactions run, and however often it crashes again
      while recovering, it reboots into the file system after a prefix of them. That file system is
      at rest and every file in it is whole. */
  lemma CrashKeepsPrefix(g: LogDisk.Region, s: LogProtocol.State, ls: seq<LogProtocol.Label>, sb: Superblock, v: View,
                         txs: seq<Tx>)
    returns (k: nat)
    requires Resting(sb, v) && Journal(sb, v, txs) && LogBelow(g, sb) && Runs(g, s, ls, v, txs)
    ensures k <= |txs| && Survive(g, s, ls, v, txs, k)
    ensures var u, d := ViewAt(v, txs, k), Rebooted(g, s, ls, v, txs);
            && SameAbove(sb, u.disk, d) && Resting(sb, u) && Resting(sb, View(d, u.tab, u.owner))
            && forall j :: 0 <= j < |u.tab| ==> Content(d, u.tab[j]) == Content(u.disk, u.tab[j])
  {
    hide Resting, LogClient.AtRest, LogClient.Carries, LogClient.PlaceAfter, LogRuns.IsRun, LogRuns.After;
    hide LogProtocol.Inv, LogDisk.Recovered, LogClient.DiskAt, LogDisk.GoodDisk, Journal, Content, LogClient.Begun;
    k := LogClient.RebootAfterPrefix(g, s, ls, WritesOf(txs), v.disk);
    DiskAtView(sb, v, txs, k);
    if k > 0 { TxStep(sb, v, txs, k - 1); }
    var u := ViewAt(v, txs, k);
    MaskAbove(g, sb, u.disk);
    RestingShape(sb, u);
    AboveRests(sb, u, LogDisk.Home(g, u.disk));
  }

  /** For filewrite: the file holds the bytes of a prefix of its chunks, whatever transactions of
      other processes came between them and were committed with them. */
  lemma FilewriteSurvivesCrash(g: LogDisk.Region, s: LogProtocol.State, ls: seq<LogProtocol.Label>, sb: Superblock,
                               v: View, txs: seq<Tx>, mine: seq<bool>, i: nat, off: nat, src: seq<Byte>, t: nat)
    returns (k: nat)
    requires Resting(sb, v) && i < |v.tab| && Chunked(sb, v, txs, mine, i, off, src, t) && LogBelow(g, sb)
    requires Runs(g, s, ls, v, txs)
    ensures k <= |txs| && Survive(g, s, ls, v, txs, k)
    ensures var w := View(Rebooted(g, s, ls, v, txs), ViewAt(v, txs, k).tab, ViewAt(v, txs, k).owner);
            Resting(sb, w) && Wrote(sb, v, w, i, off, src, BytesIn(Own(mine, k), t))
  {
    hide Resting, Wrote, Runs, Survive, Rebooted, Steps, Turn;
    ChunkedIsJournal(sb, v, txs, mine, i, off, src, t);
    k := CrashKeepsPrefix(g, s, ls, sb, v, txs);
    var u := ViewAt(v, txs, k);
    if k == 0 {
      RestingShape(sb, v);
      WroteNothing(sb, v, i, off, src);
    } else {
      assert ChunkedAt(sb, v, txs, mine, i, off, src, t, k - 1);
    }
    AboveWrote(sb, v, u, Rebooted(g, s, ls, v, txs), i, off, src, BytesIn(Own(mine, k), t));
  }

  lemma RestingShape(sb: Superblock, v: View)
    requires Resting(sb, v)
    ensures Shape(sb, v)
  {
  }

  lemma MaskAbove(g: LogDisk.Region, sb: Superblock, d: Disk)
    requires LogBelow(g, sb)
    ensures SameAbove(sb, d, LogDisk.Home(g, d))
  {
  }

  /** And no log_write of filewrite panics: whatever other processes have in the log, once process q
      has made the first j writes of one of filewrite's transactions, the next one has room. */
  lemma FilewriteFitsLog(g: LogDisk.Region, s: LogProtocol.State, ls: seq<LogProtocol.Label>, q: nat, sb: Superblock,
                         v: View, txs: seq<Tx>, mine: seq<bool>, i: nat, off: nat, src: seq<Byte>, t: nat, k: nat,
                         j: nat)
    requires Chunked(sb, v, txs, mine, i, off, src, t) && LogBelow(g, sb) && g.size > LogDisk.LOGSIZE
    requires k < |txs| && mine[k] && j < |txs[k].writes|
    requires LogProtocol.Inv(g, s) && LogRuns.IsRun(g, s, ls) && |s.disk| == sb.size
    requires q < |s.ops| && !s.ops[q].Active?
    requires var e := LogRuns.After(g, s, ls);
             && LogProtocol.Running(e) && q < |e.ops| && e.ops[q].Active?
             && LogClient.MadeAfter(g, s, ls, q, []) == txs[k].writes[..j]
    ensures var u := txs[k].writes[j];
            LogProtocol.Enabled(g, LogRuns.After(g, s, ls), LogProtocol.Write(q, u.block, u.contents))
  {
    hide Wrote, Resting, LogProtocol.Inv, LogProtocol.Enabled, BlocksOf, BytesIn, Own, OthersUnchanged, EndsFresh;
    hide LogRuns.IsRun, LogRuns.After, LogClient.MadeAfter, Applied;
    assert ChunkedAt(sb, v, txs, mine, i, off, src, t, k);
    LogClient.WriteFits(g, s, ls, q, txs[k].writes, j);
  }

  /** Each of filewrite's transactions can begin, make its writes, end and commit on a log at rest,
      and what a reboot then comes up with is the file system after it. */
  lemma ChunkCommits(g: LogDisk.Region, s: LogProtocol.State, q: nat, sb: Superblock, v: View, txs: seq<Tx>,
                     mine: seq<bool>, i: nat, off: nat, src: seq<Byte>, t: nat, k: nat)
    returns (ls: seq<LogProtocol.Label>)
    requires Chunked(sb, v, txs, mine, i, off, src, t) && LogBelow(g, sb) && g.size > LogDisk.LOGSIZE
    requires k < |txs| && mine[k] && LogClient.AtRest(g, s, ViewAt(v, txs, k).disk)
    requires q < |s.ops| && s.ops[q].Idle?
    ensures LogProtocol.Inv(g, s) && LogRuns.IsRun(g, s, ls)
    ensures var e, d := LogRuns.After(g, s, ls), txs[k].view.disk;
            LogClient.AtRest(g, e, d) && LogDisk.Recovered(g, e.disk) == LogDisk.Home(g, d)
  {
    hide Wrote, Resting, BlocksOf, BytesIn, Own, OthersUnchanged, EndsFresh, Applied, LogRuns.IsRun, LogRuns.After;
    hide LogClient.AtRest, LogDisk.Recovered, LogDisk.Home;
    assert ChunkedAt(sb, v, txs, mine, i, off, src, t, k);
    LogCommits.AtRestInv(g, s, ViewAt(v, txs, k).disk);
    ls := LogCommits.OperationCommits(g, s, q, ViewAt(v, txs, k).disk, txs[k].writes);
  }
}
