/** The on-disk redo log of kernel/log.c: what a disk holding a log means. */
module LogDisk {
  import opened Blocks

  const MAXOPBLOCKS: nat := 10
  const LOGSIZE: nat := MAXOPBLOCKS * 3

  type Disk = seq<Block>

  /** The log region: the header block `start`, then `size - 1` data slots. */
  datatype Region = Region(start: nat, size: nat)

  predicate InLog(g: Region, b: nat) { g.start <= b < g.start + g.size }

  function Slot(g: Region, i: nat): nat { g.start + 1 + i }

  /** How many blocks a transaction may hold: the bound that log_write checks. */
  function Capacity(g: Region): int { if g.size - 1 < LOGSIZE then g.size - 1 else LOGSIZE }

  predicate HasRegion(g: Region, d: Disk) { g.size > 0 && g.start + g.size <= |d| <= 0x1_0000_0000 }

  // The header block: word 0 is n, words 1..n are the home block numbers.

  function HeaderCount(h: Block): nat { Word(h, 0) }

  function Header(h: Block): (lh: seq<nat>)
    requires HeaderCount(h) <= LOGSIZE
    ensures |lh| == HeaderCount(h)
  {
    seq(HeaderCount(h), i requires 0 <= i < HeaderCount(h) => Word(h, 1 + i))
  }

  ghost predicate NoDup(lh: seq<nat>) {
    forall i, j :: 0 <= i < j < |lh| ==> lh[i] != lh[j]
  }

  /** A list of home blocks that fits the log. */
  ghost predicate GoodList(g: Region, d: Disk, lh: seq<nat>) {
    && |lh| <= Capacity(g)
    && NoDup(lh)
    && forall i :: 0 <= i < |lh| ==> lh[i] < |d| && !InLog(g, lh[i])
  }

  ghost predicate GoodDisk(g: Region, d: Disk) {
    && HasRegion(g, d)
    && HeaderCount(d[g.start]) <= LOGSIZE
    && GoodList(g, d, Header(d[g.start]))
  }

  function OnDisk(g: Region, d: Disk): seq<nat>
    requires GoodDisk(g, d)
  {
    Header(d[g.start])
  }

  ghost function IndexOf(lh: seq<nat>, b: nat): (i: nat)
    requires b in lh
    ensures i < |lh| && lh[i] == b
  {
    var i :| 0 <= i < |lh| && lh[i] == b;
    i
  }

  /** The file system's own blocks: everything outside the log region, which is masked. */
  function Home(g: Region, d: Disk): Disk {
    seq(|d|, b requires 0 <= b < |d| => if InLog(g, b) then ZeroBlock() else d[b])
  }

  /** What the file system is once the log `lh` is taken to override the home blocks. */
  ghost function Overlay(g: Region, d: Disk, lh: seq<nat>): Disk
    requires HasRegion(g, d) && GoodList(g, d, lh)
  {
    seq(|d|, b requires 0 <= b < |d| =>
      if InLog(g, b) then ZeroBlock() else if b in lh then d[Slot(g, IndexOf(lh, b))] else d[b])
  }

  /** The file system that a reboot from disk `d` must come up with. */
  ghost function Recovered(g: Region, d: Disk): Disk
    requires GoodDisk(g, d)
  {
    Overlay(g, d, OnDisk(g, d))
  }

  /** The buffers pinned by log_write: newer contents of some blocks. */
  type Buffers = map<nat, Block>

  function Over(d: Disk, pinned: Buffers): Disk {
    seq(|d|, b requires 0 <= b < |d| => if b in pinned then pinned[b] else d[b])
  }

  // Writing the header.

  ghost predicate Fits(lh: seq<nat>) {
    |lh| <= LOGSIZE && forall i :: 0 <= i < |lh| ==> lh[i] < 0x1_0000_0000
  }

  function PutHeader(h: Block, lh: seq<nat>): Block
    requires Fits(lh)
  {
    PutWords(PutWord(h, 0, |lh|), 1, lh, |lh|)
  }

  /** write_head then read_head gives back the list. */
  lemma HeaderRoundTrip(h: Block, lh: seq<nat>)
    requires Fits(lh)
    ensures HeaderCount(PutHeader(h, lh)) == |lh| && Header(PutHeader(h, lh)) == lh
  {
    var h0 := PutWord(h, 0, |lh|);
    WordOfPutWords(h0, 1, lh, |lh|, 0);
    WordOfPutWord(h, 0, |lh|, 0);
    forall i | 0 <= i < |lh| ensures Word(PutHeader(h, lh), 1 + i) == lh[i] {
      WordOfPutWords(h0, 1, lh, |lh|, 1 + i);
    }
  }

  // The four kinds of block write that a commit or a recovery performs.

  /** Filling a log slot while the header is empty changes nothing a reboot would see. */
  lemma FillSlot(g: Region, d: Disk, i: nat, v: Block)
    requires GoodDisk(g, d) && OnDisk(g, d) == [] && i < g.size - 1
    ensures var e := d[Slot(g, i) := v];
            GoodDisk(g, e) && OnDisk(g, e) == [] && Recovered(g, e) == Recovered(g, d) == Home(g, d) == Home(g, e)
  {
  }

  /** Writing the header makes the whole transaction durable at once. */
  lemma CommitPoint(g: Region, d: Disk, lh: seq<nat>)
    requires HasRegion(g, d) && GoodList(g, d, lh)
    ensures var e := d[g.start := PutHeader(d[g.start], lh)];
            GoodDisk(g, e) && OnDisk(g, e) == lh && Recovered(g, e) == Overlay(g, d, lh)
  {
    HeaderRoundTrip(d[g.start], lh);
  }

  /** Copying one slot home leaves what a reboot would see unchanged. */
  lemma InstallSlot(g: Region, d: Disk, i: nat)
    requires GoodDisk(g, d) && i < |OnDisk(g, d)|
    ensures var e := d[OnDisk(g, d)[i] := d[Slot(g, i)]];
            GoodDisk(g, e) && OnDisk(g, e) == OnDisk(g, d) && Recovered(g, e) == Recovered(g, d)
  {
  }

  ghost predicate Installed(g: Region, d: Disk, lh: seq<nat>, k: nat)
    requires HasRegion(g, d) && GoodList(g, d, lh) && k <= |lh|
  {
    forall i :: 0 <= i < k ==> d[lh[i]] == d[Slot(g, i)]
  }

  lemma InstallFrame(g: Region, d: Disk, lh: seq<nat>, t: nat)
    requires HasRegion(g, d) && GoodList(g, d, lh) && t < |lh| && Installed(g, d, lh, t)
    ensures var e := d[lh[t] := d[Slot(g, t)]];
            && HasRegion(g, e) && GoodList(g, e, lh) && Installed(g, e, lh, t + 1)
            && (forall i :: 0 <= i < |lh| ==> e[Slot(g, i)] == d[Slot(g, i)])
  {
  }

  /** Once every slot is installed, erasing the header changes nothing either. */
  lemma Erase(g: Region, d: Disk)
    requires GoodDisk(g, d) && Installed(g, d, OnDisk(g, d), |OnDisk(g, d)|)
    ensures var e := d[g.start := PutHeader(d[g.start], [])];
            GoodDisk(g, e) && OnDisk(g, e) == [] && Home(g, e) == Recovered(g, e) == Recovered(g, d)
  {
    HeaderRoundTrip(d[g.start], []);
    var e := d[g.start := PutHeader(d[g.start], [])];
    assert GoodList(g, e, []);
    assert Recovered(g, e) == Home(g, e);
    assert Overlay(g, d, OnDisk(g, d)) == Home(g, d);
  }
}
