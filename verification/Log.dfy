/** The log code of kernel/log.c itself. Each method is specified by the sequence of
    disks its block writes leave behind, and lemmas say what a crash at any of those
    points reboots into. */
module Log {
  import opened Blocks
  import opened LogDisk

  // The disks that write_log and install_trans go through.

  ghost predicate Names(lh: seq<nat>, pinned: Buffers) {
    && (forall i :: 0 <= i < |lh| ==> lh[i] in pinned)
    && (forall b :: b in pinned ==> b in lh)
  }

  function Fill(g: Region, d: Disk, lh: seq<nat>, pinned: Buffers, k: nat): (r: Disk)
    requires k <= |lh| < g.size && HasRegion(g, d) && Names(lh, pinned)
    ensures |r| == |d|
  {
    if k == 0 then d else Fill(g, d, lh, pinned, k - 1)[Slot(g, k - 1) := pinned[lh[k - 1]]]
  }

  function FillTrace(g: Region, d: Disk, lh: seq<nat>, pinned: Buffers, k: nat): (r: seq<Disk>)
    requires k <= |lh| < g.size && HasRegion(g, d) && Names(lh, pinned)
    ensures |r| == k
  {
    if k == 0 then [] else FillTrace(g, d, lh, pinned, k - 1) + [Fill(g, d, lh, pinned, k)]
  }

  function Install(g: Region, d: Disk, lh: seq<nat>, k: nat): (r: Disk)
    requires k <= |lh| && HasRegion(g, d) && GoodList(g, d, lh)
    ensures |r| == |d|
  {
    if k == 0 then d
    else var e := Install(g, d, lh, k - 1); e[lh[k - 1] := e[Slot(g, k - 1)]]
  }

  function InstallTrace(g: Region, d: Disk, lh: seq<nat>, k: nat): (r: seq<Disk>)
    requires k <= |lh| && HasRegion(g, d) && GoodList(g, d, lh)
    ensures |r| == k
  {
    if k == 0 then [] else InstallTrace(g, d, lh, k - 1) + [Install(g, d, lh, k)]
  }

  function WithHeader(g: Region, d: Disk, lh: seq<nat>): Disk
    requires HasRegion(g, d) && Fits(lh)
  {
    d[g.start := PutHeader(d[g.start], lh)]
  }

  function Unpin(pinned: Buffers, lh: seq<nat>, k: nat): Buffers
    requires k <= |lh|
  {
    if k == 0 then pinned else Unpin(pinned, lh, k - 1) - {lh[k - 1]}
  }

  lemma {:induction false} UnpinKeys(pinned: Buffers, lh: seq<nat>, k: nat)
    requires k <= |lh|
    ensures forall b :: b in Unpin(pinned, lh, k) <==> b in pinned && b !in lh[..k]
  {
    if k > 0 {
      UnpinKeys(pinned, lh, k - 1);
      assert lh[..k] == lh[..k - 1] + [lh[k - 1]];
    }
  }

  lemma UnpinAll(pinned: Buffers, lh: seq<nat>)
    requires forall b :: b in pinned ==> b in lh
    ensures Unpin(pinned, lh, |lh|) == map[]
  {
    UnpinKeys(pinned, lh, |lh|);
    assert lh[..|lh|] == lh;
  }

  /** Every crash in the stretch `tr` reboots into `fs`. */
  ghost predicate Reboots(g: Region, tr: seq<Disk>, fs: Disk) {
    forall i :: 0 <= i < |tr| ==> GoodDisk(g, tr[i]) && Recovered(g, tr[i]) == fs
  }

  lemma RebootsSnoc(g: Region, tr: seq<Disk>, e: Disk, fs: Disk)
    requires Reboots(g, tr, fs) && GoodDisk(g, e) && Recovered(g, e) == fs
    ensures Reboots(g, tr + [e], fs)
  {
  }

  lemma RebootsConcat(g: Region, tr: seq<Disk>, tr': seq<Disk>, fs: Disk)
    requires Reboots(g, tr, fs) && Reboots(g, tr', fs)
    ensures Reboots(g, tr + tr', fs)
  {
  }

  lemma {:induction false} FillGood(g: Region, d: Disk, lh: seq<nat>, pinned: Buffers, k: nat)
    requires GoodDisk(g, d) && OnDisk(g, d) == [] && GoodList(g, d, lh) && Names(lh, pinned) && k <= |lh|
    ensures var e := Fill(g, d, lh, pinned, k);
            && GoodDisk(g, e) && OnDisk(g, e) == [] && |e| == |d|
            && Recovered(g, e) == Home(g, e) == Home(g, d) == Recovered(g, d)
  {
    if k == 0 {
      assert Recovered(g, d) == Home(g, d);
    } else {
      FillGood(g, d, lh, pinned, k - 1);
      FillSlot(g, Fill(g, d, lh, pinned, k - 1), k - 1, pinned[lh[k - 1]]);
    }
  }

  lemma {:induction false} FillSlots(g: Region, d: Disk, lh: seq<nat>, pinned: Buffers, k: nat)
    requires k <= |lh| < g.size && HasRegion(g, d) && Names(lh, pinned)
    ensures var e := Fill(g, d, lh, pinned, k);
            forall i :: 0 <= i < k ==> e[Slot(g, i)] == pinned[lh[i]]
  {
    if k > 0 { FillSlots(g, d, lh, pinned, k - 1); }
  }

  lemma {:induction false} FillReboots(g: Region, d: Disk, lh: seq<nat>, pinned: Buffers, k: nat)
    requires GoodDisk(g, d) && OnDisk(g, d) == [] && GoodList(g, d, lh) && Names(lh, pinned) && k <= |lh|
    ensures Reboots(g, FillTrace(g, d, lh, pinned, k), Home(g, d))
  {
    if k > 0 {
      FillReboots(g, d, lh, pinned, k - 1);
      FillGood(g, d, lh, pinned, k);
      RebootsSnoc(g, FillTrace(g, d, lh, pinned, k - 1), Fill(g, d, lh, pinned, k), Home(g, d));
    }
  }

  lemma {:induction false} InstallGood(g: Region, d: Disk, lh: seq<nat>, k: nat)
    requires GoodDisk(g, d) && OnDisk(g, d) == lh && k <= |lh|
    ensures var e := Install(g, d, lh, k);
            && GoodDisk(g, e) && OnDisk(g, e) == lh && Recovered(g, e) == Recovered(g, d) && Installed(g, e, lh, k)
  {
    hide Recovered, NoDup, Header;
    if k > 0 {
      InstallGood(g, d, lh, k - 1);
      InstallSlot(g, Install(g, d, lh, k - 1), k - 1);
      InstallFrame(g, Install(g, d, lh, k - 1), lh, k - 1);
    }
  }

  lemma {:induction false} InstallReboots(g: Region, d: Disk, lh: seq<nat>, k: nat)
    requires GoodDisk(g, d) && OnDisk(g, d) == lh && k <= |lh|
    ensures Reboots(g, InstallTrace(g, d, lh, k), Recovered(g, d))
  {
    if k > 0 {
      InstallReboots(g, d, lh, k - 1);
      InstallGood(g, d, lh, k);
      RebootsSnoc(g, InstallTrace(g, d, lh, k - 1), Install(g, d, lh, k), Recovered(g, d));
    }
  }

  lemma OverlayIsCurrent(g: Region, d: Disk, lh: seq<nat>, pinned: Buffers)
    requires HasRegion(g, d) && GoodList(g, d, lh) && Names(lh, pinned)
    requires forall i :: 0 <= i < |lh| ==> d[Slot(g, i)] == pinned[lh[i]]
    ensures Overlay(g, d, lh) == Over(Home(g, d), pinned)
  {
  }

  /** The last disk of a recovery from d, and all of its disks. */
  ghost function RecoveryEnd(g: Region, d: Disk): Disk
    requires GoodDisk(g, d)
  {
    InstallGood(g, d, OnDisk(g, d), |OnDisk(g, d)|);
    WithHeader(g, Install(g, d, OnDisk(g, d), |OnDisk(g, d)|), [])
  }

  ghost function RecoveryTrace(g: Region, d: Disk): seq<Disk>
    requires GoodDisk(g, d)
  {
    InstallTrace(g, d, OnDisk(g, d), |OnDisk(g, d)|) + [RecoveryEnd(g, d)]
  }

  /** Recovery installs exactly what the disk stood for, and a crash anywhere in it
      reboots into the same file system again. */
  lemma RecoveryReboots(g: Region, d: Disk)
    requires GoodDisk(g, d)
    ensures Reboots(g, RecoveryTrace(g, d), Recovered(g, d))
    ensures var e := RecoveryEnd(g, d);
            GoodDisk(g, e) && OnDisk(g, e) == [] && Home(g, e) == Recovered(g, e) == Recovered(g, d)
  {
    var lh := OnDisk(g, d);
    InstallGood(g, d, lh, |lh|);
    Erase(g, Install(g, d, lh, |lh|));
    InstallReboots(g, d, lh, |lh|);
    RebootsSnoc(g, InstallTrace(g, d, lh, |lh|), RecoveryEnd(g, d), Recovered(g, d));
  }

  /** The disk that the header write of a commit leaves. */
  ghost function Committed(g: Region, d: Disk, lh: seq<nat>, pinned: Buffers): (h: Disk)
    requires GoodDisk(g, d) && OnDisk(g, d) == [] && GoodList(g, d, lh) && Names(lh, pinned)
    ensures GoodDisk(g, h) && OnDisk(g, h) == lh && Recovered(g, h) == Over(Home(g, d), pinned)
  {
    var f := Fill(g, d, lh, pinned, |lh|);
    FillGood(g, d, lh, pinned, |lh|);
    FillSlots(g, d, lh, pinned, |lh|);
    OverlayIsCurrent(g, f, lh, pinned);
    CommitPoint(g, f, lh);
    WithHeader(g, f, lh)
  }

  /** Atomic commit: every crash before the header write reboots into the old file
      system, every crash from it on reboots into the new one, and the last disk holds
      the new one at its home blocks with the log erased. */
  lemma CommitIsAtomic(g: Region, d: Disk, lh: seq<nat>, pinned: Buffers)
    requires GoodDisk(g, d) && OnDisk(g, d) == [] && GoodList(g, d, lh) && Names(lh, pinned)
    ensures Reboots(g, FillTrace(g, d, lh, pinned, |lh|), Home(g, d))
    ensures var h := Committed(g, d, lh, pinned); var e := RecoveryEnd(g, h);
            && Reboots(g, [h] + RecoveryTrace(g, h), Over(Home(g, d), pinned))
            && GoodDisk(g, e) && OnDisk(g, e) == [] && Home(g, e) == Over(Home(g, d), pinned)
  {
    var h := Committed(g, d, lh, pinned);
    FillReboots(g, d, lh, pinned, |lh|);
    RecoveryReboots(g, h);
    RebootsConcat(g, [h], RecoveryTrace(g, h), Over(Home(g, d), pinned));
  }

  lemma OverNothing(d: Disk)
    ensures Over(d, map[]) == d
  {
  }

  datatype LogResult = Logged | TooBigTransaction | OutsideTransaction

  /** struct log, with the disk and the buffers that log_write pinned. */
  class Log {
    const g: Region
    var disk: Disk
    var pinned: Buffers
    var n: nat
    var block: array<nat>
    var outstanding: nat
    /** The disk after each block write so far. */
    ghost var trace: seq<Disk>

    ghost predicate Shape()
      reads this, block
    {
      block.Length == LOGSIZE && n <= LOGSIZE && HasRegion(g, disk) && GoodList(g, disk, Lh())
    }

    ghost predicate Valid()
      reads this, block
    {
      Shape() && GoodDisk(g, disk) && OnDisk(g, disk) == [] && Names(Lh(), pinned)
    }

    function Lh(): seq<nat>
      reads this, block
      requires n <= block.Length
    {
      block[..n]
    }

    /** What file-system code reads: pinned buffers over the home blocks. */
    ghost function Current(): Disk
      reads this
    {
      Over(Home(g, disk), pinned)
    }

    method Bwrite(b: nat, v: Block)
      requires b < |disk|
      modifies this`disk, this`trace
      ensures disk == old(disk)[b := v] && trace == old(trace) + [disk]
    {
      disk := disk[b := v];
      trace := trace + [disk];
    }

    method WriteLog()
      requires Shape() && Names(Lh(), pinned)
      modifies this`disk, this`trace
      ensures disk == Fill(g, old(disk), Lh(), pinned, n)
      ensures trace == old(trace) + FillTrace(g, old(disk), Lh(), pinned, n)
    {
      hide NoDup;
      ghost var lh, d := Lh(), disk;
      for tail := 0 to n
        invariant disk == Fill(g, d, lh, pinned, tail)
        invariant trace == old(trace) + FillTrace(g, d, lh, pinned, tail)
      {
        Bwrite(Slot(g, tail), pinned[block[tail]]);
      }
    }

    method WriteHead()
      requires Shape()
      modifies this`disk, this`trace
      ensures disk == WithHeader(g, old(disk), Lh()) && trace == old(trace) + [disk]
    {
      var hb := PutWord(disk[g.start], 0, n);
      for i := 0 to n
        invariant hb == PutWords(PutWord(disk[g.start], 0, n), 1, Lh(), i)
      {
        hb := PutWord(hb, i + 1, block[i]);
      }
      Bwrite(g.start, hb);
    }

    method InstallTrans(recovering: bool)
      requires Shape()
      modifies this`disk, this`pinned, this`trace
      ensures disk == Install(g, old(disk), Lh(), n)
      ensures trace == old(trace) + InstallTrace(g, old(disk), Lh(), n)
      ensures pinned == if recovering then old(pinned) else Unpin(old(pinned), Lh(), n)
    {
      ghost var lh, d := Lh(), disk;
      for tail := 0 to n
        invariant disk == Install(g, d, lh, tail)
        invariant trace == old(trace) + InstallTrace(g, d, lh, tail)
        invariant pinned == if recovering then old(pinned) else Unpin(old(pinned), lh, tail)
      {
        Bwrite(block[tail], disk[Slot(g, tail)]);
        if !recovering {
          pinned := pinned - {block[tail]};
        }
      }
    }

    method Commit()
      requires Valid()
      modifies this`disk, this`pinned, this`n, this`trace
      ensures Valid() && n == 0 && pinned == map[]
      ensures old(n) == 0 ==> trace == old(trace)
      ensures old(n) > 0 ==>
        var h := Committed(g, old(disk), old(Lh()), old(pinned));
        trace == old(trace) + FillTrace(g, old(disk), old(Lh()), old(pinned), old(n)) + [h] + RecoveryTrace(g, h)
      ensures Home(g, disk) == old(Current())
    {
      hide NoDup, Overlay, Recovered, PutHeader, Header, Fill, FillTrace, Install, InstallTrace, Reboots, Home, Over;
      if n > 0 {
        ghost var lh, d := Lh(), disk;
        ghost var h := Committed(g, d, lh, pinned);
        assert HasRegion(g, Fill(g, d, lh, pinned, n)) && GoodList(g, Fill(g, d, lh, pinned, n), lh) by {
          FillGood(g, d, lh, pinned, n);
        }
        assert GoodDisk(g, Install(g, h, lh, n)) by { InstallGood(g, h, lh, n); }
        WriteLog();
        WriteHead();
        assert disk == h;
        ghost var t := trace;
        InstallTrans(false);
        UnpinAll(old(pinned), lh);
        n := 0;
        assert Lh() == [];
        WriteHead();
        assert disk == RecoveryEnd(g, h);
        assert trace == t + RecoveryTrace(g, h);
        CommitIsAtomic(g, d, lh, old(pinned));
      } else {
        assert Lh() == [] && pinned == map[];
        OverNothing(Home(g, disk));
      }
    }

    method ReadHead()
      requires block.Length == LOGSIZE && GoodDisk(g, disk)
      modifies this`n, block
      ensures Shape() && Lh() == OnDisk(g, disk)
    {
      n := HeaderCount(disk[g.start]);
      for i := 0 to n
        invariant n == |OnDisk(g, disk)|
        invariant block[..i] == OnDisk(g, disk)[..i]
      {
        block[i] := Word(disk[g.start], 1 + i);
        assert block[..i + 1] == block[..i] + [block[i]];
      }
    }

    method RecoverFromLog()
      requires block.Length == LOGSIZE && GoodDisk(g, disk) && pinned == map[]
      modifies this`disk, this`pinned, this`n, this`trace, block
      ensures Valid() && n == 0 && pinned == map[]
      ensures trace == old(trace) + RecoveryTrace(g, old(disk))
      ensures Home(g, disk) == Recovered(g, old(disk))
    {
      hide NoDup, Overlay, Recovered, Home, PutHeader, Header, Install, InstallTrace, Reboots;
      ghost var d := disk;
      ghost var lh := OnDisk(g, d);
      assert GoodDisk(g, Install(g, d, lh, |lh|)) by { InstallGood(g, d, lh, |lh|); }
      RecoveryReboots(g, d);
      ReadHead();
      InstallTrans(true);
      n := 0;
      assert Lh() == [];
      WriteHead();
      assert disk == RecoveryEnd(g, d);
    }

    /** log_write of block b with new contents v: pins it, absorbing a block that is
        already logged. */
    method LogWrite(b: nat, v: Block) returns (r: LogResult)
      requires Valid() && b < |disk| && !InLog(g, b)
      modifies this`pinned, this`n, block
      ensures Valid()
      ensures r == (if old(n) >= LOGSIZE || old(n) >= g.size - 1 then TooBigTransaction
                    else if outstanding < 1 then OutsideTransaction else Logged)
      ensures r.Logged? ==> Current() == old(Current())[b := v]
      ensures r.Logged? ==> Lh() == if b in old(Lh()) then old(Lh()) else old(Lh()) + [b]
      ensures !r.Logged? ==> pinned == old(pinned) && Lh() == old(Lh())
    {
      if n >= LOGSIZE || n >= g.size - 1 { return TooBigTransaction; }
      if outstanding < 1 { return OutsideTransaction; }
      var i := 0;
      while i < n && block[i] != b
        invariant i <= n && b !in block[..i]
      {
        assert block[..i + 1] == block[..i] + [block[i]];
        i := i + 1;
      }
      ghost var lh := Lh();
      block[i] := b;
      if i == n {
        n := n + 1;
        assert Lh() == lh + [b];
      } else {
        assert Lh() == lh;
      }
      assert Over(Home(g, disk), pinned[b := v]) == Current()[b := v];
      pinned := pinned[b := v];
      r := Logged;
    }
  }
}
