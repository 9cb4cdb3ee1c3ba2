/** The log code of kernel/log.c over the buffer cache: every block it reads or writes
    goes through bread, bwrite, bunpin and brelse. A method that returns ok == false has
    met the panic "bget: no buffers". */
module LogCache {
  import opened Wrappers
  import opened Blocks
  import opened LogDisk
  import Log
  import opened BufferRing
  import opened Bcache
  import opened LogPins

  /** Buffer i is held, is for block k and has its newest contents. */
  ghost predicate Has(c: Cache, i: nat, k: Key)
    reads c, c.buf
  {
    && c.Valid() && i < NBUF && c.holds[i] > 0 && k.0 != 0 && Caches(c.buf[i], k) && c.buf[i].valid
    && k in c.disk && k in c.newest && c.buf[i].data == c.newest[k]
  }

  ghost predicate Idle(c: Cache)
    reads c
  {
    forall i :: 0 <= i < |c.holds| ==> c.holds[i] == 0
  }

  /** Two breads in a row. */
  method ReadBoth(c: Cache, j: Key, k: Key) returns (x: Option<nat>, y: Option<nat>)
    requires c.Valid() && j.0 != 0 && k.0 != 0 && j != k && j in c.disk && k in c.disk
    modifies c.buf, c`holds
    ensures c.Valid() && |old(c.holds)| == NBUF
    ensures y.Some? ==> x.Some? && Has(c, x.value, j) && Has(c, y.value, k) && x != y
    ensures y.Some? ==> c.holds == Held(Held(old(c.holds), x.value), y.value)
    ensures |c.logged| >= NBUF && j !in c.logged ==> y.None?
    ensures old(Idle(c)) && |c.logged| + (if k in c.logged then 0 else 1) < NBUF ==> y.Some?
  {
    hide Ring, CacheOk;
    y := None;
    ReadFits(c.buf[..], c.G(), j, {});
    x := c.Bread(j);
    if x.Some? {
      HeldCounted(c.buf[..], c.G(), x.value);
      ReadFits(c.buf[..], c.G(), k, {x.value});
      y := c.Bread(k);
    }
  }

  method ReadOne(c: Cache, k: Key) returns (x: Option<nat>)
    requires c.Valid() && k.0 != 0 && k in c.disk
    modifies c.buf, c`holds
    ensures c.Valid() && |old(c.holds)| == NBUF
    ensures x.Some? ==> Has(c, x.value, k) && c.holds == Held(old(c.holds), x.value)
    ensures old(Idle(c)) && |c.logged| < NBUF ==> x.Some?
  {
    hide Ring, CacheOk;
    ReadFits(c.buf[..], c.G(), k, {});
    x := c.Bread(k);
  }

  /** The copy of v into a held buffer, its bwrite and its brelse. */
  method WriteOne(c: Cache, x: nat, k: Key, v: Block, ghost holds: seq<nat>)
    requires Has(c, x, k) && |holds| == NBUF && c.holds == Held(holds, x)
    modifies c.buf, c`holds, c`order, c`disk, c`newest
    ensures c.Valid() && c.holds == holds && c.disk == old(c.disk)[k := v] && c.newest == old(c.newest)[k := v]
  {
    hide Ring, CacheOk;
    c.Overwrite(x, v);
    c.Brelse(x);
    assert c.holds == holds;
  }

  method ReleaseBoth(c: Cache, x: nat, y: nat, ghost holds: seq<nat>)
    requires c.Valid() && x < NBUF && y < NBUF && x != y && |holds| == NBUF
    requires c.holds == Held(Held(holds, x), y) || c.holds == Held(Held(holds, y), x)
    modifies c.buf, c`holds, c`order
    ensures c.Valid() && c.holds == holds
  {
    hide Ring, CacheOk;
    c.Brelse(x);
    c.Brelse(y);
    assert c.holds == holds;
  }

  class CachedLog {
    const g: Region
    const dev: nat
    const size: nat
    const cache: Cache
    var n: nat
    var block: array<nat>
    /** The disk after each block write so far. */
    ghost var trace: seq<Disk>

    function Lh(): seq<nat>
      reads this, block
      requires n <= block.Length
    {
      block[..n]
    }

    ghost predicate Linked()
      reads this, block, cache, cache.buf
    {
      && cache.Valid() && dev != 0 && HasDevice(cache.disk, dev, size) && cache.newest.Keys == cache.disk.Keys
      && block.Length == LOGSIZE && n <= LOGSIZE
    }

    ghost function D(): Disk
      reads this, block, cache, cache.buf
      requires Linked()
    {
      Device(cache.disk, dev, size)
    }

    /** initlog, before it recovers. */
    constructor (region: Region, device: nat, blocks: nat, c: Cache)
      requires c.Valid() && device != 0 && HasDevice(c.disk, device, blocks)
      ensures Linked() && n == 0 && g == region && dev == device && size == blocks && cache == c
      ensures fresh(block) && trace == []
    {
      g, dev, size, cache := region, device, blocks, c;
      n, block, trace := 0, new nat[LOGSIZE], [];
      new;
      HoldsLength(c.buf[..], c.G());
    }

    /** A turn of write_log's loop: block src copied through the cache into log block dst. */
    method CopyToLog(dst: nat, src: nat) returns (ok: bool)
      requires Linked() && src < size && dst < size && src != dst
      modifies cache, cache.buf, this`trace
      ensures Linked() && cache.logged == old(cache.logged)
      ensures ok ==> cache.holds == old(cache.holds) && trace == old(trace) + [D()]
      ensures ok ==> cache.disk == old(cache.disk)[(dev, dst) := old(cache.newest)[(dev, src)]]
      ensures ok ==> cache.newest == old(cache.newest)[(dev, dst) := old(cache.newest)[(dev, src)]]
      ensures (dev, dst) !in cache.logged && |cache.logged| >= NBUF ==> !ok
      ensures (dev, src) in cache.logged && old(Idle(cache)) && |cache.logged| < NBUF ==> ok
    {
      hide Ring, CacheOk;
      var to, from := ReadBoth(cache, (dev, dst), (dev, src));
      if from.None? { return false; }
      DevicePut(cache.disk, dev, size, dst, cache.buf[from.value].data);
      cache.Overwrite(to.value, cache.buf[from.value].data);
      trace := trace + [D()];
      ReleaseBoth(cache, from.value, to.value, old(cache.holds));
      ok := true;
    }

    /** A turn of install_trans's loop: log block src copied home to dst, and its pin dropped. */
    method CopyHome(src: nat, dst: nat, recovering: bool) returns (ok: bool)
      requires Linked() && src < size && dst < size && src != dst
      requires !recovering ==> (dev, dst) in cache.logged
      modifies cache, cache.buf, this`trace
      ensures Linked()
      ensures ok ==> cache.holds == old(cache.holds) && trace == old(trace) + [D()]
      ensures ok ==> cache.disk == old(cache.disk)[(dev, dst) := old(cache.newest)[(dev, src)]]
      ensures ok ==> cache.newest == old(cache.newest)[(dev, dst) := old(cache.newest)[(dev, src)]]
      ensures ok ==> cache.logged == if recovering then old(cache.logged) else old(cache.logged) - {(dev, dst)}
      ensures old(Idle(cache)) && |old(cache.logged)| + (if recovering then 1 else 0) < NBUF ==> ok
    {
      hide Ring, CacheOk;
      var from, to := ReadBoth(cache, (dev, src), (dev, dst));
      if to.None? { return false; }
      DevicePut(cache.disk, dev, size, dst, cache.buf[from.value].data);
      cache.Overwrite(to.value, cache.buf[from.value].data);
      trace := trace + [D()];
      if !recovering { cache.Bunpin(to.value); }
      ReleaseBoth(cache, from.value, to.value, old(cache.holds));
      ok := true;
    }

    /** What begin_op, log_write and commit keep: the header lists the pinned blocks. */
    ghost predicate Logging()
      reads this, block, cache, cache.buf
    {
      Linked() && HasRegion(g, D()) && GoodList(g, D(), Lh()) && PinsAre(cache.logged, dev, Lh())
    }

    ghost function P(): Buffers
      reads this, block, cache, cache.buf
      requires Logging()
    {
      Pinned(cache.newest, dev, Lh())
    }

    /** Turn `tail` of write_log's loop. */
    method FillSlot(tail: nat, ghost d: Disk, ghost p: Buffers) returns (ok: bool)
      requires Linked() && tail < n && Filling(g, dev, size, cache.disk, cache.newest, Lh(), d, p, tail)
      requires PinsAre(cache.logged, dev, Lh())
      modifies cache, cache.buf, this`trace
      ensures Linked() && cache.logged == old(cache.logged)
      ensures ok ==>
                Filling(g, dev, size, cache.disk, cache.newest, Lh(), d, p, tail + 1) && cache.holds == old(cache.holds)
      ensures ok ==> trace == old(trace) + [D()]
      ensures |cache.logged| >= NBUF ==> !ok
      ensures old(Idle(cache)) && |cache.logged| < NBUF ==> ok
    {
      hide Ring, CacheOk, NoDup, Filling;
      FillingMore(g, dev, size, cache.disk, cache.newest, Lh(), d, p, tail);
      ok := CopyToLog(Slot(g, tail), block[tail]);
    }

    /** Every logged block into its log slot, in order. */
    method WriteLog() returns (ok: bool)
      requires Logging()
      modifies cache, cache.buf, this`trace
      ensures Linked() && cache.logged == old(cache.logged)
      ensures ok ==> Logging() && cache.holds == old(cache.holds) && P() == old(P())
      ensures ok ==> D() == Log.Fill(g, old(D()), Lh(), old(P()), n)
      ensures ok ==> trace == old(trace) + Log.FillTrace(g, old(D()), Lh(), old(P()), n)
      ensures old(Idle(cache)) && n > 0 ==> (ok <==> n < NBUF)
    {
      hide Ring, CacheOk, NoDup, Pinned, Filling, Log.Fill, GoodList, PinsAre, NewestAre;
      ghost var lh, d, p := Lh(), D(), P();
      PinCount(g, d, cache.logged, dev, lh);
      FillingNone(g, dev, size, cache.disk, cache.newest, lh);
      for tail := 0 to n
        invariant Linked() && cache.logged == old(cache.logged) && cache.holds == old(cache.holds)
        invariant Filling(g, dev, size, cache.disk, cache.newest, lh, d, p, tail)
        invariant FillRange(g, d, lh, p) && trace == old(trace) + Log.FillTrace(g, d, lh, p, tail)
        invariant old(Idle(cache)) && tail > 0 ==> n < NBUF
      {
        ok := FillSlot(tail, d, p);
        if !ok { return; }
        FillingIs(g, dev, size, cache.disk, cache.newest, lh, d, p, tail + 1);
      }
      ok := true;
      FillingDone(g, dev, size, cache.disk, cache.newest, lh, d, p);
    }

    /** The stores of write_head into the header block h. */
    method HeaderBlock(h: Block) returns (hb: Block)
      requires n <= LOGSIZE == block.Length && Fits(Lh())
      ensures hb == PutHeader(h, Lh())
    {
      hide PutWord;
      hb := PutWord(h, 0, n);
      for i := 0 to n
        invariant hb == PutWords(PutWord(h, 0, n), 1, Lh(), i)
      {
        hb := PutWord(hb, i + 1, block[i]);
      }
    }

    method WriteHead() returns (ok: bool)
      requires Linked() && HasRegion(g, D()) && GoodList(g, D(), Lh()) && (dev, g.start) !in cache.logged
      modifies cache, cache.buf, this`trace
      ensures Linked() && cache.logged == old(cache.logged)
      ensures ok ==> cache.holds == old(cache.holds) && trace == old(trace) + [D()]
      ensures ok ==> D() == Log.WithHeader(g, old(D()), Lh())
      ensures ok ==> cache.newest == old(cache.newest)[(dev, g.start) := D()[g.start]]
      ensures old(Idle(cache)) && |cache.logged| < NBUF ==> ok
    {
      hide Ring, CacheOk, NoDup, PutHeader, BufOk;
      NotLogged(cache.buf[..], cache.G(), (dev, g.start));
      var b := ReadOne(cache, (dev, g.start));
      if b.None? { return false; }
      var hb := HeaderBlock(cache.buf[b.value].data);
      DevicePut(cache.disk, dev, size, g.start, hb);
      WriteOne(cache, b.value, (dev, g.start), hb, old(cache.holds));
      trace := trace + [D()];
      ok := true;
    }

    /** Turn `tail` of install_trans's loop. */
    method InstallSlot(tail: nat, recovering: bool, ghost d: Disk) returns (ok: bool)
      requires Linked() && tail < n && Installing(g, dev, size, cache.disk, cache.logged, Lh(), d, recovering, tail)
      modifies cache, cache.buf, this`trace
      ensures Linked()
      ensures ok ==> Installing(g, dev, size, cache.disk, cache.logged, Lh(), d, recovering, tail + 1)
      ensures ok ==> cache.holds == old(cache.holds) && trace == old(trace) + [D()]
      ensures old(Idle(cache)) && (recovering || n < NBUF) ==> ok
    {
      hide Ring, CacheOk, NoDup, Installing;
      InstallingMore(g, dev, size, cache.disk, cache.logged, Lh(), d, recovering, tail);
      NotLogged(cache.buf[..], cache.G(), (dev, Slot(g, tail)));
      ok := CopyHome(Slot(g, tail), block[tail], recovering);
    }

    /** Every log slot to its home block; a commit drops the pins as it goes. */
    method InstallTrans(recovering: bool) returns (ok: bool)
      requires Linked() && HasRegion(g, D()) && GoodList(g, D(), Lh())
      requires if recovering then cache.logged == map[] else PinsAre(cache.logged, dev, Lh())
      modifies cache, cache.buf, this`trace
      ensures Linked()
      ensures ok ==> cache.logged == map[] && cache.holds == old(cache.holds)
      ensures ok ==> D() == Log.Install(g, old(D()), Lh(), n)
      ensures ok ==> trace == old(trace) + Log.InstallTrace(g, old(D()), Lh(), n)
      ensures old(Idle(cache)) && (recovering || n < NBUF) ==> ok
    {
      hide Ring, CacheOk, NoDup, Installing, Log.Install, GoodList, PinsAre;
      ghost var lh, d := Lh(), D();
      InstallingNone(g, dev, size, cache.disk, cache.logged, lh, recovering);
      for tail := 0 to n
        invariant Linked() && cache.holds == old(cache.holds)
        invariant Installing(g, dev, size, cache.disk, cache.logged, lh, d, recovering, tail)
        invariant trace == old(trace) + Log.InstallTrace(g, d, lh, tail)
      {
        ok := InstallSlot(tail, recovering, d);
        if !ok { return; }
        InstallingIs(g, dev, size, cache.disk, cache.logged, lh, d, recovering, tail + 1);
      }
      ok := true;
      InstallingIs(g, dev, size, cache.disk, cache.logged, lh, d, recovering, n);
    }

    /** Between operations: what is pinned is in the header, and the log on disk is empty. */
    ghost predicate Valid()
      reads this, block, cache, cache.buf
    {
      Logging() && GoodDisk(g, D()) && OnDisk(g, D()) == []
    }

    /** The first half of commit: write_log and write_head. */
    method Publish() returns (ok: bool)
      requires Valid() && n > 0
      modifies cache, cache.buf, this`trace
      ensures Linked() && cache.logged == old(cache.logged)
      ensures ok ==> cache.holds == old(cache.holds) && D() == Log.Committed(g, old(D()), Lh(), old(P()))
      ensures ok ==> trace == old(trace) + Log.FillTrace(g, old(D()), Lh(), old(P()), n) + [D()]
      ensures old(Idle(cache)) ==> (ok <==> n < NBUF)
    {
      hide Ring, CacheOk, NoDup, Pinned, PutHeader, Header, Log.Fill, Log.FillTrace, Recovered;
      PinCount(g, D(), cache.logged, dev, Lh());
      HeaderFree(g, D(), cache.logged, dev, Lh());
      ok := WriteLog();
      if ok { ok := WriteHead(); }
    }

    /** The second half of commit, and of recovery: install_trans, and write_head with n = 0. */
    method InstallAndClear(recovering: bool) returns (ok: bool)
      requires Linked() && GoodDisk(g, D()) && OnDisk(g, D()) == Lh()
      requires if recovering then cache.logged == map[] else PinsAre(cache.logged, dev, Lh())
      modifies cache, cache.buf, this`n, this`trace
      ensures Linked()
      ensures ok ==> Valid() && n == 0 && cache.logged == map[] && cache.holds == old(cache.holds)
      ensures ok ==> D() == Log.RecoveryEnd(g, old(D())) && trace == old(trace) + Log.RecoveryTrace(g, old(D()))
      ensures old(Idle(cache)) && (recovering || old(n) < NBUF) ==> ok
    {
      hide Ring, CacheOk, NoDup, PutHeader, Header, Log.Install, Log.InstallTrace, Recovered, PinsAre, Log.Reboots;
      ghost var d, lh := D(), Lh();
      Log.InstallGood(g, d, lh, |lh|);
      Log.RecoveryReboots(g, d);
      ok := InstallTrans(recovering);
      if !ok { return; }
      n := 0;
      assert Lh() == [];
      EmptyList(g, D(), dev);
      ok := WriteHead();
      if ok { EmptyList(g, D(), dev); }
    }

    /** Goes through the disks of Log.Commit, and leaves every block with its newest contents
        at home and nothing pinned. Started with no buffer held, it runs out of buffers
        exactly when the log pins all of them. */
    method Commit() returns (ok: bool)
      requires Valid()
      modifies cache, cache.buf, this`n, this`trace
      ensures Linked()
      ensures ok ==> Valid() && n == 0 && cache.logged == map[] && cache.holds == old(cache.holds)
      ensures ok && old(n) == 0 ==> trace == old(trace)
      ensures ok && old(n) > 0 ==>
        var h := Log.Committed(g, old(D()), old(Lh()), old(P()));
        trace == old(trace) + Log.FillTrace(g, old(D()), old(Lh()), old(P()), old(n)) + [h] + Log.RecoveryTrace(g, h)
      ensures ok ==> Home(g, D()) == Over(Home(g, old(D())), old(P()))
      ensures ok ==> forall b :: 0 <= b < size && !InLog(g, b) ==>
                ((dev, b) in old(cache.newest) && D()[b] == cache.newest[(dev, b)] == old(cache.newest)[(dev, b)])
      ensures old(Idle(cache)) || old(n) == 0 ==> (ok <==> old(n) < NBUF)
    {
      hide Ring, CacheOk, NoDup, Pinned, Recovered, PutHeader, Header, Log.Fill, Log.FillTrace, Log.Reboots, Home, Over;
      hide Log.RecoveryTrace;
      ghost var d, lh, p, newest := D(), Lh(), P(), cache.newest;
      NewestNow(cache.buf[..], cache.G(), g, dev, size, lh);
      ok := true;
      if n > 0 {
        Log.CommitIsAtomic(g, d, lh, p);
        ok := Publish();
        if !ok { return; }
        ok := InstallAndClear(false);
        if !ok { return; }
      } else {
        NothingPinned(cache.logged, dev, d, p);
      }
      NewestHome(cache.buf[..], cache.G(), g, dev, size, newest, d, p);
    }

    method ReadHead() returns (ok: bool)
      requires Linked() && GoodDisk(g, D()) && cache.logged == map[]
      modifies cache, cache.buf, this`n, block
      ensures Linked() && cache.logged == map[] && D() == old(D())
      ensures ok ==> Lh() == OnDisk(g, D()) && cache.holds == old(cache.holds)
      ensures old(Idle(cache)) ==> ok
    {
      hide Ring, CacheOk, NoDup, BufOk;
      NotLogged(cache.buf[..], cache.G(), (dev, g.start));
      var b := ReadOne(cache, (dev, g.start));
      if b.None? { return false; }
      CopyHeader(cache.buf[b.value].data);
      cache.Brelse(b.value);
      assert cache.holds == old(cache.holds);
      ok := true;
    }

    /** read_head's stores into log.lh. */
    method CopyHeader(h: Block)
      requires block.Length == LOGSIZE && HeaderCount(h) <= LOGSIZE
      modifies this`n, block
      ensures n <= LOGSIZE && Lh() == Header(h)
    {
      n := HeaderCount(h);
      for i := 0 to n
        invariant n == |Header(h)| && block[..i] == Header(h)[..i]
      {
        block[i] := Word(h, 1 + i);
        assert block[..i + 1] == block[..i] + [block[i]];
      }
    }

    /** Recovery installs what the disk stood for, going through the disks of
        Log.RecoverFromLog. */
    method RecoverFromLog() returns (ok: bool)
      requires Linked() && GoodDisk(g, D()) && cache.logged == map[]
      modifies cache, cache.buf, this`n, this`trace, block
      ensures Linked()
      ensures ok ==> Valid() && n == 0 && cache.logged == map[] && cache.holds == old(cache.holds)
      ensures ok ==> trace == old(trace) + Log.RecoveryTrace(g, old(D())) && Home(g, D()) == Recovered(g, old(D()))
      ensures old(Idle(cache)) ==> ok
    {
      hide Ring, CacheOk, NoDup, Recovered, Header, Log.RecoveryTrace, Home, Log.Reboots;
      Log.RecoveryReboots(g, D());
      ok := ReadHead();
      if ok { ok := InstallAndClear(true); }
    }

    /** log_write on a held buffer whose block gets contents v: records and pins it, or
        absorbs it if it is recorded. */
    method LogWrite(i: nat, v: Block, outstanding: nat) returns (r: Log.LogResult)
      requires Valid() && i < NBUF && cache.holds[i] > 0 && cache.buf[i].dev == dev && cache.buf[i].valid
      requires cache.buf[i].blockno < size && !InLog(g, cache.buf[i].blockno)
      modifies cache, cache.buf, this`n, block
      ensures Valid() && cache.holds == old(cache.holds) && cache.disk == old(cache.disk)
      ensures r == (if old(n) >= LOGSIZE || old(n) >= g.size - 1 then Log.TooBigTransaction
                    else if outstanding < 1 then Log.OutsideTransaction else Log.Logged)
      ensures !r.Logged? ==> cache.newest == old(cache.newest) && Lh() == old(Lh())
      ensures r.Logged? ==>
                var b := old(cache.buf[i]).blockno;
                && cache.newest == old(cache.newest)[(dev, b) := v] && P() == old(P())[b := v]
                && Lh() == Recorded(old(Lh()), b)
    {
      hide Ring, CacheOk, NoDup, Header, BufOk, PinsAre, Pinned;
      if n >= LOGSIZE || n >= g.size - 1 { return Log.TooBigTransaction; }
      if outstanding < 1 { return Log.OutsideTransaction; }
      ghost var lh, logged, newest := Lh(), cache.logged, cache.newest;
      var b := cache.buf[i].blockno;
      Record(b);
      cache.LogWrite(i, v);
      RecordedList(g, D(), lh, b);
      RecordedPins(logged, dev, lh, b, i);
      RecordedNewest(newest, dev, lh, b, v);
      r := Log.Logged;
    }

    /** log_write's search of the header, and the store into it. */
    method Record(b: nat)
      requires block.Length == LOGSIZE && n < LOGSIZE
      modifies this`n, block
      ensures n <= LOGSIZE && Lh() == Recorded(old(Lh()), b)
    {
      var i := 0;
      while i < n && block[i] != b
        invariant i <= n && b !in block[..i]
      {
        assert block[..i + 1] == block[..i] + [block[i]];
        i := i + 1;
      }
      ghost var lh := Lh();
      block[i] := b;
      if i == n {
        n := n + 1;
        assert Lh() == lh + [b];
      } else {
        assert Lh() == lh;
      }
    }
  }
}
