/** A log that fills up: thirty blocks logged through the cache leave no buffer for the commit. */
module LogFull {
  import opened Blocks
  import opened LogDisk
  import opened BufferRing
  import opened Bcache
  import opened LogPins
  import opened LogCache

  const DEV: nat := 1
  const SIZE: nat := 100
  const FIRST: nat := 40
  const REGION: Region := Region(2, LOGSIZE + 1)

  /** The home blocks FIRST.. that have been logged. */
  function Logged(n: nat): seq<nat> { seq(n, i => FIRST + i) }

  function Blank(): map<Key, Block> { map b | 0 <= b < SIZE :: (DEV, b) := ZeroBlock() }

  lemma BlankIsGood(d: Disk)
    requires |d| == SIZE && forall b :: 0 <= b < SIZE ==> d[b] == ZeroBlock()
    ensures GoodDisk(REGION, d) && OnDisk(REGION, d) == []
  {
    assert HeaderCount(d[REGION.start]) == 0;
  }

  /** One bread, log_write and brelse. */
  method LogOne(log: CachedLog, b: nat, v: Block)
    requires log.Valid() && Idle(log.cache) && log.n < NBUF && log.n < log.g.size - 1
    requires b < log.size && !InLog(log.g, b) && b !in log.Lh()
    modifies log`n, log.block, log.cache, log.cache.buf
    ensures log.Valid() && Idle(log.cache) && log.Lh() == old(log.Lh()) + [b]
  {
    hide Ring, CacheOk, NoDup, Header, PinsAre, Pinned;
    PinCount(log.g, log.D(), log.cache.logged, log.dev, log.Lh());
    hide GoodList;
    var x := ReadOne(log.cache, (log.dev, b));
    var r := log.LogWrite(x.value, v, 1);
    Release(log, x.value);
  }

  method Release(log: CachedLog, x: nat)
    requires log.Valid() && x < NBUF && |log.cache.holds| == NBUF && log.cache.holds[x] == 1
    requires forall i :: 0 <= i < NBUF && i != x ==> log.cache.holds[i] == 0
    modifies log.cache`holds, log.cache`order, log.cache.buf
    ensures log.Valid() && Idle(log.cache)
  {
    hide Ring, CacheOk, NoDup, Header, PinsAre, GoodList;
    log.cache.Brelse(x);
  }

  method Fresh() returns (log: CachedLog)
    ensures log.Valid() && Idle(log.cache) && log.n == 0 && log.g == REGION && log.size == SIZE
    ensures fresh(log) && fresh(log.block) && fresh(log.cache) && fresh(log.cache.buf)
  {
    var cache := new Cache(Blank());
    log := new CachedLog(REGION, DEV, SIZE, cache);
    hide Ring, CacheOk, NoDup;
    BlankIsGood(log.D());
    assert log.Lh() == [];
  }

  lemma LoggedMore(n: nat)
    ensures |Logged(n)| == n && FIRST + n !in Logged(n) && Logged(n + 1) == Logged(n) + [FIRST + n]
  {
  }

  /** Three operations' worth of blocks, and the commit panics in bget. */
  method FillAndCommit() returns (ok: bool)
    ensures !ok
  {
    hide Ring, CacheOk, NoDup, Header, PinsAre, Pinned, GoodList, Logged;
    var log := Fresh();
    assert log.Lh() == Logged(0) by { LoggedNone(log.Lh()); }
    for i := 0 to LOGSIZE
      invariant log.Valid() && Idle(log.cache) && log.Lh() == Logged(i)
      invariant fresh(log.cache) && fresh(log.cache.buf) && fresh(log) && fresh(log.block)
    {
      LoggedMore(i);
      LogOne(log, FIRST + i, ZeroBlock());
    }
    LoggedMore(LOGSIZE);
    ok := log.Commit();
  }

  lemma LoggedNone(lh: seq<nat>)
    requires lh == []
    ensures lh == Logged(0)
  {
  }
}
