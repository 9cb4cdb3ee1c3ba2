/** The buffer cache and the log header seen together: the blocks the log lists are the
    ones pinned in the cache, and what the loops of kernel/log.c make of the disk. */
module LogPins {
  import opened Wrappers
  import opened Blocks
  import opened LogDisk
  import Log
  import opened BufferRing
  import opened Bcache

  /** Blocks 0..size of device dev. */
  ghost predicate HasDevice(m: map<Key, Block>, dev: nat, size: nat) { forall b: nat :: b < size ==> (dev, b) in m }

  ghost function Device(m: map<Key, Block>, dev: nat, size: nat): (d: Disk)
    requires HasDevice(m, dev, size)
    ensures |d| == size && forall b :: 0 <= b < size ==> d[b] == m[(dev, b)]
  {
    seq(size, b requires 0 <= b < size => m[(dev, b)])
  }

  lemma DevicePut(m: map<Key, Block>, dev: nat, size: nat, b: nat, v: Block)
    requires HasDevice(m, dev, size) && b < size
    ensures HasDevice(m[(dev, b) := v], dev, size)
    ensures Device(m[(dev, b) := v], dev, size) == Device(m, dev, size)[b := v]
  {
  }

  /** The blocks of lh, with their newest contents. */
  ghost function Pinned(newest: map<Key, Block>, dev: nat, lh: seq<nat>): (r: Buffers)
    requires forall i :: 0 <= i < |lh| ==> (dev, lh[i]) in newest
    ensures Log.Names(lh, r) && forall i :: 0 <= i < |lh| ==> r[lh[i]] == newest[(dev, lh[i])]
  {
    map b | b in lh :: newest[(dev, b)]
  }

  /** The pins in the cache are those of the blocks in the log header. */
  ghost predicate PinsAre(logged: map<Key, nat>, dev: nat, lh: seq<nat>) {
    && (forall i :: 0 <= i < |lh| ==> (dev, lh[i]) in logged)
    && (forall k :: k in logged ==> k.0 == dev && k.1 in lh)
  }

  /** The newest contents of the blocks of lh are those in p. */
  ghost predicate NewestAre(newest: map<Key, Block>, dev: nat, lh: seq<nat>, p: Buffers) {
    Log.Names(lh, p) && forall i :: 0 <= i < |lh| ==> (dev, lh[i]) in newest && newest[(dev, lh[i])] == p[lh[i]]
  }

  /** write_log after `tail` turns, from disk d. */
  ghost predicate Filling(g: Region, dev: nat, size: nat, disk: map<Key, Block>, newest: map<Key, Block>, lh: seq<nat>,
                          d: Disk, p: Buffers, tail: nat)
  {
    && HasDevice(disk, dev, size) && |d| == size && HasRegion(g, d) && GoodList(g, d, lh) && tail <= |lh|
    && NewestAre(newest, dev, lh, p) && Device(disk, dev, size) == Log.Fill(g, d, lh, p, tail)
  }

  lemma FillingNone(g: Region, dev: nat, size: nat, disk: map<Key, Block>, newest: map<Key, Block>, lh: seq<nat>)
    requires HasDevice(disk, dev, size) && newest.Keys == disk.Keys
    requires HasRegion(g, Device(disk, dev, size)) && GoodList(g, Device(disk, dev, size), lh)
    ensures forall i :: 0 <= i < |lh| ==> (dev, lh[i]) in newest
    ensures var d, p := Device(disk, dev, size), Pinned(newest, dev, lh);
            Filling(g, dev, size, disk, newest, lh, d, p, 0) && FillRange(g, d, lh, p)
  {
  }

  lemma FillingMore(g: Region, dev: nat, size: nat, disk: map<Key, Block>, newest: map<Key, Block>, lh: seq<nat>,
                    d: Disk, p: Buffers, tail: nat)
    requires Filling(g, dev, size, disk, newest, lh, d, p, tail) && tail < |lh|
    ensures Slot(g, tail) < size && lh[tail] < size && Slot(g, tail) != lh[tail] && (dev, lh[tail]) in newest
    ensures forall i :: 0 <= i < |lh| ==> Slot(g, tail) != lh[i]
    ensures var k, v := (dev, Slot(g, tail)), newest[(dev, lh[tail])];
            && Filling(g, dev, size, disk[k := v], newest[k := v], lh, d, p, tail + 1)
            && Device(disk[k := v], dev, size) == Log.Fill(g, d, lh, p, tail + 1)
  {
    hide NoDup;
    DevicePut(disk, dev, size, Slot(g, tail), newest[(dev, lh[tail])]);
  }

  ghost predicate FillRange(g: Region, d: Disk, lh: seq<nat>, p: Buffers) {
    |lh| < g.size && HasRegion(g, d) && Log.Names(lh, p)
  }

  lemma FillingIs(g: Region, dev: nat, size: nat, disk: map<Key, Block>, newest: map<Key, Block>, lh: seq<nat>,
                  d: Disk, p: Buffers, tail: nat)
    requires Filling(g, dev, size, disk, newest, lh, d, p, tail)
    ensures FillRange(g, d, lh, p) && tail <= |lh| && HasDevice(disk, dev, size)
    ensures Device(disk, dev, size) == Log.Fill(g, d, lh, p, tail)
  {
  }

  lemma FillingDone(g: Region, dev: nat, size: nat, disk: map<Key, Block>, newest: map<Key, Block>, lh: seq<nat>,
                    d: Disk, p: Buffers)
    requires Filling(g, dev, size, disk, newest, lh, d, p, |lh|)
    ensures HasDevice(disk, dev, size) && var e := Device(disk, dev, size);
            e == Log.Fill(g, d, lh, p, |lh|) && HasRegion(g, e) && GoodList(g, e, lh)
    ensures (forall i :: 0 <= i < |lh| ==> (dev, lh[i]) in newest) && Pinned(newest, dev, lh) == p
  {
  }

  /** install_trans after `tail` turns, from disk d; a commit has the rest still pinned. */
  ghost predicate Installing(g: Region, dev: nat, size: nat, disk: map<Key, Block>, logged: map<Key, nat>, lh: seq<nat>,
                             d: Disk, recovering: bool, tail: nat)
  {
    && HasDevice(disk, dev, size) && |d| == size && HasRegion(g, d) && GoodList(g, d, lh) && tail <= |lh|
    && Device(disk, dev, size) == Log.Install(g, d, lh, tail)
    && if recovering then logged == map[] else PinsAre(logged, dev, lh[tail..]) && |logged| == |lh| - tail
  }

  lemma InstallingNone(g: Region, dev: nat, size: nat, disk: map<Key, Block>, logged: map<Key, nat>, lh: seq<nat>,
                       recovering: bool)
    requires HasDevice(disk, dev, size)
    requires HasRegion(g, Device(disk, dev, size)) && GoodList(g, Device(disk, dev, size), lh)
    requires if recovering then logged == map[] else PinsAre(logged, dev, lh)
    ensures Installing(g, dev, size, disk, logged, lh, Device(disk, dev, size), recovering, 0)
  {
    hide NoDup;
    assert lh[0..] == lh;
    if !recovering { PinCount(g, Device(disk, dev, size), logged, dev, lh); }
  }

  lemma InstallingMore(g: Region, dev: nat, size: nat, disk: map<Key, Block>, logged: map<Key, nat>, lh: seq<nat>,
                       d: Disk, recovering: bool, tail: nat)
    requires Installing(g, dev, size, disk, logged, lh, d, recovering, tail) && tail < |lh|
    ensures Slot(g, tail) < size && lh[tail] < size && Slot(g, tail) != lh[tail] && (dev, Slot(g, tail)) !in logged
    ensures !recovering ==> (dev, lh[tail]) in logged && |logged| <= |lh|
    ensures var k, v := (dev, lh[tail]), disk[(dev, Slot(g, tail))];
            var left := if recovering then logged else logged - {k};
            Installing(g, dev, size, disk[k := v], left, lh, d, recovering, tail + 1)
  {
    var k, v := (dev, lh[tail]), disk[(dev, Slot(g, tail))];
    DevicePut(disk, dev, size, lh[tail], v);
    if !recovering {
      assert (dev, lh[tail..][0]) in logged;
      PinsDrop(logged, dev, lh, tail);
    }
  }

  lemma PinsDrop(logged: map<Key, nat>, dev: nat, lh: seq<nat>, tail: nat)
    requires tail < |lh| && NoDup(lh) && PinsAre(logged, dev, lh[tail..]) && (dev, lh[tail]) in logged
    ensures var r := logged - {(dev, lh[tail])}; PinsAre(r, dev, lh[tail + 1..]) && |r| == |logged| - 1
  {
    var r := logged - {(dev, lh[tail])};
    assert logged.Keys == r.Keys + {(dev, lh[tail])};
    var rest := lh[tail + 1..];
    forall i | 0 <= i < |rest| ensures (dev, rest[i]) in r {
      assert (dev, lh[tail..][i + 1]) in logged;
    }
    assert lh[tail..] == [lh[tail]] + lh[tail + 1..];
  }

  lemma InstallingIs(g: Region, dev: nat, size: nat, disk: map<Key, Block>, logged: map<Key, nat>, lh: seq<nat>,
                     d: Disk, recovering: bool, tail: nat)
    requires Installing(g, dev, size, disk, logged, lh, d, recovering, tail)
    ensures tail <= |lh| && HasDevice(disk, dev, size) && Device(disk, dev, size) == Log.Install(g, d, lh, tail)
    ensures tail == |lh| ==> logged == map[]
  {
  }

  lemma PinCount(g: Region, d: Disk, logged: map<Key, nat>, dev: nat, lh: seq<nat>)
    requires PinsAre(logged, dev, lh) && GoodList(g, d, lh)
    ensures |logged| == |lh|
  {
    KeyCount(dev, lh);
    assert logged.Keys == KeysOf(dev, lh);
  }

  function KeysOf(dev: nat, lh: seq<nat>): set<Key> { set i | 0 <= i < |lh| :: (dev, lh[i]) }

  lemma {:induction false} KeyCount(dev: nat, lh: seq<nat>)
    requires NoDup(lh)
    ensures |KeysOf(dev, lh)| == |lh|
  {
    if lh != [] {
      var m := |lh| - 1;
      KeyCount(dev, lh[..m]);
      assert KeysOf(dev, lh) == KeysOf(dev, lh[..m]) + {(dev, lh[m])};
    }
  }

  lemma HeldCounted(s: seq<Buf>, g: Shadow, i: nat)
    requires CacheOk(s, g) && i < NBUF && g.holds[i] > 0
    ensures s[i].refcnt > 0
  {
    assert BufOk(s[i], g.holds[i], g);
  }

  lemma NotLogged(s: seq<Buf>, g: Shadow, k: Key)
    requires CacheOk(s, g) && k in g.disk && k !in g.logged
    ensures k in g.newest && g.newest[k] == g.disk[k]
  {
    hide Unique, BufOk;
  }

  lemma HeaderFree(g: Region, d: Disk, logged: map<Key, nat>, dev: nat, lh: seq<nat>)
    requires HasRegion(g, d) && GoodList(g, d, lh) && PinsAre(logged, dev, lh)
    ensures (dev, g.start) !in logged
  {
    hide NoDup;
  }

  /** The list of the header when block b has been recorded. */
  function Recorded(lh: seq<nat>, b: nat): seq<nat> { if b in lh then lh else lh + [b] }

  lemma RecordedList(g: Region, d: Disk, lh: seq<nat>, b: nat)
    requires GoodList(g, d, lh) && |lh| < Capacity(g) && b < |d| && !InLog(g, b)
    ensures GoodList(g, d, Recorded(lh, b))
  {
  }

  lemma RecordedPins(logged: map<Key, nat>, dev: nat, lh: seq<nat>, b: nat, i: nat)
    requires PinsAre(logged, dev, lh)
    ensures PinsAre(logged[(dev, b) := i], dev, Recorded(lh, b))
  {
    var r, m := Recorded(lh, b), logged[(dev, b) := i];
    forall k | k in m ensures k.0 == dev && k.1 in r {
      if k in logged { assert k.1 in lh; } else { assert r[|r| - 1] == b || b in lh; }
    }
  }

  lemma RecordedNewest(newest: map<Key, Block>, dev: nat, lh: seq<nat>, b: nat, v: Block)
    requires forall j :: 0 <= j < |lh| ==> (dev, lh[j]) in newest
    ensures var r := Recorded(lh, b);
            && (forall j :: 0 <= j < |r| ==> (dev, r[j]) in newest[(dev, b) := v])
            && Pinned(newest[(dev, b) := v], dev, r) == Pinned(newest, dev, lh)[b := v]
  {
    var r := Recorded(lh, b);
    forall c ensures c in r <==> c in lh || c == b {
      if c in lh { var j :| 0 <= j < |lh| && lh[j] == c; assert r[j] == c; }
      if c == b && b !in lh { assert r[|lh|] == b; }
    }
  }

  lemma EmptyList(g: Region, d: Disk, dev: nat)
    requires HasRegion(g, d)
    ensures GoodList(g, d, []) && PinsAre(map[], dev, [])
  {
  }

  /** Outside the log region, reading through the cache gives the pinned blocks over the disk. */
  lemma NewestNow(s: seq<Buf>, c: Shadow, g: Region, dev: nat, size: nat, lh: seq<nat>)
    requires CacheOk(s, c) && HasDevice(c.disk, dev, size) && PinsAre(c.logged, dev, lh)
    requires forall i :: 0 <= i < |lh| ==> (dev, lh[i]) in c.newest
    ensures var r := Over(Home(g, Device(c.disk, dev, size)), Pinned(c.newest, dev, lh));
            && |r| == size
            && forall b :: 0 <= b < size && !InLog(g, b) ==> (dev, b) in c.newest && r[b] == c.newest[(dev, b)]
  {
    hide Unique, BufOk;
    forall b: nat | b < size && b !in lh ensures (dev, b) in c.newest && c.newest[(dev, b)] == c.disk[(dev, b)] {
      NotLogged(s, c, (dev, b));
    }
  }

  lemma NothingPinned(logged: map<Key, nat>, dev: nat, d: Disk, p: Buffers)
    requires PinsAre(logged, dev, []) && Log.Names([], p)
    ensures logged == map[] && p == map[] && forall g: Region :: Over(Home(g, d), p) == Home(g, d)
  {
    forall g: Region ensures Over(Home(g, d), p) == Home(g, d) { Log.OverNothing(Home(g, d)); }
  }

  /** With nothing pinned, what is on disk is what is newest. */
  lemma NewestHome(s: seq<Buf>, c: Shadow, g: Region, dev: nat, size: nat, newest: map<Key, Block>, d: Disk, p: Buffers)
    requires CacheOk(s, c) && HasDevice(c.disk, dev, size) && c.logged == map[]
    requires Home(g, Device(c.disk, dev, size)) == Over(Home(g, d), p)
    requires forall b :: 0 <= b < size && !InLog(g, b) ==>
               b < |Over(Home(g, d), p)| && (dev, b) in newest && Over(Home(g, d), p)[b] == newest[(dev, b)]
    ensures forall b :: 0 <= b < size && !InLog(g, b) ==>
              (dev, b) in c.newest && c.disk[(dev, b)] == c.newest[(dev, b)] == newest[(dev, b)]
  {
    hide Unique, BufOk;
    forall b: nat | b < size && !InLog(g, b)
      ensures (dev, b) in c.newest && c.disk[(dev, b)] == c.newest[(dev, b)] == newest[(dev, b)]
    {
      NotLogged(s, c, (dev, b));
      assert Home(g, Device(c.disk, dev, size))[b] == c.disk[(dev, b)];
    }
  }

  function Held(holds: seq<nat>, i: nat): seq<nat>
    requires i < |holds|
  {
    holds[i := holds[i] + 1]
  }

  /** With fewer pins and holders than buffers, some buffer can be recycled. */
  lemma FreeBuffer(s: seq<Buf>, g: Shadow, held: set<nat>)
    requires CacheOk(s, g) && |g.logged| + |held| < NBUF
    requires forall i :: 0 <= i < NBUF && i !in held ==> g.holds[i] == 0
    ensures exists i :: 0 <= i < NBUF && s[i].refcnt == 0
  {
    hide Below, Unique;
    ValuesFit(g.logged);
    var taken := g.logged.Values + held;
    if Below(NBUF) <= taken { SubsetCard(Below(NBUF), taken); }
    var i :| i in Below(NBUF) && i !in taken;
    assert i < NBUF && BufOk(s[i], g.holds[i], g);
    if s[i].dev != 0 && KeyOf(s[i]) in g.logged {
      PinnedHere(s, g, i);
      assert false;
    }
  }

  lemma ValuesDrop(m: map<Key, nat>, k: Key)
    requires k in m
    ensures m.Values == (m - {k}).Values + {m[k]} && |m| == |m - {k}| + 1
  {
    var r := m - {k};
    assert m.Keys == r.Keys + {k};
    forall v | v in m.Values ensures v in r.Values + {m[k]} {
      var q :| q in m && m[q] == v;
      if q != k { assert q in r && r[q] == v; }
    }
    forall v | v in r.Values ensures v in m.Values {
      var q :| q in r && r[q] == v;
      assert q in m && m[q] == v;
    }
  }

  lemma {:induction false} ValuesFit(m: map<Key, nat>)
    ensures |m.Values| <= |m|
    decreases |m|
  {
    if m != map[] {
      var k :| k in m;
      ValuesDrop(m, k);
      ValuesFit(m - {k});
    }
  }

  /** With a pin for every buffer, a block that is not logged has no buffer to go to. */
  lemma AllPinned(s: seq<Buf>, g: Shadow, i: nat)
    requires CacheOk(s, g) && |g.logged| >= NBUF && i < NBUF
    ensures s[i].refcnt > 0 && s[i].dev != 0 && KeyOf(s[i]) in g.logged
  {
    hide Below, Unique, BufOk;
    Injective(s, g, g.logged);
    SubsetCard(g.logged.Values, Below(NBUF));
    if i !in g.logged.Values {
      SubsetCard(g.logged.Values, Below(NBUF) - {i});
    }
    var k :| k in g.logged && g.logged[k] == i;
    PinnedHere(s, g, i);
  }

  /** Different blocks are pinned in different buffers. */
  lemma {:induction false} Injective(s: seq<Buf>, g: Shadow, m: map<Key, nat>)
    requires CacheOk(s, g) && forall k :: k in m ==> k in g.logged && m[k] == g.logged[k]
    ensures |m.Values| == |m| && m.Values <= Below(NBUF)
    decreases |m|
  {
    hide Below, CacheOk;
    if m != map[] {
      var k :| k in m;
      var r := m - {k};
      ValuesDrop(m, k);
      Injective(s, g, r);
      PinPlace(s, g, k);
      forall v | v in r.Values ensures v != m[k] {
        var q :| q in r && r[q] == v;
        PinPlace(s, g, q);
      }
    }
  }

  lemma PinPlace(s: seq<Buf>, g: Shadow, k: Key)
    requires CacheOk(s, g) && k in g.logged
    ensures g.logged[k] < NBUF && Caches(s[g.logged[k]], k)
  {
    hide Unique, BufOk;
  }

  lemma ReadFits(s: seq<Buf>, g: Shadow, k: Key, held: set<nat>)
    requires CacheOk(s, g)
    ensures |g.logged| >= NBUF && k !in g.logged ==> forall i :: 0 <= i < NBUF ==> !Caches(s[i], k) && s[i].refcnt > 0
    ensures (|| k in g.logged
             || (|g.logged| + |held| < NBUF && forall i :: 0 <= i < NBUF && i !in held ==> g.holds[i] == 0)) ==>
              exists i :: 0 <= i < NBUF && (Caches(s[i], k) || s[i].refcnt == 0)
  {
    if |g.logged| >= NBUF {
      forall i | 0 <= i < NBUF
        ensures s[i].refcnt > 0 && s[i].dev != 0 && KeyOf(s[i]) in g.logged
      {
        AllPinned(s, g, i);
      }
    }
    if k in g.logged {
      assert Caches(s[g.logged[k]], k);
    } else if |g.logged| + |held| < NBUF && forall i :: 0 <= i < NBUF && i !in held ==> g.holds[i] == 0 {
      FreeBuffer(s, g, held);
    }
  }
}
