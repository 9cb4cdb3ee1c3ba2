/** The buffer cache of kernel/bio.c. Each method is what the code does while it
    holds bcache.lock (or, for Fill, LogWrite, Bwrite and Overwrite, the buffer's sleep
    lock), so what any number of processes do to the cache, a commit included, is a
    sequence of these calls. */
module Bcache {
  import opened Blocks
  import opened BufferRing
  import opened Wrappers

  type Key = (nat, nat)

  function KeyOf(b: Buf): Key { (b.dev, b.blockno) }

  predicate Caches(b: Buf, k: Key) { b.dev != 0 && KeyOf(b) == k }

  /** `newest` is what each block should read as; `logged` says which buffer pins each
      block that log_write has taken and no install has written yet; `holds` counts the
      references got from bget and not yet given back. */
  datatype Shadow = Shadow(disk: map<Key, Block>, newest: map<Key, Block>, logged: map<Key, nat>, holds: seq<nat>)

  function Pins(logged: map<Key, nat>, b: Buf): nat { if b.dev != 0 && KeyOf(b) in logged then 1 else 0 }

  /** At most one buffer per block. */
  ghost predicate Unique(s: seq<Buf>)
    requires |s| == NBUF + 1
  {
    forall i, j :: 0 <= i < j < NBUF && s[i].dev != 0 && s[j].dev != 0 ==> KeyOf(s[i]) != KeyOf(s[j])
  }

  /** References are holders plus pins, and a valid buffer has the newest contents. */
  ghost predicate BufOk(b: Buf, holds: nat, g: Shadow) {
    && b.refcnt == holds + Pins(g.logged, b)
    && (b.dev != 0 ==> KeyOf(b) in g.newest)
    && (b.dev != 0 && b.valid ==> b.data == g.newest[KeyOf(b)])
  }

  /** A logged block stays in its buffer; a block that is not logged is on disk. */
  ghost predicate LogOk(s: seq<Buf>, g: Shadow)
    requires |s| == NBUF + 1
  {
    && g.newest.Keys == g.disk.Keys
    && (forall k :: k in g.logged ==> g.logged[k] < NBUF && Caches(s[g.logged[k]], k) && s[g.logged[k]].valid)
    && (forall k :: k in g.disk && k !in g.logged ==> g.disk[k] == g.newest[k])
  }

  ghost predicate CacheOk(s: seq<Buf>, g: Shadow) {
    && |s| == NBUF + 1 && |g.holds| == NBUF
    && Unique(s)
    && (forall i :: 0 <= i < NBUF ==> BufOk(s[i], g.holds[i], g))
    && LogOk(s, g)
  }

  lemma SameLinks(s: seq<Buf>, t: seq<Buf>, order: seq<nat>)
    requires Ring(s, order) && |t| == |s|
    requires forall i :: 0 <= i < |s| ==> t[i].next == s[i].next && t[i].prev == s[i].prev
    ensures Ring(t, order)
  {
    forall k | 0 <= k <= |order| ensures Link(t, order, k) { assert Link(s, order, k); }
  }

  // The effect of each operation on one buffer.

  function Referenced(b: Buf): Buf { b.(refcnt := b.refcnt + 1) }

  function Recycled(b: Buf, k: Key): Buf { b.(dev := k.0, blockno := k.1, valid := false, refcnt := 1) }

  /** Recycling takes a buffer that nobody holds and no log entry pins. */
  lemma RecycleOk(s: seq<Buf>, g: Shadow, i: nat, k: Key)
    requires CacheOk(s, g) && i < NBUF && s[i].refcnt == 0 && k.0 != 0 && k in g.disk
    requires forall j :: 0 <= j < NBUF ==> !Caches(s[j], k)
    ensures CacheOk(s[i := Recycled(s[i], k)], g.(holds := g.holds[i := 1]))
    ensures forall q :: q in g.logged ==> g.logged[q] != i
  {
    var t, h := s[i := Recycled(s[i], k)], g.(holds := g.holds[i := 1]);
    assert BufOk(s[i], g.holds[i], g);
    forall q | q in g.logged ensures g.logged[q] != i { }
    forall j | 0 <= j < NBUF ensures BufOk(t[j], h.holds[j], h) { assert BufOk(s[j], g.holds[j], g); }
    assert k !in g.logged;
  }

  lemma ReferenceOk(s: seq<Buf>, g: Shadow, i: nat)
    requires CacheOk(s, g) && i < NBUF
    ensures |g.holds| == NBUF
    ensures CacheOk(s[i := Referenced(s[i])], g.(holds := g.holds[i := g.holds[i] + 1]))
  {
    var t, h := s[i := Referenced(s[i])], g.(holds := g.holds[i := g.holds[i] + 1]);
    forall j | 0 <= j < NBUF ensures BufOk(t[j], h.holds[j], h) { assert BufOk(s[j], g.holds[j], g); }
  }

  function Dropped(b: Buf): Buf { b.(refcnt := if b.refcnt > 0 then b.refcnt - 1 else 0) }

  /** A buffer without its list links. */
  function Plain(b: Buf): Buf { b.(prev := 0, next := 0) }

  /** The block a referenced buffer is for, and what a valid one holds. */
  predicate Stays(b: Buf, c: Buf) {
    c.dev == b.dev && c.blockno == b.blockno && c.refcnt > 0 && (b.valid ==> c.valid && c.data == b.data)
  }

  /** Giving back a reference never drives the count of a pinned buffer to zero. */
  lemma DropOk(s: seq<Buf>, t: seq<Buf>, g: Shadow, i: nat)
    requires CacheOk(s, g) && i < NBUF && g.holds[i] > 0 && |t| == NBUF + 1
    requires forall j :: 0 <= j < NBUF ==> Plain(t[j]) == Plain(if j == i then Dropped(s[j]) else s[j])
    ensures CacheOk(t, g.(holds := g.holds[i := g.holds[i] - 1]))
  {
    var h := g.(holds := g.holds[i := g.holds[i] - 1]);
    forall j | 0 <= j < NBUF
      ensures BufOk(t[j], h.holds[j], h) && t[j].dev == s[j].dev && KeyOf(t[j]) == KeyOf(s[j])
      ensures t[j].valid == s[j].valid
    {
      assert BufOk(s[j], g.holds[j], g);
    }
    hide BufOk;
  }

  /** Filling, updating and writing a held buffer. */
  lemma FillOk(s: seq<Buf>, g: Shadow, i: nat)
    requires CacheOk(s, g) && i < NBUF && s[i].dev != 0 && !s[i].valid
    ensures KeyOf(s[i]) in g.disk && g.disk[KeyOf(s[i])] == g.newest[KeyOf(s[i])]
    ensures CacheOk(s[i := s[i].(valid := true, data := g.disk[KeyOf(s[i])])], g)
  {
    assert BufOk(s[i], g.holds[i], g);
    var k := KeyOf(s[i]);
    assert k !in g.logged;
    var t := s[i := s[i].(valid := true, data := g.disk[k])];
    forall j | 0 <= j < NBUF ensures BufOk(t[j], g.holds[j], g) { assert BufOk(s[j], g.holds[j], g); }
  }

  /** What log_write does to buffer i with new contents v: pin it unless it is pinned. */
  function Updated(b: Buf, g: Shadow, v: Block): Buf {
    b.(data := v, refcnt := b.refcnt + if KeyOf(b) in g.logged then 0 else 1)
  }

  function Logging(g: Shadow, k: Key, i: nat, v: Block): Shadow {
    Shadow(g.disk, g.newest[k := v], g.logged[k := i], g.holds)
  }

  lemma UpdateLogOk(s: seq<Buf>, t: seq<Buf>, g: Shadow, i: nat, v: Block)
    requires |s| == NBUF + 1 && LogOk(s, g) && i < NBUF && s[i].dev != 0 && s[i].valid && KeyOf(s[i]) in g.disk
    requires t == s[i := Updated(s[i], g, v)]
    ensures LogOk(t, Logging(g, KeyOf(s[i]), i, v))
  {
    var h := Logging(g, KeyOf(s[i]), i, v);
    assert h.newest.Keys == h.disk.Keys;
    forall q | q in h.logged ensures h.logged[q] < NBUF && Caches(t[h.logged[q]], q) && t[h.logged[q]].valid { }
  }

  lemma UpdateOk(s: seq<Buf>, g: Shadow, i: nat, v: Block)
    requires CacheOk(s, g) && i < NBUF && s[i].dev != 0 && s[i].valid
    ensures KeyOf(s[i]) in g.disk
    ensures CacheOk(s[i := Updated(s[i], g, v)], Logging(g, KeyOf(s[i]), i, v))
  {
    hide LogOk;
    HoldsLength(s, g);
    assert BufOk(s[i], g.holds[i], g);
    var t, h := s[i := Updated(s[i], g, v)], Logging(g, KeyOf(s[i]), i, v);
    UpdateLogOk(s, t, g, i, v);
    forall j | 0 <= j < NBUF ensures BufOk(t[j], h.holds[j], h) {
      assert BufOk(s[j], g.holds[j], g);
      assert j != i && s[j].dev != 0 ==> KeyOf(s[j]) != KeyOf(s[i]);
    }
  }

  lemma WriteOk(s: seq<Buf>, g: Shadow, i: nat)
    requires CacheOk(s, g) && i < NBUF && s[i].dev != 0 && s[i].valid
    ensures KeyOf(s[i]) in g.disk && s[i].data == g.newest[KeyOf(s[i])]
    ensures CacheOk(s, g.(disk := g.disk[KeyOf(s[i]) := s[i].data]))
  {
    assert BufOk(s[i], g.holds[i], g);
    var h := g.(disk := g.disk[KeyOf(s[i]) := s[i].data]);
    forall j | 0 <= j < NBUF ensures BufOk(s[j], h.holds[j], h) { assert BufOk(s[j], g.holds[j], g); }
    assert h.newest.Keys == h.disk.Keys;
  }

  function Overwriting(g: Shadow, k: Key, v: Block): Shadow {
    Shadow(g.disk[k := v], g.newest[k := v], g.logged, g.holds)
  }

  lemma OverwriteOk(s: seq<Buf>, g: Shadow, i: nat, v: Block)
    requires CacheOk(s, g) && i < NBUF && s[i].dev != 0 && s[i].valid
    ensures KeyOf(s[i]) in g.disk && CacheOk(s[i := s[i].(data := v)], Overwriting(g, KeyOf(s[i]), v))
  {
    assert BufOk(s[i], g.holds[i], g);
    var t, h := s[i := s[i].(data := v)], Overwriting(g, KeyOf(s[i]), v);
    forall j | 0 <= j < NBUF ensures BufOk(t[j], h.holds[j], h) {
      assert BufOk(s[j], g.holds[j], g);
      assert j != i && s[j].dev != 0 ==> KeyOf(s[j]) != KeyOf(s[i]);
    }
    assert h.newest.Keys == h.disk.Keys;
  }

  lemma UnpinLogOk(s: seq<Buf>, g: Shadow, i: nat)
    requires |s| == NBUF + 1 && LogOk(s, g) && i < NBUF && KeyOf(s[i]) in g.disk && s[i].refcnt > 0
    requires g.disk[KeyOf(s[i])] == g.newest[KeyOf(s[i])]
    ensures LogOk(s[i := s[i].(refcnt := s[i].refcnt - 1)], g.(logged := g.logged - {KeyOf(s[i])}))
  {
  }

  /** The pin can go once the newest contents are on disk. */
  lemma UnpinOk(s: seq<Buf>, g: Shadow, i: nat)
    requires CacheOk(s, g) && i < NBUF && s[i].dev != 0 && KeyOf(s[i]) in g.logged
    requires KeyOf(s[i]) in g.disk && g.disk[KeyOf(s[i])] == s[i].data
    ensures s[i].refcnt > 0 && s[i].valid
    ensures CacheOk(s[i := s[i].(refcnt := s[i].refcnt - 1)], g.(logged := g.logged - {KeyOf(s[i])}))
  {
    hide LogOk;
    PinnedHere(s, g, i);
    var k := KeyOf(s[i]);
    var t, h := s[i := s[i].(refcnt := s[i].refcnt - 1)], g.(logged := g.logged - {k});
    UnpinLogOk(s, g, i);
    forall j | 0 <= j < NBUF ensures BufOk(t[j], h.holds[j], h) {
      assert BufOk(s[j], g.holds[j], g);
      assert j != i && s[j].dev != 0 ==> KeyOf(s[j]) != k;
    }
  }

  lemma PinnedHere(s: seq<Buf>, g: Shadow, i: nat)
    requires CacheOk(s, g) && i < NBUF && s[i].dev != 0 && KeyOf(s[i]) in g.logged
    ensures g.logged[KeyOf(s[i])] == i && s[i].valid && s[i].refcnt > 0
    ensures KeyOf(s[i]) in g.newest && s[i].data == g.newest[KeyOf(s[i])]
  {
    assert BufOk(s[i], g.holds[i], g);
    assert Caches(s[g.logged[KeyOf(s[i])]], KeyOf(s[i]));
  }

  class Cache {
    const buf: array<Buf>
    var disk: map<Key, Block>
    /** The blocks in the log header, with the buffer that each is pinned in. */
    var logged: map<Key, nat>
    ghost var newest: map<Key, Block>
    ghost var holds: seq<nat>
    /** The buffers from most to least recently used. */
    ghost var order: seq<nat>

    ghost function G(): Shadow
      reads this
    {
      Shadow(disk, newest, logged, holds)
    }

    ghost predicate Valid()
      reads this, buf
    {
      && buf.Length == NBUF + 1 && |order| == NBUF && |holds| == NBUF
      && Ring(buf[..], order) && CacheOk(buf[..], G())
    }

    /** binit: all NBUF buffers on one circle, none in use. */
    constructor (device: map<Key, Block>)
      ensures Valid() && disk == newest == device && logged == map[] && holds == seq(NBUF, _ => 0)
      ensures fresh(buf) && order == seq(NBUF, k => NBUF - 1 - k)
      ensures forall i :: 0 <= i < NBUF ==> !buf[i].valid && buf[i].dev == 0 && buf[i].refcnt == 0
    {
      buf := new Buf[NBUF + 1](_ => Buf(false, 0, 0, 0, HEAD, HEAD, ZeroBlock()));
      disk, newest, logged := device, device, map[];
      holds, order := seq(NBUF, _ => 0), [];
      new;
      for b := 0 to NBUF
        invariant fresh(buf) && buf.Length == NBUF + 1 && Ring(buf[..], order) && order == seq(b, k => b - 1 - k)
        invariant disk == newest == device && logged == map[] && holds == seq(NBUF, _ => 0)
        invariant forall i :: 0 <= i <= NBUF ==> !buf[i].valid && buf[i].dev == 0 && buf[i].refcnt == 0
      {
        InsertFront(b);
        order := [b] + order;
      }
    }

    /** The four assignments that put b right after the head. */
    method InsertFront(b: nat)
      requires buf.Length == NBUF + 1 && b < NBUF && Ring(buf[..], order) && b !in order
      modifies buf
      ensures Ring(buf[..], [b] + order)
      ensures forall i :: 0 <= i <= NBUF ==>
                buf[i] == old(buf[i]).(prev := buf[i].prev, next := buf[i].next)
    {
      hide Ring;
      PushFrontRing(buf[..], order, b);
      ghost var t := PushFront(buf[..], b);
      buf[b] := buf[b].(next := buf[HEAD].next);
      buf[b] := buf[b].(prev := HEAD);
      buf[buf[HEAD].next] := buf[buf[HEAD].next].(prev := b);
      buf[HEAD] := buf[HEAD].(next := b);
      assert buf[..] == t;
    }

    /** A buffer for block k: the one that caches it, else the least recently used one
        with no references; None is the panic "bget: no buffers". */
    method Bget(k: Key) returns (r: Option<nat>)
      requires Valid() && k.0 != 0 && k in disk
      modifies buf, this`holds
      ensures Valid()
      ensures r.None? <==> (forall j :: 0 <= j < NBUF ==> !Caches(old(buf[j]), k) && old(buf[j]).refcnt > 0)
      ensures r.None? ==> buf[..] == old(buf[..]) && holds == old(holds)
      ensures r.Some? ==>
                r.value < NBUF && Caches(buf[r.value], k) && holds == old(holds)[r.value := old(holds[r.value]) + 1]
      ensures r.Some? && (exists j :: 0 <= j < NBUF && Caches(old(buf[j]), k)) ==>
                buf[..] == old(buf[..])[r.value := Referenced(old(buf[r.value]))]
      ensures r.Some? && (forall j :: 0 <= j < NBUF ==> !Caches(old(buf[j]), k)) ==>
                && old(buf[r.value]).refcnt == 0 && buf[..] == old(buf[..])[r.value := Recycled(old(buf[r.value]), k)]
                && LeastRecent(old(buf[..]), order, r.value)
    {
      hide Ring, CacheOk;
      ghost var s := buf[..];
      var i := FindCached(k);
      if i.Some? {
        ReferenceOk(s, G(), i.value);
        SameLinks(s, s[i.value := Referenced(s[i.value])], order);
        buf[i.value] := Referenced(buf[i.value]);
        holds := holds[i.value := holds[i.value] + 1];
        assert buf[..] == s[i.value := Referenced(s[i.value])];
        return i;
      }
      i := FindUnused();
      if i.Some? {
        RecycleOk(s, G(), i.value, k);
        NoHolds(s, G(), i.value);
        SameLinks(s, s[i.value := Recycled(s[i.value], k)], order);
        buf[i.value] := Recycled(buf[i.value], k);
        holds := holds[i.value := 1];
        assert buf[..] == s[i.value := Recycled(s[i.value], k)];
      }
      return i;
    }

    /** The scan from most to least recently used for block k. */
    method FindCached(k: Key) returns (r: Option<nat>)
      requires Valid() && k.0 != 0
      ensures r.Some? ==> r.value < NBUF && Caches(buf[r.value], k)
      ensures r.None? ==> forall j :: 0 <= j < NBUF ==> !Caches(buf[j], k)
    {
      hide CacheOk;
      ghost var n := 1;
      assert Link(buf[..], order, 0);
      var b := buf[HEAD].next;
      while b != HEAD
        invariant 1 <= n <= NBUF + 1 && b == At(order, n)
        invariant forall j :: 0 <= j < n - 1 ==> !Caches(buf[order[j]], k)
        decreases NBUF + 1 - n
      {
        if buf[b].dev == k.0 && buf[b].blockno == k.1 {
          return Some(b);
        }
        assert Link(buf[..], order, n);
        b := buf[b].next;
        n := n + 1;
      }
      forall j | 0 <= j < NBUF ensures !Caches(buf[j], k) {
        var m := Position(order, j);
      }
      r := None;
    }

    /** The scan from least to most recently used for a buffer without references. */
    method FindUnused() returns (r: Option<nat>)
      requires Valid()
      ensures r.Some? ==> r.value < NBUF && buf[r.value].refcnt == 0 && LeastRecent(buf[..], order, r.value)
      ensures r.None? ==> forall j :: 0 <= j < NBUF ==> buf[j].refcnt > 0
    {
      hide CacheOk;
      ghost var n := NBUF;
      assert Link(buf[..], order, NBUF);
      var b := buf[HEAD].prev;
      while b != HEAD
        invariant 0 <= n <= NBUF && b == At(order, n)
        invariant forall j :: n <= j < NBUF ==> buf[order[j]].refcnt > 0
        decreases n
      {
        if buf[b].refcnt == 0 {
          return Some(b);
        }
        assert Link(buf[..], order, n - 1);
        b := buf[b].prev;
        n := n - 1;
      }
      forall j | 0 <= j < NBUF ensures buf[j].refcnt > 0 {
        var m := Position(order, j);
      }
      r := None;
    }

    /** The second half of bread: read the disk into a buffer that is not valid. */
    method Fill(i: nat)
      requires Valid() && i < NBUF && buf[i].dev != 0 && holds[i] > 0
      modifies buf
      ensures Valid() && buf[i].valid && KeyOf(buf[i]) == old(KeyOf(buf[i])) && buf[i].data == newest[KeyOf(buf[i])]
      ensures buf[i].refcnt == old(buf[i]).refcnt && (old(buf[i]).valid ==> buf[i] == old(buf[i]))
      ensures forall j :: 0 <= j <= NBUF && j != i ==> buf[j] == old(buf[j])
    {
      hide Ring;
      ghost var s := buf[..];
      assert BufOk(s[i], holds[i], G());
      if !buf[i].valid {
        FillOk(s, G(), i);
        hide CacheOk;
        ghost var t := s[i := s[i].(valid := true, data := disk[KeyOf(s[i])])];
        SameLinks(s, t, order);
        buf[i] := buf[i].(valid := true, data := disk[KeyOf(buf[i])]);
        assert buf[..] == t;
      }
    }

    /** Whatever has been logged or installed, reading a block gives its newest contents. */
    method Bread(k: Key) returns (r: Option<nat>)
      requires Valid() && k.0 != 0 && k in disk
      modifies buf, this`holds
      ensures Valid()
      ensures r.None? <==> (forall j :: 0 <= j < NBUF ==> !Caches(old(buf[j]), k) && old(buf[j]).refcnt > 0)
      ensures r.None? ==> buf[..] == old(buf[..]) && holds == old(holds)
      ensures r.Some? ==> r.value < NBUF && Caches(buf[r.value], k) && buf[r.value].valid
                          && k in newest && buf[r.value].data == newest[k]
      ensures r.Some? ==> holds == old(holds)[r.value := old(holds[r.value]) + 1]
      ensures forall j :: 0 <= j < NBUF && old(buf[j]).refcnt > 0 ==> Stays(old(buf[j]), buf[j])
    {
      hide Ring, CacheOk;
      r := Bget(k);
      if r.Some? {
        HoldsLength(buf[..], G());
        Fill(r.value);
      }
    }

    /** A holder changes the buffer and calls log_write on it. */
    method LogWrite(i: nat, v: Block)
      requires Valid() && i < NBUF && buf[i].dev != 0 && buf[i].valid && holds[i] > 0
      modifies buf, this`newest, this`logged
      ensures Valid() && newest == old(newest)[KeyOf(buf[i]) := v] && logged == old(logged)[KeyOf(buf[i]) := i]
      ensures buf[..] == old(buf[..])[i := Updated(old(buf[i]), old(G()), v)]
    {
      hide Ring, CacheOk;
      ghost var s, g := buf[..], G();
      UpdateOk(s, g, i, v);
      ghost var t := s[i := Updated(s[i], g, v)];
      SameLinks(s, t, order);
      buf[i] := buf[i].(data := v);
      if KeyOf(buf[i]) !in logged {
        buf[i] := buf[i].(refcnt := buf[i].refcnt + 1);
      }
      newest, logged := newest[KeyOf(buf[i]) := v], logged[KeyOf(buf[i]) := i];
      assert buf[..] == t;
    }

    method Bwrite(i: nat)
      requires Valid() && i < NBUF && buf[i].dev != 0 && buf[i].valid && holds[i] > 0
      modifies this`disk
      ensures Valid() && disk == old(disk)[KeyOf(buf[i]) := newest[KeyOf(buf[i])]]
    {
      hide Ring, CacheOk;
      WriteOk(buf[..], G(), i);
      disk := disk[KeyOf(buf[i]) := buf[i].data];
    }

    /** A holder copies v into the buffer and writes it: what the log code does to its own
        blocks, and what install_trans does to the home blocks. */
    method Overwrite(i: nat, v: Block)
      requires Valid() && i < NBUF && buf[i].dev != 0 && buf[i].valid && holds[i] > 0
      modifies buf, this`disk, this`newest
      ensures Valid() && buf[..] == old(buf[..])[i := old(buf[i]).(data := v)]
      ensures disk == old(disk)[KeyOf(buf[i]) := v] && newest == old(newest)[KeyOf(buf[i]) := v]
    {
      hide Ring, CacheOk;
      ghost var s := buf[..];
      OverwriteOk(s, G(), i, v);
      ghost var t := s[i := s[i].(data := v)];
      SameLinks(s, t, order);
      buf[i] := buf[i].(data := v);
      assert buf[..] == t;
      newest := newest[KeyOf(buf[i]) := v];
      disk := disk[KeyOf(buf[i]) := buf[i].data];
    }

    /** install_trans drops the pin after writing the block home. */
    method Bunpin(i: nat)
      requires Valid() && i < NBUF && buf[i].dev != 0 && KeyOf(buf[i]) in logged
      requires KeyOf(buf[i]) in disk && disk[KeyOf(buf[i])] == buf[i].data
      modifies buf, this`logged
      ensures Valid() && logged == old(logged) - {KeyOf(buf[i])}
      ensures old(buf[i]).refcnt > 0 && buf[..] == old(buf[..])[i := old(buf[i]).(refcnt := old(buf[i]).refcnt - 1)]
    {
      hide Ring, CacheOk;
      ghost var s := buf[..];
      UnpinOk(s, G(), i);
      ghost var t := s[i := s[i].(refcnt := s[i].refcnt - 1)];
      SameLinks(s, t, order);
      buf[i] := buf[i].(refcnt := buf[i].refcnt - 1);
      logged := logged - {KeyOf(buf[i])};
      assert buf[..] == t;
    }

    /** Gives a reference back; a buffer with none left becomes the most recently used. */
    method Brelse(i: nat)
      requires Valid() && i < NBUF && holds[i] > 0
      modifies buf, this`holds, this`order
      ensures Valid() && holds == old(holds)[i := old(holds[i]) - 1]
      ensures forall j :: 0 <= j < NBUF ==>
                Plain(buf[j]) == Plain(if j == i then Dropped(old(buf[j])) else old(buf[j]))
      ensures buf[i].refcnt > 0 ==> order == old(order)
      ensures buf[i].refcnt == 0 ==>
                exists n :: 0 <= n < NBUF && old(order)[n] == i && order == [i] + Without(old(order), n)
    {
      hide Ring, CacheOk;
      ghost var s, g := buf[..], G();
      ghost var n := RingPosition(s, order, i);
      buf[i] := Dropped(buf[i]);
      SameLinks(s, buf[..], order);
      if buf[i].refcnt == 0 {
        ToFront(i, n);
      }
      holds := holds[i := holds[i] - 1];
      DropOk(s, buf[..], g, i);
    }

    /** brelse's six link assignments. */
    method ToFront(i: nat, ghost n: nat)
      requires buf.Length == NBUF + 1 && Ring(buf[..], order) && n < |order| == NBUF && order[n] == i
      modifies buf, this`order
      ensures order == [i] + Without(old(order), n) && |order| == NBUF && Ring(buf[..], order)
      ensures forall j :: 0 <= j <= NBUF ==> Plain(buf[j]) == Plain(old(buf[j]))
    {
      hide Ring;
      ghost var t := buf[..];
      UnlinkRing(t, order, n);
      buf[buf[i].next] := buf[buf[i].next].(prev := buf[i].prev);
      buf[buf[i].prev] := buf[buf[i].prev].(next := buf[i].next);
      assert buf[..] == Unlink(t, i);
      NotIn(t, order, n);
      order := Without(order, n);
      InsertFront(i);
      order := [i] + order;
    }
  }

  /** Buffer i has no references and every buffer used less recently has some. */
  ghost predicate LeastRecent(s: seq<Buf>, order: seq<nat>, i: nat)
    requires |s| == NBUF + 1 && Distinct(order)
  {
    exists n :: 0 <= n < |order| && order[n] == i && s[i].refcnt == 0
                && forall j :: n < j < |order| ==> s[order[j]].refcnt > 0
  }

  lemma RingPosition(s: seq<Buf>, order: seq<nat>, b: nat) returns (n: nat)
    requires Ring(s, order) && |order| == NBUF && b < NBUF
    ensures n < NBUF && order[n] == b
  {
    n := Position(order, b);
  }

  lemma NotIn(s: seq<Buf>, order: seq<nat>, n: nat)
    requires Ring(s, order) && n < |order|
    ensures order[n] !in Without(order, n)
  {
  }

  lemma HoldsLength(s: seq<Buf>, g: Shadow)
    requires CacheOk(s, g)
    ensures |g.holds| == NBUF && g.newest.Keys == g.disk.Keys
  {
  }

  lemma NoHolds(s: seq<Buf>, g: Shadow, i: nat)
    requires CacheOk(s, g) && i < NBUF && s[i].refcnt == 0
    ensures |g.holds| == NBUF && g.holds[i] == 0
  {
    assert BufOk(s[i], g.holds[i], g);
  }

  /** NBUF distinct buffers are all of them. */
  lemma Position(order: seq<nat>, b: nat) returns (n: nat)
    requires Distinct(order) && |order| == NBUF && b < NBUF
    ensures n < NBUF && order[n] == b
  {
    hide Below;
    var seen := set k | 0 <= k < NBUF :: order[k];
    Card(order, NBUF);
    assert seen <= Below(NBUF);
    assert |Below(NBUF) - seen| == 0;
    assert b in Below(NBUF);
    assert b in seen;
    n :| 0 <= n < NBUF && order[n] == b;
  }

  lemma {:induction false} Card(order: seq<nat>, n: nat)
    requires Distinct(order) && n <= |order|
    ensures |set k | 0 <= k < n :: order[k]| == n
  {
    if n > 0 {
      Card(order, n - 1);
      assert (set k | 0 <= k < n :: order[k]) == (set k | 0 <= k < n - 1 :: order[k]) + {order[n - 1]};
    }
  }
}
