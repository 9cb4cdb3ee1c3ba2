/** The split virtqueue that kernel/virtio_disk.c shares with the block device (sections 2.6 and
    5.2 of Virtual I/O Device Version 1.1): descriptors, the two rings, and the requests in flight. */
module VirtQueue {
  import opened Wrappers

  const NUM: nat := 8
  /** Ring indexes are 16 bits wide. */
  const WRAP: nat := 65536

  const F_NEXT: nat := 1
  const F_WRITE: nat := 2

  const BSIZE: nat := 1024

  /** What a descriptor points at: the command header of slot i, a buffer's data, or the status
      byte of slot i. */
  datatype Addr = Null | Header(i: nat) | Data(b: nat) | Status(i: nat)

  datatype Desc = Desc(addr: Addr, len: nat, flags: nat, next: nat)
  datatype Info = Info(b: nat, status: nat)
  datatype Op = Op(write: bool, sector: nat)

  /** A request: queued in the avail ring, taken by the device, reported in the used ring with the
      status the device stored, or seen by the interrupt handler. */
  datatype Phase = Queued | Working | Reported(status: nat) | Seen

  datatype Req = Req(d1: nat, d2: nat, b: nat, op: Op, phase: Phase)

  /** What the driver and the device share, and which buffers are marked as owned by the disk. */
  datatype Queue = Queue(free: seq<bool>, desc: seq<Desc>, info: seq<Info>, ops: seq<Op>,
                         avail: seq<nat>, availIdx: nat, used: seq<nat>, usedIdx: nat, seenIdx: nat, busy: set<nat>)

  /** The requests in flight by their first descriptor, with the request each descriptor and each
      buffer belongs to; the heads in each ring, oldest first; and how many heads the device has
      taken and the driver has seen. */
  datatype Flight = Flight(reqs: map<nat, Req>, own: map<nat, nat>, bufs: map<nat, nat>,
                           queued: seq<nat>, taken: nat, reported: seq<nat>, seen: nat)

  /** The number of free descriptors. */
  function Count(free: seq<bool>): nat {
    if free == [] then 0 else Count(free[1..]) + if free[0] then 1 else 0
  }

  lemma {:induction false} CountSet(free: seq<bool>, i: nat, b: bool)
    requires i < |free| && free[i] != b
    ensures Count(free[i := b]) == if b then Count(free) + 1 else Count(free) - 1
  {
    if i == 0 {
      assert free[0 := b][1..] == free[1..];
    } else {
      assert free[i := b][1..] == free[1..][i - 1 := b];
      CountSet(free[1..], i - 1, b);
    }
  }

  lemma {:induction false} CountNone(free: seq<bool>)
    requires forall i :: 0 <= i < |free| ==> !free[i]
    ensures Count(free) == 0
  {
    if free != [] { CountNone(free[1..]); }
  }

  ghost predicate Shape(q: Queue) {
    |q.free| == NUM && |q.desc| == NUM && |q.info| == NUM && |q.ops| == NUM && |q.avail| == NUM && |q.used| == NUM
  }

  /** The three descriptors from h describe the request: its header, its data, its status byte. */
  ghost predicate Describes(q: Queue, h: nat, r: Req)
    requires Shape(q) && h < NUM && r.d1 < NUM && r.d2 < NUM
  {
    && q.desc[h] == Desc(Header(h), 16, F_NEXT, r.d1) && q.ops[h] == r.op
    && q.desc[r.d1] == Desc(Data(r.b), BSIZE, F_NEXT + (if r.op.write then 0 else F_WRITE), r.d2)
    && q.desc[r.d2] == Desc(Status(h), 1, F_WRITE, 0)
  }

  /** The request's three descriptors and its buffer are its own. */
  ghost predicate PlaceOk(g: Flight, h: nat, r: Req) {
    && h < NUM && r.d1 < NUM && r.d2 < NUM && h != r.d1 && h != r.d2 && r.d1 != r.d2
    && Owns(g.own, h, h) && Owns(g.own, r.d1, h) && Owns(g.own, r.d2, h) && Owns(g.bufs, r.b, h)
  }

  /** The interrupt handler can find its buffer, which is marked until then. */
  ghost predicate MarkOk(q: Queue, h: nat, r: Req)
    requires Shape(q) && h < NUM
  {
    && q.info[h].b == r.b && (r.phase.Reported? ==> q.info[h].status == r.phase.status)
    && (r.b in q.busy <==> r.phase != Seen)
  }

  ghost predicate ChainOk(q: Queue, g: Flight, h: nat, r: Req)
    requires Shape(q)
  {
    PlaceOk(g, h, r) && Describes(q, h, r) && MarkOk(q, h, r)
  }

  predicate Owns(own: map<nat, nat>, d: nat, h: nat) { d in own && own[d] == h }

  ghost predicate AllChains(q: Queue, g: Flight)
    requires Shape(q)
  {
    forall h :: h in g.reqs ==> ChainOk(q, g, h, g.reqs[h])
  }

  ghost predicate FreeOk(free: seq<bool>, own: map<nat, nat>)
    requires |free| == NUM
  {
    forall d :: 0 <= d < NUM ==> (free[d] <==> d !in own)
  }

  ghost predicate BufsOk(reqs: map<nat, Req>, bufs: map<nat, nat>, busy: set<nat>) {
    && (forall b :: b in bufs ==> bufs[b] in reqs && reqs[bufs[b]].b == b)
    && (forall b :: b in busy ==> b in bufs)
  }

  ghost predicate ChainsOk(q: Queue, g: Flight)
    requires Shape(q)
  {
    && AllChains(q, g) && FreeOk(q.free, g.own) && BufsOk(g.reqs, g.bufs, q.busy)
    && Count(q.free) + 3 * |g.reqs| == NUM
  }

  /** A ring holds the heads `live`, the oldest at position `from`, with nothing overwritten. */
  ghost predicate RingOk(ring: seq<nat>, idx: nat, from: nat, live: seq<nat>)
    requires |ring| == NUM
  {
    && idx == (from + |live|) % WRAP
    && (forall i, j :: 0 <= i < j < |live| ==> live[i] != live[j])
    && (forall i :: 0 <= i < |live| ==> ring[(from + i) % NUM] == live[i])
  }

  ghost predicate Inv(q: Queue, g: Flight) {
    && Shape(q) && ChainsOk(q, g)
    && RingOk(q.avail, q.availIdx, g.taken, g.queued) && RingOk(q.used, q.usedIdx, g.seen, g.reported)
    && q.seenIdx == g.seen % WRAP
    && (forall h :: h in g.queued <==> h in g.reqs && g.reqs[h].phase == Queued)
    && (forall h :: h in g.reported <==> h in g.reqs && g.reqs[h].phase.Reported?)
  }

  // What the device makes of a chain.

  /** A command for the device: what to do, where the data are and whether it stores or loads them,
      and where it stores the status. */
  datatype Job = Job(op: Op, data: Addr, len: nat, stores: bool, status: Addr)

  /** Follows the chain from head h by the NEXT and WRITE bits. */
  function JobAt(q: Queue, h: nat): Option<Job>
    requires Shape(q) && h < NUM
  {
    var a := q.desc[h];
    if a.flags % 2 == 0 || a.flags / 2 % 2 == 1 || !a.addr.Header? || a.addr.i >= NUM || a.next >= NUM then None
    else
      var b := q.desc[a.next];
      if b.flags % 2 == 0 || b.next >= NUM then None
      else
        var c := q.desc[b.next];
        if c.flags % 2 == 1 || c.flags / 2 % 2 == 0 || c.len != 1 then None
        else Some(Job(q.ops[a.addr.i], b.addr, b.len, b.flags / 2 % 2 == 1, c.addr))
  }

  /** Every request in flight reads, from its head, as the transfer of its block's sectors to or from
      its buffer, and the device stores the data exactly for a read. */
  lemma DeviceSees(q: Queue, g: Flight, h: nat)
    requires Inv(q, g) && h in g.reqs
    ensures var r := g.reqs[h]; h < NUM && JobAt(q, h) == Some(Job(r.op, Data(r.b), 1024, !r.op.write, Status(h)))
  {
    hide Count, RingOk;
    assert ChainOk(q, g, h, g.reqs[h]);
  }

  /** Zeroed memory with every descriptor free, and nothing in flight. */
  function FreshQueue(): Queue {
    var none := seq(NUM, _ => 0);
    Queue(seq(NUM, _ => true), seq(NUM, _ => Desc(Null, 0, 0, 0)), seq(NUM, _ => Info(0, 0)),
          seq(NUM, _ => Op(false, 0)), none, 0, none, 0, 0, {})
  }

  function NoFlight(): Flight { Flight(map[], map[], map[], [], 0, [], 0) }

  lemma FreshOk()
    ensures Count(FreshQueue().free) == NUM && Inv(FreshQueue(), NoFlight())
  {
    AllFree(FreshQueue().free);
  }

  lemma {:induction false} AllFree(free: seq<bool>)
    requires forall i :: 0 <= i < |free| ==> free[i]
    ensures Count(free) == |free|
  {
    if free != [] { AllFree(free[1..]); }
  }

  // A ring never fills up.

  lemma NeverFull(q: Queue, g: Flight)
    requires Inv(q, g)
    ensures |g.reqs| <= 2 && |g.queued| <= 2 && |g.reported| <= 2
  {
    DistinctFit(g.queued, g.reqs.Keys);
    DistinctFit(g.reported, g.reqs.Keys);
    assert |g.reqs.Keys| == |g.reqs|;
  }

  lemma Slots(from: nat, i: nat, j: nat)
    requires i < j < i + NUM
    ensures (from + i) % NUM != (from + j) % NUM
  {}

  lemma IndexWraps(x: nat)
    ensures x % WRAP % NUM == x % NUM
    ensures (x % WRAP + 1) % WRAP == (x + 1) % WRAP
  {}

  /** Writing the next slot of a ring that is not full. */
  lemma RingAdd(ring: seq<nat>, idx: nat, from: nat, live: seq<nat>, h: nat)
    requires |ring| == NUM && RingOk(ring, idx, from, live) && |live| < NUM && h !in live
    ensures idx % NUM < NUM && RingOk(ring[idx % NUM := h], (idx + 1) % WRAP, from, live + [h])
  {
    IndexWraps(from + |live|);
    var ring', live' := ring[idx % NUM := h], live + [h];
    forall i | 0 <= i < |live'| ensures ring'[(from + i) % NUM] == live'[i] {
      if i < |live| { Slots(from, i, |live|); }
    }
  }

  /** Reading the oldest slot gives the oldest head. */
  lemma RingTake(ring: seq<nat>, idx: nat, from: nat, live: seq<nat>)
    requires |ring| == NUM && RingOk(ring, idx, from, live) && live != []
    ensures ring[(from % WRAP) % NUM] == live[0] && RingOk(ring, idx, from + 1, live[1..])
  {
    IndexWraps(from);
    assert ring[(from + 0) % NUM] == live[0];
    assert from + 1 + |live[1..]| == from + |live|;
    forall i | 0 <= i < |live[1..]| ensures ring[(from + 1 + i) % NUM] == live[1..][i] {
      assert ring[(from + (i + 1)) % NUM] == live[i + 1];
    }
  }

  /** The indexes agree exactly when the ring is empty. */
  lemma RingEmpty(ring: seq<nat>, idx: nat, from: nat, live: seq<nat>)
    requires |ring| == NUM && RingOk(ring, idx, from, live) && |live| < NUM
    ensures from % WRAP == idx <==> live == []
  {}

  // The steps of the driver and of the device.

  function Submitted(q: Queue, h: nat, d1: nat, d2: nat, b: nat, op: Op): (q': Queue)
    requires Shape(q) && h < NUM && d1 < NUM && d2 < NUM
    ensures Shape(q')
  {
    q.(free := q.free[h := false][d1 := false][d2 := false],
       desc := q.desc[h := Desc(Header(h), 16, F_NEXT, d1)]
                     [d1 := Desc(Data(b), BSIZE, F_NEXT + (if op.write then 0 else F_WRITE), d2)]
                     [d2 := Desc(Status(h), 1, F_WRITE, 0)],
       ops := q.ops[h := op], info := q.info[h := Info(b, 0xff)],
       avail := q.avail[q.availIdx % NUM := h], availIdx := (q.availIdx + 1) % WRAP, busy := q.busy + {b})
  }

  function Launched(g: Flight, h: nat, d1: nat, d2: nat, b: nat, op: Op): Flight {
    g.(reqs := g.reqs[h := Req(d1, d2, b, op, Queued)], queued := g.queued + [h],
       own := g.own[h := h][d1 := h][d2 := h], bufs := g.bufs[b := h])
  }

  /** Three free descriptors and a buffer that is in no request. */
  ghost predicate CanSubmit(q: Queue, g: Flight, h: nat, d1: nat, d2: nat, b: nat)
    requires Shape(q)
  {
    && h < NUM && d1 < NUM && d2 < NUM && h != d1 && h != d2 && d1 != d2 && q.free[h] && q.free[d1] && q.free[d2]
    && b !in g.bufs
  }

  /** A request already in flight has none of the new request's descriptors. */
  lemma OtherChain(q: Queue, g: Flight, h: nat, d1: nat, d2: nat, b: nat, op: Op, k: nat, r: Req)
    requires Shape(q) && FreeOk(q.free, g.own) && CanSubmit(q, g, h, d1, d2, b) && ChainOk(q, g, k, r)
    ensures k != h && ChainOk(Submitted(q, h, d1, d2, b, op), Launched(g, h, d1, d2, b, op), k, r)
  {
    assert !q.free[k] && !q.free[r.d1] && !q.free[r.d2];
    hide FreeOk;
    assert PlaceOk(Launched(g, h, d1, d2, b, op), k, r);
    assert Describes(Submitted(q, h, d1, d2, b, op), k, r);
  }

  lemma NewChain(q: Queue, g: Flight, h: nat, d1: nat, d2: nat, b: nat, op: Op)
    requires Shape(q) && CanSubmit(q, g, h, d1, d2, b)
    ensures ChainOk(Submitted(q, h, d1, d2, b, op), Launched(g, h, d1, d2, b, op), h, Req(d1, d2, b, op, Queued))
  {}

  lemma SubmitChains(q: Queue, g: Flight, h: nat, d1: nat, d2: nat, b: nat, op: Op)
    requires Shape(q) && ChainsOk(q, g) && CanSubmit(q, g, h, d1, d2, b)
    ensures ChainsOk(Submitted(q, h, d1, d2, b, op), Launched(g, h, d1, d2, b, op)) && h !in g.reqs
  {
    hide ChainOk, Count;
    var q', g' := Submitted(q, h, d1, d2, b, op), Launched(g, h, d1, d2, b, op);
    NewChain(q, g, h, d1, d2, b, op);
    forall k | k in g.reqs ensures k != h && ChainOk(q', g', k, g.reqs[k]) {
      OtherChain(q, g, h, d1, d2, b, op, k, g.reqs[k]);
    }
    CountSet(q.free, h, false);
    CountSet(q.free[h := false], d1, false);
    CountSet(q.free[h := false][d1 := false], d2, false);
  }

  lemma SubmitKeeps(q: Queue, g: Flight, h: nat, d1: nat, d2: nat, b: nat, op: Op)
    requires Inv(q, g) && CanSubmit(q, g, h, d1, d2, b)
    ensures Inv(Submitted(q, h, d1, d2, b, op), Launched(g, h, d1, d2, b, op))
  {
    hide ChainsOk, RingOk;
    NeverFull(q, g);
    SubmitChains(q, g, h, d1, d2, b, op);
    RingAdd(q.avail, q.availIdx, g.taken, g.queued, h);
  }

  function Phased(g: Flight, h: nat, phase: Phase): Flight
    requires h in g.reqs
  {
    g.(reqs := g.reqs[h := g.reqs[h].(phase := phase)])
  }

  /** A change of one request's phase, with the status and mark that go with it. */
  ghost predicate PhaseChange(q: Queue, g: Flight, q': Queue, g': Flight, h: nat, phase: Phase) {
    && Shape(q) && Shape(q') && h in g.reqs && h < NUM && g.reqs[h].phase != Seen
    && q'.free == q.free && q'.desc == q.desc && q'.ops == q.ops
    && q'.info == q.info[h := q.info[h].(status := q'.info[h].status)]
    && (phase.Reported? ==> q'.info[h].status == phase.status)
    && q'.busy == (if phase == Seen then q.busy - {g.reqs[h].b} else q.busy)
    && g'.reqs == Phased(g, h, phase).reqs && g'.own == g.own && g'.bufs == g.bufs
  }

  lemma PhaseChain(q: Queue, g: Flight, q': Queue, g': Flight, h: nat, phase: Phase, k: nat)
    requires PhaseChange(q, g, q', g', h, phase) && k in g.reqs
    requires ChainOk(q, g, k, g.reqs[k]) && ChainOk(q, g, h, g.reqs[h])
    ensures ChainOk(q', g', k, g'.reqs[k])
  {
    hide Describes;
    SameDescribes(q, q', k, g.reqs[k], g'.reqs[k]);
  }

  lemma PhaseChains(q: Queue, g: Flight, q': Queue, g': Flight, h: nat, phase: Phase)
    requires PhaseChange(q, g, q', g', h, phase) && ChainsOk(q, g)
    ensures ChainsOk(q', g')
  {
    hide Count, ChainOk;
    forall k | k in g'.reqs ensures ChainOk(q', g', k, g'.reqs[k]) {
      PhaseChain(q, g, q', g', h, phase, k);
    }
  }

  lemma SameDescribes(q: Queue, q': Queue, h: nat, r: Req, r': Req)
    requires Shape(q) && Shape(q') && h < NUM && r.d1 < NUM && r.d2 < NUM && Describes(q, h, r)
    requires q'.desc == q.desc && q'.ops == q.ops && r' == r.(phase := r'.phase)
    ensures Describes(q', h, r')
  {}

  lemma HeadSmall(q: Queue, g: Flight, h: nat)
    requires Shape(q) && ChainsOk(q, g) && h in g.reqs
    ensures h < NUM && !q.free[h] && g.reqs[h].d1 < NUM && g.reqs[h].d2 < NUM
    ensures q.info[h].b == g.reqs[h].b && (g.reqs[h].phase.Reported? ==> q.info[h].status == g.reqs[h].phase.status)
  {
    hide Count, Describes;
    assert ChainOk(q, g, h, g.reqs[h]);
  }

  lemma Rest(live: seq<nat>)
    requires live != [] && forall i, j :: 0 <= i < j < |live| ==> live[i] != live[j]
    ensures forall h :: h in live[1..] <==> h in live && h != live[0]
  {}

  function Taken(g: Flight): Flight
    requires g.queued != [] && g.queued[0] in g.reqs
  {
    Phased(g, g.queued[0], Working).(queued := g.queued[1..], taken := g.taken + 1)
  }

  /** The device takes the oldest head in the avail ring, which is the oldest submitted. */
  lemma TakeKeeps(q: Queue, g: Flight)
    requires Inv(q, g) && g.queued != []
    ensures g.queued[0] in g.reqs && q.avail[g.taken % WRAP % NUM] == g.queued[0] && Inv(q, Taken(g))
  {
    hide ChainsOk;
    var h := g.queued[0];
    assert h in g.queued;
    HeadSmall(q, g, h);
    PhaseChains(q, g, q, Taken(g), h, Working);
    Rest(g.queued);
    RingTake(q.avail, q.availIdx, g.taken, g.queued);
    hide RingOk;
  }

  /** The device reports the request with head h, with the given status. */
  function Completed(q: Queue, h: nat, status: nat): (q': Queue)
    requires Shape(q) && h < NUM
    ensures Shape(q')
  {
    q.(used := q.used[q.usedIdx % NUM := h], usedIdx := (q.usedIdx + 1) % WRAP,
       info := q.info[h := q.info[h].(status := status)])
  }

  lemma CompleteKeeps(q: Queue, g: Flight, h: nat, status: nat)
    requires Inv(q, g) && h in g.reqs && g.reqs[h].phase == Working
    ensures h < NUM && Inv(Completed(q, h, status), Phased(g, h, Reported(status)).(reported := g.reported + [h]))
  {
    hide ChainsOk;
    HeadSmall(q, g, h);
    NeverFull(q, g);
    var g' := Phased(g, h, Reported(status)).(reported := g.reported + [h]);
    PhaseChains(q, g, Completed(q, h, status), g', h, Reported(status));
    RingAdd(q.used, q.usedIdx, g.seen, g.reported, h);
    hide RingOk;
  }

  function Noticed(g: Flight): Flight
    requires g.reported != [] && g.reported[0] in g.reqs
  {
    Phased(g, g.reported[0], Seen).(reported := g.reported[1..], seen := g.seen + 1)
  }

  /** The interrupt handler deals with the oldest entry of the used ring: it is the oldest reported
      head, its status is the one the device stored, and the mark it clears is that request's. */
  lemma NoticeKeeps(q: Queue, g: Flight)
    requires Inv(q, g) && g.reported != []
    ensures var h := g.reported[0];
      && h in g.reqs && h < NUM && q.used[q.seenIdx % NUM] == h && g.reqs[h].phase.Reported?
      && q.info[h].status == g.reqs[h].phase.status && q.info[h].b == g.reqs[h].b
      && Inv(q.(seenIdx := (q.seenIdx + 1) % WRAP, busy := q.busy - {q.info[h].b}), Noticed(g))
  {
    hide ChainsOk;
    var h := g.reported[0];
    assert h in g.reported;
    HeadSmall(q, g, h);
    var q' := q.(seenIdx := (q.seenIdx + 1) % WRAP, busy := q.busy - {q.info[h].b});
    PhaseChains(q, g, q', Noticed(g), h, Seen);
    Rest(g.reported);
    RingTake(q.used, q.usedIdx, g.seen, g.reported);
    IndexWraps(g.seen);
    hide RingOk;
  }

  function Released(q: Queue, h: nat, d1: nat, d2: nat): (q': Queue)
    requires Shape(q) && h < NUM && d1 < NUM && d2 < NUM
    ensures Shape(q')
  {
    var none := Desc(Null, 0, 0, 0);
    q.(free := q.free[h := true][d1 := true][d2 := true], desc := q.desc[h := none][d1 := none][d2 := none],
       info := q.info[h := q.info[h].(b := 0)])
  }

  function Landed(g: Flight, h: nat): Flight
    requires h in g.reqs
  {
    g.(reqs := g.reqs - {h}, own := g.own - {h, g.reqs[h].d1, g.reqs[h].d2}, bufs := g.bufs - {g.reqs[h].b})
  }

  /** The submitter takes its descriptors back. */
  lemma ReleaseKeeps(q: Queue, g: Flight, h: nat)
    requires Inv(q, g) && h in g.reqs && g.reqs[h].phase == Seen
    ensures var r := g.reqs[h]; h < NUM && r.d1 < NUM && r.d2 < NUM && Inv(Released(q, h, r.d1, r.d2), Landed(g, h))
  {
    hide RingOk, ChainsOk;
    HeadSmall(q, g, h);
    ReleaseChains(q, g, h);
  }

  lemma ReleasedOther(q: Queue, g: Flight, h: nat, r: Req, k: nat, t: Req)
    requires Shape(q) && h in g.reqs && g.reqs[h] == r && ChainOk(q, g, h, r) && ChainOk(q, g, k, t) && h != k
    ensures ChainOk(Released(q, h, r.d1, r.d2), Landed(g, h), k, t)
  {
    assert PlaceOk(Landed(g, h), k, t);
    assert Describes(Released(q, h, r.d1, r.d2), k, t);
  }

  lemma ReleaseChains(q: Queue, g: Flight, h: nat)
    requires Shape(q) && ChainsOk(q, g) && h in g.reqs && g.reqs[h].phase == Seen
    ensures var r := g.reqs[h];
            h < NUM && r.d1 < NUM && r.d2 < NUM && ChainsOk(Released(q, h, r.d1, r.d2), Landed(g, h))
  {
    hide Count, ChainOk, FreeOk, BufsOk;
    var r := g.reqs[h];
    ChainMeans(q, g, h, r);
    var q', g' := Released(q, h, r.d1, r.d2), Landed(g, h);
    assert FreeOk(q'.free, g'.own) by { FreeAgain(q.free, g.own, h, r.d1, r.d2); }
    forall k | k in g'.reqs ensures ChainOk(q', g', k, g'.reqs[k]) {
      ReleasedOther(q, g, h, r, k, g.reqs[k]);
    }
    FreeCount(q.free, g.own, h, r.d1, r.d2);
    assert |g'.reqs| == |g.reqs| - 1 by { assert g'.reqs.Keys == g.reqs.Keys - {h}; }
    BufsAgain(g.reqs, g.bufs, q.busy, h);
  }

  lemma FreeAgain(free: seq<bool>, own: map<nat, nat>, h: nat, d1: nat, d2: nat)
    requires |free| == NUM && FreeOk(free, own) && h < NUM && d1 < NUM && d2 < NUM
    ensures FreeOk(free[h := true][d1 := true][d2 := true], own - {h, d1, d2})
  {}

  lemma FreeCount(free: seq<bool>, own: map<nat, nat>, h: nat, d1: nat, d2: nat)
    requires |free| == NUM && FreeOk(free, own) && h < NUM && d1 < NUM && d2 < NUM && h != d1 && h != d2 && d1 != d2
    requires h in own && d1 in own && d2 in own
    ensures Count(free[h := true][d1 := true][d2 := true]) == Count(free) + 3
  {
    hide Count;
    CountSet(free, h, true);
    CountSet(free[h := true], d1, true);
    CountSet(free[h := true][d1 := true], d2, true);
  }

  lemma BufsAgain(reqs: map<nat, Req>, bufs: map<nat, nat>, busy: set<nat>, h: nat)
    requires BufsOk(reqs, bufs, busy) && h in reqs && reqs[h].b !in busy && Owns(bufs, reqs[h].b, h)
    ensures BufsOk(reqs - {h}, bufs - {reqs[h].b}, busy)
  {
    forall b | b in bufs - {reqs[h].b} ensures bufs[b] != h {
      assert reqs[bufs[b]].b == b;
    }
  }

  lemma ChainMeans(q: Queue, g: Flight, h: nat, r: Req)
    requires Shape(q) && ChainOk(q, g, h, r)
    ensures PlaceOk(g, h, r) && (r.b in q.busy <==> r.phase != Seen)
  {
    hide Describes;
  }

  /** Chains in flight share no descriptor and no buffer, and the free descriptors are the rest. */
  lemma ChainsApart(q: Queue, g: Flight, h: nat, k: nat)
    requires Inv(q, g) && h in g.reqs && k in g.reqs && h != k
    ensures var r, t := g.reqs[h], g.reqs[k];
      && h != t.d1 && h != t.d2 && r.d1 != k && r.d1 != t.d1 && r.d1 != t.d2 && r.d2 != k && r.d2 != t.d1
      && r.d2 != t.d2
      && r.b != t.b
    ensures Count(q.free) + 3 * |g.reqs| == NUM
  {
    hide Count, Describes, RingOk;
    assert ChainOk(q, g, h, g.reqs[h]) && ChainOk(q, g, k, g.reqs[k]);
  }

  /** The contents of free descriptors do not matter. */
  lemma FreeDescsDontMatter(q: Queue, g: Flight, q': Queue)
    requires Inv(q, g) && Shape(q') && q' == q.(desc := q'.desc)
    requires forall d :: 0 <= d < NUM && !q.free[d] ==> q'.desc[d] == q.desc[d]
    ensures Inv(q', g)
  {
    hide Count, RingOk;
    forall k | k in g.reqs ensures ChainOk(q', g, k, g.reqs[k]) {
      assert ChainOk(q, g, k, g.reqs[k]);
    }
  }

  /** The requests after the interrupt handler has dealt with everything reported. */
  function Acknowledged(reqs: map<nat, Req>): map<nat, Req> {
    map h | h in reqs :: if reqs[h].phase.Reported? then reqs[h].(phase := Seen) else reqs[h]
  }

  lemma NoticedReqs(q: Queue, g: Flight)
    requires Inv(q, g) && g.reported != []
    ensures g.reported[0] in g.reqs && Acknowledged(Noticed(g).reqs) == Acknowledged(g.reqs)
  {
    hide ChainsOk, RingOk;
    assert g.reported[0] in g.reported;
  }

  lemma AllNoticed(q: Queue, g: Flight)
    requires Inv(q, g) && g.reported == []
    ensures Acknowledged(g.reqs) == g.reqs
  {
    hide ChainsOk, RingOk;
    assert forall h :: h in g.reqs ==> h !in g.reported;
  }

  /** A buffer is marked exactly while its request has not been seen to complete. */
  lemma BusyMeans(q: Queue, g: Flight, b: nat)
    requires Inv(q, g)
    ensures b in g.bufs ==> g.bufs[b] in g.reqs && g.reqs[g.bufs[b]].b == b
    ensures b in q.busy <==> b in g.bufs && g.reqs[g.bufs[b]].phase != Seen
  {
    hide Count, RingOk, Describes;
    if b in g.bufs { assert ChainOk(q, g, g.bufs[b], g.reqs[g.bufs[b]]); }
  }
}
