/** The block driver of kernel/virtio_disk.c over the shared queue, and the device as an adversary
    that takes submitted chains in order and completes each once, in any order. Each method is a
    stretch of code under vdisk_lock, or one action of the device. */
module VirtioDisk {
  import opened VirtQueue

  class Disk {
    const free: array<bool>
    const desc: array<Desc>
    const info: array<Info>
    const ops: array<Op>
    const avail: array<nat>
    const used: array<nat>
    /** avail->idx, used->idx, the driver's used_idx, and the device's place in the avail ring. */
    var availIdx: nat
    var usedIdx: nat
    var seenIdx: nat
    var takenIdx: nat
    /** The buffers with b->disk == 1. */
    var busy: set<nat>
    ghost var g: Flight

    ghost function Q(): Queue
      reads this, free, desc, info, ops, avail, used
    {
      Queue(free[..], desc[..], info[..], ops[..], avail[..], availIdx, used[..], usedIdx, seenIdx, busy)
    }

    ghost predicate Fixed()
      reads this
    {
      && free.Length == NUM && desc.Length == NUM && info.Length == NUM && ops.Length == NUM
      && avail.Length == NUM && used.Length == NUM && avail != used
    }

    ghost predicate Valid()
      reads this, free, desc, info, ops, avail, used
    {
      Fixed() && Inv(Q(), g) && takenIdx == g.taken % WRAP
    }

    /** The queue as virtio_disk_init leaves it: zeroed memory, every descriptor free. */
    constructor ()
      ensures Valid() && Q() == FreshQueue() && g == NoFlight()
      ensures fresh(free) && fresh(desc) && fresh(info) && fresh(ops) && fresh(avail) && fresh(used)
    {
      free, desc := new bool[NUM](_ => true), new Desc[NUM](_ => Desc(Null, 0, 0, 0));
      info, ops := new Info[NUM](_ => Info(0, 0)), new Op[NUM](_ => Op(false, 0));
      avail := new nat[NUM](_ => 0);
      used := new nat[NUM](_ => 0);
      availIdx, usedIdx, seenIdx, takenIdx, busy := 0, 0, 0, 0, {};
      g := NoFlight();
      new;
      hide Inv;
      assert Q() == FreshQueue();
      FreshOk();
    }

    /** The first free descriptor, now marked allocated, or -1. */
    method AllocDesc() returns (i: int)
      requires free.Length == NUM
      modifies free
      ensures i < 0 ==> i == -1 && free[..] == old(free[..]) && forall k :: 0 <= k < NUM ==> !free[k]
      ensures i >= 0 ==> i < NUM && old(free[..])[i] && free[..] == old(free[..])[i := false]
    {
      for k := 0 to NUM
        invariant free[..] == old(free[..])
        invariant forall j :: 0 <= j < k ==> !free[j]
      {
        if free[k] {
          free[k] := false;
          return k;
        }
      }
      return -1;
    }

    /** free_desc; neither of its panics can be reached by a caller that meets the precondition. */
    method FreeDesc(i: nat)
      requires free.Length == NUM && desc.Length == NUM && i < NUM && !free[i]
      modifies free, desc
      ensures free[..] == old(free[..])[i := true] && desc[..] == old(desc[..])[i := Desc(Null, 0, 0, 0)]
    {
      desc[i] := Desc(Null, 0, 0, 0);
      free[i] := true;
    }

    /** Three free descriptors, or none at all: a failure gives back what it took. */
    method Alloc3Desc() returns (ok: bool, idx: seq<nat>)
      requires free.Length == NUM && desc.Length == NUM
      modifies free, desc
      ensures ok <==> Count(old(free[..])) >= 3
      ensures !ok ==> free[..] == old(free[..])
      ensures !ok ==> forall k :: 0 <= k < NUM && !free[k] ==> desc[k] == old(desc[k])
      ensures ok ==> |idx| == 3 && Distinct3(idx[0], idx[1], idx[2]) && desc[..] == old(desc[..])
      ensures ok ==> forall k :: 0 <= k < 3 ==> idx[k] < NUM && old(free[..])[idx[k]]
      ensures ok ==> free[..] == old(free[..])[idx[0] := false][idx[1] := false][idx[2] := false]
    {
      idx := [];
      for i := 0 to 3
        invariant |idx| == i && desc[..] == old(desc[..]) && Picked(old(free[..]), idx)
        invariant free[..] == Without(old(free[..]), idx)
      {
        ghost var now := free[..];
        var k := AllocDesc();
        if k < 0 {
          assert now == free[..];
          CountNone(now);
          PickCount(old(free[..]), idx);
          assert idx[0..] == idx;
          for j := 0 to i
            invariant free[..] == Without(old(free[..]), idx[j..])
            invariant forall d :: 0 <= d < NUM && !old(free[..])[d] ==> desc[d] == old(desc[..])[d]
          {
            PutBack(old(free[..]), idx, j);
            FreeDesc(idx[j]);
          }
          assert free[..] == old(free[..]);
          return false, idx;
        }
        PickOne(old(free[..]), idx, k);
        idx := idx + [k];
      }
      PickCount(old(free[..]), idx);
      PickThree(old(free[..]), idx);
      return true, idx;
    }

    /** The three descriptors of a request: command header, data, status byte. */
    method Format(h: nat, d1: nat, d2: nat, b: nat, op: Op)
      requires desc.Length == NUM && ops.Length == NUM && info.Length == NUM && h < NUM && d1 < NUM && d2 < NUM
      modifies desc, ops, info
      ensures ops[..] == old(ops[..])[h := op] && info[..] == old(info[..])[h := old(info[h]).(status := 0xff)]
      ensures desc[..] == old(desc[..])[h := Desc(Header(h), 16, F_NEXT, d1)]
        [d1 := Desc(Data(b), BSIZE, F_NEXT + (if op.write then 0 else F_WRITE), d2)]
        [d2 := Desc(Status(h), 1, F_WRITE, 0)]
    {
      ops[h] := op;
      desc[h] := Desc(Header(h), 16, F_NEXT, d1);
      desc[d1] := Desc(Data(b), BSIZE, F_NEXT + (if op.write then 0 else F_WRITE), d2);
      info[h] := info[h].(status := 0xff);
      desc[d2] := Desc(Status(h), 1, F_WRITE, 0);
    }

    /** The buffer is marked and recorded, and the chain's head goes into the avail ring. */
    method Publish(h: nat, b: nat)
      requires info.Length == NUM && avail.Length == NUM && h < NUM
      modifies `busy, `availIdx, info, avail
      ensures busy == old(busy) + {b} && info[..] == old(info[..])[h := old(info[h]).(b := b)]
      ensures avail[..] == old(avail[..])[old(availIdx) % NUM := h] && availIdx == (old(availIdx) + 1) % WRAP
    {
      busy := busy + {b};
      info[h] := info[h].(b := b);
      avail[availIdx % NUM] := h;
      availIdx := (availIdx + 1) % WRAP;
    }

    /** The first part of virtio_disk_rw: a request for buffer b is described by a chain of three
        descriptors and put in the avail ring; false if the caller must sleep and try again. */
    method Submit(b: nat, blockno: nat, write: bool) returns (ok: bool, h: nat, ghost d1: nat, ghost d2: nat)
      requires Valid() && b !in g.bufs
      modifies this, free, desc, info, ops, avail
      ensures Valid()
      ensures ok <==> Count(old(free[..])) >= 3
      ensures !ok ==> g == old(g) && free[..] == old(free[..]) && busy == old(busy)
      ensures ok ==>
                CanSubmit(old(Q()), old(g), h, d1, d2, b) && g == Launched(old(g), h, d1, d2, b, Op(write, 2 * blockno))
    {
      hide Inv, Count;
      ghost var q := Q();
      ShapeIs(q, g);
      var idx;
      ok, idx := Alloc3Desc();
      if !ok {
        FreeDescsDontMatter(q, g, Q());
        return false, 0, 0, 0;
      }
      h := idx[0];
      d1, d2 := idx[1], idx[2];
      var op := Op(write, blockno * (BSIZE / 512));
      assert CanSubmit(q, g, h, d1, d2, b);
      SubmitKeeps(q, g, h, d1, d2, b, op);
      Format(h, idx[1], idx[2], b, op);
      Publish(h, b);
      assert Q() == Submitted(q, h, d1, d2, b, op);
      g := Launched(g, h, d1, d2, b, op);
    }

    /** The device takes the next head from the avail ring: the oldest one submitted. */
    method DeviceTake() returns (h: nat)
      requires Valid() && takenIdx != availIdx
      modifies this
      ensures Valid() && Q() == old(Q()) && old(g.queued) != [] && h == old(g.queued[0]) && h in old(g.reqs)
      ensures g == Taken(old(g))
    {
      hide Inv;
      NotEmpty(Q(), g);
      TakeKeeps(Q(), g);
      h := avail[takenIdx % NUM];
      IndexWraps(g.taken);
      takenIdx := (takenIdx + 1) % WRAP;
      g := Taken(g);
    }

    /** The device reports a chain that it has taken and not reported before, with any status. */
    method DeviceComplete(h: nat, status: nat)
      requires Valid() && h in g.reqs && g.reqs[h].phase == Working
      modifies this, info, used
      ensures Valid() && g == Phased(old(g), h, Reported(status)).(reported := old(g.reported) + [h])
    {
      hide Inv;
      ghost var q := Q();
      ShapeIs(q, g);
      CompleteKeeps(q, g, h, status);
      info[h] := Info(info[h].b, status);
      used[usedIdx % NUM] := h;
      usedIdx := (usedIdx + 1) % WRAP;
      assert Q() == Completed(q, h, status);
      g := Phased(g, h, Reported(status)).(reported := g.reported + [h]);
    }

    /** virtio_disk_intr: every reported request is seen, and the mark of its buffer, and of no
        other, is cleared; unless the device reported a failure, on which the handler panics. */
    method Intr() returns (panics: bool)
      requires Valid()
      modifies this
      ensures Valid()
      ensures panics <==> exists k :: 0 <= k < |old(g.reported)| && Failed(old(g), old(g.reported)[k])
      ensures !panics ==> g == old(g).(reqs := Acknowledged(old(g.reqs)), reported := [], seen := g.seen)
      ensures !panics ==> forall b :: b in busy <==> b in old(busy) && !IsReported(old(g), b)
    {
      hide Inv, Failed;
      ghost var g0, k := g, 0;
      while seenIdx != usedIdx
        invariant Valid() && Acknowledged(g.reqs) == Acknowledged(g0.reqs)
        invariant k <= |g0.reported| && g == g0.(reqs := g.reqs, reported := g0.reported[k..], seen := g.seen)
        invariant forall j :: 0 <= j < k ==> !Failed(g0, g0.reported[j])
        invariant forall j :: k <= j < |g0.reported| ==> Failed(g, g0.reported[j]) == Failed(g0, g0.reported[j])
        decreases |g.reported|
      {
        NotEmpty(Q(), g);
        NoticeKeeps(Q(), g);
        NoticedReqs(Q(), g);
        var id := used[seenIdx % NUM];
        FailedMeans(g, id);
        if info[id].status != 0 {
          return true;
        }
        forall j | k < j < |g0.reported| ensures Failed(Noticed(g), g0.reported[j]) == Failed(g, g0.reported[j]) {
          assert g0.reported[j] == g.reported[j - k];
          NoticedOther(Q(), g, j - k);
        }
        busy := busy - {info[id].b};
        seenIdx := (seenIdx + 1) % WRAP;
        g := Noticed(g);
        k := k + 1;
      }
      NotEmpty(Q(), g);
      AllNoticed(Q(), g);
      forall b: nat ensures b in busy <==> b in old(busy) && !IsReported(g0, b) {
        BusyMeans(Q(), g, b);
        BusyMeans(old(Q()), g0, b);
      }
      return false;
    }

    /** free_chain on a well-formed chain of three. */
    method FreeChain(h: nat, ghost r: Req)
      requires Fixed() && h < NUM && r.d1 < NUM && r.d2 < NUM && Distinct3(h, r.d1, r.d2)
      requires !free[h] && !free[r.d1] && !free[r.d2] && Describes(Q(), h, r)
      modifies free, desc
      ensures free[..] == old(free[..])[h := true][r.d1 := true][r.d2 := true]
      ensures var none := Desc(Null, 0, 0, 0); desc[..] == old(desc[..])[h := none][r.d1 := none][r.d2 := none]
    {
      var i := h;
      ghost var n := 0;
      ghost var none := Desc(Null, 0, 0, 0);
      while true
        invariant n <= 2 && i == (if n == 0 then h else if n == 1 then r.d1 else r.d2)
        invariant free[..] == (if n == 0 then old(free[..]) else if n == 1 then old(free[..])[h := true]
                    else old(free[..])[h := true][r.d1 := true])
        invariant desc[..] == (if n == 0 then old(desc[..]) else if n == 1 then old(desc[..])[h := none]
                    else old(desc[..])[h := none][r.d1 := none])
        decreases 2 - n
      {
        var flag, nxt := desc[..][i].flags, desc[..][i].next;
        assert !free[..][i];
        FreeDesc(i);
        if flag % 2 == 1 {
          i, n := nxt, n + 1;
        } else {
          break;
        }
      }
    }

    /** The last part of virtio_disk_rw, once b->disk is clear: the chain is freed. */
    method Finish(b: nat, h: nat)
      requires Valid() && b in g.bufs && h == g.bufs[b] && b !in busy
      modifies this, free, desc, info
      ensures h in old(g.reqs) && Valid() && g == Landed(old(g), h)
      ensures Count(free[..]) == Count(old(free[..])) + 3
    {
      hide Inv, Count;
      ghost var q := Q();
      ShapeIs(q, g);
      BusyMeans(q, g, b);
      ghost var r := g.reqs[h];
      ReleaseKeeps(q, g, h);
      SeenChain(q, g, h);
      info[h] := info[h].(b := 0);
      FreeChain(h, r);
      assert Q() == Released(q, h, r.d1, r.d2);
      g := Landed(g, h);
    }
  }

  /** Buffer b belongs to a request reported and not yet seen. */
  predicate IsReported(g: Flight, b: nat) {
    b in g.bufs && g.bufs[b] in g.reqs && g.reqs[g.bufs[b]].phase.Reported?
  }

  /** The device reported request h with a status other than success. */
  predicate Failed(g: Flight, h: nat) {
    h in g.reqs && g.reqs[h].phase.Reported? && g.reqs[h].phase.status != 0
  }

  lemma FailedMeans(g: Flight, h: nat)
    requires h in g.reqs && g.reqs[h].phase.Reported?
    ensures Failed(g, h) <==> g.reqs[h].phase.status != 0
  {}

  lemma NoticedOther(q: Queue, g: Flight, i: nat)
    requires Inv(q, g) && 0 < i < |g.reported|
    ensures g.reported[0] in g.reqs && Failed(Noticed(g), g.reported[i]) == Failed(g, g.reported[i])
  {
    hide ChainsOk;
    assert g.reported[0] in g.reported && g.reported[0] != g.reported[i];
  }

  lemma SeenChain(q: Queue, g: Flight, h: nat)
    requires Inv(q, g) && h in g.reqs
    ensures var r := g.reqs[h];
      && h < NUM && r.d1 < NUM && r.d2 < NUM && Distinct3(h, r.d1, r.d2) && Describes(q, h, r)
      && !q.free[h] && !q.free[r.d1] && !q.free[r.d2]
      && Count(q.free[h := true][r.d1 := true][r.d2 := true]) == Count(q.free) + 3
  {
    hide Count, RingOk;
    assert ChainOk(q, g, h, g.reqs[h]);
    FreeCount(q.free, g.own, h, g.reqs[h].d1, g.reqs[h].d2);
  }

  lemma ShapeIs(q: Queue, g: Flight)
    requires Inv(q, g)
    ensures Shape(q)
  {}

  lemma NotEmpty(q: Queue, g: Flight)
    requires Inv(q, g)
    ensures g.taken % WRAP == q.availIdx <==> g.queued == []
    ensures q.seenIdx == q.usedIdx <==> g.reported == []
  {
    NeverFull(q, g);
    hide ChainsOk;
    RingEmpty(q.avail, q.availIdx, g.taken, g.queued);
    RingEmpty(q.used, q.usedIdx, g.seen, g.reported);
  }

  predicate Distinct3(a: nat, b: nat, c: nat) { a != b && a != c && b != c }

  /** The free marks with the descriptors in idx taken out. */
  ghost function Without(free: seq<bool>, idx: seq<nat>): (r: seq<bool>)
    ensures |r| == |free|
  {
    seq(|free|, k requires 0 <= k < |free| => free[k] && k !in idx)
  }

  /** idx are different descriptors that were free. */
  ghost predicate Picked(free: seq<bool>, idx: seq<nat>) {
    && (forall i :: 0 <= i < |idx| ==> idx[i] < |free| && free[idx[i]])
    && (forall i, j :: 0 <= i < j < |idx| ==> idx[i] != idx[j])
  }

  lemma PickOne(free: seq<bool>, idx: seq<nat>, k: nat)
    requires Picked(free, idx) && k < |free| && Without(free, idx)[k]
    ensures Picked(free, idx + [k]) && Without(free, idx)[k := false] == Without(free, idx + [k])
  {}

  lemma {:induction false} PickCount(free: seq<bool>, idx: seq<nat>)
    requires Picked(free, idx)
    ensures Count(Without(free, idx)) + |idx| == Count(free)
  {
    hide Count;
    if idx == [] {
      assert Without(free, idx) == free;
    } else {
      var rest, k := idx[..|idx| - 1], idx[|idx| - 1];
      assert idx == rest + [k];
      PickCount(free, rest);
      PickOne(free, rest, k);
      CountSet(Without(free, rest), k, false);
    }
  }

  lemma PutBack(free: seq<bool>, idx: seq<nat>, j: nat)
    requires Picked(free, idx) && j < |idx|
    ensures !Without(free, idx[j..])[idx[j]] && Without(free, idx[j..])[idx[j] := true] == Without(free, idx[j + 1..])
  {
    var a, b := Without(free, idx[j..])[idx[j] := true], Without(free, idx[j + 1..]);
    assert idx[j] in idx[j..];
    assert idx[j..] == [idx[j]] + idx[j + 1..];
    forall k | 0 <= k < |free| ensures a[k] == b[k] {
      assert k in idx[j..] <==> k == idx[j] || k in idx[j + 1..];
      if k == idx[j] { assert k !in idx[j + 1..]; }
    }
  }

  lemma PickThree(free: seq<bool>, idx: seq<nat>)
    requires Picked(free, idx) && |idx| == 3
    ensures Distinct3(idx[0], idx[1], idx[2])
    ensures Without(free, idx) == free[idx[0] := false][idx[1] := false][idx[2] := false]
  {
    assert idx == [idx[0], idx[1], idx[2]];
  }
}
