/** The LRU list of kernel/bio.c: buffers linked in a circle through a list head. */
module BufferRing {
  import opened Blocks

  const NBUF: nat := 30
  /** The list head, kept as one more entry of the buffer table. */
  const HEAD: nat := NBUF

  datatype Buf = Buf(valid: bool, dev: nat, blockno: nat, refcnt: nat, prev: nat, next: nat, data: Block)

  /** Entry k of the circle: the head at both ends, the buffers in between. */
  function At(order: seq<nat>, k: nat): nat { if 1 <= k <= |order| then order[k - 1] else HEAD }

  ghost predicate Distinct(order: seq<nat>) {
    && (forall k :: 0 <= k < |order| ==> order[k] < NBUF)
    && (forall j, k :: 0 <= j < k < |order| ==> order[j] != order[k])
  }

  /** Following next from the head visits exactly `order`, and prev runs it backwards. */
  ghost predicate Ring(s: seq<Buf>, order: seq<nat>) {
    && |s| == NBUF + 1 && Distinct(order)
    && forall k :: 0 <= k <= |order| ==> Link(s, order, k)
  }

  ghost predicate Link(s: seq<Buf>, order: seq<nat>, k: nat)
    requires |s| == NBUF + 1 && Distinct(order) && k <= |order|
  {
    s[At(order, k)].next == At(order, k + 1) && s[At(order, k + 1)].prev == At(order, k)
  }

  function SetPrev(s: seq<Buf>, i: nat, x: nat): (r: seq<Buf>)
    requires i < |s|
    ensures |r| == |s| && (forall j :: 0 <= j < |s| && j != i ==> r[j] == s[j])
    ensures r[i] == Buf(s[i].valid, s[i].dev, s[i].blockno, s[i].refcnt, x, s[i].next, s[i].data)
  {
    s[i := s[i].(prev := x)]
  }

  function SetNext(s: seq<Buf>, i: nat, x: nat): (r: seq<Buf>)
    requires i < |s|
    ensures |r| == |s| && (forall j :: 0 <= j < |s| && j != i ==> r[j] == s[j])
    ensures r[i] == Buf(s[i].valid, s[i].dev, s[i].blockno, s[i].refcnt, s[i].prev, x, s[i].data)
  {
    s[i := s[i].(next := x)]
  }

  /** b->next->prev = b->prev; b->prev->next = b->next; */
  function Unlink(s: seq<Buf>, b: nat): seq<Buf>
    requires b < |s| && s[b].next < |s| && s[b].prev < |s|
  {
    var t := SetPrev(s, s[b].next, s[b].prev);
    if t[b].prev < |t| then SetNext(t, t[b].prev, t[b].next) else t
  }

  /** b->next = head.next; b->prev = &head; head.next->prev = b; head.next = b; */
  function PushFront(s: seq<Buf>, b: nat): seq<Buf>
    requires b < |s| == NBUF + 1 && s[HEAD].next < |s|
  {
    var t := SetPrev(SetNext(s, b, s[HEAD].next), b, HEAD);
    SetNext(SetPrev(t, if t[HEAD].next < |t| then t[HEAD].next else HEAD, b), HEAD, b)
  }

  function Without(order: seq<nat>, j: nat): seq<nat>
    requires j < |order|
  {
    order[..j] + order[j + 1..]
  }

  lemma RingBounds(s: seq<Buf>, order: seq<nat>, j: nat)
    requires Ring(s, order) && j < |order|
    ensures order[j] < NBUF && s[order[j]].prev == At(order, j) && s[order[j]].next == At(order, j + 2)
    ensures s[order[j]].prev < |s| && s[order[j]].next < |s|
  {
    assert Link(s, order, j) && Link(s, order, j + 1);
    assert At(order, j + 1) == order[j];
  }

  lemma UnlinkRing(s: seq<Buf>, order: seq<nat>, j: nat)
    requires Ring(s, order) && j < |order|
    ensures order[j] < NBUF && s[order[j]].next < |s| && s[order[j]].prev < |s|
    ensures Ring(Unlink(s, order[j]), Without(order, j))
  {
    RingBounds(s, order, j);
    var b, o, t := order[j], Without(order, j), Unlink(s, order[j]);
    forall k | 0 <= k <= |o| ensures Link(t, o, k) {
      if k < j {
        assert Link(s, order, k);
      } else if k == j {
        assert At(o, j) == At(order, j) && At(o, j + 1) == At(order, j + 2);
      } else {
        assert Link(s, order, k + 1);
        assert At(o, k) == At(order, k + 1) && At(o, k + 1) == At(order, k + 2);
      }
    }
  }

  lemma PushFrontRing(s: seq<Buf>, order: seq<nat>, b: nat)
    requires Ring(s, order) && b < NBUF && b !in order
    ensures |s| == NBUF + 1 && s[HEAD].next < |s| && Ring(PushFront(s, b), [b] + order)
  {
    assert Link(s, order, 0);
    var o := [b] + order;
    var t := PushFront(s, b);
    forall k | 0 <= k <= |o| ensures Link(t, o, k) {
      if k >= 2 {
        assert Link(s, order, k - 1);
      } else {
        assert At(o, 1) == b && At(o, 2) == At(order, 1);
      }
    }
  }
}
