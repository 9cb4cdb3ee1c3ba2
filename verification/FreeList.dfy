/** The circular, address-ordered free list of user/umalloc.c (section 8.7 of The C
    Programming Language, second edition), and the blocks that tile the heap.
    Addresses and sizes are in units of one header. */
module FreeList {

  /** Every unit of the arena lies in exactly one block. */
  ghost predicate Tiled(arena: set<nat>, blocks: map<nat, nat>) {
    Within(arena, blocks) && Apart(blocks) && Covers(arena, blocks)
  }

  ghost predicate Within(arena: set<nat>, blocks: map<nat, nat>) {
    forall a: nat, u: nat :: a in blocks && Inside(blocks, a, u) ==> u in arena
  }

  ghost predicate Apart(blocks: map<nat, nat>) {
    && (forall a :: a in blocks ==> blocks[a] > 0)
    && (forall a, b :: a in blocks && b in blocks && a < b ==> a + blocks[a] <= b)
  }

  ghost predicate Covers(arena: set<nat>, blocks: map<nat, nat>) {
    forall u: nat :: u in arena ==> exists a: nat :: a in blocks && Inside(blocks, a, u)
  }

  predicate Inside(blocks: map<nat, nat>, a: nat, u: nat)
    requires a in blocks
  {
    a <= u < a + blocks[a]
  }

  function After(cyc: seq<nat>, i: nat): nat
    requires i < |cyc|
  {
    if i + 1 < |cyc| then cyc[i + 1] else cyc[0]
  }

  ghost predicate Sorted(cyc: seq<nat>) {
    forall i, j :: 0 <= i < j < |cyc| ==> cyc[i] < cyc[j]
  }

  /** Following ptr from the base header visits `cyc`, in increasing address order. */
  ghost predicate Ring(base: nat, ptr: map<nat, nat>, cyc: seq<nat>) {
    && |cyc| > 0 && cyc[0] == base && Sorted(cyc)
    && (forall i :: 0 <= i < |cyc| ==> LinkAt(ptr, cyc, i))
  }

  predicate LinkAt(ptr: map<nat, nat>, cyc: seq<nat>, i: nat)
    requires i < |cyc|
  {
    cyc[i] in ptr && ptr[cyc[i]] == After(cyc, i)
  }

  ghost predicate Listed(cyc: seq<nat>, blocks: map<nat, nat>) {
    forall i :: 1 <= i < |cyc| ==> cyc[i] in blocks
  }

  /** Entry i, not the base, does not touch entry i + 1. */
  predicate GapAt(cyc: seq<nat>, blocks: map<nat, nat>, i: nat)
    requires 1 <= i < |cyc| - 1 && cyc[i] in blocks
  {
    cyc[i] + blocks[cyc[i]] != cyc[i + 1]
  }

  ghost predicate Sized(base: nat, size: map<nat, nat>, blocks: map<nat, nat>) {
    && base in size && size[base] == 0
    && forall a :: a in blocks ==> a in size && size[a] == blocks[a]
  }

  datatype View = View(ptr: map<nat, nat>, size: map<nat, nat>, cyc: seq<nat>, blocks: map<nat, nat>, arena: set<nat>)

  ghost predicate Loose(base: nat, v: View) {
    && Ring(base, v.ptr, v.cyc) && Listed(v.cyc, v.blocks) && Sized(base, v.size, v.blocks) && Tiled(v.arena, v.blocks)
    && (forall a :: a in v.blocks ==> base < a)
  }

  /** The heap invariant: the free list is one address-ordered ring, no two free blocks touch, and
      the free and the handed-out blocks together tile the arena. */
  ghost predicate HeapOk(base: nat, v: View) {
    Loose(base, v) && forall i :: 1 <= i < |v.cyc| - 1 ==> GapAt(v.cyc, v.blocks, i)
  }

  /** The blocks handed out and not freed. */
  ghost function Live(cyc: seq<nat>, blocks: map<nat, nat>): map<nat, nat> {
    map a | a in blocks && a !in cyc :: blocks[a]
  }

  lemma LiveMeans(cyc: seq<nat>, blocks: map<nat, nat>, a: nat)
    requires a in Live(cyc, blocks)
    ensures a in blocks && a !in cyc && Live(cyc, blocks)[a] == blocks[a]
  {}

  // Splitting, merging and adding blocks.

  function Merged(blocks: map<nat, nat>, a: nat, b: nat): map<nat, nat>
    requires a in blocks && b in blocks
  {
    map c | c in blocks && c != b :: if c == a then blocks[a] + blocks[b] else blocks[c]
  }

  lemma MergeTiled(arena: set<nat>, blocks: map<nat, nat>, a: nat, b: nat)
    requires Tiled(arena, blocks) && a in blocks && b in blocks && a + blocks[a] == b
    ensures Tiled(arena, Merged(blocks, a, b))
  {
    var m := Merged(blocks, a, b);
    assert Covers(arena, m) by {
      forall u: nat | u in arena ensures exists c: nat :: c in m && Inside(m, c, u) {
        var c: nat :| c in blocks && Inside(blocks, c, u);
        assert Inside(m, if c == b then a else c, u);
      }
    }
    assert Within(arena, m) by {
      forall c: nat, u: nat | c in m && Inside(m, c, u) ensures u in arena {
        assert Inside(blocks, if c == a && u >= b then b else c, u);
      }
    }
  }

  /** The upper n units of block a become a block of their own. */
  function Split(blocks: map<nat, nat>, a: nat, n: nat): map<nat, nat>
    requires a in blocks && n < blocks[a]
  {
    blocks[a := blocks[a] - n][a + blocks[a] - n := n]
  }

  lemma SplitTiled(arena: set<nat>, blocks: map<nat, nat>, a: nat, n: nat)
    requires Tiled(arena, blocks) && a in blocks && 0 < n < blocks[a]
    ensures a + blocks[a] - n !in blocks && Tiled(arena, Split(blocks, a, n))
  {
    var m, h: nat := Split(blocks, a, n), a + blocks[a] - n;
    assert h !in blocks;
    assert Covers(arena, m) by {
      forall u: nat | u in arena ensures exists c: nat :: c in m && Inside(m, c, u) {
        var c: nat :| c in blocks && Inside(blocks, c, u);
        assert Inside(m, if c == a && u >= h then h else c, u);
      }
    }
    assert Within(arena, m) by {
      forall c: nat, u: nat | c in m && Inside(m, c, u) ensures u in arena {
        assert Inside(blocks, if c == h then a else c, u);
      }
    }
  }

  lemma AddTiled(arena: set<nat>, blocks: map<nat, nat>, p: nat, n: nat, more: set<nat>)
    requires Tiled(arena, blocks) && n > 0 && (forall u: nat :: u in more <==> p <= u < p + n)
    requires forall a :: a in blocks ==> a + blocks[a] <= p
    ensures Tiled(arena + more, blocks[p := n])
  {
    var m := blocks[p := n];
    assert Covers(arena + more, m) by {
      forall u: nat | u in arena + more ensures exists c: nat :: c in m && Inside(m, c, u) {
        if u in more {
          assert Inside(m, p, u);
        } else {
          var c: nat :| c in blocks && Inside(blocks, c, u);
          assert Inside(m, c, u);
        }
      }
    }
    assert Within(arena + more, m) by {
      forall c: nat, u: nat | c in m && Inside(m, c, u) ensures u in arena + more {
        if c != p { assert Inside(blocks, c, u); }
      }
    }
  }

  // Where free puts a block.

  /** bp belongs between entry t of the list and the one after it. */
  ghost predicate Spot(cyc: seq<nat>, t: nat, bp: nat) {
    t < |cyc| && cyc[t] < bp && (t + 1 < |cyc| ==> bp < cyc[t + 1])
  }

  lemma {:induction false} SpotExists(cyc: seq<nat>, n: nat, bp: nat) returns (t: nat)
    requires 0 < n <= |cyc| && cyc[0] < bp && bp !in cyc
    requires n < |cyc| ==> bp < cyc[n]
    ensures Spot(cyc, t, bp)
  {
    t := n - 1;
    if cyc[t] > bp { t := SpotExists(cyc, n - 1, bp); }
  }

  function Insert(cyc: seq<nat>, t: nat, bp: nat): seq<nat>
    requires t < |cyc|
  {
    cyc[..t + 1] + [bp] + cyc[t + 1..]
  }

  function Remove(cyc: seq<nat>, j: nat): seq<nat>
    requires j < |cyc|
  {
    cyc[..j] + cyc[j + 1..]
  }

  lemma InsertRing(base: nat, ptr: map<nat, nat>, cyc: seq<nat>, t: nat, bp: nat)
    requires Ring(base, ptr, cyc) && Spot(cyc, t, bp)
    ensures Ring(base, ptr[bp := After(cyc, t)][cyc[t] := bp], Insert(cyc, t, bp))
  {
    var c, m := Insert(cyc, t, bp), ptr[bp := After(cyc, t)][cyc[t] := bp];
    InsertSorted(cyc, t, bp);
    forall i | 0 <= i < |c| ensures LinkAt(m, c, i) {
      hide Sorted;
      if i <= t { assert LinkAt(ptr, cyc, i); }
      if i > t + 1 { assert LinkAt(ptr, cyc, i - 1); }
      Increases(cyc, if i <= t then i else if i == t + 1 then 0 else i - 1, t);
    }
  }

  lemma InsertSorted(cyc: seq<nat>, t: nat, bp: nat)
    requires Sorted(cyc) && Spot(cyc, t, bp)
    ensures Sorted(Insert(cyc, t, bp)) && bp !in cyc
  {
    var c := Insert(cyc, t, bp);
    assert forall i :: 0 <= i < |c| ==> c[i] == if i <= t then cyc[i] else if i == t + 1 then bp else cyc[i - 1];
    assert forall i :: t < i < |cyc| ==> cyc[t + 1] <= cyc[i];
  }

  lemma Increases(cyc: seq<nat>, i: nat, j: nat)
    requires Sorted(cyc) && i < |cyc| && j < |cyc|
    ensures cyc[i] == cyc[j] <==> i == j
    ensures cyc[i] < cyc[j] <==> i < j
  {}

  lemma RemoveRing(base: nat, ptr: map<nat, nat>, cyc: seq<nat>, j: nat)
    requires Ring(base, ptr, cyc) && 0 < j < |cyc|
    ensures Ring(base, ptr[cyc[j - 1] := After(cyc, j)], Remove(cyc, j))
  {
    var c, m := Remove(cyc, j), ptr[cyc[j - 1] := After(cyc, j)];
    assert Sorted(c) by {
      assert forall i :: 0 <= i < |c| ==> c[i] == if i < j then cyc[i] else cyc[i + 1];
    }
    forall i | 0 <= i < |c| ensures LinkAt(m, c, i) {
      hide Sorted;
      assert LinkAt(ptr, cyc, if i < j then i else i + 1);
      Increases(cyc, if i < j then i else i + 1, j - 1);
    }
  }

  lemma InsertGaps(cyc: seq<nat>, blocks: map<nat, nat>, t: nat, bp: nat)
    requires Listed(cyc, blocks) && t < |cyc| && bp in blocks
    ensures var c := Insert(cyc, t, bp);
      Listed(c, blocks) && forall i :: 1 <= i < |c| - 1 && i != t && i != t + 1 ==>
        (GapAt(c, blocks, i) <==> GapAt(cyc, blocks, if i < t then i else i - 1))
  {
    var c := Insert(cyc, t, bp);
    assert forall i :: 0 <= i < |c| ==> c[i] == if i <= t then cyc[i] else if i == t + 1 then bp else cyc[i - 1];
  }

  /** Merging entry j into entry j - 1, which it touches. */
  lemma MergeGaps(cyc: seq<nat>, blocks: map<nat, nat>, j: nat)
    requires Listed(cyc, blocks) && 1 < j < |cyc| && !GapAt(cyc, blocks, j - 1) && Sorted(cyc)
    ensures var c, b := Remove(cyc, j), Merged(blocks, cyc[j - 1], cyc[j]);
      Listed(c, b) && forall i :: 1 <= i < |c| - 1 ==>
        (GapAt(c, b, i) <==> GapAt(cyc, blocks, if i < j - 1 then i else i + 1))
  {
    var c := Remove(cyc, j);
    assert forall i :: 0 <= i < |c| ==> c[i] == if i < j then cyc[i] else cyc[i + 1];
  }

  /** bp enters the list after entry t. */
  function Inserted(v: View, t: nat, bp: nat): View
    requires t < |v.cyc|
  {
    v.(ptr := v.ptr[bp := After(v.cyc, t)][v.cyc[t] := bp], cyc := Insert(v.cyc, t, bp))
  }

  lemma InsertOk(base: nat, v: View, t: nat, bp: nat)
    requires HeapOk(base, v) && Spot(v.cyc, t, bp) && bp in v.blocks
    ensures var w := Inserted(v, t, bp);
      && Loose(base, w) && Live(w.cyc, w.blocks) == Live(v.cyc, v.blocks) - {bp}
      && forall i :: 1 <= i < |w.cyc| - 1 && i != t && i != t + 1 ==> GapAt(w.cyc, w.blocks, i)
  {
    InsertRing(base, v.ptr, v.cyc, t, bp);
    InsertGaps(v.cyc, v.blocks, t, bp);
    assert forall a :: a in Insert(v.cyc, t, bp) <==> a in v.cyc || a == bp;
  }

  /** Entry j is merged into entry j - 1, which it touches. */
  function Absorbed(v: View, j: nat): View
    requires 0 < j < |v.cyc| && v.cyc[j - 1] in v.blocks && v.cyc[j] in v.blocks
  {
    var a, b := v.cyc[j - 1], v.cyc[j];
    View(v.ptr[a := After(v.cyc, j)], v.size[a := v.blocks[a] + v.blocks[b]],
         Remove(v.cyc, j), Merged(v.blocks, a, b), v.arena)
  }

  lemma AbsorbOk(base: nat, v: View, j: nat)
    requires Loose(base, v) && 1 < j < |v.cyc| && !GapAt(v.cyc, v.blocks, j - 1)
    ensures var w := Absorbed(v, j);
      && Loose(base, w) && Live(w.cyc, w.blocks) == Live(v.cyc, v.blocks)
      && forall i :: 1 <= i < |w.cyc| - 1 ==>
        (GapAt(w.cyc, w.blocks, i) <==> GapAt(v.cyc, v.blocks, if i < j - 1 then i else i + 1))
  {
    RemoveRing(base, v.ptr, v.cyc, j);
    MergeGaps(v.cyc, v.blocks, j);
    MergeTiled(v.arena, v.blocks, v.cyc[j - 1], v.cyc[j]);
    RemoveMembers(v.cyc, j);
  }

  lemma RemoveMembers(cyc: seq<nat>, j: nat)
    requires Sorted(cyc) && j < |cyc|
    ensures forall a :: a in Remove(cyc, j) <==> a in cyc && a != cyc[j]
  {
    var c := Remove(cyc, j);
    forall a | a in cyc && a != cyc[j] ensures a in c {
      var i :| 0 <= i < |cyc| && cyc[i] == a;
      assert c[if i < j then i else i - 1] == a;
    }
    assert forall i :: 0 <= i < |c| ==> c[i] == if i < j then cyc[i] else cyc[i + 1];
  }

  /** Entry j leaves the list whole. */
  function Taken(v: View, j: nat): View
    requires 0 < j < |v.cyc|
  {
    v.(ptr := v.ptr[v.cyc[j - 1] := After(v.cyc, j)], cyc := Remove(v.cyc, j))
  }

  lemma TakeGaps(base: nat, v: View, j: nat)
    requires HeapOk(base, v) && 0 < j < |v.cyc|
    ensures var c := Remove(v.cyc, j); Listed(c, v.blocks) && forall i :: 1 <= i < |c| - 1 ==> GapAt(c, v.blocks, i)
  {
    hide Within, Covers, LinkAt;
    var c := Remove(v.cyc, j);
    assert forall i :: 0 <= i < |c| ==> c[i] == if i < j then v.cyc[i] else v.cyc[i + 1];
    forall i | 1 <= i < |c| - 1 ensures GapAt(c, v.blocks, i) {
      if i != j - 1 {
        assert GapAt(v.cyc, v.blocks, if i < j then i else i + 1);
      } else {
        assert v.cyc[i] + v.blocks[v.cyc[i]] <= v.cyc[j] < v.cyc[j + 1];
      }
    }
  }

  lemma TakeOk(base: nat, v: View, j: nat)
    requires HeapOk(base, v) && 0 < j < |v.cyc|
    ensures var w, h := Taken(v, j), v.cyc[j];
      HeapOk(base, w) && Live(w.cyc, w.blocks) == Live(v.cyc, v.blocks)[h := v.blocks[h]] && h !in Live(v.cyc, v.blocks)
  {
    hide GapAt, Sorted, Within, Covers, LinkAt, Apart, Remove;
    RemoveRing(base, v.ptr, v.cyc, j);
    RemoveMembers(v.cyc, j);
    TakeGaps(base, v, j);
  }

  /** The upper n units of entry j are cut off. */
  function Cut(v: View, j: nat, n: nat): View
    requires j < |v.cyc| && v.cyc[j] in v.blocks && n < v.blocks[v.cyc[j]]
  {
    var a := v.cyc[j];
    var rest := v.blocks[a] - n;
    v.(size := v.size[a := rest][a + rest := n], blocks := Split(v.blocks, a, n))
  }

  lemma CutGaps(base: nat, v: View, j: nat, n: nat)
    requires HeapOk(base, v) && 0 < j < |v.cyc| && 0 < n < v.blocks[v.cyc[j]]
    ensures var w, h := Cut(v, j, n), v.cyc[j] + v.blocks[v.cyc[j]] - n;
      && Listed(w.cyc, w.blocks) && h !in v.cyc && h !in v.blocks
      && forall i :: 1 <= i < |w.cyc| - 1 ==> GapAt(w.cyc, w.blocks, i)
  {
    hide Within, Covers, LinkAt;
    var w := Cut(v, j, n);
    assert v.cyc[j] + v.blocks[v.cyc[j]] - n !in v.blocks;
    forall i | 1 <= i < |w.cyc| - 1 ensures GapAt(w.cyc, w.blocks, i) {
      assert GapAt(v.cyc, v.blocks, i);
    }
  }

  lemma CutOk(base: nat, v: View, j: nat, n: nat)
    requires HeapOk(base, v) && 0 < j < |v.cyc| && 0 < n < v.blocks[v.cyc[j]]
    ensures var w, h := Cut(v, j, n), v.cyc[j] + v.blocks[v.cyc[j]] - n;
      HeapOk(base, w) && Live(w.cyc, w.blocks) == Live(v.cyc, v.blocks)[h := n] && h !in Live(v.cyc, v.blocks)
  {
    hide GapAt, Sorted, Within, Covers, LinkAt, Apart;
    CutGaps(base, v, j, n);
    SplitTiled(v.arena, v.blocks, v.cyc[j], n);
    assert forall a :: a in v.cyc ==> a != v.cyc[j] + v.blocks[v.cyc[j]] - n;
  }

  ghost predicate TouchesNext(v: View, t: nat, bp: nat) {
    t + 1 < |v.cyc| && bp in v.blocks && bp + v.blocks[bp] == v.cyc[t + 1]
  }

  ghost predicate TouchesPrevious(v: View, t: nat, bp: nat) {
    0 < t < |v.cyc| && v.cyc[t] in v.blocks && v.cyc[t] + v.blocks[v.cyc[t]] == bp
  }

  ghost predicate Holds(v: View, i: nat, a: nat, n: nat) {
    1 <= i < |v.cyc| && v.cyc[i] in v.blocks && v.cyc[i] <= a && a + n <= v.cyc[i] + v.blocks[v.cyc[i]]
  }

  /** Units a to a + n lie in one free block. */
  ghost predicate HasFree(v: View, a: nat, n: nat) {
    exists i :: Holds(v, i, a, n)
  }

  /** bp is listed after entry t and merged with the block above, if they touch. */
  ghost function Listing(base: nat, v: View, t: nat, bp: nat): (w: View)
    requires HeapOk(base, v) && Spot(v.cyc, t, bp) && bp in v.blocks
    ensures |w.cyc| > t + 1 && w.cyc[t] == v.cyc[t] && w.cyc[t + 1] == bp && bp in w.blocks
    ensures t > 0 ==> w.cyc[t] in w.blocks && w.blocks[w.cyc[t]] == v.blocks[v.cyc[t]]
  {
    InsertOk(base, v, t, bp);
    var w := Inserted(v, t, bp);
    if TouchesNext(v, t, bp) then Absorbed(w, t + 2) else w
  }

  /** What free makes of the heap: bp is listed, then merged with the neighbours it touches. */
  ghost function Freed(base: nat, v: View, t: nat, bp: nat): (w: View)
    requires HeapOk(base, v) && Spot(v.cyc, t, bp) && bp in v.blocks
    ensures |w.cyc| > t && w.cyc[t] == v.cyc[t]
  {
    var w := Listing(base, v, t, bp);
    if TouchesPrevious(v, t, bp) then Absorbed(w, t + 1) else w
  }

  lemma ListingOk(base: nat, v: View, t: nat, bp: nat)
    requires HeapOk(base, v) && Spot(v.cyc, t, bp) && bp in v.blocks
    ensures var w := Listing(base, v, t, bp);
      && Loose(base, w) && w.arena == v.arena && Live(w.cyc, w.blocks) == Live(v.cyc, v.blocks) - {bp}
      && w.blocks[bp] >= v.blocks[bp]
      && forall i :: 1 <= i < |w.cyc| - 1 && i != t ==> GapAt(w.cyc, w.blocks, i)
  {
    hide Ring, Tiled, Sized, Live;
    var w := Inserted(v, t, bp);
    InsertOk(base, v, t, bp);
    ListingTouch(v, t, bp);
    if TouchesNext(v, t, bp) {
      hide GapAt;
      AbsorbOk(base, w, t + 2);
      assert Absorbed(w, t + 2).blocks[bp] == v.blocks[bp] + v.blocks[v.cyc[t + 1]];
    }
  }

  lemma ListingTouch(v: View, t: nat, bp: nat)
    requires Listed(v.cyc, v.blocks) && t < |v.cyc| && bp in v.blocks
    ensures var w := Inserted(v, t, bp);
      && w.cyc[t + 1] == bp && (t + 1 < |v.cyc| ==> w.cyc[t + 2] == v.cyc[t + 1])
      && (TouchesNext(v, t, bp) <==> t + 2 < |w.cyc| && !GapAt(w.cyc, w.blocks, t + 1))
  {}

  /** The free blocks after a free are again apart, and one of them holds all of bp. */
  lemma FreedOk(base: nat, v: View, t: nat, bp: nat)
    requires HeapOk(base, v) && Spot(v.cyc, t, bp) && bp in v.blocks
    ensures var w := Freed(base, v, t, bp);
      && HeapOk(base, w) && w.arena == v.arena && Live(w.cyc, w.blocks) == Live(v.cyc, v.blocks) - {bp}
      && HasFree(w, bp, v.blocks[bp])
  {
    hide Ring, Tiled, Sized, Listing, Live;
    ListingOk(base, v, t, bp);
    var w := Listing(base, v, t, bp);
    if TouchesPrevious(v, t, bp) {
      AbsorbOk(base, w, t + 1);
      assert Holds(Absorbed(w, t + 1), t, bp, v.blocks[bp]);
    } else {
      assert t > 0 ==> GapAt(w.cyc, w.blocks, t);
      assert Holds(w, t + 1, bp, v.blocks[bp]);
    }
  }

  /** What free reads around the spot it has found. */
  lemma Neighbours(base: nat, v: View, t: nat, bp: nat)
    requires HeapOk(base, v) && Spot(v.cyc, t, bp) && bp in v.blocks
    ensures var p, q := v.cyc[t], After(v.cyc, t);
      && p in v.ptr && v.ptr[p] == q && p in v.size && bp in v.size && base <= p < bp
      && (TouchesNext(v, t, bp) <==> bp + v.size[bp] == q)
      && (TouchesPrevious(v, t, bp) <==> p + v.size[p] == bp)
      && (TouchesNext(v, t, bp) ==>
          q in v.ptr && q in v.size && v.size[q] == v.blocks[q] && v.ptr[q] == After(v.cyc, t + 1))
  {
    assert LinkAt(v.ptr, v.cyc, t);
    if TouchesNext(v, t, bp) { assert LinkAt(v.ptr, v.cyc, t + 1); }
  }

  lemma ListingFields(base: nat, v: View, t: nat, bp: nat)
    requires HeapOk(base, v) && Spot(v.cyc, t, bp) && bp in v.blocks
    ensures var p, q, up, w := v.cyc[t], After(v.cyc, t), TouchesNext(v, t, bp), Listing(base, v, t, bp);
      && (up ==> q in v.ptr && q in v.size) && bp in v.size && p in v.ptr && p in v.size
      && w.size == (if up then v.size[bp := v.size[bp] + v.size[q]] else v.size)
      && w.ptr == (if up then v.ptr[bp := v.ptr[q]] else v.ptr[bp := q])[p := bp]
      && After(w.cyc, t + 1) == if up then v.ptr[q] else q
  {
    hide Ring, Tiled, Live, Sized, Listed, GapAt;
    Neighbours(base, v, t, bp);
    var w, q := Inserted(v, t, bp), After(v.cyc, t);
    if TouchesNext(v, t, bp) {
      assert w.cyc[t + 1] == bp && w.cyc[t + 2] == q && After(w.cyc, t + 2) == v.ptr[q];
      assert Listing(base, v, t, bp).ptr == w.ptr[bp := v.ptr[q]];
    }
  }

  /** The ptr and size fields that free writes are those of `Freed`. */
  lemma FreedFields(base: nat, v: View, t: nat, bp: nat)
    requires HeapOk(base, v) && Spot(v.cyc, t, bp) && bp in v.blocks
    ensures var p, q, up, down := v.cyc[t], After(v.cyc, t), TouchesNext(v, t, bp), TouchesPrevious(v, t, bp);
      && (up ==> q in v.ptr && q in v.size) && bp in v.size && p in v.ptr && p in v.size && p != bp
      && var s := if up then v.size[bp := v.size[bp] + v.size[q]] else v.size;
         var l := if up then v.ptr[bp := v.ptr[q]] else v.ptr[bp := q];
      && Freed(base, v, t, bp).size == (if down then s[p := s[p] + s[bp]] else s)
      && Freed(base, v, t, bp).ptr == (if down then l[p := l[bp]] else l[p := bp])
  {
    hide Ring, Tiled, Listing, Live;
    ListingOk(base, v, t, bp);
    ListingFields(base, v, t, bp);
    Neighbours(base, v, t, bp);
  }

  /** A region from sbrk, past every block, joins the arena as one block. */
  lemma ExtendOk(base: nat, v: View, a: nat, n: nat, more: set<nat>)
    requires HeapOk(base, v) && n > 0 && a > base && (forall b :: b in v.blocks ==> b + v.blocks[b] <= a)
    requires forall u: nat :: u in more <==> a <= u < a + n
    ensures var w := v.(size := v.size[a := n], blocks := v.blocks[a := n], arena := v.arena + more);
      && HeapOk(base, w) && a !in v.cyc && Live(w.cyc, w.blocks) == Live(v.cyc, v.blocks)[a := n]
      && a !in Live(v.cyc, v.blocks)
  {
    hide Within, Covers, LinkAt;
    AddTiled(v.arena, v.blocks, a, n, more);
    assert a !in v.cyc by {
      assert forall i :: 1 <= i < |v.cyc| ==> v.cyc[i] in v.blocks && v.cyc[i] < a;
    }
    var m := v.blocks[a := n];
    forall i | 1 <= i < |v.cyc| - 1 ensures GapAt(v.cyc, m, i) {
      assert GapAt(v.cyc, v.blocks, i);
    }
  }
}
