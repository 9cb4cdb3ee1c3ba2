/** The user-level allocator of user/umalloc.c: free, morecore and malloc working on headers in
    memory. What sbrk answers is a parameter. */
module Heap {
  import opened FreeList
  import opened Wrappers

  const UNIT: nat := 16
  const CORE: nat := 4096

  /** Header units for a request: the bytes rounded up, plus the header itself. */
  function Units(nbytes: nat): (n: nat)
    ensures n > 0 && (n - 1) * UNIT >= nbytes
    ensures (n - 1) * UNIT < nbytes + UNIT
  {
    (nbytes + UNIT - 1) / UNIT + 1
  }

  ghost function Span(a: nat, n: nat): (s: set<nat>)
    ensures forall u: nat :: u in s <==> a <= u < a + n
  {
    if n == 0 then {} else Span(a, n - 1) + {a + n - 1}
  }

  /** A size converted to the int parameter of sbrk. */
  function AsInt(bytes: nat): (n: int)
    ensures -0x8000_0000 <= n < 0x8000_0000 && (bytes - n) % 0x1_0000_0000 == 0
    ensures bytes < 0x8000_0000 ==> n == bytes
    ensures bytes >= 0x8000_0000 ==> n < bytes
  {
    var w := bytes % 0x1_0000_0000;
    if w < 0x8000_0000 then w else w - 0x1_0000_0000
  }

  function Max(a: nat, b: nat): nat { if a < b then b else a }

  /** Some free block has at least n units. */
  ghost predicate Fits(v: View, n: nat) {
    exists i :: 1 <= i < |v.cyc| && v.cyc[i] in v.blocks && v.blocks[v.cyc[i]] >= n
  }

  /** How far entry i is from entry f, following the ring. */
  function Ahead(n: nat, f: nat, i: nat): nat
    requires f < n && i < n
  {
    if i <= f then f - i else f - i + n
  }

  function Step(n: nat, i: nat): nat
    requires n > 0
  {
    if i + 1 < n then i + 1 else 0
  }

  /** malloc has come from freep, entry f, to p, entry i, and everything it passed is too small. */
  ghost predicate Search(v: View, n: nat, freep: nat, prevp: nat, p: nat, f: nat, i: nat) {
    && f < |v.cyc| && i < |v.cyc| && v.cyc[f] == freep && v.cyc[i] == p
    && prevp == v.cyc[if i == 0 then |v.cyc| - 1 else i - 1]
    && forall m :: 0 <= m < |v.cyc| && Ahead(|v.cyc|, f, m) > Ahead(|v.cyc|, f, i) ==> SmallAt(v, m, n)
  }

  ghost predicate SmallAt(v: View, i: nat, n: nat)
    requires i < |v.cyc|
  {
    v.cyc[i] in v.size && v.size[v.cyc[i]] < n
  }

  lemma Successor(base: nat, v: View, p: nat, i: nat)
    requires HeapOk(base, v) && i < |v.cyc| && v.cyc[i] == p
    ensures p in v.ptr && v.ptr[p] == v.cyc[Step(|v.cyc|, i)] && p in v.size && p >= base
  {
    assert LinkAt(v.ptr, v.cyc, i);
  }

  lemma SearchStart(base: nat, v: View, n: nat, freep: nat) returns (f: nat, i: nat)
    requires HeapOk(base, v) && freep in v.cyc
    ensures f < |v.cyc| && i < |v.cyc| && freep in v.ptr && Search(v, n, freep, freep, v.ptr[freep], f, i)
  {
    f :| 0 <= f < |v.cyc| && v.cyc[f] == freep;
    i := Step(|v.cyc|, f);
    Successor(base, v, freep, f);
  }

  lemma SearchNext(base: nat, v: View, n: nat, freep: nat, prevp: nat, p: nat, f: nat, i: nat)
    requires HeapOk(base, v) && Search(v, n, freep, prevp, p, f, i) && SmallAt(v, i, n) && p != freep
    ensures p in v.ptr && Search(v, n, freep, p, v.ptr[p], f, Step(|v.cyc|, i))
    ensures Ahead(|v.cyc|, f, Step(|v.cyc|, i)) < Ahead(|v.cyc|, f, i)
  {
    hide SmallAt;
    Successor(base, v, p, i);
    var k := Step(|v.cyc|, i);
    forall m | 0 <= m < |v.cyc| && Ahead(|v.cyc|, f, m) > Ahead(|v.cyc|, f, k) ensures SmallAt(v, m, n) {
      assert Ahead(|v.cyc|, f, m) >= Ahead(|v.cyc|, f, i);
    }
  }

  lemma SearchEnd(base: nat, v: View, n: nat, prevp: nat, p: nat, f: nat, i: nat)
    requires HeapOk(base, v) && Search(v, n, p, prevp, p, f, i) && SmallAt(v, i, n)
    ensures !Fits(v, n)
  {
    Increases(v.cyc, f, i);
    forall m | 1 <= m < |v.cyc| ensures v.cyc[m] in v.blocks && v.blocks[v.cyc[m]] < n {
      assert SmallAt(v, m, n);
    }
  }

  /** The header fields malloc writes when p is large enough. */
  lemma SearchHit(base: nat, v: View, n: nat, freep: nat, prevp: nat, p: nat, f: nat, i: nat)
    requires HeapOk(base, v) && Search(v, n, freep, prevp, p, f, i) && n > 0 && p in v.size && v.size[p] >= n
    ensures 0 < i < |v.cyc| && v.cyc[i] == p && p in v.ptr && p in v.blocks && v.blocks[p] == v.size[p]
    ensures v.(ptr := v.ptr[prevp := v.ptr[p]], cyc := Remove(v.cyc, i)) == Taken(v, i)
    ensures v.size[p] > n ==>
              var size := v.size[p := v.size[p] - n][p + (v.size[p] - n) := n];
              v.(size := size, blocks := Split(v.blocks, p, n)) == Cut(v, i, n)
    ensures prevp >= base && prevp in v.cyc && prevp in Remove(v.cyc, i)
  {
    Successor(base, v, p, i);
    assert Remove(v.cyc, i)[i - 1] == prevp;
  }

  lemma FitAt(v: View, i: nat, n: nat)
    requires 1 <= i < |v.cyc| && v.cyc[i] in v.blocks && v.blocks[v.cyc[i]] >= n
    ensures Fits(v, n)
  {}

  lemma FreshOk(base: nat, v: View, n: nat)
    requires base > 0 && n > 0 && v.cyc == [base] && v.blocks == map[] && v.arena == {}
    ensures !Fits(v, n)
    ensures base in v.ptr && v.ptr[base] == base && base in v.size && v.size[base] == 0 ==> HeapOk(base, v)
  {}

  class Heap {
    const base: nat
    var ptr: map<nat, nat>
    var size: map<nat, nat>
    var freep: nat
    ghost var cyc: seq<nat>
    ghost var blocks: map<nat, nat>
    ghost var arena: set<nat>

    ghost function V(): View
      reads this
    {
      View(ptr, size, cyc, blocks, arena)
    }

    /** freep is null until the first call of malloc. */
    ghost predicate Valid()
      reads this
    {
      && base > 0
      && if freep == 0 then blocks == map[] && arena == {} && cyc == [base] else HeapOk(base, V()) && freep in cyc
    }

    ghost function Out(): map<nat, nat>
      reads this
    {
      Live(cyc, blocks)
    }

    /** sbrk can only answer with an address past everything it has given out. */
    ghost predicate Beyond(a: nat)
      reads this
    {
      a > base && forall b :: b in blocks ==> b + blocks[b] <= a
    }

    constructor (b: nat)
      requires b > 0
      ensures Valid() && base == b && freep == 0 && Out() == map[] && arena == {}
    {
      base, ptr, size, freep, cyc, blocks, arena := b, map[], map[], 0, [b], map[], {};
    }

    /** The search for the entry that bp goes after, once round the ring at most. */
    method FindSpot(bp: nat) returns (p: nat, ghost t: nat)
      requires Valid() && freep != 0 && bp in Out()
      ensures Spot(cyc, t, bp) && p == cyc[t]
    {
      ghost var goal := SpotExists(cyc, |cyc|, bp);
      p := freep;
      t :| 0 <= t < |cyc| && cyc[t] == freep;
      while !(bp > p && bp < ptr[p])
        invariant t < |cyc| && p == cyc[t] && LinkAt(ptr, cyc, t)
        decreases Ahead(|cyc|, goal, t)
      {
        if p >= ptr[p] && (bp > p || bp < ptr[p]) {
          break;
        }
        p := ptr[p];
        t := if t + 1 < |cyc| then t + 1 else 0;
      }
    }

    method JoinNext(p: nat, bp: nat)
      requires p in ptr && bp in size && (bp + size[bp] == ptr[p] ==> ptr[p] in ptr && ptr[p] in size)
      modifies `ptr, `size
      ensures var q, up := old(ptr[p]), old(bp + size[bp] == ptr[p]);
        && size == (if up then old(size)[bp := old(size)[bp] + old(size)[q]] else old(size))
        && ptr == (if up then old(ptr)[bp := old(ptr)[q]] else old(ptr)[bp := q])
    {
      if bp + size[bp] == ptr[p] {
        size := size[bp := size[bp] + size[ptr[p]]];
        ptr := ptr[bp := ptr[ptr[p]]];
      } else {
        ptr := ptr[bp := ptr[p]];
      }
    }

    method JoinPrevious(p: nat, bp: nat)
      requires p in size && bp in size && bp in ptr
      modifies `ptr, `size
      ensures var down := old(p + size[p] == bp);
        && size == (if down then old(size)[p := old(size)[p] + old(size)[bp]] else old(size))
        && ptr == old(ptr)[p := if down then old(ptr)[bp] else bp]
    {
      if p + size[p] == bp {
        size := size[p := size[p] + size[bp]];
        ptr := ptr[p := ptr[bp]];
      } else {
        ptr := ptr[p := bp];
      }
    }

    /** free: the block joins the free list and coalesces with the free blocks it touches. */
    method Free(ap: nat)
      requires Valid() && ap > 0 && ap - 1 in Out()
      modifies this
      ensures Valid() && freep != 0 && Out() == old(Out()) - {ap - 1} && arena == old(arena)
      ensures HasFree(V(), ap - 1, old(Out())[ap - 1])
    {
      hide HeapOk, Live, Freed, HasFree, TouchesNext, TouchesPrevious;
      var bp := ap - 1;
      LiveMeans(cyc, blocks, bp);
      var p;
      ghost var t;
      p, t := FindSpot(bp);
      ghost var v, w := V(), Freed(base, V(), t, bp);
      FreedOk(base, v, t, bp);
      Neighbours(base, v, t, bp);
      FreedFields(base, v, t, bp);
      JoinNext(p, bp);
      JoinPrevious(p, bp);
      freep := p;
      cyc, blocks := w.cyc, w.blocks;
      assert cyc[t] == freep;
      assert ptr == w.ptr && size == w.size;
    }

    /** morecore: asks sbrk for at least CORE units and frees them into the list. `broken` means
        that sbrk's int argument came out smaller than the size, so that the header would be
        stored in memory that was not obtained. */
    method Morecore(nu: nat, sbrk: Option<nat>) returns (p: nat, broken: bool)
      requires Valid() && freep != 0 && nu > 0 && (sbrk.Some? ==> Beyond(sbrk.value))
      modifies this
      ensures Valid() && freep != 0 && Out() == old(Out())
      ensures broken <==> sbrk.Some? && Max(nu, CORE) * UNIT >= 0x8000_0000
      ensures sbrk.None? ==> p == 0
      ensures sbrk.None? || broken ==> V() == old(V()) && freep == old(freep)
      ensures sbrk.Some? && !broken ==>
        p == freep && arena == old(arena) + Span(sbrk.value, Max(nu, CORE)) && Fits(V(), nu)
    {
      hide HeapOk, Live;
      var n := Max(nu, CORE);
      var arg := AsInt(n * UNIT);
      if sbrk == None {
        return 0, false;
      }
      if arg < n * UNIT {
        return sbrk.value, true;
      }
      var hp := sbrk.value;
      size := size[hp := n];
      ExtendOk(base, old(V()), hp, n, Span(hp, n));
      blocks, arena := blocks[hp := n], arena + Span(hp, n);
      Free(hp + 1);
      return freep, false;
    }

    /** Cuts n units off block p, or takes all of it. */
    method Allot(prevp: nat, p: nat, n: nat, ghost f: nat, ghost i: nat) returns (h: nat)
      requires HeapOk(base, V()) && base > 0 && n > 0 && Search(V(), n, freep, prevp, p, f, i)
      requires p in size && size[p] >= n
      modifies this
      ensures Valid() && freep != 0 && arena == old(arena) && h !in old(Out()) && Out() == old(Out())[h := n]
      ensures Fits(old(V()), n)
    {
      hide HeapOk, Live, Fits, Cut, Taken, Search;
      ghost var v := V();
      SearchHit(base, v, n, freep, prevp, p, f, i);
      FitAt(v, i, n);
      h := p;
      if size[p] == n {
        TakeOk(base, v, i);
        ptr := ptr[prevp := ptr[p]];
        cyc := Remove(cyc, i);
      } else {
        CutOk(base, v, i, n);
        size := size[p := size[p] - n];
        blocks := Split(blocks, p, n);
        h := p + size[p];
        size := size[h := n];
      }
      freep := prevp;
    }

    /** malloc: a block of the size asked for, cut from the free list; sbrk is asked once, and only
        when no free block is large enough; null only when sbrk then has nothing to give. It goes
        wrong exactly when sbrk is needed for 2 GB or more. */
    method Malloc(nbytes: nat, sbrk: Option<nat>) returns (r: nat, broken: bool)
      requires Valid() && nbytes < 0x1_0000_0000 && (sbrk.Some? ==> Beyond(sbrk.value))
      modifies this
      ensures Valid() && freep != 0
      ensures broken <==>
        sbrk.Some? && !Fits(old(V()), Units(nbytes)) && Max(Units(nbytes), CORE) * UNIT >= 0x8000_0000
      ensures !broken ==> (r == 0 <==> sbrk.None? && !Fits(old(V()), Units(nbytes)))
      ensures broken || r == 0 ==> Out() == old(Out()) && arena == old(arena)
      ensures !broken && r != 0 ==> r - 1 !in old(Out()) && Out() == old(Out())[r - 1 := Units(nbytes)]
      ensures !broken && r != 0 ==>
        arena == old(arena) + if Fits(old(V()), Units(nbytes)) then {} else Span(sbrk.value, Max(Units(nbytes), CORE))
    {
      hide HeapOk, Live, Fits, Cut, Taken;
      var nunits := Units(nbytes);
      var prevp := freep;
      if prevp == 0 {
        ptr, freep, prevp := ptr[base := base], base, base;
        size := size[base := 0];
        FreshOk(base, old(V()), nunits);
        FreshOk(base, V(), nunits);
      }
      ghost var start, asked := V(), false;
      ghost var f, i := SearchStart(base, V(), nunits, freep);
      var p := ptr[prevp];
      while true
        invariant HeapOk(base, V()) && freep != 0 && freep in cyc && Search(V(), nunits, freep, prevp, p, f, i)
        invariant Out() == Live(start.cyc, start.blocks) && (sbrk.Some? && !asked ==> Beyond(sbrk.value))
        invariant !asked ==> V() == start
        invariant asked ==> sbrk.Some? && !Fits(start, nunits) && Fits(V(), nunits)
        invariant asked ==> Max(nunits, CORE) * UNIT < 0x8000_0000
        invariant asked ==> arena == start.arena + Span(sbrk.value, Max(nunits, CORE))
        decreases !asked, Ahead(|cyc|, f, i)
      {
        ghost var v := V();
        Successor(base, v, p, i);
        if size[p] >= nunits {
          var h := Allot(prevp, p, nunits, f, i);
          return h + 1, false;
        }
        if p == freep {
          SearchEnd(base, v, nunits, prevp, p, f, i);
          assert !asked;
          p, broken := Morecore(nunits, sbrk);
          if broken {
            return p, true;
          }
          if p == 0 {
            return 0, false;
          }
          asked := true;
          f, i := SearchStart(base, V(), nunits, freep);
        } else {
          SearchNext(base, v, nunits, freep, prevp, p, f, i);
          i := Step(|cyc|, i);
        }
        prevp, p := p, ptr[p];
      }
    }
  }
}
