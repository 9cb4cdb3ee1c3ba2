/** walkaddr, copyin, copyout, copyinstr and uvmclear of kernel/vm.c: user memory as a
    flat range of bytes. */
module CopyUser {
  import opened Wrappers
  import opened PageTable
  import opened Vm
  import opened UserSpace

  /** The pages that copyin may read and copyout may write. */
  predicate Readable(ram: Ram, t: Tree, v: nat) {
    v < MAXVPN && V(Lookup(ram, t, v)) && U(Lookup(ram, t, v)) && Frame(Lookup(ram, t, v)) != 0
  }

  predicate Writable(ram: Ram, t: Tree, v: nat) {
    v < MAXVPN && V(Lookup(ram, t, v)) && U(Lookup(ram, t, v)) && W(Lookup(ram, t, v))
  }

  /** The byte at user address va, 0 where no page is owned. */
  function UserByte(ram: Ram, s: Space, va: nat): Byte {
    if va / PGSIZE in s.user && s.user[va / PGSIZE] < |ram| && IsData(ram[s.user[va / PGSIZE]])
    then ram[s.user[va / PGSIZE]].data[va % PGSIZE] else 0
  }

  function UserBytes(ram: Ram, s: Space, va: nat, n: nat): (r: seq<Byte>)
    ensures |r| == n && forall i :: 0 <= i < n ==> r[i] == UserByte(ram, s, va + i)
  {
    seq<Byte>(n, i requires 0 <= i < n => UserByte(ram, s, va + i))
  }

  lemma BytesConcat(ram: Ram, s: Space, va: nat, m: nat, n: nat)
    ensures UserBytes(ram, s, va, m) + UserBytes(ram, s, va + m, n) == UserBytes(ram, s, va, m + n)
  {
  }

  lemma WithinPage(va: nat, i: nat)
    requires i < PGSIZE - va % PGSIZE
    ensures (va + i) / PGSIZE == va / PGSIZE && (va + i) % PGSIZE == va % PGSIZE + i
  {
  }

  /** A valid user entry leads to the page that the address space owns there. */
  lemma UserEntry(ram: Ram, free: seq<nat>, s: Space, v: nat)
    requires SpaceOk(ram, free, s) && V(Lookup(ram, s.node, v)) && U(Lookup(ram, s.node, v))
    ensures v in s.user && Frame(Lookup(ram, s.node, v)) == s.user[v] < |ram| && IsData(ram[s.user[v]])
  {
    assert PageOk(ram, free, s, v);
  }

  lemma ChunkBytes(ram: Ram, s: Space, va: nat, n: nat)
    requires va / PGSIZE in s.user && s.user[va / PGSIZE] < |ram| && IsData(ram[s.user[va / PGSIZE]])
    requires n <= PGSIZE - va % PGSIZE
    ensures ram[s.user[va / PGSIZE]].data[va % PGSIZE..va % PGSIZE + n] == UserBytes(ram, s, va, n)
  {
    var l, r := ram[s.user[va / PGSIZE]].data[va % PGSIZE..va % PGSIZE + n], UserBytes(ram, s, va, n);
    forall i | 0 <= i < n ensures l[i] == r[i] { WithinPage(va, i); }
  }

  /** Every page that va..va+n touches is readable. */
  ghost predicate AllReadable(ram: Ram, t: Tree, va: nat, n: nat) {
    n > 0 ==> forall v: nat :: va / PGSIZE <= v && v * PGSIZE < va + n ==> Readable(ram, t, v)
  }

  lemma ReadableMore(ram: Ram, t: Tree, va: nat, m: nat, n: nat)
    requires AllReadable(ram, t, va, m) && Readable(ram, t, (va + m) / PGSIZE) && n <= PGSIZE - (va + m) % PGSIZE
    ensures AllReadable(ram, t, va, m + n)
  {
    forall v: nat | m + n > 0 && va / PGSIZE <= v && v * PGSIZE < va + (m + n) ensures Readable(ram, t, v) {
      if m == 0 || v * PGSIZE >= va + m { assert v == (va + m) / PGSIZE; }
    }
  }

  /** The physical page of a user virtual page, or 0. */
  method Walkaddr(m: Machine, root: nat, va: nat, ghost s: Space) returns (frame: nat)
    requires SpaceOk(m.ram, m.free, s) && Root in s.node && s.node[Root] == root
    modifies m
    ensures m.ram == old(m.ram) && m.free == old(m.free)
    ensures frame != 0 <==> Readable(m.ram, s.node, va / PGSIZE)
    ensures frame != 0 ==> va / PGSIZE in s.user && frame == s.user[va / PGSIZE] < |m.ram| && IsData(m.ram[frame])
  {
    hide TreeOk, V, U, Frame, I2, I1, I0, FreeOk, Quiet, Separate;
    if va >= MAXVPN * PGSIZE {
      return 0;
    }
    var pte: Option<PteAddr>;
    ghost var t;
    pte, t := m.Walk(root, va, false, s.node);
    ZeroPte();
    if pte.None? {
      return 0;
    }
    LeafIsTable(m.ram, s.node, va / PGSIZE);
    var e := m.ram[pte.value.frame].ptes[pte.value.index];
    if !V(e) {
      return 0;
    }
    if !U(e) {
      return 0;
    }
    UserEntry(m.ram, m.free, s, va / PGSIZE);
    frame := Frame(e);
  }

  /** Copies len bytes from user address srcva, and stops at the first page that is not
      readable. */
  method Copyin(m: Machine, root: nat, srcva: nat, len: nat, ghost s: Space) returns (r: int, dst: seq<Byte>)
    requires SpaceOk(m.ram, m.free, s) && Root in s.node && s.node[Root] == root
    modifies m
    ensures m.ram == old(m.ram) && m.free == old(m.free)
    ensures |dst| <= len && dst == UserBytes(m.ram, s, srcva, |dst|) && r == if |dst| == len then 0 else -1
    ensures r == -1 ==> !Readable(m.ram, s.node, (srcva + |dst|) / PGSIZE)
    ensures AllReadable(m.ram, s.node, srcva, |dst|)
  {
    hide SpaceOk, Readable, UserBytes, IsData;
    dst := [];
    var va, left := srcva, len;
    while left > 0
      invariant m.ram == old(m.ram) && m.free == old(m.free)
      invariant (left > 0 ==> va == srcva + |dst|) && left == len - |dst| && dst == UserBytes(m.ram, s, srcva, |dst|)
      invariant |dst| <= len && AllReadable(m.ram, s.node, srcva, |dst|)
    {
      var va0 := va / PGSIZE * PGSIZE;
      var frame := Walkaddr(m, root, va0, s);
      if frame == 0 {
        return -1, dst;
      }
      var n := PGSIZE - (va - va0);
      if n > left {
        n := left;
      }
      ChunkBytes(m.ram, s, va, n);
      BytesConcat(m.ram, s, srcva, |dst|, n);
      ReadableMore(m.ram, s.node, srcva, |dst|, n);
      assert IsData(m.ram[frame]);
      dst := dst + PageSlice(m.ram[frame], va - va0, n);
      left := left - n;
      va := va0 + PGSIZE;
    }
    r := 0;
  }

  /** Copies a NUL-terminated string of at most max bytes, terminator included. */
  method Copyinstr(m: Machine, root: nat, srcva: nat, max: nat, ghost s: Space) returns (r: int, dst: seq<Byte>)
    requires SpaceOk(m.ram, m.free, s) && Root in s.node && s.node[Root] == root
    modifies m
    ensures m.ram == old(m.ram) && m.free == old(m.free)
    ensures (r == 0 || r == -1) && |dst| <= max && dst == UserBytes(m.ram, s, srcva, |dst|)
    ensures AllReadable(m.ram, s.node, srcva, |dst|)
    ensures r == 0 ==> |dst| > 0 && dst[|dst| - 1] == 0 && 0 !in dst[..|dst| - 1]
    ensures r == -1 ==> 0 !in dst && (|dst| == max || !Readable(m.ram, s.node, (srcva + |dst|) / PGSIZE))
  {
    hide SpaceOk, Readable, UserBytes, IsData, AllReadable;
    NothingRead(m.ram, s, srcva);
    dst := [];
    var va, left, gotNull := srcva, max, false;
    while !gotNull && left > 0
      invariant m.ram == old(m.ram) && m.free == old(m.free)
      invariant dst == UserBytes(m.ram, s, srcva, |dst|) && |dst| <= max && AllReadable(m.ram, s.node, srcva, |dst|)
      invariant !gotNull ==> (left > 0 ==> va == srcva + |dst|) && left == max - |dst| && 0 !in dst
      invariant gotNull ==> |dst| > 0 && dst[|dst| - 1] == 0 && 0 !in dst[..|dst| - 1]
      decreases !gotNull, left
    {
      var va0 := va / PGSIZE * PGSIZE;
      var frame := Walkaddr(m, root, va0, s);
      if frame == 0 {
        return -1, dst;
      }
      var n := PGSIZE - (va - va0);
      if n > left {
        n := left;
      }
      ghost var had := |dst|;
      dst, gotNull := CopyPart(m, va, frame, n, dst, srcva, s);
      ReadableMore(m.ram, s.node, srcva, had, |dst| - had);
      left := max - |dst|;
      va := va0 + PGSIZE;
    }
    r := if gotNull then 0 else -1;
  }

  lemma NothingRead(ram: Ram, s: Space, va: nat)
    ensures UserBytes(ram, s, va, 0) == [] && AllReadable(ram, s.node, va, 0)
  {
  }

  /** copyinstr's inner loop: n bytes of one page, stopping after a NUL. */
  method CopyPart(m: Machine, va: nat, frame: nat, n: nat, dst0: seq<Byte>, ghost srcva: nat, ghost s: Space)
    returns (dst: seq<Byte>, gotNull: bool)
    requires va == srcva + |dst0| && dst0 == UserBytes(m.ram, s, srcva, |dst0|) && 0 !in dst0
    requires 0 < n <= PGSIZE - va % PGSIZE
    requires va / PGSIZE in s.user && frame == s.user[va / PGSIZE] < |m.ram| && IsData(m.ram[frame])
    ensures dst == UserBytes(m.ram, s, srcva, |dst|) && |dst0| < |dst| <= |dst0| + n
    ensures !gotNull ==> |dst| == |dst0| + n && 0 !in dst
    ensures gotNull ==> dst[|dst| - 1] == 0 && 0 !in dst[..|dst| - 1]
  {
    hide UserBytes;
    dst, gotNull := dst0, false;
    var left, p := n, va % PGSIZE;
    while left > 0
      invariant 0 <= left <= n && p == va % PGSIZE + (n - left) && dst == UserBytes(m.ram, s, srcva, |dst|)
      invariant |dst| == |dst0| + (n - left) && 0 !in dst
    {
      var c := m.ram[frame].data[p];
      WithinPage(va, n - left);
      BytesConcat(m.ram, s, srcva, |dst|, 1);
      assert UserBytes(m.ram, s, srcva + |dst|, 1) == [c];
      dst := dst + [c];
      if c == 0 {
        gotNull := true;
        break;
      }
      left := left - 1;
      p := p + 1;
    }
  }

  function PageSlice(p: Page, at: nat, n: nat): seq<Byte>
    requires IsData(p) && at + n <= PGSIZE
  {
    p.data[at..at + n]
  }

  function Overwrite(p: Page, at: nat, t: seq<Byte>): (r: Page)
    requires IsData(p) && at + |t| <= PGSIZE
    ensures IsData(r) && forall i :: 0 <= i < PGSIZE ==> r.data[i] == if at <= i < at + |t| then t[i - at]
              else p.data[i]
  {
    Bytes(p.data[..at] + t + p.data[at + |t|..])
  }

  /** From ram to ram' exactly the bytes va..va+|t| of user memory became t. */
  ghost predicate Poked(ram: Ram, ram': Ram, s: Space, va: nat, t: seq<Byte>) {
    && |ram'| == |ram| && SameMap(ram, s.node, ram', s.node)
    && (forall a: nat :: UserByte(ram', s, a) == if va <= a < va + |t| then t[a - va] else UserByte(ram, s, a))
    && (forall f :: 0 <= f < |ram| && f !in s.user.Values ==> ram'[f] == ram[f])
  }

  lemma PokeOk(ram: Ram, free: seq<nat>, s: Space, v: nat, p: Page)
    requires SpaceOk(ram, free, s) && v in s.user && s.user[v] < |ram| && IsData(p)
    ensures SpaceOk(ram[s.user[v] := p], free, s) && SameMap(ram, s.node, ram[s.user[v] := p], s.node)
  {
    var r := ram[s.user[v] := p];
    assert PageOk(ram, free, s, v);
    forall q | q in s.node ensures r[s.node[q]] == ram[s.node[q]] { assert s.node[q] in s.node.Values; }
    Elsewhere(ram, r, s.node);
    hide TreeOk, Lookup, V, U, FreeOk;
    forall w | w in s.user ensures PageOk(r, free, s, w) { assert PageOk(ram, free, s, w); }
  }

  lemma PokeByte(ram: Ram, s: Space, b: nat, u: seq<Byte>, a: nat)
    requires Separate(s.user) && |u| <= PGSIZE - b % PGSIZE
    requires b / PGSIZE in s.user && s.user[b / PGSIZE] < |ram| && IsData(ram[s.user[b / PGSIZE]])
    ensures var f := s.user[b / PGSIZE];
            UserByte(ram[f := Overwrite(ram[f], b % PGSIZE, u)], s, a) == if b <= a < b + |u| then u[a - b]
                else UserByte(ram, s, a)
  {
    if b <= a < b + |u| {
      WithinPage(b, a - b);
    } else if a / PGSIZE == b / PGSIZE {
      assert a % PGSIZE - b % PGSIZE == a - b;
    } else if a / PGSIZE in s.user {
      assert s.user[a / PGSIZE] != s.user[b / PGSIZE];
    }
  }

  lemma PokeMore(r0: Ram, ram: Ram, free: seq<nat>, s: Space, va: nat, t: seq<Byte>, u: seq<Byte>)
    requires Poked(r0, ram, s, va, t) && SpaceOk(ram, free, s) && |u| <= PGSIZE - (va + |t|) % PGSIZE
    requires var v := (va + |t|) / PGSIZE; v in s.user && s.user[v] < |ram| && IsData(ram[s.user[v]])
    ensures var f := s.user[(va + |t|) / PGSIZE];
            var r := ram[f := Overwrite(ram[f], (va + |t|) % PGSIZE, u)];
            SpaceOk(r, free, s) && Poked(r0, r, s, va, t + u)
  {
    hide Base, PageOk, V, U, UserByte, Lookup, Overwrite;
    var b := va + |t|;
    var f := s.user[b / PGSIZE];
    var r := ram[f := Overwrite(ram[f], b % PGSIZE, u)];
    PokeOk(ram, free, s, b / PGSIZE, Overwrite(ram[f], b % PGSIZE, u));
    forall a: nat ensures UserByte(r, s, a) == if va <= a < va + |t + u| then (t + u)[a - va] else UserByte(r0, s, a) {
      PokeByte(ram, s, b, u, a);
    }
    assert f in s.user.Values;
  }

  /** Every page that va..va+n touches is writable. */
  ghost predicate AllWritable(ram: Ram, t: Tree, va: nat, n: nat) {
    n > 0 ==> forall v: nat :: va / PGSIZE <= v && v * PGSIZE < va + n ==> Writable(ram, t, v)
  }

  lemma WritableMore(ram: Ram, t: Tree, va: nat, m: nat, n: nat)
    requires AllWritable(ram, t, va, m) && Writable(ram, t, (va + m) / PGSIZE) && n <= PGSIZE - (va + m) % PGSIZE
    ensures AllWritable(ram, t, va, m + n)
  {
    hide Writable;
    forall v: nat | m + n > 0 && va / PGSIZE <= v && v * PGSIZE < va + (m + n) ensures Writable(ram, t, v) {
      if m == 0 || v * PGSIZE >= va + m { assert v == (va + m) / PGSIZE; }
    }
  }

  lemma PokedWritable(ram: Ram, ram': Ram, s: Space, va: nat, t: seq<Byte>, v: nat)
    requires Poked(ram, ram', s, va, t)
    ensures Writable(ram', s.node, v) == Writable(ram, s.node, v)
  {
  }

  /** Copies src to user address dstva, and stops at the first page that is not writable. */
  method Copyout(m: Machine, root: nat, dstva: nat, src: seq<Byte>, ghost s: Space) returns (r: int, ghost k: nat)
    requires SpaceOk(m.ram, m.free, s) && Root in s.node && s.node[Root] == root
    modifies m
    ensures SpaceOk(m.ram, m.free, s) && m.free == old(m.free) && k <= |src|
    ensures Poked(old(m.ram), m.ram, s, dstva, src[..k]) && r == if k == |src| then 0 else -1
    ensures r == -1 ==> !Writable(old(m.ram), s.node, (dstva + k) / PGSIZE)
    ensures AllWritable(old(m.ram), s.node, dstva, k)
  {
    hide SpaceOk, Poked, Lookup, V, U, W, Frame, I2, I1, I0, Overwrite, Quiet, AllWritable;
    PokeNone(m.ram, s, dstva);
    assert src[..0] == [];
    assert AllWritable(m.ram, s.node, dstva, 0) by { NothingWritten(m.ram, s.node, dstva); }
    var done := 0;
    k := 0;
    while done < |src|
      invariant k == done <= |src| && SpaceOk(m.ram, m.free, s) && m.free == old(m.free)
      invariant Poked(old(m.ram), m.ram, s, dstva, src[..done]) && AllWritable(old(m.ram), s.node, dstva, done)
    {
      var va := dstva + done;
      var va0 := va / PGSIZE * PGSIZE;
      PokedWritable(old(m.ram), m.ram, s, dstva, src[..done], va / PGSIZE);
      if va0 >= MAXVPN * PGSIZE {
        return -1, k;
      }
      var pte: Option<PteAddr>;
      ghost var t;
      SpaceBase(m.ram, m.free, s);
      pte, t := m.Walk(root, va0, false, s.node);
      if pte.None? {
        NoLeafNoPage(m.ram, s.node, va0 / PGSIZE);
        return -1, k;
      }
      LeafIsTable(m.ram, s.node, va0 / PGSIZE);
      var e := m.ram[pte.value.frame].ptes[pte.value.index];
      if !V(e) || !U(e) || !W(e) {
        return -1, k;
      }
      UserEntry(m.ram, m.free, s, va0 / PGSIZE);
      var n := PGSIZE - (va - va0);
      if n > |src| - done {
        n := |src| - done;
      }
      WritableMore(old(m.ram), s.node, dstva, done, n);
      PokeMore(old(m.ram), m.ram, m.free, s, dstva, src[..done], src[done..done + n]);
      assert src[..done + n] == src[..done] + src[done..done + n];
      m.ram := m.ram[Frame(e) := Overwrite(m.ram[Frame(e)], va - va0, src[done..done + n])];
      done := done + n;
      k := done;
    }
    r := 0;
  }

  lemma NothingWritten(ram: Ram, t: Tree, va: nat)
    ensures AllWritable(ram, t, va, 0)
  {
  }

  lemma PokeNone(ram: Ram, s: Space, va: nat)
    ensures Poked(ram, ram, s, va, [])
  {
  }

  lemma SpaceBase(ram: Ram, free: seq<nat>, s: Space)
    requires SpaceOk(ram, free, s)
    ensures Base(ram, free, s.node)
  {
  }

  lemma NoLeafNoPage(ram: Ram, t: Tree, v: nat)
    requires LeafOf(v) !in t
    ensures !V(Lookup(ram, t, v))
  {
  }

  /** Clears PTE_U of an owned page (the stack guard): still mapped and owned, no longer
      readable or writable by the copy routines. */
  method Uvmclear(m: Machine, root: nat, va: nat, ghost s: Space)
    requires SpaceOk(m.ram, m.free, s) && Root in s.node && s.node[Root] == root && va < MAXVPN * PGSIZE
    requires va / PGSIZE in s.user
    modifies m
    ensures SpaceOk(m.ram, m.free, s) && m.free == old(m.free)
    ensures forall w: nat :: Lookup(m.ram, s.node, w)
              == if w == va / PGSIZE then ClearU(Lookup(old(m.ram), s.node, w)) else Lookup(old(m.ram), s.node, w)
    ensures !Readable(m.ram, s.node, va / PGSIZE) && !Writable(m.ram, s.node, va / PGSIZE)
  {
    hide Lookup, V, U, W, Frame, I2, I1, I0, Quiet, ClearU, Base, Flags, Separate;
    ghost var v := va / PGSIZE;
    SpaceBase(m.ram, m.free, s);
    ClearOk(m.ram, m.free, s, v);
    var pte: Option<PteAddr>;
    ghost var t;
    pte, t := m.Walk(root, va, false, s.node);
    var e := m.ram[pte.value.frame].ptes[pte.value.index];
    m.ram := PutPte(m.ram, pte.value.frame, pte.value.index, ClearU(e));
  }

  /** pte & ~PTE_U */
  function ClearU(pte: nat): nat { if U(pte) then pte - 16 else pte }

  lemma ClearUFields(pte: nat)
    requires V(pte) && IsLeaf(pte)
    ensures Frame(ClearU(pte)) == Frame(pte) && V(ClearU(pte)) && !U(ClearU(pte)) && IsLeaf(ClearU(pte))
  {
    if U(pte) {
      var f := Flags(pte);
      assert f >= 16 && pte == 1024 * Frame(pte) + f;
      assert Flags(pte - 16) == f - 16 && Frame(pte - 16) == Frame(pte);
      ClearBit(f);
    }
  }

  lemma ClearBit(f: nat)
    requires 16 <= f < 1024 && f / 16 % 2 == 1
    ensures (f - 16) % 2 == f % 2 && (f - 16) / 2 % 2 == f / 2 % 2 && (f - 16) / 4 % 2 == f / 4 % 2
    ensures (f - 16) / 8 % 2 == f / 8 % 2 && (f - 16) / 16 % 2 == 0
  {
    Quotients(f);
    SameParity(f / 2, 8);
    SameParity(f / 4, 4);
    SameParity(f / 8, 2);
  }

  lemma Quotients(f: nat)
    requires f >= 16
    ensures (f - 16) / 2 == f / 2 - 8 && (f - 16) / 4 == f / 4 - 4 && (f - 16) / 8 == f / 8 - 2
    ensures (f - 16) / 16 == f / 16 - 1
  {}

  lemma SameParity(x: int, k: int)
    requires k % 2 == 0
    ensures (x - k) % 2 == x % 2
  {}

  lemma ClearOk(ram: Ram, free: seq<nat>, s: Space, v: nat)
    requires SpaceOk(ram, free, s) && v in s.user
    ensures LeafOf(v) in s.node && IsTable(ram, s.node[LeafOf(v)]) && I0(v) < ENTRIES
    ensures var e := ram[s.node[LeafOf(v)]].ptes[I0(v)];
            var r := PutPte(ram, s.node[LeafOf(v)], I0(v), ClearU(e));
            && SpaceOk(r, free, s) && !U(Lookup(r, s.node, v))
            && forall w: nat :: Lookup(r, s.node, w) == if w == v then ClearU(Lookup(ram, s.node, w))
                else Lookup(ram, s.node, w)
  {
    hide TreeOk, Lookup, V, U, FreeOk, Frame, IsLeaf, I2, I1, I0, ClearU, Separate;
    assert PageOk(ram, free, s, v);
    MappedHasLeaf(ram, s.node, v);
    var e := ram[s.node[LeafOf(v)]].ptes[I0(v)];
    ClearUFields(e);
    StoreOne(ram, free, s.node, v, ClearU(e));
    var r := PutPte(ram, s.node[LeafOf(v)], I0(v), ClearU(e));
    forall w | w in s.user ensures PageOk(r, free, s, w) {
      assert PageOk(ram, free, s, w);
      NotInPool(free, s.node, s.user[w]);
    }
  }
}
