/** sys_sbrk of kernel/sysproc.c, and what the memory it obtains is good for. */
module UserSbrk {
  import opened PageTable
  import opened Vm
  import opened UserSpace
  import opened UserVm
  import opened UserGrow
  import opened CopyUser

  /** sbrk(n): the old size, or -1 with nothing changed but table pages when frames run out. */
  method Sbrk(m: Machine, root: nat, sz: nat, n: int, ghost s: Space) returns (addr: int, sz': nat, ghost s': Space)
    requires Image(m.ram, m.free, s, Pages(sz)) && Root in s.node && s.node[Root] == root
    requires -0x8000_0000 <= n < 0x8000_0000
    modifies m
    ensures Image(m.ram, m.free, s', Pages(sz')) && Root in s'.node && s'.node[Root] == root
    ensures Conserves(old(m.ram), old(m.free), s, m.ram, m.free, s') && KeepsPages(old(m.ram), s, m.ram, s')
    ensures addr == sz || addr == -1
    ensures addr == sz ==> sz' == if sz + n >= 0 then sz + n else sz
    ensures addr == sz && n > 0 ==> NewPages(old(m.ram), s, m.ram, s', Pages(sz), Pages(sz'))
    ensures addr == -1 ==> n > 0 && sz' == sz && s'.user == s.user && SameMap(old(m.ram), s.node, m.ram, s'.node)
    ensures addr == -1 ==> |m.free| <= Pages(sz + n) - Pages(sz)
  {
    hide Image, Conserves, KeepsPages, NewPages, SameMap, Unmapped;
    addr := sz;
    var r;
    r, sz', s' := Growproc(m, root, sz, n, s);
    if r < 0 {
      addr := -1;
    }
  }

  /** The byte at a is zero and the copy routines can get at it. */
  predicate NewByte(ram: Ram, s: Space, a: nat) {
    UserByte(ram, s, a) == 0 && Readable(ram, s.node, a / PGSIZE) && Writable(ram, s.node, a / PGSIZE)
  }

  lemma NewUsable(r0: Ram, s0: Space, ram: Ram, free: seq<nat>, s: Space, lo: nat, hi: nat, a: nat)
    requires NewPages(r0, s0, ram, s, lo, hi) && SpaceOk(ram, free, s) && 0 !in s.user.Values
    requires lo * PGSIZE <= a < hi * PGSIZE
    ensures NewByte(ram, s, a)
  {
    hide Base, Lookup, Separate;
    var v := a / PGSIZE;
    assert lo <= v < hi;
    assert PageOk(ram, free, s, v) && s.user[v] in s.user.Values;
  }

  lemma StoredUsable(ram: Ram, ram': Ram, s: Space, va: nat, t: seq<Byte>, a: nat)
    requires Poked(ram, ram', s, va, t) && va <= a < va + |t| && NewByte(ram, s, a)
    ensures UserByte(ram', s, a) == t[a - va] && Readable(ram', s.node, a / PGSIZE)
  {
    hide UserByte, Lookup;
  }

  /** Memory from a successful sbrk reads as zeroes and can be written: any bytes stored in its
      pages are read back. Frame 0 is not in the allocator's care. */
  method GrowAndUse(m: Machine, root: nat, sz: nat, n: int, va: nat, src: seq<Byte>, ghost s: Space)
    returns (addr: int, loaded: (int, seq<Byte>), stored: int, reloaded: (int, seq<Byte>))
    requires Image(m.ram, m.free, s, Pages(sz)) && Root in s.node && s.node[Root] == root && 0 !in Frames(m.free, s)
    requires 0 < n < 0x8000_0000 && Pages(sz) * PGSIZE <= va && va + |src| <= Pages(sz + n) * PGSIZE
    modifies m
    ensures addr != -1 ==>
              addr == sz && loaded == (0, seq<Byte>(|src|, _ => 0)) && stored == 0 && reloaded == (0, src)
  {
    hide Conserves, KeepsPages, NewPages, SameMap, UserByte, Readable, Writable, Poked, AllReadable, AllWritable;
    hide SpaceOk, Frames, Covers;
    loaded, stored, reloaded := (-1, []), -1, (-1, []);
    ghost var s';
    var sz';
    addr, sz', s' := Sbrk(m, root, sz, n, s);
    if addr == -1 {
      return;
    }
    NoFrameZero(old(m.ram), old(m.free), s, m.ram, m.free, s');
    forall a: nat | va <= a < va + |src| ensures NewByte(m.ram, s', a) {
      NewUsable(old(m.ram), s, m.ram, m.free, s', Pages(sz), Pages(sz'), a);
    }
    var r, dst := Copyin(m, root, va, |src|, s');
    ghost var was := m.ram;
    assert |dst| < |src| ==> NewByte(m.ram, s', va + |dst|);
    forall i | 0 <= i < |dst| ensures dst[i] == 0 { assert NewByte(m.ram, s', va + i); }
    assert dst == seq<Byte>(|src|, _ => 0);
    loaded := (r, dst);
    ghost var k;
    stored, k := Copyout(m, root, va, src, s');
    assert k < |src| ==> NewByte(was, s', va + k);
    assert src[..k] == src;
    r, dst := Copyin(m, root, va, |src|, s');
    if r == -1 { StoredUsable(was, m.ram, s', va, src, va + |dst|); }
    forall i | 0 <= i < |dst| ensures dst[i] == src[i] { StoredUsable(was, m.ram, s', va, src, va + i); }
    assert dst == src;
    reloaded := (r, dst);
  }

  lemma NoFrameZero(r0: Ram, f0: seq<nat>, s0: Space, ram: Ram, free: seq<nat>, s: Space)
    requires Conserves(r0, f0, s0, ram, free, s) && 0 !in Frames(f0, s0)
    ensures 0 !in s.user.Values
  {
    hide Pool;
  }
}
