/** Sv39 page tables as kernel/vm.c builds them (section 4.4 of the RISC-V Privileged
    Architecture, version 1.12): three levels of 512-entry tables that together stand
    for one flat map from virtual page number to page-table entry. Shifts and masks
    are written as division and remainder. */
module PageTable {
  import Blocks

  const PGSIZE: nat := 4096
  const ENTRIES: nat := 512
  /** MAXVA / PGSIZE */
  const MAXVPN: nat := 0x400_0000

  type Byte = Blocks.Byte

  /** A physical page: free or just allocated, a page-table page, or user bytes. */
  datatype Page = Junk | Table(ptes: seq<nat>) | Bytes(data: seq<Byte>)

  type Ram = seq<Page>

  // Page-table entries: the frame number above ten flag bits.

  function MakePte(frame: nat, flags: nat): nat { frame * 1024 + flags }
  function Frame(pte: nat): nat { pte / 1024 }
  function Flags(pte: nat): nat { pte % 1024 }
  predicate V(pte: nat) { Flags(pte) % 2 == 1 }
  predicate R(pte: nat) { Flags(pte) / 2 % 2 == 1 }
  predicate W(pte: nat) { Flags(pte) / 4 % 2 == 1 }
  predicate X(pte: nat) { Flags(pte) / 8 % 2 == 1 }
  predicate U(pte: nat) { Flags(pte) / 16 % 2 == 1 }

  /** Maps a page rather than pointing to a table. */
  predicate IsLeaf(pte: nat) { R(pte) || W(pte) || X(pte) }

  /** The flags of an entry have its bits; a leaf is never a bare table pointer. */
  lemma FlagBits(pte: nat)
    ensures Flags(pte) < 1024 && Flags(Flags(pte)) == Flags(pte)
    ensures V(Flags(pte)) == V(pte) && U(Flags(pte)) == U(pte) && IsLeaf(Flags(pte)) == IsLeaf(pte)
    ensures IsLeaf(pte) ==> Flags(pte) != 1
  {
    assert pte % 1024 % 1024 == pte % 1024;
  }

  lemma PteFields(frame: nat, flags: nat)
    requires flags < 1024
    ensures Frame(MakePte(frame, flags)) == frame && Flags(MakePte(frame, flags)) == flags
  {
  }

  /** PX(level, va): the nine bits that index the table of that level. */
  function Px(level: nat, va: nat): (i: nat)
    requires level <= 2
    ensures i < ENTRIES
  {
    va / (if level == 0 then 0x1000 else if level == 1 then 0x20_0000 else 0x4000_0000) % ENTRIES
  }

  /** Where a page-table page sits in the tree. */
  datatype Path = Root | Mid(i: nat) | Leaf(i: nat, j: nat)

  type Tree = map<Path, nat>

  function I2(vpn: nat): nat { vpn / 0x4_0000 }
  function I1(vpn: nat): nat { vpn / ENTRIES % ENTRIES }
  function I0(vpn: nat): nat { vpn % ENTRIES }

  /** The three indices of a virtual address determine its page, and the other way round. */
  lemma Indices(va: nat)
    requires va < MAXVPN * PGSIZE
    ensures Px(2, va) == I2(va / PGSIZE) && Px(1, va) == I1(va / PGSIZE) && Px(0, va) == I0(va / PGSIZE)
  {
    assert va / 0x20_0000 == va / PGSIZE / ENTRIES;
    assert va / 0x4000_0000 == va / PGSIZE / 0x4_0000;
  }

  lemma SamePage(a: nat, b: nat)
    requires I2(a) == I2(b) && I1(a) == I1(b) && I0(a) == I0(b)
    ensures a == b
  {
    assert a / ENTRIES == a / 0x4_0000 * ENTRIES + I1(a);
    assert b / ENTRIES == b / 0x4_0000 * ENTRIES + I1(b);
  }

  predicate IsTable(ram: Ram, f: nat) { f < |ram| && ram[f].Table? && |ram[f].ptes| == ENTRIES }

  /** The entry for child p of a table page: a pointer with only the valid bit, or 0. */
  predicate EntryOk(e: nat, t: Tree, p: Path) { e == if p in t then MakePte(t[p], 1) else 0 }

  ghost predicate Injective(t: Tree) {
    forall p, q :: p in t && q in t && p != q ==> t[p] != t[q]
  }

  ghost predicate TreeOk(ram: Ram, t: Tree) {
    && Root in t && Injective(t)
    && (forall p :: p in t ==> IsTable(ram, t[p]))
    && (forall i :: 0 <= i < ENTRIES ==> EntryOk(ram[t[Root]].ptes[i], t, Mid(i)))
    && (forall i: nat, j :: Mid(i) in t && 0 <= j < ENTRIES ==> EntryOk(ram[t[Mid(i)]].ptes[j], t, Leaf(i, j)))
    && (forall i: nat :: Mid(i) in t ==> i < ENTRIES)
    && (forall i: nat, j: nat :: Leaf(i, j) in t ==> Mid(i) in t && j < ENTRIES)
  }

  /** The flat map: the entry of virtual page vpn, 0 when no table reaches it. */
  function Lookup(ram: Ram, t: Tree, vpn: nat): nat {
    var p := Leaf(I2(vpn), I1(vpn));
    if p in t && IsTable(ram, t[p]) then ram[t[p]].ptes[I0(vpn)] else 0
  }

  function PutPte(ram: Ram, f: nat, i: nat, e: nat): (r: Ram)
    requires IsTable(ram, f) && i < ENTRIES
    ensures |r| == |ram| && IsTable(r, f) && r[f].ptes == ram[f].ptes[i := e]
    ensures forall g :: 0 <= g < |ram| && g != f ==> r[g] == ram[g]
  {
    ram[f := Table(ram[f].ptes[i := e])]
  }

  function ZeroTable(): (p: Page)
    ensures p.Table? && |p.ptes| == ENTRIES && forall i :: 0 <= i < ENTRIES ==> p.ptes[i] == 0
  {
    Table(seq(ENTRIES, _ => 0))
  }

  function Parent(p: Path): Path
    requires !p.Root?
  {
    if p.Mid? then Root else Mid(p.i)
  }

  function Slot(p: Path): nat
    requires !p.Root?
  {
    if p.Mid? then p.i else p.j
  }

  /** Frame f, zeroed, becomes the page-table page at path p. */
  function Grow(ram: Ram, t: Tree, p: Path, f: nat): Ram
    requires !p.Root? && Parent(p) in t && IsTable(ram, t[Parent(p)]) && Slot(p) < ENTRIES && f < |ram|
    requires f != t[Parent(p)]
  {
    PutPte(ram[f := ZeroTable()], t[Parent(p)], Slot(p), MakePte(f, 1))
  }

  ghost predicate CanGrow(ram: Ram, t: Tree, p: Path, f: nat) {
    && TreeOk(ram, t) && !p.Root? && p !in t && Parent(p) in t && Slot(p) < ENTRIES
    && f < |ram| && forall q :: q in t ==> t[q] != f
  }

  /** walk's allocation keeps the tree well formed and leaves the flat map alone. */
  lemma GrowOk(ram: Ram, t: Tree, p: Path, f: nat)
    requires CanGrow(ram, t, p, f)
    ensures TreeOk(Grow(ram, t, p, f), t[p := f])
  {
    var r, u := Grow(ram, t, p, f), t[p := f];
    forall q | q in u ensures IsTable(r, u[q]) { }
    forall i, j | Mid(i) in u && 0 <= j < ENTRIES ensures EntryOk(r[u[Mid(i)]].ptes[j], u, Leaf(i, j)) {
      if Mid(i) == p { assert Leaf(i, j) !in t; }
    }
  }

  lemma GrowLookup(ram: Ram, t: Tree, p: Path, f: nat, vpn: nat)
    requires CanGrow(ram, t, p, f)
    ensures Lookup(Grow(ram, t, p, f), t[p := f], vpn) == Lookup(ram, t, vpn)
  {
    var q := Leaf(I2(vpn), I1(vpn));
    if q in t { assert t[q] != f; }
  }

  /** Storing a leaf entry updates the flat map at that page only. */
  lemma StoreOk(ram: Ram, t: Tree, vpn: nat, e: nat)
    requires TreeOk(ram, t) && Leaf(I2(vpn), I1(vpn)) in t
    ensures TreeOk(PutPte(ram, t[Leaf(I2(vpn), I1(vpn))], I0(vpn), e), t)
  {
    var p := Leaf(I2(vpn), I1(vpn));
    var r := PutPte(ram, t[p], I0(vpn), e);
    forall q | q in t ensures IsTable(r, t[q]) && (!q.Leaf? ==> r[t[q]] == ram[t[q]]) { }
  }

  lemma StoreLookup(ram: Ram, t: Tree, vpn: nat, e: nat, w: nat)
    requires TreeOk(ram, t) && Leaf(I2(vpn), I1(vpn)) in t
    ensures Lookup(PutPte(ram, t[Leaf(I2(vpn), I1(vpn))], I0(vpn), e), t, w) == if w == vpn then e
              else Lookup(ram, t, w)
  {
    if I0(w) == I0(vpn) && I1(w) == I1(vpn) && I2(w) == I2(vpn) { SamePage(w, vpn); }
  }

  /** Memory outside the tables does not matter to the tree. */
  lemma Elsewhere(ram: Ram, r: Ram, t: Tree)
    requires TreeOk(ram, t) && |r| == |ram| && forall p :: p in t ==> r[t[p]] == ram[t[p]]
    ensures TreeOk(r, t) && forall vpn: nat :: Lookup(r, t, vpn) == Lookup(ram, t, vpn)
  {
    forall p | p in t ensures IsTable(r, t[p]) && r[t[p]].ptes == ram[t[p]].ptes { assert r[t[p]] == ram[t[p]]; }
  }
}
