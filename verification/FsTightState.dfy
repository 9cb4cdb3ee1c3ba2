/** A file system in which the bound is reached: ninety-two files of the largest size,
    but for one block missing in four of them, and a file that ends inside its last
    direct block. */
module FsTightState {
  import opened Blocks
  import opened FsLayout
  import opened FsOwnership
  import opened FsContent
  import opened FsWrite
  import opened FsTight
  import opened Fs

  const DATA: nat := 42
  const SB: Superblock := Superblock(24802, 93, 32, 38, DATA)
  const LAST: nat := 92
  const OFF: nat := 11 * BSIZE + 1

  /** Slot k of inode j has number SLOTS * j + k and gets block DATA + number; these four,
      each the last slot of a file, get none. */
  predicate Skipped(m: nat) { m == 268 || m == 8338 || m == 16408 || m == 24747 }

  /** How many slots get a block: all those of the full files and LAST's direct ones. */
  const FILLED: nat := 24760

  function SizeOf(j: nat): U32 {
    if j == LAST then OFF else if Skipped(SLOTS * j + 268) then 267 * BSIZE else 268 * BSIZE
  }

  ghost predicate Given(m: nat, s: nat) { s < m && !Skipped(s) }

  /** Slots 0..m have their blocks. */
  ghost predicate Built(v: View, m: nat) {
    && Inv(SB, v)
    && (forall j, k :: 0 <= j < SB.ninodes && 0 <= k < SLOTS ==>
          Ref(v.disk, v.tab[j], k) == if Given(m, SLOTS * j + k) then DATA + SLOTS * j + k else 0)
    && (forall c :: 0 <= c < SB.size ==> (Used(SB, v.disk, c) <==> c < DATA || Given(m, c - DATA)))
    && (forall j :: 0 <= j < SB.ninodes ==> v.tab[j].size == SizeOf(j))
  }

  lemma Start() returns (v: View)
    ensures Built(v, 0)
  {
    var d := Marked(SB, DATA);
    var none := seq<U32>(NDIRECT + 1, _ => 0);
    v := View(d, seq(SB.ninodes, j requires 0 <= j < SB.ninodes => Inode(2, 0x1_0000, SizeOf(j), none)), map[]);
    hide Used;
  }

  lemma {:induction false} Build(m: nat) returns (v: View)
    requires m <= FILLED
    ensures Built(v, m)
  {
    if m == 0 {
      v := Start();
    } else {
      var u := Build(m - 1);
      if Skipped(m - 1) {
        v := u;
      } else {
        v := BuildStep(u, m - 1);
      }
    }
  }

  lemma BuildStep(u: View, m: nat) returns (v: View)
    requires Built(u, m) && m < FILLED && !Skipped(m)
    ensures Built(v, m + 1)
  {
    hide Exact, Ref, Used;
    var b, i, k := DATA + m, m / SLOTS, m % SLOTS;
    CanBuild(u, m);
    v := Adopt(SB, u, b, i, k);
    AdoptKeeps(SB, u, b, i, k);
    forall j, l | 0 <= j < SB.ninodes && 0 <= l < SLOTS
      ensures Ref(v.disk, v.tab[j], l) == if Given(m + 1, SLOTS * j + l) then DATA + SLOTS * j + l else 0
    {
      AdoptRefs(SB, u, b, i, k, j, l);
    }
    forall c | 0 <= c < SB.size ensures Used(SB, v.disk, c) <==> c < DATA || Given(m + 1, c - DATA) {
      AdoptBits(SB, u, b, i, k, c);
    }
  }

  lemma CanBuild(u: View, m: nat)
    requires Built(u, m) && m < FILLED
    ensures CanAdopt(SB, u, DATA + m, m / SLOTS, m % SLOTS)
  {
    hide Exact, Used;
    var i, k := m / SLOTS, m % SLOTS;
    assert SLOTS * i + k == m;
    assert Ref(u.disk, u.tab[i], k) == 0;
    if k > NDIRECT { assert Ref(u.disk, u.tab[i], NDIRECT) == DATA + SLOTS * i + NDIRECT; }
  }

  /** Inodes 0..m written to disk. */
  lemma {:induction false} Flush(v: View, m: nat) returns (w: View)
    requires Built(v, FILLED) && m <= SB.ninodes
    ensures Built(w, FILLED) && w.tab == v.tab && forall j :: 0 <= j < m ==> ReadInode(SB, w.disk, j) == w.tab[j]
  {
    hide Exact, Ref, Used, ReadInode, WriteInode;
    if m == 0 {
      w := v;
    } else {
      var u := Flush(v, m - 1);
      w := View(WriteInode(SB, u.disk, m - 1, u.tab[m - 1]), u.tab, u.owner);
      InodeStoreKeeps(SB, u, m - 1, u.tab[m - 1]);
      forall j, l | 0 <= j < SB.ninodes && 0 <= l < SLOTS ensures Ref(w.disk, w.tab[j], l) == Ref(u.disk, u.tab[j], l) {
        InodeStoreRefs(SB, u, m - 1, u.tab[m - 1], u.tab[j], l);
      }
      forall j | 0 <= j < m ensures ReadInode(SB, w.disk, j) == w.tab[j] {
        ReadOfWriteInode(SB, u.disk, m - 1, u.tab[m - 1], j);
      }
    }
  }

  lemma BuiltSolid(v: View)
    requires Built(v, FILLED)
    ensures Solid(SB, v)
  {
    hide Exact, Ref, Used;
    forall j, bn | 0 <= j < SB.ninodes && 0 <= bn < MAXFILE && bn * BSIZE < SizeOf(j)
      ensures DataRef(v.disk, v.tab[j], bn) != 0
    {
      assert Given(FILLED, SLOTS * j + DataSlot(bn));
    }
  }

  lemma BuiltCrosses(v: View)
    requires Built(v, FILLED)
    ensures Crosses(SB, v, LAST, OFF, 3 * BSIZE)
  {
    hide Exact, Used;
    assert Ref(v.disk, v.tab[LAST], NDIRECT) == 0;
  }

  lemma BuiltFree(v: View)
    requires Built(v, FILLED)
    ensures FourFree(SB, v.disk, [DATA + 268, DATA + 8338, DATA + 16408, DATA + 24747])
  {
    hide Exact, Used, Ref, SizeOf;
  }

  /** The state is one that the kernel keeps, and a chunk of 3 * BSIZE bytes appended to
      file LAST meets the conditions under which it logs ten blocks. */
  lemma BoundIsReached() returns (v: View, f: seq<nat>)
    ensures Resting(SB, v) && v.tab[LAST].size == OFF
    ensures Crosses(SB, v, LAST, OFF, 3 * BSIZE) && FourFree(SB, v.disk, f)
  {
    v := Build(FILLED);
    v := Flush(v, SB.ninodes);
    BuiltSolid(v);
    BuiltCrosses(v);
    BuiltFree(v);
    f := [DATA + 268, DATA + 8338, DATA + 16408, DATA + 24747];
    hide Exact, Used, Ref, Solid, ReadInode, Crosses, FourFree;
  }
}
