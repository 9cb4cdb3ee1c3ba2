/** Disk blocks as byte strings, with the little-endian 32-bit words that the
    log header, the on-disk inodes and the indirect blocks are made of. */
module Blocks {

  const BSIZE: nat := 1024
  const WORDS: nat := 256

  type Byte = x: int | 0 <= x < 0x100
  type U32 = x: int | 0 <= x < 0x1_0000_0000
  type Block = b: seq<Byte> | |b| == BSIZE witness seq<Byte>(BSIZE, _ => 0)

  function ZeroBlock(): (b: Block)
    ensures forall i :: 0 <= i < BSIZE ==> b[i] == 0
  {
    seq<Byte>(BSIZE, _ => 0)
  }

  function Word(b: Block, k: nat): U32
    requires k < WORDS
  {
    var b0: int, b1: int, b2: int, b3: int := b[4 * k], b[4 * k + 1], b[4 * k + 2], b[4 * k + 3];
    b0 + 0x100 * b1 + 0x1_0000 * b2 + 0x100_0000 * b3
  }

  function PutWord(b: Block, k: nat, v: U32): Block
    requires k < WORDS
  {
    b[4 * k := v % 0x100]
    [4 * k + 1 := v / 0x100 % 0x100]
    [4 * k + 2 := v / 0x1_0000 % 0x100]
    [4 * k + 3 := v / 0x100_0000]
  }

  lemma SplitWord(v: U32)
    ensures v % 0x100 + 0x100 * (v / 0x100 % 0x100) + 0x1_0000 * (v / 0x1_0000 % 0x100)
            + 0x100_0000 * (v / 0x100_0000) == v
  {
    assert v / 0x1_0000 == v / 0x100 / 0x100;
    assert v / 0x100_0000 == v / 0x1_0000 / 0x100;
  }

  /** A word reads back as it was stored, and storing it disturbs no other word. */
  lemma WordOfPutWord(b: Block, k: nat, v: U32, j: nat)
    requires k < WORDS && j < WORDS
    ensures Word(PutWord(b, k, v), j) == if j == k then v else Word(b, j)
  {
    SplitWord(v);
  }

  /** Words base..base+k of b replaced by the first k of ws. */
  function PutWords(b: Block, base: nat, ws: seq<U32>, k: nat): Block
    requires k <= |ws| && base + |ws| <= WORDS
  {
    if k == 0 then b else PutWord(PutWords(b, base, ws, k - 1), base + k - 1, ws[k - 1])
  }

  lemma {:induction false} WordOfPutWords(b: Block, base: nat, ws: seq<U32>, k: nat, j: nat)
    requires k <= |ws| && base + |ws| <= WORDS && j < WORDS
    ensures Word(PutWords(b, base, ws, k), j) == if base <= j < base + k then ws[j - base] else Word(b, j)
  {
    if k > 0 {
      WordOfPutWords(b, base, ws, k - 1, j);
      WordOfPutWord(PutWords(b, base, ws, k - 1), base + k - 1, ws[k - 1], j);
    }
  }

  function GetWords(b: Block, base: nat, n: nat): (ws: seq<U32>)
    requires base + n <= WORDS
    ensures |ws| == n && forall k :: 0 <= k < n ==> ws[k] == Word(b, base + k)
  {
    seq<U32>(n, k requires 0 <= k < n => Word(b, base + k))
  }

  lemma GetOfPutWords(b: Block, base: nat, ws: seq<U32>)
    requires base + |ws| <= WORDS
    ensures GetWords(PutWords(b, base, ws, |ws|), base, |ws|) == ws
  {
    forall k | 0 <= k < |ws| ensures Word(PutWords(b, base, ws, |ws|), base + k) == ws[k] {
      WordOfPutWords(b, base, ws, |ws|, base + k);
    }
  }

  lemma GetOtherWords(b: Block, base: nat, ws: seq<U32>, other: nat, n: nat)
    requires base + |ws| <= WORDS && other + n <= WORDS
    requires other + n <= base || base + |ws| <= other
    ensures GetWords(PutWords(b, base, ws, |ws|), other, n) == GetWords(b, other, n)
  {
    var got, was := GetWords(PutWords(b, base, ws, |ws|), other, n), GetWords(b, other, n);
    forall k | 0 <= k < n ensures got[k] == was[k] {
      WordOfPutWords(b, base, ws, |ws|, other + k);
    }
  }

  // Writing blocks.

  /** One log_write, and the disk after a list of them. */
  datatype Update = Update(block: nat, contents: Block)

  function Applied(d: seq<Block>, ws: seq<Update>): (r: seq<Block>)
    ensures |r| == |d|
  {
    if ws == [] then d
    else
      var e, u := Applied(d, ws[..|ws| - 1]), ws[|ws| - 1];
      if u.block < |d| then e[u.block := u.contents] else e
  }

  function BlocksOf(ws: seq<Update>): set<nat> { set u | u in ws :: u.block }

  /** The last write is to a block that the earlier ones did not touch. */
  predicate EndsFresh(ws: seq<Update>) {
    ws == [] || ws[|ws| - 1].block !in BlocksOf(ws[..|ws| - 1])
  }

  lemma AppliedNone(d: seq<Block>)
    ensures Applied(d, []) == d && BlocksOf([]) == {}
  {
  }

  lemma AppliedMore(d: seq<Block>, ws: seq<Update>, u: Update)
    ensures Applied(d, ws + [u]) == if u.block < |d| then Applied(d, ws)[u.block := u.contents] else Applied(d, ws)
    ensures BlocksOf(ws + [u]) == BlocksOf(ws) + {u.block}
  {
    assert (ws + [u])[..|ws|] == ws;
    assert u in ws + [u];
    forall x | x in ws ensures x in ws + [u] {}
  }

  // Bits of a number, as the bitmap code tests and sets them with the mask 1 << i.

  function Pow2(n: nat): nat { if n == 0 then 1 else 2 * Pow2(n - 1) }

  predicate Bit(x: nat, i: nat) { if i == 0 then x % 2 == 1 else Bit(x / 2, i - 1) }

  /** x | 1 << i */
  function OrBit(x: nat, i: nat): nat {
    if i == 0 then x / 2 * 2 + 1 else 2 * OrBit(x / 2, i - 1) + x % 2
  }

  /** x & ~(1 << i) */
  function AndNotBit(x: nat, i: nat): nat {
    if i == 0 then x / 2 * 2 else 2 * AndNotBit(x / 2, i - 1) + x % 2
  }

  lemma {:induction false} OrBitSets(x: nat, i: nat, j: nat)
    ensures Bit(OrBit(x, i), j) <==> j == i || Bit(x, j)
  {
    if i > 0 && j > 0 { OrBitSets(x / 2, i - 1, j - 1); }
  }

  lemma {:induction false} AndNotBitClears(x: nat, i: nat, j: nat)
    ensures Bit(AndNotBit(x, i), j) <==> j != i && Bit(x, j)
  {
    if i > 0 && j > 0 { AndNotBitClears(x / 2, i - 1, j - 1); }
  }

  lemma {:induction false} BitOpsInRange(x: nat, i: nat, n: nat)
    requires x < Pow2(n) && i < n
    ensures OrBit(x, i) < Pow2(n) && AndNotBit(x, i) < Pow2(n)
  {
    if i > 0 { BitOpsInRange(x / 2, i - 1, n - 1); }
  }
}
