/** The on-disk structures of kernel/fs.c: the block bitmap, the inodes, and the
    block pointers that say which block belongs to which file. */
module FsLayout {
  import opened Blocks

  type Disk = seq<Block>

  const NDIRECT: nat := 12
  const NINDIRECT: nat := 256
  const MAXFILE: nat := 268
  const IPB: nat := 16
  const BPB: nat := 8192

  /** The superblock fields that fs.c uses; data blocks are datastart..size. */
  datatype Superblock = Superblock(size: nat, ninodes: nat, inodestart: nat, bmapstart: nat, datastart: nat)

  predicate WellFormed(sb: Superblock) {
    && 0 < sb.inodestart
    && sb.inodestart + (sb.ninodes + IPB - 1) / IPB <= sb.bmapstart
    && sb.bmapstart + (sb.size + BPB - 1) / BPB <= sb.datastart <= sb.size < 0x1_0000_0000
  }

  predicate Fits(sb: Superblock, d: Disk) { WellFormed(sb) && |d| == sb.size }

  // The bitmap.

  function BBlock(sb: Superblock, b: nat): nat { sb.bmapstart + b / BPB }

  predicate Used(sb: Superblock, d: Disk, b: nat)
    requires Fits(sb, d) && b < sb.size
  {
    Bit(d[BBlock(sb, b)][b % BPB / 8], b % BPB % 8)
  }

  /** No block is free. */
  ghost predicate Full(sb: Superblock, d: Disk)
    requires Fits(sb, d)
  {
    forall c :: 0 <= c < sb.size ==> Used(sb, d, c)
  }

  ghost predicate SameBits(sb: Superblock, d: Disk, e: Disk)
    requires Fits(sb, d) && Fits(sb, e)
  {
    forall c :: 0 <= c < sb.size ==> (Used(sb, d, c) <==> Used(sb, e, c))
  }

  lemma UsedInBlock(sb: Superblock, d: Disk, b: nat, bi: nat)
    requires Fits(sb, d) && b % BPB == 0 && bi < BPB && b + bi < sb.size
    ensures BBlock(sb, b + bi) == BBlock(sb, b) && (b + bi) % BPB == bi
    ensures Used(sb, d, b + bi) == Bit(d[BBlock(sb, b)][bi / 8], bi % 8)
  {
    assert (b + bi) / BPB == b / BPB;
  }

  function MarkByte(x: Byte, i: nat, used: bool): Byte
    requires i < 8
  {
    BitOpsInRange(x, i, 8);
    assert Pow2(8) == 256;
    if used then OrBit(x, i) else AndNotBit(x, i)
  }

  function MarkBlock(m: Block, i: nat, used: bool): Block
    requires i < BPB
  {
    m[i / 8 := MarkByte(m[i / 8], i % 8, used)]
  }

  function Mark(sb: Superblock, d: Disk, b: nat, used: bool): (r: Disk)
    requires Fits(sb, d) && b < sb.size
    ensures |r| == |d|
  {
    d[BBlock(sb, b) := MarkBlock(d[BBlock(sb, b)], b % BPB, used)]
  }

  lemma MarkUsed(sb: Superblock, d: Disk, b: nat, used: bool, c: nat)
    requires Fits(sb, d) && b < sb.size && c < sb.size
    ensures Used(sb, Mark(sb, d, b, used), c) == if c == b then used else Used(sb, d, c)
  {
    var x := d[BBlock(sb, b)][b % BPB / 8];
    if b / BPB == c / BPB && b % BPB / 8 == c % BPB / 8 {
      OrBitSets(x, b % BPB % 8, c % BPB % 8);
      AndNotBitClears(x, b % BPB % 8, c % BPB % 8);
    }
  }

  lemma {:induction false} NoBits(i: nat)
    ensures !Bit(0, i)
  {
    if i > 0 { NoBits(i - 1); }
  }

  /** A disk of zeroes with the first m blocks marked as used. */
  lemma {:induction false} Marked(sb: Superblock, m: nat) returns (d: Disk)
    requires WellFormed(sb) && m <= sb.size
    ensures Fits(sb, d) && forall c :: 0 <= c < sb.size ==> (Used(sb, d, c) <==> c < m)
  {
    if m == 0 {
      d := seq(sb.size, _ => ZeroBlock());
      forall c | 0 <= c < sb.size ensures !Used(sb, d, c) { NoBits(c % BPB % 8); }
    } else {
      var e := Marked(sb, m - 1);
      d := Mark(sb, e, m - 1, true);
      forall c | 0 <= c < sb.size ensures Used(sb, d, c) <==> c < m { MarkUsed(sb, e, m - 1, true, c); }
    }
  }

  // Inodes: 64 bytes, sixteen words. `kind` packs type and major, `links` packs
  // minor and nlink.

  datatype Inode = Inode(kind: U32, links: U32, size: U32, addrs: seq<U32>)

  function IBlock(sb: Superblock, i: nat): nat { sb.inodestart + i / IPB }

  function Encode(n: Inode): seq<U32> { [n.kind, n.links, n.size] + n.addrs }

  function Decode(ws: seq<U32>): Inode
    requires |ws| == 16
  {
    Inode(ws[0], ws[1], ws[2], ws[3..])
  }

  function ReadInode(sb: Superblock, d: Disk, i: nat): (n: Inode)
    requires Fits(sb, d) && i < sb.ninodes
    ensures |n.addrs| == NDIRECT + 1
  {
    Decode(GetWords(d[IBlock(sb, i)], i % IPB * 16, 16))
  }

  function WriteInode(sb: Superblock, d: Disk, i: nat, n: Inode): (r: Disk)
    requires Fits(sb, d) && i < sb.ninodes && |n.addrs| == NDIRECT + 1
    ensures Fits(sb, r)
  {
    var k := IBlock(sb, i);
    d[k := PutWords(d[k], i % IPB * 16, Encode(n), 16)]
  }

  /** iupdate then ilock's read gives back the inode and disturbs no other. */
  lemma ReadOfWriteInode(sb: Superblock, d: Disk, i: nat, n: Inode, j: nat)
    requires Fits(sb, d) && i < sb.ninodes && j < sb.ninodes && |n.addrs| == NDIRECT + 1
    ensures ReadInode(sb, WriteInode(sb, d, i, n), j) == if j == i then n else ReadInode(sb, d, j)
  {
    hide PutWords, GetWords;
    if i / IPB == j / IPB {
      var b, ws := d[IBlock(sb, i)], Encode(n);
      if j == i {
        GetOfPutWords(b, i % IPB * 16, ws);
        assert ws[3..] == n.addrs;
      } else {
        GetOtherWords(b, i % IPB * 16, ws, j % IPB * 16, 16);
      }
    }
  }
}
