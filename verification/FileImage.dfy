/**
  The JOS file system image (inc/fs.h): blocks, file structures as they lie on the disk, and what it means
  that a file is stored.  A file's blocks are numbered by ten direct pointers and an indirect block of 1024 more.
 */
module FileImage {

  const BLKSIZE: nat := 4096
  const BLKBITSIZE: nat := 32768
  const NDIRECT: nat := 10
  const NINDIRECT: nat := 1024
  const MAXFILESIZE: nat := 4235264        // (NDIRECT + NINDIRECT) * BLKSIZE
  const MAXNAMELEN: nat := 128
  const FILESIZE: nat := 256               // sizeof(struct File)
  const PADSIZE: nat := 76
  const BLKFILES: nat := 16                // BLKSIZE / sizeof(struct File)
  const FTYPE_REG: nat := 0
  const FTYPE_DIR: nat := 1
  const FS_MAGIC: nat := 0x4A0530AE
  const E_INVAL: int := -3
  const E_NOT_FOUND: int := -12

  type byte = b: int | 0 <= b < 256

  type Blocks = seq<seq<byte>>

  // ---------------------------------------------------------------------------------------------
  // 32-bit words, little-endian.

  predicate IsWord(v: nat) {
    v < 0x1_0000_0000
  }

  function Le(v: nat): (b: seq<byte>)
    requires IsWord(v)
    ensures |b| == 4
  {
    [v % 0x100, v / 0x100 % 0x100, v / 0x1_0000 % 0x100, v / 0x100_0000]
  }

  function FromLe(b: seq<byte>): (v: nat)
    requires |b| == 4
    ensures IsWord(v)
  {
    b[0] as nat + 0x100 * b[1] as nat + 0x1_0000 * b[2] as nat + 0x100_0000 * b[3] as nat
  }

  lemma LeRoundTrip(v: nat)
    requires IsWord(v)
    ensures FromLe(Le(v)) == v
  {
    assert v / 0x1_0000 == v / 0x100 / 0x100;
    assert v / 0x100_0000 == v / 0x1_0000 / 0x100;
  }

  predicate AreWords(ws: seq<nat>) {
    forall i :: 0 <= i < |ws| ==> IsWord(ws[i])
  }

  function LeAll(ws: seq<nat>): (b: seq<byte>)
    requires AreWords(ws)
    ensures |b| == 4 * |ws|
  {
    if ws == [] then [] else Le(ws[0]) + LeAll(ws[1..])
  }

  function FromLeAll(b: seq<byte>, n: nat): (ws: seq<nat>)
    requires |b| == 4 * n
    ensures |ws| == n && AreWords(ws)
  {
    if n == 0 then [] else [FromLe(b[..4])] + FromLeAll(b[4..], n - 1)
  }

  lemma {:induction false} LeAllRoundTrip(ws: seq<nat>)
    requires AreWords(ws)
    ensures FromLeAll(LeAll(ws), |ws|) == ws
  {
    if ws != [] {
      assert LeAll(ws)[..4] == Le(ws[0]) && LeAll(ws)[4..] == LeAll(ws[1..]);
      LeRoundTrip(ws[0]);
      LeAllRoundTrip(ws[1..]);
    }
  }

  /** Word `i` of a block. */
  function Word(b: seq<byte>, i: nat): nat
    requires |b| == BLKSIZE && i < NINDIRECT
  {
    FromLe(b[4 * i..4 * i + 4])
  }

  function PutWord(b: seq<byte>, i: nat, v: nat): (b': seq<byte>)
    requires |b| == BLKSIZE && i < NINDIRECT && IsWord(v)
    ensures |b'| == BLKSIZE
  {
    b[..4 * i] + Le(v) + b[4 * i + 4..]
  }

  lemma Behind(a: seq<byte>, w: seq<byte>, c: seq<byte>, k: nat)
    requires |w| == 4 && |a| + 4 <= k <= k + 4 <= |a| + 4 + |c|
    ensures (a + w + c)[k..k + 4] == c[k - |a| - 4..k - |a|]
  {
  }

  lemma PutGet(b: seq<byte>, i: nat, v: nat, j: nat)
    requires |b| == BLKSIZE && i < NINDIRECT && j < NINDIRECT && IsWord(v)
    ensures Word(PutWord(b, i, v), j) == if j == i then v else Word(b, j)
  {
    hide Le, FromLe;
    LeRoundTrip(v);
    var b' := PutWord(b, i, v);
    if j == i {
      assert b'[4 * j..4 * j + 4] == Le(v);
    } else if j < i {
      assert b'[4 * j..4 * j + 4] == b[4 * j..4 * j + 4];
    } else {
      Behind(b[..4 * i], Le(v), b[4 * i + 4..], 4 * j);
      assert b[4 * i + 4..][4 * j - 4 * i - 4..4 * j - 4 * i] == b[4 * j..4 * j + 4];
    }
  }

  // ---------------------------------------------------------------------------------------------
  // struct File.

  datatype File = File(name: seq<byte>, size: nat, ftype: nat, direct: seq<nat>, indirect: nat, pad: seq<byte>)

  predicate IsFile(f: File) {
    && |f.name| == MAXNAMELEN && |f.direct| == NDIRECT && |f.pad| == PADSIZE
    && IsWord(f.size) && IsWord(f.ftype) && AreWords(f.direct) && IsWord(f.indirect)
  }

  predicate AreFiles(fs: seq<File>) {
    forall i {:trigger fs[i]} :: 0 <= i < |fs| ==> IsFile(fs[i])
  }

  function Zeros(n: nat): (b: seq<byte>)
    ensures |b| == n && forall i :: 0 <= i < n ==> b[i] == 0
  {
    seq(n, _ => 0)
  }

  /** The 256 bytes of a file structure. */
  function Encode(f: File): (b: seq<byte>)
    requires IsFile(f)
    ensures |b| == FILESIZE
  {
    f.name + Le(f.size) + Le(f.ftype) + LeAll(f.direct) + Le(f.indirect) + f.pad
  }

  function Decode(b: seq<byte>): (f: File)
    requires |b| == FILESIZE
    ensures IsFile(f)
  {
    File(b[..128], FromLe(b[128..132]), FromLe(b[132..136]), FromLeAll(b[136..176], NDIRECT), FromLe(b[176..180]), b[180..])
  }

  /** A file structure survives being written to the disk and read back. */
  lemma EncodeRoundTrip(f: File)
    requires IsFile(f)
    ensures Decode(Encode(f)) == f
  {
    hide Le, FromLe, LeAll, FromLeAll;
    var b := Encode(f);
    assert b[..128] == f.name && b[180..] == f.pad;
    assert b[128..132] == Le(f.size) && b[132..136] == Le(f.ftype) && b[176..180] == Le(f.indirect);
    assert b[136..176] == LeAll(f.direct);
    LeRoundTrip(f.size);
    LeRoundTrip(f.ftype);
    LeRoundTrip(f.indirect);
    LeAllRoundTrip(f.direct);
  }

  /** The word `v` stands at byte `at`, its lowest byte first. */
  predicate WordAt(b: seq<byte>, at: nat, v: nat) {
    && at + 4 <= |b|
    && b[at] as nat == v % 256 && b[at + 1] as nat == v / 256 % 256
    && b[at + 2] as nat == v / 65536 % 256 && b[at + 3] as nat == v / 16777216 % 256
  }

  lemma LeWordAt(v: nat)
    requires IsWord(v)
    ensures WordAt(Le(v), 0, v)
  {
  }

  lemma WordInside(a: seq<byte>, w: seq<byte>, c: seq<byte>, i: nat, v: nat)
    requires WordAt(w, i, v)
    ensures WordAt(a + w + c, |a| + i, v)
  {
    assert forall k {:trigger w[k]} :: i <= k < i + 4 ==> (a + w + c)[|a| + k] == w[k];
  }

  lemma {:induction false} WordsInside(ws: seq<nat>, i: nat)
    requires AreWords(ws) && i < |ws|
    ensures WordAt(LeAll(ws), 4 * i, ws[i])
  {
    hide WordAt, Le;
    if i == 0 {
      LeWordAt(ws[0]);
      WordInside([], Le(ws[0]), LeAll(ws[1..]), 0, ws[0]);
      assert [] + Le(ws[0]) + LeAll(ws[1..]) == LeAll(ws);
    } else {
      WordsInside(ws[1..], i - 1);
      WordInside(Le(ws[0]), LeAll(ws[1..]), [], 4 * (i - 1), ws[i]);
      assert Le(ws[0]) + LeAll(ws[1..]) + [] == LeAll(ws);
    }
  }

  /** Where the fields of a struct File lie, packed and in the order of their declaration. */
  lemma EncodeLayout(f: File)
    requires IsFile(f)
    ensures Encode(f)[..128] == f.name && WordAt(Encode(f), 128, f.size) && WordAt(Encode(f), 132, f.ftype)
    ensures forall i {:trigger f.direct[i]} :: 0 <= i < 10 ==> WordAt(Encode(f), 136 + 4 * i, f.direct[i])
    ensures WordAt(Encode(f), 176, f.indirect) && Encode(f)[180..] == f.pad
  {
    hide WordAt, Le, LeAll;
    var s, t, d, n := Le(f.size), Le(f.ftype), LeAll(f.direct), Le(f.indirect);
    LeWordAt(f.size);
    LeWordAt(f.ftype);
    LeWordAt(f.indirect);
    WordInside(f.name, s, t + d + n + f.pad, 0, f.size);
    assert f.name + s + (t + d + n + f.pad) == Encode(f);
    WordInside(f.name + s, t, d + n + f.pad, 0, f.ftype);
    assert f.name + s + t + (d + n + f.pad) == Encode(f);
    WordInside(f.name + s + t + d, n, f.pad, 0, f.indirect);
    forall i | 0 <= i < 10 ensures WordAt(Encode(f), 136 + 4 * i, f.direct[i]) {
      WordsInside(f.direct, i);
      WordInside(f.name + s + t, d, n + f.pad, 4 * i, f.direct[i]);
      assert f.name + s + t + d + (n + f.pad) == Encode(f);
    }
  }

  /** A C string that fits f_name. */
  predicate IsName(name: seq<byte>) {
    |name| < MAXNAMELEN && 0 !in name
  }

  /** strcmp(f_name, name) == 0 */
  predicate Named(field: seq<byte>, name: seq<byte>)
    requires |field| == MAXNAMELEN && IsName(name)
  {
    field[..|name|] == name && field[|name|] == 0
  }

  /** strcpy(f_name, name): what is behind the end of the string stays. */
  function StrCpy(field: seq<byte>, name: seq<byte>): (field': seq<byte>)
    requires |field| == MAXNAMELEN && IsName(name)
    ensures |field'| == MAXNAMELEN
  {
    name + [0] + field[|name| + 1..]
  }

  /** After strcpy, strcmp finds that string and no other. */
  lemma StrCpyNamed(field: seq<byte>, name: seq<byte>, other: seq<byte>)
    requires |field| == MAXNAMELEN && IsName(name) && IsName(other)
    ensures Named(StrCpy(field, name), other) <==> other == name
  {
    var c := StrCpy(field, name);
    assert c[..|name|] == name && c[|name|] == 0;
    assert |other| < |name| ==> c[|other|] == name[|other|] != 0;
    assert |name| < |other| ==> c[..|other|][|name|] == 0 != other[|name|];
    assert |name| == |other| ==> c[..|other|] == name;
  }

  /** The file structures of a directory, one after the other. */
  function EncodeAll(fs: seq<File>): (b: seq<byte>)
    requires AreFiles(fs)
    ensures |b| == FILESIZE * |fs|
  {
    if fs == [] then [] else EncodeAll(fs[..|fs| - 1]) + Encode(fs[|fs| - 1])
  }

  lemma {:induction false} EncodeAllAt(fs: seq<File>, n: nat)
    requires AreFiles(fs) && n < |fs|
    ensures EncodeAll(fs)[FILESIZE * n..FILESIZE * n + FILESIZE] == Encode(fs[n])
    decreases |fs|
  {
    hide Encode;
    var last := |fs| - 1;
    if n < last {
      EncodeAllAt(fs[..last], n);
      assert EncodeAll(fs)[FILESIZE * n..FILESIZE * n + FILESIZE] == EncodeAll(fs[..last])[FILESIZE * n..FILESIZE * n + FILESIZE];
    }
  }

  // ---------------------------------------------------------------------------------------------
  // What a file on the disk is.

  /** The number of blocks of a file: ROUNDUP(len, BLKSIZE) / BLKSIZE. */
  function NBlocks(len: nat): nat {
    (len + BLKSIZE - 1) / BLKSIZE
  }

  lemma NBlocksBound(len: nat)
    ensures len <= MAXFILESIZE ==> NBlocks(len) <= NDIRECT + NINDIRECT
    ensures len <= NBlocks(len) * BLKSIZE < len + BLKSIZE
  {
  }

  ghost predicate Shape(blocks: Blocks) {
    forall i :: 0 <= i < |blocks| ==> |blocks[i]| == BLKSIZE
  }

  /** What file_block_walk finds for block `j` of a file: a block number, an error code, or the panic of diskaddr. */
  datatype Walk = Slot(ptr: nat) | NoSlot(code: int) | BadSlot

  function BlockWalk(blocks: Blocks, f: File, j: nat): Walk
    requires Shape(blocks) && IsFile(f)
  {
    if j < NDIRECT then Slot(f.direct[j])
    else if j >= NDIRECT + NINDIRECT then NoSlot(E_INVAL)
    else if f.indirect == 0 then NoSlot(E_NOT_FOUND)
    else if f.indirect >= |blocks| then BadSlot
    else Slot(Word(blocks[f.indirect], j - NDIRECT))
  }

  /** What file_get_block answers: the contents of the block, an error code, or the panic. */
  datatype Got = Block(blk: seq<byte>) | Error(code: int) | Panic

  function BlockOf(blocks: Blocks, f: File, j: nat): (g: Got)
    requires Shape(blocks) && IsFile(f)
    ensures g.Block? ==> |g.blk| == BLKSIZE
  {
    match BlockWalk(blocks, f, j)
    case NoSlot(code) => Error(code)
    case BadSlot => Panic
    case Slot(ptr) => if ptr == 0 then Error(E_NOT_FOUND) else if ptr >= |blocks| then Panic else Block(blocks[ptr])
  }

  /** Block `j` of the file is block `start + j` of the disk. */
  ghost predicate BlockAt(blocks: Blocks, f: File, start: nat, j: nat)
    requires Shape(blocks) && IsFile(f)
  {
    BlockWalk(blocks, f, j) == Slot(start + j)
  }

  /** Byte `k` of the file. */
  ghost predicate ByteAt(blocks: Blocks, start: nat, k: nat, x: byte)
    requires Shape(blocks)
  {
    start + k / BLKSIZE < |blocks| && blocks[start + k / BLKSIZE][k % BLKSIZE] == x
  }

  ghost predicate Holds(blocks: Blocks, start: nat, data: seq<byte>)
    requires Shape(blocks)
  {
    forall k: nat {:trigger ByteAt(blocks, start, k, data[k])} :: k < |data| ==> ByteAt(blocks, start, k, data[k])
  }

  /** `f` is a file with contents `data`, in the blocks from `start` on and below `end`. */
  ghost predicate Stored(blocks: Blocks, f: File, data: seq<byte>, start: nat, end: nat) {
    && Shape(blocks) && IsFile(f) && f.size == |data| <= MAXFILESIZE
    && 0 < start && start + NBlocks(|data|) <= end <= |blocks|
    && (NBlocks(|data|) > NDIRECT ==> start + NBlocks(|data|) <= f.indirect < end)
    && (forall j: nat {:trigger BlockAt(blocks, f, start, j)} :: j < NBlocks(|data|) ==> BlockAt(blocks, f, start, j))
    && Holds(blocks, start, data)
  }

  ghost predicate SameBelow(blocks: Blocks, blocks': Blocks, lo: nat, end: nat) {
    |blocks'| == |blocks| && end <= |blocks| && Shape(blocks') && forall i :: lo <= i < end ==> blocks'[i] == blocks[i]
  }

  /** A file depends on its own blocks only. */
  lemma StoredFrame(blocks: Blocks, blocks': Blocks, f: File, data: seq<byte>, start: nat, end: nat)
    requires Stored(blocks, f, data, start, end) && SameBelow(blocks, blocks', start, end)
    ensures Stored(blocks', f, data, start, end)
  {
    forall j: nat | j < NBlocks(|data|) ensures BlockAt(blocks', f, start, j) {
      assert BlockAt(blocks, f, start, j);
    }
    forall k: nat | k < |data| ensures ByteAt(blocks', start, k, data[k]) {
      assert ByteAt(blocks, start, k, data[k]);
    }
  }

  /** The block of a stored file that has byte `pos`. */
  lemma StoredBlock(blocks: Blocks, f: File, data: seq<byte>, start: nat, end: nat, pos: nat)
    requires Stored(blocks, f, data, start, end) && pos < |data|
    ensures start + pos / BLKSIZE < |blocks| && BlockOf(blocks, f, pos / BLKSIZE) == Block(blocks[start + pos / BLKSIZE])
  {
    hide BlockWalk, ByteAt;
    assert BlockAt(blocks, f, start, pos / BLKSIZE);
  }

  lemma PieceOfBlock(blocks: Blocks, start: nat, data: seq<byte>, pos: nat, bn: nat)
    requires Shape(blocks) && Holds(blocks, start, data) && pos + bn <= |data| && 0 < bn <= BLKSIZE - pos % BLKSIZE
    ensures start + pos / BLKSIZE < |blocks|
    ensures blocks[start + pos / BLKSIZE][pos % BLKSIZE..pos % BLKSIZE + bn] == data[pos..pos + bn]
  {
    assert ByteAt(blocks, start, pos, data[pos]);
    var piece := blocks[start + pos / BLKSIZE][pos % BLKSIZE..pos % BLKSIZE + bn];
    forall i | 0 <= i < bn ensures piece[i] == data[pos..pos + bn][i] {
      assert ByteAt(blocks, start, pos + i, data[pos + i]);
      assert (pos + i) / BLKSIZE == pos / BLKSIZE && (pos + i) % BLKSIZE == pos % BLKSIZE + i;
    }
  }
}
