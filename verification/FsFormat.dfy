/** fsformat of JOS, fs/fsformat.c: it writes files, one after the other, and a root directory into a new image. */
module FsFormat {
  import opened FileImage

  const MAX_DIR_ENTS: nat := 128

  /** A file that is to be written: what follows the last slash of its path, and its contents. */
  datatype Source = Source(name: seq<byte>, data: seq<byte>)

  /** A file that has been written: its structure, its contents and its blocks. */
  datatype Written = Written(f: File, data: seq<byte>, start: nat, end: nat)

  /** The blocks that a file of `len` bytes takes: a file that uses all direct pointers also gets an indirect block. */
  function Needs(len: nat): nat {
    NBlocks(len) + if NBlocks(len) >= NDIRECT then 1 else 0
  }

  /** How writefile and fsformat end: well, in a panic, or with a strcpy beyond f_name, after which nothing is said. */
  datatype Result = Done | Halt | Overrun

  function WriteResult(nblocks: nat, n: nat, pos: nat, name: seq<byte>, len: nat): Result {
    if len >= MAXFILESIZE || n >= MAX_DIR_ENTS then Halt
    else if |name| >= MAXNAMELEN then Overrun
    else if pos + Needs(len) < nblocks then Done
    else Halt
  }

  /** All bytes from `len` on, counted from block `start`, are zero. */
  ghost predicate ZeroAfter(blocks: Blocks, start: nat, len: nat)
    requires Shape(blocks)
  {
    forall k: nat {:trigger ByteAt(blocks, start, k, 0)} :: len <= k && start + k / BLKSIZE < |blocks| ==> ByteAt(blocks, start, k, 0)
  }

  lemma ZeroLater(blocks: Blocks, start: nat, len: nat, start': nat)
    requires Shape(blocks) && ZeroAfter(blocks, start, len) && start + NBlocks(len) <= start'
    ensures ZeroAfter(blocks, start', 0)
  {
    NBlocksBound(len);
    forall k: nat | start' + k / BLKSIZE < |blocks| ensures ByteAt(blocks, start', k, 0) {
      Shifted(start, start', k);
      assert ByteAt(blocks, start, (start' - start) * BLKSIZE + k, 0);
    }
  }

  lemma Shifted(start: nat, start': nat, k: nat)
    requires start <= start'
    ensures ((start' - start) * BLKSIZE + k) / BLKSIZE == start' - start + k / BLKSIZE && ((start' - start) * BLKSIZE + k) % BLKSIZE == k % BLKSIZE
  {
  }

  /** Data and the zeroes behind it. */
  lemma HoldsPadded(blocks: Blocks, start: nat, data: seq<byte>, z: nat)
    requires Shape(blocks) && Holds(blocks, start, data) && ZeroAfter(blocks, start, |data|)
    requires start + NBlocks(|data| + z) <= |blocks|
    ensures Holds(blocks, start, data + Zeros(z))
  {
    var all := data + Zeros(z);
    NBlocksBound(|all|);
    forall k: nat | k < |all| ensures ByteAt(blocks, start, k, all[k]) {
      if k < |data| {
        assert ByteAt(blocks, start, k, data[k]);
      } else {
        assert k / BLKSIZE < NBlocks(|all|);
        assert ByteAt(blocks, start, k, 0);
      }
    }
  }

  /** The files take the blocks from 3 up to `pos`, one after the other. */
  ghost predicate Chain(ws: seq<Written>, pos: nat) {
    if ws == [] then pos == 3
    else
      var w := ws[|ws| - 1];
      pos == w.end == w.start + Needs(|w.data|) && Chain(ws[..|ws| - 1], w.start)
  }

  /** Files that follow one another are disjoint, and leave no block between them. */
  lemma {:induction false} ChainApart(ws: seq<Written>, pos: nat)
    requires Chain(ws, pos)
    ensures 3 <= pos && forall i :: 0 <= i < |ws| ==> 3 <= ws[i].start <= ws[i].end <= pos
    ensures forall i, j :: 0 <= i < j < |ws| ==> ws[i].end <= ws[j].start
    ensures forall b {:trigger Inside(ws, b)} :: 3 <= b < pos <==> Inside(ws, b)
    decreases |ws|
  {
    if ws != [] {
      var last := |ws| - 1;
      ChainApart(ws[..last], ws[last].start);
      assert forall i :: 0 <= i < last ==> ws[i] == ws[..last][i];
      forall b ensures 3 <= b < pos <==> Inside(ws, b) {
        assert Inside(ws, b) <==> Inside(ws[..last], b) || ws[last].start <= b < ws[last].end;
      }
    }
  }

  /** Block `b` belongs to one of the files. */
  ghost predicate Inside(ws: seq<Written>, b: int) {
    exists i :: 0 <= i < |ws| && ws[i].start <= b < ws[i].end
  }

  ghost predicate WrittenOk(blocks: Blocks, w: Written) {
    Stored(blocks, w.f, w.data, w.start, w.end)
  }

  ghost predicate AllWritten(blocks: Blocks, ws: seq<Written>) {
    forall i {:trigger ws[i]} :: 0 <= i < |ws| ==> WrittenOk(blocks, ws[i])
  }

  /** Files that lie between block 3 and `end` do not notice changes elsewhere. */
  lemma AllWrittenFrame(blocks: Blocks, blocks': Blocks, ws: seq<Written>, end: nat)
    requires AllWritten(blocks, ws) && Chain(ws, end) && SameBelow(blocks, blocks', 3, end)
    ensures AllWritten(blocks', ws)
  {
    hide Stored;
    ChainApart(ws, end);
    forall i | 0 <= i < |ws| ensures WrittenOk(blocks', ws[i]) {
      assert WrittenOk(blocks, ws[i]);
      StoredFrame(blocks, blocks', ws[i].f, ws[i].data, ws[i].start, ws[i].end);
    }
  }

  function Structures(ws: seq<Written>): (fs: seq<File>)
    ensures |fs| == |ws| && forall i :: 0 <= i < |ws| ==> fs[i] == ws[i].f
  {
    seq(|ws|, i requires 0 <= i < |ws| => ws[i].f)
  }

  function SuperBlock(nblocks: nat, root: File): (b: seq<byte>)
    requires IsWord(nblocks) && IsFile(root)
    ensures |b| == BLKSIZE
  {
    Le(FS_MAGIC) + Le(nblocks) + Encode(root) + Zeros(BLKSIZE - 8 - FILESIZE)
  }

  /** The size of a directory of `n` entries: ROUNDUP of the int 0 is BLKSIZE. */
  function DirSize(n: nat): nat {
    if n == 0 then BLKSIZE else NBlocks(FILESIZE * n) * BLKSIZE
  }

  class Formatter {
    const nblocks: nat
    var blocks: Blocks            // diskmap
    var pos: nat                  // blockof(diskpos)
    var bitmap: seq<bool>
    var ents: seq<File>           // the entries of the root directory, from malloc
    var n: nat
    var root: File                // super->s_root
    ghost var written: seq<Written>

    /** The files written so far are on the disk, one after the other, and nothing else is. */
    ghost predicate Valid()
      reads this
    {
      && Shape(blocks) && |blocks| == nblocks <= 1024 && 3 <= pos < nblocks
      && |ents| == MAX_DIR_ENTS && AreFiles(ents) && n <= MAX_DIR_ENTS
      && IsFile(root) && root.ftype == FTYPE_DIR
      && |written| == n && (forall i {:trigger ents[i]} :: 0 <= i < n ==> written[i].f == ents[i])
      && AllWritten(blocks, written) && Chain(written, pos) && ZeroAfter(blocks, pos, 0)
    }

    /** The mapped file, all zeroes; the directory entries are what malloc returns. */
    constructor (nblocks: nat, junk: seq<File>)
      ensures this.nblocks == nblocks && blocks == seq(nblocks, _ => Zeros(BLKSIZE)) && pos == 0
      ensures ents == junk && n == 0 && written == []
    {
      this.nblocks, this.blocks, this.pos, this.bitmap := nblocks, seq(nblocks, _ => Zeros(BLKSIZE)), 0, [];
      this.ents, this.n, this.written := junk, 0, [];
      this.root := File(Zeros(MAXNAMELEN), 0, 0, seq(NDIRECT, _ => 0), 0, Zeros(PADSIZE));
    }

    /** alloc; not ok is the panic */
    method Alloc(bytes: nat) returns (ok: bool, start: nat)
      modifies `pos
      ensures start == old(pos) && pos == start + NBlocks(bytes) && ok == (pos < nblocks)
    {
      start := pos;
      pos := pos + NBlocks(bytes);
      ok := pos < nblocks;
    }

    /** opendisk and startdir: the super block and a bitmap that has every block free; not ok is a panic */
    method OpenDisk() returns (ok: bool)
      requires nblocks <= 1024 && pos == 0 && blocks == seq(nblocks, _ => Zeros(BLKSIZE))
      requires |ents| == MAX_DIR_ENTS && AreFiles(ents) && n == 0 && written == []
      modifies `pos, `blocks, `bitmap, `root
      ensures ok <==> nblocks >= 4
      ensures ok ==> Valid() && pos == 3 && |bitmap| == BLKBITSIZE && forall b :: 0 <= b < |bitmap| ==> bitmap[b]
      ensures ok ==> 1 < |blocks| && IsFile(root) && blocks[1] == SuperBlock(nblocks, root)
      ensures ok ==> root.ftype == FTYPE_DIR && Named(root.name, [0x2F])
    {
      hide ZeroAfter, SuperBlock;
      var start;
      OneBlock();
      ok, start := Alloc(BLKSIZE);
      if !ok {
        return;
      }
      ok, start := Alloc(BLKSIZE);
      if !ok {
        return;
      }
      root := File([0x2F] + Zeros(MAXNAMELEN - 1), 0, FTYPE_DIR, seq(NDIRECT, _ => 0), 0, Zeros(PADSIZE));
      blocks := blocks[start := SuperBlock(nblocks, root)];
      var nbitblocks := (nblocks + BLKBITSIZE - 1) / BLKBITSIZE;
      ok, start := Alloc(nbitblocks * BLKSIZE);
      if !ok {
        return;
      }
      bitmap := seq(nbitblocks * BLKBITSIZE, _ => true);
      BlankAfter(blocks, pos);
    }

    /** readn, or memmove, into the blocks from `start` on */
    method ReadN(start: nat, data: seq<byte>)
      requires Shape(blocks) && start + NBlocks(|data|) <= |blocks| && ZeroAfter(blocks, start, 0)
      modifies `blocks
      ensures SameBelow(old(blocks), blocks, 0, start) && |blocks| == |old(blocks)|
      ensures Holds(blocks, start, data) && ZeroAfter(blocks, start, |data|)
    {
      hide Holds, ZeroAfter;
      NBlocksBound(|data|);
      HoldsNothing(blocks, start, data);
      ZeroMore(blocks, start, 0, |data|);
      var p := 0;
      while p < |data|
        invariant p <= |data| && |blocks| == |old(blocks)| && Shape(blocks)
        invariant SameBelow(old(blocks), blocks, 0, start)
        invariant Holds(blocks, start, data[..p]) && ZeroAfter(blocks, start, |data|)
      {
        var b, o := start + p / BLKSIZE, p % BLKSIZE;
        ghost var before := blocks;
        assert p / BLKSIZE < NBlocks(|data|);
        blocks := blocks[b := blocks[b][o := data[p]]];
        PutByte(before, blocks, start, data, p);
        p := p + 1;
      }
      assert data[..|data|] == data;
    }

    /** finishfile: numbers the blocks, through an indirect block when all direct pointers are used; not ok is a panic */
    method FinishFile(f0: File, start: nat, len: nat, ghost data: seq<byte>) returns (ok: bool, f: File)
      requires Shape(blocks) && |blocks| == nblocks <= 1024 && IsFile(f0) && len == |data| <= MAXFILESIZE
      requires 0 < start && start + NBlocks(len) <= nblocks && pos < nblocks
      requires NBlocks(len) >= NDIRECT ==> start + NBlocks(len) <= pos
      requires Holds(blocks, start, data)
      modifies `blocks, `pos
      ensures |blocks| == |old(blocks)| && Shape(blocks) && forall b :: 0 <= b < |blocks| && b != old(pos) ==> blocks[b] == old(blocks)[b]
      ensures NBlocks(len) < NDIRECT ==> blocks == old(blocks)
      ensures ok <==> pos < nblocks
      ensures pos == old(pos) + if NBlocks(len) >= NDIRECT then 1 else 0
      ensures ok ==> Stored(blocks, f, data, start, if NBlocks(len) >= NDIRECT then pos else start + NBlocks(len))
      ensures ok ==> f.name == f0.name && f.ftype == f0.ftype
    {
      hide NBlocks, Word, PutWord, Holds;
      NBlocksBound(len);
      f := f0.(size := len);
      var m := NBlocks(len);
      var i := 0;
      while i < m && i < NDIRECT
        invariant i <= m && i <= NDIRECT && IsFile(f) && f == f0.(size := len, direct := f.direct)
        invariant forall j :: 0 <= j < i ==> f.direct[j] == start + j
      {
        f := f.(direct := f.direct[i := start + i]);
        i := i + 1;
      }
      ok := true;
      if i == NDIRECT {
        var ind;
        OneBlock();
        ok, ind := Alloc(BLKSIZE);
        if !ok {
          return;
        }
        f := f.(indirect := ind);
        while i < m
          invariant NDIRECT <= i <= m && pos == ind + 1
          invariant |blocks| == nblocks && Shape(blocks)
          invariant forall b :: 0 <= b < nblocks && b != ind ==> blocks[b] == old(blocks)[b]
          invariant Numbered(blocks, ind, start, i)
        {
          ghost var before := blocks;
          blocks := blocks[ind := PutWord(blocks[ind], i - NDIRECT, start + i)];
          NumberOne(before, blocks, ind, start, i);
          i := i + 1;
        }
      }
      Finished(old(blocks), blocks, f, data, start, if m >= NDIRECT then pos else start + m);
    }

    /** writefile; it panics when the file is too large, the directory full, or the disk */
    method WriteFile(name: seq<byte>, data: seq<byte>) returns (res: Result)
      requires Valid() && 0 !in name
      modifies `blocks, `pos, `ents, `n, `written
      ensures res == WriteResult(nblocks, old(n), old(pos), name, |data|)
      ensures res.Done? ==> IsName(name) && Valid() && pos == old(pos) + Needs(|data|) && n == old(n) + 1
      ensures res.Done? ==> written[..old(n)] == old(written)
      ensures res.Done? ==> var w := written[old(n)];
        && IsFile(w.f) && Named(w.f.name, name) && w.f.ftype == FTYPE_REG && w.data == data && w.start == old(pos) && w.end == pos
    {
      hide Stored, Chain, ZeroAfter;
      if |data| >= MAXFILESIZE {
        return Halt;
      }
      if n >= MAX_DIR_ENTS {
        return Halt;
      }
      if |name| >= MAXNAMELEN {
        return Overrun;
      }
      var f := ents[n].(name := StrCpy(ents[n].name, name), ftype := FTYPE_REG);
      CopiedName(ents[n].name, name);
      var ok, start := Alloc(|data|);
      if !ok {
        return Halt;
      }
      ReadN(start, data);
      ghost var read := blocks;
      ok, f := FinishFile(f, start, |data|, data);
      if !ok {
        return Halt;
      }
      StoredIsFile(blocks, f, data, start, pos);
      ZeroNow(read, blocks, start, |data|, pos);
      ents, n := ents[n := f], n + 1;
      written := written + [Written(f, data, start, pos)];
      Appended(old(blocks), blocks, old(written), f, data, start, pos);
      return Done;
    }

    /** finishdir: the entries become the contents of the root directory; not ok is a panic */
    method FinishDir() returns (ok: bool, ghost start: nat, ghost end: nat, ghost z: nat)
      requires Valid()
      modifies `blocks, `pos, `root
      ensures ok <==> old(pos) + NBlocks(FILESIZE * n) < nblocks
      ensures ok ==> start == old(pos) && pos == start + NBlocks(FILESIZE * n)
      ensures ok ==> Shape(blocks) && |blocks| == nblocks > 1 && IsFile(root) && blocks[1] == SuperBlock(nblocks, root)
      ensures ok ==> AreFiles(ents[..n]) && Stored(blocks, root, EncodeAll(ents[..n]) + Zeros(z), start, end)
      ensures ok ==> root.ftype == FTYPE_DIR && root.size == DirSize(n) && root.name == old(root).name
      ensures ok ==> AllWritten(blocks, written)
    {
      hide Stored, Chain, ZeroAfter, Encode, EncodeAll, Holds;
      var size := FILESIZE * n;
      DirBlocks(n);
      assert AreFiles(ents[..n]);
      var data := EncodeAll(ents[..n]);
      var st;
      ok, st := Alloc(size);
      if !ok {
        start, end, z := 0, 0, 0;
        return;
      }
      ReadN(st, data);
      var len := DirSize(n);
      z := len - size;
      HoldsPadded(blocks, st, data, z);
      ghost var read := blocks;
      ok, root := FinishFile(root, st, len, data + Zeros(z));
      start, end := st, st + NBlocks(len);
      StoredIsFile(blocks, root, data + Zeros(z), start, end);
      ghost var before := blocks;
      blocks := blocks[1 := SuperBlock(nblocks, root)];
      ChainApart3(written, st);
      StoredFrame(before, blocks, root, data + Zeros(z), start, end);
      AllWrittenFrame(old(blocks), blocks, written, st);
    }

    /** finishdisk: the bits of exactly the blocks in use are cleared. */
    method FinishDisk()
      requires pos <= |bitmap|
      modifies `bitmap
      ensures |bitmap| == |old(bitmap)| && forall i :: 0 <= i < |bitmap| ==> bitmap[i] == (old(bitmap)[i] && i >= pos)
    {
      var i := 0;
      while i < pos
        invariant i <= pos && |bitmap| == |old(bitmap)|
        invariant forall j :: 0 <= j < |bitmap| ==> bitmap[j] == (old(bitmap)[j] && j >= i)
      {
        bitmap := bitmap[i := false];
        i := i + 1;
      }
    }
  }

  lemma OneBlock()
    ensures NBlocks(BLKSIZE) == 1
  {
  }

  lemma BlankAfter(blocks: Blocks, pos: nat)
    requires Shape(blocks) && forall b :: pos <= b < |blocks| ==> blocks[b] == Zeros(BLKSIZE)
    ensures ZeroAfter(blocks, pos, 0)
  {
    forall k: nat | pos + k / BLKSIZE < |blocks| ensures ByteAt(blocks, pos, k, 0) {
    }
  }

  lemma HoldsNothing(blocks: Blocks, start: nat, data: seq<byte>)
    requires Shape(blocks)
    ensures Holds(blocks, start, data[..0])
  {
  }

  lemma ZeroMore(blocks: Blocks, start: nat, len: nat, len': nat)
    requires Shape(blocks) && ZeroAfter(blocks, start, len) && len <= len'
    ensures ZeroAfter(blocks, start, len')
  {
  }

  lemma PutByte(before: Blocks, blocks: Blocks, start: nat, data: seq<byte>, p: nat)
    requires Shape(before) && p < |data| && start + p / BLKSIZE < |before|
    requires blocks == before[start + p / BLKSIZE := before[start + p / BLKSIZE][p % BLKSIZE := data[p]]]
    requires Holds(before, start, data[..p]) && ZeroAfter(before, start, |data|)
    ensures Shape(blocks) && Holds(blocks, start, data[..p + 1]) && ZeroAfter(blocks, start, |data|)
  {
    var d := data[..p + 1];
    forall k: nat | k < p + 1 ensures ByteAt(blocks, start, k, d[k]) {
      if k < p {
        assert ByteAt(before, start, k, data[..p][k]);
        assert !(k / BLKSIZE == p / BLKSIZE && k % BLKSIZE == p % BLKSIZE);
      }
    }
    forall k: nat | |data| <= k && start + k / BLKSIZE < |blocks| ensures ByteAt(blocks, start, k, 0) {
      assert ByteAt(before, start, k, 0);
      assert !(k / BLKSIZE == p / BLKSIZE && k % BLKSIZE == p % BLKSIZE);
    }
  }

  /** The indirect block numbers the blocks of the file up to `i`. */
  ghost predicate Numbered(blocks: Blocks, ind: nat, start: nat, i: nat)
    requires Shape(blocks) && ind < |blocks|
  {
    forall j: nat {:trigger Word(blocks[ind], j)} :: j + NDIRECT < i && j < NINDIRECT ==> Word(blocks[ind], j) == start + NDIRECT + j
  }

  lemma NumberOne(before: Blocks, blocks: Blocks, ind: nat, start: nat, i: nat)
    requires Shape(before) && ind < |before| && NDIRECT <= i < NDIRECT + NINDIRECT && IsWord(start + i)
    requires Numbered(before, ind, start, i) && blocks == before[ind := PutWord(before[ind], i - NDIRECT, start + i)]
    ensures Shape(blocks) && Numbered(blocks, ind, start, i + 1)
  {
    hide Word, PutWord;
    forall j: nat | j + NDIRECT < i + 1 && j < NINDIRECT ensures Word(blocks[ind], j) == start + NDIRECT + j {
      PutGet(before[ind], i - NDIRECT, start + i, j);
    }
  }

  lemma Finished(blocks0: Blocks, blocks: Blocks, f: File, data: seq<byte>, start: nat, end: nat)
    requires Shape(blocks0) && Shape(blocks) && |blocks| == |blocks0| && IsFile(f) && f.size == |data| <= MAXFILESIZE
    requires 0 < start && start + NBlocks(|data|) <= end <= |blocks|
    requires forall j :: 0 <= j < NDIRECT && j < NBlocks(|data|) ==> f.direct[j] == start + j
    requires Holds(blocks0, start, data)
    requires NBlocks(|data|) < NDIRECT ==> blocks == blocks0
    requires NBlocks(|data|) >= NDIRECT ==>
      && start + NBlocks(|data|) <= f.indirect < end && (forall b :: 0 <= b < |blocks| && b != f.indirect ==> blocks[b] == blocks0[b])
      && Numbered(blocks, f.indirect, start, NBlocks(|data|))
    ensures Stored(blocks, f, data, start, end)
  {
    hide Word;
    NBlocksBound(|data|);
    forall j: nat | j < NBlocks(|data|) ensures BlockAt(blocks, f, start, j) {
      assert j >= NDIRECT ==> Word(blocks[f.indirect], j - NDIRECT) == start + j;
    }
    forall k: nat | k < |data| ensures ByteAt(blocks, start, k, data[k]) {
      assert ByteAt(blocks0, start, k, data[k]);
      assert k / BLKSIZE < NBlocks(|data|);
    }
  }

  lemma CopiedName(field: seq<byte>, name: seq<byte>)
    requires |field| == MAXNAMELEN && IsName(name)
    ensures Named(StrCpy(field, name), name)
  {
    StrCpyNamed(field, name, name);
  }

  lemma StoredIsFile(blocks: Blocks, f: File, data: seq<byte>, start: nat, end: nat)
    requires Stored(blocks, f, data, start, end)
    ensures IsFile(f) && f.size == |data| && start + NBlocks(|data|) <= end <= |blocks|
  {
  }

  /** Behind a file and its indirect block there are only zeroes. */
  lemma ZeroNow(read: Blocks, blocks: Blocks, start: nat, len: nat, pos: nat)
    requires Shape(read) && Shape(blocks) && |read| == |blocks| && ZeroAfter(read, start, len) && start + NBlocks(len) <= pos
    requires forall b :: pos <= b < |blocks| ==> blocks[b] == read[b]
    ensures ZeroAfter(blocks, pos, 0)
  {
    ZeroLater(read, start, len, pos);
    forall k: nat | pos + k / BLKSIZE < |blocks| ensures ByteAt(blocks, pos, k, 0) {
      assert ByteAt(read, pos, k, 0);
    }
  }

  lemma Appended(blocks0: Blocks, blocks: Blocks, ws: seq<Written>, f: File, data: seq<byte>, start: nat, end: nat)
    requires AllWritten(blocks0, ws) && Chain(ws, start) && SameBelow(blocks0, blocks, 0, start)
    requires Stored(blocks, f, data, start, end) && end == start + Needs(|data|)
    ensures AllWritten(blocks, ws + [Written(f, data, start, end)]) && Chain(ws + [Written(f, data, start, end)], end)
  {
    hide Stored;
    AllWrittenFrame(blocks0, blocks, ws, start);
    var ws' := ws + [Written(f, data, start, end)];
    assert ws'[..|ws|] == ws;
    forall i | 0 <= i < |ws'| ensures WrittenOk(blocks, ws'[i]) {
      assert i < |ws| ==> WrittenOk(blocks, ws[i]);
    }
  }

  lemma ChainApart3(ws: seq<Written>, pos: nat)
    requires Chain(ws, pos)
    ensures 3 <= pos
  {
    ChainApart(ws, pos);
  }

  /** A directory of at most 128 entries needs no indirect block. */
  lemma DirBlocks(n: nat)
    requires n <= MAX_DIR_ENTS
    ensures NBlocks(FILESIZE * n) <= 8 && NBlocks(NBlocks(FILESIZE * n) * BLKSIZE) == NBlocks(FILESIZE * n)
    ensures FILESIZE * n <= NBlocks(FILESIZE * n) * BLKSIZE
    ensures NBlocks(BLKSIZE) == 1 && (n > 0 ==> NBlocks(FILESIZE * n) > 0)
  {
  }

  // ---------------------------------------------------------------------------------------------
  // The whole image.

  /** The names are C strings. */
  predicate AreStrings(files: seq<Source>) {
    forall i {:trigger files[i]} :: 0 <= i < |files| ==> 0 !in files[i].name
  }

  /** They are short enough for f_name. */
  predicate AreSources(files: seq<Source>) {
    forall i {:trigger files[i]} :: 0 <= i < |files| ==> IsName(files[i].name)
  }

  /** The first block behind the files. */
  function End(files: seq<Source>): (pos: nat)
    ensures pos >= 3
  {
    if files == [] then 3 else End(files[..|files| - 1]) + Needs(|files[|files| - 1].data|)
  }

  lemma {:induction false} EndMonotone(files: seq<Source>, i: nat)
    requires i <= |files|
    ensures End(files[..i]) <= End(files)
    decreases |files|
  {
    if i == |files| {
      assert files[..i] == files;
    } else {
      EndMonotone(files[..|files| - 1], i);
      assert files[..|files| - 1][..i] == files[..i];
    }
  }

  /** The arguments that fsformat accepts: the disk has blocks for the files and their directory, and one to spare. */
  predicate Fits(nblocks: nat, files: seq<Source>) {
    && 4 <= nblocks <= 1024 && |files| <= MAX_DIR_ENTS && AreSources(files)
    && (forall i :: 0 <= i < |files| ==> |files[i].data| < MAXFILESIZE)
    && End(files) + NBlocks(FILESIZE * |files|) < nblocks
  }

  /** Where everything is: the files, and the root directory with its blocks and the zeroes at its end. */
  datatype Layout = Layout(ws: seq<Written>, root: File, start: nat, end: nat, z: nat)

  ghost predicate SourceOf(w: Written, f: Source)
    requires IsName(f.name)
  {
    IsFile(w.f) && Named(w.f.name, f.name) && w.f.ftype == FTYPE_REG && w.data == f.data
  }

  ghost predicate Sources(files: seq<Source>, ws: seq<Written>)
    requires AreSources(files)
  {
    |ws| == |files| && forall i {:trigger ws[i]} :: 0 <= i < |ws| ==> SourceOf(ws[i], files[i])
  }

  /** The image has the super block, the files one after the other, and a root directory that lists them in order. */
  ghost predicate Image(blocks: Blocks, files: seq<Source>, lay: Layout)
    requires AreSources(files)
  {
    && Shape(blocks) && 4 <= |blocks| <= 1024 && IsFile(lay.root) && blocks[1] == SuperBlock(|blocks|, lay.root)
    && Sources(files, lay.ws) && AllWritten(blocks, lay.ws) && Chain(lay.ws, lay.start)
    && lay.root.ftype == FTYPE_DIR && lay.root.size == DirSize(|files|) && Named(lay.root.name, [0x2F])
    && AreFiles(Structures(lay.ws))
    && Stored(blocks, lay.root, EncodeAll(Structures(lay.ws)) + Zeros(lay.z), lay.start, lay.end)
  }

  /** Block `b` was given out: to boot loader, super block and bitmap, to a file, or to the root directory. */
  ghost predicate Allocated(lay: Layout, b: int) {
    b < 3 || Inside(lay.ws, b) || lay.start <= b < lay.start + NBlocks(FILESIZE * |lay.ws|)
  }

  ghost predicate Bitmap(bitmap: seq<bool>, lay: Layout) {
    forall b {:trigger bitmap[b]} :: 0 <= b < |bitmap| ==> (bitmap[b] <==> !Allocated(lay, b))
  }

  /** The files that can be written, without their directory. */
  predicate FilesFit(nblocks: nat, files: seq<Source>) {
    && |files| <= MAX_DIR_ENTS && AreSources(files)
    && (forall i :: 0 <= i < |files| ==> |files[i].data| < MAXFILESIZE) && End(files) < nblocks
  }

  /** File `i` is reached, and its name overruns f_name. */
  predicate OverrunsAt(nblocks: nat, files: seq<Source>, i: nat) {
    && i < |files| && FilesFit(nblocks, files[..i])
    && WriteResult(nblocks, i, End(files[..i]), files[i].name, |files[i].data|).Overrun?
  }

  ghost predicate Overruns(nblocks: nat, files: seq<Source>) {
    exists i: nat :: OverrunsAt(nblocks, files, i)
  }

  /** What fits, fits in part. */
  lemma FitsPrefix(nblocks: nat, files: seq<Source>, j: nat, i: nat)
    ensures i <= j <= |files| && FilesFit(nblocks, files[..j]) ==> FilesFit(nblocks, files[..i]) && forall k :: 0 <= k < j ==> IsName(files[k].name)
  {
    if i <= j <= |files| && FilesFit(nblocks, files[..j]) {
      assert files[..j][..i] == files[..i];
      EndMonotone(files[..j], i);
      assert forall k :: 0 <= k < j ==> files[..j][k] == files[k];
    }
  }

  /** The loop stops at file `i`. */
  lemma StopsAt(nblocks: nat, files: seq<Source>, i: nat, res: Result)
    requires AreStrings(files) && i < |files| && FilesFit(nblocks, files[..i])
    requires res == WriteResult(nblocks, i, End(files[..i]), files[i].name, |files[i].data|) && !res.Done?
    ensures !FilesFit(nblocks, files) && (res.Overrun? <==> Overruns(nblocks, files))
  {
    EndNext(files, i);
    assert files[..i + 1][i] == files[i];
    assert !FilesFit(nblocks, files[..i + 1]);
    assert files[..|files|] == files;
    FitsPrefix(nblocks, files, |files|, i + 1);
    FitsPrefix(nblocks, files, i, i);
    forall j: nat ensures OverrunsAt(nblocks, files, j) ==> j == i {
      FitsPrefix(nblocks, files, j, i + 1);
    }
    assert res.Overrun? ==> OverrunsAt(nblocks, files, i);
  }

  lemma NoneStops(nblocks: nat, files: seq<Source>)
    requires FilesFit(nblocks, files)
    ensures !Overruns(nblocks, files)
  {
    forall j: nat ensures !OverrunsAt(nblocks, files, j) {
    }
  }

  /** The loop of main: the files are written in order. */
  method WriteAll(d: Formatter, files: seq<Source>) returns (res: Result)
    requires AreStrings(files) && d.Valid() && d.n == 0 && d.pos == 3
    modifies d`blocks, d`pos, d`ents, d`n, d`written
    ensures res.Done? <==> FilesFit(d.nblocks, files)
    ensures res.Overrun? <==> Overruns(d.nblocks, files)
    ensures res.Done? ==> d.Valid() && d.n == |files| && d.pos == End(files) && Sources(files, d.written)
  {
    hide Stored, Chain, ZeroAfter, AllWritten, Overruns;
    var i := 0;
    res := Done;
    while i < |files|
      invariant i <= |files| && d.Valid() && d.n == i && d.pos == End(files[..i])
      invariant AreSources(files[..i]) && Sources(files[..i], d.written)
      invariant res.Done? && FilesFit(d.nblocks, files[..i])
    {
      ghost var before := d.written;
      EndNext(files, i);
      res := d.WriteFile(files[i].name, files[i].data);
      if !res.Done? {
        StopsAt(d.nblocks, files, i, res);
        return;
      }
      OneMore(d.nblocks, files, i);
      SourcesNext(files, i, before, d.written);
      i := i + 1;
    }
    assert files[..|files|] == files;
    NoneStops(d.nblocks, files);
  }

  lemma OneMore(nblocks: nat, files: seq<Source>, i: nat)
    requires i < |files| && FilesFit(nblocks, files[..i])
    requires WriteResult(nblocks, i, End(files[..i]), files[i].name, |files[i].data|).Done? && 0 !in files[i].name
    ensures FilesFit(nblocks, files[..i + 1])
  {
    EndNext(files, i);
    forall k | 0 <= k < i + 1 ensures k < i ==> files[..i + 1][k] == files[..i][k] {
    }
  }

  /**
    fsformat: it succeeds on exactly the arguments that fit, and then the image has the files, and the bits of
    exactly the allocated blocks are cleared.  It writes behind f_name exactly when it gets to a name of 128
    bytes or more, and panics otherwise.
   */
  method Format(nblocks: nat, files: seq<Source>, junk: seq<File>) returns (res: Result, blocks: Blocks, bitmap: seq<bool>, ghost lay: Layout)
    requires AreStrings(files) && |junk| == MAX_DIR_ENTS && AreFiles(junk)
    ensures res.Done? <==> Fits(nblocks, files)
    ensures res.Overrun? <==> 4 <= nblocks <= 1024 && Overruns(nblocks, files)
    ensures res.Done? ==> |blocks| == nblocks && Image(blocks, files, lay) && |bitmap| == BLKBITSIZE && Bitmap(bitmap, lay)
  {
    hide Stored, Chain, ZeroAfter, AllWritten, Sources, Overruns;
    res, blocks, bitmap, lay := Halt, [], [], Layout([], ZeroRoot(), 0, 0, 0);
    if nblocks < 2 || nblocks > 1024 {
      return;
    }
    var d := new Formatter(nblocks, junk);
    var ok := d.OpenDisk();
    if !ok {
      return;
    }
    res := WriteAll(d, files);
    if !res.Done? {
      return;
    }
    ghost var start, end, z;
    ok, start, end, z := d.FinishDir();
    if !ok {
      res := Halt;
      return;
    }
    d.FinishDisk();
    blocks, bitmap := d.blocks, d.bitmap;
    lay := Layout(d.written, d.root, start, end, z);
    SourcesCount(files, d.written);
    assert Structures(d.written) == d.ents[..d.n];
    BitmapIs(bitmap, lay, d.pos);
  }

  lemma SourcesCount(files: seq<Source>, ws: seq<Written>)
    requires AreSources(files) && Sources(files, ws)
    ensures |ws| == |files|
  {
  }

  function ZeroRoot(): File {
    File(Zeros(MAXNAMELEN), 0, 0, seq(NDIRECT, _ => 0), 0, Zeros(PADSIZE))
  }

  lemma EndNext(files: seq<Source>, i: nat)
    requires i < |files|
    ensures End(files[..i]) + Needs(|files[i].data|) == End(files[..i + 1]) <= End(files)
  {
    assert files[..i + 1][..i] == files[..i];
    EndMonotone(files, i + 1);
  }

  lemma SourcesNext(files: seq<Source>, i: nat, before: seq<Written>, ws: seq<Written>)
    requires i < |files| && AreSources(files[..i + 1]) && AreSources(files[..i]) && Sources(files[..i], before) && |ws| == i + 1 && ws[..i] == before
    requires SourceOf(ws[i], files[i])
    ensures Sources(files[..i + 1], ws)
  {
    forall j | 0 <= j < |ws| ensures SourceOf(ws[j], files[..i + 1][j]) {
      assert j < i ==> ws[j] == before[j] && files[..i + 1][j] == files[..i][j];
    }
  }

  lemma BitmapIs(bitmap: seq<bool>, lay: Layout, pos: nat)
    requires Chain(lay.ws, lay.start) && pos == lay.start + NBlocks(FILESIZE * |lay.ws|)
    requires forall b {:trigger bitmap[b]} :: 0 <= b < |bitmap| ==> bitmap[b] == (b >= pos)
    ensures Bitmap(bitmap, lay)
  {
    ChainApart(lay.ws, lay.start);
    forall b | 0 <= b < |bitmap| ensures bitmap[b] <==> !Allocated(lay, b) {
      assert 3 <= b < lay.start <==> Inside(lay.ws, b);
    }
  }

  /** The files have blocks of their own, apart from one another and from the root directory. */
  lemma ImageApart(blocks: Blocks, files: seq<Source>, lay: Layout)
    requires AreSources(files) && Image(blocks, files, lay)
    ensures forall i, j :: 0 <= i < j < |lay.ws| ==> 3 <= lay.ws[i].start <= lay.ws[i].end <= lay.ws[j].start <= lay.ws[j].end
    ensures forall i :: 0 <= i < |lay.ws| ==> lay.ws[i].end <= lay.start <= lay.end
  {
    ChainApart(lay.ws, lay.start);
  }

  /**
    Every block of the root directory has its bit cleared if and only if there is a file: of the empty
    directory, finishdir numbers a block that it has not allocated.
   */
  lemma RootAllocated(blocks: Blocks, files: seq<Source>, bitmap: seq<bool>, lay: Layout)
    requires AreSources(files) && Image(blocks, files, lay) && |bitmap| == BLKBITSIZE && Bitmap(bitmap, lay)
    ensures lay.start + NBlocks(lay.root.size) <= |blocks|
    ensures forall j: nat :: j < NBlocks(lay.root.size) ==> BlockWalk(blocks, lay.root, j) == Slot(lay.start + j)
    ensures (forall b {:trigger bitmap[b]} :: lay.start <= b < lay.start + NBlocks(lay.root.size) ==> !bitmap[b]) <==> files != []
  {
    hide EncodeAll, SuperBlock, Chain, AllWritten, Sources, BlockWalk, Holds;
    SourcesCount(files, lay.ws);
    StoredBlocks(blocks, lay.root, EncodeAll(Structures(lay.ws)) + Zeros(lay.z), lay.start, lay.end);
    ChainApart(lay.ws, lay.start);
    DirSizes(|files|);
    if files == [] {
      assert bitmap[lay.start];
    }
  }

  lemma StoredBlocks(blocks: Blocks, f: File, data: seq<byte>, start: nat, end: nat)
    requires Stored(blocks, f, data, start, end)
    ensures Shape(blocks) && IsFile(f) && f.size == |data| && start + NBlocks(|data|) <= end <= |blocks|
    ensures forall j: nat :: j < NBlocks(|data|) ==> BlockWalk(blocks, f, j) == Slot(start + j)
  {
    forall j: nat | j < NBlocks(|data|) ensures BlockWalk(blocks, f, j) == Slot(start + j) {
      assert BlockAt(blocks, f, start, j);
    }
  }

  lemma DirSizes(n: nat)
    ensures n > 0 ==> NBlocks(DirSize(n)) == NBlocks(FILESIZE * n)
    ensures n == 0 ==> NBlocks(DirSize(n)) == 1
    ensures DirSize(n) % BLKSIZE == 0
  {
  }
}
