/** The file server of JOS, fs/fs.c: how it reads files and directories from the image. */
module FileServer {
  import opened FileImage

  /** file_get_block */
  method GetBlock(blocks: Blocks, f: File, filebno: nat) returns (got: Got)
    requires Shape(blocks) && IsFile(f)
    ensures got == BlockOf(blocks, f, filebno)
    ensures got.Block? <==> BlockWalk(blocks, f, filebno).Slot? && 0 < BlockWalk(blocks, f, filebno).ptr < |blocks|
  {
    var ptr;
    if filebno < NDIRECT {
      ptr := f.direct[filebno];
    } else if filebno < NDIRECT + NINDIRECT {
      if f.indirect == 0 {
        return Error(E_NOT_FOUND);
      }
      if f.indirect >= |blocks| {
        return Panic;
      }
      ptr := Word(blocks[f.indirect], filebno - NDIRECT);
    } else {
      return Error(E_INVAL);
    }
    if ptr == 0 {
      return Error(E_NOT_FOUND);
    }
    got := if ptr >= |blocks| then Panic else Block(blocks[ptr]);
  }

  // ---------------------------------------------------------------------------------------------
  // file_read.

  function Min(a: nat, b: nat): nat {
    if a < b then a else b
  }

  /** What file_read answers: the bytes, an error code, or a panic. */
  datatype ReadResult = Bytes(buf: seq<byte>) | ReadError(code: int) | ReadPanic

  function Failure(g: Got): ReadResult
    requires !g.Block?
  {
    match g
    case Error(code) => ReadError(code)
    case Panic => ReadPanic
  }

  /** Byte `k` of the file as file_get_block finds it. */
  ghost predicate Reads(blocks: Blocks, f: File, k: nat, x: byte)
    requires Shape(blocks) && IsFile(f)
  {
    BlockOf(blocks, f, k / BLKSIZE).Block? && BlockOf(blocks, f, k / BLKSIZE).blk[k % BLKSIZE] == x
  }

  /** The part of `data` that a read of `count` bytes at `offset` is to return. */
  function Slice(data: seq<byte>, count: nat, offset: nat): seq<byte> {
    if offset >= |data| then [] else data[offset..offset + Min(count, |data| - offset)]
  }

  /**
    What file_read is to answer: as many bytes as were asked for and as the file has, each from its block, or
    else the failure of the first block that cannot be had.
   */
  ghost predicate ReadsAs(blocks: Blocks, f: File, count: nat, offset: nat, res: ReadResult)
    requires Shape(blocks) && IsFile(f)
  {
    if res.Bytes? then
      && |res.buf| == (if offset >= f.size then 0 else Min(count, f.size - offset))
      && forall i :: 0 <= i < |res.buf| ==> Reads(blocks, f, offset + i, res.buf[i])
    else
      exists k: nat :: FailsAt(blocks, f, count, offset, k, res)
  }

  /** file_read */
  method FileRead(blocks: Blocks, f: File, count: nat, offset: nat) returns (res: ReadResult)
    requires Shape(blocks) && IsFile(f)
    ensures ReadsAs(blocks, f, count, offset, res)
  {
    if offset >= f.size {
      return Bytes([]);
    }
    var n := Min(count, f.size - offset);
    var pos := offset;
    var buf: seq<byte> := [];
    while pos < offset + n
      invariant offset <= pos <= offset + n && |buf| == pos - offset
      invariant forall i :: 0 <= i < |buf| ==> Reads(blocks, f, offset + i, buf[i])
    {
      var got := GetBlock(blocks, f, pos / BLKSIZE);
      if !got.Block? {
        ReadSoFar(blocks, f, offset, buf);
        assert FailsAt(blocks, f, count, offset, pos, Failure(got));
        return Failure(got);
      }
      var bn := Min(BLKSIZE - pos % BLKSIZE, offset + n - pos);
      var more := got.blk[pos % BLKSIZE..pos % BLKSIZE + bn];
      Within(blocks, f, pos, bn, more);
      forall i | 0 <= i < |buf + more| ensures Reads(blocks, f, offset + i, (buf + more)[i]) {
        assert i >= |buf| ==> Reads(blocks, f, pos + (i - |buf|), more[i - |buf|]);
      }
      buf := buf + more;
      pos := pos + bn;
    }
    res := Bytes(buf);
  }

  lemma Within(blocks: Blocks, f: File, pos: nat, bn: nat, more: seq<byte>)
    requires Shape(blocks) && IsFile(f) && 0 < bn <= BLKSIZE - pos % BLKSIZE
    requires BlockOf(blocks, f, pos / BLKSIZE).Block?
    requires more == BlockOf(blocks, f, pos / BLKSIZE).blk[pos % BLKSIZE..pos % BLKSIZE + bn]
    ensures forall i :: 0 <= i < bn ==> Reads(blocks, f, pos + i, more[i])
  {
    hide BlockOf;
    forall i | 0 <= i < bn ensures Reads(blocks, f, pos + i, more[i]) {
      assert (pos + i) / BLKSIZE == pos / BLKSIZE && (pos + i) % BLKSIZE == pos % BLKSIZE + i;
    }
  }

  /** The read fails with `res` at byte `k`: the bytes before can be had, the block of this one cannot. */
  ghost predicate FailsAt(blocks: Blocks, f: File, count: nat, offset: nat, k: nat, res: ReadResult)
    requires Shape(blocks) && IsFile(f)
  {
    && offset <= k < f.size && k < offset + count
    && !BlockOf(blocks, f, k / BLKSIZE).Block? && res == Failure(BlockOf(blocks, f, k / BLKSIZE))
    && forall j: nat {:trigger BlockOf(blocks, f, j / BLKSIZE)} :: offset <= j < k ==> BlockOf(blocks, f, j / BLKSIZE).Block?
  }

  lemma ReadSoFar(blocks: Blocks, f: File, offset: nat, buf: seq<byte>)
    requires Shape(blocks) && IsFile(f) && forall i :: 0 <= i < |buf| ==> Reads(blocks, f, offset + i, buf[i])
    ensures forall j: nat {:trigger BlockOf(blocks, f, j / BLKSIZE)} :: offset <= j < offset + |buf| ==> BlockOf(blocks, f, j / BLKSIZE).Block?
  {
    forall j: nat | offset <= j < offset + |buf| ensures BlockOf(blocks, f, j / BLKSIZE).Block? {
      assert Reads(blocks, f, offset + (j - offset), buf[j - offset]);
    }
  }

  /** What can be read of a stored file is its contents. */
  lemma ReadsStored(blocks: Blocks, f: File, data: seq<byte>, start: nat, end: nat, k: nat)
    requires Stored(blocks, f, data, start, end) && k < |data|
    ensures Reads(blocks, f, k, data[k])
  {
    StoredBlock(blocks, f, data, start, end, k);
    StoredByte(blocks, f, data, start, end, k);
  }

  lemma StoredByte(blocks: Blocks, f: File, data: seq<byte>, start: nat, end: nat, k: nat)
    requires Stored(blocks, f, data, start, end) && k < |data|
    ensures ByteAt(blocks, start, k, data[k])
  {
  }

  /** A stored file reads as its contents: no error, no panic, and exactly the bytes asked for that the file has. */
  lemma SliceRead(blocks: Blocks, f: File, data: seq<byte>, start: nat, end: nat, count: nat, offset: nat, res: ReadResult)
    requires Stored(blocks, f, data, start, end) && ReadsAs(blocks, f, count, offset, res)
    ensures res == Bytes(Slice(data, count, offset))
  {
    hide BlockOf, BlockWalk;
    assert f.size == |data|;
    if k: nat :| !res.Bytes? && FailsAt(blocks, f, count, offset, k, res) {
      ReadsStored(blocks, f, data, start, end, k);
    }
    forall i | res.Bytes? && 0 <= i < |res.buf| ensures res.buf[i] == Slice(data, count, offset)[i] {
      ReadsStored(blocks, f, data, start, end, offset + i);
      assert Reads(blocks, f, offset + i, res.buf[i]);
    }
  }

  // ---------------------------------------------------------------------------------------------
  // dir_lookup.

  /** What dir_lookup answers: the file structure, an error code, or a panic. */
  datatype Lookup = Found(file: File) | LookupError(code: int) | LookupPanic

  /** The `j`-th file structure in a block. */
  function EntryIn(blk: seq<byte>, j: nat): (f: File)
    requires |blk| == BLKSIZE && j < BLKFILES
    ensures IsFile(f)
  {
    Decode(blk[FILESIZE * j..FILESIZE * j + FILESIZE])
  }

  /** Entry `n` of the directory can be read, and is `f`. */
  ghost predicate Entry(blocks: Blocks, dir: File, n: nat, f: File)
    requires Shape(blocks) && IsFile(dir)
  {
    BlockOf(blocks, dir, n / BLKFILES).Block? && EntryIn(BlockOf(blocks, dir, n / BLKFILES).blk, n % BLKFILES) == f
  }

  /** Entry `n` can be read and has another name. */
  ghost predicate Other(blocks: Blocks, dir: File, n: nat, name: seq<byte>)
    requires Shape(blocks) && IsFile(dir) && IsName(name)
  {
    && BlockOf(blocks, dir, n / BLKFILES).Block?
    && !Named(EntryIn(BlockOf(blocks, dir, n / BLKFILES).blk, n % BLKFILES).name, name)
  }

  ghost predicate OthersBefore(blocks: Blocks, dir: File, n: nat, name: seq<byte>)
    requires Shape(blocks) && IsFile(dir) && IsName(name)
  {
    forall m: nat {:trigger Other(blocks, dir, m, name)} :: m < n ==> Other(blocks, dir, m, name)
  }

  ghost predicate DirFailsAt(blocks: Blocks, dir: File, i: nat, name: seq<byte>, res: Lookup)
    requires Shape(blocks) && IsFile(dir) && IsName(name)
  {
    && OthersBefore(blocks, dir, i * BLKFILES, name)
    && !BlockOf(blocks, dir, i).Block? && res == LookupFailure(BlockOf(blocks, dir, i))
  }

  /** The first entry of that name, E_NOT_FOUND when there is none, or the failure of a directory block before it. */
  ghost predicate LooksUp(blocks: Blocks, dir: File, name: seq<byte>, res: Lookup)
    requires Shape(blocks) && IsFile(dir) && IsName(name)
  {
    if dir.size % BLKSIZE != 0 then res.LookupPanic?
    else if res.Found? then
      exists n: nat :: n < dir.size / FILESIZE && Entry(blocks, dir, n, res.file) && Named(res.file.name, name) && OthersBefore(blocks, dir, n, name)
    else
      || (res == LookupError(E_NOT_FOUND) && OthersBefore(blocks, dir, dir.size / FILESIZE, name))
      || exists i: nat :: i < dir.size / BLKSIZE && DirFailsAt(blocks, dir, i, name, res)
  }

  function LookupFailure(g: Got): Lookup
    requires !g.Block?
  {
    match g
    case Error(code) => LookupError(code)
    case Panic => LookupPanic
  }

  method DirLookup(blocks: Blocks, dir: File, name: seq<byte>) returns (res: Lookup)
    requires Shape(blocks) && IsFile(dir) && IsName(name)
    ensures LooksUp(blocks, dir, name, res)
  {
    if dir.size % BLKSIZE != 0 {
      return LookupPanic;
    }
    var nblock := dir.size / BLKSIZE;
    var i := 0;
    while i < nblock
      invariant i <= nblock && OthersBefore(blocks, dir, i * BLKFILES, name)
    {
      var got := GetBlock(blocks, dir, i);
      if !got.Block? {
        assert DirFailsAt(blocks, dir, i, name, LookupFailure(got));
        return LookupFailure(got);
      }
      var j := 0;
      while j < BLKFILES
        invariant j <= BLKFILES && OthersBefore(blocks, dir, i * BLKFILES + j, name)
      {
        var f := EntryIn(got.blk, j);
        EntryPlace(blocks, dir, i, j, f);
        if f.name[..|name|] == name && f.name[|name|] == 0 {
          return Found(f);
        }
        j := j + 1;
      }
      i := i + 1;
    }
    res := LookupError(E_NOT_FOUND);
  }

  lemma EntryPlace(blocks: Blocks, dir: File, i: nat, j: nat, f: File)
    requires Shape(blocks) && IsFile(dir) && j < BLKFILES && BlockOf(blocks, dir, i).Block? && f == EntryIn(BlockOf(blocks, dir, i).blk, j)
    ensures (i * BLKFILES + j) / BLKFILES == i && (i * BLKFILES + j) % BLKFILES == j
    ensures Entry(blocks, dir, i * BLKFILES + j, f)
  {
    hide BlockOf;
  }

  /** The entries of a stored directory: its file structures, and zeroes up to the end of its last block. */
  function DirEntry(fs: seq<File>, n: nat): File {
    if n < |fs| then fs[n] else Decode(Zeros(FILESIZE))
  }

  lemma EntryBytes(fs: seq<File>, z: nat, n: nat)
    requires AreFiles(fs) && FILESIZE * n + FILESIZE <= FILESIZE * |fs| + z
    ensures |EncodeAll(fs) + Zeros(z)| == FILESIZE * |fs| + z
    ensures Decode((EncodeAll(fs) + Zeros(z))[FILESIZE * n..FILESIZE * n + FILESIZE]) == DirEntry(fs, n)
  {
    hide Encode, Decode, EncodeAll;
    var data := EncodeAll(fs) + Zeros(z);
    var pos := FILESIZE * n;
    if n < |fs| {
      EncodeAllAt(fs, n);
      assert data[pos..pos + FILESIZE] == EncodeAll(fs)[pos..pos + FILESIZE];
      EncodeRoundTrip(fs[n]);
    } else {
      assert data[pos..pos + FILESIZE] == Zeros(FILESIZE);
    }
  }

  lemma EntryBlock(n: nat)
    ensures FILESIZE * n / BLKSIZE == n / BLKFILES && FILESIZE * n % BLKSIZE == FILESIZE * (n % BLKFILES)
  {
  }

  lemma EntryStored(blocks: Blocks, dir: File, fs: seq<File>, z: nat, start: nat, end: nat, n: nat)
    requires AreFiles(fs) && Stored(blocks, dir, EncodeAll(fs) + Zeros(z), start, end)
    requires n < dir.size / FILESIZE
    ensures Entry(blocks, dir, n, DirEntry(fs, n))
  {
    hide BlockOf, Decode, Stored, EncodeAll, DirEntry, Holds;
    var data := EncodeAll(fs) + Zeros(z);
    StoredParts(blocks, dir, data, start, end);
    EntryBytes(fs, z, n);
    EntryBlock(n);
    StoredBlock(blocks, dir, data, start, end, FILESIZE * n);
    PieceOfBlock(blocks, start, data, FILESIZE * n, FILESIZE);
  }

  lemma StoredParts(blocks: Blocks, f: File, data: seq<byte>, start: nat, end: nat)
    requires Stored(blocks, f, data, start, end)
    ensures Shape(blocks) && IsFile(f) && f.size == |data| && Holds(blocks, start, data)
  {
  }

  /** `res` is the first of the files with that name, or says that there is none. */
  ghost predicate FirstNamed(fs: seq<File>, name: seq<byte>, res: Lookup)
    requires AreFiles(fs) && IsName(name)
  {
    if res.Found? then
      exists n :: 0 <= n < |fs| && res.file == fs[n] && Named(fs[n].name, name) && forall m :: 0 <= m < n ==> !Named(fs[m].name, name)
    else
      res == LookupError(E_NOT_FOUND) && forall n :: 0 <= n < |fs| ==> !Named(fs[n].name, name)
  }

  /** Every entry of the directory can be read. */
  ghost predicate Entries(blocks: Blocks, dir: File, fs: seq<File>)
    requires Shape(blocks) && IsFile(dir) && AreFiles(fs)
  {
    && |fs| <= dir.size / FILESIZE
    && forall n: nat {:trigger DirEntry(fs, n)} :: n < dir.size / FILESIZE ==> Entry(blocks, dir, n, DirEntry(fs, n))
  }

  lemma OtherName(blocks: Blocks, dir: File, fs: seq<File>, n: nat, m: nat, name: seq<byte>)
    requires Shape(blocks) && IsFile(dir) && AreFiles(fs) && Entries(blocks, dir, fs) && IsName(name)
    requires OthersBefore(blocks, dir, n, name) && m < n <= dir.size / FILESIZE && m < |fs|
    ensures !Named(fs[m].name, name)
  {
    hide BlockOf, EntryIn;
    assert Other(blocks, dir, m, name) && Entry(blocks, dir, m, DirEntry(fs, m));
  }

  lemma FoundFirst(blocks: Blocks, dir: File, fs: seq<File>, name: seq<byte>, n: nat, file: File)
    requires Shape(blocks) && IsFile(dir) && AreFiles(fs) && Entries(blocks, dir, fs) && IsName(name) && name != []
    requires n < dir.size / FILESIZE && Entry(blocks, dir, n, file) && Named(file.name, name) && OthersBefore(blocks, dir, n, name)
    ensures FirstNamed(fs, name, Found(file))
  {
    hide BlockOf, EntryIn, OthersBefore, Decode;
    ZeroName(name);
    assert file == DirEntry(fs, n);
    forall m | 0 <= m < n && m < |fs| ensures !Named(fs[m].name, name) {
      OtherName(blocks, dir, fs, n, m, name);
    }
  }

  lemma NoFailure(blocks: Blocks, dir: File, fs: seq<File>, i: nat)
    requires Shape(blocks) && IsFile(dir) && AreFiles(fs) && Entries(blocks, dir, fs) && dir.size % BLKSIZE == 0 && i < dir.size / BLKSIZE
    ensures BlockOf(blocks, dir, i).Block?
  {
    hide BlockOf, EntryIn;
    assert Entry(blocks, dir, i * BLKFILES, DirEntry(fs, i * BLKFILES));
  }

  lemma FoundIsFile(blocks: Blocks, dir: File, name: seq<byte>, res: Lookup)
    requires Shape(blocks) && IsFile(dir) && IsName(name) && LooksUp(blocks, dir, name, res)
    ensures res.Found? ==> IsFile(res.file)
  {
  }

  /** In a stored directory, dir_lookup finds the first file of a name exactly when there is one. */
  lemma LookupStored(blocks: Blocks, dir: File, fs: seq<File>, z: nat, start: nat, end: nat, name: seq<byte>, res: Lookup)
    requires AreFiles(fs) && Stored(blocks, dir, EncodeAll(fs) + Zeros(z), start, end)
    requires dir.size % BLKSIZE == 0 && IsName(name) && name != []
    requires LooksUp(blocks, dir, name, res)
    ensures FirstNamed(fs, name, res)
  {
    hide BlockOf, EncodeAll, Stored, Entry, OthersBefore, FirstNamed, DirEntry;
    StoredParts(blocks, dir, EncodeAll(fs) + Zeros(z), start, end);
    forall n: nat | n < dir.size / FILESIZE ensures Entry(blocks, dir, n, DirEntry(fs, n)) {
      EntryStored(blocks, dir, fs, z, start, end, n);
    }
    assert Entries(blocks, dir, fs);
    FoundIsFile(blocks, dir, name, res);
    if res.Found? {
      var n: nat :| n < dir.size / FILESIZE && Entry(blocks, dir, n, res.file) && Named(res.file.name, name) && OthersBefore(blocks, dir, n, name);
      FoundFirst(blocks, dir, fs, name, n, res.file);
    } else {
      NotFound(blocks, dir, fs, name, res);
    }
  }

  lemma NotFound(blocks: Blocks, dir: File, fs: seq<File>, name: seq<byte>, res: Lookup)
    requires Shape(blocks) && IsFile(dir) && AreFiles(fs) && Entries(blocks, dir, fs) && IsName(name)
    requires dir.size % BLKSIZE == 0 && LooksUp(blocks, dir, name, res) && !res.Found?
    ensures FirstNamed(fs, name, res)
  {
    hide BlockOf, OthersBefore, DirEntry, Entry, EntryIn;
    if i: nat :| i < dir.size / BLKSIZE && DirFailsAt(blocks, dir, i, name, res) {
      NoFailure(blocks, dir, fs, i);
    }
    forall m | 0 <= m < |fs| ensures !Named(fs[m].name, name) {
      OtherName(blocks, dir, fs, dir.size / FILESIZE, m, name);
    }
  }

  lemma ZeroName(name: seq<byte>)
    requires IsName(name) && name != []
    ensures !Named(Decode(Zeros(FILESIZE)).name, name)
  {
    hide FromLeAll, FromLe;
    assert Decode(Zeros(FILESIZE)).name[..|name|][0] == 0;
  }

  // ---------------------------------------------------------------------------------------------
  // fs_init and walk_path.

  const E_BAD_PATH: int := -13
  const SLASH: byte := 0x2F
  const MAXBLOCKS: nat := 0xC0000          // DISKSIZE / BLKSIZE

  /** fs_init: the root directory of the super block; not ok is a panic of check_super */
  method FsInit(blocks: Blocks) returns (ok: bool, root: File)
    requires Shape(blocks) && |blocks| > 1
    ensures ok <==> Word(blocks[1], 0) == FS_MAGIC && Word(blocks[1], 1) <= MAXBLOCKS
    ensures IsFile(root) && root == Decode(blocks[1][8..8 + FILESIZE])
  {
    root := Decode(blocks[1][8..8 + FILESIZE]);
    ok := Word(blocks[1], 0) == FS_MAGIC && Word(blocks[1], 1) <= MAXBLOCKS;
  }

  function DropSlashes(path: seq<byte>): (p: seq<byte>)
    ensures |p| <= |path| && (p == [] || p[0] != SLASH)
    ensures 0 !in path ==> 0 !in p
  {
    if path != [] && path[0] == SLASH then DropSlashes(path[1..]) else path
  }

  /** The path up to the next slash. */
  function Component(path: seq<byte>): (name: seq<byte>)
    ensures name <= path && SLASH !in name
    ensures path != [] && path[0] != SLASH ==> name != []
  {
    if path == [] || path[0] == SLASH then [] else [path[0]] + Component(path[1..])
  }

  /** What walk_path is to answer for `path` from directory `f`: each component is looked up in the file of the one before. */
  ghost predicate WalksTo(blocks: Blocks, f: File, path: seq<byte>, res: Lookup)
    requires Shape(blocks) && IsFile(f) && 0 !in path
    decreases |path|
  {
    var p := DropSlashes(path);
    if p == [] then res == Found(f)
    else
      var name := Component(p);
      if |name| >= MAXNAMELEN then res == LookupError(E_BAD_PATH)
      else if f.ftype != FTYPE_DIR then res == LookupError(E_NOT_FOUND)
      else exists r: Lookup :: LooksUp(blocks, f, name, r) && if r.Found? then IsFile(r.file) && WalksTo(blocks, r.file, p[|name|..], res) else res == r
  }

  method SkipSlash(path: seq<byte>) returns (p: seq<byte>)
    ensures p == DropSlashes(path)
  {
    p := path;
    while p != [] && p[0] == SLASH
      invariant DropSlashes(p) == DropSlashes(path)
    {
      p := p[1..];
    }
  }

  lemma ComponentStep(path: seq<byte>, k: nat)
    requires k < |path| && path[k] != SLASH
    ensures path[..k] + Component(path[k..]) == path[..k + 1] + Component(path[k + 1..])
  {
    hide Component;
    var p, rest := path[k..], path[k + 1..];
    assert p[1..] == rest && p[0] == path[k];
    ComponentHead(p);
    assert path[..k + 1] == path[..k] + [path[k]];
    Associative(path[..k], [path[k]], Component(rest));
  }

  lemma ComponentHead(p: seq<byte>)
    requires p != [] && p[0] != SLASH
    ensures Component(p) == [p[0]] + Component(p[1..])
  {
  }

  lemma Associative(a: seq<byte>, b: seq<byte>, c: seq<byte>)
    ensures a + (b + c) == a + b + c
  {
  }

  /** The inner loop of walk_path. */
  method NextElement(path: seq<byte>) returns (name: seq<byte>, rest: seq<byte>)
    ensures name == Component(path) && rest == path[|name|..]
  {
    var k := 0;
    while k < |path| && path[k] != SLASH
      invariant k <= |path| && Component(path) == path[..k] + Component(path[k..])
    {
      ComponentStep(path, k);
      k := k + 1;
    }
    name, rest := path[..k], path[k..];
  }

  /** walk_path from the root directory, as file_open calls it. */
  method WalkPath(blocks: Blocks, root: File, path: seq<byte>) returns (res: Lookup)
    requires Shape(blocks) && IsFile(root) && 0 !in path
    ensures WalksTo(blocks, root, path, res)
  {
    hide LooksUp, IsFile, Shape, Component, DropSlashes;
    var f := root;
    var p := SkipSlash(path);
    DropTwice(path);
    WalkSkipped(blocks, f, path);
    while p != []
      invariant IsFile(f) && 0 !in p && DropSlashes(p) == p
      invariant forall r: Lookup :: WalksTo(blocks, f, p, r) ==> WalksTo(blocks, root, path, r)
      decreases |p|
    {
      var name, rest := NextElement(p);
      NameOfPath(p);
      if |name| >= MAXNAMELEN {
        return LookupError(E_BAD_PATH);
      }
      if f.ftype != FTYPE_DIR {
        return LookupError(E_NOT_FOUND);
      }
      res := DirLookup(blocks, f, name);
      if !res.Found? {
        return;
      }
      FoundIsFile(blocks, f, name, res);
      WalkDown(blocks, f, p, res);
      DropTwice(rest);
      WalkSkipped(blocks, res.file, rest);
      f := res.file;
      p := SkipSlash(rest);
    }
    res := Found(f);
  }

  lemma {:induction false} DropTwice(path: seq<byte>)
    ensures DropSlashes(DropSlashes(path)) == DropSlashes(path)
    decreases |path|
  {
    if path != [] && path[0] == SLASH {
      DropTwice(path[1..]);
    }
  }

  lemma NameOfPath(p: seq<byte>)
    requires p != [] && 0 !in p && DropSlashes(p) == p
    ensures Component(p) != [] && |Component(p)| <= |p| && 0 !in p[|Component(p)|..]
    ensures |Component(p)| < MAXNAMELEN ==> IsName(Component(p))
  {
  }

  lemma WalkSkipped(blocks: Blocks, f: File, path: seq<byte>)
    requires Shape(blocks) && IsFile(f) && 0 !in path
    ensures forall r: Lookup :: WalksTo(blocks, f, DropSlashes(path), r) ==> WalksTo(blocks, f, path, r)
  {
    DropTwice(path);
  }

  lemma WalkDown(blocks: Blocks, f: File, p: seq<byte>, found: Lookup)
    requires Shape(blocks) && IsFile(f) && 0 !in p && p != [] && DropSlashes(p) == p
    requires |Component(p)| < MAXNAMELEN && f.ftype == FTYPE_DIR && LooksUp(blocks, f, Component(p), found) && found.Found? && IsFile(found.file)
    ensures forall r: Lookup :: WalksTo(blocks, found.file, p[|Component(p)|..], r) ==> WalksTo(blocks, f, p, r)
  {
  }

  /** Nothing but slashes. */
  predicate Slashes(p: seq<byte>) {
    forall i :: 0 <= i < |p| ==> p[i] == SLASH
  }

  lemma {:induction false} DropAll(a: seq<byte>, p: seq<byte>)
    requires Slashes(a) && (p == [] || p[0] != SLASH)
    ensures DropSlashes(a + p) == p
    decreases |a|
  {
    if a == [] {
      assert a + p == p;
    } else {
      assert (a + p)[1..] == a[1..] + p;
      DropAll(a[1..], p);
    }
  }

  lemma {:induction false} ComponentOf(name: seq<byte>, b: seq<byte>)
    requires SLASH !in name && Slashes(b)
    ensures Component(name + b) == name
    decreases |name|
  {
    if name == [] {
      assert name + b == b;
    } else {
      assert (name + b)[1..] == name[1..] + b;
      ComponentOf(name[1..], b);
    }
  }

  /** A path of one component, with slashes around it, means that name in the directory. */
  lemma WalkOne(blocks: Blocks, dir: File, a: seq<byte>, name: seq<byte>, b: seq<byte>, res: Lookup)
    requires Shape(blocks) && IsFile(dir) && dir.ftype == FTYPE_DIR
    requires Slashes(a) && Slashes(b) && 0 !in name && name != [] && SLASH !in name
    requires WalksTo(blocks, dir, a + name + b, res)
    ensures if |name| < MAXNAMELEN then LooksUp(blocks, dir, name, res) else res == LookupError(E_BAD_PATH)
  {
    hide LooksUp;
    assert a + name + b == a + (name + b);
    DropAll(a, name + b);
    ComponentOf(name, b);
    assert (name + b)[|name|..] == b;
    DropAll(b, []);
    assert b + [] == b;
  }
}
