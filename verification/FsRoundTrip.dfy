/** What fsformat writes, the file server reads. */
module FsRoundTrip {
  import opened FileImage
  import opened FileServer
  import opened FsFormat

  /** check_super accepts the super block, and the root directory is read from it. */
  lemma SuperRead(nblocks: nat, root: File)
    requires IsWord(nblocks) && IsFile(root)
    ensures Word(SuperBlock(nblocks, root), 0) == FS_MAGIC && Word(SuperBlock(nblocks, root), 1) == nblocks
    ensures Decode(SuperBlock(nblocks, root)[8..8 + FILESIZE]) == root
  {
    hide Encode, Decode, Le, FromLe;
    var b := SuperBlock(nblocks, root);
    assert b[0..4] == Le(FS_MAGIC) && b[4..8] == Le(nblocks) && b[8..8 + FILESIZE] == Encode(root);
    LeRoundTrip(FS_MAGIC);
    LeRoundTrip(nblocks);
    EncodeRoundTrip(root);
  }

  /** File `i` is the first of that name. */
  ghost predicate First(files: seq<Source>, name: seq<byte>, i: nat) {
    i < |files| && files[i].name == name && forall j :: 0 <= j < i ==> files[j].name != name
  }

  /** The names on the disk are the names of the files. */
  lemma NamedAs(field: seq<byte>, name: seq<byte>, other: seq<byte>)
    requires |field| == MAXNAMELEN && IsName(name) && IsName(other) && Named(field, name)
    ensures Named(field, other) <==> other == name
  {
    assert field[..|name|] == name && field[|name|] == 0;
    assert |other| < |name| ==> field[|other|] == name[|other|] != 0;
    assert |name| < |other| ==> field[..|other|][|name|] == 0 != other[|name|];
  }

  /** The lookup finds the structure of the first file of that name. */
  lemma FoundSource(files: seq<Source>, ws: seq<Written>, name: seq<byte>, res: Lookup)
    requires AreSources(files) && Sources(files, ws) && AreFiles(Structures(ws)) && IsName(name)
    requires FirstNamed(Structures(ws), name, res)
    ensures forall i: nat :: First(files, name, i) ==> res == Found(ws[i].f)
    ensures (forall i :: 0 <= i < |files| ==> files[i].name != name) ==> res == LookupError(E_NOT_FOUND)
  {
    hide Named, SourceOf;
    forall i | 0 <= i < |files| ensures IsFile(ws[i].f) && (Named(ws[i].f.name, name) <==> name == files[i].name) {
      NameOfSource(files[i], ws[i], name);
    }
  }

  lemma NameOfSource(f: Source, w: Written, name: seq<byte>)
    requires IsName(f.name) && SourceOf(w, f) && IsName(name)
    ensures IsFile(w.f) && (Named(w.f.name, name) <==> name == f.name)
  {
    NamedAs(w.f.name, f.name, name);
  }

  lemma ImageParts(blocks: Blocks, files: seq<Source>, lay: Layout)
    requires AreSources(files) && Image(blocks, files, lay)
    ensures Shape(blocks) && |blocks| > 1 && Word(blocks[1], 0) == FS_MAGIC && Word(blocks[1], 1) <= MAXBLOCKS
    ensures IsFile(lay.root) && lay.root.ftype == FTYPE_DIR && Decode(blocks[1][8..8 + FILESIZE]) == lay.root
  {
    SuperRead(|blocks|, lay.root);
  }

  /** In the root directory of the image. */
  lemma ImageLookup(blocks: Blocks, files: seq<Source>, lay: Layout, name: seq<byte>, res: Lookup)
    requires AreSources(files) && Image(blocks, files, lay) && IsName(name) && name != []
    requires LooksUp(blocks, lay.root, name, res)
    ensures forall i: nat :: First(files, name, i) ==> i < |lay.ws| && res == Found(lay.ws[i].f)
    ensures (forall i :: 0 <= i < |files| ==> files[i].name != name) ==> res == LookupError(E_NOT_FOUND)
  {
    hide LooksUp, Stored, EncodeAll, SuperBlock, Chain, AllWritten;
    DirSizes(|files|);
    LookupStored(blocks, lay.root, Structures(lay.ws), lay.z, lay.start, lay.end, name, res);
    FoundSource(files, lay.ws, name, res);
  }

  lemma ImageStored(blocks: Blocks, files: seq<Source>, lay: Layout, i: nat)
    requires AreSources(files) && Image(blocks, files, lay) && i < |files|
    ensures i < |lay.ws| && IsFile(lay.ws[i].f) && Stored(blocks, lay.ws[i].f, files[i].data, lay.ws[i].start, lay.ws[i].end)
  {
    hide Stored, EncodeAll, SuperBlock, Chain;
    assert SourceOf(lay.ws[i], files[i]) && WrittenOk(blocks, lay.ws[i]);
  }

  /** What a read of `path` must answer: the bytes of the first file of that name, or that there is none. */
  ghost predicate Answers(files: seq<Source>, name: seq<byte>, count: nat, offset: nat, res: ReadResult) {
    && (forall i: nat {:trigger First(files, name, i)} :: First(files, name, i) ==> res == Bytes(Slice(files[i].data, count, offset)))
    && ((forall i :: 0 <= i < |files| ==> files[i].name != name) ==> res == ReadError(E_NOT_FOUND))
  }

  /** file_open and file_read on an image that fsformat has written. */
  method ReadBack(blocks: Blocks, path: seq<byte>, count: nat, offset: nat,
                  ghost files: seq<Source>, ghost lay: Layout, ghost a: seq<byte>, ghost name: seq<byte>, ghost b: seq<byte>)
    returns (res: ReadResult)
    requires AreSources(files) && Image(blocks, files, lay)
    requires path == a + name + b && Slashes(a) && Slashes(b) && 0 !in name && name != [] && SLASH !in name
    ensures if |name| < MAXNAMELEN then Answers(files, name, count, offset, res) else res == ReadError(E_BAD_PATH)
  {
    hide Image, Shape, IsFile, WalksTo, LooksUp, ReadsAs, Slice, Stored;
    ImageParts(blocks, files, lay);
    var ok, root := FsInit(blocks);
    assert ok;
    NoZero(a, name, b);
    var found := WalkPath(blocks, root, path);
    WalkOne(blocks, root, a, name, b, found);
    if |name| < MAXNAMELEN {
      ImageLookup(blocks, files, lay, name, found);
      FoundIsFile(blocks, root, name, found);
    }
    match found {
      case LookupPanic => res := ReadPanic;
      case LookupError(code) => res := ReadError(code);
      case Found(f) => res := FileRead(blocks, f, count, offset);
    }
    forall i: nat | |name| < MAXNAMELEN && First(files, name, i) ensures res == Bytes(Slice(files[i].data, count, offset)) {
      ImageStored(blocks, files, lay, i);
      SliceRead(blocks, found.file, files[i].data, lay.ws[i].start, lay.ws[i].end, count, offset, res);
    }
  }

  lemma NoZero(a: seq<byte>, name: seq<byte>, b: seq<byte>)
    requires Slashes(a) && Slashes(b) && 0 !in name
    ensures 0 !in a + name + b
  {
  }

  /**
    The round trip: on every list of files that fits the disk, and on no other, fsformat makes an image; and
    reading any of the files by its path gives exactly the bytes asked for that the file has.  No file has a
    name of 128 bytes or more, and a path with such a name is refused.
   */
  method RoundTrip(nblocks: nat, files: seq<Source>, junk: seq<File>, a: seq<byte>, name: seq<byte>, b: seq<byte>, count: nat, offset: nat)
    returns (made: Result, res: ReadResult)
    requires AreStrings(files) && |junk| == MAX_DIR_ENTS && AreFiles(junk)
    requires Slashes(a) && Slashes(b) && 0 !in name && name != [] && SLASH !in name
    ensures made.Done? <==> Fits(nblocks, files)
    ensures made.Overrun? <==> 4 <= nblocks <= 1024 && Overruns(nblocks, files)
    ensures made.Done? && |name| < MAXNAMELEN ==> Answers(files, name, count, offset, res)
    ensures made.Done? && |name| >= MAXNAMELEN ==> res == ReadError(E_BAD_PATH) && forall i :: 0 <= i < |files| ==> files[i].name != name
  {
    hide Image, Answers, Overruns;
    var blocks, bitmap;
    ghost var lay;
    res := ReadPanic;
    made, blocks, bitmap, lay := Format(nblocks, files, junk);
    if made.Done? {
      res := ReadBack(blocks, a + name + b, count, offset, files, lay, a, name, b);
    }
  }
}
