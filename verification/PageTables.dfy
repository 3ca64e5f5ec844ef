/**
  JOS page tables as references to physical pages: a live environment refers to its page directory, a
  directory entry to a page table, a page table entry to a user page.  Directories and tables are
  themselves physical pages, whose words are the entries.
 */
module PageTables {

  const NPDENTRIES: nat := 955       // directory entries below UTOP, PDX(UTOP)
  const NPTENTRIES: nat := 1024
  const PGSIZE: nat := 4096
  const UTOP: nat := 0xEEC00000

  datatype Flag = P | W | U | Avail(n: nat) | Other(n: nat)

  datatype Entry = Absent | Present(frame: nat, perm: set<Flag>)

  type Memory = seq<seq<Entry>>

  /** Where a physical page can be referred to from. */
  datatype Where = InEnv(e: nat) | InPde(e: nat, i: nat) | InPte(e: nat, i: nat, j: nat)

  /** The page directory of environment `e`; -1 when the slot is free. */
  function DirOf(envs: seq<int>, mem: Memory, e: nat): int {
    if e < |envs| && 0 <= envs[e] < |mem| then envs[e] else -1
  }

  function Pde(envs: seq<int>, mem: Memory, e: nat, i: nat): Entry {
    var d := DirOf(envs, mem, e);
    if d != -1 && i < NPDENTRIES && i < |mem[d]| then mem[d][i] else Absent
  }

  /** What the hardware finds at page `i`, `j` of environment `e`: the address space as a map. */
  function Pte(envs: seq<int>, mem: Memory, e: nat, i: nat, j: nat): Entry {
    match Pde(envs, mem, e, i)
    case Present(t, _) => if t < |mem| && j < |mem[t]| then mem[t][j] else Absent
    case Absent => Absent
  }

  /** The place `w` refers to page `f`. */
  predicate Names(envs: seq<int>, mem: Memory, w: Where, f: nat) {
    match w
    case InEnv(e) => DirOf(envs, mem, e) == f
    case InPde(e, i) => Pde(envs, mem, e, i).Present? && Pde(envs, mem, e, i).frame == f
    case InPte(e, i, j) => Pte(envs, mem, e, i, j).Present? && Pte(envs, mem, e, i, j).frame == f
  }

  /** All references to page `f`. */
  ghost function RefsTo(envs: seq<int>, mem: Memory, f: nat): set<Where> {
    (set e: nat | e < |envs| && Names(envs, mem, InEnv(e), f) :: InEnv(e))
    + (set e: nat, i: nat | e < |envs| && i < NPDENTRIES && Names(envs, mem, InPde(e, i), f) :: InPde(e, i))
    + (set e: nat, i: nat, j: nat | e < |envs| && i < NPDENTRIES && j < Widest(mem) && Names(envs, mem, InPte(e, i, j), f) :: InPte(e, i, j))
  }

  /** A bound on the number of entries of every page. */
  function Widest(mem: Memory): nat {
    if mem == [] then 0
    else
      var n := Widest(mem[1..]);
      if |mem[0]| > n then |mem[0]| else n
  }

  lemma {:induction false} WidestBounds(mem: Memory, t: nat)
    requires t < |mem|
    ensures |mem[t]| <= Widest(mem)
    decreases |mem|
  {
    if t != 0 {
      WidestBounds(mem[1..], t - 1);
    }
  }

  lemma RefsIff(envs: seq<int>, mem: Memory, f: nat, w: Where)
    ensures w in RefsTo(envs, mem, f) <==> Names(envs, mem, w, f)
  {
    if w.InPte? && Names(envs, mem, w, f) {
      WidestBounds(mem, Pde(envs, mem, w.e, w.i).frame);
    }
  }

  /** The references to `f` are the same in both states. */
  lemma RefsSame(envs: seq<int>, mem: Memory, envs': seq<int>, mem': Memory, f: nat)
    requires forall w :: Names(envs', mem', w, f) <==> Names(envs, mem, w, f)
    ensures RefsTo(envs', mem', f) == RefsTo(envs, mem, f)
  {
    forall w ensures w in RefsTo(envs', mem', f) <==> w in RefsTo(envs, mem, f) {
      RefsIff(envs', mem', f, w);
      RefsIff(envs, mem, f, w);
    }
  }

  /** `f` is referred to from one more place. */
  lemma RefsMore(envs: seq<int>, mem: Memory, envs': seq<int>, mem': Memory, f: nat, w0: Where)
    requires forall w :: Names(envs', mem', w, f) <==> Names(envs, mem, w, f) || w == w0
    requires !Names(envs, mem, w0, f)
    ensures |RefsTo(envs', mem', f)| == |RefsTo(envs, mem, f)| + 1
  {
    forall w ensures w in RefsTo(envs', mem', f) <==> w in RefsTo(envs, mem, f) + {w0} {
      RefsIff(envs', mem', f, w);
      RefsIff(envs, mem, f, w);
    }
    RefsIff(envs, mem, f, w0);
    assert RefsTo(envs', mem', f) == RefsTo(envs, mem, f) + {w0};
  }

  lemma RefsFewer(envs: seq<int>, mem: Memory, envs': seq<int>, mem': Memory, f: nat, w0: Where)
    requires forall w :: Names(envs', mem', w, f) <==> Names(envs, mem, w, f) && w != w0
    requires Names(envs, mem, w0, f)
    ensures |RefsTo(envs', mem', f)| == |RefsTo(envs, mem, f)| - 1
  {
    forall w ensures Names(envs, mem, w, f) <==> Names(envs', mem', w, f) || w == w0 {
    }
    RefsMore(envs', mem', envs, mem, f, w0);
  }

  lemma NoRefs(envs: seq<int>, mem: Memory, f: nat)
    requires |RefsTo(envs, mem, f)| == 0
    ensures forall w :: !Names(envs, mem, w, f)
  {
    forall w ensures !Names(envs, mem, w, f) {
      RefsIff(envs, mem, f, w);
    }
  }

  // ---------------------------------------------------------------------------------------------
  // Well-formed address spaces.

  /** A directory or table is referred to from one place only, so no two address spaces share one and no user can map one. */
  ghost predicate Sole(envs: seq<int>, mem: Memory) {
    forall w1, w2, f: nat {:trigger Names(envs, mem, w1, f), Names(envs, mem, w2, f)} ::
      Names(envs, mem, w1, f) && Names(envs, mem, w2, f) && !w1.InPte? ==> w1 == w2
  }

  /** A directory entry lets users through to its table for reads and writes, so that the table's entries decide. */
  ghost predicate Open(envs: seq<int>, mem: Memory) {
    forall e: nat, i: nat {:trigger Pde(envs, mem, e, i)} :: Pde(envs, mem, e, i).Present? ==> {P, U, W} <= Pde(envs, mem, e, i).perm
  }

  ghost predicate Tables(envs: seq<int>, mem: Memory, managed: set<nat>) {
    && (forall f: nat :: f < |mem| ==> |mem[f]| == NPTENTRIES)
    && (forall f: nat :: f in managed ==> f < |mem|)
    && (forall w, f: nat {:trigger Names(envs, mem, w, f)} :: Names(envs, mem, w, f) ==> f in managed)
    && (forall e: nat :: e < |envs| ==> envs[e] == -1 || 0 <= envs[e] < |mem|)
    && Sole(envs, mem) && Open(envs, mem)
  }

  /** The state with entry `j` of page `t` replaced. */
  function SetEntry(mem: Memory, t: nat, j: nat, x: Entry): Memory
    requires t < |mem| && j < |mem[t]|
  {
    mem[t := mem[t][j := x]]
  }

  /** Writing one entry of a page table changes that entry of that address space only. */
  lemma SetPte(envs: seq<int>, mem: Memory, managed: set<nat>, e: nat, i: nat, j: nat, t: nat, x: Entry)
    requires Tables(envs, mem, managed) && Pde(envs, mem, e, i).Present? && Pde(envs, mem, e, i).frame == t && j < NPTENTRIES
    ensures t < |mem| && j < |mem[t]|
    ensures forall e2: nat :: DirOf(envs, SetEntry(mem, t, j, x), e2) == DirOf(envs, mem, e2)
    ensures forall e2: nat, i2: nat :: Pde(envs, SetEntry(mem, t, j, x), e2, i2) == Pde(envs, mem, e2, i2)
    ensures forall e2: nat, i2: nat, j2: nat ::
      Pte(envs, SetEntry(mem, t, j, x), e2, i2, j2) == if e2 == e && i2 == i && j2 == j then x else Pte(envs, mem, e2, i2, j2)
  {
    assert Names(envs, mem, InPde(e, i), t);
    var mem' := SetEntry(mem, t, j, x);
    forall e2: nat, i2: nat ensures Pde(envs, mem', e2, i2) == Pde(envs, mem, e2, i2) {
      assert DirOf(envs, mem, e2) == t ==> Names(envs, mem, InEnv(e2), t);
    }
    forall e2: nat, i2: nat, j2: nat
      ensures Pte(envs, mem', e2, i2, j2) == if e2 == e && i2 == i && j2 == j then x else Pte(envs, mem, e2, i2, j2)
    {
      var q := Pde(envs, mem, e2, i2);
      assert q.Present? && q.frame == t ==> Names(envs, mem, InPde(e2, i2), t);
    }
  }

  /** Writing one entry of a page directory, when the table that comes or goes has no entries. */
  lemma SetPde(envs: seq<int>, mem: Memory, managed: set<nat>, e: nat, i: nat, d: nat, x: Entry)
    requires Tables(envs, mem, managed) && DirOf(envs, mem, e) == d && i < NPDENTRIES
    ensures d < |mem| && i < |mem[d]|
    ensures forall e2: nat :: DirOf(envs, SetEntry(mem, d, i, x), e2) == DirOf(envs, mem, e2)
    ensures forall e2: nat, i2: nat ::
      Pde(envs, SetEntry(mem, d, i, x), e2, i2) == if e2 == e && i2 == i then x else Pde(envs, mem, e2, i2)
  {
    assert Names(envs, mem, InEnv(e), d);
    forall e2: nat, i2: nat ensures Pde(envs, SetEntry(mem, d, i, x), e2, i2) == if e2 == e && i2 == i then x else Pde(envs, mem, e2, i2) {
      assert DirOf(envs, mem, e2) == d ==> Names(envs, mem, InEnv(e2), d);
    }
  }

  // ---------------------------------------------------------------------------------------------
  // What the kernel's updates do to references and address spaces.

  /** A page of zeroes, read as table entries. */
  ghost predicate Blank(page: seq<Entry>) {
    forall j :: 0 <= j < |page| ==> page[j].Absent?
  }

  function Zeroes(page: seq<Entry>): (r: seq<Entry>)
    ensures |r| == |page| && Blank(r)
  {
    if page == [] then [] else [Absent] + Zeroes(page[1..])
  }

  /** Every address space maps what it mapped before. */
  ghost predicate AllSame(envs: seq<int>, mem: Memory, envs': seq<int>, mem': Memory) {
    forall e: nat, i: nat, j: nat {:trigger Pte(envs', mem', e, i, j)} :: Pte(envs', mem', e, i, j) == Pte(envs, mem, e, i, j)
  }

  /** Writing a page that is no directory and no table: no address space changes. */
  lemma WritePage(envs: seq<int>, mem: Memory, managed: set<nat>, f: nat, page: seq<Entry>)
    requires Tables(envs, mem, managed) && f < |mem| && |page| == NPTENTRIES && forall w :: Names(envs, mem, w, f) ==> w.InPte?
    ensures forall w, g: nat :: Names(envs, mem[f := page], w, g) <==> Names(envs, mem, w, g)
    ensures Tables(envs, mem[f := page], managed) && AllSame(envs, mem, envs, mem[f := page])
    ensures forall e: nat, i: nat :: Pde(envs, mem[f := page], e, i) == Pde(envs, mem, e, i)
  {
    var mem' := mem[f := page];
    forall e: nat ensures DirOf(envs, mem, e) != f {
      assert Names(envs, mem, InEnv(e), f) ==> InEnv(e).InPte?;
    }
    forall e: nat, i: nat ensures Pde(envs, mem', e, i) == Pde(envs, mem, e, i) && (Pde(envs, mem, e, i).Present? ==> Pde(envs, mem, e, i).frame != f) {
      assert Names(envs, mem, InPde(e, i), f) ==> InPde(e, i).InPte?;
    }
    forall e: nat, i: nat, j: nat ensures Pte(envs, mem', e, i, j) == Pte(envs, mem, e, i, j) {
    }
    TablesMono(envs, mem, envs, mem', managed);
  }

  lemma TablesMono(envs: seq<int>, mem: Memory, envs': seq<int>, mem': Memory, managed: set<nat>)
    requires Tables(envs, mem, managed) && |mem'| == |mem| && forall f: nat :: f < |mem| ==> |mem'[f]| == NPTENTRIES
    requires forall e: nat :: e < |envs'| ==> envs'[e] == -1 || 0 <= envs'[e] < |mem|
    requires Open(envs', mem')
    requires forall w, g: nat {:trigger Names(envs', mem', w, g)} :: Names(envs', mem', w, g) ==> Names(envs, mem, w, g)
    ensures Tables(envs', mem', managed)
  {
    forall w1, w2, f: nat | Names(envs', mem', w1, f) && Names(envs', mem', w2, f) && !w1.InPte? ensures w1 == w2 {
      assert Names(envs, mem, w1, f) && Names(envs, mem, w2, f);
    }
  }

  /** One new reference keeps the address spaces well formed when its target is not a directory or table already. */
  lemma TablesMore(envs: seq<int>, mem: Memory, envs': seq<int>, mem': Memory, managed: set<nat>, w0: Where, f0: nat)
    requires Tables(envs, mem, managed) && |mem'| == |mem| && forall f: nat :: f < |mem| ==> |mem'[f]| == NPTENTRIES
    requires forall e: nat :: e < |envs'| ==> envs'[e] == -1 || 0 <= envs'[e] < |mem|
    requires Open(envs', mem')
    requires forall w, g: nat {:trigger Names(envs', mem', w, g)} :: Names(envs', mem', w, g) ==> Names(envs, mem, w, g) || (w == w0 && g == f0)
    requires f0 in managed && forall w :: Names(envs, mem, w, f0) ==> w.InPte? && w0.InPte?
    ensures Tables(envs', mem', managed)
  {
    forall w1, w2, f: nat | Names(envs', mem', w1, f) && Names(envs', mem', w2, f) && !w1.InPte? ensures w1 == w2 {
      assert f != f0 ==> Names(envs, mem, w1, f) && Names(envs, mem, w2, f);
    }
  }

  /** Replacing an entry of a page table by one that names a user page, or by none. */
  lemma PteNames(envs: seq<int>, mem: Memory, managed: set<nat>, e: nat, i: nat, j: nat, t: nat, x: Entry)
    requires Tables(envs, mem, managed) && Pde(envs, mem, e, i).Present? && Pde(envs, mem, e, i).frame == t && j < NPTENTRIES
    requires x.Present? ==> x.frame in managed && forall w :: Names(envs, mem, w, x.frame) ==> w.InPte?
    ensures t < |mem| && j < |mem[t]|
    ensures forall w, g: nat :: Names(envs, SetEntry(mem, t, j, x), w, g) <==>
      if w == InPte(e, i, j) then x.Present? && x.frame == g else Names(envs, mem, w, g)
    ensures Tables(envs, SetEntry(mem, t, j, x), managed)
  {
    SetPte(envs, mem, managed, e, i, j, t, x);
    var mem' := SetEntry(mem, t, j, x);
    if x.Present? {
      TablesMore(envs, mem, envs, mem', managed, InPte(e, i, j), x.frame);
    } else {
      TablesMono(envs, mem, envs, mem', managed);
    }
  }

  /** Giving a directory a new, empty table. */
  lemma NewTable(envs: seq<int>, mem: Memory, managed: set<nat>, e: nat, i: nat, d: nat, t: nat, perm: set<Flag>)
    requires Tables(envs, mem, managed) && DirOf(envs, mem, e) == d && i < NPDENTRIES && Pde(envs, mem, e, i).Absent?
    requires t in managed && t < |mem| && Blank(mem[t]) && {P, U, W} <= perm && forall w :: !Names(envs, mem, w, t)
    ensures d < |mem| && i < |mem[d]|
    ensures var mem' := SetEntry(mem, d, i, Present(t, perm));
      && (forall w, g: nat :: Names(envs, mem', w, g) <==> Names(envs, mem, w, g) || (w == InPde(e, i) && g == t))
      && Tables(envs, mem', managed) && AllSame(envs, mem, envs, mem')
      && (forall e2: nat, i2: nat {:trigger Pde(envs, mem', e2, i2)} :: Pde(envs, mem', e2, i2) == if e2 == e && i2 == i then Present(t, perm) else Pde(envs, mem, e2, i2))
      && forall e2: nat :: DirOf(envs, mem', e2) == DirOf(envs, mem, e2)
  {
    var x := Present(t, perm);
    assert !Names(envs, mem, InEnv(e), t);
    SetPde(envs, mem, managed, e, i, d, x);
    var mem' := SetEntry(mem, d, i, x);
    forall e2: nat, i2: nat, j2: nat ensures Pte(envs, mem', e2, i2, j2) == Pte(envs, mem, e2, i2, j2) {
      var q := Pde(envs, mem, e2, i2);
      assert q.Present? ==> Names(envs, mem, InPde(e2, i2), q.frame) && (q.frame == d ==> Names(envs, mem, InEnv(e), d));
    }
    TablesMore(envs, mem, envs, mem', managed, InPde(e, i), t);
  }

  /** Changing the permissions of a directory entry. */
  lemma PdePerm(envs: seq<int>, mem: Memory, managed: set<nat>, e: nat, i: nat, d: nat, perm: set<Flag>)
    requires Tables(envs, mem, managed) && DirOf(envs, mem, e) == d && i < NPDENTRIES && Pde(envs, mem, e, i).Present? && {P, U, W} <= perm
    ensures d < |mem| && i < |mem[d]|
    ensures var mem' := SetEntry(mem, d, i, Present(Pde(envs, mem, e, i).frame, perm));
      && (forall w, g: nat :: Names(envs, mem', w, g) <==> Names(envs, mem, w, g))
      && (forall e2: nat {:trigger DirOf(envs, mem', e2)} :: DirOf(envs, mem', e2) == DirOf(envs, mem, e2))
      && (forall e2: nat, i2: nat {:trigger Pde(envs, mem', e2, i2)} ::
            Pde(envs, mem', e2, i2) == if e2 == e && i2 == i then Present(Pde(envs, mem, e, i).frame, perm) else Pde(envs, mem, e2, i2))
      && Tables(envs, mem', managed) && AllSame(envs, mem, envs, mem')
  {
    var x := Present(Pde(envs, mem, e, i).frame, perm);
    SetPde(envs, mem, managed, e, i, d, x);
    var mem' := SetEntry(mem, d, i, x);
    assert Names(envs, mem, InEnv(e), d);
    forall e2: nat, i2: nat, j2: nat ensures Pte(envs, mem', e2, i2, j2) == Pte(envs, mem, e2, i2, j2) {
      var q := Pde(envs, mem, e2, i2);
      assert q.Present? ==> Names(envs, mem, InPde(e2, i2), q.frame);
    }
    TablesMono(envs, mem, envs, mem', managed);
  }

  /** Taking away a table that has no entries left. */
  lemma DropTable(envs: seq<int>, mem: Memory, managed: set<nat>, e: nat, i: nat, d: nat)
    requires Tables(envs, mem, managed) && DirOf(envs, mem, e) == d && i < NPDENTRIES && Pde(envs, mem, e, i).Present?
    requires forall j: nat :: Pte(envs, mem, e, i, j).Absent?
    ensures d < |mem| && i < |mem[d]|
    ensures var mem' := SetEntry(mem, d, i, Absent);
      && (forall w, g: nat :: Names(envs, mem', w, g) <==> Names(envs, mem, w, g) && w != InPde(e, i))
      && Tables(envs, mem', managed) && AllSame(envs, mem, envs, mem')
      && (forall e2: nat, i2: nat :: Pde(envs, mem', e2, i2) == if e2 == e && i2 == i then Absent else Pde(envs, mem, e2, i2))
      && forall e2: nat :: DirOf(envs, mem', e2) == DirOf(envs, mem, e2)
  {
    SetPde(envs, mem, managed, e, i, d, Absent);
    var mem' := SetEntry(mem, d, i, Absent);
    assert Names(envs, mem, InEnv(e), d);
    forall e2: nat, i2: nat, j2: nat ensures Pte(envs, mem', e2, i2, j2) == Pte(envs, mem, e2, i2, j2) {
      var q := Pde(envs, mem, e2, i2);
      assert q.Present? ==> Names(envs, mem, InPde(e2, i2), q.frame);
    }
    TablesMono(envs, mem, envs, mem', managed);
  }

  /** A new environment with an empty directory. */
  lemma NewDir(envs: seq<int>, mem: Memory, managed: set<nat>, e: nat, d: nat)
    requires Tables(envs, mem, managed) && e < |envs| && envs[e] == -1
    requires d in managed && d < |mem| && (forall i: nat :: i < NPDENTRIES && i < |mem[d]| ==> mem[d][i].Absent?) && forall w :: !Names(envs, mem, w, d)
    ensures (forall w, g: nat :: Names(envs[e := d], mem, w, g) <==> Names(envs, mem, w, g) || (w == InEnv(e) && g == d))
    ensures Tables(envs[e := d], mem, managed) && AllSame(envs, mem, envs[e := d], mem)
  {
    var envs' := envs[e := d];
    forall e2: nat, i2: nat ensures Pde(envs', mem, e2, i2) == Pde(envs, mem, e2, i2) {
    }
    TablesMore(envs, mem, envs', mem, managed, InEnv(e), d);
  }

  /** An environment whose directory has no entries left goes away. */
  lemma DropDir(envs: seq<int>, mem: Memory, managed: set<nat>, e: nat)
    requires Tables(envs, mem, managed) && e < |envs| && envs[e] != -1 && forall i: nat :: Pde(envs, mem, e, i).Absent?
    ensures (forall w, g: nat :: Names(envs[e := -1], mem, w, g) <==> Names(envs, mem, w, g) && w != InEnv(e))
    ensures Tables(envs[e := -1], mem, managed) && AllSame(envs, mem, envs[e := -1], mem)
  {
    var envs' := envs[e := -1];
    forall e2: nat, i2: nat ensures Pde(envs', mem, e2, i2) == Pde(envs, mem, e2, i2) {
    }
    TablesMono(envs, mem, envs', mem, managed);
  }
}
