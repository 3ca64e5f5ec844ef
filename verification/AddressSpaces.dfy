/**
  What the page operations of JOS do to the address spaces.  The two-level tables of every environment
  are read as one map, from environment, directory index and table index to a page and its permissions.
 */
module AddressSpaces {
  import opened PageTables
  import opened FrameAccounting

  /** What environment `e` has mapped at directory index `i`, table index `j`. */
  ghost function Maps(k: Frames, e: nat, i: nat, j: nat): Entry {
    Pte(k.envs, k.mem, e, i, j)
  }

  ghost function Directory(k: Frames, e: nat): int {
    DirOf(k.envs, k.mem, e)
  }

  ghost function TableAt(k: Frames, e: nat, i: nat): Entry {
    Pde(k.envs, k.mem, e, i)
  }

  ghost predicate SameSpaces(k: Frames, k': Frames) {
    forall e: nat, i: nat, j: nat {:trigger Maps(k', e, i, j)} :: Maps(k', e, i, j) == Maps(k, e, i, j)
  }

  /** One entry of one address space has changed. */
  ghost predicate OneChange(k: Frames, k': Frames, e: nat, i: nat, j: nat, x: Entry) {
    forall e2: nat, i2: nat, j2: nat {:trigger Maps(k', e2, i2, j2)} ::
      Maps(k', e2, i2, j2) == if e2 == e && i2 == i && j2 == j then x else Maps(k, e2, i2, j2)
  }

  /** Only environment `e` has changed. */
  ghost predicate OthersSame(k: Frames, k': Frames, e: nat) {
    forall e2: nat, i2: nat, j2: nat {:trigger Maps(k', e2, i2, j2)} :: e2 != e ==> Maps(k', e2, i2, j2) == Maps(k, e2, i2, j2)
  }

  ghost predicate SameTables(k: Frames, k': Frames) {
    && (forall e: nat {:trigger Directory(k', e)} :: Directory(k', e) == Directory(k, e))
    && forall e: nat, i: nat {:trigger TableAt(k', e, i)} :: TableAt(k', e, i) == TableAt(k, e, i)
  }

  /** One directory entry has changed. */
  ghost predicate OneTable(k: Frames, k': Frames, e: nat, i: nat, x: Entry) {
    && (forall e2: nat {:trigger Directory(k', e2)} :: Directory(k', e2) == Directory(k, e2))
    && forall e2: nat, i2: nat {:trigger TableAt(k', e2, i2)} :: TableAt(k', e2, i2) == if e2 == e && i2 == i then x else TableAt(k, e2, i2)
  }

  /** The bits that the hardware looks at. */
  const ACCESS: set<Flag> := {P, U, W}

  /** What translation grants at page `i`, `j` of environment `e`: what both the directory entry and the table entry allow. */
  ghost function Access(k: Frames, e: nat, i: nat, j: nat): set<Flag> {
    match TableAt(k, e, i)
    case Absent => {}
    case Present(t, perm) => if Maps(k, e, i, j).Present? then perm * Maps(k, e, i, j).perm * ACCESS else {}
  }

  /** It is what the entry of the page table says: a directory entry never takes anything away. */
  lemma AccessIs(managed: set<nat>, k: Frames, held: set<nat>, pin: set<nat>, e: nat, i: nat, j: nat)
    requires Ok(managed, k, held, pin)
    ensures Access(k, e, i, j) == if Maps(k, e, i, j).Present? then Maps(k, e, i, j).perm * ACCESS else {}
  {
    hide IsList, Names, DirOf;
    assert Pde(k.envs, k.mem, e, i).Present? ==> {P, U, W} <= Pde(k.envs, k.mem, e, i).perm;
  }

  /** Page `i`, `j` of environment `e` can be accessed as `perm` says, and every other page as before. */
  ghost predicate Grants(k: Frames, k': Frames, e: nat, i: nat, j: nat, perm: set<Flag>) {
    forall e2: nat, i2: nat, j2: nat {:trigger Access(k', e2, i2, j2)} ::
      Access(k', e2, i2, j2) == if e2 == e && i2 == i && j2 == j then perm * ACCESS else Access(k, e2, i2, j2)
  }

  lemma ChangeGrants(managed: set<nat>, k: Frames, held: set<nat>, k': Frames, held': set<nat>, e: nat, i: nat, j: nat, x: Entry)
    requires Ok(managed, k, held, {}) && Ok(managed, k', held', {}) && OneChange(k, k', e, i, j, x)
    ensures Grants(k, k', e, i, j, if x.Present? then x.perm else {})
  {
    hide Ok, Maps, TableAt, Access;
    forall e2: nat, i2: nat, j2: nat
      ensures Access(k', e2, i2, j2) == if e2 == e && i2 == i && j2 == j then (if x.Present? then x.perm else {}) * ACCESS else Access(k, e2, i2, j2)
    {
      AccessIs(managed, k, held, {}, e2, i2, j2);
      AccessIs(managed, k', held', {}, e2, i2, j2);
      assert Maps(k', e2, i2, j2) == if e2 == e && i2 == i && j2 == j then x else Maps(k, e2, i2, j2);
    }
  }

  /** A page that is no directory and no table. */
  ghost predicate Plain(k: Frames, f: nat) {
    forall w {:trigger Refers(k, w, f)} :: Refers(k, w, f) ==> w.InPte?
  }

  /** A page that users may map: in use, and no directory or table. */
  ghost predicate UserPage(managed: set<nat>, k: Frames, f: nat) {
    f in managed && !Listed(k, f) && Plain(k, f)
  }

  ghost function Content(k: Frames, f: nat): seq<Entry> {
    if f < |k.mem| then k.mem[f] else []
  }

  /** No page outside the directories and tables has been written. */
  ghost predicate KeptPlain(k: Frames, k': Frames) {
    forall g: nat {:trigger Plain(k', g)} {:trigger Content(k', g)} :: Plain(k, g) ==> Plain(k', g) && Content(k', g) == Content(k, g)
  }

  /** What the users' pages hold has not changed. */
  ghost predicate Kept(managed: set<nat>, k: Frames, k': Frames) {
    forall g: nat {:trigger Content(k', g)} :: UserPage(managed, k, g) ==> Content(k', g) == Content(k, g)
  }

  /** The pages of users are still pages of users, and what they hold has not changed. */
  ghost predicate KeptUsers(managed: set<nat>, k: Frames, k': Frames) {
    forall g: nat {:trigger UserPage(managed, k', g)} {:trigger Content(k', g)} ::
      UserPage(managed, k, g) ==> UserPage(managed, k', g) && Content(k', g) == Content(k, g)
  }

  lemma KeptPlainTwice(k: Frames, k': Frames, k'': Frames)
    requires KeptPlain(k, k') && KeptPlain(k', k'')
    ensures KeptPlain(k, k'')
  {
    hide Plain, Content;
    forall g: nat | Plain(k, g) ensures Plain(k'', g) && Content(k'', g) == Content(k, g) {
      assert Plain(k', g) && Content(k', g) == Content(k, g);
    }
  }

  lemma KeptBoth(managed: set<nat>, k: Frames, k': Frames, k'': Frames)
    requires KeptUsers(managed, k, k') && KeptPlain(k', k'')
    ensures Kept(managed, k, k'')
  {
    hide Content, Plain, Listed;
    forall g: nat | UserPage(managed, k, g) ensures Content(k'', g) == Content(k, g) {
      assert UserPage(managed, k', g) && Content(k', g) == Content(k, g);
      assert Plain(k', g);
    }
  }

  /** Writing a directory or table keeps every other page, and the page stays plain when no such reference to it appears. */
  lemma WriteKeeps(k: Frames, k': Frames, w0: Where, t: nat)
    requires Refers(k, w0, t) && !w0.InPte? && |k'.mem| == |k.mem| && forall g: nat {:trigger k'.mem[g]} :: g < |k.mem| && g != t ==> k'.mem[g] == k.mem[g]
    requires forall w, g: nat {:trigger Refers(k', w, g)} :: Refers(k', w, g) && !w.InPte? ==> Refers(k, w, g)
    ensures KeptPlain(k, k')
  {
    hide Refers;
    forall g: nat | Plain(k, g) ensures Plain(k', g) && Content(k', g) == Content(k, g) {
      assert g != t;
      forall w | Refers(k', w, g) ensures w.InPte? {
        assert !w.InPte? ==> Refers(k, w, g);
      }
    }
  }

  // ---------------------------------------------------------------------------------------------

  lemma Bounds(managed: set<nat>, k: Frames, held: set<nat>, pin: set<nat>, e: nat)
    requires Ok(managed, k, held, pin) && Directory(k, e) != -1
    ensures e < |k.envs| && 0 <= k.envs[e] < |k.mem| && Directory(k, e) == k.envs[e] && |k.mem[k.envs[e]]| == NPTENTRIES
    ensures forall i: nat {:trigger TableAt(k, e, i)} :: i < NPDENTRIES ==> TableAt(k, e, i) == k.mem[k.envs[e]][i]
  {
  }

  lemma TableBounds(managed: set<nat>, k: Frames, held: set<nat>, pin: set<nat>, e: nat, i: nat)
    requires Ok(managed, k, held, pin) && TableAt(k, e, i).Present?
    ensures TableAt(k, e, i).frame < |k.mem| && |k.mem[TableAt(k, e, i).frame]| == NPTENTRIES
    ensures forall j: nat {:trigger Maps(k, e, i, j)} :: j < NPTENTRIES ==> Maps(k, e, i, j) == k.mem[TableAt(k, e, i).frame][j]
    ensures Refers(k, InPde(e, i), TableAt(k, e, i).frame)
  {
    assert Names(k.envs, k.mem, InPde(e, i), TableAt(k, e, i).frame);
  }

  lemma NoTable(k: Frames, e: nat, i: nat)
    requires TableAt(k, e, i).Absent?
    ensures forall j: nat {:trigger Maps(k, e, i, j)} :: Maps(k, e, i, j).Absent?
  {
  }

  lemma Mapped(managed: set<nat>, k: Frames, e: nat, i: nat, j: nat)
    requires Ok(managed, k, {}, {}) && Maps(k, e, i, j).Present?
    ensures Refers(k, InPte(e, i, j), Maps(k, e, i, j).frame) && UserPage(managed, k, Maps(k, e, i, j).frame)
  {
    var f := Maps(k, e, i, j).frame;
    assert Names(k.envs, k.mem, InPte(e, i, j), f) && Sole(k.envs, k.mem);
    forall w | Refers(k, w, f) ensures w.InPte? {
      assert Names(k.envs, k.mem, w, f);
    }
    InUse(managed, k, {}, {}, InPte(e, i, j), f);
    hide Tables, IsList, Names, PageOk;
  }

  lemma PageOf(managed: set<nat>, k: Frames, held: set<nat>, f: nat)
    requires Ok(managed, k, held, {}) && UserPage(managed, k, f)
    ensures f < |k.ref| && f < |k.link| && k.link[f] == -1
  {
    hide Tables, IsList, Refers, Count, Listed;
    assert PageOk(k, held, {}, f);
  }

  // ---------------------------------------------------------------------------------------------
  // page_alloc.

  /** Taking a page from the list changes no address space, and makes no user page anything else. */
  lemma PoppedSpaces(managed: set<nat>, k: Frames, held: set<nat>, pin: set<nat>, f: nat, k': Frames)
    requires Ok(managed, k, held, pin) && Popped(k, f, k')
    ensures Ok(managed, k', held + {f}, pin) && SameSpaces(k, k') && SameTables(k, k')
    ensures f in managed && f !in held && f < |k'.mem| && Blank(k'.mem[f]) && |k'.mem[f]| == NPTENTRIES
    ensures UserPage(managed, k', f) && forall w {:trigger Refers(k', w, f)} :: !Refers(k', w, f)
    ensures KeptUsers(managed, k, k') && !UserPage(managed, k, f)
  {
    PoppedOk(managed, k, held, pin, f, k');
    PoppedRefs(managed, k, held, pin, f, k');
    PoppedList(k, f, k');
    assert |k.mem[f]| == NPTENTRIES;
    hide Ok, Tables, IsList, Names, Listed, Pde, Pte;
    forall g: nat | UserPage(managed, k, g) ensures UserPage(managed, k', g) && Content(k', g) == Content(k, g) {
      assert g != f && !Listed(k', g);
      forall w | Refers(k', w, g) ensures w.InPte? {
        assert Refers(k, w, g);
      }
    }
  }

  // ---------------------------------------------------------------------------------------------
  // pgdir_walk.

  /** pgdir_walk adds page `t` as the table of directory index `i`. */
  ghost predicate TableAdded(k: Frames, d: nat, i: nat, t: nat, k': Frames) {
    && d < |k.mem| && i < |k.mem[d]| && t < |k.ref|
    && k' == k.(ref := k.ref[t := k.ref[t] + 1], mem := SetEntry(k.mem, d, i, Present(t, {P, U, W})))
  }

  /** The new table is invisible: no address space changes. */
  lemma TableAddedSpaces(managed: set<nat>, k: Frames, held: set<nat>, e: nat, i: nat, d: nat, t: nat, k': Frames)
    requires Ok(managed, k, held, {}) && t in held && t < |k.mem| && Blank(k.mem[t]) && Directory(k, e) == d && i < NPDENTRIES
    requires TableAt(k, e, i).Absent? && TableAdded(k, d, i, t, k')
    requires forall w {:trigger Refers(k, w, t)} :: !Refers(k, w, t)
    ensures Tables(k'.envs, k'.mem, managed) && SameSpaces(k, k') && Gains(k, k', InPde(e, i), t)
    ensures OneTable(k, k', e, i, Present(t, {P, U, W}))
  {
    forall w ensures !Names(k.envs, k.mem, w, t) {
      assert !Refers(k, w, t);
    }
    assert |k.mem[t]| == NPTENTRIES;
    hide Tables, IsList, Names, Pde, Pte, DirOf;
    NewTable(k.envs, k.mem, managed, e, i, d, t, {P, U, W});
  }

  lemma TableAddedOk(managed: set<nat>, k: Frames, held: set<nat>, e: nat, i: nat, d: nat, t: nat, k': Frames)
    requires Ok(managed, k, held, {}) && t in held && t < |k.mem| && Blank(k.mem[t]) && Directory(k, e) == d && i < NPDENTRIES
    requires TableAt(k, e, i).Absent? && TableAdded(k, d, i, t, k')
    requires forall w {:trigger Refers(k, w, t)} :: !Refers(k, w, t)
    ensures Ok(managed, k', held - {t}, {})
    ensures forall g: nat {:trigger UserPage(managed, k', g)} {:trigger Content(k', g)} ::
      UserPage(managed, k, g) && g != t ==> UserPage(managed, k', g) && Content(k', g) == Content(k, g)
  {
    TableAddedSpaces(managed, k, held, e, i, d, t, k');
    assert Refers(k, InEnv(e), d);
    hide Tables, IsList, Refers, Pde, Pte, DirOf, Listed, SameSpaces;
    assert PageOk(k, held, {}, t);
    IncrefOk(managed, k, held, t, InPde(e, i), k');
    forall g: nat | UserPage(managed, k, g) && g != t ensures UserPage(managed, k', g) && Content(k', g) == Content(k, g) {
      ListedSame(k, k', g);
      assert g != d;
      forall w | Refers(k', w, g) ensures w.InPte? {
        assert Refers(k, w, g);
      }
    }
  }

  // ---------------------------------------------------------------------------------------------
  // page_remove.

  /** page_remove drops the entry `j` of table `t`, which maps page `f`. */
  ghost predicate EntryDropped(k: Frames, t: nat, j: nat, f: nat, k': Frames) {
    && t < |k.mem| && j < |k.mem[t]| && Decref(k, f, k')
    && k'.envs == k.envs && k'.mem == SetEntry(k.mem, t, j, Absent)
  }

  lemma EntryDroppedSpaces(managed: set<nat>, k: Frames, e: nat, i: nat, j: nat, t: nat, f: nat, k': Frames)
    requires Tables(k.envs, k.mem, managed) && TableAt(k, e, i).Present? && TableAt(k, e, i).frame == t && j < NPTENTRIES
    requires Refers(k, InPte(e, i, j), f) && EntryDropped(k, t, j, f, k')
    ensures Tables(k'.envs, k'.mem, managed) && OneChange(k, k', e, i, j, Absent) && SameTables(k, k')
    ensures Loses(k, k', InPte(e, i, j), f)
  {
    assert Names(k.envs, k.mem, InPte(e, i, j), f);
    SetPte(k.envs, k.mem, managed, e, i, j, t, Absent);
    PteNames(k.envs, k.mem, managed, e, i, j, t, Absent);
    forall w, g: nat ensures Refers(k', w, g) <==> Refers(k, w, g) && !(w == InPte(e, i, j) && g == f) {
      assert w == InPte(e, i, j) && Names(k.envs, k.mem, w, g) ==> g == f;
    }
    hide Tables, Names, Pde, Pte, DirOf;
  }

  /** page_remove deletes exactly one key of one address space and keeps the accounting. */
  lemma EntryDroppedOk(managed: set<nat>, k: Frames, held: set<nat>, pin: set<nat>, e: nat, i: nat, j: nat, t: nat, f: nat, k': Frames)
    requires Ok(managed, k, held, pin) && TableAt(k, e, i).Present? && TableAt(k, e, i).frame == t && j < NPTENTRIES
    requires Refers(k, InPte(e, i, j), f) && EntryDropped(k, t, j, f, k')
    ensures Ok(managed, k', held, pin) && OneChange(k, k', e, i, j, Absent) && SameTables(k, k') && KeptPlain(k, k')
    ensures forall g: nat {:trigger UserPage(managed, k', g)} :: UserPage(managed, k, g) && g in pin ==> UserPage(managed, k', g)
  {
    EntryDroppedSpaces(managed, k, e, i, j, t, f, k');
    assert Refers(k, InPde(e, i), t);
    WriteKeeps(k, k', InPde(e, i), t);
    hide Tables, IsList, Refers, Pde, Pte, DirOf, Listed, OneChange, SameTables, Decref;
    DecrefOk(managed, k, held, pin, f, InPte(e, i, j), k');
    forall g: nat | UserPage(managed, k, g) && g in pin ensures UserPage(managed, k', g) {
      assert PageOk(k', held, pin, g);
      forall w | Refers(k', w, g) ensures w.InPte? {
        assert Refers(k, w, g);
      }
    }
  }

  // ---------------------------------------------------------------------------------------------
  // page_insert.

  /** page_insert writes the entry `j` of table `t`. */
  ghost predicate EntryWritten(k: Frames, t: nat, j: nat, x: Entry, k': Frames) {
    && t < |k.mem| && j < |k.mem[t]| && k' == k.(mem := SetEntry(k.mem, t, j, x))
  }

  lemma EntryWrittenSpaces(managed: set<nat>, k: Frames, e: nat, i: nat, j: nat, t: nat, f: nat, perm: set<Flag>, k': Frames)
    requires Tables(k.envs, k.mem, managed) && TableAt(k, e, i).Present? && TableAt(k, e, i).frame == t && j < NPTENTRIES
    requires UserPage(managed, k, f) && Maps(k, e, i, j).Absent? && EntryWritten(k, t, j, Present(f, perm), k')
    ensures Tables(k'.envs, k'.mem, managed) && OneChange(k, k', e, i, j, Present(f, perm)) && SameTables(k, k')
    ensures Gains(k, k', InPte(e, i, j), f)
  {
    forall w ensures Names(k.envs, k.mem, w, f) ==> w.InPte? {
      assert Refers(k, w, f) ==> w.InPte?;
    }
    SetPte(k.envs, k.mem, managed, e, i, j, t, Present(f, perm));
    PteNames(k.envs, k.mem, managed, e, i, j, t, Present(f, perm));
    forall g: nat ensures !Names(k.envs, k.mem, InPte(e, i, j), g) {
    }
    forall w, g: nat ensures Refers(k', w, g) <==> Refers(k, w, g) || (w == InPte(e, i, j) && g == f) {
    }
    hide Tables, Names, Pde, Pte, DirOf;
  }

  lemma EntryWrittenOk(managed: set<nat>, k: Frames, held: set<nat>, e: nat, i: nat, j: nat, t: nat, f: nat, perm: set<Flag>, k': Frames)
    requires Ok(managed, k, held, {f}) && TableAt(k, e, i).Present? && TableAt(k, e, i).frame == t && j < NPTENTRIES
    requires UserPage(managed, k, f) && Maps(k, e, i, j).Absent? && EntryWritten(k, t, j, Present(f, perm), k')
    ensures Ok(managed, k', held, {}) && OneChange(k, k', e, i, j, Present(f, perm)) && SameTables(k, k') && KeptPlain(k, k')
  {
    EntryWrittenSpaces(managed, k, e, i, j, t, f, perm, k');
    assert Refers(k, InPde(e, i), t);
    WriteKeeps(k, k', InPde(e, i), t);
    hide Tables, IsList, Refers, Pde, Pte, DirOf, Listed, OneChange, SameTables;
    UnpinOk(managed, k, held, f, InPte(e, i, j), k');
  }

  /** page_insert adds permissions to the directory entry, which no address space shows. */
  lemma PermAddedOk(managed: set<nat>, k: Frames, held: set<nat>, e: nat, i: nat, d: nat, perm: set<Flag>, k': Frames)
    requires Ok(managed, k, held, {}) && Directory(k, e) == d && i < NPDENTRIES && TableAt(k, e, i).Present?
    requires EntryWritten(k, d, i, Present(TableAt(k, e, i).frame, perm), k') && TableAt(k, e, i).perm <= perm
    ensures Ok(managed, k', held, {}) && SameSpaces(k, k') && KeptPlain(k, k')
    ensures OneTable(k, k', e, i, Present(TableAt(k, e, i).frame, perm))
  {
    PdePerm(k.envs, k.mem, managed, e, i, d, perm);
    forall w, g: nat ensures Refers(k', w, g) <==> Refers(k, w, g) {
    }
    assert Refers(k, InEnv(e), d);
    WriteKeeps(k, k', InEnv(e), d);
    hide Tables, IsList, Names, Pde, Pte, DirOf;
    SameOk(managed, k, held, {}, k');
  }

  /** A page whose count is one ahead keeps everything else. */
  lemma PinnedOk(managed: set<nat>, k: Frames, held: set<nat>, f: nat, k': Frames)
    requires Ok(managed, k, held, {}) && UserPage(managed, k, f)
    requires f < |k.ref| && k' == k.(ref := k.ref[f := k.ref[f] + 1])
    ensures Ok(managed, k', held - {f}, {f}) && UserPage(managed, k', f) && SameSpaces(k, k') && SameTables(k, k') && KeptPlain(k, k')
  {
    PinOk(managed, k, held, f, k');
    ListedSame(k, k', f);
    hide Ok, Listed;
    forall w, g: nat ensures Refers(k', w, g) <==> Refers(k, w, g) {
    }
    forall g: nat | Plain(k, g) ensures Plain(k', g) {
      forall w | Refers(k', w, g) ensures w.InPte? {
        assert Refers(k, w, g);
      }
    }
  }

  /** Whatever page_insert does on the way, one entry has changed at the end. */
  lemma InsertChange(k0: Frames, k1: Frames, k2: Frames, k3: Frames, k4: Frames, e: nat, i: nat, j: nat, x: Entry)
    requires SameSpaces(k0, k1) && (SameSpaces(k1, k2) || OneChange(k1, k2, e, i, j, Absent))
    requires OneChange(k2, k3, e, i, j, x) && SameSpaces(k3, k4)
    ensures OneChange(k0, k4, e, i, j, x)
  {
    hide Maps;
    forall e2: nat, i2: nat, j2: nat
      ensures Maps(k4, e2, i2, j2) == if e2 == e && i2 == i && j2 == j then x else Maps(k0, e2, i2, j2)
    {
      assert Maps(k4, e2, i2, j2) == Maps(k3, e2, i2, j2);
      assert Maps(k2, e2, i2, j2) == Maps(k1, e2, i2, j2) || (e2 == e && i2 == i && j2 == j);
      assert Maps(k1, e2, i2, j2) == Maps(k0, e2, i2, j2);
    }
  }

  // ---------------------------------------------------------------------------------------------
  // Environments.

  /** env_setup_vm makes page `d`, whose user half is empty, the directory of environment `e`. */
  ghost predicate DirectoryAdded(k: Frames, e: nat, d: nat, page: seq<Entry>, k': Frames) {
    && e < |k.envs| && d < |k.mem| && d < |k.ref|
    && k' == k.(ref := k.ref[d := k.ref[d] + 1], mem := k.mem[d := page], envs := k.envs[e := d])
  }

  lemma DirectoryAddedOk(managed: set<nat>, k: Frames, held: set<nat>, e: nat, d: nat, page: seq<Entry>, k': Frames)
    requires Ok(managed, k, held, {}) && d in held && DirectoryAdded(k, e, d, page, k') && k.envs[e] == -1
    requires forall w {:trigger Refers(k, w, d)} :: !Refers(k, w, d)
    requires |page| == NPTENTRIES && forall i: nat :: i < NPDENTRIES ==> page[i].Absent?
    ensures Ok(managed, k', held - {d}, {}) && SameSpaces(k, k') && Directory(k', e) == d
    ensures forall g: nat {:trigger Content(k', g)} :: g != d ==> Content(k', g) == Content(k, g)
  {
    var k1 := k.(mem := k.mem[d := page]);
    forall w ensures !Names(k.envs, k.mem, w, d) {
      assert !Refers(k, w, d);
    }
    WritePage(k.envs, k.mem, managed, d, page);
    forall w ensures !Names(k1.envs, k1.mem, w, d) {
      assert Names(k1.envs, k1.mem, w, d) <==> Names(k.envs, k.mem, w, d);
    }
    assert PageOk(k, held, {}, d);
    assert DirOf(k'.envs, k'.mem, e) == d;
    hide Tables, IsList, Names, Pde, Pte, DirOf, Listed;
    NewDir(k1.envs, k1.mem, managed, e, d);
    forall w, g: nat ensures Refers(k', w, g) <==> Refers(k, w, g) || (w == InEnv(e) && g == d) {
      assert Names(k'.envs, k'.mem, w, g) <==> Names(k1.envs, k1.mem, w, g) || (w == InEnv(e) && g == d);
    }
    hide Refers;
    IncrefOk(managed, k, held, d, InEnv(e), k');
  }

  /** env_free takes away table `t`, which maps nothing any more. */
  ghost predicate TableDropped(k: Frames, d: nat, i: nat, t: nat, k': Frames) {
    && d < |k.mem| && i < |k.mem[d]| && Decref(k, t, k')
    && k'.envs == k.envs && k'.mem == SetEntry(k.mem, d, i, Absent)
  }

  lemma TableDroppedOk(managed: set<nat>, k: Frames, e: nat, i: nat, d: nat, t: nat, k': Frames)
    requires Ok(managed, k, {}, {}) && Directory(k, e) == d && i < NPDENTRIES && TableAt(k, e, i).Present? && TableAt(k, e, i).frame == t
    requires TableDropped(k, d, i, t, k') && forall j: nat {:trigger Maps(k, e, i, j)} :: Maps(k, e, i, j).Absent?
    ensures Ok(managed, k', {}, {}) && SameSpaces(k, k') && KeptPlain(k, k')
    ensures forall e2: nat, i2: nat {:trigger TableAt(k', e2, i2)} :: TableAt(k', e2, i2) == if e2 == e && i2 == i then Absent else TableAt(k, e2, i2)
    ensures forall e2: nat {:trigger Directory(k', e2)} :: Directory(k', e2) == Directory(k, e2)
  {
    forall j: nat ensures Pte(k.envs, k.mem, e, i, j).Absent? {
      assert Maps(k, e, i, j).Absent?;
    }
    DropTable(k.envs, k.mem, managed, e, i, d);
    assert Names(k.envs, k.mem, InPde(e, i), t);
    forall g: nat | Names(k.envs, k.mem, InPde(e, i), g) ensures g == t {
    }
    assert Names(k.envs, k.mem, InEnv(e), d);
    hide Tables, IsList, Names, Pde, Pte, DirOf, Listed, Decref;
    forall w, g: nat ensures Refers(k', w, g) <==> Refers(k, w, g) && !(w == InPde(e, i) && g == t) {
      assert Names(k'.envs, k'.mem, w, g) <==> Names(k.envs, k.mem, w, g) && w != InPde(e, i);
    }
    WriteKeeps(k, k', InEnv(e), d);
    DecrefOk(managed, k, {}, {}, t, InPde(e, i), k');
  }

  ghost predicate DirectoryDropped(k: Frames, e: nat, d: nat, k': Frames) {
    e < |k.envs| && Decref(k, d, k') && k'.envs == k.envs[e := -1] && k'.mem == k.mem
  }

  lemma DirectoryDroppedOk(managed: set<nat>, k: Frames, e: nat, d: nat, k': Frames)
    requires Ok(managed, k, {}, {}) && Directory(k, e) == d && DirectoryDropped(k, e, d, k')
    requires forall i: nat {:trigger TableAt(k, e, i)} :: TableAt(k, e, i).Absent?
    ensures Ok(managed, k', {}, {}) && SameSpaces(k, k') && KeptPlain(k, k')
    ensures forall e2: nat {:trigger Directory(k', e2)} :: Directory(k', e2) == if e2 == e then -1 else Directory(k, e2)
  {
    forall i: nat ensures Pde(k.envs, k.mem, e, i).Absent? {
      assert TableAt(k, e, i).Absent?;
    }
    DropDir(k.envs, k.mem, managed, e);
    assert Names(k.envs, k.mem, InEnv(e), d);
    forall g: nat | Names(k.envs, k.mem, InEnv(e), g) ensures g == d {
    }
    forall e2: nat ensures Directory(k', e2) == if e2 == e then -1 else Directory(k, e2) {
    }
    hide Tables, IsList, Names, Pde, Pte, DirOf, Listed, Decref;
    forall w, g: nat ensures Refers(k', w, g) <==> Refers(k, w, g) && !(w == InEnv(e) && g == d) {
      assert Names(k'.envs, k'.mem, w, g) <==> Names(k.envs, k.mem, w, g) && w != InEnv(e);
    }
    WriteKeeps(k, k', InEnv(e), d);
    DecrefOk(managed, k, {}, {}, d, InEnv(e), k');
  }

  /** A user's writes to a page it has mapped reach no directory and no table. */
  lemma UserWrite(managed: set<nat>, k: Frames, e: nat, i: nat, j: nat, page: seq<Entry>)
    requires Ok(managed, k, {}, {}) && Maps(k, e, i, j).Present? && |page| == NPTENTRIES
    ensures Maps(k, e, i, j).frame < |k.mem|
    ensures var k' := k.(mem := k.mem[Maps(k, e, i, j).frame := page]); Ok(managed, k', {}, {}) && SameSpaces(k, k') && SameTables(k, k')
  {
    var f := Maps(k, e, i, j).frame;
    Mapped(managed, k, e, i, j);
    assert Names(k.envs, k.mem, InPte(e, i, j), f);
    forall w ensures Names(k.envs, k.mem, w, f) ==> w.InPte? {
      assert Refers(k, w, f) ==> w.InPte?;
    }
    WritePage(k.envs, k.mem, managed, f, page);
    var k' := k.(mem := k.mem[f := page]);
    forall w, g: nat ensures Refers(k', w, g) <==> Refers(k, w, g) {
    }
    hide Tables, IsList, Names, Pde, Pte, Listed;
    SameOk(managed, k, {}, {}, k');
  }
}
