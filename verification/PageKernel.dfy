/**
  The memory side of the JOS kernel (kern/pmap.c, kern/env.c, kern/syscall.c): page allocation, page
  tables, environments, and the system calls that map pages.
 */
module PageKernel {
  import opened PageTables
  import opened FrameAccounting
  import opened AddressSpaces
  import opened EnvIds
  import opened Division

  const PDX_UVPT: nat := 957          // PDX(UVPT)

  const E_BAD_ENV: int := -2
  const E_INVAL: int := -3
  const E_NO_MEM: int := -4
  const E_NO_FREE_ENV: int := -5
  const E_IPC_NOT_RECV: int := -8

  /** invalid_sys_page_va */
  predicate InvalidVa(va: nat) {
    va >= UTOP || va % PGSIZE != 0
  }

  /** invalid_sys_page_perm */
  predicate InvalidPerm(perm: set<Flag>) {
    !(P in perm && U in perm && forall x :: x in perm ==> !x.Other?)
  }

  function Pdx(va: nat): nat {
    va / (NPTENTRIES * PGSIZE)
  }

  function Ptx(va: nat): nat {
    va / PGSIZE % NPTENTRIES
  }

  lemma UserVa(va: nat)
    requires !InvalidVa(va)
    ensures Pdx(va) < NPDENTRIES && Ptx(va) < NPTENTRIES && va == (Pdx(va) * NPTENTRIES + Ptx(va)) * PGSIZE
  {
    var q := va / PGSIZE;
    assert va == q * PGSIZE;
    assert q == q / NPTENTRIES * NPTENTRIES + q % NPTENTRIES;
    assert va / (NPTENTRIES * PGSIZE) == q / NPTENTRIES;
  }

  /** The addresses that system calls accept are the starts of the user pages, each with its two indices. */
  lemma VaIff(va: nat, i: nat, j: nat)
    requires i < NPDENTRIES && j < NPTENTRIES
    ensures !InvalidVa(va) && Pdx(va) == i && Ptx(va) == j <==> va == (i * NPTENTRIES + j) * PGSIZE
  {
    if va == (i * NPTENTRIES + j) * PGSIZE {
      assert va / PGSIZE == i * NPTENTRIES + j;
      QuotientIs(NPTENTRIES, i, j);
      QuotientIs(NPTENTRIES * PGSIZE, i, j * PGSIZE);
      assert va == NPTENTRIES * PGSIZE * i + j * PGSIZE;
    } else if !InvalidVa(va) {
      UserVa(va);
    }
  }

  /** The permissions that they accept have P and U, and nothing but W and the available bits besides. */
  lemma PermIff(perm: set<Flag>)
    ensures !InvalidPerm(perm) <==> {P, U} <= perm && forall x :: x in perm ==> x in {P, U, W} || x.Avail?
  {
  }

  const MPENTRY: nat := 0x7           // PGNUM(MPENTRY_PADDR)
  const IOPHYSMEM: nat := 0xA0        // PGNUM(IOPHYSMEM)
  const EXTPHYSMEM: nat := 0x100      // PGNUM(EXTPHYSMEM)

  /** The pages that page_init leaves free: base memory but for page 0 and the boot code of other processors, and what is behind the kernel. */
  predicate Usable(basemem: nat, kernEnd: nat, f: nat) {
    (1 <= f < basemem && f != MPENTRY) || kernEnd <= f
  }

  /** The list of the usable pages below `n`. */
  ghost predicate Initial(ref: seq<int>, link: seq<int>, freeList: int, free: seq<nat>, npages: nat, basemem: nat, kernEnd: nat, n: nat) {
    && |ref| == npages && |link| == npages && IsList(freeList, link, free)
    && (forall f: nat :: f in free <==> f < n && Usable(basemem, kernEnd, f))
    && forall f: nat :: f < n && Usable(basemem, kernEnd, f) ==> f < npages && ref[f] == 0
  }

  lemma InitialPush(ref: seq<int>, link: seq<int>, freeList: int, free: seq<nat>, npages: nat, basemem: nat, kernEnd: nat, n: nat)
    requires Initial(ref, link, freeList, free, npages, basemem, kernEnd, n) && n < npages && Usable(basemem, kernEnd, n)
    ensures Initial(ref[n := 0], link[n := freeList], n, [n] + free, npages, basemem, kernEnd, n + 1)
  {
    PushList(freeList, link, free, n);
    hide IsList;
  }

  lemma InitialSkip(ref: seq<int>, link: seq<int>, freeList: int, free: seq<nat>, npages: nat, basemem: nat, kernEnd: nat, n: nat)
    requires Initial(ref, link, freeList, free, npages, basemem, kernEnd, n) && n < npages && !Usable(basemem, kernEnd, n)
    ensures Initial(ref[n := 1], link[n := -1], freeList, free, npages, basemem, kernEnd, n + 1)
  {
    var link' := link[n := -1];
    forall i: nat | i < |free| ensures LinkedAt(link', free, i) {
      assert LinkedAt(link, free, i) && free[i] in free;
    }
  }

  /** page_init */
  method PageInit(npages: nat, basemem: nat, kernEnd: nat) returns (ref: seq<int>, link: seq<int>, freeList: int, ghost free: seq<nat>)
    requires 1 <= basemem <= IOPHYSMEM && EXTPHYSMEM <= kernEnd <= npages
    ensures Initial(ref, link, freeList, free, npages, basemem, kernEnd, npages)
  {
    ref, link, freeList, free := seq(npages, _ => 0), seq(npages, _ => -1), -1, [];
    NothingListed(ref, link, npages, basemem, kernEnd);
    hide Initial, Usable;
    UsableIff(basemem, kernEnd);
    InitialSkip(ref, link, freeList, free, npages, basemem, kernEnd, 0);
    ref, link := ref[0 := 1], link[0 := -1];
    var i := 1;
    while i < basemem
      invariant 1 <= i <= basemem && |ref| == npages && |link| == npages
      invariant Initial(ref, link, freeList, free, npages, basemem, kernEnd, i)
    {
      if i == MPENTRY {
        InitialSkip(ref, link, freeList, free, npages, basemem, kernEnd, i);
        ref, link := ref[i := 1], link[i := -1];
      } else {
        InitialPush(ref, link, freeList, free, npages, basemem, kernEnd, i);
        ref, link, freeList, free := ref[i := 0], link[i := freeList], i, [i] + free;
      }
      i := i + 1;
    }
    InitialGap(ref, link, freeList, free, npages, basemem, kernEnd, i, IOPHYSMEM);
    i := IOPHYSMEM;
    while i < EXTPHYSMEM
      invariant IOPHYSMEM <= i <= EXTPHYSMEM && |ref| == npages && |link| == npages
      invariant Initial(ref, link, freeList, free, npages, basemem, kernEnd, i)
    {
      InitialSkip(ref, link, freeList, free, npages, basemem, kernEnd, i);
      ref, link := ref[i := 1], link[i := -1];
      i := i + 1;
    }
    while i < kernEnd
      invariant EXTPHYSMEM <= i <= kernEnd && |ref| == npages && |link| == npages
      invariant Initial(ref, link, freeList, free, npages, basemem, kernEnd, i)
    {
      InitialSkip(ref, link, freeList, free, npages, basemem, kernEnd, i);
      ref, link := ref[i := 1], link[i := -1];
      i := i + 1;
    }
    while i < npages
      invariant kernEnd <= i <= npages && |ref| == npages && |link| == npages
      invariant Initial(ref, link, freeList, free, npages, basemem, kernEnd, i)
    {
      InitialPush(ref, link, freeList, free, npages, basemem, kernEnd, i);
      ref, link, freeList, free := ref[i := 0], link[i := freeList], i, [i] + free;
      i := i + 1;
    }
  }

  lemma UsableIff(basemem: nat, kernEnd: nat)
    ensures forall f: nat {:trigger Usable(basemem, kernEnd, f)} :: Usable(basemem, kernEnd, f) <==> (1 <= f < basemem && f != MPENTRY) || kernEnd <= f
  {
  }

  lemma NothingListed(ref: seq<int>, link: seq<int>, npages: nat, basemem: nat, kernEnd: nat)
    requires |ref| == npages && |link| == npages
    ensures Initial(ref, link, -1, [], npages, basemem, kernEnd, 0)
  {
  }

  lemma InitialGap(ref: seq<int>, link: seq<int>, freeList: int, free: seq<nat>, npages: nat, basemem: nat, kernEnd: nat, n: nat, m: nat)
    requires Initial(ref, link, freeList, free, npages, basemem, kernEnd, n) && n <= m
    requires forall f: nat {:trigger Usable(basemem, kernEnd, f)} :: n <= f < m ==> !Usable(basemem, kernEnd, f)
    ensures Initial(ref, link, freeList, free, npages, basemem, kernEnd, m)
  {
    hide IsList;
  }

  /** env_init: all slots, in the order of the array. */
  method AllSlots() returns (slots: seq<nat>)
    ensures |slots| == NENV && forall i: nat :: i < NENV ==> slots[i] == i
    ensures forall e: nat :: e in slots <==> e < NENV
  {
    slots := [];
    var iter := NENV;
    while iter > 0
      invariant 0 <= iter <= NENV && |slots| == NENV - iter
      invariant forall i: nat :: i < |slots| ==> slots[i] == iter + i
    {
      iter := iter - 1;
      slots := [iter] + slots;
    }
    forall e: nat | e < NENV ensures e in slots {
      assert slots[e] == e;
    }
  }

  ghost function UsablePages(npages: nat, basemem: nat, kernEnd: nat): set<nat> {
    set f: nat | f < npages && Usable(basemem, kernEnd, f)
  }

  /** The free list after mem_init has taken some of the usable pages for the page tables of the kernel. */
  ghost predicate Booted(ref: seq<int>, link: seq<int>, freeList: int, free: seq<nat>, npages: nat, usable: set<nat>, taken: set<nat>) {
    && |ref| == npages && |link| == npages && IsList(freeList, link, free) && taken <= usable
    && (forall f: nat {:trigger f in free} {:trigger f in usable} :: f in free <==> f in usable && f !in taken)
    && (forall f: nat :: f in usable ==> f < npages && ref[f] == if f in taken then 1 else 0)
  }

  lemma BootedInit(ref: seq<int>, link: seq<int>, freeList: int, free: seq<nat>, npages: nat, basemem: nat, kernEnd: nat)
    requires Initial(ref, link, freeList, free, npages, basemem, kernEnd, npages)
    ensures Booted(ref, link, freeList, free, npages, UsablePages(npages, basemem, kernEnd), {})
  {
    hide IsList, Usable;
  }

  /** One more table of the kernel. */
  lemma BootedTake(ref: seq<int>, link: seq<int>, freeList: int, free: seq<nat>, npages: nat, usable: set<nat>, taken: set<nat>)
    requires Booted(ref, link, freeList, free, npages, usable, taken) && free != []
    ensures free[0] < npages && freeList == free[0] && free[0] !in taken
    ensures Booted(ref[free[0] := 1], link[free[0] := -1], link[free[0]], free[1..], npages, usable, taken + {free[0]})
  {
    PopList(freeList, link, free);
    assert free[0] in free;
    ListHead(freeList, link, free);
    hide IsList;
  }

  lemma ListHead(freeList: int, link: seq<int>, free: seq<nat>)
    requires IsList(freeList, link, free)
    ensures freeList == -1 <==> free == []
    ensures free != [] ==> freeList == free[0]
  {
  }

  /** boot_map_region, as far as it takes pages: `n` page tables for the kernel's half of the address space. */
  method KernelTables(n: nat, ref0: seq<int>, link0: seq<int>, first: int, ghost list: seq<nat>, ghost npages: nat, ghost usable: set<nat>)
    returns (ref: seq<int>, link: seq<int>, freeList: int, ghost free: seq<nat>, ghost taken: set<nat>)
    requires Booted(ref0, link0, first, list, npages, usable, {}) && n <= |usable|
    ensures Booted(ref, link, freeList, free, npages, usable, taken) && |taken| == n
  {
    hide Booted;
    ref, link, freeList, free, taken := ref0, link0, first, list, {};
    var i := 0;
    while i < n
      invariant i <= n && Booted(ref, link, freeList, free, npages, usable, taken) && |taken| == i
    {
      StillFree(ref, link, freeList, free, npages, usable, taken);
      BootedTake(ref, link, freeList, free, npages, usable, taken);
      BootedSizes(ref, link, freeList, free, npages, usable, taken);
      ref, link, freeList, free, taken := ref[freeList := 1], link[freeList := -1], link[freeList], free[1..], taken + {free[0]};
      i := i + 1;
    }
  }

  lemma BootedSizes(ref: seq<int>, link: seq<int>, freeList: int, free: seq<nat>, npages: nat, usable: set<nat>, taken: set<nat>)
    requires Booted(ref, link, freeList, free, npages, usable, taken)
    ensures |ref| == npages && |link| == npages
  {
  }

  lemma StillFree(ref: seq<int>, link: seq<int>, freeList: int, free: seq<nat>, npages: nat, usable: set<nat>, taken: set<nat>)
    requires Booted(ref, link, freeList, free, npages, usable, taken) && |taken| < |usable|
    ensures free != []
  {
    assert free == [] ==> forall f: nat :: f in usable ==> f !in free;
    assert free == [] ==> usable == taken;
  }

  lemma BootedOk(managed: set<nat>, k: Frames, npages: nat, usable: set<nat>, taken: set<nat>)
    requires Booted(k.ref, k.link, k.freeList, k.free, npages, usable, taken) && managed == usable - taken
    requires |k.mem| == npages && (forall f: nat :: f < npages ==> |k.mem[f]| == NPTENTRIES) && forall e: nat :: e < |k.envs| ==> k.envs[e] == -1
    ensures Ok(managed, k, {}, {})
  {
    forall e: nat ensures DirOf(k.envs, k.mem, e) == -1 {
    }
    forall w, f: nat ensures !Names(k.envs, k.mem, w, f) {
    }
    forall f: nat | f in managed ensures PageOk(k, {}, {}, f) {
      NoCount(k, f);
      assert f in k.free;
    }
    hide Names, RefsTo, IsList, PageOk, Count;
    forall f: nat | Listed(k, f) ensures f in managed {
      assert f in k.free;
    }
  }

  lemma NoCount(k: Frames, f: nat)
    requires forall w :: !Names(k.envs, k.mem, w, f)
    ensures Count(k, f) == 0
  {
    hide Names;
    forall w ensures w !in RefsTo(k.envs, k.mem, f) {
      RefsIff(k.envs, k.mem, f, w);
    }
    assert RefsTo(k.envs, k.mem, f) == {};
  }

  /** The pages that mapping one page at directory index `i` takes from the free list besides it. */
  ghost function TablesNeeded(k: Frames, e: nat, i: nat): nat {
    if TableAt(k, e, i).Present? then 0 else 1
  }

  lemma FirstPage(managed: set<nat>, k: Frames, held: set<nat>, pin: set<nat>)
    requires Ok(managed, k, held, pin)
    ensures k.freeList == -1 <==> k.free == []
    ensures k.free != [] ==> k.freeList == k.free[0] < |k.link| && k.freeList < |k.mem| && |k.mem[k.freeList]| == NPTENTRIES
  {
    if k.free != [] {
      assert Listed(k, k.free[0]);
      assert PageOk(k, held, pin, k.free[0]);
    }
  }

  /** env_status */
  datatype Status = Free | Dying | Runnable | Running | NotRunnable

  /** The env_ipc_ fields of an environment. */
  datatype Ipc = Ipc(recving: bool, dstva: nat, from: int, value: int, perm: set<Flag>)

  /** A slot is free when it has no address space, and a receiver asks for a page at a page boundary or for none. */
  ghost predicate SlotOk(envs: seq<int>, status: seq<Status>, ipc: seq<Ipc>, e: nat)
    requires |envs| == |status| == |ipc| == NENV && e < NENV
  {
    && (status[e].Free? <==> envs[e] == -1)
    && (ipc[e].recving && ipc[e].dstva < UTOP ==> ipc[e].dstva % PGSIZE == 0)
  }

  ghost predicate SlotsOk(envs: seq<int>, status: seq<Status>, ipc: seq<Ipc>) {
    && |envs| == |status| == |ipc| == NENV
    && forall e: nat {:trigger SlotOk(envs, status, ipc, e)} :: e < NENV ==> SlotOk(envs, status, ipc, e)
  }

  /** One slot has changed. */
  lemma SlotSet(envs: seq<int>, status: seq<Status>, ipc: seq<Ipc>, e: nat, envs': seq<int>, status': seq<Status>, ipc': seq<Ipc>)
    requires SlotsOk(envs, status, ipc) && e < NENV && |envs'| == |status'| == |ipc'| == NENV && SlotOk(envs', status', ipc', e)
    requires forall j :: 0 <= j < NENV && j != e ==> envs'[j] == envs[j] && status'[j] == status[j] && ipc'[j] == ipc[j]
    ensures SlotsOk(envs', status', ipc')
  {
    forall j: nat | j < NENV ensures SlotOk(envs', status', ipc', j) {
      assert SlotOk(envs, status, ipc, j);
    }
  }

  class Kernel {
    ghost const managed: set<nat>   // the pages that page_init put on the free list and mem_init did not take
    const kernPgdir: seq<Entry>     // kern_pgdir
    var ref: seq<int>               // pp_ref of each page
    var link: seq<int>              // pp_link of each page; -1 is NULL
    var freeList: int               // page_free_list
    var mem: Memory                 // the pages, read as table entries
    var envs: seq<int>              // env_pgdir of each slot; -1 when env_status is ENV_FREE
    var ids: Ids                    // env_id, env_parent_id and env_free_list
    var curenv: int                 // the slot of curenv; -1 is NULL
    var status: seq<Status>         // env_status
    var ipc: seq<Ipc>
    ghost var free: seq<nat>        // the pages on the free list

    ghost function State(): Frames
      reads this
    {
      Frames(ref, link, freeList, mem, envs, free)
    }

    /** Between system calls: no page is held and no count is ahead. */
    ghost predicate Valid()
      reads this
    {
      && Ok(managed, State(), {}, {})
      && IdsOk(ids, envs)
      && SlotsOk(envs, status, ipc)
      && |kernPgdir| == NPTENTRIES
      && (curenv == -1 || (0 <= curenv < NENV && envs[curenv] != -1))
    }

    /**
      mem_init and env_init: of the usable pages the kernel takes `kernTables` for page tables of its own half, with
      one reference each; all others are free, and so is every environment slot.
     */
    constructor (npages: nat, basemem: nat, kernEnd: nat, kernTables: nat, kernPgdir: seq<Entry>, mem: Memory)
      requires 1 <= basemem <= IOPHYSMEM && EXTPHYSMEM <= kernEnd <= npages && kernTables <= |UsablePages(npages, basemem, kernEnd)|
      requires |kernPgdir| == NPTENTRIES && |mem| == npages && forall f: nat :: f < npages ==> |mem[f]| == NPTENTRIES
      ensures Valid() && curenv == -1 && (forall e: nat :: e < NENV ==> envs[e] == -1)
      ensures managed <= UsablePages(npages, basemem, kernEnd) && |UsablePages(npages, basemem, kernEnd) - managed| == kernTables
      ensures |ref| == npages && forall f: nat :: f in UsablePages(npages, basemem, kernEnd) ==>
        f < npages && (f in free <==> f in managed) && ref[f] == if f in managed then 0 else 1
      ensures this.mem == mem && this.kernPgdir == kernPgdir
    {
      hide Ok, Initial, Usable, Booted, UsablePages, SlotsOk;
      var r, l, first, list := PageInit(npages, basemem, kernEnd);
      ghost var usable := UsablePages(npages, basemem, kernEnd);
      BootedInit(r, l, first, list, npages, basemem, kernEnd);
      ghost var taken;
      r, l, first, list, taken := KernelTables(kernTables, r, l, first, list, npages, usable);
      var slots := AllSlots();
      this.managed := usable - taken;
      this.kernPgdir, this.mem, this.ref, this.link, this.freeList, this.free := kernPgdir, mem, r, l, first, list;
      this.envs := seq(NENV, _ => -1);
      this.ids := Ids(seq(NENV, _ => 0), seq(NENV, _ => 0), slots);
      this.curenv := -1;
      this.status, this.ipc := seq(NENV, _ => Free), seq(NENV, _ => Ipc(false, 0, 0, 0, {}));
      new;
      BootedPages(ref, link, freeList, free, npages, usable, taken);
      SlotsInitial(envs, status, ipc);
      BootedOk(managed, State(), npages, usable, taken);
    }

    /** page_alloc(ALLOC_ZERO) */
    method PageAlloc(ghost held: set<nat>, ghost pin: set<nat>) returns (f: int)
      requires Ok(managed, State(), held, pin)
      modifies `link, `freeList, `mem, `free
      ensures f == -1 <==> old(free) == []
      ensures f == -1 ==> State() == old(State())
      ensures f != -1 ==> 0 <= f && Popped(old(State()), f, State())
    {
      hide Ok;
      FirstPage(managed, State(), held, pin);
      if freeList == -1 {
        return -1;
      }
      f := freeList;
      freeList := link[f];
      link := link[f := -1];
      mem := mem[f := Zeroes(mem[f])];
      free := free[1..];
    }

    /** page_free, which panics on a page that is referred to or on the list */
    method PageFree(f: nat)
      requires f < |ref| && f < |link| && ref[f] == 0 && link[f] == -1
      modifies `link, `freeList, `free
      ensures Pushed(old(State()), f, State())
    {
      link := link[f := freeList];
      freeList := f;
      free := [f] + free;
    }

    /** page_decref */
    method PageDecref(f: nat)
      requires f < |ref| && f < |link| && ref[f] > 0 && link[f] == -1
      modifies `ref, `link, `freeList, `free
      ensures Decref(old(State()), f, State())
    {
      ref := ref[f := ref[f] - 1];
      if ref[f] == 0 {
        PageFree(f);
      }
    }

    /** The directory entry after pgdir_walk: the one that was there, or one for a new table with all permissions. */
    ghost function TableMade(k: Frames, e: nat, i: nat, t: nat): Entry {
      Present(t, if TableAt(k, e, i).Present? then TableAt(k, e, i).perm else {P, U, W})
    }

    /** pgdir_walk: the page table for directory index `i` of environment `e`; -1 when there is none. */
    method PgdirWalk(e: nat, i: nat, create: bool, ghost held: set<nat>, ghost pin: set<nat>) returns (t: int)
      requires Ok(managed, State(), held, pin) && Directory(State(), e) != -1 && i < NPDENTRIES && (create ==> pin == {})
      modifies `ref, `link, `freeList, `mem, `free
      ensures t == -1 <==> TableAt(old(State()), e, i).Absent? && (create ==> old(free) == [])
      ensures t == -1 || TableAt(old(State()), e, i).Present? ==> State() == old(State())
      ensures t != -1 ==> 0 <= t && OneTable(old(State()), State(), e, i, TableMade(old(State()), e, i, t))
      ensures Ok(managed, State(), held, pin) && SameSpaces(old(State()), State())
      ensures forall e2: nat {:trigger Directory(State(), e2)} :: Directory(State(), e2) == Directory(old(State()), e2)
      ensures KeptUsers(managed, old(State()), State())
    {
      hide Ok, SameTables, UserPage, Directory, TableAt, Maps, Refers, Listed, Blank, Tables, Content, Plain, OneTable, Grants;
      Bounds(managed, State(), held, pin, e);
      var d := envs[e];
      match mem[d][i]
      case Present(f, _) =>
        t := f;
        TableKept(State(), e, i);
      case Absent =>
        if !create {
          return -1;
        }
        t := PageAlloc(held, pin);
        if t == -1 {
          return;
        }
        ghost var k1 := State();
        PoppedSpaces(managed, old(State()), held, pin, t, k1);
        TablesSame(old(State()), k1, e, i);
        TablesSameDir(old(State()), k1);
        Bounds(managed, k1, held + {t}, pin, e);
        PageRef(managed, k1, held + {t}, t);
        ref := ref[t := ref[t] + 1];
        mem := mem[d := mem[d][i := Present(t, {P, U, W})]];
        TableAddedSpaces(managed, k1, held + {t}, e, i, d, t, State());
        TableAddedOk(managed, k1, held + {t}, e, i, d, t, State());
        assert held + {t} - {t} == held;
        SpacesTwice(old(State()), k1, State());
        TableAfter(old(State()), k1, State(), e, i, Present(t, {P, U, W}));
        TableSet(old(State()), State(), e, i, Present(t, {P, U, W}));
    }

    /** page_lookup: the page that is mapped at `i`, `j`; -1 when there is none. */
    method PageLookup(e: nat, i: nat, j: nat, ghost held: set<nat>, ghost pin: set<nat>) returns (f: int)
      requires Ok(managed, State(), held, pin) && Directory(State(), e) != -1 && i < NPDENTRIES && j < NPTENTRIES
      modifies `ref, `link, `freeList, `mem, `free
      ensures State() == old(State())
      ensures f == if Maps(State(), e, i, j).Present? then Maps(State(), e, i, j).frame else -1
    {
      hide Ok, Directory, TableAt, Maps, UserPage, SameSpaces, OneTable, Grants;
      var t := PgdirWalk(e, i, false, held, pin);
      if t == -1 {
        NoTable(State(), e, i);
        return -1;
      }
      TableSet(old(State()), State(), e, i, TableMade(old(State()), e, i, t));
      TableBounds(managed, State(), held, pin, e, i);
      match mem[t][j]
      case Absent => f := -1;
      case Present(g, _) => f := g;
    }

    /** page_remove: deletes one key of one address space, and frees the page when that was its last reference. */
    method PageRemove(e: nat, i: nat, j: nat, ghost held: set<nat>, ghost pin: set<nat>)
      requires Ok(managed, State(), held, pin) && Directory(State(), e) != -1 && i < NPDENTRIES && j < NPTENTRIES
      modifies `ref, `link, `freeList, `mem, `free
      ensures Ok(managed, State(), held, pin) && OneChange(old(State()), State(), e, i, j, Absent) && SameTables(old(State()), State())
      ensures KeptPlain(old(State()), State())
      ensures Maps(old(State()), e, i, j).Absent? ==> State() == old(State())
      ensures forall g: nat {:trigger UserPage(managed, State(), g)} ::
        UserPage(managed, old(State()), g) && g in pin ==> UserPage(managed, State(), g)
    {
      hide Ok, Directory, TableAt, Maps, UserPage, SameSpaces, OneChange, SameTables, Refers, KeptPlain, Content, Plain;
      var f := PageLookup(e, i, j, held, pin);
      if f == -1 {
        NoChange(State(), e, i, j);
        KeptRefl(managed, State());
        return;
      }
      EntryOf(managed, State(), held, pin, e, i, j);
      var t := mem[envs[e]][i].frame;
      PageDecref(f);
      mem := mem[t := mem[t][j := Absent]];
      EntryDroppedOk(managed, old(State()), held, pin, e, i, j, t, f, State());
    }

    /**
      page_insert: updates exactly one key of one address space, whatever was mapped there before, the
      same page included.  It fails, and then changes nothing, exactly when a page table is needed and no page is free.
     */
    method PageInsert(e: nat, f: nat, i: nat, j: nat, perm: set<Flag>, ghost held: set<nat>) returns (r: int)
      requires Ok(managed, State(), held, {}) && Directory(State(), e) != -1 && i < NPDENTRIES && j < NPTENTRIES
      requires UserPage(managed, State(), f)
      modifies `ref, `link, `freeList, `mem, `free
      ensures r == if TablesNeeded(old(State()), e, i) > |old(free)| then E_NO_MEM else 0
      ensures r != 0 ==> State() == old(State())
      ensures r == 0 ==> Ok(managed, State(), held - {f}, {}) && OneChange(old(State()), State(), e, i, j, Present(f, perm + {P}))
      ensures r == 0 ==> Grants(old(State()), State(), e, i, j, perm + {P})
      ensures r == 0 ==> exists t: nat :: OneTable(old(State()), State(), e, i, Present(t, TableMade(old(State()), e, i, t).perm + perm))
      ensures Kept(managed, old(State()), State())
    {
      hide Ok, Directory, TableAt, Maps, UserPage, SameSpaces, OneChange, SameTables, Refers, Listed, Content, Plain, Kept, KeptPlain, OneTable, Grants;
      KeptRefl(managed, State());
      PageOf(managed, State(), held, f);
      assert link[f] == -1;
      var t := PgdirWalk(e, i, true, held, {});
      if t == -1 {
        return E_NO_MEM;
      }
      ghost var k1 := State();
      TableSet(old(State()), k1, e, i, TableMade(old(State()), e, i, t));
      PageOf(managed, k1, held, f);
      ref := ref[f := ref[f] + 1];
      ghost var k2 := State();
      PinnedOk(managed, k1, held, f, k2);
      TablesSame(k1, k2, e, i);
      DirSame(k1, k2, e);
      PageRemove(e, i, j, held - {f}, {f});
      ghost var k3 := State();
      TablesSame(k2, k3, e, i);
      DirSame(k2, k3, e);
      TableBounds(managed, k3, held - {f}, {f}, e, i);
      ChangeAt(k2, k3, e, i, j, Absent);
      mem := mem[t := mem[t][j := Present(f, perm + {P})]];
      ghost var k4 := State();
      EntryWrittenOk(managed, k3, held - {f}, e, i, j, t, f, perm + {P}, k4);
      TablesSame(k3, k4, e, i);
      DirSame(k3, k4, e);
      Bounds(managed, k4, held - {f}, {}, e);
      var d := envs[e];
      mem := mem[d := mem[d][i := Present(t, mem[d][i].perm + perm)]];
      PermAddedOk(managed, k4, held - {f}, e, i, d, TableAt(k4, e, i).perm + perm, State());
      TableChain(old(State()), k1, k2, k3, k4, State(), e, i, TableMade(old(State()), e, i, t), Present(t, TableMade(old(State()), e, i, t).perm + perm));
      PinnedChange(k1, k2, k3, e, i, j);
      InsertChange(old(State()), k1, k3, k4, State(), e, i, j, Present(f, perm + {P}));
      KeptPlainTwice(k1, k2, k3);
      KeptPlainTwice(k1, k3, k4);
      KeptPlainTwice(k1, k4, State());
      KeptBoth(managed, old(State()), k1, State());
      ChangeGrants(managed, old(State()), held, State(), held - {f}, e, i, j, Present(f, perm + {P}));
      r := 0;
    }

    /** env_setup_vm: a directory whose user half is empty and whose kernel half is kern_pgdir's. */
    method EnvSetupVm(e: nat) returns (r: int)
      requires Ok(managed, State(), {}, {}) && e < |envs| && envs[e] == -1 && |kernPgdir| == NPTENTRIES
      modifies `ref, `link, `freeList, `mem, `free, `envs
      ensures r == if old(free) == [] then E_NO_MEM else 0
      ensures r != 0 ==> State() == old(State())
      ensures Ok(managed, State(), {}, {}) && SameSpaces(old(State()), State()) && Kept(managed, old(State()), State())
      ensures r == 0 ==> 0 <= old(freeList) < |mem| && envs == old(envs)[e := old(freeList)]
      ensures r == 0 ==> Directory(State(), e) == old(freeList) && mem[old(freeList)] == UserDirectory(kernPgdir, old(freeList))
    {
      hide Ok, SameTables, SameSpaces, UserPage, Directory, TableAt, Maps, Refers, Listed, Tables, Content, Plain, Kept, KeptUsers, UserDirectory;
      KeptRefl(managed, State());
      SpacesRefl(State());
      var p := PageAlloc({}, {});
      if p == -1 {
        return E_NO_MEM;
      }
      ghost var k1 := State();
      PoppedSpaces(managed, old(State()), {}, {}, p, k1);
      PageRef(managed, k1, {} + {p}, p);
      var page := UserDirectory(kernPgdir, p);
      envs := envs[e := p];
      mem := mem[p := page];
      ref := ref[p := ref[p] + 1];
      DirectoryAddedOk(managed, k1, {} + {p}, e, p, page, State());
      assert {p} - {p} == {};
      SpacesTwice(old(State()), k1, State());
      KeptButOne(managed, old(State()), k1, State(), p);
      r := 0;
    }

    /** env_alloc: takes a slot from env_free_list, gives it an address space and a new id. */
    method EnvAlloc(parentId: int) returns (r: int, e: nat)
      requires Valid()
      modifies `ref, `link, `freeList, `mem, `free, `envs, `ids, `status, `ipc
      ensures Valid()
      ensures r == if old(ids.free) == [] then E_NO_FREE_ENV else if old(free) == [] then E_NO_MEM else 0
      ensures r != 0 ==> State() == old(State()) && ids == old(ids) && status == old(status) && ipc == old(ipc)
      ensures SameSpaces(old(State()), State()) && Kept(managed, old(State()), State())
      ensures r == 0 ==> e < NENV && status == old(status)[e := Runnable] && ipc == old(ipc)[e := old(ipc)[e].(recving := false)]
      ensures r == 0 ==> old(ids.free) != [] && e == old(ids.free)[0] && e < NENV && old(envs)[e] == -1
      ensures r == 0 ==> Directory(State(), e) != -1 && forall j :: 0 <= j < NENV && j != e ==> envs[j] == old(envs)[j]
      ensures r == 0 ==> ids == Ids(old(ids.id)[e := NextId(old(ids.id)[e], e)], old(ids.parent)[e := parentId], old(ids.free)[1..])
    {
      hide Ok, SameTables, SameSpaces, UserPage, TableAt, Maps, Kept, NextId, SlotsOk;
      SlotsLength(envs, status, ipc);
      e := 0;
      KeptRefl(managed, State());
      SpacesRefl(State());
      if ids.free == [] {
        return E_NO_FREE_ENV, e;
      }
      e := ids.free[0];
      assert e in ids.free;
      r := EnvSetupVm(e);
      if r != 0 {
        return;
      }
      SlotTaken(ids, old(envs), old(freeList), parentId);
      ids := Ids(ids.id[e := NextId(ids.id[e], e)], ids.parent[e := parentId], ids.free[1..]);
      status, ipc := status[e := Runnable], ipc[e := ipc[e].(recving := false)];
      SlotSet(old(envs), old(status), old(ipc), e, envs, status, ipc);
    }

    /** sys_exofork: the new environment is a child of the caller, which may therefore map pages for it. */
    method SysExofork() returns (r: int)
      requires Valid() && curenv != -1
      modifies `ref, `link, `freeList, `mem, `free, `envs, `ids, `status, `ipc
      ensures Valid()
      ensures r < 0 <==> old(ids.free) == [] || old(free) == []
      ensures r < 0 ==> r == if old(ids.free) == [] then E_NO_FREE_ENV else E_NO_MEM
      ensures r < 0 ==> State() == old(State()) && ids == old(ids) && status == old(status) && ipc == old(ipc)
      ensures SameSpaces(old(State()), State()) && Kept(managed, old(State()), State())
      ensures r >= 0 ==> EnvOf(ids, envs, curenv, r, true) == EnvX(r) && EnvOf(old(ids), old(envs), curenv, r, false) == -1
      ensures r >= 0 ==> old(envs)[EnvX(r)] == -1 && |old(status)| == NENV && status == old(status)[EnvX(r) := NotRunnable]
    {
      hide Ok, SameTables, SameSpaces, UserPage, TableAt, Maps, Kept, NextId, SlotsOk;
      SlotsLength(envs, status, ipc);
      var e;
      r, e := EnvAlloc(ids.id[curenv]);
      if r != 0 {
        return;
      }
      SlotAt(envs, status, ipc, e);
      ghost var status1 := status;
      status := status[e := NotRunnable];
      SlotSet(envs, status1, ipc, e, envs, status, ipc);
      NextIdFresh(old(ids.id)[e], e);
      r := ids.id[e];
    }

    /** env_free: the user half of the address space, its tables and its directory go back to the free list. */
    method EnvFree(e: nat)
      requires Ok(managed, State(), {}, {}) && IdsOk(ids, envs) && e < NENV && envs[e] != -1 && Directory(State(), e) != -1
      requires SlotsOk(envs, status, ipc)
      modifies `ref, `link, `freeList, `mem, `free, `envs, `ids, `status
      ensures Ok(managed, State(), {}, {}) && IdsOk(ids, envs) && SlotsOk(envs, status, ipc)
      ensures |old(status)| == NENV && status == old(status)[e := Free]
      ensures envs == old(envs)[e := -1] && ids == old(ids).(free := [e] + old(ids.free))
      ensures OthersSame(old(State()), State(), e) && KeptPlain(old(State()), State())
      ensures Directory(State(), e) == -1 && forall e2: nat {:trigger Directory(State(), e2)} :: e2 != e ==> Directory(State(), e2) == Directory(old(State()), e2)
    {
      hide Ok, SameTables, SameSpaces, UserPage, Directory, TableAt, Maps, Refers, Listed, Tables, Content, Plain, KeptPlain, OthersSame, Decref, IdsOk, SlotsOk;
      SlotsLength(envs, status, ipc);
      KeptRefl(managed, State());
      OthersRefl(State(), e);
      var pdeno := 0;
      while pdeno < NPDENTRIES
        invariant pdeno <= NPDENTRIES && envs == old(envs) && ids == old(ids) && status == old(status)
        invariant Ok(managed, State(), {}, {}) && OthersSame(old(State()), State(), e) && KeptPlain(old(State()), State())
        invariant forall e2: nat {:trigger Directory(State(), e2)} :: Directory(State(), e2) == Directory(old(State()), e2)
        invariant forall i: nat {:trigger TableAt(State(), e, i)} :: i < pdeno ==> TableAt(State(), e, i).Absent?
      {
        Bounds(managed, State(), {}, {}, e);
        assert TableAt(State(), e, pdeno) == mem[envs[e]][pdeno];
        if mem[envs[e]][pdeno].Present? {
          ghost var k1 := State();
          FreeTable(e, pdeno);
          OthersTwice(old(State()), k1, State(), e);
          KeptPlainTwice(old(State()), k1, State());
        }
        pdeno := pdeno + 1;
      }
      ghost var k2 := State();
      UserHalf(k2, e);
      Bounds(managed, k2, {}, {}, e);
      var pa := envs[e];
      DirectoryRef(managed, k2, e);
      envs := envs[e := -1];
      PageDecref(pa);
      DropDirectory(managed, k2, e, pa, State());
      SpacesOthers(old(State()), k2, State(), e);
      KeptPlainTwice(old(State()), k2, State());
      SlotFreed(ids, old(envs), e);
      SlotAt(old(envs), old(status), ipc, e);
      status := status[e := Free];
      SlotSet(old(envs), old(status), ipc, e, envs, status, ipc);
      ids := ids.(free := [e] + ids.free);
    }

    /** The body of the outer loop of env_free, for a table that is there. */
    method FreeTable(e: nat, pdeno: nat)
      requires Ok(managed, State(), {}, {}) && Directory(State(), e) != -1 && pdeno < NPDENTRIES && TableAt(State(), e, pdeno).Present?
      modifies `ref, `link, `freeList, `mem, `free
      ensures Ok(managed, State(), {}, {}) && OthersSame(old(State()), State(), e) && KeptPlain(old(State()), State())
      ensures forall e2: nat {:trigger Directory(State(), e2)} :: Directory(State(), e2) == Directory(old(State()), e2)
      ensures forall e2: nat, i2: nat {:trigger TableAt(State(), e2, i2)} ::
        TableAt(State(), e2, i2) == if e2 == e && i2 == pdeno then Absent else TableAt(old(State()), e2, i2)
    {
      hide Ok, SameSpaces, UserPage, Directory, TableAt, Maps, Refers, Listed, Tables, Content, Plain, KeptPlain, OthersSame, SameTables, OneChange, Decref;
      KeptRefl(managed, State());
      OthersRefl(State(), e);
      TablesRefl(State());
      Bounds(managed, State(), {}, {}, e);
      var pa := mem[envs[e]][pdeno].frame;
      var pteno := 0;
      while pteno < NPTENTRIES
        invariant pteno <= NPTENTRIES && Ok(managed, State(), {}, {}) && SameTables(old(State()), State())
        invariant OthersSame(old(State()), State(), e) && KeptPlain(old(State()), State())
        invariant forall j: nat {:trigger Maps(State(), e, pdeno, j)} :: j < pteno ==> Maps(State(), e, pdeno, j).Absent?
      {
        TablesSame(old(State()), State(), e, pdeno);
        DirSame(old(State()), State(), e);
        TableBounds(managed, State(), {}, {}, e, pdeno);
        assert Maps(State(), e, pdeno, pteno) == mem[pa][pteno];
        if mem[pa][pteno].Present? {
          ghost var k1 := State();
          PageRemove(e, pdeno, pteno, {}, {});
          ChangeOthers(old(State()), k1, State(), e, pdeno, pteno);
          KeptPlainTwice(old(State()), k1, State());
          TablesTwice(old(State()), k1, State());
        }
        pteno := pteno + 1;
      }
      ghost var k2 := State();
      TablesSame(old(State()), k2, e, pdeno);
      TablesSameDir(old(State()), k2);
      TableEmpty(managed, k2, e, pdeno);
      TableRef(managed, k2, e, pdeno);
      Bounds(managed, k2, {}, {}, e);
      var d := envs[e];
      mem := mem[d := mem[d][pdeno := Absent]];
      PageDecref(pa);
      DropTableOf(managed, k2, e, pdeno, d, pa, State());
      SpacesOthers(old(State()), k2, State(), e);
      KeptPlainTwice(old(State()), k2, State());
      TablesSameAll(old(State()), k2);
    }

    /** An environment that another processor runs. */
    predicate Elsewhere(e: nat)
      requires e < |status|
      reads this
    {
      status[e].Running? && curenv != e
    }

    /** env_destroy: one that another processor runs becomes dying; any other is freed, with the exit to the scheduler when it is the current one. */
    method EnvDestroy(e: nat)
      requires Valid() && e < NENV && envs[e] != -1
      modifies `ref, `link, `freeList, `mem, `free, `envs, `ids, `curenv, `status
      ensures Valid() && |old(status)| == NENV
      ensures old(Elsewhere(e)) ==> State() == old(State()) && ids == old(ids) && curenv == old(curenv) && status == old(status)[e := Dying]
      ensures !old(Elsewhere(e)) ==> envs == old(envs)[e := -1] && ids == old(ids).(free := [e] + old(ids.free)) && status == old(status)[e := Free]
      ensures !old(Elsewhere(e)) ==> curenv == if old(curenv) == e then -1 else old(curenv)
      ensures OthersSame(old(State()), State(), e) && Kept(managed, old(State()), State())
    {
      hide Ok, OthersSame, Maps, Content, Plain, Listed, SlotsOk;
      SlotsLength(envs, status, ipc);
      LiveDirectory(managed, State(), {}, {}, e);
      if status[e].Running? && curenv != e {
        SlotAt(envs, status, ipc, e);
        status := status[e := Dying];
        SlotSet(envs, old(status), ipc, e, envs, status, ipc);
        OthersRefl(State(), e);
        KeptRefl(managed, State());
        return;
      }
      EnvFree(e);
      if curenv == e {
        curenv := -1;
      }
    }

    /** sys_page_alloc */
    method SysPageAlloc(envid: int, va: nat, perm: set<Flag>) returns (r: int)
      requires Valid() && curenv != -1
      modifies `ref, `link, `freeList, `mem, `free
      ensures Valid()
      ensures var e := EnvOf(ids, envs, curenv, envid, true);
        r == if InvalidVa(va) || InvalidPerm(perm) then E_INVAL
             else if e == -1 then E_BAD_ENV
             else if 1 + TablesNeeded(old(State()), e, Pdx(va)) > |old(free)| then E_NO_MEM
             else 0
      ensures r != 0 ==> SameSpaces(old(State()), State()) && ref == old(ref) && link == old(link) && freeList == old(freeList) && free == old(free)
      ensures Kept(managed, old(State()), State())
      ensures r == 0 ==> 0 <= old(freeList) < |mem| && Blank(mem[old(freeList)])
      ensures r == 0 ==> var e := EnvOf(ids, envs, curenv, envid, true);
        && e != -1 && OneChange(old(State()), State(), e, Pdx(va), Ptx(va), Present(old(freeList), perm))
        && Grants(old(State()), State(), e, Pdx(va), Ptx(va), perm)
    {
      hide Ok, SameSpaces, UserPage, Directory, TableAt, Maps, Refers, Listed, Tables, Content, Plain, Kept, KeptPlain, KeptUsers, OneChange, Blank, Pdx, Ptx, OneTable, Grants;
      KeptRefl(managed, State());
      SpacesRefl(State());
      if InvalidVa(va) {
        return E_INVAL;
      }
      UserVa(va);
      if InvalidPerm(perm) {
        return E_INVAL;
      }
      var e := EnvOf(ids, envs, curenv, envid, true);
      if e == -1 {
        return E_BAD_ENV;
      }
      LiveDirectory(managed, State(), {}, {}, e);
      FirstPage(managed, State(), {}, {});
      var page := PageAlloc({}, {});
      if page == -1 {
        return E_NO_MEM;
      }
      ghost var k1 := State();
      PoppedSpaces(managed, old(State()), {}, {}, page, k1);
      TablesSame(old(State()), k1, e, Pdx(va));
      DirSame(old(State()), k1, e);
      r := PageInsert(e, page, Pdx(va), Ptx(va), perm, {} + {page});
      KeptThen(managed, old(State()), k1, State());
      if r != 0 {
        PageRef(managed, k1, {} + {page}, page);
        HeldPage(managed, k1, {} + {page}, page);
        PageFree(page);
        PushedOk(managed, k1, {} + {page}, {}, page, State());
        assert {} + {page} - {page} == {};
        PushedSpaces(k1, page, State());
        PushedKeeps(managed, old(State()), k1, page, State());
        SpacesTwice(old(State()), k1, State());
        PushedBack(old(State()), page, k1, State());
        return;
      }
      assert {} + {page} - {page} == {};
      assert perm + {P} == perm;
      KeptAt(managed, k1, State(), page);
      SpacesChange(old(State()), k1, State(), e, Pdx(va), Ptx(va), Present(page, perm));
      ChangeGrants(managed, old(State()), {}, State(), {}, e, Pdx(va), Ptx(va), Present(page, perm));
    }

    /** sys_page_map: `dstenvid` sees at `dstva` the page that `srcenvid` sees at `srcva`. */
    method SysPageMap(srcenvid: int, srcva: nat, dstenvid: int, dstva: nat, perm: set<Flag>) returns (r: int)
      requires Valid() && curenv != -1
      modifies `ref, `link, `freeList, `mem, `free
      ensures Valid()
      ensures var src := EnvOf(ids, envs, curenv, srcenvid, true);
        var dst := EnvOf(ids, envs, curenv, dstenvid, true);
        r == if InvalidVa(srcva) || InvalidVa(dstva) || InvalidPerm(perm) then E_INVAL
             else if src == -1 || dst == -1 then E_BAD_ENV
             else
               var x := Maps(old(State()), src, Pdx(srcva), Ptx(srcva));
               if x.Absent? || (W in perm && W !in x.perm) then E_INVAL
               else if TablesNeeded(old(State()), dst, Pdx(dstva)) > |old(free)| then E_NO_MEM
               else 0
      ensures r != 0 ==> State() == old(State())
      ensures Kept(managed, old(State()), State())
      ensures r == 0 ==>
        var src := EnvOf(ids, envs, curenv, srcenvid, true);
        var dst := EnvOf(ids, envs, curenv, dstenvid, true);
        && src != -1 && dst != -1 && Maps(old(State()), src, Pdx(srcva), Ptx(srcva)).Present?
        && OneChange(old(State()), State(), dst, Pdx(dstva), Ptx(dstva), Present(Maps(old(State()), src, Pdx(srcva), Ptx(srcva)).frame, perm))
        && Grants(old(State()), State(), dst, Pdx(dstva), Ptx(dstva), perm)
    {
      hide Ok, SameSpaces, UserPage, Directory, TableAt, Maps, Refers, Listed, Tables, Content, Plain, Kept, KeptPlain, KeptUsers, OneChange, Pdx, Ptx, OneTable, Grants;
      KeptRefl(managed, State());
      if InvalidVa(srcva) || InvalidVa(dstva) {
        return E_INVAL;
      }
      UserVa(srcva);
      UserVa(dstva);
      if InvalidPerm(perm) {
        return E_INVAL;
      }
      var src := EnvOf(ids, envs, curenv, srcenvid, true);
      if src == -1 {
        return E_BAD_ENV;
      }
      var dst := EnvOf(ids, envs, curenv, dstenvid, true);
      if dst == -1 {
        return E_BAD_ENV;
      }
      LiveDirectory(managed, State(), {}, {}, src);
      LiveDirectory(managed, State(), {}, {}, dst);
      var page := PageLookup(src, Pdx(srcva), Ptx(srcva), {}, {});
      if page == -1 {
        return E_INVAL;
      }
      EntryOf(managed, State(), {}, {}, src, Pdx(srcva), Ptx(srcva));
      TableBounds(managed, State(), {}, {}, src, Pdx(srcva));
      var srcpte := mem[mem[envs[src]][Pdx(srcva)].frame][Ptx(srcva)];
      if W in perm && W !in srcpte.perm {
        return E_INVAL;
      }
      Mapped(managed, State(), src, Pdx(srcva), Ptx(srcva));
      r := PageInsert(dst, page, Pdx(dstva), Ptx(dstva), perm, {});
      assert {} - {page} == {};
      assert perm + {P} == perm;
    }

    /** sys_page_unmap */
    method SysPageUnmap(envid: int, va: nat) returns (r: int)
      requires Valid() && curenv != -1
      modifies `ref, `link, `freeList, `mem, `free
      ensures Valid()
      ensures r == if InvalidVa(va) then E_INVAL else if EnvOf(ids, envs, curenv, envid, true) == -1 then E_BAD_ENV else 0
      ensures r != 0 ==> State() == old(State())
      ensures Kept(managed, old(State()), State())
      ensures r == 0 ==> var e := EnvOf(ids, envs, curenv, envid, true);
        e != -1 && OneChange(old(State()), State(), e, Pdx(va), Ptx(va), Absent) && Grants(old(State()), State(), e, Pdx(va), Ptx(va), {})
    {
      hide Ok, SameSpaces, Directory, TableAt, Maps, Refers, Listed, Tables, Content, Plain, OneChange, Pdx, Ptx, OneTable, Grants;
      if InvalidVa(va) {
        return E_INVAL;
      }
      UserVa(va);
      var e := EnvOf(ids, envs, curenv, envid, true);
      if e == -1 {
        return E_BAD_ENV;
      }
      LiveDirectory(managed, State(), {}, {}, e);
      PageRemove(e, Pdx(va), Ptx(va), {}, {});
      ChangeGrants(managed, old(State()), {}, State(), {}, e, Pdx(va), Ptx(va), Absent);
      r := 0;
    }

    /** sys_env_set_status; `st` is what the caller passes */
    method SysEnvSetStatus(envid: int, st: Status) returns (r: int)
      requires Valid() && curenv != -1
      modifies `status
      ensures Valid()
      ensures var e := EnvOf(ids, envs, curenv, envid, true);
        && r == (if !(st.Runnable? || st.NotRunnable?) then E_INVAL else if e == -1 then E_BAD_ENV else 0)
        && status == if r == 0 then old(status)[e := st] else old(status)
    {
      hide Ok, SlotsOk, NextId;
      SlotsLength(envs, status, ipc);
      if !(st.Runnable? || st.NotRunnable?) {
        return E_INVAL;
      }
      var e := EnvOf(ids, envs, curenv, envid, true);
      if e == -1 {
        return E_BAD_ENV;
      }
      SlotAt(envs, status, ipc, e);
      status := status[e := st];
      SlotSet(envs, old(status), ipc, e, envs, status, ipc);
      r := 0;
    }

    /**
      sys_ipc_recv, up to sched_yield.  The caller stops being runnable before its argument is checked, so that
      it is blocked after the error too, although it does not receive.
     */
    method SysIpcRecv(dstva: nat) returns (r: int)
      requires Valid() && curenv != -1
      modifies `status, `ipc
      ensures Valid() && |old(status)| == |old(ipc)| == NENV
      ensures r == if dstva < UTOP && dstva % PGSIZE != 0 then E_INVAL else 0
      ensures status == old(status)[curenv := NotRunnable]
      ensures ipc == if r == 0 then old(ipc)[curenv := old(ipc)[curenv].(recving := true, perm := {}, dstva := dstva)] else old(ipc)
    {
      hide Ok, SlotsOk;
      SlotsLength(envs, status, ipc);
      SlotAt(envs, status, ipc, curenv);
      status := status[curenv := NotRunnable];
      if dstva < UTOP && dstva % PGSIZE != 0 {
        SlotSet(envs, old(status), old(ipc), curenv, envs, status, ipc);
        return E_INVAL;
      }
      ipc := ipc[curenv := ipc[curenv].(recving := true, perm := {}, dstva := dstva)];
      SlotSet(envs, old(status), old(ipc), curenv, envs, status, ipc);
      r := 0;
    }

    /** A page goes from the sender to a receiver that asks for one. */
    ghost predicate Transfers(dst: nat, srcva: nat)
      requires dst < |ipc|
      reads this
    {
      ipc[dst].dstva < UTOP && srcva < UTOP
    }

    /** What sys_ipc_try_send answers when the receiver waits. */
    ghost function SendResult(dst: nat, srcva: nat, perm: set<Flag>): int
      requires dst < |ipc|
      reads this
    {
      if !Transfers(dst, srcva) then 0
      else if srcva % PGSIZE != 0 || InvalidPerm(perm) || curenv < 0 then E_INVAL
      else
        var x := Maps(State(), curenv, Pdx(srcva), Ptx(srcva));
        if x.Absent? || (W in perm && W !in x.perm) then E_INVAL
        else if TablesNeeded(State(), dst, Pdx(ipc[dst].dstva)) > |free| then E_NO_MEM
        else 0
    }

    /**
      sys_ipc_try_send: nothing happens on an error; otherwise the receiver is runnable again with the value, and
      when it asked for a page and is sent one, it sees that page at the address it named and nothing else changes.
     */
    method SysIpcTrySend(envid: int, value: int, srcva: nat, perm: set<Flag>) returns (r: int)
      requires Valid() && curenv != -1
      modifies `ref, `link, `freeList, `mem, `free, `status, `ipc
      ensures Valid() && |old(status)| == |old(ipc)| == NENV
      ensures (forall e: nat :: e < NENV ==> !Named(ids, envs, curenv, envid, e)) ==> r == E_BAD_ENV
      ensures forall dst: nat :: dst < NENV && Named(ids, envs, curenv, envid, dst) ==>
        r == if !old(ipc)[dst].recving then E_IPC_NOT_RECV else old(SendResult(dst, srcva, perm))
      ensures r != 0 ==> State() == old(State()) && status == old(status) && ipc == old(ipc)
      ensures Kept(managed, old(State()), State())
      ensures r == 0 ==> exists dst: nat :: dst < NENV && Named(ids, envs, curenv, envid, dst)
      ensures forall dst: nat :: r == 0 && dst < NENV && Named(ids, envs, curenv, envid, dst) ==>
        var transfers := old(Transfers(dst, srcva));
        && status == old(status)[dst := Runnable]
        && ipc == old(ipc)[dst := Ipc(false, old(ipc)[dst].dstva, ids.id[curenv], value, if transfers then perm else old(ipc)[dst].perm)]
        && (!transfers ==> State() == old(State()))
        && (transfers ==>
              var x := Maps(old(State()), curenv, Pdx(srcva), Ptx(srcva));
              var dstva := old(ipc)[dst].dstva;
              && x.Present? && OneChange(old(State()), State(), dst, Pdx(dstva), Ptx(dstva), Present(x.frame, perm))
              && Grants(old(State()), State(), dst, Pdx(dstva), Ptx(dstva), perm))
    {
      hide Ok, SameSpaces, UserPage, Directory, TableAt, Maps, Refers, Listed, Tables, Content, Plain, Kept, KeptPlain, KeptUsers, OneChange, Pdx, Ptx, SlotsOk, OneTable, Grants, EnvOf, Named, IdsOk;
      SlotsLength(envs, status, ipc);
      KeptRefl(managed, State());
      IdsLength(ids, envs);
      NoEnvIff(ids, envs, curenv, envid);
      var dst := EnvOf(ids, envs, curenv, envid, false);
      if dst == -1 {
        return E_BAD_ENV;
      }
      assert Named(ids, envs, curenv, envid, dst);
      if !ipc[dst].recving {
        return E_IPC_NOT_RECV;
      }
      SlotAt(envs, status, ipc, dst);
      var dstva, got := ipc[dst].dstva, ipc[dst].perm;
      if dstva < UTOP && srcva < UTOP {
        if srcva % PGSIZE != 0 || InvalidPerm(perm) {
          return E_INVAL;
        }
        UserVa(srcva);
        UserVa(dstva);
        LiveDirectory(managed, State(), {}, {}, curenv);
        LiveDirectory(managed, State(), {}, {}, dst);
        var page := PageLookup(curenv, Pdx(srcva), Ptx(srcva), {}, {});
        if page == -1 {
          return E_INVAL;
        }
        EntryOf(managed, State(), {}, {}, curenv, Pdx(srcva), Ptx(srcva));
        TableBounds(managed, State(), {}, {}, curenv, Pdx(srcva));
        var srcpte := mem[mem[envs[curenv]][Pdx(srcva)].frame][Ptx(srcva)];
        if W in perm && W !in srcpte.perm {
          return E_INVAL;
        }
        Mapped(managed, State(), curenv, Pdx(srcva), Ptx(srcva));
        r := PageInsert(dst, page, Pdx(dstva), Ptx(dstva), perm, {});
        if r != 0 {
          return E_NO_MEM;
        }
        assert {} - {page} == {};
        assert perm + {P} == perm;
        got := perm;
      }
      ipc := ipc[dst := Ipc(false, dstva, ids.id[curenv], value, got)];
      status := status[dst := Runnable];
      SlotSet(envs, old(status), old(ipc), dst, envs, status, ipc);
      r := 0;
    }

    /** env_run, as far as memory goes */
    method EnvRun(e: nat)
      requires Valid() && e < NENV && envs[e] != -1
      modifies `curenv, `status
      ensures Valid() && curenv == e && |old(status)| == NENV
      ensures var before := if old(curenv) != -1 && old(status)[old(curenv)].Running? then old(status)[old(curenv) := Runnable] else old(status);
        status == before[e := Running]
    {
      hide Ok, SlotsOk;
      SlotsLength(envs, status, ipc);
      LiveDirectory(managed, State(), {}, {}, e);
      if curenv != -1 {
        SlotAt(envs, status, ipc, curenv);
        if status[curenv].Running? {
          status := status[curenv := Runnable];
          SlotSet(envs, old(status), ipc, curenv, envs, status, ipc);
        }
      }
      curenv := e;
      SlotAt(envs, status, ipc, e);
      ghost var before := status;
      status := status[e := Running];
      SlotSet(envs, before, ipc, e, envs, status, ipc);
    }
  }

  /** The directory of a new environment: nothing below UTOP, and the directory itself at UVPT. */
  function UserDirectory(kernPgdir: seq<Entry>, p: nat): (page: seq<Entry>)
    requires |kernPgdir| == NPTENTRIES
    ensures |page| == NPTENTRIES && page[PDX_UVPT] == Present(p, {P, U})
    ensures forall i: nat :: i < NPDENTRIES ==> page[i].Absent?
    ensures forall i: nat :: NPDENTRIES <= i < NPTENTRIES && i != PDX_UVPT ==> page[i] == kernPgdir[i]
  {
    (Zeroes(kernPgdir[..NPDENTRIES]) + kernPgdir[NPDENTRIES..])[PDX_UVPT := Present(p, {P, U})]
  }

  lemma BootedPages(ref: seq<int>, link: seq<int>, freeList: int, free: seq<nat>, npages: nat, usable: set<nat>, taken: set<nat>)
    requires Booted(ref, link, freeList, free, npages, usable, taken)
    ensures |ref| == npages && forall f: nat :: f in usable ==> f < npages && (f in free <==> f in usable - taken) && ref[f] == if f in usable - taken then 0 else 1
    ensures usable - (usable - taken) == taken
  {
    hide IsList;
  }

  lemma SlotsInitial(envs: seq<int>, status: seq<Status>, ipc: seq<Ipc>)
    requires |envs| == |status| == |ipc| == NENV
    requires forall e: nat :: e < NENV ==> envs[e] == -1 && status[e].Free? && !ipc[e].recving
    ensures SlotsOk(envs, status, ipc)
  {
  }

  lemma SlotsLength(envs: seq<int>, status: seq<Status>, ipc: seq<Ipc>)
    requires SlotsOk(envs, status, ipc)
    ensures |envs| == |status| == |ipc| == NENV
  {
  }

  lemma SlotAt(envs: seq<int>, status: seq<Status>, ipc: seq<Ipc>, e: nat)
    requires SlotsOk(envs, status, ipc) && e < NENV
    ensures SlotOk(envs, status, ipc, e)
  {
  }

  lemma TableKept(k: Frames, e: nat, i: nat)
    ensures OneTable(k, k, e, i, TableAt(k, e, i))
  {
  }

  lemma TableSet(k: Frames, k': Frames, e: nat, i: nat, x: Entry)
    requires OneTable(k, k', e, i, x)
    ensures TableAt(k', e, i) == x && forall e2: nat {:trigger Directory(k', e2)} :: Directory(k', e2) == Directory(k, e2)
  {
  }

  lemma TableAfter(k: Frames, k': Frames, k'': Frames, e: nat, i: nat, x: Entry)
    requires SameTables(k, k') && OneTable(k', k'', e, i, x)
    ensures OneTable(k, k'', e, i, x)
  {
    hide Directory, TableAt;
    forall e2: nat ensures Directory(k'', e2) == Directory(k, e2) {
      assert Directory(k', e2) == Directory(k, e2);
    }
    forall e2: nat, i2: nat ensures TableAt(k'', e2, i2) == if e2 == e && i2 == i then x else TableAt(k, e2, i2) {
      assert TableAt(k', e2, i2) == TableAt(k, e2, i2);
    }
  }

  /** The directory entry of page_insert, over its steps. */
  lemma TableChain(k0: Frames, k1: Frames, k2: Frames, k3: Frames, k4: Frames, k5: Frames, e: nat, i: nat, x: Entry, y: Entry)
    requires OneTable(k0, k1, e, i, x) && SameTables(k1, k2) && SameTables(k2, k3) && SameTables(k3, k4) && OneTable(k4, k5, e, i, y)
    ensures OneTable(k0, k5, e, i, y)
  {
    hide Directory, TableAt;
    TablesTwice(k1, k2, k3);
    TablesTwice(k1, k3, k4);
    TableAfter(k1, k4, k5, e, i, y);
    forall e2: nat ensures Directory(k5, e2) == Directory(k0, e2) {
      assert Directory(k1, e2) == Directory(k0, e2);
    }
    forall e2: nat, i2: nat ensures TableAt(k5, e2, i2) == if e2 == e && i2 == i then y else TableAt(k0, e2, i2) {
      assert TableAt(k5, e2, i2) == if e2 == e && i2 == i then y else TableAt(k1, e2, i2);
      assert TableAt(k1, e2, i2) == if e2 == e && i2 == i then x else TableAt(k0, e2, i2);
    }
  }

  lemma SpacesRefl(k: Frames)
    ensures SameSpaces(k, k)
  {
  }

  lemma OthersRefl(k: Frames, e: nat)
    ensures OthersSame(k, k, e)
  {
  }

  lemma TablesRefl(k: Frames)
    ensures SameTables(k, k)
  {
  }

  lemma OthersTwice(k: Frames, k': Frames, k'': Frames, e: nat)
    requires OthersSame(k, k', e) && OthersSame(k', k'', e)
    ensures OthersSame(k, k'', e)
  {
    hide Maps;
    forall e2: nat, i: nat, j: nat | e2 != e ensures Maps(k'', e2, i, j) == Maps(k, e2, i, j) {
      assert Maps(k', e2, i, j) == Maps(k, e2, i, j);
    }
  }

  lemma SpacesOthers(k: Frames, k': Frames, k'': Frames, e: nat)
    requires OthersSame(k, k', e) && SameSpaces(k', k'')
    ensures OthersSame(k, k'', e)
  {
    hide Maps;
    forall e2: nat, i: nat, j: nat | e2 != e ensures Maps(k'', e2, i, j) == Maps(k, e2, i, j) {
      assert Maps(k', e2, i, j) == Maps(k, e2, i, j);
    }
  }

  lemma ChangeOthers(k: Frames, k': Frames, k'': Frames, e: nat, i: nat, j: nat)
    requires OthersSame(k, k', e) && OneChange(k', k'', e, i, j, Absent)
    ensures OthersSame(k, k'', e)
    ensures Maps(k'', e, i, j).Absent? && forall j2: nat {:trigger Maps(k'', e, i, j2)} :: j2 != j ==> Maps(k'', e, i, j2) == Maps(k', e, i, j2)
  {
    hide Maps;
    forall e2: nat, i2: nat, j2: nat | e2 != e ensures Maps(k'', e2, i2, j2) == Maps(k, e2, i2, j2) {
      assert Maps(k', e2, i2, j2) == Maps(k, e2, i2, j2);
    }
  }

  lemma SpacesChange(k: Frames, k': Frames, k'': Frames, e: nat, i: nat, j: nat, x: Entry)
    requires SameSpaces(k, k') && OneChange(k', k'', e, i, j, x)
    ensures OneChange(k, k'', e, i, j, x)
  {
    hide Maps;
    forall e2: nat, i2: nat, j2: nat
      ensures Maps(k'', e2, i2, j2) == if e2 == e && i2 == i && j2 == j then x else Maps(k, e2, i2, j2)
    {
      assert Maps(k', e2, i2, j2) == Maps(k, e2, i2, j2);
    }
  }

  lemma TablesTwice(k: Frames, k': Frames, k'': Frames)
    requires SameTables(k, k') && SameTables(k', k'')
    ensures SameTables(k, k'')
  {
    hide Directory, TableAt;
    forall e: nat ensures Directory(k'', e) == Directory(k, e) {
      assert Directory(k', e) == Directory(k, e);
    }
    forall e: nat, i: nat ensures TableAt(k'', e, i) == TableAt(k, e, i) {
      assert TableAt(k', e, i) == TableAt(k, e, i);
    }
  }

  lemma TablesSameAll(k: Frames, k': Frames)
    requires SameTables(k, k')
    ensures forall e: nat, i: nat {:trigger TableAt(k, e, i)} {:trigger TableAt(k', e, i)} :: TableAt(k', e, i) == TableAt(k, e, i)
  {
  }

  /** Every page but `p`, which was no user's, has kept its contents. */
  lemma KeptButOne(managed: set<nat>, k: Frames, k': Frames, k'': Frames, p: nat)
    requires KeptUsers(managed, k, k') && !UserPage(managed, k, p)
    requires forall g: nat {:trigger Content(k'', g)} :: g != p ==> Content(k'', g) == Content(k', g)
    ensures Kept(managed, k, k'')
  {
    hide UserPage, Content;
    forall g: nat | UserPage(managed, k, g) ensures Content(k'', g) == Content(k, g) {
      assert UserPage(managed, k', g) && Content(k', g) == Content(k, g);
    }
  }

  lemma KeptThen(managed: set<nat>, k: Frames, k': Frames, k'': Frames)
    requires KeptUsers(managed, k, k') && Kept(managed, k', k'')
    ensures Kept(managed, k, k'')
  {
    hide UserPage, Content;
    forall g: nat | UserPage(managed, k, g) ensures Content(k'', g) == Content(k, g) {
      assert UserPage(managed, k', g) && Content(k', g) == Content(k, g);
    }
  }

  lemma KeptAt(managed: set<nat>, k: Frames, k': Frames, f: nat)
    requires Kept(managed, k, k') && UserPage(managed, k, f) && f < |k.mem| && k.mem[f] != []
    ensures f < |k'.mem| && k'.mem[f] == k.mem[f]
  {
    hide UserPage;
    assert Content(k', f) == Content(k, f);
  }

  lemma HeldPage(managed: set<nat>, k: Frames, held: set<nat>, f: nat)
    requires Ok(managed, k, held, {}) && f in held
    ensures f < |k.link| && f < |k.ref| && k.ref[f] == 0 && k.link[f] == -1
  {
    hide Tables, IsList, Count, Listed;
    assert PageOk(k, held, {}, f);
  }

  lemma PushedSpaces(k: Frames, f: nat, k': Frames)
    requires Pushed(k, f, k')
    ensures SameSpaces(k, k')
  {
  }

  lemma PushedKeeps(managed: set<nat>, k: Frames, k': Frames, f: nat, k'': Frames)
    requires Kept(managed, k, k') && Pushed(k', f, k'')
    ensures Kept(managed, k, k'')
  {
    hide UserPage;
    forall g: nat ensures Content(k'', g) == Content(k', g) {
    }
  }

  /** page_free right after page_alloc puts the list back as it was. */
  lemma PushedBack(k: Frames, f: nat, k': Frames, k'': Frames)
    requires Popped(k, f, k') && Pushed(k', f, k'') && k.free != [] && k.free[0] == f
    ensures k''.ref == k.ref && k''.link == k.link && k''.freeList == k.freeList && k''.free == k.free
  {
  }

  /** A live slot has a directory. */
  lemma LiveDirectory(managed: set<nat>, k: Frames, held: set<nat>, pin: set<nat>, e: nat)
    requires Ok(managed, k, held, pin) && e < |k.envs| && k.envs[e] != -1
    ensures Directory(k, e) == k.envs[e] && Directory(k, e) != -1
  {
    hide IsList, Names;
  }

  lemma UserHalf(k: Frames, e: nat)
    requires forall i: nat {:trigger TableAt(k, e, i)} :: i < NPDENTRIES ==> TableAt(k, e, i).Absent?
    ensures forall i: nat {:trigger TableAt(k, e, i)} :: TableAt(k, e, i).Absent?
  {
  }

  lemma TableEmpty(managed: set<nat>, k: Frames, e: nat, i: nat)
    requires Ok(managed, k, {}, {}) && TableAt(k, e, i).Present?
    requires forall j: nat {:trigger Maps(k, e, i, j)} :: j < NPTENTRIES ==> Maps(k, e, i, j).Absent?
    ensures forall j: nat {:trigger Maps(k, e, i, j)} :: Maps(k, e, i, j).Absent?
  {
    TableBounds(managed, k, {}, {}, e, i);
  }

  lemma TableRef(managed: set<nat>, k: Frames, e: nat, i: nat)
    requires Ok(managed, k, {}, {}) && TableAt(k, e, i).Present?
    ensures var t := TableAt(k, e, i).frame; t < |k.ref| && t < |k.link| && k.ref[t] > 0 && k.link[t] == -1
  {
    hide Ok;
    TableBounds(managed, k, {}, {}, e, i);
    InUse(managed, k, {}, {}, InPde(e, i), TableAt(k, e, i).frame);
  }

  lemma DirectoryRef(managed: set<nat>, k: Frames, e: nat)
    requires Ok(managed, k, {}, {}) && Directory(k, e) != -1
    ensures var d := Directory(k, e); 0 <= d < |k.ref| && d < |k.link| && k.ref[d] > 0 && k.link[d] == -1
  {
    var d := Directory(k, e);
    assert Refers(k, InEnv(e), d);
    hide Ok, Refers;
    InUse(managed, k, {}, {}, InEnv(e), d);
  }

  lemma DropDirectory(managed: set<nat>, k: Frames, e: nat, d: nat, k': Frames)
    requires Ok(managed, k, {}, {}) && Directory(k, e) == d && e < |k.envs| && Decref(k.(envs := k.envs[e := -1]), d, k')
    requires k'.envs == k.envs[e := -1] && k'.mem == k.mem
    requires forall i: nat {:trigger TableAt(k, e, i)} :: TableAt(k, e, i).Absent?
    ensures Ok(managed, k', {}, {}) && SameSpaces(k, k') && KeptPlain(k, k')
    ensures forall e2: nat {:trigger Directory(k', e2)} :: Directory(k', e2) == if e2 == e then -1 else Directory(k, e2)
  {
    assert Decref(k, d, k');
    hide Ok, SameSpaces, KeptPlain, Directory, TableAt, Decref;
    DirectoryDroppedOk(managed, k, e, d, k');
  }

  lemma DropTableOf(managed: set<nat>, k: Frames, e: nat, i: nat, d: nat, t: nat, k': Frames)
    requires Ok(managed, k, {}, {}) && Directory(k, e) == d && i < NPDENTRIES && TableAt(k, e, i).Present? && TableAt(k, e, i).frame == t
    requires d < |k.mem| && i < |k.mem[d]| && Decref(k.(mem := SetEntry(k.mem, d, i, Absent)), t, k')
    requires k'.envs == k.envs && k'.mem == SetEntry(k.mem, d, i, Absent)
    requires forall j: nat {:trigger Maps(k, e, i, j)} :: Maps(k, e, i, j).Absent?
    ensures Ok(managed, k', {}, {}) && SameSpaces(k, k') && KeptPlain(k, k')
    ensures forall e2: nat, i2: nat {:trigger TableAt(k', e2, i2)} :: TableAt(k', e2, i2) == if e2 == e && i2 == i then Absent else TableAt(k, e2, i2)
    ensures forall e2: nat {:trigger Directory(k', e2)} :: Directory(k', e2) == Directory(k, e2)
  {
    assert Decref(k, t, k');
    hide Ok, SameSpaces, KeptPlain, Directory, TableAt, Decref, Maps;
    TableDroppedOk(managed, k, e, i, d, t, k');
  }

  lemma KeptRefl(managed: set<nat>, k: Frames)
    ensures Kept(managed, k, k) && KeptPlain(k, k)
  {
  }

  lemma TablesSame(k: Frames, k': Frames, e: nat, i: nat)
    requires SameTables(k, k')
    ensures TableAt(k', e, i) == TableAt(k, e, i)
  {
  }

  lemma TablesSameDir(k: Frames, k': Frames)
    requires SameTables(k, k')
    ensures forall e: nat {:trigger Directory(k', e)} {:trigger Directory(k, e)} :: Directory(k', e) == Directory(k, e)
  {
  }

  lemma DirSame(k: Frames, k': Frames, e: nat)
    requires SameTables(k, k')
    ensures Directory(k', e) == Directory(k, e)
  {
  }

  lemma SpacesTwice(k: Frames, k': Frames, k'': Frames)
    requires SameSpaces(k, k') && SameSpaces(k', k'')
    ensures SameSpaces(k, k'')
  {
    hide Maps;
    forall e: nat, i: nat, j: nat ensures Maps(k'', e, i, j) == Maps(k, e, i, j) {
      assert Maps(k', e, i, j) == Maps(k, e, i, j);
    }
  }

  lemma ChangeAt(k: Frames, k': Frames, e: nat, i: nat, j: nat, x: Entry)
    requires OneChange(k, k', e, i, j, x)
    ensures Maps(k', e, i, j) == x
  {
  }

  lemma NoChange(k: Frames, e: nat, i: nat, j: nat)
    requires Maps(k, e, i, j).Absent?
    ensures OneChange(k, k, e, i, j, Absent) && SameTables(k, k)
  {
  }

  lemma PinnedChange(k: Frames, k': Frames, k'': Frames, e: nat, i: nat, j: nat)
    requires SameSpaces(k, k') && OneChange(k', k'', e, i, j, Absent)
    ensures OneChange(k, k'', e, i, j, Absent)
  {
    hide Maps;
    forall e2: nat, i2: nat, j2: nat
      ensures Maps(k'', e2, i2, j2) == if e2 == e && i2 == i && j2 == j then Absent else Maps(k, e2, i2, j2)
    {
      assert Maps(k', e2, i2, j2) == Maps(k, e2, i2, j2);
    }
  }

  lemma PageRef(managed: set<nat>, k: Frames, held: set<nat>, f: nat)
    requires Ok(managed, k, held, {}) && f in held
    ensures f < |k.ref| && f < |k.mem|
  {
    hide Tables, IsList, Count, Listed;
    assert PageOk(k, held, {}, f);
  }

  /** Where the entry of a mapped page is, and what the accounting knows about the page. */
  lemma EntryOf(managed: set<nat>, k: Frames, held: set<nat>, pin: set<nat>, e: nat, i: nat, j: nat)
    requires Ok(managed, k, held, pin) && Directory(k, e) != -1 && i < NPDENTRIES && Maps(k, e, i, j).Present? && j < NPTENTRIES
    ensures e < |k.envs| && 0 <= k.envs[e] < |k.mem| && |k.mem[k.envs[e]]| == NPTENTRIES
    ensures TableAt(k, e, i).Present? && k.mem[k.envs[e]][i] == TableAt(k, e, i)
    ensures TableAt(k, e, i).frame < |k.mem| && |k.mem[TableAt(k, e, i).frame]| == NPTENTRIES
    ensures var f := Maps(k, e, i, j).frame;
      f < |k.ref| && f < |k.link| && k.ref[f] > 0 && k.link[f] == -1 && Refers(k, InPte(e, i, j), f)
  {
    hide Ok, Directory, TableAt, Maps;
    Bounds(managed, k, held, pin, e);
    if TableAt(k, e, i).Absent? {
      NoTable(k, e, i);
    }
    TableBounds(managed, k, held, pin, e, i);
    MapsRefers(k, e, i, j);
    InUse(managed, k, held, pin, InPte(e, i, j), Maps(k, e, i, j).frame);
  }

  lemma MapsRefers(k: Frames, e: nat, i: nat, j: nat)
    ensures Maps(k, e, i, j).Present? ==> Refers(k, InPte(e, i, j), Maps(k, e, i, j).frame)
  {
  }
}
