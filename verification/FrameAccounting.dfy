/**
  Frame accounting in JOS (kern/pmap.c): the reference count of every physical page and the free list
  that is threaded through the pages array.
 */
module FrameAccounting {
  import opened PageTables

  ghost predicate NoDup(s: seq<nat>) {
    forall i, j :: 0 <= i < j < |s| ==> s[i] != s[j]
  }

  /** The page after the one at position `i` of the list; -1 at the end. */
  function After(free: seq<nat>, i: nat): int {
    if i < |free| then free[i] else -1
  }

  ghost predicate LinkedAt(link: seq<int>, free: seq<nat>, i: nat)
    requires i < |free|
  {
    free[i] < |link| && link[free[i]] == After(free, i + 1)
  }

  /** The chain of pp_link pointers from page_free_list visits exactly the pages of `free`. */
  ghost predicate IsList(freeList: int, link: seq<int>, free: seq<nat>) {
    && freeList == After(free, 0) && NoDup(free)
    && forall i: nat {:trigger LinkedAt(link, free, i)} :: i < |free| ==> LinkedAt(link, free, i)
  }

  lemma PopList(freeList: int, link: seq<int>, free: seq<nat>)
    requires IsList(freeList, link, free) && free != []
    ensures free[0] < |link| && IsList(link[free[0]], link[free[0] := -1], free[1..])
    ensures forall g :: g in free[1..] <==> g in free && g != free[0]
  {
    assert LinkedAt(link, free, 0);
    var rest, link' := free[1..], link[free[0] := -1];
    forall i: nat | i < |rest| ensures LinkedAt(link', rest, i) && rest[i] != free[0] {
      assert LinkedAt(link, free, i + 1);
    }
    assert free == [free[0]] + rest;
  }

  lemma PushList(freeList: int, link: seq<int>, free: seq<nat>, f: nat)
    requires IsList(freeList, link, free) && f !in free && f < |link|
    ensures IsList(f, link[f := freeList], [f] + free)
  {
    var more, link' := [f] + free, link[f := freeList];
    forall i: nat | i < |more| ensures LinkedAt(link', more, i) {
      if i > 0 {
        assert LinkedAt(link, free, i - 1) && free[i - 1] in free;
      }
    }
  }

  /**
    The kernel's page state: pp_ref and pp_link of every page, page_free_list, the pages themselves and
    env_pgdir of every environment slot.  `free` is the free list that the links thread.
   */
  datatype Frames = Frames(ref: seq<int>, link: seq<int>, freeList: int, mem: Memory, envs: seq<int>, free: seq<nat>)

  /** How many directories, directory entries and page table entries refer to page `f`. */
  ghost function Count(k: Frames, f: nat): nat {
    |RefsTo(k.envs, k.mem, f)|
  }

  ghost predicate Listed(k: Frames, f: nat) {
    f in k.free
  }

  ghost predicate Refers(k: Frames, w: Where, f: nat) {
    Names(k.envs, k.mem, w, f)
  }

  /**
    A managed page counts the references to it, and is free exactly when there are none.  `held` are
    pages that a caller has taken from the list and not used yet; the count of a page in `pin` is one ahead.
   */
  ghost predicate PageOk(k: Frames, held: set<nat>, pin: set<nat>, f: nat) {
    && f < |k.ref| && f < |k.link|
    && k.ref[f] == Count(k, f) + (if f in pin then 1 else 0)
    && (Listed(k, f) <==> k.ref[f] == 0 && f !in held)
    && (!Listed(k, f) ==> k.link[f] == -1)
    && (f in held ==> k.ref[f] == 0)
  }

  /** Frame accounting. */
  ghost predicate Ok(managed: set<nat>, k: Frames, held: set<nat>, pin: set<nat>) {
    && |k.ref| == |k.mem| && |k.link| == |k.mem|
    && Tables(k.envs, k.mem, managed)
    && IsList(k.freeList, k.link, k.free)
    && (forall f: nat {:trigger PageOk(k, held, pin, f)} :: f in managed ==> PageOk(k, held, pin, f))
    && (forall f: nat {:trigger Listed(k, f)} :: Listed(k, f) ==> f in managed)
    && held <= managed
  }

  // ---------------------------------------------------------------------------------------------
  // What changes in the references.

  ghost predicate Gains(k: Frames, k': Frames, w0: Where, f: nat) {
    && !Refers(k, w0, f)
    && forall w, g: nat {:trigger Refers(k', w, g)} :: Refers(k', w, g) <==> Refers(k, w, g) || (w == w0 && g == f)
  }

  ghost predicate Loses(k: Frames, k': Frames, w0: Where, f: nat) {
    && Refers(k, w0, f)
    && forall w, g: nat {:trigger Refers(k', w, g)} :: Refers(k', w, g) <==> Refers(k, w, g) && !(w == w0 && g == f)
  }

  ghost predicate SameRefs(k: Frames, k': Frames) {
    forall w, g: nat {:trigger Refers(k', w, g)} :: Refers(k', w, g) <==> Refers(k, w, g)
  }

  lemma CountGains(k: Frames, k': Frames, w0: Where, f: nat, g: nat)
    requires Gains(k, k', w0, f)
    ensures Count(k', g) == Count(k, g) + if g == f then 1 else 0
  {
    forall w ensures Names(k'.envs, k'.mem, w, g) <==> Names(k.envs, k.mem, w, g) || (w == w0 && g == f) {
      assert Refers(k', w, g) <==> Refers(k, w, g) || (w == w0 && g == f);
    }
    hide Names, RefsTo;
    if g == f {
      RefsMore(k.envs, k.mem, k'.envs, k'.mem, f, w0);
    } else {
      RefsSame(k.envs, k.mem, k'.envs, k'.mem, g);
    }
  }

  lemma CountLoses(k: Frames, k': Frames, w0: Where, f: nat, g: nat)
    requires Loses(k, k', w0, f)
    ensures Count(k', g) == Count(k, g) - if g == f then 1 else 0
  {
    forall w ensures Names(k'.envs, k'.mem, w, g) <==> Names(k.envs, k.mem, w, g) && !(w == w0 && g == f) {
      assert Refers(k', w, g) <==> Refers(k, w, g) && !(w == w0 && g == f);
    }
    hide Names, RefsTo;
    if g == f {
      RefsFewer(k.envs, k.mem, k'.envs, k'.mem, f, w0);
    } else {
      RefsSame(k.envs, k.mem, k'.envs, k'.mem, g);
    }
  }

  lemma CountSame(k: Frames, k': Frames, g: nat)
    requires SameRefs(k, k')
    ensures Count(k', g) == Count(k, g)
  {
    forall w ensures Names(k'.envs, k'.mem, w, g) <==> Names(k.envs, k.mem, w, g) {
      assert Refers(k', w, g) <==> Refers(k, w, g);
    }
    hide Names, RefsTo;
    RefsSame(k.envs, k.mem, k'.envs, k'.mem, g);
  }

  /** A page is counted exactly when something refers to it. */
  lemma Referred(k: Frames, w: Where, f: nat)
    ensures Refers(k, w, f) ==> Count(k, f) > 0
  {
    hide Names, RefsTo;
    RefsIff(k.envs, k.mem, f, w);
    assert Refers(k, w, f) ==> w in RefsTo(k.envs, k.mem, f);
  }

  lemma Unreferred(k: Frames, f: nat, w: Where)
    requires Count(k, f) == 0
    ensures !Refers(k, w, f)
  {
    NoRefs(k.envs, k.mem, f);
  }

  /** A page that something refers to is managed, in use, and not on the list. */
  lemma InUse(managed: set<nat>, k: Frames, held: set<nat>, pin: set<nat>, w: Where, f: nat)
    requires Ok(managed, k, held, pin) && Refers(k, w, f)
    ensures f in managed && f < |k.ref| && f < |k.link| && k.ref[f] > 0 && f !in k.free && f !in held && k.link[f] == -1
  {
    Referred(k, w, f);
    assert Names(k.envs, k.mem, w, f) && f in managed;
    hide Tables, IsList, RefsTo, Names;
    assert PageOk(k, held, pin, f);
  }

  // ---------------------------------------------------------------------------------------------
  // What keeps the accounting.

  /** The list after page_decref of `f`. */
  ghost predicate Decref(k: Frames, f: nat, k': Frames) {
    && f < |k.ref| && f < |k.link|
    && k'.ref == k.ref[f := k.ref[f] - 1]
    && if k.ref[f] == 1 then k'.link == k.link[f := k.freeList] && k'.freeList == f && k'.free == [f] + k.free
       else k'.link == k.link && k'.freeList == k.freeList && k'.free == k.free
  }

  lemma DecrefList(k: Frames, f: nat, k': Frames)
    requires Decref(k, f, k') && IsList(k.freeList, k.link, k.free) && f !in k.free
    ensures IsList(k'.freeList, k'.link, k'.free)
    ensures forall g: nat {:trigger Listed(k', g)} :: Listed(k', g) <==> Listed(k, g) || (g == f && k.ref[f] == 1)
  {
    hide IsList;
    PushList(k.freeList, k.link, k.free, f);
  }

  lemma DecrefPage(k: Frames, held: set<nat>, pin: set<nat>, f: nat, w0: Where, k': Frames, g: nat)
    requires PageOk(k, held, pin, g) && PageOk(k, held, pin, f) && Decref(k, f, k') && Loses(k, k', w0, f)
    requires Listed(k', g) <==> Listed(k, g) || (g == f && k.ref[f] == 1)
    ensures PageOk(k', held, pin, g)
  {
    CountLoses(k, k', w0, f, g);
    Referred(k, w0, f);
    hide Count, Listed, Loses;
  }

  /** One reference less, and the page goes on the free list when that was the last. */
  lemma DecrefOk(managed: set<nat>, k: Frames, held: set<nat>, pin: set<nat>, f: nat, w0: Where, k': Frames)
    requires Ok(managed, k, held, pin) && Loses(k, k', w0, f) && Decref(k, f, k')
    requires |k'.mem| == |k.mem| && Tables(k'.envs, k'.mem, managed)
    ensures Ok(managed, k', held, pin)
  {
    InUse(managed, k, held, pin, w0, f);
    DecrefList(k, f, k');
    hide Tables, IsList, Listed, PageOk, Loses;
    assert PageOk(k, held, pin, f);
    forall g: nat | g in managed ensures PageOk(k', held, pin, g) {
      assert PageOk(k, held, pin, g);
      assert Listed(k', g) <==> Listed(k, g) || (g == f && k.ref[f] == 1);
      DecrefPage(k, held, pin, f, w0, k', g);
    }
    forall g: nat | Listed(k', g) ensures g in managed {
      assert Listed(k, g) || g == f;
    }
  }

  /** The pages of the list and its links have not changed. */
  ghost predicate SameList(k: Frames, k': Frames) {
    k'.link == k.link && k'.freeList == k.freeList && k'.free == k.free
  }

  lemma ListedSame(k: Frames, k': Frames, g: nat)
    requires SameList(k, k')
    ensures Listed(k', g) <==> Listed(k, g)
  {
  }

  lemma IncrefPage(k: Frames, held: set<nat>, f: nat, w0: Where, k': Frames, g: nat)
    requires PageOk(k, held, {}, g) && Gains(k, k', w0, f) && SameList(k, k') && !Listed(k, f)
    requires f < |k.ref| && k'.ref == k.ref[f := k.ref[f] + 1]
    ensures PageOk(k', held - {f}, {}, g)
  {
    CountGains(k, k', w0, f, g);
    ListedSame(k, k', g);
    hide Count, Listed, Gains;
  }

  /** A new place refers to a page: a held page gets its first reference. */
  lemma IncrefOk(managed: set<nat>, k: Frames, held: set<nat>, f: nat, w0: Where, k': Frames)
    requires Ok(managed, k, held, {}) && f in managed && !Listed(k, f) && Gains(k, k', w0, f) && SameList(k, k')
    requires f < |k.ref| && k'.ref == k.ref[f := k.ref[f] + 1]
    requires |k'.mem| == |k.mem| && Tables(k'.envs, k'.mem, managed)
    ensures Ok(managed, k', held - {f}, {})
  {
    hide Tables, IsList, Listed, PageOk, Gains;
    forall g: nat | g in managed ensures PageOk(k', held - {f}, {}, g) {
      assert PageOk(k, held, {}, g);
      IncrefPage(k, held, f, w0, k', g);
    }
    forall g: nat | Listed(k', g) ensures g in managed {
      ListedSame(k, k', g);
    }
  }

  lemma PinPage(k: Frames, held: set<nat>, f: nat, k': Frames, g: nat)
    requires PageOk(k, held, {}, g) && !Listed(k, f)
    requires f < |k.ref| && k' == k.(ref := k.ref[f := k.ref[f] + 1])
    ensures PageOk(k', held - {f}, {f}, g)
  {
    assert SameRefs(k, k');
    CountSame(k, k', g);
    ListedSame(k, k', g);
    hide Count, Listed;
  }

  /** The count of a page goes up before the entry is written. */
  lemma PinOk(managed: set<nat>, k: Frames, held: set<nat>, f: nat, k': Frames)
    requires Ok(managed, k, held, {}) && f in managed && !Listed(k, f)
    requires f < |k.ref| && k' == k.(ref := k.ref[f := k.ref[f] + 1])
    ensures Ok(managed, k', held - {f}, {f})
  {
    hide Tables, IsList, Listed, PageOk;
    forall g: nat | g in managed ensures PageOk(k', held - {f}, {f}, g) {
      assert PageOk(k, held, {}, g);
      PinPage(k, held, f, k', g);
    }
    forall g: nat | Listed(k', g) ensures g in managed {
      ListedSame(k, k', g);
    }
  }

  lemma UnpinPage(k: Frames, held: set<nat>, f: nat, w0: Where, k': Frames, g: nat)
    requires PageOk(k, held, {f}, g) && Gains(k, k', w0, f) && SameList(k, k') && k'.ref == k.ref
    ensures PageOk(k', held, {}, g)
  {
    CountGains(k, k', w0, f, g);
    ListedSame(k, k', g);
    hide Count, Listed, Gains;
  }

  /** A pinned page gets the reference that its count already has. */
  lemma UnpinOk(managed: set<nat>, k: Frames, held: set<nat>, f: nat, w0: Where, k': Frames)
    requires Ok(managed, k, held, {f}) && Gains(k, k', w0, f) && SameList(k, k') && k'.ref == k.ref
    requires |k'.mem| == |k.mem| && Tables(k'.envs, k'.mem, managed)
    ensures Ok(managed, k', held, {})
  {
    hide Tables, IsList, Listed, PageOk, Gains;
    forall g: nat | g in managed ensures PageOk(k', held, {}, g) {
      assert PageOk(k, held, {f}, g);
      UnpinPage(k, held, f, w0, k', g);
    }
    forall g: nat | Listed(k', g) ensures g in managed {
      ListedSame(k, k', g);
    }
  }

  lemma SamePage(k: Frames, held: set<nat>, pin: set<nat>, k': Frames, g: nat)
    requires PageOk(k, held, pin, g) && SameRefs(k, k') && SameList(k, k') && k'.ref == k.ref
    ensures PageOk(k', held, pin, g)
  {
    CountSame(k, k', g);
    ListedSame(k, k', g);
    hide Count, Listed, SameRefs;
  }

  /** References have not changed. */
  lemma SameOk(managed: set<nat>, k: Frames, held: set<nat>, pin: set<nat>, k': Frames)
    requires Ok(managed, k, held, pin) && SameRefs(k, k') && SameList(k, k') && k'.ref == k.ref
    requires |k'.mem| == |k.mem| && Tables(k'.envs, k'.mem, managed)
    ensures Ok(managed, k', held, pin)
  {
    hide Tables, IsList, Listed, PageOk, SameRefs;
    forall g: nat | g in managed ensures PageOk(k', held, pin, g) {
      assert PageOk(k, held, pin, g);
      SamePage(k, held, pin, k', g);
    }
    forall g: nat | Listed(k', g) ensures g in managed {
      ListedSame(k, k', g);
    }
  }

  /** The list after page_alloc took its first page `f` and cleared it. */
  ghost predicate Popped(k: Frames, f: nat, k': Frames) {
    && f == k.freeList && f < |k.link| && f < |k.mem|
    && k'.ref == k.ref && k'.link == k.link[f := -1] && k'.freeList == k.link[f]
    && k'.mem == k.mem[f := Zeroes(k.mem[f])] && k'.envs == k.envs
    && k'.free == if k.free == [] then [] else k.free[1..]
  }

  lemma PoppedList(k: Frames, f: nat, k': Frames)
    requires Popped(k, f, k') && IsList(k.freeList, k.link, k.free)
    ensures IsList(k'.freeList, k'.link, k'.free) && Listed(k, f) && k.free != []
    ensures forall g: nat {:trigger Listed(k', g)} :: Listed(k', g) <==> Listed(k, g) && g != f
  {
    assert k.free != [] && f == k.free[0];
    PopList(k.freeList, k.link, k.free);
    hide IsList;
  }

  lemma PoppedPage(k: Frames, held: set<nat>, pin: set<nat>, f: nat, k': Frames, g: nat)
    requires PageOk(k, held, pin, g) && SameRefs(k, k') && Popped(k, f, k') && PageOk(k, held, pin, f) && Listed(k, f)
    requires Listed(k', g) <==> Listed(k, g) && g != f
    ensures PageOk(k', held + {f}, pin, g)
  {
    CountSame(k, k', g);
    hide Count, Listed, SameRefs;
  }

  /** What page_alloc guarantees about the page it returns: nobody refers to it. */
  lemma PoppedRefs(managed: set<nat>, k: Frames, held: set<nat>, pin: set<nat>, f: nat, k': Frames)
    requires Ok(managed, k, held, pin) && Popped(k, f, k')
    ensures f in managed && f !in held && f !in pin && Listed(k, f) && SameRefs(k, k')
    ensures Tables(k'.envs, k'.mem, managed) && AllSame(k.envs, k.mem, k'.envs, k'.mem)
    ensures forall e: nat, i: nat :: Pde(k'.envs, k'.mem, e, i) == Pde(k.envs, k.mem, e, i)
    ensures forall w {:trigger Refers(k', w, f)} :: !Refers(k', w, f)
  {
    PoppedList(k, f, k');
    assert PageOk(k, held, pin, f);
    forall w ensures !Names(k.envs, k.mem, w, f) {
      Unreferred(k, f, w);
      assert !Refers(k, w, f);
    }
    assert |k.mem[f]| == NPTENTRIES;
    hide Tables, IsList, Names, Pde, Listed, AllSame;
    WritePage(k.envs, k.mem, managed, f, k'.mem[f]);
  }

  lemma PoppedOk(managed: set<nat>, k: Frames, held: set<nat>, pin: set<nat>, f: nat, k': Frames)
    requires Ok(managed, k, held, pin) && Popped(k, f, k')
    ensures Ok(managed, k', held + {f}, pin)
  {
    PoppedRefs(managed, k, held, pin, f, k');
    PoppedList(k, f, k');
    hide Tables, IsList, Listed, PageOk, SameRefs, AllSame, Pde;
    assert PageOk(k, held, pin, f);
    forall g: nat | g in managed ensures PageOk(k', held + {f}, pin, g) {
      assert PageOk(k, held, pin, g);
      assert Listed(k', g) <==> Listed(k, g) && g != f;
      PoppedPage(k, held, pin, f, k', g);
    }
    forall g: nat | Listed(k', g) ensures g in managed {
      assert Listed(k, g);
    }
  }

  /** The list after page_free of `f`. */
  ghost predicate Pushed(k: Frames, f: nat, k': Frames) {
    f < |k.link| && k' == k.(link := k.link[f := k.freeList], freeList := f, free := [f] + k.free)
  }

  lemma PushedPage(k: Frames, held: set<nat>, pin: set<nat>, f: nat, k': Frames, g: nat)
    requires PageOk(k, held, pin, g) && Pushed(k, f, k') && f in held
    ensures PageOk(k', held - {f}, pin, g)
  {
    assert SameRefs(k, k');
    CountSame(k, k', g);
    assert Listed(k', g) <==> Listed(k, g) || g == f;
    hide Count, Listed;
  }

  lemma PushedOk(managed: set<nat>, k: Frames, held: set<nat>, pin: set<nat>, f: nat, k': Frames)
    requires Ok(managed, k, held, pin) && Pushed(k, f, k') && f in held
    ensures Ok(managed, k', held - {f}, pin)
  {
    assert PageOk(k, held, pin, f);
    PushList(k.freeList, k.link, k.free, f);
    forall g: nat | Listed(k', g) ensures g in managed {
      assert Listed(k, g) || g == f;
    }
    hide Tables, IsList, Listed, PageOk;
    forall g: nat | g in managed ensures PageOk(k', held - {f}, pin, g) {
      assert PageOk(k, held, pin, g);
      PushedPage(k, held, pin, f, k', g);
    }
  }

  // ---------------------------------------------------------------------------------------------
  // What the accounting means.

  /** A managed page is on the free list exactly when no directory, table or user mapping refers to it. */
  lemma FreeIffUnreferred(managed: set<nat>, k: Frames, f: nat)
    requires Ok(managed, k, {}, {}) && f in managed
    ensures f in k.free <==> forall w :: !Names(k.envs, k.mem, w, f)
  {
    assert PageOk(k, {}, {}, f);
    hide Tables, IsList, Names, RefsTo;
    if f in k.free {
      forall w ensures !Names(k.envs, k.mem, w, f) {
        Unreferred(k, f, w);
        assert !Refers(k, w, f);
      }
    } else {
      assert RefsTo(k.envs, k.mem, f) != {};
      var w :| w in RefsTo(k.envs, k.mem, f);
      RefsIff(k.envs, k.mem, f, w);
    }
  }

  /** No page leaks: once every environment is gone, every managed page is back on the list. */
  lemma NothingLeaks(managed: set<nat>, k: Frames, f: nat)
    requires Ok(managed, k, {}, {}) && f in managed && forall e: nat :: e < |k.envs| ==> k.envs[e] == -1
    ensures f in k.free
  {
    FreeIffUnreferred(managed, k, f);
    forall e: nat ensures DirOf(k.envs, k.mem, e) == -1 {
    }
    forall w ensures !Names(k.envs, k.mem, w, f) {
    }
  }
}
