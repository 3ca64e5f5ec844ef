/**
  Copy-on-write fork of JOS, lib/fork.c, as a machine whose steps are the system calls that fork and
  pgfault make and the writes of user programs.  Steps of different processes may interleave in any
  order; a fork or a page fault is not atomic.  The pages at UXSTACK are mapped like others; a fault is handled
  whether the faulting process has one or not, which only adds runs.
 */
module CowFork {

  type Env = nat
  type Page = map<nat, int>

  /** A user mapping: the physical page and the permission bits PTE_W, PTE_COW and PTE_SHARE. */
  datatype Pte = Pte(frame: nat, w: bool, cow: bool, share: bool)

  /** How far the page-fault handler is: it has its page at PFTEMP, and it may have copied into it. */
  datatype Fault = NoFault | Copying(va: nat, copied: bool)

  /** How far fork is: `pn` is the next page; with `half`, the child has it and the parent must still remap it. */
  datatype Fork = NotForking | Forking(child: Env, pn: nat, half: bool)

  datatype Proc = Proc(pt: map<nat, Pte>, fault: Fault, fork: Fork, runnable: bool)

  datatype State = State(procs: map<Env, Proc>, mem: map<nat, Page>)

  // Page numbers of inc/memlayout.h.
  const PFTEMP: nat := 0x7FF
  const UTEXT: nat := 0x800
  const USTACKTOP: nat := 0xEEBFE
  const UXSTACK: nat := 0xEEBFF
  const STACK: nat := 0xEEBFD      // the page below USTACKTOP

  datatype Action =
    | Write(e: Env, va: nat, off: nat, x: int)     // a store to a writable page, PFTEMP included
    | FaultAlloc(e: Env, va: nat, f: nat)          // a store to a copy-on-write page: sys_page_alloc at PFTEMP
    | FaultCopy(e: Env)                            // memcpy to PFTEMP
    | FaultMap(e: Env)                             // sys_page_map from PFTEMP
    | ForkStart(e: Env, c: Env)                    // sys_exofork
    | DupSkip(e: Env)                              // the page is not mapped
    | DupChild(e: Env)                             // duppage: the mapping of the child
    | DupSelf(e: Env)                              // duppage: the parent's mapping becomes copy-on-write
    | ForkEnd(e: Env, f: nat)                      // the child's exception stack; the child becomes runnable

  /** `e` has a page at `va`. */
  predicate Maps(s: State, e: Env, va: nat) {
    e in s.procs && va in s.procs[e].pt
  }

  function At(s: State, e: Env, va: nat): Pte
    requires Maps(s, e, va)
  {
    s.procs[e].pt[va]
  }

  /** No process has `f` mapped. */
  ghost predicate Unmapped(s: State, f: nat) {
    forall e: Env, va: nat {:trigger Maps(s, e, va)} :: Maps(s, e, va) ==> At(s, e, va).frame != f
  }

  /** What process `e` reads at page `va`. */
  function View(s: State, e: Env, va: nat): Page
    requires Maps(s, e, va) && At(s, e, va).frame in s.mem
  {
    s.mem[At(s, e, va).frame]
  }

  predicate IsForking(s: State, e: Env) {
    e in s.procs && s.procs[e].fork.Forking?
  }

  predicate CanRun(s: State, e: Env) {
    e in s.procs && s.procs[e].runnable
  }

  /** The page of the child for a page of the parent: shared as it is, copy-on-write, or read-only. */
  function DupPerm(p: Pte): Pte {
    if p.share then p else Pte(p.frame, false, p.w || p.cow, false)
  }

  /** The permission test of duppage: the page must become copy-on-write on both sides. */
  predicate NeedsCow(p: Pte) {
    !p.share && (p.w || p.cow)
  }

  ghost predicate Enabled(s: State, a: Action) {
    CanRun(s, a.e) &&
    var p := s.procs[a.e];
    match a
    case Write(e, va, _, _) =>
      p.fault.NoFault? && va in p.pt && p.pt[va].w && p.pt[va].frame in s.mem
    case FaultAlloc(e, va, f) =>
      p.fault.NoFault? && va != PFTEMP && va in p.pt && !p.pt[va].w && p.pt[va].cow && Unmapped(s, f)
    case FaultCopy(e) =>
      p.fault.Copying? && !p.fault.copied && p.fault.va in p.pt && p.pt[p.fault.va].frame in s.mem && PFTEMP in p.pt
    case FaultMap(e) => p.fault.Copying? && p.fault.copied && PFTEMP in p.pt
    case ForkStart(e, c) => p.fork.NotForking? && p.fault.NoFault? && c !in s.procs
    case DupSkip(e) => p.fork.Forking? && p.fault.NoFault? && !p.fork.half && p.fork.pn < USTACKTOP && p.fork.pn !in p.pt
    case DupChild(e) =>
      p.fork.Forking? && p.fault.NoFault? && !p.fork.half && p.fork.pn < USTACKTOP && p.fork.pn in p.pt && p.fork.child in s.procs
    case DupSelf(e) => p.fork.Forking? && p.fault.NoFault? && p.fork.half && p.fork.pn in p.pt
    case ForkEnd(e, f) =>
      p.fork.Forking? && p.fault.NoFault? && !p.fork.half && p.fork.pn == USTACKTOP && p.fork.child in s.procs && Unmapped(s, f)
  }

  function Store(pg: Page, off: nat, x: int): Page {
    pg[off := x]
  }

  function SetProc(s: State, e: Env, p: Proc): State {
    s.(procs := s.procs[e := p])
  }

  ghost function Next(s: State, a: Action): State
    requires Enabled(s, a)
  {
    var p := s.procs[a.e];
    match a
    case Write(e, va, off, x) => s.(mem := s.mem[p.pt[va].frame := Store(s.mem[p.pt[va].frame], off, x)])
    case FaultAlloc(e, va, f) =>
      SetProc(s, e, p.(pt := p.pt[PFTEMP := Pte(f, true, false, false)], fault := Copying(va, false))).(mem := s.mem[f := map[]])
    case FaultCopy(e) =>
      SetProc(s, e, p.(fault := p.fault.(copied := true))).(mem := s.mem[p.pt[PFTEMP].frame := s.mem[p.pt[p.fault.va].frame]])
    case FaultMap(e) =>
      SetProc(s, e, p.(pt := p.pt[p.fault.va := Pte(p.pt[PFTEMP].frame, true, false, false)], fault := NoFault))
    case ForkStart(e, c) =>
      SetProc(SetProc(s, c, Proc(map[], NoFault, NotForking, false)), e, p.(fork := Forking(c, UTEXT, false)))
    case DupSkip(e) => SetProc(s, e, p.(fork := p.fork.(pn := p.fork.pn + 1)))
    case DupChild(e) =>
      var pn, c := p.fork.pn, p.fork.child;
      var s1 := SetProc(s, c, s.procs[c].(pt := s.procs[c].pt[pn := DupPerm(p.pt[pn])]));
      SetProc(s1, e, p.(fork := if NeedsCow(p.pt[pn]) then p.fork.(half := true) else p.fork.(pn := pn + 1)))
    case DupSelf(e) =>
      var pn := p.fork.pn;
      SetProc(s, e, p.(pt := p.pt[pn := Pte(p.pt[pn].frame, false, true, false)], fork := p.fork.(pn := pn + 1, half := false)))
    case ForkEnd(e, f) =>
      var c := p.fork.child;
      var q := s.procs[c];
      var s1 := SetProc(s, c, q.(pt := q.pt[UXSTACK := Pte(f, true, false, false)], runnable := true));
      SetProc(s1, e, p.(fork := NotForking)).(mem := s.mem[f := map[]])
  }

  // ---------------------------------------------------------------------------------------------
  // The invariant.

  /** The mapping points to memory and its bits make sense. */
  ghost predicate GoodPte(s: State, e: Env, va: nat)
    requires Maps(s, e, va)
  {
    var p := At(s, e, va);
    p.frame in s.mem && !(p.w && p.cow) && (p.share ==> !p.cow) && (va == PFTEMP ==> !p.share)
  }

  /** Between the two halves of duppage, the child already has the page that the parent can still write. */
  ghost predicate Window(s: State, e: Env, c: Env, va: nat) {
    e in s.procs && s.procs[e].fork == Forking(c, va, true)
  }

  /** Two mappings of one page: both shared or both private; a writable private page has no other reader. */
  ghost predicate Apart(s: State, e1: Env, v1: nat, e2: Env, v2: nat)
    requires Maps(s, e1, v1) && Maps(s, e2, v2)
  {
    var p, q := At(s, e1, v1), At(s, e2, v2);
    p.frame == q.frame && (e1 != e2 || v1 != v2) ==>
      && p.share == q.share && (v1 != PFTEMP || v2 != PFTEMP)
      && (p.w && !p.share && v1 != PFTEMP ==> (e2 == e1 && v2 == PFTEMP) || (v1 == v2 && Window(s, e1, e2, v1)))
  }

  /** While the handler works, its new page is its own. */
  ghost predicate GoodFault(s: State, e: Env)
    requires e in s.procs
  {
    var p := s.procs[e];
    p.fault.Copying? ==>
      && p.runnable && p.fault.va != PFTEMP && p.fault.va in p.pt && p.pt[p.fault.va].cow
      && PFTEMP in p.pt && p.pt[PFTEMP].w && !p.pt[PFTEMP].share
      && p.pt[PFTEMP].frame in s.mem && p.pt[p.fault.va].frame in s.mem
  }

  /** Once the handler has copied, its page holds what the old page holds. */
  ghost predicate HasCopy(s: State, e: Env)
    requires e in s.procs && GoodFault(s, e)
  {
    var p := s.procs[e];
    p.fault.Copying? && p.fault.copied ==> s.mem[p.pt[PFTEMP].frame] == s.mem[p.pt[p.fault.va].frame]
  }

  ghost predicate OwnTemp(s: State, e: Env, e2: Env, v2: nat)
    requires e in s.procs && Maps(s, e2, v2)
  {
    s.procs[e].fault.Copying? && PFTEMP in s.procs[e].pt && At(s, e2, v2).frame == s.procs[e].pt[PFTEMP].frame ==>
      e2 == e && v2 == PFTEMP
  }

  /** A child being made belongs to one parent, is not running, and has the pages up to where duppage is. */
  ghost predicate GoodFork(s: State, e: Env)
    requires e in s.procs
  {
    var p := s.procs[e];
    p.fork.Forking? ==>
      var c := p.fork.child;
      && c != e && c in s.procs && !s.procs[c].runnable && s.procs[c].fault.NoFault? && s.procs[c].fork.NotForking?
      && UTEXT <= p.fork.pn <= USTACKTOP && (p.fork.half ==> p.fork.pn < USTACKTOP && p.fork.pn in p.pt && NeedsCow(p.pt[p.fork.pn]))
      && (forall e2: Env {:trigger IsForking(s, e2)} :: IsForking(s, e2) && e2 != e ==> s.procs[e2].fork.child != c)
      && (forall va: nat {:trigger Maps(s, c, va)} :: Maps(s, c, va) ==> va < p.fork.pn || (p.fork.half && va == p.fork.pn))
  }

  /** A page of a process that is still being made. */
  ghost predicate Fresh(s: State, e: Env, va: nat)
    requires Maps(s, e, va)
  {
    !s.procs[e].runnable && IsChild(s, e) ==> UTEXT <= va < USTACKTOP && (At(s, e, va).share || !At(s, e, va).w)
  }

  ghost predicate IsChild(s: State, c: Env) {
    exists e: Env :: IsForking(s, e) && s.procs[e].fork.child == c
  }

  ghost predicate AllPtes(s: State) {
    forall e: Env, va: nat {:trigger Maps(s, e, va)} :: Maps(s, e, va) ==> GoodPte(s, e, va) && Fresh(s, e, va)
  }

  ghost predicate AllApart(s: State) {
    forall e1: Env, v1: nat, e2: Env, v2: nat {:trigger Maps(s, e1, v1), Maps(s, e2, v2)} ::
      Maps(s, e1, v1) && Maps(s, e2, v2) ==> Apart(s, e1, v1, e2, v2)
  }

  ghost predicate AllProcs(s: State) {
    forall e: Env {:trigger GoodFault(s, e)} {:trigger GoodFork(s, e)} :: e in s.procs ==> GoodFault(s, e) && GoodFork(s, e)
  }

  ghost predicate AllTemps(s: State) {
    forall e: Env, e2: Env, v2: nat {:trigger OwnTemp(s, e, e2, v2)} :: e in s.procs && Maps(s, e2, v2) ==> OwnTemp(s, e, e2, v2)
  }

  ghost predicate Inv(s: State) {
    AllPtes(s) && AllApart(s) && AllProcs(s) && AllTemps(s)
  }

  /** One process, each of whose pages is its own and has bits that make sense. */
  lemma InitialInv(e: Env, pt: map<nat, Pte>, mem: map<nat, Page>)
    requires forall va :: va in pt ==> pt[va].frame in mem && va != PFTEMP
    requires forall va :: va in pt ==> !(pt[va].w && pt[va].cow) && (pt[va].share ==> !pt[va].cow)
    requires forall v1, v2 :: v1 in pt && v2 in pt && v1 != v2 ==> pt[v1].frame != pt[v2].frame
    ensures Inv(State(map[e := Proc(pt, NoFault, NotForking, true)], mem))
    ensures AllCopied(State(map[e := Proc(pt, NoFault, NotForking, true)], mem))
  {
    var s := State(map[e := Proc(pt, NoFault, NotForking, true)], mem);
    forall e2: Env, va: nat | Maps(s, e2, va) ensures GoodPte(s, e2, va) && Fresh(s, e2, va) {
    }
    forall e2: Env | e2 in s.procs ensures GoodFault(s, e2) && GoodFork(s, e2) {
    }
  }

  // ---------------------------------------------------------------------------------------------
  // Every step keeps the invariant.

  lemma WriteStep(s: State, a: Action)
    requires Inv(s) && a.Write? && Enabled(s, a)
    ensures Inv(Next(s, a))
  {
    var s' := Next(s, a);
    var e, va := a.e, a.va;
    assert Maps(s, e, va);
    assert forall e2: Env, v2: nat :: Maps(s', e2, v2) <==> Maps(s, e2, v2);
    forall e2: Env, v2: nat | Maps(s', e2, v2) ensures GoodPte(s', e2, v2) && Fresh(s', e2, v2) {
      assert GoodPte(s, e2, v2) && Fresh(s, e2, v2);
    }
    forall e1: Env, v1: nat, e2: Env, v2: nat | Maps(s', e1, v1) && Maps(s', e2, v2) ensures Apart(s', e1, v1, e2, v2) {
      assert Apart(s, e1, v1, e2, v2);
    }
    forall e0: Env | e0 in s'.procs ensures GoodFault(s', e0) && GoodFork(s', e0) {
      assert GoodFault(s, e0) && GoodFork(s, e0);
      assert forall e2: Env :: IsForking(s', e2) ==> IsForking(s, e2);
    }
    forall e0: Env, e2: Env, v2: nat | e0 in s'.procs && Maps(s', e2, v2) ensures OwnTemp(s', e0, e2, v2) {
      assert OwnTemp(s, e0, e2, v2);
    }
  }

  /** The handler's page is new, so it disturbs nobody. */
  lemma FaultAllocPages(s: State, a: Action)
    requires Inv(s) && a.FaultAlloc? && Enabled(s, a)
    ensures AllPtes(Next(s, a)) && AllApart(Next(s, a))
  {
    var s' := Next(s, a);
    var e := a.e;
    assert GoodFault(s, e) && GoodFork(s, e);
    assert Maps(s, e, a.va);
    assert forall e2: Env :: IsForking(s', e2) ==> IsForking(s, e2);
    forall e2: Env, v2: nat | Maps(s', e2, v2) ensures GoodPte(s', e2, v2) && Fresh(s', e2, v2) {
      if e2 != e || v2 != PFTEMP {
        assert Maps(s, e2, v2) && GoodPte(s, e2, v2) && Fresh(s, e2, v2);
      }
    }
    forall e1: Env, v1: nat, e2: Env, v2: nat | Maps(s', e1, v1) && Maps(s', e2, v2) ensures Apart(s', e1, v1, e2, v2) {
      var old1, old2 := e1 != e || v1 != PFTEMP, e2 != e || v2 != PFTEMP;
      assert old1 ==> Maps(s, e1, v1);
      assert old2 ==> Maps(s, e2, v2);
      assert old1 && old2 ==> Apart(s, e1, v1, e2, v2);
    }
  }

  lemma FaultAllocProcs(s: State, a: Action)
    requires Inv(s) && a.FaultAlloc? && Enabled(s, a)
    ensures AllProcs(Next(s, a))
  {
    var s' := Next(s, a);
    var e := a.e;
    assert GoodFault(s, e) && GoodFork(s, e);
    assert Maps(s, e, a.va);
    assert forall e2: Env :: IsForking(s', e2) ==> IsForking(s, e2);
    assert forall e2: Env, v2: nat {:trigger Maps(s', e2, v2)} :: Maps(s', e2, v2) && e2 != e ==> Maps(s, e2, v2);
    forall e0: Env | e0 in s'.procs ensures GoodFault(s', e0) && GoodFork(s', e0) {
      assert GoodFault(s, e0) && GoodFork(s, e0);
      if e0 != e && s.procs[e0].fault.Copying? {
        assert Maps(s, e0, PFTEMP) && Maps(s, e0, s.procs[e0].fault.va);
      }
      if e0 == e {
        assert GoodPte(s, e, a.va);
      }
    }
  }

  lemma FaultAllocTemps(s: State, a: Action)
    requires AllProcs(s) && AllTemps(s) && a.FaultAlloc? && Enabled(s, a)
    ensures AllTemps(Next(s, a))
  {
    var s' := Next(s, a);
    var e := a.e;
    assert GoodFault(s, e) && GoodFork(s, e);
    assert Maps(s, e, a.va);
    forall e0: Env, e2: Env, v2: nat | e0 in s'.procs && Maps(s', e2, v2) ensures OwnTemp(s', e0, e2, v2) {
      var old2 := e2 != e || v2 != PFTEMP;
      assert old2 ==> Maps(s, e2, v2) && OwnTemp(s, e0, e2, v2);
      if e0 != e && s.procs[e0].fault.Copying? {
        assert GoodFault(s, e0) && Maps(s, e0, PFTEMP);
      }
    }
  }

  lemma FaultAllocStep(s: State, a: Action)
    requires Inv(s) && a.FaultAlloc? && Enabled(s, a)
    ensures Inv(Next(s, a))
  {
    FaultAllocPages(s, a);
    FaultAllocProcs(s, a);
    FaultAllocTemps(s, a);
  }

  /** The copy goes to a page that only the handler has. */
  lemma FaultCopyPages(s: State, a: Action)
    requires Inv(s) && a.FaultCopy? && Enabled(s, a)
    ensures AllPtes(Next(s, a)) && AllApart(Next(s, a))
  {
    var s' := Next(s, a);
    var e := a.e;
    assert GoodFault(s, e) && GoodFork(s, e);
    assert Maps(s, e, s.procs[e].fault.va) && Maps(s, e, PFTEMP);
    assert forall e2: Env :: IsForking(s', e2) ==> IsForking(s, e2);
    forall e2: Env, v2: nat | Maps(s', e2, v2) ensures GoodPte(s', e2, v2) && Fresh(s', e2, v2) {
      assert Maps(s, e2, v2) && GoodPte(s, e2, v2) && Fresh(s, e2, v2);
    }
    forall e1: Env, v1: nat, e2: Env, v2: nat | Maps(s', e1, v1) && Maps(s', e2, v2) ensures Apart(s', e1, v1, e2, v2) {
      assert Maps(s, e1, v1) && Maps(s, e2, v2) && Apart(s, e1, v1, e2, v2);
    }
  }

  lemma FaultCopyProcs(s: State, a: Action)
    requires Inv(s) && a.FaultCopy? && Enabled(s, a)
    ensures AllProcs(Next(s, a))
  {
    var s' := Next(s, a);
    var e := a.e;
    assert GoodFault(s, e) && GoodFork(s, e);
    assert Maps(s, e, s.procs[e].fault.va) && Maps(s, e, PFTEMP);
    assert forall e2: Env :: IsForking(s', e2) ==> IsForking(s, e2);
    assert forall e2: Env, v2: nat {:trigger Maps(s', e2, v2)} :: Maps(s', e2, v2) && e2 != e ==> Maps(s, e2, v2);
    forall e0: Env | e0 in s'.procs ensures GoodFault(s', e0) && GoodFork(s', e0) {
      assert GoodFault(s, e0) && GoodFork(s, e0);
      var v0 := s.procs[e0].fault;
      if v0.Copying? {
        assert Maps(s, e0, v0.va) && Maps(s, e0, PFTEMP);
        assert OwnTemp(s, e, e0, v0.va) && OwnTemp(s, e, e0, PFTEMP);
      }
    }
  }

  lemma FaultCopyTemps(s: State, a: Action)
    requires AllProcs(s) && AllTemps(s) && a.FaultCopy? && Enabled(s, a)
    ensures AllTemps(Next(s, a))
  {
    var s' := Next(s, a);
    var e := a.e;
    assert GoodFault(s, e) && GoodFork(s, e);
    assert Maps(s, e, s.procs[e].fault.va) && Maps(s, e, PFTEMP);
    assert forall e2: Env :: IsForking(s', e2) ==> IsForking(s, e2);
    forall e0: Env, e2: Env, v2: nat | e0 in s'.procs && Maps(s', e2, v2) ensures OwnTemp(s', e0, e2, v2) {
      assert Maps(s, e2, v2) && OwnTemp(s, e0, e2, v2);
    }
  }

  lemma FaultCopyStep(s: State, a: Action)
    requires Inv(s) && a.FaultCopy? && Enabled(s, a)
    ensures Inv(Next(s, a))
  {
    FaultCopyPages(s, a);
    FaultCopyProcs(s, a);
    FaultCopyTemps(s, a);
  }

  /** The private copy takes the place of the shared page. */
  lemma FaultMapPages(s: State, a: Action)
    requires Inv(s) && a.FaultMap? && Enabled(s, a)
    ensures AllPtes(Next(s, a)) && AllApart(Next(s, a))
  {
    var s' := Next(s, a);
    var e := a.e;
    assert GoodFault(s, e) && GoodFork(s, e);
    var va := s.procs[e].fault.va;
    assert Maps(s, e, va) && Maps(s, e, PFTEMP);
    assert forall e2: Env :: IsForking(s', e2) ==> IsForking(s, e2);
    forall e2: Env, v2: nat | Maps(s', e2, v2) ensures GoodPte(s', e2, v2) && Fresh(s', e2, v2) {
      assert Maps(s, e2, v2) && GoodPte(s, e2, v2) && Fresh(s, e2, v2) && GoodPte(s, e, PFTEMP);
    }
    forall e1: Env, v1: nat, e2: Env, v2: nat | Maps(s', e1, v1) && Maps(s', e2, v2) ensures Apart(s', e1, v1, e2, v2) {
      assert Maps(s, e1, v1) && Maps(s, e2, v2) && Apart(s, e1, v1, e2, v2);
      assert OwnTemp(s, e, e1, v1) && OwnTemp(s, e, e2, v2);
    }
  }

  lemma FaultMapProcs(s: State, a: Action)
    requires Inv(s) && a.FaultMap? && Enabled(s, a)
    ensures AllProcs(Next(s, a))
  {
    var s' := Next(s, a);
    var e := a.e;
    assert GoodFault(s, e) && GoodFork(s, e);
    var va := s.procs[e].fault.va;
    assert Maps(s, e, va) && Maps(s, e, PFTEMP);
    assert forall e2: Env :: IsForking(s', e2) ==> IsForking(s, e2);
    assert forall e2: Env, v2: nat {:trigger Maps(s', e2, v2)} :: Maps(s', e2, v2) && e2 != e ==> Maps(s, e2, v2);
    forall e0: Env | e0 in s'.procs ensures GoodFault(s', e0) && GoodFork(s', e0) {
      assert GoodFault(s, e0) && GoodFork(s, e0);
    }
  }

  lemma FaultMapTemps(s: State, a: Action)
    requires AllProcs(s) && AllTemps(s) && a.FaultMap? && Enabled(s, a)
    ensures AllTemps(Next(s, a))
  {
    var s' := Next(s, a);
    var e := a.e;
    assert GoodFault(s, e) && GoodFork(s, e);
    var va := s.procs[e].fault.va;
    assert Maps(s, e, va) && Maps(s, e, PFTEMP);
    forall e0: Env, e2: Env, v2: nat | e0 in s'.procs && Maps(s', e2, v2) ensures OwnTemp(s', e0, e2, v2) {
      assert Maps(s, e2, v2) && OwnTemp(s, e0, e2, v2) && OwnTemp(s, e0, e, PFTEMP);
      if e0 != e && s.procs[e0].fault.Copying? {
        assert GoodFault(s, e0) && Maps(s, e0, PFTEMP) && OwnTemp(s, e, e0, PFTEMP);
      }
    }
  }

  lemma FaultMapStep(s: State, a: Action)
    requires Inv(s) && a.FaultMap? && Enabled(s, a)
    ensures Inv(Next(s, a))
  {
    FaultMapPages(s, a);
    FaultMapProcs(s, a);
    FaultMapTemps(s, a);
  }

  /** The child starts with no pages. */
  lemma ForkStartPages(s: State, a: Action)
    requires Inv(s) && a.ForkStart? && Enabled(s, a)
    ensures AllPtes(Next(s, a)) && AllApart(Next(s, a))
  {
    var s' := Next(s, a);
    var e := a.e;
    assert GoodFault(s, e) && GoodFork(s, e);
    assert forall e2: Env :: IsForking(s', e2) ==> IsForking(s, e2) || e2 == e;
    forall e2: Env, v2: nat | Maps(s', e2, v2) ensures GoodPte(s', e2, v2) && Fresh(s', e2, v2) {
      assert Maps(s, e2, v2) && GoodPte(s, e2, v2) && Fresh(s, e2, v2);
      StillChild(s, s', e, e2);
    }
    forall e1: Env, v1: nat, e2: Env, v2: nat | Maps(s', e1, v1) && Maps(s', e2, v2) ensures Apart(s', e1, v1, e2, v2) {
      assert Maps(s, e1, v1) && Maps(s, e2, v2) && Apart(s, e1, v1, e2, v2);
    }
  }

  lemma ForkStartProcs(s: State, a: Action)
    requires Inv(s) && a.ForkStart? && Enabled(s, a)
    ensures AllProcs(Next(s, a))
  {
    var s' := Next(s, a);
    var e := a.e;
    assert GoodFault(s, e) && GoodFork(s, e);
    assert forall e2: Env :: IsForking(s', e2) ==> IsForking(s, e2) || e2 == e;
    assert forall e2: Env, v2: nat {:trigger Maps(s', e2, v2)} :: Maps(s', e2, v2) && e2 != e ==> Maps(s, e2, v2);
    forall e0: Env | e0 in s'.procs ensures GoodFault(s', e0) && GoodFork(s', e0) {
      forall e2: Env | IsForking(s', e2) && e2 != e ensures s'.procs[e2].fork.child in s.procs {
        assert GoodFork(s, e2);
      }
      if e0 in s.procs {
        assert GoodFault(s, e0) && GoodFork(s, e0);
      }
    }
  }

  lemma ForkStartTemps(s: State, a: Action)
    requires AllProcs(s) && AllTemps(s) && a.ForkStart? && Enabled(s, a)
    ensures AllTemps(Next(s, a))
  {
    var s' := Next(s, a);
    var e := a.e;
    assert GoodFault(s, e) && GoodFork(s, e);
    forall e0: Env, e2: Env, v2: nat | e0 in s'.procs && Maps(s', e2, v2) ensures OwnTemp(s', e0, e2, v2) {
      assert Maps(s, e2, v2);
      if e0 in s.procs {
        assert OwnTemp(s, e0, e2, v2);
      }
    }
  }

  lemma ForkStartStep(s: State, a: Action)
    requires Inv(s) && a.ForkStart? && Enabled(s, a)
    ensures Inv(Next(s, a))
  {
    ForkStartPages(s, a);
    ForkStartProcs(s, a);
    ForkStartTemps(s, a);
  }

  /** A page that is not mapped is passed over. */
  lemma DupSkipPages(s: State, a: Action)
    requires Inv(s) && a.DupSkip? && Enabled(s, a)
    ensures AllPtes(Next(s, a)) && AllApart(Next(s, a))
  {
    var s' := Next(s, a);
    var e := a.e;
    assert GoodFault(s, e) && GoodFork(s, e);
    assert forall e2: Env :: IsForking(s', e2) ==> IsForking(s, e2);
    forall e2: Env, v2: nat | Maps(s', e2, v2) ensures GoodPte(s', e2, v2) && Fresh(s', e2, v2) {
      assert Maps(s, e2, v2) && GoodPte(s, e2, v2) && Fresh(s, e2, v2);
      ChildrenKept(s, s', e2);
    }
    forall e1: Env, v1: nat, e2: Env, v2: nat | Maps(s', e1, v1) && Maps(s', e2, v2) ensures Apart(s', e1, v1, e2, v2) {
      assert Maps(s, e1, v1) && Maps(s, e2, v2) && Apart(s, e1, v1, e2, v2);
    }
  }

  lemma DupSkipProcs(s: State, a: Action)
    requires Inv(s) && a.DupSkip? && Enabled(s, a)
    ensures AllProcs(Next(s, a)) && AllTemps(Next(s, a))
  {
    var s' := Next(s, a);
    var e := a.e;
    assert GoodFault(s, e) && GoodFork(s, e);
    assert forall e2: Env :: IsForking(s', e2) ==> IsForking(s, e2);
    assert forall e2: Env, v2: nat {:trigger Maps(s', e2, v2)} :: Maps(s', e2, v2) && e2 != e ==> Maps(s, e2, v2);
    forall e0: Env | e0 in s'.procs ensures GoodFault(s', e0) && GoodFork(s', e0) {
      assert GoodFault(s, e0) && GoodFork(s, e0);
    }
    forall e0: Env, e2: Env, v2: nat | e0 in s'.procs && Maps(s', e2, v2) ensures OwnTemp(s', e0, e2, v2) {
      assert Maps(s, e2, v2) && OwnTemp(s, e0, e2, v2);
    }
  }

  lemma DupSkipStep(s: State, a: Action)
    requires Inv(s) && a.DupSkip? && Enabled(s, a)
    ensures Inv(Next(s, a))
  {
    DupSkipPages(s, a);
    DupSkipProcs(s, a);
  }

  /** The child gets the page, but never a private page that it could write. */
  lemma DupChildPages(s: State, a: Action)
    requires Inv(s) && a.DupChild? && Enabled(s, a)
    ensures AllPtes(Next(s, a)) && AllApart(Next(s, a))
  {
    var s' := Next(s, a);
    var e := a.e;
    assert GoodFault(s, e) && GoodFork(s, e);
    var pn, c := s.procs[e].fork.pn, s.procs[e].fork.child;
    assert Maps(s, e, pn);
    assert forall e2: Env :: IsForking(s', e2) ==> IsForking(s, e2);
    forall e2: Env, v2: nat | Maps(s', e2, v2) ensures GoodPte(s', e2, v2) && Fresh(s', e2, v2) {
      assert GoodPte(s, e, pn);
      if e2 != c || v2 != pn {
        assert Maps(s, e2, v2) && GoodPte(s, e2, v2) && Fresh(s, e2, v2);
      }
      ChildrenKept(s, s', e2);
    }
    forall e1: Env, v1: nat, e2: Env, v2: nat | Maps(s', e1, v1) && Maps(s', e2, v2) ensures Apart(s', e1, v1, e2, v2) {
      DupChildApart(s, a, e1, v1, e2, v2);
    }
  }

  lemma DupChildApart(s: State, a: Action, e1: Env, v1: nat, e2: Env, v2: nat)
    requires Inv(s) && a.DupChild? && Enabled(s, a)
    requires Maps(Next(s, a), e1, v1) && Maps(Next(s, a), e2, v2)
    ensures Apart(Next(s, a), e1, v1, e2, v2)
  {
    hide GoodPte, GoodFault, OwnTemp, Fresh;
    var s', e := Next(s, a), a.e;
    assert GoodFork(s, e);
    var pn, c := s.procs[e].fork.pn, s.procs[e].fork.child;
    assert Maps(s, e, pn);
    var old1, old2 := e1 != c || v1 != pn, e2 != c || v2 != pn;
    assert old1 ==> Maps(s, e1, v1);
    assert old2 ==> Maps(s, e2, v2);
    if old1 && old2 {
      assert Apart(s, e1, v1, e2, v2);
    } else if old1 {
      assert Apart(s, e1, v1, e, pn) && Apart(s, e, pn, e1, v1) && GoodFork(s, e1);
    } else if old2 {
      assert Apart(s, e2, v2, e, pn) && Apart(s, e, pn, e2, v2);
    }
  }

  lemma DupChildFork(s: State, a: Action, e0: Env)
    requires AllProcs(s) && a.DupChild? && Enabled(s, a) && e0 in s.procs
    ensures GoodFork(Next(s, a), e0)
  {
    var s', e := Next(s, a), a.e;
    assert GoodFork(s, e) && GoodFork(s, e0);
    var c := s.procs[e].fork.child;
    assert forall e2: Env :: IsForking(s', e2) ==> IsForking(s, e2);
    assert IsForking(s, e) && (IsForking(s, e0) ==> e0 == e || s.procs[e0].fork.child != c);
    assert forall e2: Env, v2: nat {:trigger Maps(s', e2, v2)} ::
      Maps(s', e2, v2) ==> Maps(s, e2, v2) || (e2 == c && v2 == s.procs[e].fork.pn);
  }

  lemma DupChildProcs(s: State, a: Action)
    requires Inv(s) && a.DupChild? && Enabled(s, a)
    ensures AllProcs(Next(s, a))
  {
    var s' := Next(s, a);
    var e := a.e;
    assert GoodFault(s, e) && GoodFork(s, e);
    var pn, c := s.procs[e].fork.pn, s.procs[e].fork.child;
    assert Maps(s, e, pn);
    assert forall e2: Env :: IsForking(s', e2) ==> IsForking(s, e2);
    forall e0: Env | e0 in s'.procs ensures GoodFault(s', e0) && GoodFork(s', e0) {
      assert GoodFault(s, e0);
      DupChildFork(s, a, e0);
    }
  }

  lemma DupChildTemps(s: State, a: Action)
    requires AllProcs(s) && AllTemps(s) && a.DupChild? && Enabled(s, a)
    ensures AllTemps(Next(s, a))
  {
    var s' := Next(s, a);
    var e := a.e;
    assert GoodFault(s, e) && GoodFork(s, e);
    var pn, c := s.procs[e].fork.pn, s.procs[e].fork.child;
    assert Maps(s, e, pn);
    forall e0: Env, e2: Env, v2: nat | e0 in s'.procs && Maps(s', e2, v2) ensures OwnTemp(s', e0, e2, v2) {
      assert e2 != c || v2 != pn ==> Maps(s, e2, v2) && OwnTemp(s, e0, e2, v2);
      assert OwnTemp(s, e0, e, pn);
    }
  }

  lemma DupChildStep(s: State, a: Action)
    requires Inv(s) && a.DupChild? && Enabled(s, a)
    ensures Inv(Next(s, a))
  {
    DupChildPages(s, a);
    DupChildProcs(s, a);
    DupChildTemps(s, a);
  }

  /** The parent gives up writing the page that the child has. */
  lemma DupSelfPages(s: State, a: Action)
    requires Inv(s) && a.DupSelf? && Enabled(s, a)
    ensures AllPtes(Next(s, a)) && AllApart(Next(s, a))
  {
    var s' := Next(s, a);
    var e := a.e;
    assert GoodFault(s, e) && GoodFork(s, e);
    var pn := s.procs[e].fork.pn;
    assert Maps(s, e, pn);
    assert forall e2: Env :: IsForking(s', e2) ==> IsForking(s, e2);
    forall e2: Env, v2: nat | Maps(s', e2, v2) ensures GoodPte(s', e2, v2) && Fresh(s', e2, v2) {
      assert Maps(s, e2, v2) && GoodPte(s, e2, v2) && Fresh(s, e2, v2);
      ChildrenKept(s, s', e2);
    }
    forall e1: Env, v1: nat, e2: Env, v2: nat | Maps(s', e1, v1) && Maps(s', e2, v2) ensures Apart(s', e1, v1, e2, v2) {
      assert Maps(s, e1, v1) && Maps(s, e2, v2) && Apart(s, e1, v1, e2, v2);
    }
  }

  lemma DupSelfProcs(s: State, a: Action)
    requires Inv(s) && a.DupSelf? && Enabled(s, a)
    ensures AllProcs(Next(s, a))
  {
    var s' := Next(s, a);
    var e := a.e;
    assert GoodFault(s, e) && GoodFork(s, e);
    var pn := s.procs[e].fork.pn;
    assert Maps(s, e, pn);
    assert forall e2: Env :: IsForking(s', e2) ==> IsForking(s, e2);
    assert forall e2: Env, v2: nat {:trigger Maps(s', e2, v2)} :: Maps(s', e2, v2) && e2 != e ==> Maps(s, e2, v2);
    forall e0: Env | e0 in s'.procs ensures GoodFault(s', e0) && GoodFork(s', e0) {
      assert GoodFault(s, e0) && GoodFork(s, e0);
    }
  }

  lemma DupSelfTemps(s: State, a: Action)
    requires AllProcs(s) && AllTemps(s) && a.DupSelf? && Enabled(s, a)
    ensures AllTemps(Next(s, a))
  {
    var s' := Next(s, a);
    var e := a.e;
    assert GoodFault(s, e) && GoodFork(s, e);
    var pn := s.procs[e].fork.pn;
    assert Maps(s, e, pn);
    forall e0: Env, e2: Env, v2: nat | e0 in s'.procs && Maps(s', e2, v2) ensures OwnTemp(s', e0, e2, v2) {
      assert Maps(s, e2, v2) && OwnTemp(s, e0, e2, v2);
    }
  }

  lemma DupSelfStep(s: State, a: Action)
    requires Inv(s) && a.DupSelf? && Enabled(s, a)
    ensures Inv(Next(s, a))
  {
    DupSelfPages(s, a);
    DupSelfProcs(s, a);
    DupSelfTemps(s, a);
  }

  /** The child's exception stack is new. */
  lemma ForkEndPages(s: State, a: Action)
    requires Inv(s) && a.ForkEnd? && Enabled(s, a)
    ensures AllPtes(Next(s, a))
  {
    var s' := Next(s, a);
    var e := a.e;
    assert GoodFault(s, e) && GoodFork(s, e);
    var c := s.procs[e].fork.child;
    assert forall e2: Env :: IsForking(s', e2) ==> IsForking(s, e2);
    forall e2: Env, v2: nat | Maps(s', e2, v2) ensures GoodPte(s', e2, v2) && Fresh(s', e2, v2) {
      if e2 != c || v2 != UXSTACK {
        assert Maps(s, e2, v2) && GoodPte(s, e2, v2) && Fresh(s, e2, v2);
      }
      FewerChildren(s, s', e, e2);
    }
  }

  lemma ForkEndApart(s: State, a: Action)
    requires Inv(s) && a.ForkEnd? && Enabled(s, a)
    ensures AllApart(Next(s, a))
  {
    var s' := Next(s, a);
    var e := a.e;
    assert GoodFault(s, e) && GoodFork(s, e);
    var c := s.procs[e].fork.child;
    forall e1: Env, v1: nat, e2: Env, v2: nat | Maps(s', e1, v1) && Maps(s', e2, v2) ensures Apart(s', e1, v1, e2, v2) {
      var old1, old2 := e1 != c || v1 != UXSTACK, e2 != c || v2 != UXSTACK;
      assert old1 ==> Maps(s, e1, v1);
      assert old2 ==> Maps(s, e2, v2);
      assert old1 && old2 ==> Apart(s, e1, v1, e2, v2);
    }
  }

  lemma ForkEndProcs(s: State, a: Action)
    requires Inv(s) && a.ForkEnd? && Enabled(s, a)
    ensures AllProcs(Next(s, a))
  {
    var s' := Next(s, a);
    var e := a.e;
    assert GoodFault(s, e) && GoodFork(s, e);
    var c := s.procs[e].fork.child;
    assert forall e2: Env :: IsForking(s', e2) ==> IsForking(s, e2);
    assert forall e2: Env, v2: nat {:trigger Maps(s', e2, v2)} :: Maps(s', e2, v2) && e2 != c ==> Maps(s, e2, v2);
    forall e0: Env | e0 in s'.procs ensures GoodFault(s', e0) && GoodFork(s', e0) {
      assert GoodFault(s, e0) && GoodFork(s, e0);
      assert IsForking(s, e0) ==> e0 == e || s.procs[e0].fork.child != c;
      if s.procs[e0].fault.Copying? {
        assert Maps(s, e0, PFTEMP) && Maps(s, e0, s.procs[e0].fault.va);
      }
    }
  }

  lemma ForkEndTemps(s: State, a: Action)
    requires AllProcs(s) && AllTemps(s) && a.ForkEnd? && Enabled(s, a)
    ensures AllTemps(Next(s, a))
  {
    var s' := Next(s, a);
    var e := a.e;
    assert GoodFault(s, e) && GoodFork(s, e);
    var c := s.procs[e].fork.child;
    forall e0: Env, e2: Env, v2: nat | e0 in s'.procs && Maps(s', e2, v2) ensures OwnTemp(s', e0, e2, v2) {
      assert e2 != c || v2 != UXSTACK ==> Maps(s, e2, v2) && OwnTemp(s, e0, e2, v2);
      if s.procs[e0].fault.Copying? {
        assert GoodFault(s, e0) && Maps(s, e0, PFTEMP);
      }
    }
  }

  lemma ForkEndStep(s: State, a: Action)
    requires Inv(s) && a.ForkEnd? && Enabled(s, a)
    ensures Inv(Next(s, a))
  {
    ForkEndPages(s, a);
    ForkEndApart(s, a);
    ForkEndProcs(s, a);
    ForkEndTemps(s, a);
  }

  /** A process that is being made now was being made before. */
  lemma ChildrenKept(s: State, s': State, c: Env)
    requires forall e: Env :: IsForking(s', e) ==> IsForking(s, e) && s.procs[e].fork.child == s'.procs[e].fork.child
    ensures IsChild(s', c) ==> IsChild(s, c)
  {
  }

  lemma StillChild(s: State, s': State, e: Env, c: Env)
    requires e in s'.procs && s'.procs[e].fork.Forking? && s'.procs[e].fork.child !in s.procs && c in s.procs
    requires forall e2: Env :: IsForking(s', e2) && e2 != e ==> IsForking(s, e2) && s.procs[e2].fork.child == s'.procs[e2].fork.child
    ensures IsChild(s', c) ==> IsChild(s, c)
  {
  }

  lemma FewerChildren(s: State, s': State, e: Env, c: Env)
    requires forall e2: Env :: IsForking(s', e2) ==> IsForking(s, e2) && s.procs[e2].fork.child == s'.procs[e2].fork.child
    ensures IsChild(s', c) ==> IsChild(s, c)
  {
  }

  /** Whatever a process does next, the invariant holds afterwards. */
  lemma StepInv(s: State, a: Action)
    requires Inv(s) && Enabled(s, a)
    ensures Inv(Next(s, a))
  {
    match a
    case Write(_, _, _, _) => WriteStep(s, a);
    case FaultAlloc(_, _, _) => FaultAllocStep(s, a);
    case FaultCopy(_) => FaultCopyStep(s, a);
    case FaultMap(_) => FaultMapStep(s, a);
    case ForkStart(_, _) => ForkStartStep(s, a);
    case DupSkip(_) => DupSkipStep(s, a);
    case DupChild(_) => DupChildStep(s, a);
    case DupSelf(_) => DupSelfStep(s, a);
    case ForkEnd(_, _) => ForkEndStep(s, a);
  }

  // ---------------------------------------------------------------------------------------------
  // Isolation.

  /** What `e` reads at the private page `va` is the same after the step. */
  ghost predicate ViewKept(s: State, a: Action, e: Env, va: nat)
    requires Enabled(s, a) && Maps(s, e, va)
  {
    var t := Next(s, a);
    && At(s, e, va).frame in s.mem && Maps(t, e, va) && At(t, e, va).frame in t.mem && !At(t, e, va).share
    && View(t, e, va) == View(s, e, va)
  }

  /** The page that an unfinished duppage of the stepping process has given to a child, which does not run yet. */
  ghost predicate Halfway(s: State, a: Action, e: Env, va: nat) {
    a.Write? && a.va == va && Window(s, a.e, e, va)
  }

  /** The step changes nothing that another process reads at a private page. */
  ghost predicate Isolated(s: State, a: Action)
    requires Enabled(s, a)
  {
    forall e: Env, va: nat {:trigger Maps(s, e, va)} ::
      Maps(s, e, va) && !At(s, e, va).share && e != a.e && !Halfway(s, a, e, va) ==> ViewKept(s, a, e, va)
  }

  /** A private page of process `e` has physical page `f`. */
  ghost predicate PrivateAt(s: State, e: Env, va: nat, f: nat) {
    Maps(s, e, va) && !At(s, e, va).share && At(s, e, va).frame == f
  }

  /**
    The store goes through the mapping that pgfault has left at PFTEMP, it changes the page, and another
    process has that page privately mapped.
   */
  ghost predicate Leaks(s: State, a: Action)
    requires Enabled(s, a)
  {
    && a.Write? && a.va == PFTEMP
    && var f := At(s, a.e, PFTEMP).frame;
    && Store(s.mem[f], a.off, a.x) != s.mem[f]
    && exists e: Env, va: nat :: e != a.e && PrivateAt(s, e, va, f)
  }

  /** A store through PFTEMP that does not leak, and any other step. */
  lemma KeepsOthers(s: State, a: Action, e: Env, va: nat)
    requires Inv(s) && Enabled(s, a) && !Leaks(s, a) && Maps(s, e, va) && !At(s, e, va).share && e != a.e && !Halfway(s, a, e, va)
    ensures ViewKept(s, a, e, va)
  {
    assert GoodPte(s, e, va);
    match a
    case Write(e0, v, _, _) =>
      assert Maps(s, e0, v) && Apart(s, e0, v, e, va);
      assert PrivateAt(s, e, va, At(s, e, va).frame);
    case FaultAlloc(e0, v, f) =>
    case FaultCopy(e0) =>
      assert GoodFault(s, e0) && OwnTemp(s, e0, e, va);
    case FaultMap(e0) =>
      assert GoodFault(s, e0) && OwnTemp(s, e0, e, va);
    case DupSelf(e0) => assert GoodFork(s, e0);
    case DupChild(e0) => assert GoodFork(s, e0);
    case ForkEnd(e0, f) =>
      assert GoodFork(s, e0);
    case _ =>
  }

  /** Every step of every process is isolated if and only if it is not a store through PFTEMP that leaks. */
  lemma IsolatedIff(s: State, a: Action)
    requires Inv(s) && Enabled(s, a)
    ensures Isolated(s, a) <==> !Leaks(s, a)
  {
    if Leaks(s, a) {
      var f := At(s, a.e, PFTEMP).frame;
      var e: Env, va: nat :| e != a.e && PrivateAt(s, e, va, f);
      assert Maps(s, e, va) && !Halfway(s, a, e, va) && !ViewKept(s, a, e, va);
    } else {
      forall e: Env, va: nat | Maps(s, e, va) && !At(s, e, va).share && e != a.e && !Halfway(s, a, e, va) ensures ViewKept(s, a, e, va) {
        KeepsOthers(s, a, e, va);
      }
    }
  }

  /** In particular when nobody stores to PFTEMP. */
  lemma NoLeak(s: State, a: Action)
    requires Enabled(s, a) && !(a.Write? && a.va == PFTEMP)
    ensures !Leaks(s, a)
  {
  }

  /** What `e` has at PFTEMP, no other process has mapped privately. */
  ghost predicate OwnsTemp(s: State, e: Env) {
    Maps(s, e, PFTEMP) ==> forall e2: Env, va: nat {:trigger Maps(s, e2, va)} :: e2 != e && Maps(s, e2, va) ==> !PrivateAt(s, e2, va, At(s, e, PFTEMP).frame)
  }

  lemma FaultOwns(s: State, a: Action)
    requires Inv(s) && Enabled(s, a) && a.FaultAlloc?
    ensures OwnsTemp(Next(s, a), a.e)
  {
    var t := Next(s, a);
    forall e2: Env, va: nat | e2 != a.e && Maps(t, e2, va) ensures !PrivateAt(t, e2, va, At(t, a.e, PFTEMP).frame) {
      assert Maps(s, e2, va);
    }
  }

  /** Only duppage by `e` itself gives its page at PFTEMP to somebody else. */
  lemma OwnsStep(s: State, a: Action, e: Env)
    requires Inv(s) && Enabled(s, a) && e in s.procs && OwnsTemp(s, e) && !(a.DupChild? && a.e == e)
    ensures e in Next(s, a).procs && OwnsTemp(Next(s, a), e)
  {
    var t := Next(s, a);
    if a.FaultAlloc? && a.e == e {
      FaultOwns(s, a);
    } else if Maps(t, e, PFTEMP) {
      assert GoodFork(s, a.e) && GoodFault(s, a.e);
      TempKept(s, a, e);
      forall e2: Env, va: nat | e2 != e && Maps(t, e2, va) ensures !PrivateAt(t, e2, va, At(t, e, PFTEMP).frame) {
        OwnsPage(s, a, e, e2, va);
      }
    }
  }

  lemma TempKept(s: State, a: Action, e: Env)
    requires Inv(s) && Enabled(s, a) && e in s.procs && Maps(Next(s, a), e, PFTEMP) && !(a.FaultAlloc? && a.e == e)
    ensures Maps(s, e, PFTEMP) && At(Next(s, a), e, PFTEMP) == At(s, e, PFTEMP)
  {
    assert GoodFork(s, a.e) && GoodFault(s, a.e);
  }

  lemma OwnsPage(s: State, a: Action, e: Env, e2: Env, va: nat)
    requires Inv(s) && Enabled(s, a) && OwnsTemp(s, e) && !(a.DupChild? && a.e == e) && Maps(s, e, PFTEMP)
    requires e2 != e && Maps(Next(s, a), e2, va)
    ensures !PrivateAt(Next(s, a), e2, va, At(s, e, PFTEMP).frame)
  {
    assert GoodFork(s, a.e) && GoodFault(s, a.e);
    match a
    case FaultAlloc(e0, _, _) => assert Maps(s, e2, va) || (e2 == e0 && va == PFTEMP);
    case FaultMap(e0) =>
      assert OwnTemp(s, e0, e, PFTEMP);
      assert (e2 == e0 && va == s.procs[e0].fault.va) || Maps(s, e2, va);
    case DupChild(e0) =>
      assert Maps(s, e0, s.procs[e0].fork.pn);
      assert Maps(s, e2, va) || (e2 == s.procs[e0].fork.child && va == s.procs[e0].fork.pn);
    case DupSelf(e0) => assert Maps(s, e0, s.procs[e0].fork.pn) && Maps(s, e2, va);
    case ForkEnd(e0, f) => assert Maps(s, e2, va) || (e2 == s.procs[e0].fork.child && va == UXSTACK);
    case _ => assert Maps(s, e2, va);
  }

  /** A process that can run is never halfway. */
  lemma RunningIsolated(s: State, a: Action, e: Env, va: nat)
    requires Inv(s) && Enabled(s, a) && !Leaks(s, a) && CanRun(s, e) && Maps(s, e, va) && !At(s, e, va).share && a.e != e
    ensures ViewKept(s, a, e, va) && CanRun(Next(s, a), e)
  {
    assert GoodFork(s, a.e);
    KeepsOthers(s, a, e, va);
  }

  /** A process keeps its own pages, but for where it stores and for its PFTEMP. */
  lemma OwnKept(s: State, a: Action, va: nat)
    requires Inv(s) && AllCopied(s) && Enabled(s, a) && Maps(s, a.e, va) && !At(s, a.e, va).share && va != PFTEMP
    requires a.Write? ==> a.va != va && a.va != PFTEMP
    ensures ViewKept(s, a, a.e, va)
  {
    assert GoodPte(s, a.e, va);
    match a
    case Write(e, v, _, _) => assert Maps(s, e, v) && Apart(s, e, v, e, va);
    case FaultCopy(e) => assert GoodFault(s, e) && OwnTemp(s, e, e, va);
    case FaultMap(e) => assert GoodFault(s, e) && HasCopy(s, e);
    case DupChild(e) => assert GoodFork(s, e);
    case ForkEnd(e, _) => assert GoodFork(s, e);
    case _ =>
  }

  // ---------------------------------------------------------------------------------------------
  // What page-fault handlers have copied.

  ghost predicate AllCopied(s: State) {
    forall e: Env {:trigger GoodFault(s, e)} :: e in s.procs && GoodFault(s, e) ==> HasCopy(s, e)
  }

  /** A store that does not leak does not touch the two pages of a handler that has copied. */
  lemma CopiedStep(s: State, a: Action)
    requires Inv(s) && AllCopied(s) && Enabled(s, a) && !Leaks(s, a)
    ensures AllCopied(Next(s, a))
  {
    StepInv(s, a);
    var t := Next(s, a);
    forall e: Env | e in t.procs ensures GoodFault(t, e) && HasCopy(t, e) {
      assert GoodFault(t, e);
      if e in s.procs && t.procs[e].fault.Copying? && t.procs[e].fault.copied {
        CopyKept(s, a, e);
      }
    }
  }

  lemma CopyKept(s: State, a: Action, e: Env)
    requires Inv(s) && AllCopied(s) && Enabled(s, a) && !Leaks(s, a) && e in s.procs && e in Next(s, a).procs
    requires Next(s, a).procs[e].fault.Copying? && Next(s, a).procs[e].fault.copied && GoodFault(Next(s, a), e)
    ensures HasCopy(Next(s, a), e)
  {
    assert GoodFault(s, e) && HasCopy(s, e);
    if a.e == e {
      assert GoodFork(s, e);
    } else {
      assert s.procs[e].fault == Next(s, a).procs[e].fault;
      var v := s.procs[e].fault.va;
      assert Maps(s, e, v) && Maps(s, e, PFTEMP) && GoodPte(s, e, v);
      RunningIsolated(s, a, e, v);
      RunningIsolated(s, a, e, PFTEMP);
    }
  }

  // ---------------------------------------------------------------------------------------------
  // Runs.

  ghost predicate Runnable(s: State, acts: seq<Action>)
    decreases |acts|
  {
    acts == [] || (Enabled(s, acts[0]) && Runnable(Next(s, acts[0]), acts[1..]))
  }

  ghost function RunAll(s: State, acts: seq<Action>): State
    requires Runnable(s, acts)
    decreases |acts|
  {
    if acts == [] then s else RunAll(Next(s, acts[0]), acts[1..])
  }

  /** No step of the run leaks. */
  ghost predicate Tight(s: State, acts: seq<Action>)
    requires Runnable(s, acts)
    decreases |acts|
  {
    acts == [] || (!Leaks(s, acts[0]) && Tight(Next(s, acts[0]), acts[1..]))
  }

  /** Every step of the run is isolated. */
  ghost predicate AllIsolated(s: State, acts: seq<Action>)
    requires Runnable(s, acts)
    decreases |acts|
  {
    acts == [] || (Isolated(s, acts[0]) && AllIsolated(Next(s, acts[0]), acts[1..]))
  }

  /** What a program can see to: it does not store to PFTEMP. */
  lemma {:induction false} NoTempStores(s: State, acts: seq<Action>)
    requires Runnable(s, acts) && forall i :: 0 <= i < |acts| ==> !(acts[i].Write? && acts[i].va == PFTEMP)
    ensures Tight(s, acts)
    decreases |acts|
  {
    if acts != [] {
      NoLeak(s, acts[0]);
      NoTempStores(Next(s, acts[0]), acts[1..]);
    }
  }

  lemma {:induction false} OwnsRun(s: State, acts: seq<Action>, e: Env)
    requires Inv(s) && Runnable(s, acts) && e in s.procs && OwnsTemp(s, e)
    requires forall i :: 0 <= i < |acts| ==> !(acts[i].DupChild? && acts[i].e == e)
    ensures OwnsTemp(RunAll(s, acts), e)
    decreases |acts|
  {
    hide Inv, OwnsTemp, Enabled, Next;
    if acts != [] {
      StepInv(s, acts[0]);
      OwnsStep(s, acts[0], e);
      OwnsRun(Next(s, acts[0]), acts[1..], e);
    }
  }

  /**
    After a page fault, and until the process duplicates a page again, no store of the process leaks.  A process
    that leaks has taken no fault since its last duppage, not even on its own stack.
   */
  lemma FaultHeals(s: State, e: Env, va: nat, f: nat, acts: seq<Action>, a: Action)
    requires Inv(s) && Enabled(s, FaultAlloc(e, va, f)) && Runnable(Next(s, FaultAlloc(e, va, f)), acts)
    requires forall i :: 0 <= i < |acts| ==> !(acts[i].DupChild? && acts[i].e == e)
    requires a.e == e && Enabled(RunAll(Next(s, FaultAlloc(e, va, f)), acts), a)
    ensures !Leaks(RunAll(Next(s, FaultAlloc(e, va, f)), acts), a)
  {
    var s1 := Next(s, FaultAlloc(e, va, f));
    StepInv(s, FaultAlloc(e, va, f));
    FaultOwns(s, FaultAlloc(e, va, f));
    OwnsRun(s1, acts, e);
    OwnsTight(RunAll(s1, acts), a);
  }

  lemma OwnsTight(s: State, a: Action)
    requires Enabled(s, a) && OwnsTemp(s, a.e)
    ensures !Leaks(s, a)
  {
  }

  /** Over every run, every step is isolated if and only if none of them leaks. */
  lemma {:induction false} RunIsolatedIff(s: State, acts: seq<Action>)
    requires Inv(s) && Runnable(s, acts)
    ensures AllIsolated(s, acts) <==> Tight(s, acts)
    decreases |acts|
  {
    if acts != [] {
      IsolatedIff(s, acts[0]);
      StepInv(s, acts[0]);
      RunIsolatedIff(Next(s, acts[0]), acts[1..]);
    }
  }

  /** However other processes run without leaking, they do not change what `e` reads at its private pages. */
  lemma {:induction false} RunIsolated(s: State, acts: seq<Action>, e: Env, va: nat)
    requires Inv(s) && Runnable(s, acts) && Tight(s, acts) && CanRun(s, e) && Maps(s, e, va) && !At(s, e, va).share
    requires forall i :: 0 <= i < |acts| ==> acts[i].e != e
    ensures At(s, e, va).frame in s.mem
    ensures Maps(RunAll(s, acts), e, va) && At(RunAll(s, acts), e, va).frame in RunAll(s, acts).mem
    ensures View(RunAll(s, acts), e, va) == View(s, e, va)
    decreases |acts|
  {
    assert GoodPte(s, e, va);
    if acts != [] {
      RunningIsolated(s, acts[0], e, va);
      StepInv(s, acts[0]);
      RunIsolated(Next(s, acts[0]), acts[1..], e, va);
    }
  }

  /** A shared mapping stays what it is. */
  lemma SharedKept(s: State, a: Action, e: Env, va: nat)
    requires Inv(s) && Enabled(s, a) && Maps(s, e, va) && At(s, e, va).share
    requires a.DupChild? ==> !(e == s.procs[a.e].fork.child && va == s.procs[a.e].fork.pn)
    ensures Maps(Next(s, a), e, va) && At(Next(s, a), e, va) == At(s, e, va)
  {
    assert GoodPte(s, e, va) && GoodFault(s, a.e) && GoodFork(s, a.e);
    assert Fresh(s, e, va);
    if a.ForkEnd? && e == s.procs[a.e].fork.child {
      assert IsForking(s, a.e);
      assert IsChild(s, e);
    }
  }

  /** The process can store to the page, by itself or through a page fault. */
  predicate Storable(p: Pte) {
    p.w || p.cow
  }

  /**
    `e` has the page that `p0` and `v0` describe: the same shared page, or a private page with the same contents,
    to which `e` can store if and only if one can store through `p0`.
   */
  ghost predicate Same(s: State, e: Env, va: nat, p0: Pte, v0: Page) {
    Maps(s, e, va) &&
    if p0.share then At(s, e, va) == p0
    else !At(s, e, va).share && At(s, e, va).frame in s.mem && View(s, e, va) == v0 && (Storable(At(s, e, va)) <==> Storable(p0))
  }

  /** While `e` forks `c`: the parent still has its page, and so has the child once duppage got there. */
  ghost predicate Progress(s: State, e: Env, c: Env, va: nat, p0: Pte, v0: Page) {
    && CanRun(s, e) && s.procs[e].fork.Forking? && s.procs[e].fork.child == c && UTEXT <= va < USTACKTOP
    && Same(s, e, va, p0, v0)
    && (va < s.procs[e].fork.pn || (va == s.procs[e].fork.pn && s.procs[e].fork.half) ==> Same(s, c, va, p0, v0))
  }

  /** Not the parent's own stores to the page, be it through PFTEMP, and not the end of its fork. */
  ghost predicate Quiet(a: Action, e: Env, va: nat) {
    !(a.Write? && a.e == e && (a.va == va || a.va == PFTEMP)) && !(a.ForkEnd? && a.e == e)
  }

  /** The child of a fork does not run, and only its own parent makes it. */
  lemma ChildWaits(s: State, e: Env, c: Env, a: Action)
    requires Inv(s) && IsForking(s, e) && s.procs[e].fork.child == c && Enabled(s, a)
    ensures a.e != c && c in s.procs && !s.procs[c].runnable
    ensures IsForking(s, a.e) && s.procs[a.e].fork.child == c ==> a.e == e
    ensures forall va: nat :: Window(s, a.e, c, va) ==> a.e == e
  {
    assert GoodFork(s, e);
  }

  /** No step takes away or gives the right to store to a private page, but for duppage into that page. */
  lemma StorableKept(s: State, a: Action, e: Env, va: nat)
    requires Inv(s) && Enabled(s, a) && Maps(s, e, va) && !At(s, e, va).share && UTEXT <= va < USTACKTOP
    requires !(a.DupChild? && s.procs[a.e].fork.child == e && s.procs[a.e].fork.pn == va)
    ensures Maps(Next(s, a), e, va) && (Storable(At(Next(s, a), e, va)) <==> Storable(At(s, e, va)))
  {
    assert GoodFork(s, a.e) && GoodFault(s, a.e);
  }

  lemma ParentSame(s: State, e: Env, c: Env, va: nat, p0: Pte, v0: Page, a: Action)
    requires Inv(s) && AllCopied(s) && Progress(s, e, c, va, p0, v0) && Enabled(s, a) && Quiet(a, e, va) && !Leaks(s, a)
    ensures Same(Next(s, a), e, va, p0, v0)
  {
    assert GoodFork(s, a.e);
    if p0.share {
      SharedKept(s, a, e, va);
    } else {
      StorableKept(s, a, e, va);
      if a.e == e {
        OwnKept(s, a, va);
      } else {
        RunningIsolated(s, a, e, va);
      }
    }
  }

  lemma ChildSame(s: State, e: Env, c: Env, va: nat, p0: Pte, v0: Page, a: Action)
    requires Inv(s) && Progress(s, e, c, va, p0, v0) && Enabled(s, a) && Quiet(a, e, va) && !Leaks(s, a)
    requires Same(s, c, va, p0, v0) && !(a.DupChild? && a.e == e && s.procs[e].fork.pn == va)
    ensures Same(Next(s, a), c, va, p0, v0)
  {
    ChildWaits(s, e, c, a);
    if p0.share {
      SharedKept(s, a, c, va);
    } else {
      StorableKept(s, a, c, va);
      KeepsOthers(s, a, c, va);
    }
  }

  lemma DupSame(s: State, e: Env, c: Env, va: nat, p0: Pte, v0: Page, a: Action)
    requires Inv(s) && Progress(s, e, c, va, p0, v0) && Enabled(s, a) && a.DupChild? && a.e == e && s.procs[e].fork.pn == va
    ensures Same(Next(s, a), c, va, p0, v0)
  {
    assert GoodFork(s, e);
  }

  lemma ProgressStep(s: State, e: Env, c: Env, va: nat, p0: Pte, v0: Page, a: Action)
    requires Inv(s) && AllCopied(s) && Progress(s, e, c, va, p0, v0) && Enabled(s, a) && Quiet(a, e, va) && !Leaks(s, a)
    ensures Progress(Next(s, a), e, c, va, p0, v0)
  {
    hide Same, Inv, AllCopied, Leaks;
    ParentSame(s, e, c, va, p0, v0, a);
    ChildWaits(s, e, c, a);
    var pn := s.procs[e].fork.pn;
    if a.DupChild? && a.e == e && pn == va {
      DupSame(s, e, c, va, p0, v0, a);
    } else if va < pn || (va == pn && s.procs[e].fork.half) {
      ChildSame(s, e, c, va, p0, v0, a);
    } else if a.DupSkip? && a.e == e && pn == va {
      SkippedUnmapped(s, e, va, p0, v0);
    }
  }

  lemma SkippedUnmapped(s: State, e: Env, va: nat, p0: Pte, v0: Page)
    requires Same(s, e, va, p0, v0)
    ensures Maps(s, e, va)
  {
  }

  lemma {:induction false} ProgressRun(s: State, e: Env, c: Env, va: nat, p0: Pte, v0: Page, acts: seq<Action>)
    requires Inv(s) && AllCopied(s) && Progress(s, e, c, va, p0, v0) && Runnable(s, acts) && Tight(s, acts)
    requires forall i :: 0 <= i < |acts| ==> Quiet(acts[i], e, va)
    ensures Progress(RunAll(s, acts), e, c, va, p0, v0) && Inv(RunAll(s, acts))
    decreases |acts|
  {
    hide Progress, Inv, AllCopied, Leaks, Next, Enabled;
    if acts != [] {
      ProgressStep(s, e, c, va, p0, v0, acts[0]);
      StepInv(s, acts[0]);
      CopiedStep(s, acts[0]);
      ProgressRun(Next(s, acts[0]), e, c, va, p0, v0, acts[1..]);
    }
  }

  /**
    Fork: however the steps of other processes and page faults of the parent are interleaved with it, as
    long as none of them leaks, when the child becomes runnable it reads at `va` what the parent read there
    when the fork began, and so does the parent, unless the parent itself stored to the page or to PFTEMP
    meanwhile; a shared page is the same page for both.
   */
  lemma ForkCopies(s: State, e: Env, c: Env, va: nat, acts: seq<Action>, f: nat)
    requires Inv(s) && AllCopied(s) && Enabled(s, ForkStart(e, c)) && UTEXT <= va < USTACKTOP && Maps(s, e, va)
    requires Runnable(Next(s, ForkStart(e, c)), acts) && Tight(Next(s, ForkStart(e, c)), acts)
    requires forall i :: 0 <= i < |acts| ==> Quiet(acts[i], e, va)
    requires Enabled(RunAll(Next(s, ForkStart(e, c)), acts), ForkEnd(e, f))
    ensures var t := Next(RunAll(Next(s, ForkStart(e, c)), acts), ForkEnd(e, f));
      && Inv(t) && CanRun(t, c) && CanRun(t, e) && c != e && At(s, e, va).frame in s.mem
      && t.procs[e].fault.NoFault? && t.procs[c].fault.NoFault?
      && Same(t, c, va, At(s, e, va), View(s, e, va)) && Same(t, e, va, At(s, e, va), View(s, e, va))
  {
    assert GoodPte(s, e, va);
    var s1 := Next(s, ForkStart(e, c));
    StepInv(s, ForkStart(e, c));
    CopiedStep(s, ForkStart(e, c));
    ForkBegins(s, e, c, va);
    ProgressRun(s1, e, c, va, At(s, e, va), View(s, e, va), acts);
    ForkEnds(RunAll(s1, acts), e, c, va, At(s, e, va), View(s, e, va), f);
    StepInv(RunAll(s1, acts), ForkEnd(e, f));
  }

  /** The steps of a store to a page: the store itself, or first a page fault with a new page `f`. */
  function StoreSteps(p: Pte, e: Env, va: nat, off: nat, x: int, f: nat): seq<Action> {
    if p.w then [Write(e, va, off, x)] else [FaultAlloc(e, va, f), FaultCopy(e), FaultMap(e), Write(e, va, off, x)]
  }

  /** A process that handles no fault can store wherever its mapping says so, and reads there what it stored. */
  lemma StoreRun(s: State, e: Env, va: nat, off: nat, x: int, f: nat)
    requires CanRun(s, e) && s.procs[e].fault.NoFault? && Maps(s, e, va) && va != PFTEMP && At(s, e, va).frame in s.mem
    requires Storable(At(s, e, va)) && Unmapped(s, f)
    ensures Runnable(s, StoreSteps(At(s, e, va), e, va, off, x, f))
    ensures var t := RunAll(s, StoreSteps(At(s, e, va), e, va, off, x, f));
      Maps(t, e, va) && At(t, e, va).frame in t.mem && View(t, e, va) == Store(View(s, e, va), off, x)
  {
    if At(s, e, va).w {
      WriteRun(s, e, va, off, x);
    } else {
      FaultStoreRun(s, e, va, off, x, f);
    }
  }

  lemma FaultStoreRun(s: State, e: Env, va: nat, off: nat, x: int, f: nat)
    requires Enabled(s, FaultAlloc(e, va, f)) && Maps(s, e, va) && At(s, e, va).frame in s.mem
    ensures Runnable(s, [FaultAlloc(e, va, f), FaultCopy(e), FaultMap(e), Write(e, va, off, x)])
    ensures var t := RunAll(s, [FaultAlloc(e, va, f), FaultCopy(e), FaultMap(e), Write(e, va, off, x)]);
      Maps(t, e, va) && At(t, e, va).frame in t.mem && View(t, e, va) == Store(View(s, e, va), off, x)
  {
    hide Runnable, RunAll, Unmapped, Next;
    var fault, write := [FaultAlloc(e, va, f), FaultCopy(e), FaultMap(e)], [Write(e, va, off, x)];
    FaultRun(s, e, va, f);
    WriteRun(Faulted(s, e, va, f), e, va, off, x);
    RunAppend(s, fault, write);
    assert fault + write == [FaultAlloc(e, va, f), FaultCopy(e), FaultMap(e), Write(e, va, off, x)];
  }

  lemma WriteRun(s: State, e: Env, va: nat, off: nat, x: int)
    requires CanRun(s, e) && s.procs[e].fault.NoFault? && Maps(s, e, va) && At(s, e, va).w && At(s, e, va).frame in s.mem
    ensures Runnable(s, [Write(e, va, off, x)])
    ensures var t := RunAll(s, [Write(e, va, off, x)]);
      Maps(t, e, va) && At(t, e, va).frame in t.mem && View(t, e, va) == Store(View(s, e, va), off, x)
  {
    RunOne(s, Write(e, va, off, x));
  }

  lemma RunOne(s: State, a: Action)
    requires Enabled(s, a)
    ensures Runnable(s, [a]) && RunAll(s, [a]) == Next(s, a)
  {
    hide Enabled, Next;
    assert [a][1..] == [];
  }

  /**
    After a fork, parent and child can both store wherever the parent could, and then read what they stored:
    also to a page that was copy-on-write already, as in a second fork.
   */
  lemma ForkStores(s: State, e: Env, c: Env, va: nat, acts: seq<Action>, f: nat, who: Env, off: nat, x: int, f2: nat)
    requires Inv(s) && AllCopied(s) && Enabled(s, ForkStart(e, c)) && UTEXT <= va < USTACKTOP && Maps(s, e, va) && Storable(At(s, e, va))
    requires Runnable(Next(s, ForkStart(e, c)), acts) && Tight(Next(s, ForkStart(e, c)), acts)
    requires forall i :: 0 <= i < |acts| ==> Quiet(acts[i], e, va)
    requires Enabled(RunAll(Next(s, ForkStart(e, c)), acts), ForkEnd(e, f)) && who in {e, c}
    requires Unmapped(Next(RunAll(Next(s, ForkStart(e, c)), acts), ForkEnd(e, f)), f2)
    ensures var t := Next(RunAll(Next(s, ForkStart(e, c)), acts), ForkEnd(e, f));
      && Maps(t, who, va) && Storable(At(t, who, va)) && At(t, who, va).frame in t.mem
      && var steps := StoreSteps(At(t, who, va), who, va, off, x, f2);
      && Runnable(t, steps) && var u := RunAll(t, steps);
      && Maps(u, who, va) && At(u, who, va).frame in u.mem && View(u, who, va) == Store(View(t, who, va), off, x)
  {
    hide Inv, AllCopied, Enabled, Next, Runnable, RunAll, Tight, StoreSteps, Unmapped;
    ForkCopies(s, e, c, va, acts, f);
    var t := Next(RunAll(Next(s, ForkStart(e, c)), acts), ForkEnd(e, f));
    InvPte(s, e, va);
    InvPte(t, who, va);
    StoreRun(t, who, va, off, x, f2);
  }

  lemma InvPte(s: State, e: Env, va: nat)
    requires Inv(s) && Maps(s, e, va)
    ensures At(s, e, va).frame in s.mem
  {
    assert GoodPte(s, e, va);
  }

  /** After a fork, what parent or child stores to a PTE_SHARE page, the other reads. */
  lemma SharedWrite(s: State, e: Env, c: Env, va: nat, acts: seq<Action>, f: nat, a: Action)
    requires Inv(s) && AllCopied(s) && Enabled(s, ForkStart(e, c)) && UTEXT <= va < USTACKTOP && Maps(s, e, va) && At(s, e, va).share
    requires Runnable(Next(s, ForkStart(e, c)), acts) && Tight(Next(s, ForkStart(e, c)), acts)
    requires forall i :: 0 <= i < |acts| ==> Quiet(acts[i], e, va)
    requires Enabled(RunAll(Next(s, ForkStart(e, c)), acts), ForkEnd(e, f))
    requires var t := Next(RunAll(Next(s, ForkStart(e, c)), acts), ForkEnd(e, f)); Enabled(t, a) && a.Write? && a.va == va && a.e in {e, c}
    ensures var t := Next(RunAll(Next(s, ForkStart(e, c)), acts), ForkEnd(e, f));
      var other := if a.e == e then c else e;
      && Maps(t, other, va) && At(t, other, va).frame in t.mem && Maps(Next(t, a), other, va) && At(Next(t, a), other, va).frame in Next(t, a).mem
      && View(Next(t, a), other, va) == Store(View(t, other, va), a.off, a.x)
  {
    ForkCopies(s, e, c, va, acts, f);
    var t := Next(RunAll(Next(s, ForkStart(e, c)), acts), ForkEnd(e, f));
    assert GoodPte(t, e, va) && GoodPte(t, c, va);
  }

  lemma ForkBegins(s: State, e: Env, c: Env, va: nat)
    requires Inv(s) && Enabled(s, ForkStart(e, c)) && UTEXT <= va < USTACKTOP && Maps(s, e, va) && At(s, e, va).frame in s.mem
    ensures Progress(Next(s, ForkStart(e, c)), e, c, va, At(s, e, va), View(s, e, va))
  {
    assert Maps(Next(s, ForkStart(e, c)), e, va);
  }

  lemma ForkEnds(s: State, e: Env, c: Env, va: nat, p0: Pte, v0: Page, f: nat)
    requires Inv(s) && Progress(s, e, c, va, p0, v0) && Enabled(s, ForkEnd(e, f))
    ensures c != e && CanRun(Next(s, ForkEnd(e, f)), c) && CanRun(Next(s, ForkEnd(e, f)), e)
    ensures Same(Next(s, ForkEnd(e, f)), c, va, p0, v0) && Same(Next(s, ForkEnd(e, f)), e, va, p0, v0)
    ensures Next(s, ForkEnd(e, f)).procs[e].fault.NoFault? && Next(s, ForkEnd(e, f)).procs[c].fault.NoFault?
  {
    assert GoodFork(s, e) && Maps(s, c, va);
  }

  /** Pages that the parent does not have, the child does not get. */
  lemma {:induction false} ForkAddsNothing(s: State, e: Env, c: Env, va: nat, acts: seq<Action>)
    requires Inv(s) && CanRun(s, e) && s.procs[e].fork.Forking? && s.procs[e].fork.child == c && UTEXT <= va < USTACKTOP
    requires !Maps(s, e, va) && !Maps(s, c, va) && Runnable(s, acts) && forall i :: 0 <= i < |acts| ==> Quiet(acts[i], e, va)
    ensures !Maps(RunAll(s, acts), e, va) && !Maps(RunAll(s, acts), c, va)
    decreases |acts|
  {
    if acts != [] {
      assert GoodFork(s, acts[0].e) && GoodFault(s, acts[0].e);
      ChildWaits(s, e, c, acts[0]);
      StepInv(s, acts[0]);
      ForkAddsNothing(Next(s, acts[0]), e, c, va, acts[1..]);
    }
  }

  // ---------------------------------------------------------------------------------------------
  // A run that ends with a leak.

  lemma {:induction false} RunAppend(s: State, a: seq<Action>, b: seq<Action>)
    requires Runnable(s, a) && Runnable(RunAll(s, a), b)
    ensures Runnable(s, a + b) && RunAll(s, a + b) == RunAll(RunAll(s, a), b)
    decreases |a|
  {
    if a == [] {
      assert a + b == b;
    } else {
      assert (a + b)[0] == a[0] && (a + b)[1..] == a[1..] + b;
      RunAppend(Next(s, a[0]), a[1..], b);
    }
  }

  function Skips(e: Env, n: nat): seq<Action> {
    if n == 0 then [] else [DupSkip(e)] + Skips(e, n - 1)
  }

  /** The steps of a fork by a process whose pages below the exception stack are at UTEXT and, shared, at STACK. */
  function ForkSteps(e: Env, c: Env, f: nat): seq<Action> {
    [ForkStart(e, c), DupChild(e), DupSelf(e)] + Skips(e, STACK - UTEXT - 1) + [DupChild(e), ForkEnd(e, f)]
  }

  ghost predicate NoStores(acts: seq<Action>) {
    forall i :: 0 <= i < |acts| ==> !acts[i].Write?
  }

  lemma {:induction false} SkipsStores(e: Env, n: nat)
    ensures NoStores(Skips(e, n))
  {
    if n > 0 {
      SkipsStores(e, n - 1);
    }
  }

  /** No page between `pn` and `pn + n` is mapped, so that fork passes over all of them. */
  lemma {:induction false} SkipRun(s: State, e: Env, c: Env, pn: nat, n: nat)
    requires CanRun(s, e) && s.procs[e].fault.NoFault? && s.procs[e].fork == Forking(c, pn, false) && pn + n <= USTACKTOP
    requires forall va :: pn <= va < pn + n ==> va !in s.procs[e].pt
    ensures Runnable(s, Skips(e, n))
    ensures RunAll(s, Skips(e, n)) == SetProc(s, e, s.procs[e].(fork := Forking(c, pn + n, false)))
    decreases n
  {
    if n == 0 {
      assert SetProc(s, e, s.procs[e].(fork := Forking(c, pn + n, false))) == s;
    } else {
      var t := Next(s, DupSkip(e));
      assert Enabled(s, DupSkip(e));
      assert t == SetProc(s, e, s.procs[e].(fork := Forking(c, pn + 1, false)));
      SkipRun(t, e, c, pn + 1, n - 1);
      assert Skips(e, n)[0] == DupSkip(e) && Skips(e, n)[1..] == Skips(e, n - 1);
      assert SetProc(t, e, t.procs[e].(fork := Forking(c, pn + n, false))) == SetProc(s, e, s.procs[e].(fork := Forking(c, pn + n, false)));
    }
  }

  /** Parent `e` and child `c` after such a fork: both have the page at UTEXT copy-on-write, and the same stack. */
  function Forked(s: State, e: Env, c: Env, f: nat): State
    requires Maps(s, e, UTEXT) && Maps(s, e, STACK)
  {
    var p := s.procs[e];
    var cow := Pte(p.pt[UTEXT].frame, false, true, false);
    State(s.procs[c := Proc(map[UTEXT := cow, STACK := p.pt[STACK], UXSTACK := Pte(f, true, false, false)], NoFault, NotForking, true)]
                 [e := p.(pt := p.pt[UTEXT := cow])],
          s.mem[f := map[]])
  }

  lemma RunThree(s: State, a: Action, b: Action, c: Action)
    requires Enabled(s, a) && Enabled(Next(s, a), b) && Enabled(Next(Next(s, a), b), c)
    ensures Runnable(s, [a, b, c]) && RunAll(s, [a, b, c]) == Next(Next(Next(s, a), b), c)
  {
    hide Enabled, Next;
    var t := Next(s, a);
    var u := Next(t, b);
    assert [a, b, c][1..] == [b, c] && [b, c][1..] == [c] && [c][1..] == [];
    assert Runnable(u, [c]) && RunAll(u, [c]) == Next(u, c);
    assert Runnable(t, [b, c]) && RunAll(t, [b, c]) == Next(u, c);
  }

  /** The fork up to the skips: the page at UTEXT is copy-on-write on both sides. */
  lemma ForkFirst(s: State, e: Env, c: Env)
    requires CanRun(s, e) && s.procs[e].fault.NoFault? && s.procs[e].fork.NotForking? && c !in s.procs
    requires Maps(s, e, UTEXT) && At(s, e, UTEXT).w && !At(s, e, UTEXT).share
    ensures Runnable(s, [ForkStart(e, c), DupChild(e), DupSelf(e)])
    ensures var p := s.procs[e];
      var cow := Pte(p.pt[UTEXT].frame, false, true, false);
      RunAll(s, [ForkStart(e, c), DupChild(e), DupSelf(e)]) ==
      s.(procs := s.procs[c := Proc(map[UTEXT := cow], NoFault, NotForking, false)]
                         [e := p.(pt := p.pt[UTEXT := cow], fork := Forking(c, UTEXT + 1, false))])
  {
    var s1 := Next(s, ForkStart(e, c));
    var s2 := Next(s1, DupChild(e));
    var s3 := Next(s2, DupSelf(e));
    var p := s.procs[e];
    var cow := Pte(p.pt[UTEXT].frame, false, true, false);
    assert s1.procs == s.procs[c := Proc(map[], NoFault, NotForking, false)][e := p.(fork := Forking(c, UTEXT, false))];
    assert s2.procs == s.procs[c := Proc(map[UTEXT := cow], NoFault, NotForking, false)][e := p.(fork := Forking(c, UTEXT, true))];
    assert s3.procs == s.procs[c := Proc(map[UTEXT := cow], NoFault, NotForking, false)]
                              [e := p.(pt := p.pt[UTEXT := cow], fork := Forking(c, UTEXT + 1, false))];
    RunThree(s, ForkStart(e, c), DupChild(e), DupSelf(e));
  }

  lemma RunTwo(s: State, a: Action, b: Action)
    requires Enabled(s, a) && Enabled(Next(s, a), b)
    ensures Runnable(s, [a, b]) && RunAll(s, [a, b]) == Next(Next(s, a), b)
  {
    hide Enabled, Next;
    assert [a, b][1..] == [b] && [b][1..] == [];
    assert Runnable(Next(s, a), [b]) && RunAll(Next(s, a), [b]) == Next(Next(s, a), b);
  }

  /** The end of the fork: the shared stack, and the child's exception stack. */
  lemma ForkLast(s: State, s4: State, e: Env, c: Env, f: nat)
    requires CanRun(s, e) && s.procs[e].fault.NoFault? && s.procs[e].fork.NotForking? && c !in s.procs && Unmapped(s, f)
    requires Maps(s, e, UTEXT) && Maps(s, e, STACK) && At(s, e, STACK).share
    requires var cow := Pte(At(s, e, UTEXT).frame, false, true, false);
      s4 == s.(procs := s.procs[c := Proc(map[UTEXT := cow], NoFault, NotForking, false)]
                               [e := s.procs[e].(pt := s.procs[e].pt[UTEXT := cow], fork := Forking(c, STACK, false))])
    ensures Runnable(s4, [DupChild(e), ForkEnd(e, f)]) && RunAll(s4, [DupChild(e), ForkEnd(e, f)]) == Forked(s, e, c, f)
  {
    var cow := Pte(At(s, e, UTEXT).frame, false, true, false);
    var p := s.procs[e];
    var s5 := Next(s4, DupChild(e));
    assert s5.procs == s.procs[c := Proc(map[UTEXT := cow, STACK := p.pt[STACK]], NoFault, NotForking, false)]
                              [e := p.(pt := p.pt[UTEXT := cow], fork := Forking(c, USTACKTOP, false))];
    forall e0: Env, va: nat | Maps(s5, e0, va) ensures At(s5, e0, va).frame != f {
      assert Maps(s, e, UTEXT) && Maps(s, e, STACK);
      assert e0 != c ==> Maps(s, e0, va);
    }
    assert Next(s5, ForkEnd(e, f)).procs == Forked(s, e, c, f).procs;
    RunTwo(s4, DupChild(e), ForkEnd(e, f));
  }

  lemma ForkRun(s: State, e: Env, c: Env, f: nat)
    requires CanRun(s, e) && s.procs[e].fault.NoFault? && s.procs[e].fork.NotForking? && c !in s.procs && Unmapped(s, f)
    requires Maps(s, e, UTEXT) && At(s, e, UTEXT).w && !At(s, e, UTEXT).share && Maps(s, e, STACK) && At(s, e, STACK).share
    requires forall va :: UTEXT < va < STACK ==> va !in s.procs[e].pt
    ensures Runnable(s, ForkSteps(e, c, f)) && RunAll(s, ForkSteps(e, c, f)) == Forked(s, e, c, f)
  {
    hide Enabled, Next, Runnable, RunAll, Skips, Unmapped, Forked;
    var first, n, last := [ForkStart(e, c), DupChild(e), DupSelf(e)], STACK - UTEXT - 1, [DupChild(e), ForkEnd(e, f)];
    ForkFirst(s, e, c);
    SkipRun(RunAll(s, first), e, c, UTEXT + 1, n);
    RunAppend(s, first, Skips(e, n));
    ForkLast(s, RunAll(s, first + Skips(e, n)), e, c, f);
    RunAppend(s, first + Skips(e, n), last);
  }

  /** A store to a copy-on-write page: afterwards it is the process's own page, and PFTEMP is a second name for it. */
  function Faulted(s: State, e: Env, va: nat, f: nat): State
    requires Maps(s, e, va) && At(s, e, va).frame in s.mem
  {
    var own := Pte(f, true, false, false);
    State(s.procs[e := s.procs[e].(pt := s.procs[e].pt[PFTEMP := own][va := own])], s.mem[f := View(s, e, va)])
  }

  lemma FaultRun(s: State, e: Env, va: nat, f: nat)
    requires Enabled(s, FaultAlloc(e, va, f)) && Maps(s, e, va) && At(s, e, va).frame in s.mem
    ensures Runnable(s, [FaultAlloc(e, va, f), FaultCopy(e), FaultMap(e)])
    ensures RunAll(s, [FaultAlloc(e, va, f), FaultCopy(e), FaultMap(e)]) == Faulted(s, e, va, f)
  {
    var s1 := Next(s, FaultAlloc(e, va, f));
    assert At(s, e, va).frame != f;
    var s2 := Next(s1, FaultCopy(e));
    var s3 := Next(s2, FaultMap(e));
    assert s3.procs == Faulted(s, e, va, f).procs;
    assert s3.mem == Faulted(s, e, va, f).mem;
    RunThree(s, FaultAlloc(e, va, f), FaultCopy(e), FaultMap(e));
  }

  /** One process with a page of zeros at UTEXT, a shared stack, and an exception stack. */
  const ALONE: State := State(
    map[0 := Proc(map[UTEXT := Pte(0, true, false, false), STACK := Pte(1, true, false, true), UXSTACK := Pte(2, true, false, false)],
                  NoFault, NotForking, true)],
    map[0 := map[], 1 := map[], 2 := map[]])

  const STORE: seq<Action> := [FaultAlloc(0, UTEXT, 4), FaultCopy(0), FaultMap(0)]

  /** It forks, stores to its page, and forks again. */
  function TwoForks(): seq<Action> {
    ForkSteps(0, 1, 3) + STORE + ForkSteps(0, 2, 5)
  }

  /** The states after the first fork, after the store and after the second fork. */
  function Forked1(): State {
    Forked(ALONE, 0, 1, 3)
  }

  function Stored2(): State {
    Faulted(Forked1(), 0, UTEXT, 4)
  }

  function Forked3(): State {
    Forked(Stored2(), 0, 2, 5)
  }

  lemma FirstFork()
    ensures Runnable(ALONE, ForkSteps(0, 1, 3)) && RunAll(ALONE, ForkSteps(0, 1, 3)) == Forked1()
  {
    hide Runnable, RunAll, ForkSteps, Enabled, Next;
    ForkRun(ALONE, 0, 1, 3);
  }

  lemma StoreAfter()
    ensures Runnable(Forked1(), STORE) && RunAll(Forked1(), STORE) == Stored2()
  {
    hide Runnable, RunAll, Next;
    FaultRun(Forked1(), 0, UTEXT, 4);
  }

  lemma SecondFork()
    ensures Runnable(Stored2(), ForkSteps(0, 2, 5)) && RunAll(Stored2(), ForkSteps(0, 2, 5)) == Forked3()
  {
    hide Runnable, RunAll, ForkSteps, Enabled, Next;
    ForkRun(Stored2(), 0, 2, 5);
  }

  lemma TwoForksRun()
    ensures Runnable(ALONE, TwoForks())
    ensures RunAll(ALONE, TwoForks()) == Forked3()
  {
    hide Runnable, RunAll, ForkSteps, Enabled, Next, Forked1, Stored2, Forked3;
    FirstFork();
    StoreAfter();
    SecondFork();
    RunAppend(ALONE, ForkSteps(0, 1, 3), STORE);
    RunAppend(ALONE, ForkSteps(0, 1, 3) + STORE, ForkSteps(0, 2, 5));
  }

  /**
    Isolation does fail: after fork, store, fork, the parent can store through PFTEMP to the very page
    that its second child, which runs by now, reads copy-on-write at UTEXT.  With a stack of its own the parent
    would have taken a fault on it before the second fork returned; this one has made its stack PTE_SHARE.
   */
  lemma TempLeak(x: int)
    ensures Inv(ALONE) && Runnable(ALONE, TwoForks()) && Tight(ALONE, TwoForks())
    ensures var t := RunAll(ALONE, TwoForks());
      var a := Write(0, PFTEMP, 0, x);
      && Enabled(t, a) && Leaks(t, a) && CanRun(t, 2)
      && Maps(t, 2, UTEXT) && !At(t, 2, UTEXT).share && Maps(Next(t, a), 2, UTEXT)
      && At(t, 2, UTEXT).frame in t.mem && At(Next(t, a), 2, UTEXT).frame in Next(t, a).mem
      && View(t, 2, UTEXT) == map[] && View(Next(t, a), 2, UTEXT) == map[0 := x]
  {
    hide *;
    AloneInv();
    TwoForksRun();
    TwoForksTight();
    LeakAfter(x);
  }

  lemma AloneInv()
    ensures Inv(ALONE)
  {
    InitialInv(0, ALONE.procs[0].pt, ALONE.mem);
  }

  lemma TwoForksTight()
    requires Runnable(ALONE, TwoForks())
    ensures Tight(ALONE, TwoForks())
  {
    hide Runnable, Tight, Skips;
    SkipsStores(0, STACK - UTEXT - 1);
    NoTempStores(ALONE, TwoForks());
  }

  lemma LeakAfter(x: int)
    ensures var t := Forked3();
      var a := Write(0, PFTEMP, 0, x);
      && Enabled(t, a) && Leaks(t, a) && CanRun(t, 2)
      && Maps(t, 2, UTEXT) && !At(t, 2, UTEXT).share && Maps(Next(t, a), 2, UTEXT)
      && At(t, 2, UTEXT).frame in t.mem && At(Next(t, a), 2, UTEXT).frame in Next(t, a).mem
      && View(t, 2, UTEXT) == map[] && View(Next(t, a), 2, UTEXT) == map[0 := x]
  {
    var t := Forked3();
    assert PrivateAt(t, 2, UTEXT, 4);
    assert 0 !in t.mem[4];
  }
}
