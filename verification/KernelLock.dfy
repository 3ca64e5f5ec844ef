/**
  The big kernel lock and the scheduler of JOS on several processors (kern/spinlock.c, kern/trap.c,
  kern/sched.c, kern/env.c): a state machine over the processors' steps, with the xchg of the lock, the
  work of one trap, and the way out of the kernel as separate steps.
 */
module KernelLock {
  import opened Division

  datatype Status = Free | Dying | Runnable | Running | NotRunnable

  /** Where a processor is: in user code, in the loop of spin_lock, in the kernel, or halted. */
  datatype At =
    | User
    | Spin(fromUser: bool)
    | Entered              // in trap, with the lock, before trap_dispatch
    | Return               // at the end of trap
    | Yield                // in sched_yield
    | Halted
    | Monitor              // sched_halt found no environment at all

  /** `cur` and `at` are per processor, `status` and `recving` per environment slot. */
  datatype State = State(locked: bool, at: seq<At>, cur: seq<int>, status: seq<Status>, recving: seq<bool>)

  /** What a trap asks for. */
  datatype Act =
    | Other                            // a system call that does not concern the scheduler
    | TimerOrYield
    | Exofork(e: nat)                  // `e` is the head of env_free_list
    | SetStatus(e: nat, runnable: bool)
    | IpcRecv(aligned: bool)           // whether the address for a page is one
    | IpcTrySend(e: nat)
    | Destroy(e: nat)

  datatype Choice = Trap(c: nat) | Xchg(c: nat) | Dispatch(c: nat, act: Act) | Leave(c: nat) | Tick(c: nat)

  // ---------------------------------------------------------------------------------------------
  // sched_yield.

  /** The first runnable environment among the `n` slots from `begin` on, in circular order; -1 when there is none. */
  function FirstRunnable(status: seq<Status>, begin: nat, n: nat): int
    decreases n
  {
    if n == 0 || status == [] then -1
    else if status[begin % |status|].Runnable? then begin % |status|
    else FirstRunnable(status, begin + 1, n - 1)
  }

  predicate RunnableAt(status: seq<Status>, x: nat)
    requires status != []
  {
    status[x % |status|].Runnable?
  }

  /** Slot `x` modulo the table is the first runnable one from `begin` on, and -1 means that there is none. */
  lemma {:induction false} FirstInOrder(status: seq<Status>, begin: nat, n: nat) returns (x: nat)
    requires status != []
    ensures var e := FirstRunnable(status, begin, n);
      if e == -1 then forall y: nat {:trigger RunnableAt(status, y)} :: begin <= y < begin + n ==> !RunnableAt(status, y)
      else
        && begin <= x < begin + n && e == x % |status| && RunnableAt(status, x)
        && forall y: nat {:trigger RunnableAt(status, y)} :: begin <= y < x ==> !RunnableAt(status, y)
    decreases n
  {
    x := begin;
    if n > 0 && !RunnableAt(status, begin) {
      x := FirstInOrder(status, begin + 1, n - 1);
    }
  }

  lemma EverySlot(status: seq<Status>, begin: nat, e: nat) returns (y: nat)
    requires e < |status|
    ensures begin <= y < begin + |status| && y % |status| == e
  {
    var n, r := |status|, begin % |status|;
    y := if e >= r then begin + (e - r) else begin + (e + n - r);
    var q := begin / n;
    QuotientIs(n, q, e);
    QuotientIs(n, q + 1, e);
  }

  /** sched_yield passes over every slot: it finds an environment exactly when one is runnable. */
  lemma SomeRunnable(status: seq<Status>, begin: nat)
    requires status != []
    ensures FirstRunnable(status, begin, |status|) != -1 <==> exists e: nat :: e < |status| && status[e].Runnable?
  {
    var x := FirstInOrder(status, begin, |status|);
    if FirstRunnable(status, begin, |status|) != -1 {
      assert status[x % |status|].Runnable?;
    } else {
      forall e: nat | e < |status| ensures !status[e].Runnable? {
        var y := EverySlot(status, begin, e);
        assert !RunnableAt(status, y);
      }
    }
  }

  /** The scanning loop of sched_yield, from the slot after curenv's. */
  method Scan(status: seq<Status>, curenv: int) returns (idle: int)
    requires -1 <= curenv < |status|
    ensures idle == FirstRunnable(status, if curenv != -1 then curenv + 1 else 0, |status|)
  {
    var envBegin := if curenv != -1 then curenv + 1 else 0;
    var i := 0;
    while i < |status|
      invariant 0 <= i <= |status|
      invariant FirstRunnable(status, envBegin, |status|) == FirstRunnable(status, envBegin + i, |status| - i)
    {
      idle := (envBegin + i) % |status|;
      if status[idle].Runnable? {
        return;
      }
      i := i + 1;
    }
    idle := -1;
  }

  // ---------------------------------------------------------------------------------------------
  // The steps.

  predicate InKernel(at: At) {
    at.Entered? || at.Return? || at.Yield? || at.Monitor?
  }

  /** env_run: `c` leaves the kernel for environment `e`. */
  function EnvRun(s: State, c: nat, e: nat): State
    requires c < |s.at| == |s.cur| && e < |s.status| && -1 <= s.cur[c] < |s.status|
  {
    var prev := s.cur[c];
    var status := if prev != -1 && s.status[prev].Running? then s.status[prev := Runnable] else s.status;
    s.(locked := false, at := s.at[c := User], cur := s.cur[c := e], status := status[e := Running])
  }

  /** sched_halt */
  function SchedHalt(s: State, c: nat): State
    requires c < |s.at| == |s.cur|
  {
    if forall e :: 0 <= e < |s.status| ==> s.status[e].Free? || s.status[e].NotRunnable? then s.(at := s.at[c := Monitor])
    else s.(locked := false, at := s.at[c := Halted], cur := s.cur[c := -1])
  }

  /** The monitor is for the end: with an environment that is runnable, running or dying, sched_halt waits and gives up lock and curenv. */
  lemma HaltIff(s: State, c: nat)
    requires c < |s.at| == |s.cur|
    ensures var t := SchedHalt(s, c);
      && t.status == s.status && t.recving == s.recving
      && if exists e :: 0 <= e < |s.status| && (s.status[e].Runnable? || s.status[e].Running? || s.status[e].Dying?)
         then t.at == s.at[c := Halted] && t.cur == s.cur[c := -1] && !t.locked
         else t.at == s.at[c := Monitor] && t.cur == s.cur && t.locked == s.locked
  {
  }

  function SchedYield(s: State, c: nat): State
    requires c < |s.at| == |s.cur| && -1 <= s.cur[c] < |s.status|
  {
    var prev := s.cur[c];
    var e := FirstRunnable(s.status, if prev != -1 then prev + 1 else 0, |s.status|);
    if 0 <= e < |s.status| then EnvRun(s, c, e)
    else if prev != -1 && s.status[prev].Running? then EnvRun(s, c, prev)
    else SchedHalt(s, c)
  }

  /** trap_dispatch for `act` on processor `c`, up to the end of trap or to sched_yield. */
  function Perform(s: State, c: nat, act: Act): State
    requires c < |s.at| == |s.cur| && 0 <= s.cur[c] < |s.status| == |s.recving|
  {
    var me := s.cur[c];
    var back := s.(at := s.at[c := Return]);
    match act
    case Other => back
    case TimerOrYield => s.(at := s.at[c := Yield])
    case Exofork(e) =>
      if e < |s.status| && s.status[e].Free? then back.(status := s.status[e := NotRunnable], recving := s.recving[e := false]) else back
    case SetStatus(e, runnable) =>
      if e < |s.status| && !s.status[e].Free? then back.(status := s.status[e := if runnable then Runnable else NotRunnable]) else back
    case IpcRecv(aligned) =>
      if aligned then s.(at := s.at[c := Yield], status := s.status[me := NotRunnable], recving := s.recving[me := true])
      else back.(status := s.status[me := NotRunnable])
    case IpcTrySend(e) =>
      if e < |s.status| && !s.status[e].Free? && s.recving[e] then back.(status := s.status[e := Runnable], recving := s.recving[e := false]) else back
    case Destroy(e) =>
      if !(e < |s.status| && !s.status[e].Free?) then back
      else if s.status[e].Running? && e != me then back.(status := s.status[e := Dying])
      else if e == me then s.(at := s.at[c := Yield], status := s.status[e := Free], cur := s.cur[c := -1])
      else back.(status := s.status[e := Free])
  }

  function Next(s: State, ch: Choice): State
    requires Shape(s)
  {
    var c := ch.c;
    if c >= |s.at| then s
    else
      match ch
      case Trap(_) => if s.at[c].User? then s.(at := s.at[c := Spin(true)]) else s
      case Tick(_) => if s.at[c].Halted? then s.(at := s.at[c := Spin(false)]) else s
      case Xchg(_) =>
        if s.at[c].Spin? && !s.locked then s.(locked := true, at := s.at[c := if s.at[c].fromUser then Entered else Yield])
        else s
      case Dispatch(_, act) =>
        if !s.at[c].Entered? || s.cur[c] == -1 then s
        else if s.status[s.cur[c]].Dying? then s.(at := s.at[c := Yield], status := s.status[s.cur[c] := Free], cur := s.cur[c := -1])
        else Perform(s, c, act)
      case Leave(_) =>
        if s.at[c].Return? && s.cur[c] != -1 && s.status[s.cur[c]].Running? then EnvRun(s, c, s.cur[c])
        else if s.at[c].Return? || s.at[c].Yield? then SchedYield(s, c)
        else s
  }

  predicate Shape(s: State) {
    && |s.at| == |s.cur| && |s.status| == |s.recving|
    && forall c :: 0 <= c < |s.cur| ==> -1 <= s.cur[c] < |s.status|
  }

  // ---------------------------------------------------------------------------------------------
  // Mutual exclusion and single residency.

  /** At most one processor is in the locked region, and the lock is taken exactly when one is. */
  ghost predicate Exclusive(s: State) {
    && (forall c, d :: 0 <= c < |s.at| && 0 <= d < |s.at| && InKernel(s.at[c]) && InKernel(s.at[d]) ==> c == d)
    && (s.locked <==> exists c :: 0 <= c < |s.at| && InKernel(s.at[c]))
  }

  /** Environment `e` is the curenv of processor `c`. */
  ghost predicate On(s: State, c: nat, e: nat) {
    c < |s.cur| && s.cur[c] == e
  }

  /** No environment is on two processors. */
  ghost predicate Single(s: State) {
    forall c: nat, d: nat, e: nat {:trigger On(s, c, e), On(s, d, e)} :: On(s, c, e) && On(s, d, e) ==> c == d
  }

  /** Environment `e` is on a processor when it is running or dying, and only then, but for one that has just blocked. */
  ghost predicate EnvOk(s: State, e: nat)
    requires e < |s.status| == |s.recving|
  {
    && (s.status[e].Running? || s.status[e].Dying? ==> exists c: nat :: On(s, c, e))
    && (s.recving[e] ==> s.status[e].NotRunnable? || s.status[e].Free?)
  }

  ghost predicate CpuOk(s: State, c: nat)
    requires c < |s.at| == |s.cur|
  {
    && (s.at[c].User? || s.at[c] == Spin(true) || s.at[c].Entered? || s.at[c].Return? ==> s.cur[c] != -1)
    && (s.at[c].Halted? || s.at[c] == Spin(false) ==> s.cur[c] == -1)
    && (s.cur[c] != -1 ==> 0 <= s.cur[c] < |s.status| && MayBeOn(s.at[c], s.status[s.cur[c]]))
  }

  /** The status of a processor's curenv: outside the kernel it is running or dying. */
  predicate MayBeOn(at: At, st: Status) {
    if at.Return? || at.Yield? || at.Monitor? then st.Running? || st.Runnable? || st.NotRunnable? else st.Running? || st.Dying?
  }

  /**
    The status table tells where the environments are: one processor in the kernel, no environment on two
    processors, what is running or dying is on a processor, a processor outside the kernel has an environment
    that is running or dying or none at all, and who waits for a message does not run.
   */
  ghost predicate Accurate(s: State) {
    && Shape(s) && Exclusive(s) && Single(s)
    && (forall e: nat {:trigger EnvOk(s, e)} :: e < |s.status| ==> EnvOk(s, e))
    && forall c: nat {:trigger CpuOk(s, c)} :: c < |s.at| ==> CpuOk(s, c)
  }

  /**
    What the kernel leaves to its callers: nobody sets the status of an environment that another processor
    runs, or makes one runnable that is blocked in sys_ipc_recv, and nobody destroys a dying environment again.
   */
  ghost predicate Orderly(s: State, ch: Choice)
    requires Shape(s)
  {
    ch.Dispatch? && ch.c < |s.at| && s.at[ch.c].Entered? && s.cur[ch.c] != -1 && !s.status[s.cur[ch.c]].Dying? ==>
      OrderlyAct(s, ch.c, ch.act)
  }

  ghost predicate OrderlyAct(s: State, c: nat, act: Act)
    requires |s.status| == |s.recving|
  {
    match act
    case SetStatus(e, runnable) => e < |s.status| && !s.status[e].Free? ==> (forall d: nat :: On(s, d, e) ==> d == c) && (runnable ==> !s.recving[e])
    case Destroy(e) => e < |s.status| ==> !s.status[e].Dying?
    case _ => true
  }

  lemma OnlyOneIn(s: State, c: nat, d: nat)
    requires Accurate(s) && c < |s.at| && d < |s.at| && InKernel(s.at[c]) && InKernel(s.at[d])
    ensures c == d
  {
  }

  /** A step of processor `c` that stays outside the kernel. */
  lemma OutsideInv(s: State, c: nat, at: At)
    requires Accurate(s) && c < |s.at| && !InKernel(s.at[c]) && !InKernel(at)
    requires (s.at[c].User? && at == Spin(true)) || (s.at[c].Halted? && at == Spin(false))
    ensures Accurate(s.(at := s.at[c := at]))
  {
    var s' := s.(at := s.at[c := at]);
    forall d: nat, e: nat ensures On(s', d, e) <==> On(s, d, e) {
    }
    forall e: nat | e < |s'.status| ensures EnvOk(s', e) {
      assert EnvOk(s, e);
    }
    forall d: nat | d < |s'.at| ensures CpuOk(s', d) {
      assert CpuOk(s, d);
    }
    if d :| 0 <= d < |s.at| && InKernel(s.at[d]) {
      assert InKernel(s'.at[d]);
    }
  }

  /** Taking the lock. */
  lemma AcquireInv(s: State, c: nat)
    requires Accurate(s) && c < |s.at| && s.at[c].Spin? && !s.locked
    ensures Accurate(s.(locked := true, at := s.at[c := if s.at[c].fromUser then Entered else Yield]))
  {
    var s' := s.(locked := true, at := s.at[c := if s.at[c].fromUser then Entered else Yield]);
    assert CpuOk(s, c);
    assert InKernel(s'.at[c]);
    forall d: nat, e: nat ensures On(s', d, e) <==> On(s, d, e) {
    }
    forall e: nat | e < |s'.status| ensures EnvOk(s', e) {
      assert EnvOk(s, e);
    }
    forall d: nat | d < |s'.at| ensures CpuOk(s', d) {
      assert CpuOk(s, d);
    }
  }

  /** Work in the kernel that leaves processor `c` there. */
  lemma InsideExclusive(s: State, c: nat, s': State)
    requires Exclusive(s) && c < |s.at| && InKernel(s.at[c]) && |s'.at| == |s.at| && s'.locked == s.locked
    requires InKernel(s'.at[c]) && forall d :: 0 <= d < |s.at| && d != c ==> s'.at[d] == s.at[d]
    ensures Exclusive(s')
  {
    assert InKernel(s'.at[c]);
  }

  lemma ReleaseExclusive(s: State, c: nat, s': State)
    requires Exclusive(s) && c < |s.at| && InKernel(s.at[c]) && |s'.at| == |s.at| && !s'.locked
    requires !InKernel(s'.at[c]) && forall d :: 0 <= d < |s.at| && d != c ==> s'.at[d] == s.at[d]
    ensures Exclusive(s')
  {
    forall d | 0 <= d < |s'.at| ensures !InKernel(s'.at[d]) {
      assert InKernel(s.at[d]) ==> d == c;
    }
  }

  /** The dying environment of a trap is freed. */
  lemma ReapInv(s: State, c: nat, e: nat)
    requires Accurate(s) && c < |s.at| && s.at[c].Entered? && s.cur[c] == e && e < |s.status|
    ensures Accurate(s.(at := s.at[c := Yield], status := s.status[e := Free], cur := s.cur[c := -1]))
  {
    var s' := s.(at := s.at[c := Yield], status := s.status[e := Free], cur := s.cur[c := -1]);
    InsideExclusive(s, c, s');
    assert On(s, c, e);
    forall d: nat, x: nat ensures On(s', d, x) <==> On(s, d, x) && d != c {
    }
    forall x: nat | x < |s'.status| ensures EnvOk(s', x) {
      assert EnvOk(s, x);
      if x != e && exists d: nat :: On(s, d, x) {
        var d: nat :| On(s, d, x);
        assert On(s', d, x);
      }
    }
    forall d: nat | d < |s'.at| ensures CpuOk(s', d) {
      assert CpuOk(s, d);
      assert d != c && s.cur[d] != -1 ==> On(s, d, s.cur[d]);
    }
  }

  /** A change to environment `e`'s status on behalf of processor `c`, which goes to the end of its trap. */
  ghost predicate StatusSet(s: State, c: nat, e: nat, st: Status, recving: bool, s': State)
    requires c < |s.at| && e < |s.status| == |s.recving|
  {
    s' == s.(at := s.at[c := Return], status := s.status[e := st], recving := s.recving[e := recving])
  }

  /** Exactly when it keeps the table accurate. */
  lemma StatusSetInv(s: State, c: nat, e: nat, st: Status, recving: bool, s': State)
    requires Accurate(s) && c < |s.at| && s.at[c].Entered? && s.cur[c] != -1 && s.status[s.cur[c]].Running? && e < |s.status|
    requires StatusSet(s, c, e, st, recving, s')
    ensures Accurate(s') <==>
      && (recving ==> st.NotRunnable? || st.Free?)
      && (st.Running? || st.Dying? ==> exists d: nat :: On(s, d, e))
      && (forall d: nat {:trigger On(s, d, e)} :: On(s, d, e) ==> MayBeOn(if d == c then Return else s.at[d], st))
  {
    InsideExclusive(s, c, s');
    forall d: nat, x: nat ensures On(s', d, x) <==> On(s, d, x) {
    }
    assert CpuOk(s, c);
    if (recving ==> st.NotRunnable? || st.Free?) && (st.Running? || st.Dying? ==> exists d: nat :: On(s, d, e))
      && (forall d: nat {:trigger On(s, d, e)} :: On(s, d, e) ==> MayBeOn(if d == c then Return else s.at[d], st)) {
      forall x: nat | x < |s'.status| ensures EnvOk(s', x) {
        assert EnvOk(s, x);
        if d: nat :| On(s, d, x) {
          assert On(s', d, x);
        }
      }
      forall d: nat | d < |s'.at| ensures CpuOk(s', d) {
        assert CpuOk(s, d);
        if s.cur[d] != -1 {
          assert On(s, d, s.cur[d]);
        }
      }
    }
    if Accurate(s') {
      assert EnvOk(s', e);
      forall d: nat | On(s, d, e) ensures MayBeOn(if d == c then Return else s.at[d], st) {
        assert CpuOk(s', d);
      }
    }
  }

  /** Processor `c` goes to sched_yield with its environment still current. */
  lemma ToYieldInv(s: State, c: nat, st: Status, recving: bool, s': State)
    requires Accurate(s) && c < |s.at| && s.at[c].Entered? && s.cur[c] != -1 && s.status[s.cur[c]].Running?
    requires (st.Running? && recving == s.recving[s.cur[c]]) || (st.NotRunnable? && recving)
    requires s' == s.(at := s.at[c := Yield], status := s.status[s.cur[c] := st], recving := s.recving[s.cur[c] := recving])
    ensures Accurate(s')
  {
    var me: nat := s.cur[c];
    InsideExclusive(s, c, s');
    assert On(s, c, me);
    forall d: nat, x: nat ensures On(s', d, x) <==> On(s, d, x) {
    }
    forall x: nat | x < |s'.status| ensures EnvOk(s', x) {
      assert EnvOk(s, x);
      if d: nat :| On(s, d, x) {
        assert On(s', d, x);
      }
    }
    forall d: nat | d < |s'.at| ensures CpuOk(s', d) {
      assert CpuOk(s, d);
      assert d != c && s.cur[d] != -1 ==> On(s, d, s.cur[d]);
    }
  }

  /** env_run hands the processor to an environment that no other processor has. */
  lemma EnvRunInv(s: State, c: nat, e: nat)
    requires Accurate(s) && c < |s.at| && (s.at[c].Return? || s.at[c].Yield?) && e < |s.status|
    requires s.status[e].Runnable? || (s.cur[c] == e && s.status[e].Running?)
    ensures Accurate(EnvRun(s, c, e))
  {
    var s' := EnvRun(s, c, e);
    ReleaseExclusive(s, c, s');
    forall d: nat | On(s, d, e) ensures d == c {
      assert CpuOk(s, d);
      if d != c {
        if s.status[e].Running? {
          assert On(s, c, e);
        } else {
          OnlyOneIn(s, c, d);
        }
      }
    }
    assert CpuOk(s, c);
    forall d: nat, x: nat ensures On(s', d, x) <==> (if d == c then x == e else On(s, d, x)) {
    }
    assert On(s', c, e);
    forall x: nat | x < |s'.status| ensures EnvOk(s', x) {
      assert EnvOk(s, x);
      if x != e && x != s.cur[c] && exists d: nat :: On(s, d, x) {
        var d: nat :| On(s, d, x);
        assert On(s', d, x);
      }
    }
    forall d: nat | d < |s'.at| ensures CpuOk(s', d) {
      assert CpuOk(s, d);
      if d != c && s.cur[d] != -1 {
        assert On(s, d, s.cur[d]);
        assert s.cur[c] != -1 ==> On(s, c, s.cur[c]);
      }
    }
  }

  lemma HaltInv(s: State, c: nat)
    requires Accurate(s) && c < |s.at| && (s.at[c].Return? || s.at[c].Yield?)
    requires s.cur[c] != -1 ==> !s.status[s.cur[c]].Running?
    ensures Accurate(SchedHalt(s, c))
  {
    var s' := SchedHalt(s, c);
    assert CpuOk(s, c);
    if s'.at[c].Monitor? {
      InsideExclusive(s, c, s');
    } else {
      ReleaseExclusive(s, c, s');
    }
    forall d: nat, x: nat ensures On(s', d, x) <==> On(s, d, x) && (s'.at[c].Monitor? || d != c) {
    }
    forall x: nat | x < |s'.status| ensures EnvOk(s', x) {
      assert EnvOk(s, x);
      if d: nat :| On(s, d, x) {
        assert s.status[x].Running? || s.status[x].Dying? ==> d != c;
        assert d != c ==> On(s', d, x);
      }
    }
    forall d: nat | d < |s'.at| ensures CpuOk(s', d) {
      assert CpuOk(s, d);
    }
  }

  lemma {:induction false} FirstIsRunnable(status: seq<Status>, begin: nat, n: nat)
    ensures var e := FirstRunnable(status, begin, n); e == -1 || (0 <= e < |status| && status[e].Runnable?)
    decreases n
  {
    if n > 0 && status != [] && !status[begin % |status|].Runnable? {
      FirstIsRunnable(status, begin + 1, n - 1);
    }
  }

  lemma YieldInv(s: State, c: nat)
    requires Accurate(s) && c < |s.at| && (s.at[c].Return? || s.at[c].Yield?)
    ensures Accurate(SchedYield(s, c))
  {
    var prev := s.cur[c];
    var begin := if prev != -1 then prev + 1 else 0;
    FirstIsRunnable(s.status, begin, |s.status|);
    var e := FirstRunnable(s.status, begin, |s.status|);
    hide Accurate, EnvRun, SchedHalt, FirstRunnable;
    if 0 <= e < |s.status| {
      EnvRunInv(s, c, e);
    } else if prev != -1 && s.status[prev].Running? {
      EnvRunInv(s, c, prev);
    } else {
      HaltInv(s, c);
    }
  }

  /** An environment that nobody runs is on no processor but possibly one inside the kernel. */
  lemma NotOn(s: State, c: nat, e: nat)
    requires Accurate(s) && c < |s.at| && s.at[c].Entered? && e < |s.status| && !s.status[e].Running? && !s.status[e].Dying?
    ensures forall d: nat {:trigger On(s, d, e)} :: !On(s, d, e)
  {
    forall d: nat ensures !On(s, d, e) {
      if On(s, d, e) {
        assert CpuOk(s, d);
        OnlyOneIn(s, c, d);
      }
    }
  }

  /** Every other processor is outside the kernel. */
  lemma OthersOutside(s: State, c: nat)
    requires Accurate(s) && c < |s.at| && s.at[c].Entered?
    ensures forall d: nat {:trigger s.at[d]} :: d < |s.at| && d != c ==> !InKernel(s.at[d])
  {
    forall d: nat | d < |s.at| && d != c ensures !InKernel(s.at[d]) {
      if InKernel(s.at[d]) {
        OnlyOneIn(s, c, d);
      }
    }
  }

  /** What a trap does keeps the table accurate exactly when it is orderly. */
  lemma PerformIff(s: State, c: nat, act: Act)
    requires Accurate(s) && c < |s.at| && s.at[c].Entered? && s.cur[c] != -1 && !s.status[s.cur[c]].Dying?
    ensures Accurate(Perform(s, c, act)) <==> OrderlyAct(s, c, act)
  {
    var me: nat := s.cur[c];
    assert CpuOk(s, c) && On(s, c, me);
    OthersOutside(s, c);
    var s' := Perform(s, c, act);
    assert s.status[me := s.status[me]] == s.status && s.recving[me := s.recving[me]] == s.recving;
    StatusSetInv(s, c, me, s.status[me], s.recving[me], s.(at := s.at[c := Return]));
    assert EnvOk(s, me);
    assert Single(s);
    var back := s.(at := s.at[c := Return]);
    assert Accurate(back) by {
      forall d: nat | On(s, d, me) ensures d == c {
      }
    }
    match act
    case Other =>
    case TimerOrYield => ToYieldInv(s, c, s.status[me], s.recving[me], s');
    case IpcRecv(aligned) =>
      if aligned {
        ToYieldInv(s, c, NotRunnable, true, s');
      } else {
        StatusSetInv(s, c, me, NotRunnable, s.recving[me], s');
      }
    case Exofork(e) =>
      if e < |s.status| && s.status[e].Free? {
        NotOn(s, c, e);
        StatusSetInv(s, c, e, NotRunnable, false, s');
      }
    case SetStatus(e, runnable) => SetStatusIff(s, c, e, runnable);
    case IpcTrySend(e) =>
      if e < |s.status| && !s.status[e].Free? && s.recving[e] {
        assert EnvOk(s, e);
        NotOn(s, c, e);
        StatusSetInv(s, c, e, Runnable, false, s');
      }
    case Destroy(e) => DestroyIff(s, c, e);
  }

  lemma SetStatusIff(s: State, c: nat, e: nat, runnable: bool)
    requires Accurate(s) && c < |s.at| && s.at[c].Entered? && s.cur[c] != -1 && s.status[s.cur[c]].Running?
    requires Accurate(s.(at := s.at[c := Return]))
    ensures Accurate(Perform(s, c, SetStatus(e, runnable))) <==> OrderlyAct(s, c, SetStatus(e, runnable))
  {
    if e < |s.status| && !s.status[e].Free? {
      OthersOutside(s, c);
      var st := if runnable then Runnable else NotRunnable;
      assert s.recving[e := s.recving[e]] == s.recving;
      StatusSetInv(s, c, e, st, s.recving[e], Perform(s, c, SetStatus(e, runnable)));
      hide Accurate;
      if forall d: nat {:trigger On(s, d, e)} :: On(s, d, e) ==> MayBeOn(if d == c then Return else s.at[d], st) {
        forall d: nat | On(s, d, e) ensures d == c {
          assert MayBeOn(if d == c then Return else s.at[d], st);
        }
      }
    }
  }

  lemma DestroyIff(s: State, c: nat, e: nat)
    requires Accurate(s) && c < |s.at| && s.at[c].Entered? && s.cur[c] != -1 && s.status[s.cur[c]].Running?
    requires Accurate(s.(at := s.at[c := Return]))
    ensures Accurate(Perform(s, c, Destroy(e))) <==> OrderlyAct(s, c, Destroy(e))
  {
    if e < |s.status| && !s.status[e].Free? {
      var me: nat := s.cur[c];
      OthersOutside(s, c);
      assert EnvOk(s, e);
      assert s.recving[e := s.recving[e]] == s.recving;
      var s' := Perform(s, c, Destroy(e));
      if e == me {
        ReapInv(s, c, me);
      } else if s.status[e].Running? {
        StatusSetInv(s, c, e, Dying, s.recving[e], s');
        hide Accurate;
        forall d: nat | On(s, d, e) ensures MayBeOn(if d == c then Return else s.at[d], Dying) {
          assert d != c;
        }
      } else {
        StatusSetInv(s, c, e, Free, s.recving[e], s');
        if s.status[e].Dying? {
          var d: nat :| On(s, d, e);
          assert d != c;
          assert !MayBeOn(s.at[d], Free);
        } else {
          NotOn(s, c, e);
        }
      }
    }
  }

  /** Every step keeps the status table accurate exactly when it is orderly. */
  lemma NextIff(s: State, ch: Choice)
    requires Accurate(s)
    ensures Accurate(Next(s, ch)) <==> Orderly(s, ch)
  {
    var c := ch.c;
    if c < |s.at| {
      assert CpuOk(s, c);
      hide Accurate, OrderlyAct, Perform, EnvRun, SchedYield;
      match ch
      case Trap(_) =>
        if s.at[c].User? {
          OutsideInv(s, c, Spin(true));
        }
      case Tick(_) =>
        if s.at[c].Halted? {
          OutsideInv(s, c, Spin(false));
        }
      case Xchg(_) =>
        if s.at[c].Spin? && !s.locked {
          AcquireInv(s, c);
        }
      case Dispatch(_, act) =>
        if s.at[c].Entered? && s.cur[c] != -1 {
          if s.status[s.cur[c]].Dying? {
            ReapInv(s, c, s.cur[c]);
          } else {
            PerformIff(s, c, act);
          }
        }
      case Leave(_) =>
        if s.at[c].Return? && s.cur[c] != -1 && s.status[s.cur[c]].Running? {
          EnvRunInv(s, c, s.cur[c]);
        } else if s.at[c].Return? || s.at[c].Yield? {
          YieldInv(s, c);
        }
    }
  }

  lemma NextShape(s: State, ch: Choice)
    requires Shape(s)
    ensures Shape(Next(s, ch)) && |Next(s, ch).at| == |s.at| && |Next(s, ch).status| == |s.status|
  {
  }

  function Run(s: State, run: seq<Choice>): (s': State)
    requires Shape(s)
    ensures Shape(s')
    decreases |run|
  {
    if run == [] then s
    else
      NextShape(s, run[0]);
      Run(Next(s, run[0]), run[1..])
  }

  ghost predicate OrderlyRun(s: State, run: seq<Choice>)
    requires Shape(s)
    decreases |run|
  {
    if run == [] then true
    else
      NextShape(s, run[0]);
      Orderly(s, run[0]) && OrderlyRun(Next(s, run[0]), run[1..])
  }

  lemma {:induction false} RunInv(s: State, run: seq<Choice>)
    requires Accurate(s) && OrderlyRun(s, run)
    ensures Accurate(Run(s, run))
    decreases |run|
  {
    if run != [] {
      NextIff(s, run[0]);
      NextShape(s, run[0]);
      RunInv(Next(s, run[0]), run[1..]);
    }
  }

  /** The boot processor is in the kernel on its way to sched_yield; the others wait for the lock in mp_main. */
  function Boot(ncpus: nat, status: seq<Status>): State
    requires ncpus > 0
  {
    State(true, [Yield] + seq(ncpus - 1, _ => Spin(false)), seq(ncpus, _ => -1), status, seq(|status|, _ => false))
  }

  /** Over every orderly run: one processor in the kernel at a time, and every running environment on exactly one processor. */
  lemma AccurateAlways(ncpus: nat, status: seq<Status>, run: seq<Choice>)
    requires ncpus > 0 && (forall e :: 0 <= e < |status| ==> status[e].Free? || status[e].Runnable?)
    requires Shape(Boot(ncpus, status)) && OrderlyRun(Boot(ncpus, status), run)
    ensures var s := Run(Boot(ncpus, status), run);
      && (forall c, d :: 0 <= c < |s.at| && 0 <= d < |s.at| && InKernel(s.at[c]) && InKernel(s.at[d]) ==> c == d)
      && (forall c: nat, d: nat, e: nat :: On(s, c, e) && On(s, d, e) ==> c == d)
      && (forall e: nat :: e < |s.status| && s.status[e].Running? ==> exists c: nat :: On(s, c, e))
      && (forall c: nat :: c < |s.at| && s.at[c].User? ==> 0 <= s.cur[c] < |s.status| && (s.status[s.cur[c]].Running? || s.status[s.cur[c]].Dying?))
  {
    var b := Boot(ncpus, status);
    assert InKernel(b.at[0]);
    forall e: nat | e < |b.status| ensures EnvOk(b, e) {
    }
    forall c: nat | c < |b.at| ensures CpuOk(b, c) {
    }
    assert Accurate(b);
    RunInv(b, run);
    var s := Run(b, run);
    forall e: nat | e < |s.status| && s.status[e].Running? ensures exists c: nat :: On(s, c, e) {
      assert EnvOk(s, e);
    }
    forall c: nat | c < |s.at| && s.at[c].User? ensures 0 <= s.cur[c] < |s.status| && (s.status[s.cur[c]].Running? || s.status[s.cur[c]].Dying?) {
      assert CpuOk(s, c);
    }
  }
}
