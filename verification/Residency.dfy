/**
  Single residency: when can an environment of JOS end up on two processors?  Only sys_env_set_status and
  sys_ipc_try_send can bring that about, by making an environment runnable that another processor still runs.
 */
module Residency {
  import opened KernelLock
  import opened Division

  /** A system call makes `e` runnable although another processor has it. */
  ghost predicate Wakes(s: State, c: nat, act: Act)
    requires |s.status| == |s.recving|
  {
    match act
    case SetStatus(e, runnable) => runnable && e < |s.status| && !s.status[e].Free? && Elsewhere(s, c, e)
    case IpcTrySend(e) => e < |s.status| && !s.status[e].Free? && s.recving[e] && Elsewhere(s, c, e)
    case _ => false
  }

  ghost predicate Elsewhere(s: State, c: nat, e: nat) {
    exists d: nat :: On(s, d, e) && d != c
  }

  /** The step does no such thing. */
  ghost predicate Careful(s: State, ch: Choice)
    requires Shape(s)
  {
    ch.Dispatch? && ch.c < |s.at| && s.at[ch.c].Entered? && s.cur[ch.c] != -1 && !s.status[s.cur[ch.c]].Dying? ==>
      !Wakes(s, ch.c, ch.act)
  }

  ghost predicate CarefulRun(s: State, run: seq<Choice>)
    requires Shape(s)
    decreases |run|
  {
    if run == [] then true
    else
      NextShape(s, run[0]);
      Careful(s, run[0]) && CarefulRun(Next(s, run[0]), run[1..])
  }

  /** Single residency survives every careful run from here. */
  ghost predicate StaysSingle(s: State)
    requires Shape(s)
  {
    forall run: seq<Choice> :: CarefulRun(s, run) ==> Single(Run(s, run))
  }

  /** A processor outside the kernel never has a runnable environment. */
  ghost predicate Parked(s: State)
    requires Shape(s)
  {
    forall c: nat, e: nat {:trigger On(s, c, e)} :: On(s, c, e) && !InKernel(s.at[c]) ==> !s.status[e].Runnable?
  }

  ghost predicate Safe(s: State) {
    Shape(s) && Exclusive(s) && Single(s) && Parked(s)
  }

  // ---------------------------------------------------------------------------------------------
  // Careful steps keep it.

  lemma OutsideSafe(s: State, c: nat, at: At)
    requires Safe(s) && c < |s.at| && !InKernel(s.at[c]) && !InKernel(at)
    ensures Safe(s.(at := s.at[c := at]))
  {
    var s' := s.(at := s.at[c := at]);
    forall d: nat, e: nat ensures On(s', d, e) <==> On(s, d, e) {
    }
    if d :| 0 <= d < |s.at| && InKernel(s.at[d]) {
      assert InKernel(s'.at[d]);
    }
  }

  lemma AcquireSafe(s: State, c: nat)
    requires Safe(s) && c < |s.at| && s.at[c].Spin? && !s.locked
    ensures Safe(s.(locked := true, at := s.at[c := if s.at[c].fromUser then Entered else Yield]))
  {
    var s' := s.(locked := true, at := s.at[c := if s.at[c].fromUser then Entered else Yield]);
    assert InKernel(s'.at[c]);
    forall d: nat, e: nat ensures On(s', d, e) <==> On(s, d, e) {
    }
  }

  /** Work in the kernel: `c` stays there, may give up its environment, and makes nobody runnable but possibly `e`. */
  lemma InsideSafe(s: State, c: nat, s': State, e: nat)
    requires Safe(s) && c < |s.at| && InKernel(s.at[c]) && Shape(s') && |s'.at| == |s.at| && |s'.status| == |s.status|
    requires s'.locked == s.locked && s'.at == s.at[c := s'.at[c]] && InKernel(s'.at[c])
    requires s'.cur == s.cur || s'.cur == s.cur[c := -1]
    requires forall x: nat :: x < |s.status| && s'.status[x].Runnable? ==> s.status[x].Runnable? || x == e
    requires e < |s.status| && s'.status[e].Runnable? ==> !Elsewhere(s, c, e)
    ensures Safe(s')
  {
    InsideExclusive(s, c, s');
    forall d: nat, x: nat ensures On(s', d, x) ==> On(s, d, x) {
    }
    forall d: nat, x: nat | On(s', d, x) && !InKernel(s'.at[d]) ensures !s'.status[x].Runnable? {
      assert On(s, d, x) && d != c;
    }
  }

  lemma PerformSafe(s: State, c: nat, act: Act)
    requires Safe(s) && c < |s.at| && s.at[c].Entered? && s.cur[c] != -1 && !Wakes(s, c, act)
    ensures Safe(Perform(s, c, act))
  {
    var s' := Perform(s, c, act);
    var e := if act.SetStatus? || act.IpcTrySend? then act.e else |s.status|;
    InsideSafe(s, c, s', e);
  }

  lemma OffTheKernel(s: State, c: nat, d: nat, e: nat)
    requires Safe(s) && c < |s.at| && InKernel(s.at[c]) && e < |s.status| && s.status[e].Runnable? && On(s, d, e)
    ensures d == c
  {
    assert InKernel(s.at[d]);
  }

  lemma EnvRunSafe(s: State, c: nat, e: nat)
    requires Safe(s) && c < |s.at| && InKernel(s.at[c]) && e < |s.status| && (s.status[e].Runnable? || s.cur[c] == e)
    ensures Safe(EnvRun(s, c, e))
  {
    var s' := EnvRun(s, c, e);
    ReleaseExclusive(s, c, s');
    forall d: nat | On(s, d, e) ensures d == c {
      if s.status[e].Runnable? {
        OffTheKernel(s, c, d, e);
      } else {
        assert On(s, c, e);
      }
    }
    forall d: nat, x: nat ensures On(s', d, x) <==> (if d == c then x == e else On(s, d, x)) {
    }
    forall d: nat, x: nat | On(s', d, x) ensures !s'.status[x].Runnable? {
      if d != c {
        assert On(s, d, x) && !InKernel(s.at[d]);
        assert s.cur[c] == x ==> On(s, c, x);
      }
    }
  }

  lemma HaltSafe(s: State, c: nat)
    requires Safe(s) && c < |s.at| && InKernel(s.at[c])
    ensures Safe(SchedHalt(s, c))
  {
    var s' := SchedHalt(s, c);
    if s'.at[c].Monitor? {
      InsideSafe(s, c, s', |s.status|);
    } else {
      ReleaseExclusive(s, c, s');
      forall d: nat, x: nat ensures On(s', d, x) <==> On(s, d, x) && d != c {
      }
    }
  }

  lemma YieldSafe(s: State, c: nat)
    requires Safe(s) && c < |s.at| && InKernel(s.at[c])
    ensures Safe(SchedYield(s, c))
  {
    var prev := s.cur[c];
    FirstIsRunnable(s.status, if prev != -1 then prev + 1 else 0, |s.status|);
    var e := FirstRunnable(s.status, if prev != -1 then prev + 1 else 0, |s.status|);
    hide Safe, EnvRun, SchedHalt, FirstRunnable;
    SafeShape(s);
    if 0 <= e < |s.status| {
      EnvRunSafe(s, c, e);
    } else if prev != -1 && s.status[prev].Running? {
      EnvRunSafe(s, c, prev);
    } else {
      HaltSafe(s, c);
    }
  }

  lemma SafeShape(s: State)
    requires Safe(s)
    ensures Shape(s)
  {
  }

  lemma StepSafe(s: State, ch: Choice)
    requires Safe(s) && Careful(s, ch)
    ensures Safe(Next(s, ch))
  {
    var c := ch.c;
    if c < |s.at| {
      hide Safe, Perform, EnvRun, SchedYield, Wakes;
      SafeShape(s);
      match ch
      case Trap(_) =>
        if s.at[c].User? {
          OutsideSafe(s, c, Spin(true));
        }
      case Tick(_) =>
        if s.at[c].Halted? {
          OutsideSafe(s, c, Spin(false));
        }
      case Xchg(_) =>
        if s.at[c].Spin? && !s.locked {
          AcquireSafe(s, c);
        }
      case Dispatch(_, act) =>
        if s.at[c].Entered? && s.cur[c] != -1 {
          if s.status[s.cur[c]].Dying? {
            InsideSafe(s, c, Next(s, ch), |s.status|);
          } else {
            PerformSafe(s, c, act);
          }
        }
      case Leave(_) =>
        if s.at[c].Return? && s.cur[c] != -1 && s.status[s.cur[c]].Running? {
          EnvRunSafe(s, c, s.cur[c]);
        } else if s.at[c].Return? || s.at[c].Yield? {
          YieldSafe(s, c);
        }
    }
  }

  lemma {:induction false} RunSafe(s: State, run: seq<Choice>)
    requires Safe(s) && CarefulRun(s, run)
    ensures Safe(Run(s, run))
    decreases |run|
  {
    hide Safe, Next, Careful;
    SafeShape(s);
    if run != [] {
      NextShape(s, run[0]);
      StepSafe(s, run[0]);
      RunSafe(Next(s, run[0]), run[1..]);
    }
  }

  // ---------------------------------------------------------------------------------------------
  // After a careless step, timer interrupts alone break it.

  /** No system call at all. */
  predicate TimersOnly(run: seq<Choice>) {
    forall i :: 0 <= i < |run| && run[i].Dispatch? ==> run[i].act.TimerOrYield?
  }

  lemma {:induction false} TimersCareful(s: State, run: seq<Choice>)
    requires Shape(s) && TimersOnly(run)
    ensures CarefulRun(s, run)
    decreases |run|
  {
    if run != [] {
      NextShape(s, run[0]);
      assert Careful(s, run[0]);
      TimersCareful(Next(s, run[0]), run[1..]);
    }
  }

  lemma {:induction false} RunAppend(s: State, a: seq<Choice>, b: seq<Choice>)
    requires Shape(s)
    ensures Run(s, a + b) == Run(Run(s, a), b)
    decreases |a|
  {
    hide Next;
    if a == [] {
      assert a + b == b;
    } else {
      NextShape(s, a[0]);
      assert (a + b)[0] == a[0] && (a + b)[1..] == a[1..] + b;
      RunAppend(Next(s, a[0]), a[1..], b);
    }
  }

  lemma RunOne(s: State, ch: Choice)
    requires Shape(s)
    ensures Run(s, [ch]) == Next(s, ch)
  {
    NextShape(s, ch);
    assert [ch][1..] == [];
  }

  /** Processor `c` traps from user code, takes the lock and dispatches. */
  function Enter(c: nat, act: Act): seq<Choice> {
    [Trap(c), Xchg(c), Dispatch(c, act)]
  }

  lemma EnterRun(s: State, c: nat, act: Act)
    requires Shape(s) && c < |s.at| && s.at[c].User? && !s.locked && s.cur[c] != -1 && !s.status[s.cur[c]].Dying?
    ensures Run(s, Enter(c, act)) == Perform(s.(locked := true, at := s.at[c := Entered]), c, act)
  {
    hide Perform;
    var s1 := Next(s, Trap(c));
    NextShape(s, Trap(c));
    NextShape(s1, Xchg(c));
    var s2 := Next(s1, Xchg(c));
    assert s2 == s.(locked := true, at := s.at[c := Entered]);
    RunOne(s, Trap(c));
    RunOne(s1, Xchg(c));
    RunOne(s2, Dispatch(c, act));
    RunAppend(s, [Trap(c)], [Xchg(c)]);
    RunAppend(s, [Trap(c), Xchg(c)], [Dispatch(c, act)]);
    assert Enter(c, act) == [Trap(c), Xchg(c)] + [Dispatch(c, act)];
  }

  /** Slot `e` is `k` places after slot `begin`. */
  predicate Ahead(n: nat, begin: nat, k: nat, e: nat)
    requires n > 0
  {
    k < n && (begin + k) % n == e
  }

  /** The scheduler stops at `x`, before `e`; from there `e` is nearer. */
  lemma Nearer(n: nat, begin: nat, k: nat, e: nat, x: nat)
    requires n > 0 && Ahead(n, begin, k, e) && begin <= x < begin + k
    ensures Ahead(n, x % n + 1, begin + k - x - 1, e)
  {
    var y := begin + k;
    var q := y / n - x / n;
    assert y == n * (y / n) + e && x == n * (x / n) + x % n;
    assert n * q == n * (y / n) - n * (x / n);
    QuotientIs(n, q, e);
    assert x % n + 1 + (y - x - 1) == n * q + e;
  }

  /** `c` is about to choose an environment, and `e` is runnable although `d` has it. */
  ghost predicate AtRisk(s: State, c: nat, d: nat, e: nat) {
    && Shape(s) && c < |s.at| && d < |s.at| && c != d && e < |s.status| && s.cur[d] == e && s.status[e].Runnable?
    && (s.at[c].Yield? || (s.at[c].Return? && (s.cur[c] == -1 || !s.status[s.cur[c]].Running?)))
  }

  function Begin(s: State, c: nat): nat
    requires Shape(s) && c < |s.cur|
  {
    if s.cur[c] != -1 then s.cur[c] + 1 else 0
  }

  /** sched_yield takes `e` itself, or somebody before `e`, who is sent back by the next timer interrupt. */
  lemma YieldOnce(s: State, c: nat, d: nat, e: nat, k: nat) returns (x: nat)
    requires AtRisk(s, c, d, e) && Ahead(|s.status|, Begin(s, c), k, e)
    ensures Begin(s, c) <= x <= Begin(s, c) + k
    ensures Next(s, Leave(c)) == EnvRun(s, c, x % |s.status|)
    ensures x == Begin(s, c) + k || x % |s.status| != e
  {
    var begin := Begin(s, c);
    x := FirstInOrder(s.status, begin, |s.status|);
    assert RunnableAt(s.status, begin + k);
    if x != begin + k && x % |s.status| == e {
      x := begin + k;
    }
  }

  /** The state after that timer interrupt. */
  lemma TimerAgain(s: State, c: nat, d: nat, e: nat, x: nat)
    requires AtRisk(s, c, d, e) && x < |s.status| && x != e && s.cur[c] != e
    ensures Shape(EnvRun(s, c, x)) && AtRisk(Run(EnvRun(s, c, x), Enter(c, TimerOrYield)), c, d, e)
    ensures Begin(Run(EnvRun(s, c, x), Enter(c, TimerOrYield)), c) == x + 1
    ensures |Run(EnvRun(s, c, x), Enter(c, TimerOrYield)).status| == |s.status|
  {
    EnterRun(EnvRun(s, c, x), c, TimerOrYield);
  }

  lemma {:induction false} TimersBreak(s: State, c: nat, d: nat, e: nat, k: nat) returns (run: seq<Choice>)
    requires AtRisk(s, c, d, e) && Ahead(|s.status|, Begin(s, c), k, e)
    ensures TimersOnly(run) && !Single(Run(s, run))
    decreases k
  {
    if s.cur[c] == e {
      run := [];
      assert On(s, c, e) && On(s, d, e);
    } else {
      var x := YieldOnce(s, c, d, e, k);
      var t := Next(s, Leave(c));
      RunOne(s, Leave(c));
      if x == Begin(s, c) + k {
        run := [Leave(c)];
        assert On(t, c, e) && On(t, d, e);
      } else {
        Nearer(|s.status|, Begin(s, c), k, e, x);
        TimerAgain(s, c, d, e, x % |s.status|);
        var rest := TimersBreak(Run(t, Enter(c, TimerOrYield)), c, d, e, Begin(s, c) + k - x - 1);
        run := [Leave(c)] + Enter(c, TimerOrYield) + rest;
        RunAppend(s, [Leave(c)] + Enter(c, TimerOrYield), rest);
        RunAppend(s, [Leave(c)], Enter(c, TimerOrYield));
      }
    }
  }

  lemma SomewhereAhead(n: nat, begin: nat, e: nat) returns (k: nat)
    requires e < n
    ensures Ahead(n, begin, k, e)
  {
    var y := EverySlot(seq(n, _ => Free), begin, e);
    k := y - begin;
  }

  /** A careless call by an environment that keeps running: it is interrupted next. */
  lemma BreakAfterReturn(t: State, c: nat, d: nat, e: nat) returns (run: seq<Choice>)
    requires Shape(t) && c < |t.at| && t.at[c].Return? && t.cur[c] != -1 && t.status[t.cur[c]].Running?
    requires d < |t.at| && d != c && e < |t.status| && t.cur[d] == e && t.status[e].Runnable?
    ensures TimersOnly(run) && !Single(Run(t, run))
  {
    var u := Next(t, Leave(c));
    RunOne(t, Leave(c));
    EnterRun(u, c, TimerOrYield);
    var v := Run(u, Enter(c, TimerOrYield));
    var k := SomewhereAhead(|v.status|, Begin(v, c), e);
    var rest := TimersBreak(v, c, d, e, k);
    run := [Leave(c)] + Enter(c, TimerOrYield) + rest;
    RunAppend(t, [Leave(c)] + Enter(c, TimerOrYield), rest);
    RunAppend(t, [Leave(c)], Enter(c, TimerOrYield));
  }

  /** A careless call: some timer interrupts later, two processors run one environment. */
  lemma CarelessBreaks(s: State, c: nat, act: Act) returns (run: seq<Choice>)
    requires Safe(s) && c < |s.at| && s.at[c].Entered? && s.cur[c] != -1 && !s.status[s.cur[c]].Dying? && Wakes(s, c, act)
    ensures Shape(Perform(s, c, act)) && TimersOnly(run) && !Single(Run(Perform(s, c, act), run))
  {
    var e := act.e;
    var d: nat :| On(s, d, e) && d != c;
    var t := Perform(s, c, act);
    if t.status[t.cur[c]].Running? {
      run := BreakAfterReturn(t, c, d, e);
    } else {
      var k := SomewhereAhead(|t.status|, Begin(t, c), e);
      run := TimersBreak(t, c, d, e, k);
    }
  }

  /**
    Single residency, exactly: after a step it survives whatever careful steps the processors take in
    whatever order if and only if the step itself was careful.
   */
  lemma ResidencyIff(s: State, ch: Choice)
    requires Safe(s)
    ensures Shape(Next(s, ch)) && (Careful(s, ch) <==> StaysSingle(Next(s, ch)))
  {
    NextShape(s, ch);
    var t := Next(s, ch);
    if Careful(s, ch) {
      StepSafe(s, ch);
      forall run: seq<Choice> | CarefulRun(t, run) ensures Single(Run(t, run)) {
        RunSafe(t, run);
      }
    } else {
      var run := CarelessBreaks(s, ch.c, ch.act);
      TimersCareful(t, run);
    }
  }

  lemma BootSafe(ncpus: nat, status: seq<Status>)
    requires ncpus > 0
    ensures Safe(Boot(ncpus, status))
  {
    var b := Boot(ncpus, status);
    assert InKernel(b.at[0]);
  }

  /** From boot on, over every careful run: one processor in the kernel and no environment on two processors. */
  lemma SingleResidency(ncpus: nat, status: seq<Status>, run: seq<Choice>)
    requires ncpus > 0 && Shape(Boot(ncpus, status)) && CarefulRun(Boot(ncpus, status), run)
    ensures Exclusive(Run(Boot(ncpus, status), run)) && Single(Run(Boot(ncpus, status), run))
  {
    BootSafe(ncpus, status);
    RunSafe(Boot(ncpus, status), run);
  }

  // ---------------------------------------------------------------------------------------------
  // Two runs on two processors that end with one environment on both.

  /** Environment 0 runs on processor 0; slot 1, whether it waits for a message, and processor 1 are as given. */
  function Pair(at1: At, cur1: int, st1: Status, waits: bool): State {
    State(false, [User, at1], [0, cur1], [Running, st1], [false, waits])
  }

  function Two(at1: At, cur1: int, st1: Status): State {
    Pair(at1, cur1, st1, false)
  }

  function Call(act: Act): seq<Choice> {
    Enter(0, act) + [Leave(0)]
  }

  /** What the calls of environment 0 make of the status of slot 1 and of its waiting. */
  predicate Sets(st1: Status, waits: bool, act: Act, st: Status, waits': bool) {
    match act
    case Exofork(e) => e == 1 && st1.Free? && st.NotRunnable? && !waits'
    case SetStatus(e, runnable) => e == 1 && !st1.Free? && runnable && st.Runnable? && waits' == waits
    case IpcTrySend(e) => e == 1 && !st1.Free? && waits && st.Runnable? && !waits'
    case Destroy(e) => e == 1 && ((st1.Running? && st.Dying?) || (st1.Dying? && st.Free?)) && waits' == waits
    case _ => false
  }

  lemma PerformTwo(s: State, at1: At, cur1: int, st1: Status, waits: bool, act: Act, st: Status, waits': bool)
    requires s == State(true, [Entered, at1], [0, cur1], [Running, st1], [false, waits]) && Sets(st1, waits, act, st, waits')
    ensures Perform(s, 0, act) == State(true, [Return, at1], [0, cur1], [Running, st], [false, waits'])
  {
    assert s.at[0 := Return] == [Return, at1];
    assert s.status[1 := st] == [Running, st] && s.recving[1 := false] == [false, false];
  }

  lemma LeaveTwo(s: State, at1: At, cur1: int, st: Status, waits: bool)
    requires s == State(true, [Return, at1], [0, cur1], [Running, st], [false, waits]) && -1 <= cur1 < 2
    ensures Shape(s) && Next(s, Leave(0)) == Pair(at1, cur1, st, waits)
  {
    hide SchedYield;
    assert s.at[0 := User] == [User, at1] && s.cur[0 := 0] == s.cur;
    assert s.status[0 := Runnable][0 := Running] == s.status;
  }

  /** A system call of environment 0 about slot 1 sets its status to `st`. */
  lemma CallRun(at1: At, cur1: int, st1: Status, waits: bool, act: Act, st: Status, waits': bool)
    requires -1 <= cur1 < 2 && Sets(st1, waits, act, st, waits')
    ensures Shape(Pair(at1, cur1, st1, waits)) && Run(Pair(at1, cur1, st1, waits), Call(act)) == Pair(at1, cur1, st, waits')
  {
    hide Perform, Next, Run, Enter, Sets;
    var s := Pair(at1, cur1, st1, waits);
    EnterRun(s, 0, act);
    assert s.at[0 := Entered] == [Entered, at1];
    var entered := State(true, [Entered, at1], [0, cur1], [Running, st1], [false, waits]);
    var t := State(true, [Return, at1], [0, cur1], [Running, st], [false, waits']);
    PerformTwo(entered, at1, cur1, st1, waits, act, st, waits');
    RunAppend(s, Enter(0, act), [Leave(0)]);
    LeaveTwo(t, at1, cur1, st, waits');
    RunOne(t, Leave(0));
  }

  /** Environment 0 starts, makes a child and lets it run; processor 1 takes it. */
  function ChildRuns(): seq<Choice> {
    [Leave(0)] + Call(Exofork(1)) + Call(SetStatus(1, true)) + [Xchg(1), Leave(1)]
  }

  lemma ChildRunsRun()
    ensures Shape(Boot(2, [Runnable, Free])) && Run(Boot(2, [Runnable, Free]), ChildRuns()) == Two(User, 1, Running)
  {
    var b := Boot(2, [Runnable, Free]);
    ChildStarts();
    CallRun(Spin(false), -1, Free, false, Exofork(1), NotRunnable, false);
    CallRun(Spin(false), -1, NotRunnable, false, SetStatus(1, true), Runnable, false);
    ChildTaken();
    hide *;
    RunAppend(b, [Leave(0)], Call(Exofork(1)));
    RunAppend(b, [Leave(0)] + Call(Exofork(1)), Call(SetStatus(1, true)));
    RunAppend(b, [Leave(0)] + Call(Exofork(1)) + Call(SetStatus(1, true)), [Xchg(1), Leave(1)]);
    ChildRunsIs();
  }

  lemma ChildRunsIs()
    ensures ChildRuns() == [Leave(0)] + Call(Exofork(1)) + Call(SetStatus(1, true)) + [Xchg(1), Leave(1)]
  {
  }

  lemma ChildStarts()
    ensures Shape(Boot(2, [Runnable, Free])) && Run(Boot(2, [Runnable, Free]), [Leave(0)]) == Two(Spin(false), -1, Free)
  {
    var b := Boot(2, [Runnable, Free]);
    RunOne(b, Leave(0));
    assert b == State(true, [Yield, Spin(false)], [-1, -1], [Runnable, Free], [false, false]);
    assert FirstRunnable([Runnable, Free], 0, 2) == 0;
  }

  lemma ChildTaken()
    ensures Shape(Two(Spin(false), -1, Runnable)) && Run(Two(Spin(false), -1, Runnable), [Xchg(1), Leave(1)]) == Two(User, 1, Running)
  {
    var s := Two(Spin(false), -1, Runnable);
    var t := State(true, [User, Yield], [0, -1], [Running, Runnable], [false, false]);
    RunOne(s, Xchg(1));
    assert Next(s, Xchg(1)) == t;
    RunAppend(s, [Xchg(1)], [Leave(1)]);
    RunOne(t, Leave(1));
    assert FirstRunnable([Running, Runnable], 0, 2) == FirstRunnable([Running, Runnable], 1, 1) == 1;
  }

  /** Processor 0 is interrupted and takes the environment that processor 1 still runs. */
  lemma BothRun()
    ensures Shape(Two(User, 1, Runnable)) && Run(Two(User, 1, Runnable), Call(TimerOrYield)).cur == [1, 1]
  {
    var s := Two(User, 1, Runnable);
    EnterRun(s, 0, TimerOrYield);
    var t := State(true, [Yield, User], [0, 1], [Running, Runnable], [false, false]);
    assert Perform(s.(locked := true, at := s.at[0 := Entered]), 0, TimerOrYield) == t;
    RunAppend(s, Enter(0, TimerOrYield), [Leave(0)]);
    RunOne(t, Leave(0));
    assert FirstRunnable([Running, Runnable], 1, 2) == 1;
  }

  /** The parent sets its running child runnable. */
  lemma TwiceRunnable()
    ensures Shape(Boot(2, [Runnable, Free]))
    ensures Run(Boot(2, [Runnable, Free]), ChildRuns() + Call(SetStatus(1, true)) + Call(TimerOrYield)).cur == [1, 1]
  {
    hide Run, Call, ChildRuns, Twice, Pair, Shape, Boot;
    var b := Boot(2, [Runnable, Free]);
    ChildRunsRun();
    CallRun(User, 1, Running, false, SetStatus(1, true), Runnable, false);
    BothRun();
    RunAppend(b, ChildRuns(), Call(SetStatus(1, true)));
    RunAppend(b, ChildRuns() + Call(SetStatus(1, true)), Call(TimerOrYield));
  }

  /**
    The child begins to wait for a message, the parent sets it runnable, and processor 1 takes it again, which
    is no harm so far; but the flag is still up, so that the next message makes it runnable where it runs.
   */
  function WaitsAndRuns(): seq<Choice> {
    Enter(1, IpcRecv(true)) + [Leave(1)] + Call(SetStatus(1, true)) + [Tick(1), Xchg(1), Leave(1)]
  }

  lemma ChildWaits()
    ensures Shape(Two(User, 1, Running))
    ensures Run(Two(User, 1, Running), Enter(1, IpcRecv(true)) + [Leave(1)]) == Pair(Halted, -1, NotRunnable, true)
  {
    var s := Two(User, 1, Running);
    EnterRun(s, 1, IpcRecv(true));
    var t := State(true, [User, Yield], [0, 1], [Running, NotRunnable], [false, true]);
    assert Perform(s.(locked := true, at := s.at[1 := Entered]), 1, IpcRecv(true)) == t;
    RunAppend(s, Enter(1, IpcRecv(true)), [Leave(1)]);
    RunOne(t, Leave(1));
    assert FirstRunnable(t.status, 2, 2) == FirstRunnable(t.status, 3, 1) == FirstRunnable(t.status, 4, 0) == -1;
    assert SchedHalt(t, 1) == Pair(Halted, -1, NotRunnable, true) by {
      assert t.status[0].Running?;
    }
  }

  lemma ChildBack()
    ensures Shape(Pair(Halted, -1, Runnable, true))
    ensures Run(Pair(Halted, -1, Runnable, true), [Tick(1), Xchg(1), Leave(1)]) == Pair(User, 1, Running, true)
  {
    var s := Pair(Halted, -1, Runnable, true);
    var t := Pair(Spin(false), -1, Runnable, true);
    var u := State(true, [User, Yield], [0, -1], [Running, Runnable], [false, true]);
    RunOne(s, Tick(1));
    assert Next(s, Tick(1)) == t;
    RunOne(t, Xchg(1));
    assert Next(t, Xchg(1)) == u;
    RunOne(u, Leave(1));
    assert FirstRunnable([Running, Runnable], 0, 2) == FirstRunnable([Running, Runnable], 1, 1) == 1;
    RunAppend(s, [Tick(1)], [Xchg(1)]);
    RunAppend(s, [Tick(1), Xchg(1)], [Leave(1)]);
    assert [Tick(1), Xchg(1)] + [Leave(1)] == [Tick(1), Xchg(1), Leave(1)];
  }

  lemma WaitsAndRunsRun()
    ensures Shape(Two(User, 1, Running)) && Run(Two(User, 1, Running), WaitsAndRuns()) == Pair(User, 1, Running, true)
  {
    var s := Two(User, 1, Running);
    ChildWaits();
    CallRun(Halted, -1, NotRunnable, true, SetStatus(1, true), Runnable, true);
    ChildBack();
    hide *;
    RunAppend(s, Enter(1, IpcRecv(true)) + [Leave(1)], Call(SetStatus(1, true)));
    RunAppend(s, Enter(1, IpcRecv(true)) + [Leave(1)] + Call(SetStatus(1, true)), [Tick(1), Xchg(1), Leave(1)]);
    WaitsAndRunsIs();
  }

  lemma WaitsAndRunsIs()
    ensures WaitsAndRuns() == Enter(1, IpcRecv(true)) + [Leave(1)] + Call(SetStatus(1, true)) + [Tick(1), Xchg(1), Leave(1)]
  {
  }

  /** A message to a child that runs makes it runnable as well. */
  lemma SentWhileRunning()
    ensures Shape(Boot(2, [Runnable, Free]))
    ensures Run(Boot(2, [Runnable, Free]), ChildRuns() + WaitsAndRuns() + Call(IpcTrySend(1)) + Call(TimerOrYield)).cur == [1, 1]
  {
    hide Run, Call, ChildRuns, WaitsAndRuns, Pair, Shape, Boot;
    var b := Boot(2, [Runnable, Free]);
    ChildRunsRun();
    WaitsAndRunsRun();
    CallRun(User, 1, Running, true, IpcTrySend(1), Runnable, false);
    BothRun();
    RunAppend(b, ChildRuns(), WaitsAndRuns());
    RunAppend(b, ChildRuns() + WaitsAndRuns(), Call(IpcTrySend(1)));
    RunAppend(b, ChildRuns() + WaitsAndRuns() + Call(IpcTrySend(1)), Call(TimerOrYield));
  }

  /** The parent destroys its running child twice: the second call frees the slot, which the next child gets. */
  function Twice(): seq<Choice> {
    Call(Destroy(1)) + Call(Destroy(1)) + Call(Exofork(1)) + Call(SetStatus(1, true))
  }

  lemma TwiceRun()
    ensures Shape(Two(User, 1, Running)) && Run(Two(User, 1, Running), Twice()) == Two(User, 1, Runnable)
  {
    hide Run, Call, ChildRuns, Twice, Pair, Shape, Boot;
    var s := Two(User, 1, Running);
    CallRun(User, 1, Running, false, Destroy(1), Dying, false);
    CallRun(User, 1, Dying, false, Destroy(1), Free, false);
    CallRun(User, 1, Free, false, Exofork(1), NotRunnable, false);
    CallRun(User, 1, NotRunnable, false, SetStatus(1, true), Runnable, false);
    RunAppend(s, Call(Destroy(1)), Call(Destroy(1)));
    RunAppend(s, Call(Destroy(1)) + Call(Destroy(1)), Call(Exofork(1)));
    RunAppend(s, Call(Destroy(1)) + Call(Destroy(1)) + Call(Exofork(1)), Call(SetStatus(1, true)));
    TwiceIs();
  }

  lemma TwiceIs()
    ensures Twice() == Call(Destroy(1)) + Call(Destroy(1)) + Call(Exofork(1)) + Call(SetStatus(1, true))
  {
  }

  lemma DestroyedTwice()
    ensures Shape(Boot(2, [Runnable, Free]))
    ensures Run(Boot(2, [Runnable, Free]), ChildRuns() + Twice() + Call(TimerOrYield)).cur == [1, 1]
  {
    hide Run, Call, ChildRuns, Twice, Pair, Shape, Boot;
    var b := Boot(2, [Runnable, Free]);
    ChildRunsRun();
    TwiceRun();
    BothRun();
    RunAppend(b, ChildRuns(), Twice());
    RunAppend(b, ChildRuns() + Twice(), Call(TimerOrYield));
  }
}
