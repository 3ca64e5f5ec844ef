/**
  Detecting the end of a JOS pipe (_pipeisclosed in lib/pipe.c) on one processor.  The reference counts of
  the pipe's pages change one mapping at a time as processes dup and close descriptors (lib/fd.c), and the
  test compares two counts that it reads one after the other.
 */
module PipeClosed {

  datatype End = Reader | Writer

  datatype Fd = NoFd | Fd(end: End)

  /** A descriptor: which descriptor page it maps, and whether it maps the pipe's data page. */
  datatype Slot = Slot(fd: Fd, data: bool)

  const EMPTY: Slot := Slot(NoFd, false)

  /** What is left of the call of dup or close that a process is in. */
  datatype Call = NoCall | DupFd(from: nat, to: nat) | CloseData(fd: nat)

  /** Where a process is in _pipeisclosed for its descriptor of `end`. */
  datatype Test =
    | Idle
    | ReadRuns(end: End, n: nat)                       // n = thisenv->env_runs
    | ReadFd(end: End, n: nat, fd: nat)                // pageref(fd)
    | ReadBoth(end: End, n: nat, ret: bool)            // ret = pageref(fd) == pageref(p)

  /** A process: its descriptors of this pipe, its env_runs, and where it is. */
  datatype Proc = Proc(fds: seq<Slot>, runs: nat, call: Call, test: Test)

  datatype State = State(procs: seq<Proc>, running: nat)

  datatype Choice =
    | Switch(p: nat)                    // the scheduler runs process `p`
    | Dup(from: nat, to: nat)           // dup, its first mapping
    | Close(fd: nat)                    // close, its first unmapping
    | GoOn                              // the second one
    | DupFails                          // sys_page_map fails, and dup takes back what it mapped
    | Fork
    | BeginTest(end: End)
    | TestStep

  /** The slots that refer to the descriptor page of `end`. */
  function FdSlots(s: State, end: End): set<(nat, nat)> {
    set p: nat, i: nat | p < |s.procs| && i < |s.procs[p].fds| && s.procs[p].fds[i].fd == Fd(end) :: (p, i)
  }

  /** The slots that refer to the data page. */
  function DataSlots(s: State): set<(nat, nat)> {
    set p: nat, i: nat | p < |s.procs| && i < |s.procs[p].fds| && s.procs[p].fds[i].data :: (p, i)
  }

  function SetMe(s: State, me: Proc): State
    requires s.running < |s.procs|
  {
    s.(procs := s.procs[s.running := me])
  }

  function NextMe(s: State, c: Choice): Proc
    requires s.running < |s.procs|
  {
    var me := s.procs[s.running];
    var fds := me.fds;
    match c
    case Dup(from, to) =>
      if me.call == NoCall && from < |fds| && to < |fds| && fds[from].fd != NoFd && fds[to] == EMPTY then
        me.(fds := fds[to := Slot(NoFd, fds[from].data)], call := DupFd(from, to))
      else me
    case Close(fd) =>
      if me.call == NoCall && fd < |fds| && fds[fd].fd != NoFd then me.(fds := fds[fd := fds[fd].(fd := NoFd)], call := CloseData(fd))
      else me
    case GoOn =>
      (match me.call
       case NoCall => me
       case DupFd(from, to) => if from < |fds| && to < |fds| then me.(fds := fds[to := fds[to].(fd := fds[from].fd)], call := NoCall) else me
       case CloseData(fd) => if fd < |fds| then me.(fds := fds[fd := fds[fd].(data := false)], call := NoCall) else me)
    case DupFails =>
      if me.call.DupFd? && me.call.to < |fds| then me.(fds := fds[me.call.to := EMPTY], call := NoCall) else me
    case BeginTest(end) => if me.call == NoCall && me.test.Idle? then me.(test := ReadRuns(end, me.runs)) else me
    case TestStep =>
      (match me.test
       case Idle => me
       case ReadRuns(end, n) => me.(test := ReadFd(end, n, |FdSlots(s, end)|))
       case ReadFd(end, n, fd) => me.(test := ReadBoth(end, n, fd == |DataSlots(s)|))
       case ReadBoth(end, n, ret) => me.(test := if n == me.runs then Idle else ReadRuns(end, me.runs)))
    case _ => me
  }

  /** A process in the middle of the test does nothing else. */
  function Next(s: State, c: Choice): State
    requires s.running < |s.procs|
  {
    var me := s.procs[s.running];
    match c
    case Switch(p) => if p < |s.procs| then State(s.procs[p := s.procs[p].(runs := s.procs[p].runs + 1)], p) else s
    case Fork => if me.call == NoCall && me.test.Idle? then s.(procs := s.procs + [Proc(me.fds, 0, NoCall, Idle)]) else s
    case _ => if me.test.Idle? || c.TestStep? then SetMe(s, NextMe(s, c)) else s
  }

  /** The step is _pipeisclosed returning 1 to the running process for its descriptor of `end`. */
  predicate SaysClosed(s: State, c: Choice, end: End)
    requires s.running < |s.procs|
  {
    var me := s.procs[s.running];
    c == TestStep && me.test.ReadBoth? && me.test.end == end && me.test.ret && me.test.n == me.runs
  }

  function Other(end: End): End {
    if end.Reader? then Writer else Reader
  }

  /** The call is about to unmap or to map the descriptor page of slot `i`. */
  predicate AtSlot(c: Call, i: nat) {
    (c.DupFd? && c.to == i) || (c.CloseData? && c.fd == i)
  }

  /**
    A descriptor that is mapped has its data page mapped, one that is not has none but in the middle of a call,
    and a call of dup or close is where it should be.
   */
  predicate ProcOk(p: Proc) {
    && (forall i :: 0 <= i < |p.fds| ==> p.fds[i].fd != NoFd ==> p.fds[i].data)
    && (forall i :: 0 <= i < |p.fds| ==> p.fds[i].data && p.fds[i].fd == NoFd ==> AtSlot(p.call, i))
    && (p.call.DupFd? ==> p.call.from < |p.fds| && p.call.to < |p.fds| && p.fds[p.call.to].data && p.fds[p.call.from].fd != NoFd)
    && (p.call.CloseData? ==> p.call.fd < |p.fds| && p.fds[p.call.fd].fd == NoFd)
    && (p.test.Idle? || p.call == NoCall)
  }

  /** What a test has read is still so, unless the process has been switched away from since it read env_runs. */
  ghost predicate TestOk(s: State, p: nat)
    requires p < |s.procs|
  {
    var q := s.procs[p];
    match q.test
    case Idle => true
    case ReadRuns(_, n) => n <= q.runs
    case ReadFd(end, n, fd) => n <= q.runs && (n == q.runs && p == s.running ==> fd == |FdSlots(s, end)|)
    case ReadBoth(end, n, ret) => n <= q.runs && (n == q.runs && p == s.running ==> (ret <==> |FdSlots(s, end)| == |DataSlots(s)|))
  }

  ghost predicate Inv(s: State) {
    && s.running < |s.procs|
    && (forall p: nat {:trigger s.procs[p]} :: p < |s.procs| ==> ProcOk(s.procs[p]))
    && forall p: nat {:trigger TestOk(s, p)} :: p < |s.procs| ==> TestOk(s, p)
  }

  /** The counts depend on the descriptors only. */
  lemma SameSlots(s: State, s': State)
    requires |s'.procs| == |s.procs| && forall p: nat :: p < |s.procs| ==> s'.procs[p].fds == s.procs[p].fds
    ensures DataSlots(s') == DataSlots(s) && forall end {:trigger FdSlots(s', end)} :: FdSlots(s', end) == FdSlots(s, end)
  {
  }

  lemma SwitchInv(s: State, p: nat)
    requires Inv(s) && p < |s.procs|
    ensures Inv(Next(s, Switch(p)))
  {
    var s' := Next(s, Switch(p));
    forall q: nat | q < |s'.procs| ensures TestOk(s', q) && ProcOk(s'.procs[q]) {
      assert TestOk(s, q) && ProcOk(s.procs[q]);
    }
  }

  lemma TestInv(s: State, c: Choice)
    requires Inv(s) && (c.BeginTest? || c.TestStep?)
    ensures Inv(Next(s, c))
  {
    var s' := Next(s, c);
    SameSlots(s, s');
    forall q: nat | q < |s'.procs| ensures TestOk(s', q) && ProcOk(s'.procs[q]) {
      assert TestOk(s, q) && ProcOk(s.procs[q]);
    }
  }

  /** The other steps change descriptors, and only the running process is in the middle of something it must not disturb. */
  lemma CallInv(s: State, c: Choice)
    requires Inv(s) && (c.Dup? || c.Close? || c.GoOn? || c.DupFails?)
    ensures Inv(Next(s, c))
  {
    hide FdSlots, DataSlots;
    var s' := Next(s, c);
    assert ProcOk(s.procs[s.running]);
    forall q: nat | q < |s'.procs| ensures TestOk(s', q) && ProcOk(s'.procs[q]) {
      assert TestOk(s, q) && ProcOk(s.procs[q]);
    }
  }

  lemma ForkInv(s: State)
    requires Inv(s)
    ensures Inv(Next(s, Fork))
  {
    hide FdSlots, DataSlots;
    var s' := Next(s, Fork);
    assert ProcOk(s.procs[s.running]);
    forall q: nat | q < |s'.procs| ensures TestOk(s', q) && ProcOk(s'.procs[q]) {
      if q < |s.procs| {
        assert TestOk(s, q) && ProcOk(s.procs[q]);
      }
    }
  }

  lemma NextInv(s: State, c: Choice)
    requires Inv(s)
    ensures Inv(Next(s, c))
  {
    hide Inv, FdSlots, DataSlots;
    match c
    case Switch(p) =>
      if p < |s.procs| {
        SwitchInv(s, p);
      }
    case Fork => ForkInv(s);
    case BeginTest(_) => TestInv(s, c);
    case TestStep => TestInv(s, c);
    case _ => CallInv(s, c);
  }

  /** Nobody has the pipe open at `end`. */
  ghost predicate NoneAt(s: State, end: End) {
    forall p: nat, i: nat :: p < |s.procs| && i < |s.procs[p].fds| ==> s.procs[p].fds[i].fd != Fd(end)
  }

  /** The data page always has at least as many references as the two descriptor pages together. */
  lemma EnoughDataRefs(s: State)
    requires Inv(s)
    ensures |FdSlots(s, Reader)| + |FdSlots(s, Writer)| <= |DataSlots(s)|
  {
    var r, w, d := FdSlots(s, Reader), FdSlots(s, Writer), DataSlots(s);
    forall x | x in r + w ensures x in d {
      assert ProcOk(s.procs[x.0]);
    }
    assert r !! w && |r + w| == |r| + |w|;
    SubsetSize(r + w, d);
  }

  lemma {:induction false} SubsetSize<T>(a: set<T>, b: set<T>)
    requires a <= b
    ensures |a| <= |b|
  {
    if a != {} {
      var x :| x in a;
      SubsetSize(a - {x}, b - {x});
    }
  }

  /** _pipeisclosed answers 1 only when the other end has no references. */
  lemma ClosedIsRight(s: State, c: Choice, end: End)
    requires Inv(s) && SaysClosed(s, c, end)
    ensures NoneAt(s, Other(end))
  {
    EnoughDataRefs(s);
    assert TestOk(s, s.running);
    assert |FdSlots(s, Other(end))| == 0;
    forall p: nat, i: nat | p < |s.procs| && i < |s.procs[p].fds| ensures s.procs[p].fds[i].fd != Fd(Other(end)) {
      assert s.procs[p].fds[i].fd == Fd(Other(end)) ==> (p, i) in FdSlots(s, Other(end));
    }
  }

  /** An end that nobody has open stays so. */
  lemma ClosedStays(s: State, c: Choice, end: End)
    requires Inv(s) && NoneAt(s, end)
    ensures NoneAt(Next(s, c), end)
  {
    hide FdSlots, DataSlots;
    var s' := Next(s, c);
    forall p: nat, i: nat | p < |s'.procs| && i < |s'.procs[p].fds| ensures s'.procs[p].fds[i].fd != Fd(end) {
    }
  }

  function Run(s: State, run: seq<Choice>): State
    requires s.running < |s.procs|
    decreases |run|
  {
    if run == [] then s
    else
      var s' := Next(s, run[0]);
      if s'.running < |s'.procs| then Run(s', run[1..]) else s
  }

  lemma {:induction false} RunInv(s: State, run: seq<Choice>)
    requires Inv(s)
    ensures Inv(Run(s, run))
    ensures forall end :: NoneAt(s, end) ==> NoneAt(Run(s, run), end)
    decreases |run|
  {
    if run != [] {
      NextInv(s, run[0]);
      forall end | NoneAt(s, end) ensures NoneAt(Next(s, run[0]), end) {
        ClosedStays(s, run[0], end);
      }
      RunInv(Next(s, run[0]), run[1..]);
    }
  }

  /** pipe(): one process with one descriptor for each end. */
  function Created(runs: nat, others: seq<Slot>): State {
    State([Proc([Slot(Fd(Reader), true), Slot(Fd(Writer), true)] + others, runs, NoCall, Idle)], 0)
  }

  /** Over every interleaving, an end of file or a broken pipe is reported only when the other end is gone for good. */
  lemma PipeClosedSound(runs: nat, empty: nat, run: seq<Choice>, c: Choice, later: seq<Choice>, end: End)
    requires var s := Run(Created(runs, seq(empty, _ => EMPTY)), run); s.running < |s.procs| && SaysClosed(s, c, end)
    ensures var s := Run(Created(runs, seq(empty, _ => EMPTY)), run);
      NoneAt(s, Other(end)) && NoneAt(Run(s, later), Other(end))
  {
    var s0 := Created(runs, seq(empty, _ => EMPTY));
    assert ProcOk(s0.procs[0]) && TestOk(s0, 0);
    RunInv(s0, run);
    var s := Run(s0, run);
    ClosedIsRight(s, c, end);
    RunInv(s, later);
  }

  // ---------------------------------------------------------------------------------------------
  // The other direction.

  /** No process is in the middle of dup or close. */
  ghost predicate AtRest(s: State) {
    forall p: nat {:trigger s.procs[p]} :: p < |s.procs| ==> s.procs[p].call == NoCall
  }

  /** Then every reference to the data page belongs to a descriptor. */
  lemma RefsAtRest(s: State, end: End)
    requires Inv(s) && AtRest(s) && NoneAt(s, Other(end))
    ensures |FdSlots(s, end)| == |DataSlots(s)|
  {
    forall x ensures x in FdSlots(s, end) <==> x in DataSlots(s) {
      if x.0 < |s.procs| {
        assert ProcOk(s.procs[x.0]);
        assert x.1 < |s.procs[x.0].fds| ==> s.procs[x.0].fds[x.1].fd != Fd(Other(end));
      }
    }
    assert FdSlots(s, end) == DataSlots(s);
  }

  /** The four steps of a test that nobody interrupts, but for the last. */
  function Asks(s: State, end: End): State
    requires s.running < |s.procs|
  {
    Next(Next(Next(s, BeginTest(end)), TestStep), TestStep)
  }

  /** A test without interruption ends at once, and says whether the two counts are equal. */
  lemma AskAnswers(s: State, end: End)
    requires Inv(s) && s.procs[s.running].call == NoCall && s.procs[s.running].test.Idle?
    ensures var t := Asks(s, end);
      && t.running == s.running < |t.procs| && Next(t, TestStep).procs[s.running] == s.procs[s.running]
      && (SaysClosed(t, TestStep, end) <==> |FdSlots(s, end)| == |DataSlots(s)|)
  {
    var s1 := Next(s, BeginTest(end));
    var s2 := Next(s1, TestStep);
    SameSlots(s, s1);
    SameSlots(s, s2);
    hide FdSlots, DataSlots;
  }

  /** With nobody in the middle of dup or close, the answer is 1 if and only if nobody has the other end. */
  lemma ClosedIff(s: State, end: End)
    requires Inv(s) && AtRest(s) && s.procs[s.running].test.Idle?
    ensures Asks(s, end).running < |Asks(s, end).procs|
    ensures SaysClosed(Asks(s, end), TestStep, end) <==> NoneAt(s, Other(end))
  {
    AskAnswers(s, end);
    if NoneAt(s, Other(end)) {
      RefsAtRest(s, end);
    } else {
      OtherCounts(s, end);
    }
  }

  lemma OtherCounts(s: State, end: End)
    requires Inv(s) && !NoneAt(s, Other(end))
    ensures |FdSlots(s, end)| < |DataSlots(s)|
  {
    EnoughDataRefs(s);
    var p: nat, i: nat :| p < |s.procs| && i < |s.procs[p].fds| && s.procs[p].fds[i].fd == Fd(Other(end));
    assert (p, i) in FdSlots(s, Other(end));
  }

  /** After both steps of close the process has the descriptor no more, and after both of dup it has one more of the same end. */
  lemma CallsComplete(s: State, fd: nat, to: nat)
    requires Inv(s) && s.procs[s.running].call == NoCall && s.procs[s.running].test.Idle? && fd < |s.procs[s.running].fds|
    requires s.procs[s.running].fds[fd].fd != NoFd
    ensures var me := s.procs[s.running];
      && Next(Next(s, Close(fd)), GoOn) == SetMe(s, me.(fds := me.fds[fd := EMPTY]))
      && (to < |me.fds| && me.fds[to] == EMPTY ==> Next(Next(s, Dup(fd, to)), GoOn) == SetMe(s, me.(fds := me.fds[to := me.fds[fd]])))
      && (to < |me.fds| && me.fds[to] == EMPTY ==> Next(Next(s, Dup(fd, to)), DupFails) == s)
  {
    var me := s.procs[s.running];
    assert ProcOk(me);
    var s1 := Next(s, Close(fd));
    assert me.fds[fd := me.fds[fd].(fd := NoFd)][fd := EMPTY] == me.fds[fd := EMPTY];
    assert s1.procs[s.running := me.(fds := me.fds[fd := EMPTY])] == s.procs[s.running := me.(fds := me.fds[fd := EMPTY])];
    if to < |me.fds| && me.fds[to] == EMPTY {
      DupCompletes(s, fd, to);
    }
  }

  lemma DupCompletes(s: State, fd: nat, to: nat)
    requires Inv(s) && s.procs[s.running].call == NoCall && s.procs[s.running].test.Idle?
    requires var fds := s.procs[s.running].fds; fd < |fds| && fds[fd].fd != NoFd && fds[fd].data && to < |fds| && fds[to] == EMPTY
    ensures var me := s.procs[s.running];
      && Next(Next(s, Dup(fd, to)), GoOn) == SetMe(s, me.(fds := me.fds[to := me.fds[fd]]))
      && Next(Next(s, Dup(fd, to)), DupFails) == s
  {
    var me := s.procs[s.running];
    var t := Next(s, Dup(fd, to));
    var half := me.fds[to := Slot(NoFd, me.fds[fd].data)];
    assert half[to := me.fds[fd]] == me.fds[to := me.fds[fd]] && half[to := EMPTY] == me.fds;
    assert t.procs[s.running := me] == s.procs;
    assert t.procs[s.running := me.(fds := me.fds[to := me.fds[fd]])] == s.procs[s.running := me.(fds := me.fds[to := me.fds[fd]])];
  }
}
