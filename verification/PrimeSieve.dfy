/**
  The prime sieve of user/primes.c on top of JOS IPC (lib/ipc.c, kern/syscall.c): a chain of processes,
  each of which prints the first number it receives and passes on what that number does not divide.
  The chain is a state machine over its processes' steps, so a run is any interleaving of them.
 */
module PrimeSieve {
  import opened Division

  // ---------------------------------------------------------------------------------------------
  // Primes.

  predicate Divides(d: nat, n: nat) {
    d > 0 && n % d == 0
  }

  ghost predicate IsPrime(n: nat) {
    n >= 2 && forall d: nat {:trigger Divides(d, n)} :: 2 <= d < n ==> !Divides(d, n)
  }

  /** `ps` are the first primes, in order. */
  ghost predicate FirstPrimes(ps: seq<nat>) {
    && (forall i :: 0 <= i < |ps| ==> IsPrime(ps[i]))
    && (forall i, j :: 0 <= i < j < |ps| ==> ps[i] < ps[j])
    && forall q: nat {:trigger IsPrime(q)} :: IsPrime(q) && ps != [] && q <= ps[|ps| - 1] ==> q in ps
  }

  /** No number of `ps` divides `n`. */
  predicate Passes(ps: seq<nat>, n: nat) {
    forall i :: 0 <= i < |ps| ==> !Divides(ps[i], n)
  }

  lemma {:induction false} PrimeDivisor(n: nat) returns (q: nat)
    requires n >= 2
    ensures IsPrime(q) && Divides(q, n) && q <= n
  {
    if IsPrime(n) {
      q := n;
    } else {
      var d: nat :| 2 <= d < n && Divides(d, n);
      q := PrimeDivisor(d);
      DividesTrans(q, d, n);
    }
  }

  lemma DivisorLe(d: nat, n: nat)
    requires Divides(d, n) && n > 0
    ensures d <= n
  {
    QuotientIs(d, n / d, 0);
    Grows(d, n / d);
  }

  lemma DividesSelf(n: nat)
    requires n > 0
    ensures Divides(n, n)
  {
  }

  lemma DividesTrans(a: nat, b: nat, c: nat)
    requires Divides(a, b) && Divides(b, c)
    ensures Divides(a, c)
  {
    var x, y := b / a, c / b;
    assert b == a * x && c == b * y;
    assert c == a * (x * y) by {
      assert (a * x) * y == a * (x * y);
    }
    QuotientIs(a, x * y, 0);
  }

  /** The least number that none of the first primes divides is the next prime. */
  lemma NextPrime(ps: seq<nat>, n: nat)
    requires FirstPrimes(ps) && n >= 2 && Passes(ps, n) && forall m: nat {:trigger Passes(ps, m)} :: 2 <= m < n ==> !Passes(ps, m)
    ensures FirstPrimes(ps + [n])
  {
    hide Divides, Passes;
    var q := PrimeDivisor(n);
    PrimePasses(ps, q, n);
    assert q == n;
    var more := ps + [n];
    Beyond(ps, n);
    forall r: nat | IsPrime(r) && r <= n ensures r in more {
      if r < n {
        PassedBy(ps, r);
      } else {
        assert more[|ps|] == n;
      }
    }
    forall i, j | 0 <= i < j < |more| ensures more[i] < more[j] {
    }
  }

  /** A number that passes is none of the first primes, and so greater than all of them when it is the least. */
  lemma Beyond(ps: seq<nat>, n: nat)
    requires FirstPrimes(ps) && IsPrime(n) && Passes(ps, n)
    ensures forall i :: 0 <= i < |ps| ==> ps[i] < n
  {
    hide Divides;
    DividesSelf(n);
    forall i | 0 <= i < |ps| ensures ps[i] != n {
      assert !Divides(ps[i], n);
    }
  }

  /** A prime that does not pass is one of them. */
  lemma PassedBy(ps: seq<nat>, r: nat)
    requires FirstPrimes(ps) && IsPrime(r) && !Passes(ps, r)
    ensures r in ps
  {
    hide Divides;
    var i :| 0 <= i < |ps| && Divides(ps[i], r);
    DivisorLe(ps[i], r);
    assert IsPrime(ps[i]);
  }

  /** A prime divisor of a number that no prime of `ps` divides is not divided by them either. */
  lemma PrimePasses(ps: seq<nat>, q: nat, n: nat)
    requires FirstPrimes(ps) && Passes(ps, n) && IsPrime(q) && Divides(q, n)
    ensures Passes(ps, q)
  {
    hide Divides;
    forall i | 0 <= i < |ps| ensures !Divides(ps[i], q) {
      if Divides(ps[i], q) {
        DividesTrans(ps[i], q, n);
        assert false;
      }
    }
  }

  // ---------------------------------------------------------------------------------------------
  // The streams between the processes.

  /** The numbers from 2 up to `n`, without `n`, that pass `ps`. */
  function Sift(ps: seq<nat>, n: nat): seq<nat> {
    if n <= 2 then [] else Sift(ps, n - 1) + if Passes(ps, n - 1) then [n - 1] else []
  }

  /** What a process whose prime is `p` passes on of `s`. */
  function Filter(p: nat, s: seq<nat>): seq<nat> {
    if s == [] then []
    else Filter(p, s[..|s| - 1]) + if Divides(p, s[|s| - 1]) then [] else [s[|s| - 1]]
  }

  ghost predicate IsSift(ps: seq<nat>, s: seq<nat>) {
    exists n: nat :: s == Sift(ps, n)
  }

  lemma FilterMore(p: nat, s: seq<nat>, x: nat)
    ensures Filter(p, s + [x]) == Filter(p, s) + if Divides(p, x) then [] else [x]
  {
    assert (s + [x])[..|s|] == s;
  }

  lemma PassesMore(ps: seq<nat>, p: nat, n: nat)
    ensures Passes(ps + [p], n) <==> Passes(ps, n) && !Divides(p, n)
  {
    if Passes(ps + [p], n) {
      forall i | 0 <= i < |ps| ensures !Divides(ps[i], n) {
        assert (ps + [p])[i] == ps[i];
      }
      assert (ps + [p])[|ps|] == p;
    }
  }

  /** Filtering a sifted stream by one more prime sifts it by one more prime. */
  lemma {:induction false} FilterSift(ps: seq<nat>, p: nat, n: nat)
    ensures Filter(p, Sift(ps, n)) == Sift(ps + [p], n)
  {
    hide Passes, Divides;
    if n > 2 {
      FilterSift(ps, p, n - 1);
      PassesMore(ps, p, n - 1);
      if Passes(ps, n - 1) {
        FilterMore(p, Sift(ps, n - 1), n - 1);
      } else {
        assert Sift(ps, n) == Sift(ps, n - 1) && Sift(ps + [p], n) == Sift(ps + [p], n - 1);
      }
    }
  }

  lemma FilterIsSift(ps: seq<nat>, p: nat, s: seq<nat>)
    requires IsSift(ps, s)
    ensures IsSift(ps + [p], Filter(p, s))
  {
    var n: nat :| s == Sift(ps, n);
    FilterSift(ps, p, n);
  }

  lemma {:induction false} SiftFirst(ps: seq<nat>, n: nat)
    ensures Sift(ps, n) != [] ==>
      var p := Sift(ps, n)[0]; p >= 2 && Passes(ps, p) && forall m: nat {:trigger Passes(ps, m)} :: 2 <= m < p ==> !Passes(ps, m)
    ensures Sift(ps, n) == [] ==> forall m: nat {:trigger Passes(ps, m)} :: 2 <= m < n ==> !Passes(ps, m)
  {
    hide Passes, Divides;
    if n > 2 {
      SiftFirst(ps, n - 1);
    }
  }

  /** The first number of a process whose left neighbours have the first primes is the next prime. */
  lemma FirstIsPrime(ps: seq<nat>, v: nat)
    requires FirstPrimes(ps) && IsSift(ps, [v])
    ensures FirstPrimes(ps + [v]) && v >= 2
  {
    var n: nat :| [v] == Sift(ps, n);
    SiftFirst(ps, n);
    NextPrime(ps, v);
  }

  lemma AllNumbers(n: nat)
    requires n >= 2
    ensures Sift([], n + 1) == Sift([], n) + [n]
  {
  }

  // ---------------------------------------------------------------------------------------------
  // The processes.

  /** Where a process is.  The states in ipc_recv last until the kernel has put a value in env_ipc_value. */
  datatype Pc =
    | Start                              // umain before its fork
    | Feed(i: nat)                       // umain in ipc_send(id, i)
    | Top                                // primeproc at `top`
    | RecvFirst                          // in the first ipc_recv
    | Print(p: nat)
    | Fork(p: nat)
    | Loop(p: nat)                       // at the top of the while loop
    | RecvNext(p: nat)                   // in the second ipc_recv
    | Test(p: nat, i: nat)               // at `if (i % p)`
    | Send(p: nat, i: nat)               // in ipc_send(id, i)
    | Dead                               // after a panic

  /**
    A process and its env_ipc_recving and env_ipc_value.  `got` are the values that sends to it have put in
    env_ipc_value, `used` those that its ipc_recv has returned, `sent` those whose ipc_send has returned.
   */
  datatype Proc = Proc(pc: Pc, recving: bool, value: nat, got: seq<nat>, used: seq<nat>, sent: seq<nat>)

  /** Process 0 is umain's; process k's child is process k + 1.  `out` is what the processes have printed. */
  datatype State = State(procs: seq<Proc>, out: seq<nat>)

  const NEWBORN: Proc := Proc(Top, false, 0, [], [], [])

  function Initial(): State {
    State([Proc(Start, false, 0, [], [], [])], [])
  }

  /** A step of the run: process `k` goes on, or its fork fails. */
  datatype Choice = Go(k: nat) | ForkFails(k: nat)

  function SetPc(s: State, k: nat, pc: Pc): State
    requires k < |s.procs|
  {
    s.(procs := s.procs[k := s.procs[k].(pc := pc)])
  }

  /** sys_ipc_recv, up to giving up the processor. */
  function SysRecv(s: State, k: nat, pc: Pc): State
    requires k < |s.procs|
  {
    s.(procs := s.procs[k := s.procs[k].(pc := pc, recving := true)])
  }

  /** The return of ipc_recv with env_ipc_value. */
  function Received(s: State, k: nat, pc: Pc): State
    requires k < |s.procs|
  {
    s.(procs := s.procs[k := s.procs[k].(pc := pc, used := s.procs[k].used + [s.procs[k].value])])
  }

  /** sys_ipc_try_send of `v` from `k` to its child: on success the value is in env_ipc_value; -E_IPC_NOT_RECV means another round. */
  function TrySend(s: State, k: nat, v: nat, next: Pc): State
    requires k + 1 < |s.procs|
  {
    var dst := s.procs[k + 1];
    if dst.pc.Dead? then SetPc(s, k, Dead)
    else if !dst.recving then s
    else s.(procs := s.procs[k := s.procs[k].(pc := next, sent := s.procs[k].sent + [v])]
                            [k + 1 := dst.(recving := false, value := v, got := dst.got + [v])])
  }

  /** fork, as one step: the child starts in primeproc. */
  function ForkChild(s: State, k: nat, pc: Pc): State
    requires k < |s.procs|
  {
    SetPc(s, k, pc).(procs := SetPc(s, k, pc).procs + [NEWBORN])
  }

  function Next(s: State, c: Choice): State {
    if c.k >= |s.procs| then s
    else
      var k := c.k;
      var p := s.procs[k];
      match c
      case ForkFails(_) => if p.pc.Start? || p.pc.Fork? then SetPc(s, k, Dead) else s
      case Go(_) =>
        match p.pc
        case Start => ForkChild(s, k, Feed(2))
        case Feed(i) => if k + 1 < |s.procs| then TrySend(s, k, i, Feed(i + 1)) else s
        case Top => SysRecv(s, k, RecvFirst)
        case RecvFirst => if p.recving then s else Received(s, k, Print(p.value))
        case Print(v) => SetPc(s, k, Fork(v)).(out := s.out + [v])
        case Fork(v) => ForkChild(s, k, Loop(v))
        case Loop(v) => SysRecv(s, k, RecvNext(v))
        case RecvNext(v) => if p.recving then s else Received(s, k, Test(v, p.value))
        case Test(v, i) => SetPc(s, k, if Divides(v, i) then Loop(v) else Send(v, i))
        case Send(v, i) => if k + 1 < |s.procs| then TrySend(s, k, i, Loop(v)) else s
        case Dead => s
  }

  function Run(s: State, choices: seq<Choice>): State
    decreases |choices|
  {
    if choices == [] then s else Run(Next(s, choices[0]), choices[1..])
  }

  // ---------------------------------------------------------------------------------------------
  // The invariant.

  predicate InRecv(pc: Pc) {
    pc.RecvFirst? || pc.RecvNext?
  }

  /** A value that was sent and not yet received is in env_ipc_value; nothing else is lost, repeated or out of order. */
  ghost predicate Mailbox(p: Proc) {
    && (p.recving ==> InRecv(p.pc) || p.pc.Dead?)
    && if InRecv(p.pc) && !p.recving then p.got == p.used + [p.value] else p.got == p.used
  }

  /** What a process in the chain has received and passed on, by where it is; `n` primes have been printed by its left neighbours. */
  ghost predicate Progress(p: Proc) {
    match p.pc
    case Start => p.used == [] && p.sent == []
    case Feed(i) => i >= 2 && p.sent == Sift([], i)
    case Top => p.used == [] && p.sent == []
    case RecvFirst => p.used == [] && p.sent == []
    case Print(v) => p.used == [v] && p.sent == []
    case Fork(v) => p.used == [v] && p.sent == []
    case Loop(v) => p.used != [] && p.used[0] == v && p.sent == Filter(v, p.used)
    case RecvNext(v) => p.used != [] && p.used[0] == v && p.sent == Filter(v, p.used)
    case Test(v, i) => |p.used| > 1 && p.used[0] == v && p.used[|p.used| - 1] == i && p.sent == Filter(v, p.used[..|p.used| - 1])
    case Send(v, i) => |p.used| > 1 && p.used[0] == v && p.used[|p.used| - 1] == i && !Divides(v, i) && p.sent == Filter(v, p.used[..|p.used| - 1])
    case Dead => true
  }

  predicate HasForked(pc: Pc) {
    pc.Feed? || pc.Loop? || pc.RecvNext? || pc.Test? || pc.Send?
  }

  predicate HasPrinted(pc: Pc) {
    pc.Fork? || pc.Loop? || pc.RecvNext? || pc.Test? || pc.Send?
  }

  /** Process `k` of the chain. */
  ghost predicate ProcOk(s: State, k: nat)
    requires k < |s.procs|
  {
    var p := s.procs[k];
    && Mailbox(p) && Progress(p)
    && (p.pc.Start? || p.pc.Feed? ==> k == 0)
    && (k == 0 ==> p.pc.Start? || p.pc.Feed? || p.pc.Dead?)
    && (HasForked(p.pc) ==> k + 1 < |s.procs|)
    && (k + 1 < |s.procs| ==> (HasForked(p.pc) || p.pc.Dead?) && s.procs[k + 1].got == p.sent)
    && (k > 0 ==>
          && k <= |s.out| + 1 && IsSift(s.out[..k - 1], p.got)
          && (HasPrinted(p.pc) || k + 1 < |s.procs| ==> k <= |s.out| && p.used != [] && s.out[k - 1] == p.used[0])
          && (!HasPrinted(p.pc) && !p.pc.Dead? ==> |s.out| == k - 1))
  }

  ghost predicate Inv(s: State) {
    && s.procs != [] && FirstPrimes(s.out) && |s.out| < |s.procs|
    && forall k: nat {:trigger ProcOk(s, k)} :: k < |s.procs| ==> ProcOk(s, k)
  }

  lemma InitialInv()
    ensures Inv(Initial())
  {
  }

  /** One process has changed nothing but its own state, and what its right neighbour got and what was printed are the same. */
  ghost predicate OnlyProc(s: State, k: nat, p': Proc, s': State)
    requires k < |s.procs|
  {
    s' == s.(procs := s.procs[k := p']) && p'.sent == s.procs[k].sent && p'.got == s.procs[k].got
  }

  lemma OnlyProcInv(s: State, k: nat, p': Proc, s': State)
    requires Inv(s) && k < |s.procs| && OnlyProc(s, k, p', s')
    requires ProcOk(s, k) ==> ProcOk(s', k)
    requires (HasForked(s.procs[k].pc) || s.procs[k].pc.Dead?) ==> (HasForked(p'.pc) || p'.pc.Dead?)
    ensures Inv(s')
  {
    assert ProcOk(s, k);
    hide FirstPrimes, Mailbox, Progress, IsSift;
    forall j: nat | j < |s'.procs| ensures ProcOk(s', j) {
      assert ProcOk(s, j);
    }
  }

  lemma GoesOn(s: State, k: nat, pc: Pc)
    requires Inv(s) && k < |s.procs| && s.procs[k].pc.Test? && !s.procs[k].pc.Dead?
    requires var p := s.procs[k].pc; pc == if Divides(p.p, p.i) then Loop(p.p) else Send(p.p, p.i)
    ensures Inv(SetPc(s, k, pc))
  {
    var p := s.procs[k];
    assert ProcOk(s, k);
    FilterMore(p.pc.p, p.used[..|p.used| - 1], p.pc.i);
    assert p.used == p.used[..|p.used| - 1] + [p.pc.i];
    hide FirstPrimes, IsSift, Filter;
    OnlyProcInv(s, k, p.(pc := pc), SetPc(s, k, pc));
  }

  lemma RecvInv(s: State, k: nat, pc: Pc)
    requires Inv(s) && k < |s.procs|
    requires (s.procs[k].pc.Top? && pc == RecvFirst) || (s.procs[k].pc.Loop? && pc == RecvNext(s.procs[k].pc.p))
    ensures Inv(SysRecv(s, k, pc))
  {
    assert ProcOk(s, k);
    hide FirstPrimes, IsSift, Filter;
    OnlyProcInv(s, k, s.procs[k].(pc := pc, recving := true), SysRecv(s, k, pc));
  }

  lemma ReceivedInv(s: State, k: nat, pc: Pc)
    requires Inv(s) && k < |s.procs| && !s.procs[k].recving
    requires (s.procs[k].pc.RecvFirst? && pc == Print(s.procs[k].value)) || (s.procs[k].pc.RecvNext? && pc == Test(s.procs[k].pc.p, s.procs[k].value))
    ensures Inv(Received(s, k, pc))
  {
    var p := s.procs[k];
    assert ProcOk(s, k);
    assert (p.used + [p.value])[..|p.used|] == p.used;
    hide FirstPrimes, IsSift, Filter;
    OnlyProcInv(s, k, p.(pc := pc, used := p.used + [p.value]), Received(s, k, pc));
  }

  lemma DeadInv(s: State, k: nat)
    requires Inv(s) && k < |s.procs| && (s.procs[k].pc.Start? || s.procs[k].pc.Feed? || s.procs[k].pc.Fork? || s.procs[k].pc.Send?)
    ensures Inv(SetPc(s, k, Dead))
  {
    assert ProcOk(s, k);
    hide FirstPrimes, IsSift, Filter;
    OnlyProcInv(s, k, s.procs[k].(pc := Dead), SetPc(s, k, Dead));
  }

  /** A process that has not changed, with a right neighbour that has got what it had. */
  lemma Frame(s: State, s': State, j: nat)
    requires j < |s.procs| && j < |s'.procs| && ProcOk(s, j) && s'.procs[j] == s.procs[j]
    requires j + 1 < |s.procs| <==> j + 1 < |s'.procs|
    requires j + 1 < |s.procs| ==> s'.procs[j + 1].got == s.procs[j + 1].got
    requires s.out <= s'.out && (s'.out == s.out || j == 0 || HasPrinted(s.procs[j].pc) || s.procs[j].pc.Dead?)
    ensures ProcOk(s', j)
  {
    hide FirstPrimes, Mailbox, Progress, IsSift;
    if j > 0 {
      assert s'.out[..j - 1] == s.out[..j - 1];
    }
  }

  /** The k-th process prints the k-th prime. */
  lemma PrintInv(s: State, k: nat)
    requires Inv(s) && k < |s.procs| && s.procs[k].pc.Print?
    ensures Inv(SetPc(s, k, Fork(s.procs[k].pc.p)).(out := s.out + [s.procs[k].pc.p]))
  {
    hide ProcOk, FirstPrimes;
    Printed(s, k);
    forall j: nat | j < |s.procs| && j != k ensures ProcOk(SetPc(s, k, Fork(s.procs[k].pc.p)).(out := s.out + [s.procs[k].pc.p]), j) {
      PrintedBefore(s, k, j);
    }
  }

  lemma PrintedBefore(s: State, k: nat, j: nat)
    requires Inv(s) && k + 1 == |s.procs| && s.procs[k].pc.Print? && j < k
    ensures ProcOk(SetPc(s, k, Fork(s.procs[k].pc.p)).(out := s.out + [s.procs[k].pc.p]), j)
  {
    assert ProcOk(s, j);
    BeforeLast(s, k, j);
    hide FirstPrimes, ProcOk;
    Frame(s, SetPc(s, k, Fork(s.procs[k].pc.p)).(out := s.out + [s.procs[k].pc.p]), j);
  }

  lemma Printed(s: State, k: nat)
    requires Inv(s) && k < |s.procs| && s.procs[k].pc.Print?
    ensures k + 1 == |s.procs| && |s.out| == k - 1 && FirstPrimes(s.out + [s.procs[k].pc.p])
    ensures ProcOk(SetPc(s, k, Fork(s.procs[k].pc.p)).(out := s.out + [s.procs[k].pc.p]), k)
  {
    var p := s.procs[k];
    assert ProcOk(s, k);
    assert s.out[..k - 1] == s.out;
    FirstIsPrime(s.out, p.pc.p);
    assert (s.out + [p.pc.p])[..k - 1] == s.out;
    hide FirstPrimes, IsSift, Filter;
  }

  /** Every process but the last has forked. */
  lemma BeforeLast(s: State, k: nat, j: nat)
    requires Inv(s) && k + 1 == |s.procs| && j < k
    ensures j == 0 || HasPrinted(s.procs[j].pc) || s.procs[j].pc.Dead?
  {
    assert ProcOk(s, j);
    hide FirstPrimes, IsSift, Mailbox, Progress;
  }

  lemma ForkInv(s: State, k: nat, pc: Pc)
    requires Inv(s) && k < |s.procs|
    requires (s.procs[k].pc.Start? && pc == Feed(2)) || (s.procs[k].pc.Fork? && pc == Loop(s.procs[k].pc.p))
    ensures Inv(ForkChild(s, k, pc))
  {
    hide Inv, ProcOk, ForkChild, SetPc;
    var s' := ForkChild(s, k, pc);
    Forked(s, k, pc);
    Newborn(s, k, pc);
    ForkedProcs(s, k, pc);
    forall j: nat | j < |s'.procs| ensures ProcOk(s', j) {
      if j < k {
        InvProc(s, j);
        Frame(s, s', j);
      }
    }
    MakeInv(s, s');
  }

  lemma ForkedProcs(s: State, k: nat, pc: Pc)
    requires k + 1 == |s.procs|
    ensures var s' := ForkChild(s, k, pc);
      && s'.out == s.out && |s'.procs| == k + 2 && s'.procs[k].got == s.procs[k].got
      && forall j :: 0 <= j < k ==> s'.procs[j] == s.procs[j]
  {
  }

  lemma InvProc(s: State, j: nat)
    requires Inv(s) && j < |s.procs|
    ensures ProcOk(s, j)
  {
    hide ProcOk, FirstPrimes;
  }

  /** The invariant of a state with the same output and at least as many processes. */
  lemma MakeInv(s: State, s': State)
    requires Inv(s) && s'.out == s.out && |s.procs| <= |s'.procs| && forall j: nat :: j < |s'.procs| ==> ProcOk(s', j)
    ensures Inv(s')
  {
    hide ProcOk, FirstPrimes;
  }

  lemma Forked(s: State, k: nat, pc: Pc)
    requires Inv(s) && k < |s.procs|
    requires (s.procs[k].pc.Start? && pc == Feed(2)) || (s.procs[k].pc.Fork? && pc == Loop(s.procs[k].pc.p))
    ensures k + 1 == |s.procs| && ProcOk(ForkChild(s, k, pc), k)
  {
    var p := s.procs[k];
    assert ProcOk(s, k);
    if p.pc.Fork? {
      assert s.out[k - 1] == p.pc.p && IsPrime(s.out[k - 1]);
      DividesSelf(p.pc.p);
      FilterMore(p.pc.p, [], p.pc.p);
      assert [] + [p.pc.p] == [p.pc.p];
    }
    hide FirstPrimes, IsSift, Divides;
  }

  lemma Newborn(s: State, k: nat, pc: Pc)
    requires Inv(s) && k + 1 == |s.procs|
    requires (s.procs[k].pc.Start? && pc == Feed(2)) || (s.procs[k].pc.Fork? && pc == Loop(s.procs[k].pc.p))
    ensures ProcOk(ForkChild(s, k, pc), k + 1)
  {
    assert ProcOk(s, k);
    assert ForkChild(s, k, pc).procs[k + 1] == NEWBORN;
    NothingYet(s.out[..k]);
    hide FirstPrimes, IsSift, Filter;
  }

  lemma NothingYet(ps: seq<nat>)
    ensures IsSift(ps, [])
  {
    assert Sift(ps, 0) == [];
  }

  /** A send that succeeds: the value gets to the right neighbour, and the stream there is still sifted. */
  lemma SendInv(s: State, k: nat, v: nat, next: Pc)
    requires Inv(s) && k + 1 < |s.procs|
    requires Sends(s.procs[k].pc, v, next)
    ensures Inv(TrySend(s, k, v, next))
  {
    hide Inv, ProcOk, TrySend, SetPc;
    var dst := s.procs[k + 1];
    var s' := TrySend(s, k, v, next);
    SentProcs(s, k, v, next);
    if dst.pc.Dead? {
      DeadInv(s, k);
    } else if dst.recving {
      Delivered(s, k, v, next);
      Arrived(s, k, v, next);
      forall j: nat | j < |s'.procs| ensures ProcOk(s', j) {
        if j != k && j != k + 1 {
          InvProc(s, j);
          Frame(s, s', j);
        }
      }
      MakeInv(s, s');
    }
  }

  lemma SentProcs(s: State, k: nat, v: nat, next: Pc)
    requires k + 1 < |s.procs|
    ensures var s' := TrySend(s, k, v, next);
      var dst := s.procs[k + 1];
      && (dst.pc.Dead? ==> s' == SetPc(s, k, Dead)) && (!dst.pc.Dead? && !dst.recving ==> s' == s)
      && (!dst.pc.Dead? ==> s'.out == s.out && |s'.procs| == |s.procs| && s'.procs[k].got == s.procs[k].got)
      && (!dst.pc.Dead? ==> forall j :: 0 <= j < |s.procs| && j != k && j != k + 1 ==> s'.procs[j] == s.procs[j])
  {
  }

  ghost predicate Sends(pc: Pc, v: nat, next: Pc) {
    (pc == Feed(v) && next == Feed(v + 1)) || (pc.Send? && pc.i == v && next == Loop(pc.p))
  }

  lemma Delivered(s: State, k: nat, v: nat, next: Pc)
    requires Inv(s) && k + 1 < |s.procs| && s.procs[k + 1].recving && !s.procs[k + 1].pc.Dead? && Sends(s.procs[k].pc, v, next)
    ensures ProcOk(TrySend(s, k, v, next), k)
  {
    var s' := TrySend(s, k, v, next);
    var p, dst := s.procs[k], s.procs[k + 1];
    assert ProcOk(s, k);
    SentSift(s, k, v);
    hide Inv, FirstPrimes, IsSift, Filter, Sift;
    assert s'.procs[k] == p.(pc := next, sent := p.sent + [v]);
    assert s'.procs[k + 1].got == dst.got + [v];
  }

  lemma Arrived(s: State, k: nat, v: nat, next: Pc)
    requires Inv(s) && k + 1 < |s.procs| && s.procs[k + 1].recving && !s.procs[k + 1].pc.Dead? && Sends(s.procs[k].pc, v, next)
    ensures ProcOk(TrySend(s, k, v, next), k + 1)
  {
    var s' := TrySend(s, k, v, next);
    var p, dst := s.procs[k], s.procs[k + 1];
    assert ProcOk(s, k) && ProcOk(s, k + 1);
    assert dst.got == p.sent && InRecv(dst.pc);
    SentSift(s, k, v);
    hide Inv, FirstPrimes, IsSift, Filter, Sift;
    assert s'.procs[k + 1] == dst.(recving := false, value := v, got := dst.got + [v]);
    assert k + 2 < |s.procs| ==> s'.procs[k + 2] == s.procs[k + 2];
  }

  lemma SentSift(s: State, k: nat, v: nat)
    requires Inv(s) && k + 1 < |s.procs| && (s.procs[k].pc == Feed(v) || (s.procs[k].pc.Send? && s.procs[k].pc.i == v))
    ensures k <= |s.out| && IsSift(s.out[..k], s.procs[k].sent + [v])
    ensures s.procs[k].pc.Feed? ==> s.procs[k].sent + [v] == Sift([], v + 1)
    ensures s.procs[k].pc.Send? ==> s.procs[k].sent + [v] == Filter(s.procs[k].pc.p, s.procs[k].used)
  {
    var p := s.procs[k];
    assert ProcOk(s, k);
    if p.pc.Feed? {
      AllNumbers(v);
      assert s.out[..k] == [];
    } else {
      assert p.used == p.used[..|p.used| - 1] + [v];
      FilterMore(p.pc.p, p.used[..|p.used| - 1], v);
      FilterIsSift(s.out[..k - 1], p.pc.p, p.used);
      assert s.out[..k] == s.out[..k - 1] + [p.pc.p];
    }
  }

  /** Every step of every process keeps the invariant. */
  lemma NextInv(s: State, c: Choice)
    requires Inv(s)
    ensures Inv(Next(s, c))
  {
    if c.k < |s.procs| {
      var k := c.k;
      var p := s.procs[k];
      assert ProcOk(s, k);
      hide Inv, ProcOk, SetPc, SysRecv, Received, TrySend, ForkChild;
      match c
      case ForkFails(_) =>
        if p.pc.Start? || p.pc.Fork? {
          DeadInv(s, k);
        }
      case Go(_) =>
        match p.pc
        case Start => ForkInv(s, k, Feed(2));
        case Feed(i) =>
          if k + 1 < |s.procs| {
            SendInv(s, k, i, Feed(i + 1));
          }
        case Top => RecvInv(s, k, RecvFirst);
        case RecvFirst =>
          if !p.recving {
            ReceivedInv(s, k, Print(p.value));
          }
        case Print(v) => PrintInv(s, k);
        case Fork(v) => ForkInv(s, k, Loop(v));
        case Loop(v) => RecvInv(s, k, RecvNext(v));
        case RecvNext(v) =>
          if !p.recving {
            ReceivedInv(s, k, Test(v, p.value));
          }
        case Test(v, i) => GoesOn(s, k, if Divides(v, i) then Loop(v) else Send(v, i));
        case Send(v, i) =>
          if k + 1 < |s.procs| {
            SendInv(s, k, i, Loop(v));
          }
        case Dead =>
    }
  }

  lemma {:induction false} RunInv(s: State, choices: seq<Choice>)
    requires Inv(s)
    ensures Inv(Run(s, choices))
    decreases |choices|
  {
    if choices != [] {
      NextInv(s, choices[0]);
      RunInv(Next(s, choices[0]), choices[1..]);
    }
  }

  /** Under every interleaving, whatever has been printed are the first primes, in order. */
  lemma SievePrintsPrimes(choices: seq<Choice>)
    ensures FirstPrimes(Run(Initial(), choices).out)
  {
    InitialInv();
    RunInv(Initial(), choices);
  }

  /** And the k-th process of the chain is the one that printed the k-th of them. */
  lemma EachItsPrime(choices: seq<Choice>, k: nat)
    requires 0 < k < |Run(Initial(), choices).procs| && HasPrinted(Run(Initial(), choices).procs[k].pc)
    ensures var s := Run(Initial(), choices);
      k <= |s.out| && s.procs[k].pc.p == s.out[k - 1]
  {
    InitialInv();
    RunInv(Initial(), choices);
    var s := Run(Initial(), choices);
    assert ProcOk(s, k);
  }

  /**
    The rendezvous: what a process has received is what its left neighbour has sent, in order and each
    value once, but for one value that may still be in env_ipc_value.
   */
  lemma SentIsReceived(choices: seq<Choice>, k: nat)
    requires k + 1 < |Run(Initial(), choices).procs|
    ensures var s := Run(Initial(), choices);
      || s.procs[k + 1].used == s.procs[k].sent
      || s.procs[k + 1].used + [s.procs[k + 1].value] == s.procs[k].sent
  {
    InitialInv();
    RunInv(Initial(), choices);
    var s := Run(Initial(), choices);
    assert ProcOk(s, k) && ProcOk(s, k + 1);
  }
}
