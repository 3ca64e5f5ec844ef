/**
  The prime sieve does print primes: for every n there is a run of the processes after which n of them are out.
  The run lets each number travel down the chain before the next one starts.
 */
module SieveRuns {
  import opened Division
  import opened PrimeSieve

  // ---------------------------------------------------------------------------------------------
  // There is always a next prime.

  function Product(ps: seq<nat>): (n: nat) {
    if ps == [] then 1 else Product(ps[..|ps| - 1]) * ps[|ps| - 1]
  }

  lemma {:induction false} ProductDivides(ps: seq<nat>, i: nat)
    requires i < |ps| && forall j :: 0 <= j < |ps| ==> ps[j] > 0
    ensures Divides(ps[i], Product(ps)) && Product(ps) > 0
    decreases |ps|
  {
    var rest, p := ps[..|ps| - 1], ps[|ps| - 1];
    if i < |rest| {
      ProductDivides(rest, i);
      DividesProduct(ps[i], Product(rest), p);
    } else {
      PositiveProduct(rest);
      DividesProduct(p, p, Product(rest));
    }
  }

  lemma {:induction false} PositiveProduct(ps: seq<nat>)
    requires forall j :: 0 <= j < |ps| ==> ps[j] > 0
    ensures Product(ps) > 0
    decreases |ps|
  {
    if ps != [] {
      PositiveProduct(ps[..|ps| - 1]);
    }
  }

  lemma DividesProduct(d: nat, a: nat, b: nat)
    requires Divides(d, a)
    ensures Divides(d, a * b) && Divides(d, b * a)
  {
    var x := a / d;
    assert a == d * x;
    assert a * b == d * (x * b);
    QuotientIs(d, x * b, 0);
  }

  /** Beyond every number there is one that none of `ps` divides. */
  lemma Survivor(ps: seq<nat>, i: nat) returns (x: nat)
    requires forall j :: 0 <= j < |ps| ==> ps[j] >= 2
    ensures x >= i && Passes(ps, x)
  {
    PositiveProduct(ps);
    x := Product(ps) * i + 1;
    assert Product(ps) * i >= i;
    forall j | 0 <= j < |ps| ensures !Divides(ps[j], x) {
      ProductDivides(ps, j);
      DividesProduct(ps[j], Product(ps), i);
      var q := Product(ps) * i / ps[j];
      assert x == ps[j] * q + 1;
      QuotientIs(ps[j], q, 1);
    }
  }

  // ---------------------------------------------------------------------------------------------
  // The chain between two numbers, and with a number on its way.

  /** Process `k` waits for a number: a filter in its loop, the last one for its prime. */
  predicate Waits(s: State, k: nat)
    requires 1 <= k < |s.procs|
  {
    s.procs[k].recving && s.procs[k].pc == (if k <= |s.out| then RecvNext(s.out[k - 1]) else RecvFirst)
  }

  /** Every process waits, and the next number is `i`. */
  predicate Settled(s: State, i: nat) {
    && |s.procs| == |s.out| + 2 && s.procs[0].pc == Feed(i)
    && forall k: nat {:trigger Waits(s, k)} :: 1 <= k < |s.procs| ==> Waits(s, k)
  }

  /** Process `k` has been sent the number `i`; the others wait. */
  predicate Carries(s: State, i: nat, k: nat) {
    && |s.procs| == |s.out| + 2 && s.procs[0].pc == Feed(i + 1) && 1 <= k < |s.procs|
    && !s.procs[k].recving && s.procs[k].value == i && s.procs[k].pc == (if k <= |s.out| then RecvNext(s.out[k - 1]) else RecvFirst)
    && forall j: nat {:trigger Waits(s, j)} :: 1 <= j < |s.procs| && j != k ==> Waits(s, j)
  }

  lemma {:induction false} RunAppend(s: State, a: seq<Choice>, b: seq<Choice>)
    ensures Run(s, a + b) == Run(Run(s, a), b)
    decreases |a|
  {
    hide Next;
    if a == [] {
      assert a + b == b;
    } else {
      assert (a + b)[0] == a[0] && (a + b)[1..] == a[1..] + b;
      RunAppend(Next(s, a[0]), a[1..], b);
    }
  }

  lemma RunTwo(s: State, a: Choice, b: Choice)
    ensures Run(s, [a, b]) == Next(Next(s, a), b)
  {
    hide Next;
    assert [a, b][1..] == [b] && [b][1..] == [];
    assert Run(Next(s, a), [b]) == Next(Next(s, a), b);
  }

  lemma RunThree(s: State, a: Choice, b: Choice, c: Choice)
    ensures Run(s, [a, b, c]) == Next(Next(Next(s, a), b), c)
  {
    hide Next;
    assert [a, b, c][1..] == [b, c];
    RunTwo(Next(s, a), b, c);
  }

  /** umain sends its number to the first filter. */
  lemma FeedStep(s: State, i: nat)
    requires Settled(s, i)
    ensures Carries(Next(s, Go(0)), i, 1) && Next(s, Go(0)).out == s.out
  {
    var t := Next(s, Go(0));
    assert Waits(s, 1);
    forall j: nat | 1 <= j < |t.procs| && j != 1 ensures Waits(t, j) {
      assert Waits(s, j);
    }
  }

  /** A filter whose prime divides the number drops it. */
  lemma DropSteps(s: State, i: nat, k: nat)
    requires Carries(s, i, k) && k <= |s.out| && Divides(s.out[k - 1], i)
    ensures var t := Run(s, [Go(k), Go(k), Go(k)]); Settled(t, i + 1) && t.out == s.out
  {
    var v := s.out[k - 1];
    var s1 := Next(s, Go(k));
    var s2 := Next(s1, Go(k));
    var t := Next(s2, Go(k));
    assert s1.procs[k].pc == Test(v, i) && s2.procs[k].pc == Loop(v) && t.procs[k].pc == RecvNext(v);
    RunThree(s, Go(k), Go(k), Go(k));
    forall j: nat | 1 <= j < |t.procs| ensures Waits(t, j) {
      assert j != k ==> Waits(s, j);
    }
  }

  /** Any other filter sends it on. */
  lemma PassSteps(s: State, i: nat, k: nat)
    requires Carries(s, i, k) && k <= |s.out| && !Divides(s.out[k - 1], i)
    ensures var t := Run(s, [Go(k), Go(k), Go(k)] + [Go(k)]); Carries(t, i, k + 1) && t.out == s.out
  {
    var v := s.out[k - 1];
    assert Waits(s, k + 1);
    var s1 := Next(s, Go(k));
    var s2 := Next(s1, Go(k));
    assert s1.procs[k].pc == Test(v, i) && s2.procs[k].pc == Send(v, i);
    var s3 := Next(s2, Go(k));
    assert s3.procs[k].pc == Loop(v) && s3.procs[k + 1] == s.procs[k + 1].(recving := false, value := i, got := s.procs[k + 1].got + [i]);
    var t := Next(s3, Go(k));
    RunThree(s, Go(k), Go(k), Go(k));
    RunAppend(s, [Go(k), Go(k), Go(k)], [Go(k)]);
    assert [Go(k)][1..] == [];
    assert Run(s3, [Go(k)]) == t;
    forall j: nat | 1 <= j < |t.procs| && j != k + 1 ensures Waits(t, j) {
      assert j != k ==> Waits(s, j);
    }
  }

  /** The last process prints it and makes a new last process. */
  lemma PrintSteps(s: State, i: nat, k: nat)
    requires Carries(s, i, k) && k == |s.out| + 1
    ensures var t := Run(s, [Go(k), Go(k), Go(k)] + [Go(k), Go(k + 1)]); Settled(t, i + 1) && t.out == s.out + [i]
  {
    var s1 := Next(s, Go(k));
    var s2 := Next(s1, Go(k));
    var s3 := Next(s2, Go(k));
    assert s1.procs[k].pc == Print(i) && s2.procs[k].pc == Fork(i) && s3.procs[k].pc == Loop(i) && s3.procs[k + 1] == NEWBORN;
    var s4 := Next(s3, Go(k));
    var t := Next(s4, Go(k + 1));
    RunThree(s, Go(k), Go(k), Go(k));
    RunTwo(s3, Go(k), Go(k + 1));
    RunAppend(s, [Go(k), Go(k), Go(k)], [Go(k), Go(k + 1)]);
    forall j: nat | 1 <= j < |t.procs| ensures Waits(t, j) {
      assert j < k ==> Waits(s, j);
    }
  }

  // ---------------------------------------------------------------------------------------------
  // Runs.

  /** The primes from position `k` on that do not divide the number let it through. */
  predicate Gets(ps: seq<nat>, k: nat, i: nat) {
    forall j :: k <= j < |ps| ==> !Divides(ps[j], i)
  }

  /** A number goes down the chain: it is dropped, or printed when nothing divides it. */
  lemma {:induction false} Travel(s: State, i: nat, k: nat) returns (run: seq<Choice>)
    requires Carries(s, i, k)
    ensures Settled(Run(s, run), i + 1)
    ensures Run(s, run).out == if Gets(s.out, k - 1, i) then s.out + [i] else s.out
    decreases |s.procs| - k
  {
    hide Next, Run, Settled, Divides;
    if k == |s.out| + 1 {
      PrintSteps(s, i, k);
      run := [Go(k), Go(k), Go(k)] + [Go(k), Go(k + 1)];
    } else if Divides(s.out[k - 1], i) {
      DropSteps(s, i, k);
      run := [Go(k), Go(k), Go(k)];
    } else {
      PassSteps(s, i, k);
      var first := [Go(k), Go(k), Go(k)] + [Go(k)];
      var rest := Travel(Run(s, first), i, k + 1);
      run := first + rest;
      RunAppend(s, first, rest);
    }
  }

  /** One number. */
  lemma OneNumber(s: State, i: nat) returns (run: seq<Choice>)
    requires Settled(s, i)
    ensures Settled(Run(s, run), i + 1) && Run(s, run).out == if Passes(s.out, i) then s.out + [i] else s.out
  {
    FeedStep(s, i);
    hide Next, Settled, Carries, Divides;
    var rest := Travel(Next(s, Go(0)), i, 1);
    run := [Go(0)] + rest;
    assert [Go(0)][1..] == [];
    RunAppend(s, [Go(0)], rest);
  }

  /** Numbers until one more is printed. */
  lemma {:induction false} OneMore(s: State, i: nat, x: nat) returns (run: seq<Choice>, i': nat)
    requires Settled(s, i) && x >= i && Passes(s.out, x)
    ensures Settled(Run(s, run), i') && i' >= i && |Run(s, run).out| == |s.out| + 1
    decreases x - i
  {
    hide Next, Run, Settled, Passes;
    run := OneNumber(s, i);
    i' := i + 1;
    if !Passes(s.out, i) {
      assert i != x;
      var rest;
      rest, i' := OneMore(Run(s, run), i + 1, x);
      RunAppend(s, run, rest);
      run := run + rest;
    }
  }

  lemma StartRun()
    ensures Settled(Run(Initial(), [Go(0), Go(1)]), 2) && Run(Initial(), [Go(0), Go(1)]).out == []
  {
    var s := Next(Initial(), Go(0));
    var t := Next(s, Go(1));
    assert s.procs[1] == NEWBORN;
    RunTwo(Initial(), Go(0), Go(1));
  }

  lemma {:induction false} Prints(n: nat) returns (run: seq<Choice>, i: nat)
    ensures Settled(Run(Initial(), run), i) && |Run(Initial(), run).out| == n
  {
    if n == 0 {
      StartRun();
      run, i := [Go(0), Go(1)], 2;
    } else {
      run, i := Prints(n - 1);
      var s := Run(Initial(), run);
      SievePrintsPrimes(run);
      var x := Survivor(s.out, i);
      var rest;
      rest, i := OneMore(s, i, x);
      RunAppend(Initial(), run, rest);
      run := run + rest;
    }
  }

  /** For every n some run prints exactly the first n primes. */
  lemma SievePrintsThemAll(n: nat) returns (run: seq<Choice>)
    ensures |Run(Initial(), run).out| == n && FirstPrimes(Run(Initial(), run).out)
  {
    var i;
    run, i := Prints(n);
    SievePrintsPrimes(run);
  }
}
