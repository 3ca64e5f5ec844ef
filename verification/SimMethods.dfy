/** Arguments, calls, and the bodies of methods and initialisers, given the runs of their parts. */
module SimMethods {
  import opened CoolNames
  import opened Inheritance
  import opened CoolSyntax
  import opened Layout
  import opened ClassTags
  import opened CoolSemantics
  import opened Mips
  import opened CodeGen
  import opened SemanticsEquations
  import opened SimRel
  import opened SimFrame
  import opened SimSteps
  import opened SimVars
  import opened SimCalls
  import opened SimObjects
  import opened SimScopes
  import opened SimFinish
  import opened SimDispatch
  import opened SimConstructs

  // ---------------------------------------------------------------------------------------------
  // Arguments.

  lemma ArgsNone(k: Ctx, fuel: nat, cls: ClassName, self: Value, scope: Scope, tmp: int, env: Env, st: Store, inj: Inj, s: State) returns (r: Run)
    requires Hierarchy(k.P) && Rel(k.P, cls, self, scope, tmp, env, st, inj, s)
    ensures ArgsGood(k, fuel, cls, self, scope, tmp, inj, st, s, 0, Args([], env, st), r)
  {
    NoArgs(k.P, cls, self, scope, tmp, env, st, inj, s);
    RunsNone(k.img, s);
    r := Run(0, s, inj);
  }

  lemma ArgsStopped(k: Ctx, fuel: nat, cls: ClassName, self: Value, scope: Scope, tmp: int, inj: Inj, st: Store, s: State, len0: nat, o: Outcome, r: Run, len: nat)
    requires Hierarchy(k.P) && !o.Val? && Good(k, fuel, cls, self, scope, tmp, inj, st, s, len0, o, r)
    ensures ArgsGood(k, fuel, cls, self, scope, tmp, inj, st, s, len, Stopped(o), r)
  {
  }

  lemma ArgsStop(k: Ctx, fuel: nat, cls: ClassName, self: Value, scope: Scope, tmp: int, inj: Inj, st: Store, s: State, len0: nat, o: Outcome, r: Run, len: nat)
    requires Hierarchy(k.P) && !o.Val? && ArgsGood(k, fuel, cls, self, scope, tmp, inj, st, s, len0, Stopped(o), r)
    ensures Good(k, fuel, cls, self, scope, tmp, inj, st, s, len, o, r)
  {
  }

  lemma ArgsVal(k: Ctx, fuel: nat, cls: ClassName, self: Value, scope: Scope, tmp: int, inj: Inj, st: Store, s: State, len: nat, a: ArgsOutcome, r: Run)
    requires Hierarchy(k.P) && a.Args? && ArgsGood(k, fuel, cls, self, scope, tmp, inj, st, s, len, a, r)
    ensures Runs(k.img, r.n, s, r.t) && r.t.pc == s.pc + len
    ensures ArgsPost(k.P, cls, self, scope, tmp, inj, st, s, a.vs, a.env, a.st, r.inj, r.t)
    ensures Rel(k.P, cls, self, scope, tmp - |a.vs|, a.env, a.st, r.inj, r.t)
    ensures ArgsOn(k.P, r.inj, r.t.heap, r.t.stack, r.t.sp.a, a.vs)
  {
  }

  /** One argument is pushed, then the others. */
  lemma ArgsDone(k: Ctx, fuel: nat, cls: ClassName, self: Value, scope: Scope, tmp: int, inj: Inj, st: Store, s: State, len0: nat, o: Outcome, r0: Run, s2: State, len1: nat, a: ArgsOutcome, r1: Run) returns (r: Run)
    requires Hierarchy(k.P) && o.Val? && Good(k, fuel, cls, self, scope, tmp, inj, st, s, len0, o, r0)
    requires Runs(k.img, r0.n + 2, s, s2) && Pushed(r0.t, r0.t.acc, s2) && s2.pc == s.pc + len0 + 2
    requires ArgsGood(k, fuel, cls, self, scope, tmp - 1, r0.inj, o.st, s2, len1, a, r1)
    ensures ArgsGood(k, fuel, cls, self, scope, tmp, inj, st, s, len0 + 2 + len1, ConsArgs(o.v, a), r)
  {
    hide Step, Runs, Hierarchy, HeapRel;
    if a.Args? {
      MoreArgs(k.P, cls, self, scope, tmp, inj, st, s, o.v, o.env, o.st, r0.inj, r0.t, s2, a.vs, a.env, a.st, r1.inj, r1.t);
      RunsTrans(k.img, r0.n + 2, r1.n, s, s2, r1.t);
      r := Run(r0.n + 2 + r1.n, r1.t, r1.inj);
    } else {
      r := FinishesAfter(k, fuel, s, r0.n + 2, s2, a.o, r1);
    }
  }

  // ---------------------------------------------------------------------------------------------
  // Dispatch: arguments on the stack, receiver in $a0.

  ghost predicate ReceiverDone(k: Ctx, cls: ClassName, self: Value, scope: Scope, tmp: int, inj: Inj, st: Store, s: State, len: nat, vs: seq<Value>, o: Outcome, n: nat, r: Run)
    requires Hierarchy(k.P) && o.Val?
  {
    && Runs(k.img, n, s, r.t) && r.t.pc == s.pc + len && r.t.sp.Stk? && NoSlotFrom(scope, tmp)
    && Mid(k.P, cls, self, scope, tmp, inj, st, s, o.env, o.st, r.inj, PopState(r.t, |vs|))
    && Rel(k.P, cls, self, scope, tmp - |vs|, o.env, o.st, r.inj, r.t)
    && ValRel(k.P, r.inj, r.t.heap, o.v, r.t.acc)
    && ArgsOn(k.P, r.inj, r.t.heap, r.t.stack, r.t.sp.a, vs)
  }

  lemma ReceiverFinish(k: Ctx, fuel: nat, cls: ClassName, self: Value, scope: Scope, tmp: int, env: Env, st: Store, inj: Inj, s: State, len0: nat, a: ArgsOutcome, ra: Run, len1: nat, o: Outcome, r: Run) returns (n: nat)
    requires Hierarchy(k.P) && Rel(k.P, cls, self, scope, tmp, env, st, inj, s) && a.Args? && o.Val?
    requires ArgsGood(k, fuel, cls, self, scope, tmp, inj, st, s, len0, a, ra)
    requires Good(k, fuel, cls, self, scope, tmp - |a.vs|, ra.inj, a.st, ra.t, len1, o, r)
    ensures ReceiverDone(k, cls, self, scope, tmp, inj, st, s, len0 + len1, a.vs, o, n, r)
  {
    hide *;
    ArgsVal(k, fuel, cls, self, scope, tmp, inj, st, s, len0, a, ra);
    GoodVal(k, fuel, cls, self, scope, tmp - |a.vs|, ra.inj, a.st, ra.t, len1, o, r);
    ArgsPopMid(k.P, cls, self, scope, tmp, env, inj, st, s, a.vs, a.env, a.st, ra.inj, ra.t, o.env, o.st, r.inj, r.t);
    ArgsKept(k.P, cls, self, scope, tmp - |a.vs|, ra.inj, a.st, a.env, ra.t, a.vs, o.env, o.st, r.inj, r.t);
    RunsTrans(k.img, ra.n, r.n, s, ra.t, r.t);
    n := ra.n + r.n;
    MakeReceiver(k, cls, self, scope, tmp, inj, st, s, len0 + len1, a.vs, o, n, r);
  }

  lemma MakeReceiver(k: Ctx, cls: ClassName, self: Value, scope: Scope, tmp: int, inj: Inj, st: Store, s: State, len: nat, vs: seq<Value>, o: Outcome, n: nat, r: Run)
    requires Hierarchy(k.P) && o.Val?
    requires Runs(k.img, n, s, r.t) && r.t.pc == s.pc + len && r.t.sp.Stk? && NoSlotFrom(scope, tmp)
    requires Mid(k.P, cls, self, scope, tmp, inj, st, s, o.env, o.st, r.inj, PopState(r.t, |vs|))
    requires Rel(k.P, cls, self, scope, tmp - |vs|, o.env, o.st, r.inj, r.t)
    requires ValRel(k.P, r.inj, r.t.heap, o.v, r.t.acc)
    requires ArgsOn(k.P, r.inj, r.t.heap, r.t.stack, r.t.sp.a, vs)
    ensures ReceiverDone(k, cls, self, scope, tmp, inj, st, s, len, vs, o, n, r)
  {
  }

  /** The callee's view of the jump. */
  ghost predicate AtCallee(k: Ctx, inj: Inj, st: Store, c: State, v0: Value, vs: seq<Value>, l: Label)
    requires Hierarchy(k.P)
  {
    Called(k.P, inj, st, c, v0, vs) && c.pc == Find(k.img.text, l)
  }

  lemma JumpCallee(k: Ctx, cls: ClassName, self: Value, scope: Scope, tmp: int, inj: Inj, st: Store, s: State, len: nat, vs: seq<Value>, o: Outcome, n: nat, r: Run, l: Label, pc: nat, c: State)
    requires Hierarchy(k.P) && o.Val? && ReceiverDone(k, cls, self, scope, tmp, inj, st, s, len, vs, o, n, r)
    requires JumpedTo(r.t, l, k.img.text, pc, c)
    ensures AtCallee(k, r.inj, o.st, c, o.v, vs, l) && Quiet(r.t, c) && c.ra == Ret(pc)
  {
  }

  lemma ReceiverFacts(k: Ctx, cls: ClassName, self: Value, scope: Scope, tmp: int, inj: Inj, st: Store, s: State, len: nat, vs: seq<Value>, o: Outcome, n: nat, r: Run)
    requires Hierarchy(k.P) && o.Val? && ReceiverDone(k, cls, self, scope, tmp, inj, st, s, len, vs, o, n, r)
    ensures Runs(k.img, n, s, r.t) && r.t.pc == s.pc + len && r.t.out == o.st.out
    ensures o.v == VVoid ==> r.t.acc == I(0)
    ensures o.v != VVoid ==>
      && r.t.acc.Ref? && r.t.acc.r in r.t.heap && |r.t.heap[r.t.acc.r]| > 2
      && r.t.heap[r.t.acc.r][2] == Disp(ClassOf(o.st, o.v))
  {
    if o.v != VVoid {
      ClassWord(k.P, r.inj, r.t.heap, r.t.next, o.st, o.v, r.t.acc);
    }
  }

  /** The static class `sc` knows the method and the class of the receiver lies below it. */
  ghost predicate Callable(P: Program, sc: ClassName, dc: ClassName, m: Name)
    requires Hierarchy(P)
  {
    sc in P.classes && dc in P.classes && Inherits(P, dc, sc) && Nearest(P, sc, m) != NoClass
  }

  lemma DynamicReady(k: Ctx, cls: ClassName, self: Value, scope: Scope, tmp: int, inj: Inj, st: Store, s: State, len: nat, vs: seq<Value>, o: Outcome, n: nat, r: Run, sc: ClassName, m: Name, l: int) returns (c: State)
    requires OK(k) && Hierarchy(k.P) && o.Val? && ReceiverDone(k, cls, self, scope, tmp, inj, st, s, len, vs, o, n, r)
    requires o.v != VVoid && Callable(k.P, sc, ClassOf(o.st, o.v), m)
    requires CodeAt(k.img.text, s.pc + len, DispatchTail(k.P, sc, m, l))
    ensures HasClass(k.P, ClassOf(o.st, o.v))
    ensures Runs(k.img, n + 5, s, c) && Quiet(r.t, c) && c.ra == Ret(s.pc + len + 8)
    ensures AtCallee(k, r.inj, o.st, c, o.v, vs, MethodLabel(Nearest(k.P, ClassOf(o.st, o.v), m), m))
  {
    hide ReceiverDone, OK, Step, Runs, DispatchTail, CodeAt, AtCallee, Quiet, JumpedTo, Rel, Mid, ValRel;
    var dc := ClassOf(o.st, o.v);
    ReceiverFacts(k, cls, self, scope, tmp, inj, st, s, len, vs, o, n, r);
    c := DispatchJump(k, r.t, sc, dc, m, l);
    JumpCallee(k, cls, self, scope, tmp, inj, st, s, len, vs, o, n, r, MethodLabel(Nearest(k.P, dc, m), m), r.t.pc + 8, c);
    RunsTrans(k.img, n, 5, s, r.t, c);
  }

  lemma StaticReady(k: Ctx, cls: ClassName, self: Value, scope: Scope, tmp: int, inj: Inj, st: Store, s: State, len: nat, vs: seq<Value>, o: Outcome, n: nat, r: Run, sc: ClassName, m: Name, l: int) returns (c: State)
    requires OK(k) && Hierarchy(k.P) && o.Val? && ReceiverDone(k, cls, self, scope, tmp, inj, st, s, len, vs, o, n, r)
    requires o.v != VVoid && sc in k.P.classes && Nearest(k.P, sc, m) != NoClass
    requires CodeAt(k.img.text, s.pc + len, StaticDispatchTail(k.P, sc, m, l))
    ensures Runs(k.img, n + 3, s, c) && Quiet(r.t, c) && c.ra == Ret(s.pc + len + 6)
    ensures AtCallee(k, r.inj, o.st, c, o.v, vs, MethodLabel(Nearest(k.P, sc, m), m))
  {
    hide ReceiverDone, OK, Step, Runs, StaticDispatchTail, CodeAt, AtCallee, Quiet, JumpedTo, Rel, Mid, ValRel;
    ReceiverFacts(k, cls, self, scope, tmp, inj, st, s, len, vs, o, n, r);
    c := StaticJump(k, r.t, sc, m, l);
    JumpCallee(k, cls, self, scope, tmp, inj, st, s, len, vs, o, n, r, MethodLabel(Nearest(k.P, sc, m), m), r.t.pc + 6, c);
    RunsTrans(k.img, n, 3, s, r.t, c);
  }

  /** A void receiver. */
  lemma VoidReceiver(k: Ctx, fuel: nat, cls: ClassName, self: Value, scope: Scope, tmp: int, inj: Inj, st: Store, s: State, len: nat, vs: seq<Value>, o: Outcome, n: nat, r0: Run, tail: seq<Instr>, l: int, end: nat) returns (r: Run)
    requires Hierarchy(k.P) && o.Val? && ReceiverDone(k, cls, self, scope, tmp, inj, st, s, len, vs, o, n, r0) && o.v == VVoid
    requires CodeAt(k.img.text, s.pc + len, AbortOnVoid(DispatchVoid, l) + tail)
    ensures Good(k, fuel, cls, self, scope, tmp, inj, st, s, end, Abort(DispatchVoid, o.st.out), r)
  {
    hide ReceiverDone, Step, Runs, Halts, CodeAt, Rel, Mid, AbortOnVoid;
    ReceiverFacts(k, cls, self, scope, tmp, inj, st, s, len, vs, o, n, r0);
    CodeSplit(k.img.text, s.pc + len, AbortOnVoid(DispatchVoid, l), tail);
    VoidRun(k.img, r0.t, DispatchVoid, l);
    r := FaultAfter(k, fuel, s, n, r0.t, 3, DispatchVoid, o.st.out);
  }

  /** The call has been made and its outcome is known. */
  lemma CallDone(k: Ctx, fuel: nat, cls: ClassName, self: Value, scope: Scope, tmp: int, inj: Inj, st: Store, s: State, len: nat, vs: seq<Value>, o: Outcome, n: nat, r1: Run, m: nat, c: State, oc: Outcome, rc: Run, end: nat) returns (r: Run)
    requires Hierarchy(k.P) && fuel > 0 && m > 0 && o.Val? && ReceiverDone(k, cls, self, scope, tmp, inj, st, s, len, vs, o, n, r1)
    requires Runs(k.img, m, s, c) && Quiet(r1.t, c) && c.ra == Ret(s.pc + end)
    requires CallGood(k, fuel - 1, r1.inj, o.st, c, |vs|, oc, rc)
    ensures Good(k, fuel, cls, self, scope, tmp, inj, st, s, end, Return(o.env, oc), r)
  {
    hide Rel, Mid, Quiet, CallGood, Good, Runs, Step, NoSlotFrom, ArgsOn, ValRel, Return;
    r := CallFinish(k, fuel, cls, self, scope, tmp, inj, st, s, |vs|, o.env, o.st, r1.inj, r1.t, m, c, oc, rc, end);
  }

  lemma SplitCall(text: seq<Instr>, pc: nat, c0: seq<Instr>, c1: seq<Instr>, tail: seq<Instr>)
    requires CodeAt(text, pc, c0 + (c1 + tail))
    ensures CodeAt(text, pc, c0) && CodeAt(text, pc + |c0|, c1) && CodeAt(text, pc + |c0| + |c1|, tail)
  {
    CodeSplit(text, pc, c0, c1 + tail);
    CodeSplit(text, pc + |c0|, c1, tail);
  }

  lemma DispatchCases(P: Program, fuel: nat, sc: ClassName, m: Name, vs: seq<Value>, o: Outcome)
    requires Hierarchy(P)
    ensures DispatchOutcome(P, fuel, sc, m, vs, o) ==
      if !o.Val? then o
      else if o.v == VVoid then Abort(DispatchVoid, o.st.out)
      else if fuel == 0 then Timeout
      else if !Callable(P, sc, ClassOf(o.st, o.v), m) then Wrong
      else Return(o.env, Call(P, fuel - 1, ClassOf(o.st, o.v), o.v, m, vs, o.st))
  {
  }

  lemma StaticCases(P: Program, fuel: nat, c: ClassName, m: Name, vs: seq<Value>, o: Outcome)
    requires Hierarchy(P)
    ensures StaticOutcome(P, fuel, c, m, vs, o) ==
      if !o.Val? then o
      else if o.v == VVoid then Abort(DispatchVoid, o.st.out)
      else if fuel == 0 then Timeout
      else if !StaticCallable(P, c, ClassOf(o.st, o.v), m) then Wrong
      else Return(o.env, Call(P, fuel - 1, c, o.v, m, vs, o.st))
  {
  }

  // ---------------------------------------------------------------------------------------------
  // Methods.

  lemma CallCases(P: Program, fuel: nat, c: ClassName, v0: Value, m: Name, vs: seq<Value>, st: Store)
    requires Hierarchy(P)
    ensures Call(P, fuel, c, v0, m, vs, st) ==
      if c !in P.classes || Nearest(P, c, m) == NoClass then Wrong
      else
        var d := Nearest(P, c, m);
        var mt := Decl(P.classes[d], m);
        if mt.body.Native? then RunNative(mt.body.op, v0, vs, st)
        else if |mt.formals| != |vs| || !v0.VObj? || !Inherits(P, c, d) then Wrong
        else Eval(P, fuel, d, v0, Bind(mt.formals, vs), st, mt.body.e)
  {
  }

  lemma CallWrong(k: Ctx, fuel: nat, inj: Inj, st: Store, s: State, n: nat, r: Run)
    requires Hierarchy(k.P)
    ensures CallGood(k, fuel, inj, st, s, n, Wrong, r)
  {
  }

  lemma NativeCall(k: Ctx, fuel: nat, inj: Inj, st: Store, s: State, d: ClassName, mt: Method, v0: Value, vs: seq<Value>) returns (r: Run)
    requires OK(k) && Hierarchy(k.P) && d in k.P.classes && mt in k.P.classes[d].methods && mt.body.Native?
    requires AtCallee(k, inj, st, s, v0, vs, MethodLabel(d, mt.name))
    ensures CallGood(k, fuel, inj, st, s, |vs|, RunNative(mt.body.op, v0, vs, st), r)
  {
    hide Step, Runs, Hierarchy, HeapRel;
    assert MethodPlaced(k, d, mt);
    r := NativeRun(k, fuel, inj, st, s, MethodLabel(d, mt.name), mt.body.op, v0, vs);
  }

  lemma MethodStands(k: Ctx, d: ClassName, mt: Method) returns (l: int)
    requires OK(k) && Hierarchy(k.P) && d in k.P.classes && mt in k.P.classes[d].methods && mt.body.Code?
    ensures CodeAt(k.img.text, Find(k.img.text, MethodLabel(d, mt.name)), MethodCode(k.P, d, mt, l).code)
  {
    hide MethodCode, Find, CodeAt, AttrsOK, MethodsOK, InitPlaced, TablesOK, Hierarchy;
    assert MethodPlaced(k, d, mt);
    l :| Placed(k.img, MethodLabel(d, mt.name), MethodCode(k.P, d, mt, l).code);
  }

  /** The entry sequence of a method, its body, and its exit sequence. */
  lemma MethodText(k: Ctx, d: ClassName, mt: Method) returns (l: int)
    requires OK(k) && Hierarchy(k.P) && d in k.P.classes && mt in k.P.classes[d].methods && mt.body.Code?
    ensures var pc := Find(k.img.text, MethodLabel(d, mt.name));
      var g := Compile(k.P, d, MethodScope(k.P, d, mt.formals), -3, mt.body.e, l);
      && CodeAt(k.img.text, pc, [LabelDef(MethodLabel(d, mt.name))] + ENTER)
      && CodeAt(k.img.text, pc + 7, g.code) && CodeAt(k.img.text, pc + 7 + |g.code|, Exit(|mt.formals|))
  {
    hide *;
    l := MethodStands(k, d, mt);
    MethodPieces(k, d, mt, l);
  }

  lemma MethodPieces(k: Ctx, d: ClassName, mt: Method, l: int)
    requires Hierarchy(k.P) && d in k.P.classes && mt.body.Code?
    requires CodeAt(k.img.text, Find(k.img.text, MethodLabel(d, mt.name)), MethodCode(k.P, d, mt, l).code)
    ensures var pc := Find(k.img.text, MethodLabel(d, mt.name));
      var g := Compile(k.P, d, MethodScope(k.P, d, mt.formals), -3, mt.body.e, l);
      && CodeAt(k.img.text, pc, [LabelDef(MethodLabel(d, mt.name))] + ENTER)
      && CodeAt(k.img.text, pc + 7, g.code) && CodeAt(k.img.text, pc + 7 + |g.code|, Exit(|mt.formals|))
  {
    hide Compile, CodeAt, MethodScope, Find, Exit;
    var pc := Find(k.img.text, MethodLabel(d, mt.name));
    var g := Compile(k.P, d, MethodScope(k.P, d, mt.formals), -3, mt.body.e, l);
    var head := [LabelDef(MethodLabel(d, mt.name))];
    var tail := g.code + Exit(|mt.formals|);
    assert head + (ENTER + tail) == (head + ENTER) + tail;
    CodeSplit(k.img.text, pc, head + ENTER, tail);
    CodeSplit(k.img.text, pc + 7, g.code, Exit(|mt.formals|));
  }

  lemma CalleeSelf(P: Program, inj: Inj, st: Store, s: State, v0: Value, vs: seq<Value>, c: ClassName, d: ClassName)
    requires Hierarchy(P) && Called(P, inj, st, s, v0, vs) && v0.VObj?
    requires HasClass(P, ClassOf(st, v0)) && Inherits(P, ClassOf(st, v0), c) && HasClass(P, c) && Inherits(P, c, d) && d in P.classes
    ensures SelfRel(P, d, v0, st.objs, inj, s.acc)
  {
    assert ObjAt(P, inj, s.heap, st.objs, v0.id);
    AncTransitive(Parents(P), ClassOf(st, v0), c, d);
  }

  /** The machine in the frame of the method. */
  lemma MethodEnter(k: Ctx, inj: Inj, st: Store, s: State, d: ClassName, formals: seq<Name>, v0: Value, vs: seq<Value>, l: Label)
    requires OK(k) && Hierarchy(k.P) && d in k.P.classes && FormalsOK(formals) && |formals| == |vs|
    requires AtCallee(k, inj, st, s, v0, vs, l) && SelfRel(k.P, d, v0, st.objs, inj, s.acc)
    requires CodeAt(k.img.text, s.pc, [LabelDef(l)] + ENTER)
    ensures s.sp.Stk? && s.ra.Ret? && Runs(k.img, 7, s, EnterState(s)) && EnterState(s).pc == s.pc + 7
    ensures Rel(k.P, d, v0, MethodScope(k.P, d, formals), -3, Bind(formals, vs), st, inj, EnterState(s))
  {
    EnterRun(k.img, s, l);
    EntryRel(k.P, d, formals, v0, vs, st, inj, s);
  }

  lemma MethodLeave(k: Ctx, fuel: nat, inj: Inj, st: Store, s: State, d: ClassName, formals: seq<Name>, v0: Value, len: nat, o: Outcome, r1: Run) returns (r: Run)
    requires OK(k) && Hierarchy(k.P) && d in k.P.classes && FormalsOK(formals) && s.sp.Stk? && s.ra.Ret?
    requires Runs(k.img, 7, s, EnterState(s)) && EnterState(s).pc == s.pc + 7
    requires Good(k, fuel, d, v0, MethodScope(k.P, d, formals), -3, inj, st, EnterState(s), len, o, r1)
    requires CodeAt(k.img.text, s.pc + 7 + len, Exit(|formals|))
    ensures CallGood(k, fuel, inj, st, s, |formals|, o, r)
  {
    hide OK, ImageOK, WellFormed, Hierarchy, CopyIsRuntime, HeapRel, ValRel, Runs, Halts, CodeAt, Exit, MethodScope, Step;
    OKHierarchy(k);
    if o.Val? {
      RunsTrans(k.img, 7, r1.n, s, EnterState(s), r1.t);
      var u := ExitReturned(k, d, formals, v0, st, inj, s, o.v, o.env, o.st, r1.inj, r1.t, 7 + r1.n);
      r := Run(12 + r1.n, u, r1.inj);
    } else {
      r := FinishesAfter(k, fuel, s, 7, EnterState(s), o, r1);
    }
  }

  lemma FormalsFact(k: Ctx, d: ClassName, m: Name)
    requires OK(k) && Hierarchy(k.P) && d in k.P.classes && Declares(k.P.classes[d], m)
    ensures FormalsOK(Decl(k.P.classes[d], m).formals)
  {
    assert ClassOK(k.P, d);
  }

  /** Where the callee starts, and whose code it runs. */
  lemma CalleePc(k: Ctx, inj: Inj, st: Store, s: State, v0: Value, vs: seq<Value>, l: Label, c: ClassName, d: ClassName)
    requires Hierarchy(k.P) && AtCallee(k, inj, st, s, v0, vs, l) && v0.VObj?
    requires HasClass(k.P, ClassOf(st, v0)) && Inherits(k.P, ClassOf(st, v0), c) && HasClass(k.P, c) && Inherits(k.P, c, d) && d in k.P.classes
    ensures s.pc == Find(k.img.text, l) && SelfRel(k.P, d, v0, st.objs, inj, s.acc)
  {
    CalleeSelf(k.P, inj, st, s, v0, vs, c, d);
  }

  lemma SplitPush(text: seq<Instr>, pc: nat, c0: seq<Instr>, c1: seq<Instr>)
    requires CodeAt(text, pc, c0 + (PUSH + c1))
    ensures CodeAt(text, pc, c0) && CodeAt(text, pc + |c0|, PUSH) && CodeAt(text, pc + |c0| + 2, c1) && |PUSH| == 2
  {
    CodeSplit(text, pc, c0, PUSH + c1);
    CodeSplit(text, pc + |c0|, PUSH, c1);
  }

  lemma CallStops(k: Ctx, fuel: nat, cls: ClassName, self: Value, scope: Scope, tmp: int, tmp1: int, inj: Inj, st: Store, s: State, ra: Run, st1: Store, len1: nat, o: Outcome, r1: Run, len: nat) returns (r: Run)
    requires Hierarchy(k.P) && Runs(k.img, ra.n, s, ra.t) && !o.Val?
    requires Good(k, fuel, cls, self, scope, tmp1, ra.inj, st1, ra.t, len1, o, r1)
    ensures Good(k, fuel, cls, self, scope, tmp, inj, st, s, len, o, r)
  {
    r := FinishesAfter(k, fuel, s, ra.n, ra.t, o, r1);
  }

  lemma SimInvokeVoid(k: Ctx, fuel: nat, cls: ClassName, self: Value, scope: Scope, tmp: int, inj: Inj, st: Store, s: State, len: nat, vs: seq<Value>, o: Outcome, n: nat, r0: Run, sc: ClassName, m: Name, l: int) returns (r: Run)
    requires Hierarchy(k.P) && o.Val? && ReceiverDone(k, cls, self, scope, tmp, inj, st, s, len, vs, o, n, r0) && o.v == VVoid
    requires CodeAt(k.img.text, s.pc + len, DispatchTail(k.P, sc, m, l))
    ensures Good(k, fuel, cls, self, scope, tmp, inj, st, s, len + 8, Abort(DispatchVoid, o.st.out), r)
  {
    r := VoidReceiver(k, fuel, cls, self, scope, tmp, inj, st, s, len, vs, o, n, r0,
                      [LabelDef(Num(l)), Lw(T1, DISPTABLE_OFFSET, ACC), Lw(T1, MethodOffset(k.P, sc, m), T1), Jalr(T1)], l, len + 8);
  }

  lemma SimInvokeStaticVoid(k: Ctx, fuel: nat, cls: ClassName, self: Value, scope: Scope, tmp: int, inj: Inj, st: Store, s: State, len: nat, vs: seq<Value>, o: Outcome, n: nat, r0: Run, sc: ClassName, m: Name, l: int) returns (r: Run)
    requires Hierarchy(k.P) && o.Val? && ReceiverDone(k, cls, self, scope, tmp, inj, st, s, len, vs, o, n, r0) && o.v == VVoid
    requires CodeAt(k.img.text, s.pc + len, StaticDispatchTail(k.P, sc, m, l))
    ensures Good(k, fuel, cls, self, scope, tmp, inj, st, s, len + 6, Abort(DispatchVoid, o.st.out), r)
  {
    r := VoidReceiver(k, fuel, cls, self, scope, tmp, inj, st, s, len, vs, o, n, r0, [LabelDef(Num(l)), Jal(MethodLabel(MethodClass(k.P, sc, m), m))], l, len + 6);
  }

  /** A call of the method that `sc` has, on an object of a class below it. */
  ghost predicate StaticCallable(P: Program, sc: ClassName, dc: ClassName, m: Name)
    requires Hierarchy(P)
  {
    HasClass(P, dc) && Inherits(P, dc, sc) && sc in P.classes && Nearest(P, sc, m) != NoClass
  }

  lemma CallableFacts(P: Program, sc: ClassName, dc: ClassName, m: Name)
    requires Hierarchy(P) && Callable(P, sc, dc, m)
    ensures dc in P.classes && HasClass(P, dc) && Nearest(P, dc, m) != NoClass && Inherits(P, dc, dc)
  {
    NearestBelow(P, dc, sc, m);
  }

  lemma StaticCallableFacts(P: Program, sc: ClassName, dc: ClassName, m: Name)
    requires Hierarchy(P) && StaticCallable(P, sc, dc, m)
    ensures sc in P.classes && HasClass(P, sc) && Nearest(P, sc, m) != NoClass && HasClass(P, dc) && Inherits(P, dc, sc)
  {
  }
}
