/** The ends of the constructs: what follows the last sub-expression, composed with what came before. */
module SimFinish {
  import opened CoolNames
  import opened Inheritance
  import opened CoolSyntax
  import opened Layout
  import opened ClassTags
  import opened CoolSemantics
  import opened Mips
  import opened CodeGen
  import opened SimRel
  import opened SimFrame
  import opened SimSteps
  import opened SimCalls
  import opened SimScopes

  lemma IntHere(P: Program, inj: Inj, h: Heap, n: int, w: Word)
    requires ValRel(P, inj, h, VInt(n), w)
    ensures HasInt(h, w, n) && h[w.r] == IntWords(P, n)
  {
  }

  lemma BoolHere(P: Program, inj: Inj, h: Heap, b: bool, w: Word)
    requires ValRel(P, inj, h, VBool(b), w)
    ensures HasBool(h, w, b)
  {
  }

  lemma BoolConstRel(P: Program, inj: Inj, h: Heap, next: nat, objs: seq<Obj>, b: bool)
    requires Hierarchy(P) && HeapRel(P, inj, h, next, objs)
    ensures ValRel(P, inj, h, VBool(b), Ref(BoolObj(b)))
  {
    InjDyn(P, inj, h, next, objs);
    assert BoolObj(b) in h;
  }

  lemma IntConstRel(P: Program, inj: Inj, h: Heap, next: nat, objs: seq<Obj>, n: int)
    requires Hierarchy(P) && HeapRel(P, inj, h, next, objs)
    ensures ValRel(P, inj, h, VInt(n), Ref(IntObj(n)))
  {
    InjDyn(P, inj, h, next, objs);
    assert IntObj(n) in h;
  }

  lemma StrConstRel(P: Program, inj: Inj, h: Heap, next: nat, objs: seq<Obj>, s: string)
    requires Hierarchy(P) && HeapRel(P, inj, h, next, objs)
    ensures ValRel(P, inj, h, VStr(s), Ref(StrObj(s)))
  {
    InjDyn(P, inj, h, next, objs);
    assert StrObj(s) in h;
  }

  lemma PostParts(P: Program, cls: ClassName, self: Value, scope: Scope, tmp: int, inj: Inj, st: Store, s: State, v: Value, env': Env, st': Store, inj': Inj, t: State)
    requires Hierarchy(P) && Post(P, cls, self, scope, tmp, inj, st, s, v, env', st', inj', t)
    ensures Mid(P, cls, self, scope, tmp, inj, st, s, env', st', inj', t)
    ensures ValRel(P, inj', t.heap, v, t.acc) && HeapRel(P, inj', t.heap, t.next, st'.objs) && t.out == st'.out
  {
    hide Hierarchy, HeapRel, EnvRel, SelfRel, ValRel, Ext, FrameKept;
  }

  /** A fresh Int made from the copy of an operand. */
  lemma FreshInt(k: Ctx, fuel: nat, cls: ClassName, self: Value, scope: Scope, tmp: int, inj: Inj, st: Store, s: State, env1: Env, st1: Store, inj1: Inj, u: State, m: nat, s1: State, m1: nat, t: State, n: int, len: nat) returns (r: Run)
    requires Hierarchy(k.P) && Mid(k.P, cls, self, scope, tmp, inj, st, s, env1, st1, inj1, u)
    requires Copied(u, IntWords(k.P, n), t) && Runs(k.img, m, s, s1) && Runs(k.img, m1, s1, t) && t.pc == s.pc + len
    ensures Good(k, fuel, cls, self, scope, tmp, inj, st, s, len, Val(VInt(n), env1, st1), r)
  {
    CopiedPost(k.P, cls, self, scope, tmp, env1, st1, inj1, u, IntWords(k.P, n), t, VInt(n));
    MidTrans(k.P, cls, self, scope, tmp, inj, st, s, env1, st1, inj1, u, env1, st1, inj1, t);
    RunsTrans(k.img, m, m1, s, s1, t);
    r := Run(m + m1, t, inj1);
  }

  /** The machine stops with a fault. */
  lemma FaultAfter(k: Ctx, fuel: nat, s: State, m: nat, s1: State, n: nat, f: Fault, out: seq<Output>) returns (r: Run)
    requires Runs(k.img, m, s, s1) && Halts(k.img, n, s1, Faulted(f), out)
    ensures Finishes(k, fuel, s, Abort(f, out), r)
  {
    HaltsTrans(k.img, m, n, s, s1, Faulted(f), out);
    r := Run(m + n, s1, []);
  }

  lemma DynFree(P: Program, inj: Inj, h: Heap, next: nat, objs: seq<Obj>)
    requires Hierarchy(P) && HeapRel(P, inj, h, next, objs)
    ensures Dyn(next) !in h
  {
  }

  /** code_arithm_expr, after both operands: `m` steps from `s`, with the first operand on the stack. */
  lemma ArithFinish(k: Ctx, fuel: nat, cls: ClassName, self: Value, scope: Scope, tmp: int, inj: Inj, st: Store, s: State, op: ArithOp, a: int, b: int, env1: Env, st1: Store, m: nat, r1: Run, len: nat) returns (r: Run)
    requires OK(k) && Runs(k.img, m, s, r1.t) && r1.t.sp.Stk?
    requires Post(k.P, cls, self, scope, tmp, inj, st, s, VInt(b), env1, st1, r1.inj, PopOne(r1.t))
    requires r1.t.sp.a + 4 in r1.t.stack && ValRel(k.P, r1.inj, r1.t.heap, VInt(a), r1.t.stack[r1.t.sp.a + 4])
    requires CodeAt(k.img.text, r1.t.pc, ArithTail(k.P, op)) && r1.t.pc + 7 == s.pc + len
    ensures Good(k, fuel, cls, self, scope, tmp, inj, st, s, len, ArithOutcome(op, VInt(a), Val(VInt(b), env1, st1)), r)
  {
    hide Step, Runs, Halts, Hierarchy, HeapRel, OK, ImageOK, WellFormed, CopyIsRuntime, Post, Mid, CodeAt, ArithTail, ValRel, ArithValue, IntWords;
    IntHere(k.P, r1.inj, r1.t.heap, a, r1.t.stack[r1.t.sp.a + 4]);
    OKHierarchy(k);
    PostParts(k.P, cls, self, scope, tmp, inj, st, s, VInt(b), env1, st1, r1.inj, PopOne(r1.t));
    IntHere(k.P, r1.inj, r1.t.heap, b, r1.t.acc);
    DynFree(k.P, r1.inj, r1.t.heap, r1.t.next, st1.objs);
    var t := ArithRun(k, r1.t, op, a, b);
    match ArithValue(op, a, b)
    case Trap =>
      r := FaultAfter(k, fuel, s, m, r1.t, 6, ArithFault, st1.out);
    case Number(n) =>
      r := FreshInt(k, fuel, cls, self, scope, tmp, inj, st, s, env1, st1, r1.inj, PopOne(r1.t), m, r1.t, 9, t, n, len);
  }

  lemma NegFinish(k: Ctx, fuel: nat, cls: ClassName, self: Value, scope: Scope, tmp: int, inj: Inj, st: Store, s: State, a: int, env1: Env, st1: Store, r1: Run, len: nat) returns (r: Run)
    requires OK(k) && Runs(k.img, r1.n, s, r1.t)
    requires Post(k.P, cls, self, scope, tmp, inj, st, s, VInt(a), env1, st1, r1.inj, r1.t)
    requires CodeAt(k.img.text, r1.t.pc, NegTail(k.P)) && r1.t.pc + 4 == s.pc + len
    ensures Good(k, fuel, cls, self, scope, tmp, inj, st, s, len, NegOutcome(Val(VInt(a), env1, st1)), r)
  {
    hide Step, Runs, Halts, Hierarchy, HeapRel, OK, ImageOK, WellFormed, CopyIsRuntime, Post, Mid, CodeAt, NegTail, ValRel, NegValue, IntWords;
    OKHierarchy(k);
    PostParts(k.P, cls, self, scope, tmp, inj, st, s, VInt(a), env1, st1, r1.inj, r1.t);
    IntHere(k.P, r1.inj, r1.t.heap, a, r1.t.acc);
    DynFree(k.P, r1.inj, r1.t.heap, r1.t.next, st1.objs);
    var t := NegRun(k, r1.t, a);
    match NegValue(a)
    case Trap =>
      r := FaultAfter(k, fuel, s, r1.n, r1.t, 4, ArithFault, st1.out);
    case Number(n) =>
      r := FreshInt(k, fuel, cls, self, scope, tmp, inj, st, s, env1, st1, r1.inj, r1.t, r1.n, r1.t, 6, t, n, len);
  }

  lemma CompareFinish(k: Ctx, fuel: nat, cls: ClassName, self: Value, scope: Scope, tmp: int, inj: Inj, st: Store, s: State, cmp: CmpOp, end: int, a: int, b: int, env1: Env, st1: Store, m: nat, r1: Run, len: nat) returns (r: Run)
    requires Hierarchy(k.P) && UniqueLabels(k.img.text) && Runs(k.img, m, s, r1.t) && r1.t.sp.Stk?
    requires Post(k.P, cls, self, scope, tmp, inj, st, s, VInt(b), env1, st1, r1.inj, PopOne(r1.t))
    requires r1.t.sp.a + 4 in r1.t.stack && ValRel(k.P, r1.inj, r1.t.heap, VInt(a), r1.t.stack[r1.t.sp.a + 4])
    requires CodeAt(k.img.text, r1.t.pc, CompareTail(cmp, end)) && r1.t.pc + 8 == s.pc + len
    ensures Good(k, fuel, cls, self, scope, tmp, inj, st, s, len, CompareOutcome(cmp, VInt(a), Val(VInt(b), env1, st1)), r)
  {
    hide Step, Runs, Hierarchy, HeapRel;
    IntHere(k.P, r1.inj, r1.t.heap, a, r1.t.stack[r1.t.sp.a + 4]);
    IntHere(k.P, r1.inj, r1.t.heap, b, r1.t.acc);
    var n, t := CompareRun(k, r1.t, cmp, end, a, b);
    RunsTrans(k.img, m, n, s, r1.t, t);
    BoolConstRel(k.P, r1.inj, r1.t.heap, r1.t.next, st1.objs, CompareValue(cmp, a, b));
    MidQuiet(k.P, cls, self, scope, tmp, inj, st, s, env1, st1, r1.inj, PopOne(r1.t), t);
    r := Run(m + n, t, r1.inj);
  }

  lemma CompFinish(k: Ctx, fuel: nat, cls: ClassName, self: Value, scope: Scope, tmp: int, inj: Inj, st: Store, s: State, no: int, end: int, b: bool, env1: Env, st1: Store, r1: Run, len: nat) returns (r: Run)
    requires Hierarchy(k.P) && UniqueLabels(k.img.text) && Runs(k.img, r1.n, s, r1.t)
    requires Post(k.P, cls, self, scope, tmp, inj, st, s, VBool(b), env1, st1, r1.inj, r1.t)
    requires CodeAt(k.img.text, r1.t.pc, CompTail(no, end)) && r1.t.pc + 7 == s.pc + len
    ensures Good(k, fuel, cls, self, scope, tmp, inj, st, s, len, CompOutcome(Val(VBool(b), env1, st1)), r)
  {
    BoolHere(k.P, r1.inj, r1.t.heap, b, r1.t.acc);
    var n, t := CompRun(k, r1.t, no, end, b);
    BoolConstRel(k.P, r1.inj, r1.t.heap, r1.t.next, st1.objs, !b);
    r := GoodEnd(k, fuel, cls, self, scope, tmp, inj, st, s, env1, st1, r1, VBool(!b), n, t, len);
  }

  /** The predicate of a conditional or a loop has been tested; the machine is at the chosen code. */
  lemma TestFinish(k: Ctx, cls: ClassName, self: Value, scope: Scope, tmp: int, inj: Inj, st: Store, s: State, l: int, b: bool, env1: Env, st1: Store, r1: Run, pc: nat) returns (q: Run)
    requires Hierarchy(k.P) && UniqueLabels(k.img.text) && Runs(k.img, r1.n, s, r1.t)
    requires Post(k.P, cls, self, scope, tmp, inj, st, s, VBool(b), env1, st1, r1.inj, r1.t)
    requires CodeAt(k.img.text, r1.t.pc, TestFalse(l))
    requires pc < |k.img.text| && k.img.text[pc] == LabelDef(Num(l))
    ensures Runs(k.img, q.n, s, q.t) && q.n > 0 && q.inj == r1.inj
    ensures q.t.pc == (if b then r1.t.pc + 2 else pc) && q.t.acc == BoolWord(b)
    ensures Mid(k.P, cls, self, scope, tmp, inj, st, s, env1, st1, q.inj, q.t)
  {
    BoolHere(k.P, r1.inj, r1.t.heap, b, r1.t.acc);
    TestRun(k, r1.t, l, b, pc);
    var u := r1.t.(pc := if b then r1.t.pc + 2 else pc, acc := BoolWord(b));
    RunsTrans(k.img, r1.n, 2, s, r1.t, u);
    MidQuiet(k.P, cls, self, scope, tmp, inj, st, s, env1, st1, r1.inj, r1.t, u);
    q := Run(r1.n + 2, u, r1.inj);
  }

  /** Pushing $a0 between two parts of a construct. */
  lemma PushFinish(k: Ctx, s: State, r0: Run) returns (s2: State)
    requires Runs(k.img, r0.n, s, r0.t) && CodeAt(k.img.text, r0.t.pc, PUSH) && r0.t.sp.Stk?
    ensures s2 == PushState(r0.t, r0.t.acc) && Pushed(r0.t, r0.t.acc, s2)
    ensures Runs(k.img, 2, r0.t, s2) && Runs(k.img, r0.n + 2, s, s2)
  {
    PushRun(k.img, r0.t);
    s2 := PushState(r0.t, r0.t.acc);
    RunsTrans(k.img, r0.n, 2, s, r0.t, s2);
  }

  /** The body of a let or of a branch is done: pop its variable. */
  lemma ScopeFinish(k: Ctx, cls: ClassName, self: Value, scope: Scope, tmp: int, env: Env, st: Store, inj: Inj, s: State, x: Name, t: State, m: nat, v: Value, env2: Env, st2: Store, r: Run) returns (q: Run)
    requires Hierarchy(k.P) && Rel(k.P, cls, self, scope, tmp, env, st, inj, s) && Pushed(s, s.acc, t)
    requires Runs(k.img, m, s, t) && Runs(k.img, r.n, t, r.t) && CodeAt(k.img.text, r.t.pc, POP)
    requires Post(k.P, cls, self, scope[x := Local(tmp)], tmp - 1, inj, st, t, v, env2, st2, r.inj, r.t)
    ensures Runs(k.img, q.n, s, q.t) && q.t.pc == r.t.pc + 1 && q.n == m + r.n + 1
    ensures Post(k.P, cls, self, scope, tmp, inj, st, s, v, Unbind(env, env2, x), st2, q.inj, q.t)
  {
    PopRun(k.img, r.t);
    var u := r.t.(pc := r.t.pc + 1, sp := Stk(r.t.sp.a + 4));
    RunsTrans(k.img, m, r.n, s, t, r.t);
    RunsTrans(k.img, m + r.n, 1, s, r.t, u);
    UnbindMid(k.P, cls, self, scope, tmp, env, st, inj, s, x, t, env2, st2, r.inj, r.t, u);
    q := Run(m + r.n + 1, u, r.inj);
  }

  /** Both operands of a binary operator are evaluated; the first is on the stack, the second in $a0. */
  ghost predicate OperandsDone(k: Ctx, cls: ClassName, self: Value, scope: Scope, tmp: int, inj: Inj, st: Store, s: State, len: nat, a: Value, o: Outcome, m: nat, r: Run)
    requires Hierarchy(k.P) && o.Val?
  {
    && Runs(k.img, m, s, r.t) && r.t.pc == s.pc + len && r.t.sp.Stk?
    && Post(k.P, cls, self, scope, tmp, inj, st, s, o.v, o.env, o.st, r.inj, PopOne(r.t))
    && r.t.sp.a + 4 in r.t.stack && ValRel(k.P, r.inj, r.t.heap, a, r.t.stack[r.t.sp.a + 4])
  }

  lemma PushOperand(k: Ctx, cls: ClassName, self: Value, scope: Scope, tmp: int, inj: Inj, st: Store, s: State, o: Outcome, r0: Run) returns (s2: State)
    requires Hierarchy(k.P) && o.Val? && Runs(k.img, r0.n, s, r0.t) && CodeAt(k.img.text, r0.t.pc, PUSH)
    requires Post(k.P, cls, self, scope, tmp, inj, st, s, o.v, o.env, o.st, r0.inj, r0.t)
    ensures r0.t.sp.Stk? && s2 == PushState(r0.t, r0.t.acc) && Runs(k.img, 2, r0.t, s2) && Runs(k.img, r0.n + 2, s, s2)
    ensures Rel(k.P, cls, self, scope, tmp - 1, o.env, o.st, r0.inj, s2)
  {
    s2 := PushFinish(k, s, r0);
    PushRel(k.P, cls, self, scope, tmp, o.env, o.st, r0.inj, r0.t, r0.t.acc, s2);
  }

  lemma SecondOperand(k: Ctx, fuel: nat, cls: ClassName, self: Value, scope: Scope, tmp: int, inj: Inj, st: Store, s: State, len0: nat, o1: Outcome, r0: Run, s2: State, len1: nat, o2: Outcome, r1: Run) returns (m: nat, r: Run)
    requires Hierarchy(k.P) && o1.Val? && Good(k, fuel, cls, self, scope, tmp, inj, st, s, len0, o1, r0)
    requires r0.t.sp.Stk? && s2 == PushState(r0.t, r0.t.acc) && Runs(k.img, 2, r0.t, s2) && Runs(k.img, r0.n + 2, s, s2)
    requires Good(k, fuel, cls, self, scope, tmp - 1, r0.inj, o1.st, s2, len1, o2, r1)
    ensures !o2.Val? ==> Finishes(k, fuel, s, o2, r)
    ensures o2.Val? ==> OperandsDone(k, cls, self, scope, tmp, inj, st, s, len0 + 2 + len1, o1.v, o2, m, r)
  {
    if o2.Val? {
      Operands(k, cls, self, scope, tmp, inj, st, s, o1.v, o1.env, o1.st, r0, s2, o2.v, o2.env, o2.st, r1);
      m, r := r0.n + 2 + r1.n, r1;
    } else {
      m := 0;
      r := FinishesAfter(k, fuel, s, r0.n + 2, s2, o2, r1);
    }
  }
}
