/**
  Compiler correctness.  By induction over the interpreter's evaluation: started at the code that
  the generator emitted for an expression, in a state that stands for the interpreter's, the machine
  arrives behind that code with the same value, store and output, or stops with the same fault, or
  keeps running for as many steps as the interpreter had fuel.
 */
module Simulation {
  import opened CoolNames
  import opened Inheritance
  import opened CoolSyntax
  import opened Layout
  import opened ClassTags
  import opened CoolSemantics
  import opened Mips
  import opened CodeGen
  import opened CodeGenEquations
  import opened SemanticsEquations
  import opened SimRel
  import opened SimFrame
  import opened SimSteps
  import opened SimVars
  import opened SimCalls
  import opened SimObjects
  import opened SimScopes
  import opened SimFinish
  import opened SimDispatch
  import opened SimConstructs
  import opened SimMethods
  import opened SimSelect
  import opened SimCreation
  import opened SimSpecialNew

  lemma {:induction false} SimExpr(k: Ctx, fuel: nat, cls: ClassName, self: Value, scope: Scope, tmp: int, env: Env, st: Store, inj: Inj, s: State, e: Expr, l: int) returns (r: Run)
    requires OK(k) && Hierarchy(k.P)
    requires Rel(k.P, cls, self, scope, tmp, env, st, inj, s) && CodeAt(k.img.text, s.pc, Compile(k.P, cls, scope, tmp, e, l).code)
    ensures Good(k, fuel, cls, self, scope, tmp, inj, st, s, |Compile(k.P, cls, scope, tmp, e, l).code|, Eval(k.P, fuel, cls, self, env, st, e), r)
    decreases fuel, 1, e, 2
  {
    hide *;
    match e
    case IntConst(_) => r := SimConst(k, fuel, cls, self, scope, tmp, env, st, inj, s, e, l);
    case BoolConst(_) => r := SimConst(k, fuel, cls, self, scope, tmp, env, st, inj, s, e, l);
    case StrConst(_) => r := SimConst(k, fuel, cls, self, scope, tmp, env, st, inj, s, e, l);
    case NoExpr(_) => r := SimNoExpr(k, fuel, cls, self, scope, tmp, env, st, inj, s, e, l);
    case Object(_) => r := SimObject(k, fuel, cls, self, scope, tmp, env, st, inj, s, e, l);
    case Assign(_, _) => r := SimAssign(k, fuel, cls, self, scope, tmp, env, st, inj, s, e, l);
    case Block(_) => r := SimBlock(k, fuel, cls, self, scope, tmp, env, st, inj, s, e, l);
    case Cond(_, _, _) => r := SimCond(k, fuel, cls, self, scope, tmp, env, st, inj, s, e, l);
    case Loop(_, _) => r := SimLoop(k, fuel, cls, self, scope, tmp, env, st, inj, s, e, l);
    case Let(_, _, _, _) => r := SimLet(k, fuel, cls, self, scope, tmp, env, st, inj, s, e, l);
    case Arith(_, _, _) => r := SimArith(k, fuel, cls, self, scope, tmp, env, st, inj, s, e, l);
    case Neg(_) => r := SimNeg(k, fuel, cls, self, scope, tmp, env, st, inj, s, e, l);
    case Compare(_, _, _) => r := SimCompare(k, fuel, cls, self, scope, tmp, env, st, inj, s, e, l);
    case Comp(_) => r := SimComp(k, fuel, cls, self, scope, tmp, env, st, inj, s, e, l);
    case Dispatch(_, _, _, _) => r := SimDispatchExpr(k, fuel, cls, self, scope, tmp, env, st, inj, s, e, l);
    case StaticDispatch(_, _, _, _) => r := SimStaticDispatch(k, fuel, cls, self, scope, tmp, env, st, inj, s, e, l);
    case TypCase(_, _) => r := SimTypCase(k, fuel, cls, self, scope, tmp, env, st, inj, s, e, l);
    case New(_) => r := SimNew(k, fuel, cls, self, scope, tmp, env, st, inj, s, e, l);
    case NewSelf => r := SimNewSelf(k, fuel, cls, self, scope, tmp, env, st, inj, s, e, l);
  }

  // ---------------------------------------------------------------------------------------------
  // Leaves.

  lemma {:induction false} SimConst(k: Ctx, fuel: nat, cls: ClassName, self: Value, scope: Scope, tmp: int, env: Env, st: Store, inj: Inj, s: State, e: Expr, l: int) returns (r: Run)
    requires OK(k) && Hierarchy(k.P) && (e.IntConst? || e.BoolConst? || e.StrConst?)
    requires Rel(k.P, cls, self, scope, tmp, env, st, inj, s) && CodeAt(k.img.text, s.pc, Compile(k.P, cls, scope, tmp, e, l).code)
    ensures Good(k, fuel, cls, self, scope, tmp, inj, st, s, |Compile(k.P, cls, scope, tmp, e, l).code|, Eval(k.P, fuel, cls, self, env, st, e), r)
    decreases fuel, 1, e, 1
  {
    hide *;
    match e
    case IntConst(n) =>
      CompileIntConst(k.P, cls, scope, tmp, e, l);
      EvalIntConst(k.P, fuel, cls, self, env, st, e);
      r := ConstCase(k, fuel, cls, self, scope, tmp, env, st, inj, s, e, [La(ACC, IntObj(n))], IntObj(n), VInt(n));
      if Eval(k.P, fuel, cls, self, env, st, e) == Wrong {
        WrongGood(k, fuel, cls, self, scope, tmp, inj, st, s, 1, r);
      }
    case BoolConst(b) =>
      CompileBoolConst(k.P, cls, scope, tmp, e, l);
      EvalBoolConst(k.P, fuel, cls, self, env, st, e);
      r := ConstCase(k, fuel, cls, self, scope, tmp, env, st, inj, s, e, [La(ACC, BoolObj(b))], BoolObj(b), VBool(b));
    case StrConst(x) =>
      CompileStrConst(k.P, cls, scope, tmp, e, l);
      EvalStrConst(k.P, fuel, cls, self, env, st, e);
      r := ConstCase(k, fuel, cls, self, scope, tmp, env, st, inj, s, e, [La(ACC, StrObj(x))], StrObj(x), VStr(x));
  }

  lemma {:induction false} SimNoExpr(k: Ctx, fuel: nat, cls: ClassName, self: Value, scope: Scope, tmp: int, env: Env, st: Store, inj: Inj, s: State, e: Expr, l: int) returns (r: Run)
    requires OK(k) && Hierarchy(k.P) && e.NoExpr?
    requires Rel(k.P, cls, self, scope, tmp, env, st, inj, s) && CodeAt(k.img.text, s.pc, Compile(k.P, cls, scope, tmp, e, l).code)
    ensures Good(k, fuel, cls, self, scope, tmp, inj, st, s, |Compile(k.P, cls, scope, tmp, e, l).code|, Eval(k.P, fuel, cls, self, env, st, e), r)
    decreases fuel, 1, e, 1
  {
    hide *;
    CompileNoExpr(k.P, cls, scope, tmp, e, l);
    EvalNoExpr(k.P, fuel, cls, self, env, st, e);
    r := DefaultCase(k, fuel, cls, self, scope, tmp, env, st, inj, s, e.ty);
  }

  lemma {:induction false} SimObject(k: Ctx, fuel: nat, cls: ClassName, self: Value, scope: Scope, tmp: int, env: Env, st: Store, inj: Inj, s: State, e: Expr, l: int) returns (r: Run)
    requires OK(k) && Hierarchy(k.P) && e.Object?
    requires Rel(k.P, cls, self, scope, tmp, env, st, inj, s) && CodeAt(k.img.text, s.pc, Compile(k.P, cls, scope, tmp, e, l).code)
    ensures Good(k, fuel, cls, self, scope, tmp, inj, st, s, |Compile(k.P, cls, scope, tmp, e, l).code|, Eval(k.P, fuel, cls, self, env, st, e), r)
    decreases fuel, 1, e, 1
  {
    hide *;
    CompileObject(k.P, cls, scope, tmp, e, l);
    EvalObject(k.P, fuel, cls, self, env, st, e);
    r := ObjectCase(k, fuel, cls, self, scope, tmp, env, st, inj, s, e.x, Compile(k.P, cls, scope, tmp, e, l).code);
  }

  // ---------------------------------------------------------------------------------------------
  // Assignment, blocks, operators.

  lemma {:induction false} SimAssign(k: Ctx, fuel: nat, cls: ClassName, self: Value, scope: Scope, tmp: int, env: Env, st: Store, inj: Inj, s: State, e: Expr, l: int) returns (r: Run)
    requires OK(k) && Hierarchy(k.P) && e.Assign?
    requires Rel(k.P, cls, self, scope, tmp, env, st, inj, s) && CodeAt(k.img.text, s.pc, Compile(k.P, cls, scope, tmp, e, l).code)
    ensures Good(k, fuel, cls, self, scope, tmp, inj, st, s, |Compile(k.P, cls, scope, tmp, e, l).code|, Eval(k.P, fuel, cls, self, env, st, e), r)
    decreases fuel, 1, e, 1
  {
    hide *;
    CompileAssign(k.P, cls, scope, tmp, e, l);
    EvalAssign(k.P, fuel, cls, self, env, st, e);
    var g := Compile(k.P, cls, scope, tmp, e.e, l);
    CodeSplit(k.img.text, s.pc, g.code, [StoreVar(scope, e.x)]);
    var r0 := SimExpr(k, fuel, cls, self, scope, tmp, env, st, inj, s, e.e, l);
    r := AssignCase(k, fuel, cls, self, scope, tmp, inj, st, s, |g.code|, e.x, Eval(k.P, fuel, cls, self, env, st, e.e), r0);
  }

  lemma {:induction false} SimBlock(k: Ctx, fuel: nat, cls: ClassName, self: Value, scope: Scope, tmp: int, env: Env, st: Store, inj: Inj, s: State, e: Expr, l: int) returns (r: Run)
    requires OK(k) && Hierarchy(k.P) && e.Block?
    requires Rel(k.P, cls, self, scope, tmp, env, st, inj, s) && CodeAt(k.img.text, s.pc, Compile(k.P, cls, scope, tmp, e, l).code)
    ensures Good(k, fuel, cls, self, scope, tmp, inj, st, s, |Compile(k.P, cls, scope, tmp, e, l).code|, Eval(k.P, fuel, cls, self, env, st, e), r)
    decreases fuel, 1, e, 1
  {
    hide *;
    CompileBlock(k.P, cls, scope, tmp, e, l);
    EvalBlock(k.P, fuel, cls, self, env, st, e);
    r := Run(0, s, inj);
    if e.es == [] {
      WrongGood(k, fuel, cls, self, scope, tmp, inj, st, s, |Compile(k.P, cls, scope, tmp, e, l).code|, r);
    } else {
      r := SimSeq(k, fuel, cls, self, scope, tmp, env, st, inj, s, e.es, l);
    }
  }

  /** A non-empty sequence of expressions. */
  lemma {:induction false} SimSeq(k: Ctx, fuel: nat, cls: ClassName, self: Value, scope: Scope, tmp: int, env: Env, st: Store, inj: Inj, s: State, es: seq<Expr>, l: int) returns (r: Run)
    requires OK(k) && Hierarchy(k.P) && es != []
    requires Rel(k.P, cls, self, scope, tmp, env, st, inj, s) && CodeAt(k.img.text, s.pc, CompileSeq(k.P, cls, scope, tmp, es, l).code)
    ensures Good(k, fuel, cls, self, scope, tmp, inj, st, s, |CompileSeq(k.P, cls, scope, tmp, es, l).code|, EvalSeq(k.P, fuel, cls, self, env, st, es), r)
    decreases fuel, 1, es, 0
  {
    hide *;
    CompileSeqMore(k.P, cls, scope, tmp, es, l);
    EvalSeqMore(k.P, fuel, cls, self, env, st, es);
    var g0 := Compile(k.P, cls, scope, tmp, es[0], l);
    var g1 := CompileSeq(k.P, cls, scope, tmp, es[1..], g0.next);
    CodeSplit(k.img.text, s.pc, g0.code, g1.code);
    r := SimExpr(k, fuel, cls, self, scope, tmp, env, st, inj, s, es[0], l);
    var o := Eval(k.P, fuel, cls, self, env, st, es[0]);
    if !o.Val? {
      Stops(k, fuel, cls, self, scope, tmp, inj, st, s, |g0.code|, |g0.code| + |g1.code|, o, r);
    } else if |es| == 1 {
      CompileSeqNone(k.P, cls, scope, tmp, es[1..], g0.next);
    } else {
      GoodVal(k, fuel, cls, self, scope, tmp, inj, st, s, |g0.code|, o, r);
      var r1 := SimSeq(k, fuel, cls, self, scope, tmp, o.env, o.st, r.inj, r.t, es[1..], g0.next);
      r := PartThen(k, fuel, cls, self, scope, tmp, inj, st, s, |g0.code|, o, r, |g1.code|, EvalSeq(k.P, fuel, cls, self, o.env, o.st, es[1..]), r1);
    }
  }

  lemma {:induction false} SimNeg(k: Ctx, fuel: nat, cls: ClassName, self: Value, scope: Scope, tmp: int, env: Env, st: Store, inj: Inj, s: State, e: Expr, l: int) returns (r: Run)
    requires OK(k) && Hierarchy(k.P) && e.Neg?
    requires Rel(k.P, cls, self, scope, tmp, env, st, inj, s) && CodeAt(k.img.text, s.pc, Compile(k.P, cls, scope, tmp, e, l).code)
    ensures Good(k, fuel, cls, self, scope, tmp, inj, st, s, |Compile(k.P, cls, scope, tmp, e, l).code|, Eval(k.P, fuel, cls, self, env, st, e), r)
    decreases fuel, 1, e, 1
  {
    hide *;
    CompileNeg(k.P, cls, scope, tmp, e, l);
    EvalNeg(k.P, fuel, cls, self, env, st, e);
    var g := Compile(k.P, cls, scope, tmp, e.e, l);
    CodeSplit(k.img.text, s.pc, g.code, NegTail(k.P));
    TailSizes(k.P, OpSub, Lt, 0, 0, IntC, "");
    var r0 := SimExpr(k, fuel, cls, self, scope, tmp, env, st, inj, s, e.e, l);
    r := NegCase(k, fuel, cls, self, scope, tmp, inj, st, s, |g.code|, Eval(k.P, fuel, cls, self, env, st, e.e), r0);
  }

  lemma {:induction false} SimComp(k: Ctx, fuel: nat, cls: ClassName, self: Value, scope: Scope, tmp: int, env: Env, st: Store, inj: Inj, s: State, e: Expr, l: int) returns (r: Run)
    requires OK(k) && Hierarchy(k.P) && e.Comp?
    requires Rel(k.P, cls, self, scope, tmp, env, st, inj, s) && CodeAt(k.img.text, s.pc, Compile(k.P, cls, scope, tmp, e, l).code)
    ensures Good(k, fuel, cls, self, scope, tmp, inj, st, s, |Compile(k.P, cls, scope, tmp, e, l).code|, Eval(k.P, fuel, cls, self, env, st, e), r)
    decreases fuel, 1, e, 1
  {
    hide *;
    CompileComp(k.P, cls, scope, tmp, e, l);
    EvalComp(k.P, fuel, cls, self, env, st, e);
    var g := Compile(k.P, cls, scope, tmp, e.e, l);
    CodeSplit(k.img.text, s.pc, g.code, CompTail(g.next, g.next + 1));
    TailSizes(k.P, OpSub, Lt, g.next, g.next + 1, IntC, "");
    var r0 := SimExpr(k, fuel, cls, self, scope, tmp, env, st, inj, s, e.e, l);
    r := CompCase(k, fuel, cls, self, scope, tmp, inj, st, s, |g.code|, g.next, g.next + 1, Eval(k.P, fuel, cls, self, env, st, e.e), r0);
  }

  /** The second operand, after the first, whose outcome is `o1`. */
  lemma {:induction false} SimSecond(k: Ctx, fuel: nat, cls: ClassName, self: Value, scope: Scope, tmp: int, inj: Inj, st: Store, s: State, len0: nat, o1: Outcome, r0: Run, e2: Expr, l: int) returns (m: nat, r: Run)
    requires OK(k) && Hierarchy(k.P) && o1.Val? && Good(k, fuel, cls, self, scope, tmp, inj, st, s, len0, o1, r0)
    requires CodeAt(k.img.text, s.pc + len0, PUSH)
    requires CodeAt(k.img.text, s.pc + len0 + 2, Compile(k.P, cls, scope, tmp - 1, e2, l).code)
    ensures var o2 := Eval(k.P, fuel, cls, self, o1.env, o1.st, e2);
      && (!o2.Val? ==> Finishes(k, fuel, s, o2, r))
      && (o2.Val? ==> OperandsDone(k, cls, self, scope, tmp, inj, st, s, len0 + 2 + |Compile(k.P, cls, scope, tmp - 1, e2, l).code|, o1.v, o2, m, r))
    decreases fuel, 1, e2, 3
  {
    hide *;
    GoodVal(k, fuel, cls, self, scope, tmp, inj, st, s, len0, o1, r0);
    var s2 := PushOperand(k, cls, self, scope, tmp, inj, st, s, o1, r0);
    Pushes(r0.t, s2);
    var r1 := SimExpr(k, fuel, cls, self, scope, tmp - 1, o1.env, o1.st, r0.inj, s2, e2, l);
    m, r := SecondOperand(k, fuel, cls, self, scope, tmp, inj, st, s, len0, o1, r0, s2, |Compile(k.P, cls, scope, tmp - 1, e2, l).code|,
                          Eval(k.P, fuel, cls, self, o1.env, o1.st, e2), r1);
  }

  lemma {:induction false} SimArith(k: Ctx, fuel: nat, cls: ClassName, self: Value, scope: Scope, tmp: int, env: Env, st: Store, inj: Inj, s: State, e: Expr, l: int) returns (r: Run)
    requires OK(k) && Hierarchy(k.P) && e.Arith?
    requires Rel(k.P, cls, self, scope, tmp, env, st, inj, s) && CodeAt(k.img.text, s.pc, Compile(k.P, cls, scope, tmp, e, l).code)
    ensures Good(k, fuel, cls, self, scope, tmp, inj, st, s, |Compile(k.P, cls, scope, tmp, e, l).code|, Eval(k.P, fuel, cls, self, env, st, e), r)
    decreases fuel, 1, e, 1
  {
    hide *;
    CompileArith(k.P, cls, scope, tmp, e, l);
    EvalArith(k.P, fuel, cls, self, env, st, e);
    var g0 := Compile(k.P, cls, scope, tmp, e.e1, l);
    var g1 := Compile(k.P, cls, scope, tmp - 1, e.e2, g0.next);
    SplitOperands(k.img.text, s.pc, g0.code, g1.code, ArithTail(k.P, e.op));
    TailSizes(k.P, e.op, Lt, 0, 0, IntC, "");
    r := SimExpr(k, fuel, cls, self, scope, tmp, env, st, inj, s, e.e1, l);
    var o1 := Eval(k.P, fuel, cls, self, env, st, e.e1);
    if o1.Val? {
      GoodVal(k, fuel, cls, self, scope, tmp, inj, st, s, |g0.code|, o1, r);
      var m, r1 := SimSecond(k, fuel, cls, self, scope, tmp, inj, st, s, |g0.code|, o1, r, e.e2, g0.next);
      var o2 := Eval(k.P, fuel, cls, self, o1.env, o1.st, e.e2);
      if o2.Val? {
        OperandsAt(k, cls, self, scope, tmp, inj, st, s, |g0.code| + 2 + |g1.code|, o1.v, o2, m, r1);
      }
      r := ArithCase(k, fuel, cls, self, scope, tmp, inj, st, s, |g0.code| + 2 + |g1.code|, e.op, o1.v, o2, m, r1);
    } else {
      Stops(k, fuel, cls, self, scope, tmp, inj, st, s, |g0.code|, |Compile(k.P, cls, scope, tmp, e, l).code|, o1, r);
    }
  }

  lemma {:induction false} SimCompare(k: Ctx, fuel: nat, cls: ClassName, self: Value, scope: Scope, tmp: int, env: Env, st: Store, inj: Inj, s: State, e: Expr, l: int) returns (r: Run)
    requires OK(k) && Hierarchy(k.P) && e.Compare?
    requires Rel(k.P, cls, self, scope, tmp, env, st, inj, s) && CodeAt(k.img.text, s.pc, Compile(k.P, cls, scope, tmp, e, l).code)
    ensures Good(k, fuel, cls, self, scope, tmp, inj, st, s, |Compile(k.P, cls, scope, tmp, e, l).code|, Eval(k.P, fuel, cls, self, env, st, e), r)
    decreases fuel, 1, e, 1
  {
    hide *;
    CompileCompare(k.P, cls, scope, tmp, e, l);
    EvalCompare(k.P, fuel, cls, self, env, st, e);
    var g0 := Compile(k.P, cls, scope, tmp, e.e1, l);
    var g1 := Compile(k.P, cls, scope, tmp - 1, e.e2, g0.next);
    SplitOperands(k.img.text, s.pc, g0.code, g1.code, CompareTail(e.cmp, g1.next));
    TailSizes(k.P, OpSub, e.cmp, g1.next, 0, IntC, "");
    r := SimExpr(k, fuel, cls, self, scope, tmp, env, st, inj, s, e.e1, l);
    var o1 := Eval(k.P, fuel, cls, self, env, st, e.e1);
    if o1.Val? {
      GoodVal(k, fuel, cls, self, scope, tmp, inj, st, s, |g0.code|, o1, r);
      var m, r1 := SimSecond(k, fuel, cls, self, scope, tmp, inj, st, s, |g0.code|, o1, r, e.e2, g0.next);
      var o2 := Eval(k.P, fuel, cls, self, o1.env, o1.st, e.e2);
      if o2.Val? {
        OperandsAt(k, cls, self, scope, tmp, inj, st, s, |g0.code| + 2 + |g1.code|, o1.v, o2, m, r1);
      }
      r := CompareCase(k, fuel, cls, self, scope, tmp, inj, st, s, |g0.code| + 2 + |g1.code|, e.cmp, g1.next, o1.v, o2, m, r1);
    } else {
      Stops(k, fuel, cls, self, scope, tmp, inj, st, s, |g0.code|, |Compile(k.P, cls, scope, tmp, e, l).code|, o1, r);
    }
  }

  // ---------------------------------------------------------------------------------------------
  // Control.

  lemma {:induction false} SimCond(k: Ctx, fuel: nat, cls: ClassName, self: Value, scope: Scope, tmp: int, env: Env, st: Store, inj: Inj, s: State, e: Expr, l: int) returns (r: Run)
    requires OK(k) && Hierarchy(k.P) && e.Cond?
    requires Rel(k.P, cls, self, scope, tmp, env, st, inj, s) && CodeAt(k.img.text, s.pc, Compile(k.P, cls, scope, tmp, e, l).code)
    ensures Good(k, fuel, cls, self, scope, tmp, inj, st, s, |Compile(k.P, cls, scope, tmp, e, l).code|, Eval(k.P, fuel, cls, self, env, st, e), r)
    decreases fuel, 1, e, 1
  {
    hide *;
    CompileCond(k.P, cls, scope, tmp, e, l);
    EvalCond(k.P, fuel, cls, self, env, st, e);
    var g0 := Compile(k.P, cls, scope, tmp, e.pred, l);
    var g1 := Compile(k.P, cls, scope, tmp, e.thn, g0.next + 2);
    var g2 := Compile(k.P, cls, scope, tmp, e.els, g1.next);
    var len := |Compile(k.P, cls, scope, tmp, e, l).code|;
    SplitCond(k.img.text, s.pc, g0.code, g0.next, g1.code, g2.code);
    r := SimExpr(k, fuel, cls, self, scope, tmp, env, st, inj, s, e.pred, l);
    var o := Eval(k.P, fuel, cls, self, env, st, e.pred);
    if !o.Val? {
      Stops(k, fuel, cls, self, scope, tmp, inj, st, s, |g0.code|, len, o, r);
    } else if !o.v.VBool? {
      WrongGood(k, fuel, cls, self, scope, tmp, inj, st, s, len, r);
    } else {
      var mid := s.pc + |g0.code| + 2 + |g1.code|;
      var q := TestCase(k, fuel, cls, self, scope, tmp, inj, st, s, |g0.code|, g0.next, o, r, mid + 1);
      MidRel(k, cls, self, scope, tmp, inj, st, s, o.env, o.st, q);
      var branch, bl, blen := if o.v.b then e.thn else e.els, if o.v.b then g0.next + 2 else g1.next, if o.v.b then |g1.code| else |g2.code|;
      var r1 := SimExpr(k, fuel, cls, self, scope, tmp, o.env, o.st, q.inj, q.t, branch, bl);
      r := CondDone(k, fuel, cls, self, scope, tmp, inj, st, s, o.env, o.st, q, blen, Eval(k.P, fuel, cls, self, o.env, o.st, branch), r1, o.v.b, g0.next + 1, mid + 2 + |g2.code|, len);
    }
  }

  lemma {:induction false} SimLoop(k: Ctx, fuel: nat, cls: ClassName, self: Value, scope: Scope, tmp: int, env: Env, st: Store, inj: Inj, s: State, e: Expr, l: int) returns (r: Run)
    requires OK(k) && Hierarchy(k.P) && e.Loop?
    requires Rel(k.P, cls, self, scope, tmp, env, st, inj, s) && CodeAt(k.img.text, s.pc, Compile(k.P, cls, scope, tmp, e, l).code)
    ensures Good(k, fuel, cls, self, scope, tmp, inj, st, s, |Compile(k.P, cls, scope, tmp, e, l).code|, Eval(k.P, fuel, cls, self, env, st, e), r)
    decreases fuel, 1, e, 1
  {
    hide *;
    CompileLoop(k.P, cls, scope, tmp, e, l);
    EvalLoop(k.P, fuel, cls, self, env, st, e);
    var g0 := Compile(k.P, cls, scope, tmp, e.pred, l + 2);
    var g1 := Compile(k.P, cls, scope, tmp, e.body, g0.next);
    var len := |Compile(k.P, cls, scope, tmp, e, l).code|;
    SplitLoop(k.img.text, s.pc, l, g0.code, g1.code);
    var q := LoopEnter(k, cls, self, scope, tmp, env, st, inj, s, l);
    var r0 := SimExpr(k, fuel, cls, self, scope, tmp, env, st, inj, q.t, e.pred, l + 2);
    var o := Eval(k.P, fuel, cls, self, env, st, e.pred);
    if !o.Val? {
      r := PartStops(k, fuel, cls, self, scope, tmp, inj, st, s, env, st, q, |g0.code|, o, r0, len);
    } else if !o.v.VBool? {
      WrongGood(k, fuel, cls, self, scope, tmp, inj, st, s, len, r0);
      r := r0;
    } else {
      var q1 := TestCase(k, fuel, cls, self, scope, tmp, inj, st, q.t, |g0.code|, l + 1, o, r0, s.pc + |g0.code| + |g1.code| + 4);
      q := PartTrans(k, cls, self, scope, tmp, inj, st, s, env, st, q, o.env, o.st, q1);
      r := SimBody(k, fuel, cls, self, scope, tmp, env, st, inj, s, e, l, q, len);
    }
  }

  /** A loop whose predicate has been tested. */
  lemma {:induction false} SimBody(k: Ctx, fuel: nat, cls: ClassName, self: Value, scope: Scope, tmp: int, env: Env, st: Store, inj: Inj, s: State, e: Expr, l: int, q: Run, len: nat) returns (r: Run)
    requires OK(k) && Hierarchy(k.P) && e.Loop? && len == |Compile(k.P, cls, scope, tmp, e, l).code|
    requires Rel(k.P, cls, self, scope, tmp, env, st, inj, s) && CodeAt(k.img.text, s.pc, Compile(k.P, cls, scope, tmp, e, l).code)
    requires var o := Eval(k.P, fuel, cls, self, env, st, e.pred);
      && o.Val? && o.v.VBool?
      && Runs(k.img, q.n, s, q.t) && Mid(k.P, cls, self, scope, tmp, inj, st, s, o.env, o.st, q.inj, q.t)
      && q.t.acc == BoolWord(o.v.b)
      && q.t.pc == s.pc + if o.v.b then |Compile(k.P, cls, scope, tmp, e.pred, l + 2).code| + 3 else len
    ensures Good(k, fuel, cls, self, scope, tmp, inj, st, s, len, Eval(k.P, fuel, cls, self, env, st, e), r)
    decreases fuel, 1, e, 0
  {
    hide *;
    CompileLoop(k.P, cls, scope, tmp, e, l);
    EvalLoop(k.P, fuel, cls, self, env, st, e);
    var g0 := Compile(k.P, cls, scope, tmp, e.pred, l + 2);
    var g1 := Compile(k.P, cls, scope, tmp, e.body, g0.next);
    var o := Eval(k.P, fuel, cls, self, env, st, e.pred);
    SplitLoop(k.img.text, s.pc, l, g0.code, g1.code);
    MidRel(k, cls, self, scope, tmp, inj, st, s, o.env, o.st, q);
    if !o.v.b {
      LoopExit(k, fuel, cls, self, scope, tmp, inj, st, s, o.env, o.st, q, len);
      r := q;
    } else {
      var r1 := SimExpr(k, fuel, cls, self, scope, tmp, o.env, o.st, q.inj, q.t, e.body, g0.next);
      var o1 := Eval(k.P, fuel, cls, self, o.env, o.st, e.body);
      if !o1.Val? {
        r := PartStops(k, fuel, cls, self, scope, tmp, inj, st, s, o.env, o.st, q, |g1.code|, o1, r1, len);
      } else if fuel == 0 {
        r := TimeoutGood(k, cls, self, scope, tmp, inj, st, s, len);
      } else {
        var q2 := LoopAgain(k, fuel, cls, self, scope, tmp, inj, st, s, o.env, o.st, q, |g1.code|, o1, r1, l);
        var r2 := SimExpr(k, fuel - 1, cls, self, scope, tmp, o1.env, o1.st, q2.inj, q2.t, e, l);
        r := LoopDone(k, fuel, cls, self, scope, tmp, inj, st, s, o1.env, o1.st, q2, len, Eval(k.P, fuel - 1, cls, self, o1.env, o1.st, e), r2);
      }
    }
  }

  /** The scope of a variable whose value is in $a0. */
  lemma {:induction false} SimScope(k: Ctx, fuel: nat, cls: ClassName, self: Value, scope: Scope, tmp: int, env: Env, st: Store, inj: Inj, s: State, x: Name, v: Value, e: Expr, l: int) returns (r: Run)
    requires OK(k) && Hierarchy(k.P) && x != SELF
    requires Rel(k.P, cls, self, scope, tmp, env, st, inj, s) && ValRel(k.P, inj, s.heap, v, s.acc)
    requires var g := Compile(k.P, cls, scope[x := Local(tmp)], tmp - 1, e, l);
      CodeAt(k.img.text, s.pc, PUSH) && CodeAt(k.img.text, s.pc + 2, g.code) && CodeAt(k.img.text, s.pc + 2 + |g.code|, POP)
    ensures Good(k, fuel, cls, self, scope, tmp, inj, st, s, 3 + |Compile(k.P, cls, scope[x := Local(tmp)], tmp - 1, e, l).code|,
                 LeaveScope(env, x, Eval(k.P, fuel, cls, self, env[x := v], st, e)), r)
    decreases fuel, 1, e, 3
  {
    hide *;
    var s2 := ScopeEnter(k, cls, self, scope, tmp, env, st, inj, s, x, v);
    var r1 := SimExpr(k, fuel, cls, self, scope[x := Local(tmp)], tmp - 1, env[x := v], st, inj, s2, e, l);
    r := ScopeDone(k, fuel, cls, self, scope, tmp, env, st, inj, s, x, s2, |Compile(k.P, cls, scope[x := Local(tmp)], tmp - 1, e, l).code|,
                   Eval(k.P, fuel, cls, self, env[x := v], st, e), r1);
  }

  lemma {:induction false} SimLet(k: Ctx, fuel: nat, cls: ClassName, self: Value, scope: Scope, tmp: int, env: Env, st: Store, inj: Inj, s: State, e: Expr, l: int) returns (r: Run)
    requires OK(k) && Hierarchy(k.P) && e.Let?
    requires Rel(k.P, cls, self, scope, tmp, env, st, inj, s) && CodeAt(k.img.text, s.pc, Compile(k.P, cls, scope, tmp, e, l).code)
    ensures Good(k, fuel, cls, self, scope, tmp, inj, st, s, |Compile(k.P, cls, scope, tmp, e, l).code|, Eval(k.P, fuel, cls, self, env, st, e), r)
    decreases fuel, 1, e, 1
  {
    hide *;
    CompileLet(k.P, cls, scope, tmp, e, l);
    EvalLet(k.P, fuel, cls, self, env, st, e);
    var g0 := Compile(k.P, cls, scope, tmp, e.init, l);
    var g1 := Compile(k.P, cls, scope[e.x := Local(tmp)], tmp - 1, e.body, g0.next);
    SplitOperands(k.img.text, s.pc, g0.code, g1.code, POP);
    var len := |Compile(k.P, cls, scope, tmp, e, l).code|;
    r := SimExpr(k, fuel, cls, self, scope, tmp, env, st, inj, s, e.init, l);
    var o := Eval(k.P, fuel, cls, self, env, st, e.init);
    if !o.Val? {
      Stops(k, fuel, cls, self, scope, tmp, inj, st, s, |g0.code|, len, o, r);
    } else if e.x == SELF {
      WrongGood(k, fuel, cls, self, scope, tmp, inj, st, s, len, r);
    } else {
      GoodVal(k, fuel, cls, self, scope, tmp, inj, st, s, |g0.code|, o, r);
      var r1 := SimScope(k, fuel, cls, self, scope, tmp, o.env, o.st, r.inj, r.t, e.x, o.v, e.body, g0.next);
      r := PartThen(k, fuel, cls, self, scope, tmp, inj, st, s, |g0.code|, o, r, 3 + |g1.code|, LeaveScope(o.env, e.x, Eval(k.P, fuel, cls, self, o.env[e.x := o.v], o.st, e.body)), r1);
    }
  }

  // ---------------------------------------------------------------------------------------------
  // case

  lemma {:induction false} SimTypCase(k: Ctx, fuel: nat, cls: ClassName, self: Value, scope: Scope, tmp: int, env: Env, st: Store, inj: Inj, s: State, e: Expr, l: int) returns (r: Run)
    requires OK(k) && Hierarchy(k.P) && e.TypCase?
    requires Rel(k.P, cls, self, scope, tmp, env, st, inj, s) && CodeAt(k.img.text, s.pc, Compile(k.P, cls, scope, tmp, e, l).code)
    ensures Good(k, fuel, cls, self, scope, tmp, inj, st, s, |Compile(k.P, cls, scope, tmp, e, l).code|, Eval(k.P, fuel, cls, self, env, st, e), r)
    decreases fuel, 1, e, 1
  {
    hide *;
    CompileTypCase(k.P, cls, scope, tmp, e, l);
    EvalTypCase(k.P, fuel, cls, self, env, st, e);
    var g0 := Compile(k.P, cls, scope, tmp, e.e, l + 1);
    var order := TestOrder(k.P, e.cases);
    OrderIs(k.P, e.cases);
    var g1 := CompileCases(k.P, cls, scope, tmp, e.cases, order, l, g0.next, g0.next + 1);
    var len := |Compile(k.P, cls, scope, tmp, e, l).code|;
    CasesEnds(k.P, cls, scope, tmp, e.cases, order, l, g0.next, g0.next + 1);
    SplitCase(k.img.text, s.pc, g0.code, g0.next, g1.code);
    r := SimExpr(k, fuel, cls, self, scope, tmp, env, st, inj, s, e.e, l + 1);
    var o := Eval(k.P, fuel, cls, self, env, st, e.e);
    CaseCases(k.P, fuel, cls, self, e.cases, o);
    if !o.Val? {
      Stops(k, fuel, cls, self, scope, tmp, inj, st, s, |g0.code|, len, o, r);
    } else if o.v == VVoid {
      r := CaseVoidCheck(k, fuel, cls, self, scope, tmp, inj, st, s, |g0.code|, o, r, g0.next, g1.code, len);
    } else if ClassOf(o.st, o.v) !in k.P.classes || !GoodBranches(k.P, CaseTypes(e.cases)) {
      WrongGood(k, fuel, cls, self, scope, tmp, inj, st, s, len, r);
    } else {
      var q := CaseNotVoid(k, fuel, cls, self, scope, tmp, inj, st, s, |g0.code|, o, r, g0.next, s.pc + |g0.code| + 4);
      OperandTag(k, cls, self, scope, tmp, o.env, o.st, q.inj, q.t, o.v);
      NoneYet(k.P, ClassOf(o.st, o.v), e.cases);
      var r1 := SimCases(k, fuel, cls, self, scope, tmp, o.env, o.st, q.inj, q.t, o.v, e.cases, 0, l, g0.next, g0.next + 1);
      r := GoodThen(k, fuel, cls, self, scope, tmp, inj, st, s, o.env, o.st, q, |g1.code|, len, Selected(k.P, fuel, cls, self, o.env, o.st, o.v, e.cases), r1);
    }
  }

  /** The chain of tests from test `p` on, when all tests before it have failed. */
  lemma {:induction false} SimCases(k: Ctx, fuel: nat, cls: ClassName, self: Value, scope: Scope, tmp: int, env: Env, st: Store, inj: Inj, s: State, v0: Value, cases: seq<Branch>, p: nat, esac: int, cur: int, l: int) returns (r: Run)
    requires OK(k) && Hierarchy(k.P) && p <= |TestOrder(k.P, cases)|
    requires Rel(k.P, cls, self, scope, tmp, env, st, inj, s) && ValRel(k.P, inj, s.heap, v0, s.acc)
    requires v0 != VVoid && ClassOf(st, v0) in k.P.classes && ClassOf(st, v0) in k.P.tag && GoodBranches(k.P, CaseTypes(cases))
    requires NoneBefore(k.P, ClassOf(st, v0), cases, p)
    requires CodeAt(k.img.text, s.pc, CompileCases(k.P, cls, scope, tmp, cases, TestOrder(k.P, cases)[p..], esac, cur, l).code)
    ensures Good(k, fuel, cls, self, scope, tmp, inj, st, s, |CompileCases(k.P, cls, scope, tmp, cases, TestOrder(k.P, cases)[p..], esac, cur, l).code|, Selected(k.P, fuel, cls, self, env, st, v0, cases), r)
    decreases fuel, 1, cases, |TestOrder(k.P, cases)| - p
  {
    hide *;
    Sound(k);
    var c, order := ClassOf(st, v0), TestOrder(k.P, cases)[p..];
    if p == |TestOrder(k.P, cases)| {
      CompileCasesNone(k.P, cls, scope, tmp, cases, esac, cur, l);
      SelectedNone(k.P, fuel, cls, self, env, st, v0, cases);
      r := NoMatch(k, fuel, cls, self, scope, tmp, env, st, inj, s, cur, esac, |CompileCases(k.P, cls, scope, tmp, cases, order, esac, cur, l).code|);
    } else {
      CompileCasesMore(k.P, cls, scope, tmp, cases, order, esac, cur, l);
      var br := cases[order[0]];
      assert order[1..] == TestOrder(k.P, cases)[p + 1..];
      var g0 := Compile(k.P, cls, scope[br.x := Local(tmp)], tmp - 1, br.body, l + 1);
      var g1 := CompileCases(k.P, cls, scope, tmp, cases, order[1..], esac, l, g0.next);
      var len := |CompileCases(k.P, cls, scope, tmp, cases, order, esac, cur, l).code|;
      CasesEnds(k.P, cls, scope, tmp, cases, order[1..], esac, l, g0.next);
      SplitBranch(k.img.text, s.pc, IntervalOf(k.P, br.c), cur, l, g0.code, esac, g1.code);
      OperandTag(k, cls, self, scope, tmp, env, st, inj, s, v0);
      Unique(k);
      var n, t := TestRunBranch(k, s, IntervalOf(k.P, br.c), cur, l, k.P.tag[c], s.pc + 8 + |g0.code|);
      QuietVal(k, cls, self, scope, tmp, env, st, inj, s, v0, t);
      if Covers(IntervalOf(k.P, br.c), k.P.tag[c]) {
        SelectedFirst(k.P, fuel, cls, self, env, st, v0, cases, p);
        r := Run(0, s, inj);
        if br.x == SELF {
          WrongGood(k, fuel, cls, self, scope, tmp, inj, st, s, len, r);
        } else {
          var r1 := SimScope(k, fuel, cls, self, scope, tmp, env, st, inj, t, br.x, v0, br.body, l + 1);
          r := BranchDone(k, fuel, cls, self, scope, tmp, env, st, inj, s, n, t, 3 + |g0.code|, LeaveScope(env, br.x, Eval(k.P, fuel, cls, self, env[br.x := v0], st, br.body)), r1,
                          esac, s.pc + 8 + |g0.code| + |g1.code| - 1, len);
        }
      } else {
        MoreFail(k.P, c, cases, p);
        var r1 := SimCases(k, fuel, cls, self, scope, tmp, env, st, inj, t, v0, cases, p + 1, esac, l, g0.next);
        r := RestDone(k, fuel, cls, self, scope, tmp, env, st, inj, s, n, t, |g1.code|, Selected(k.P, fuel, cls, self, env, st, v0, cases), r1, len);
      }
    }
  }

  // ---------------------------------------------------------------------------------------------
  // Dispatch.

  /** The arguments, each pushed. */
  lemma {:induction false} SimArgs(k: Ctx, fuel: nat, cls: ClassName, self: Value, scope: Scope, tmp: int, env: Env, st: Store, inj: Inj, s: State, es: seq<Expr>, l: int) returns (r: Run)
    requires OK(k) && Hierarchy(k.P)
    requires Rel(k.P, cls, self, scope, tmp, env, st, inj, s) && CodeAt(k.img.text, s.pc, CompileArgs(k.P, cls, scope, tmp, es, l).code)
    ensures ArgsGood(k, fuel, cls, self, scope, tmp, inj, st, s, |CompileArgs(k.P, cls, scope, tmp, es, l).code|, EvalArgs(k.P, fuel, cls, self, env, st, es), r)
    decreases fuel, 1, es, 0
  {
    hide *;
    if es == [] {
      CompileArgsNone(k.P, cls, scope, tmp, es, l);
      EvalArgsNone(k.P, fuel, cls, self, env, st, es);
      r := ArgsNone(k, fuel, cls, self, scope, tmp, env, st, inj, s);
    } else {
      CompileArgsMore(k.P, cls, scope, tmp, es, l);
      EvalArgsMore(k.P, fuel, cls, self, env, st, es);
      var g0 := Compile(k.P, cls, scope, tmp, es[0], l);
      var g1 := CompileArgs(k.P, cls, scope, tmp - 1, es[1..], g0.next);
      var len := |CompileArgs(k.P, cls, scope, tmp, es, l).code|;
      SplitPush(k.img.text, s.pc, g0.code, g1.code);
      r := SimExpr(k, fuel, cls, self, scope, tmp, env, st, inj, s, es[0], l);
      var o := Eval(k.P, fuel, cls, self, env, st, es[0]);
      if !o.Val? {
        ArgsStopped(k, fuel, cls, self, scope, tmp, inj, st, s, |g0.code|, o, r, len);
      } else {
        GoodVal(k, fuel, cls, self, scope, tmp, inj, st, s, |g0.code|, o, r);
        var s2 := PushOperand(k, cls, self, scope, tmp, inj, st, s, o, r);
        Pushes(r.t, s2);
        var r1 := SimArgs(k, fuel, cls, self, scope, tmp - 1, o.env, o.st, r.inj, s2, es[1..], g0.next);
        r := ArgsDone(k, fuel, cls, self, scope, tmp, inj, st, s, |g0.code|, o, r, s2, |g1.code|, EvalArgs(k.P, fuel, cls, self, o.env, o.st, es[1..]), r1);
      }
    }
  }

  lemma {:induction false} SimDispatchExpr(k: Ctx, fuel: nat, cls: ClassName, self: Value, scope: Scope, tmp: int, env: Env, st: Store, inj: Inj, s: State, e: Expr, l: int) returns (r: Run)
    requires OK(k) && Hierarchy(k.P) && e.Dispatch?
    requires Rel(k.P, cls, self, scope, tmp, env, st, inj, s) && CodeAt(k.img.text, s.pc, Compile(k.P, cls, scope, tmp, e, l).code)
    ensures Good(k, fuel, cls, self, scope, tmp, inj, st, s, |Compile(k.P, cls, scope, tmp, e, l).code|, Eval(k.P, fuel, cls, self, env, st, e), r)
    decreases fuel, 1, e, 1
  {
    hide *;
    CompileDispatch(k.P, cls, scope, tmp, e, l);
    EvalDispatch(k.P, fuel, cls, self, env, st, e);
    var g0 := CompileArgs(k.P, cls, scope, tmp, e.args, l);
    var g1 := Compile(k.P, cls, scope, tmp - |e.args|, e.e, g0.next);
    var len := |g0.code| + |g1.code|;
    SplitCall(k.img.text, s.pc, g0.code, g1.code, DispatchTail(k.P, StaticClass(e.sty, cls), e.m, g1.next));
    TailSizes(k.P, OpSub, Lt, g1.next, 0, StaticClass(e.sty, cls), e.m);
    ArgsCount(k.P, fuel, cls, self, env, st, e.args);
    var a := EvalArgs(k.P, fuel, cls, self, env, st, e.args);
    r := SimArgs(k, fuel, cls, self, scope, tmp, env, st, inj, s, e.args, l);
    if a.Stopped? {
      ArgsStop(k, fuel, cls, self, scope, tmp, inj, st, s, |g0.code|, a.o, r, len + 8);
    } else {
      ArgsVal(k, fuel, cls, self, scope, tmp, inj, st, s, |g0.code|, a, r);
      var r1 := SimExpr(k, fuel, cls, self, scope, tmp - |e.args|, a.env, a.st, r.inj, r.t, e.e, g0.next);
      var o := Eval(k.P, fuel, cls, self, a.env, a.st, e.e);
      if o.Val? {
        var n := ReceiverFinish(k, fuel, cls, self, scope, tmp, env, st, inj, s, |g0.code|, a, r, |g1.code|, o, r1);
        r := SimInvoke(k, fuel, cls, self, scope, tmp, inj, st, s, len, a.vs, o, n, r1, StaticClass(e.sty, cls), e.m, g1.next);
      } else {
        DispatchCases(k.P, fuel, StaticClass(e.sty, cls), e.m, a.vs, o);
        r := CallStops(k, fuel, cls, self, scope, tmp, tmp - |e.args|, inj, st, s, r, a.st, |g1.code|, o, r1, len + 8);
      }
    }
  }

  lemma {:induction false} SimStaticDispatch(k: Ctx, fuel: nat, cls: ClassName, self: Value, scope: Scope, tmp: int, env: Env, st: Store, inj: Inj, s: State, e: Expr, l: int) returns (r: Run)
    requires OK(k) && Hierarchy(k.P) && e.StaticDispatch?
    requires Rel(k.P, cls, self, scope, tmp, env, st, inj, s) && CodeAt(k.img.text, s.pc, Compile(k.P, cls, scope, tmp, e, l).code)
    ensures Good(k, fuel, cls, self, scope, tmp, inj, st, s, |Compile(k.P, cls, scope, tmp, e, l).code|, Eval(k.P, fuel, cls, self, env, st, e), r)
    decreases fuel, 1, e, 1
  {
    hide *;
    CompileStaticDispatch(k.P, cls, scope, tmp, e, l);
    EvalStaticDispatch(k.P, fuel, cls, self, env, st, e);
    var g0 := CompileArgs(k.P, cls, scope, tmp, e.args, l);
    var g1 := Compile(k.P, cls, scope, tmp - |e.args|, e.e, g0.next);
    var len := |g0.code| + |g1.code|;
    SplitCall(k.img.text, s.pc, g0.code, g1.code, StaticDispatchTail(k.P, e.c, e.m, g1.next));
    TailSizes(k.P, OpSub, Lt, g1.next, 0, e.c, e.m);
    ArgsCount(k.P, fuel, cls, self, env, st, e.args);
    var a := EvalArgs(k.P, fuel, cls, self, env, st, e.args);
    r := SimArgs(k, fuel, cls, self, scope, tmp, env, st, inj, s, e.args, l);
    if a.Stopped? {
      ArgsStop(k, fuel, cls, self, scope, tmp, inj, st, s, |g0.code|, a.o, r, len + 6);
    } else {
      ArgsVal(k, fuel, cls, self, scope, tmp, inj, st, s, |g0.code|, a, r);
      var r1 := SimExpr(k, fuel, cls, self, scope, tmp - |e.args|, a.env, a.st, r.inj, r.t, e.e, g0.next);
      var o := Eval(k.P, fuel, cls, self, a.env, a.st, e.e);
      if o.Val? {
        var n := ReceiverFinish(k, fuel, cls, self, scope, tmp, env, st, inj, s, |g0.code|, a, r, |g1.code|, o, r1);
        r := SimInvokeStatic(k, fuel, cls, self, scope, tmp, inj, st, s, len, a.vs, o, n, r1, e.c, e.m, g1.next);
      } else {
        StaticCases(k.P, fuel, e.c, e.m, a.vs, o);
        r := CallStops(k, fuel, cls, self, scope, tmp, tmp - |e.args|, inj, st, s, r, a.st, |g1.code|, o, r1, len + 6);
      }
    }
  }

  /** dispatch_class::code behind the receiver. */
  lemma {:induction false} SimInvoke(k: Ctx, fuel: nat, cls: ClassName, self: Value, scope: Scope, tmp: int, inj: Inj, st: Store, s: State, len: nat, vs: seq<Value>, o: Outcome, n: nat, r1: Run, sc: ClassName, m: Name, l: int) returns (r: Run)
    requires OK(k) && Hierarchy(k.P) && o.Val? && ReceiverDone(k, cls, self, scope, tmp, inj, st, s, len, vs, o, n, r1)
    requires CodeAt(k.img.text, s.pc + len, DispatchTail(k.P, sc, m, l))
    ensures Good(k, fuel, cls, self, scope, tmp, inj, st, s, len + 8, DispatchOutcome(k.P, fuel, sc, m, vs, o), r)
    decreases fuel, 0
  {
    hide *;
    DispatchCases(k.P, fuel, sc, m, vs, o);
    r := r1;
    if o.v == VVoid {
      r := SimInvokeVoid(k, fuel, cls, self, scope, tmp, inj, st, s, len, vs, o, n, r1, sc, m, l);
    } else if fuel == 0 {
      r := TimeoutGood(k, cls, self, scope, tmp, inj, st, s, len + 8);
    } else if !Callable(k.P, sc, ClassOf(o.st, o.v), m) {
      WrongGood(k, fuel, cls, self, scope, tmp, inj, st, s, len + 8, r);
    } else {
      CallableFacts(k.P, sc, ClassOf(o.st, o.v), m);
      var c := DynamicReady(k, cls, self, scope, tmp, inj, st, s, len, vs, o, n, r1, sc, m, l);
      var rc := SimCall(k, fuel - 1, r1.inj, o.st, c, ClassOf(o.st, o.v), o.v, m, vs);
      r := CallDone(k, fuel, cls, self, scope, tmp, inj, st, s, len, vs, o, n, r1, n + 5, c, Call(k.P, fuel - 1, ClassOf(o.st, o.v), o.v, m, vs, o.st), rc, len + 8);
    }
  }

  /** static_dispatch_class::code behind the receiver. */
  lemma {:induction false} SimInvokeStatic(k: Ctx, fuel: nat, cls: ClassName, self: Value, scope: Scope, tmp: int, inj: Inj, st: Store, s: State, len: nat, vs: seq<Value>, o: Outcome, n: nat, r1: Run, sc: ClassName, m: Name, l: int) returns (r: Run)
    requires OK(k) && Hierarchy(k.P) && o.Val? && ReceiverDone(k, cls, self, scope, tmp, inj, st, s, len, vs, o, n, r1)
    requires CodeAt(k.img.text, s.pc + len, StaticDispatchTail(k.P, sc, m, l))
    ensures Good(k, fuel, cls, self, scope, tmp, inj, st, s, len + 6, StaticOutcome(k.P, fuel, sc, m, vs, o), r)
    decreases fuel, 0
  {
    hide *;
    StaticCases(k.P, fuel, sc, m, vs, o);
    r := r1;
    if o.v == VVoid {
      r := SimInvokeStaticVoid(k, fuel, cls, self, scope, tmp, inj, st, s, len, vs, o, n, r1, sc, m, l);
    } else if fuel == 0 {
      r := TimeoutGood(k, cls, self, scope, tmp, inj, st, s, len + 6);
    } else if !StaticCallable(k.P, sc, ClassOf(o.st, o.v), m) {
      WrongGood(k, fuel, cls, self, scope, tmp, inj, st, s, len + 6, r);
    } else {
      StaticCallableFacts(k.P, sc, ClassOf(o.st, o.v), m);
      var c := StaticReady(k, cls, self, scope, tmp, inj, st, s, len, vs, o, n, r1, sc, m, l);
      var rc := SimCall(k, fuel - 1, r1.inj, o.st, c, sc, o.v, m, vs);
      r := CallDone(k, fuel, cls, self, scope, tmp, inj, st, s, len, vs, o, n, r1, n + 3, c, Call(k.P, fuel - 1, sc, o.v, m, vs, o.st), rc, len + 6);
    }
  }

  /** A call of the definition of `m` that is nearest to `cc`. */
  lemma {:induction false} SimCall(k: Ctx, fuel: nat, inj: Inj, st: Store, s: State, cc: ClassName, v0: Value, m: Name, vs: seq<Value>) returns (r: Run)
    requires OK(k) && Hierarchy(k.P) && cc in k.P.classes && HasClass(k.P, cc) && Nearest(k.P, cc, m) != NoClass
    requires HasClass(k.P, ClassOf(st, v0)) && Inherits(k.P, ClassOf(st, v0), cc)
    requires AtCallee(k, inj, st, s, v0, vs, MethodLabel(Nearest(k.P, cc, m), m))
    ensures CallGood(k, fuel, inj, st, s, |vs|, Call(k.P, fuel, cc, v0, m, vs, st), r)
    decreases fuel, 4
  {
    hide *;
    CallCases(k.P, fuel, cc, v0, m, vs, st);
    var d := Nearest(k.P, cc, m);
    var mt := Decl(k.P.classes[d], m);
    FormalsFact(k, d, m);
    if mt.body.Native? {
      r := NativeCall(k, fuel, inj, st, s, d, mt, v0, vs);
    } else if |mt.formals| != |vs| || !v0.VObj? {
      r := Run(0, s, inj);
      CallWrong(k, fuel, inj, st, s, |vs|, r);
    } else {
      var l := MethodText(k, d, mt);
      var g := Compile(k.P, d, MethodScope(k.P, d, mt.formals), -3, mt.body.e, l);
      CalleePc(k, inj, st, s, v0, vs, MethodLabel(d, m), cc, d);
      MethodEnter(k, inj, st, s, d, mt.formals, v0, vs, MethodLabel(d, m));
      var r1 := SimExpr(k, fuel, d, v0, MethodScope(k.P, d, mt.formals), -3, Bind(mt.formals, vs), st, inj, EnterState(s), mt.body.e, l);
      r := MethodLeave(k, fuel, inj, st, s, d, mt.formals, v0, |g.code|, Eval(k.P, fuel, d, v0, Bind(mt.formals, vs), st, mt.body.e), r1);
    }
  }

  // ---------------------------------------------------------------------------------------------
  // new

  lemma {:induction false} SimNew(k: Ctx, fuel: nat, cls: ClassName, self: Value, scope: Scope, tmp: int, env: Env, st: Store, inj: Inj, s: State, e: Expr, l: int) returns (r: Run)
    requires OK(k) && Hierarchy(k.P) && e.New?
    requires Rel(k.P, cls, self, scope, tmp, env, st, inj, s) && CodeAt(k.img.text, s.pc, Compile(k.P, cls, scope, tmp, e, l).code)
    ensures Good(k, fuel, cls, self, scope, tmp, inj, st, s, |Compile(k.P, cls, scope, tmp, e, l).code|, Eval(k.P, fuel, cls, self, env, st, e), r)
    decreases fuel, 1, e, 1
  {
    hide *;
    CompileNew(k.P, cls, scope, tmp, e, l);
    EvalNew(k.P, fuel, cls, self, env, st, e);
    NewSize(k.P, e.c);
    r := Run(0, s, inj);
    if fuel == 0 {
      r := TimeoutGood(k, cls, self, scope, tmp, inj, st, s, 3);
    } else {
      CreateCases(k.P, fuel - 1, e.c, st);
      if IsBasic(e.c) {
        ReturnBasic(env, e.c, st);
        r := BasicNew(k, fuel, cls, self, scope, tmp, env, st, inj, s, e.c);
      } else if e.c !in k.P.classes {
        ReturnWrong(env);
        WrongGood(k, fuel, cls, self, scope, tmp, inj, st, s, 3, r);
      } else {
        var st1, inj1, t, m, c0 := NewEnter(k, cls, self, scope, tmp, env, st, inj, s, e.c);
        r := SimCreate(k, fuel, cls, self, scope, tmp, env, st, inj, s, e.c, st1, inj1, t, m, c0, 3);
      }
    }
  }

  lemma {:induction false} SimNewSelf(k: Ctx, fuel: nat, cls: ClassName, self: Value, scope: Scope, tmp: int, env: Env, st: Store, inj: Inj, s: State, e: Expr, l: int) returns (r: Run)
    requires OK(k) && Hierarchy(k.P) && e.NewSelf?
    requires Rel(k.P, cls, self, scope, tmp, env, st, inj, s) && CodeAt(k.img.text, s.pc, Compile(k.P, cls, scope, tmp, e, l).code)
    ensures Good(k, fuel, cls, self, scope, tmp, inj, st, s, |Compile(k.P, cls, scope, tmp, e, l).code|, Eval(k.P, fuel, cls, self, env, st, e), r)
    decreases fuel, 1, e, 1
  {
    hide *;
    CompileNewSelf(k.P, cls, scope, tmp, e, l);
    EvalNewSelf(k.P, fuel, cls, self, env, st, e);
    NewSelfSize();
    Sound(k);
    var _ := SelfTag(k.P, cls, self, scope, tmp, env, st, inj, s);
    r := Run(0, s, inj);
    if fuel == 0 {
      r := TimeoutGood(k, cls, self, scope, tmp, inj, st, s, 12);
    } else {
      CreateCases(k.P, fuel - 1, ClassOf(st, self), st);
      var st1, inj1, t, m, c0 := NewSelfEnter(k, cls, self, scope, tmp, env, st, inj, s);
      r := SimCreate(k, fuel, cls, self, scope, tmp, env, st, inj, s, ClassOf(st, self), st1, inj1, t, m, c0, 12);
    }
  }

  /** The initialisation of a new object. */
  lemma {:induction false} SimCreate(k: Ctx, fuel: nat, cls: ClassName, self: Value, scope: Scope, tmp: int, env: Env, st: Store, inj: Inj, s: State, c: ClassName, st1: Store, inj1: Inj, t: State, m: nat, c0: State, len: nat) returns (r: Run)
    requires OK(k) && Hierarchy(k.P) && fuel > 0 && c in k.P.classes && !IsBasic(c)
    requires NewReady(k, cls, self, scope, tmp, env, inj, st, s, c, st1, inj1, t, m, c0, len)
    ensures Good(k, fuel, cls, self, scope, tmp, inj, st, s, len, Return(env, Create(k.P, fuel - 1, c, st)), r)
    decreases fuel, 0
  {
    hide *;
    CreateCases(k.P, fuel - 1, c, st);
    NewFacts(k, cls, self, scope, tmp, env, inj, st, s, c, st1, inj1, t, m, c0, len);
    var rc := SimInit(k, fuel - 1, inj1, st1, c0, c, VObj(|st.objs|));
    r := NewDone(k, fuel, cls, self, scope, tmp, env, inj, st, s, c, st1, inj1, t, m, c0, len,
                 Init(k.P, fuel - 1, c, VObj(|st.objs|), st1), rc);
  }

  /** The initialiser of `c` called on `self`. */
  lemma {:induction false} SimInit(k: Ctx, fuel: nat, inj: Inj, st: Store, s: State, c: ClassName, self: Value) returns (r: Run)
    requires OK(k) && Hierarchy(k.P) && c in k.P.classes && AtInit(k, inj, st, s, c, self)
    ensures CallGood(k, fuel, inj, st, s, 0, Init(k.P, fuel, c, self, st), r)
    decreases fuel, 3
  {
    hide *;
    InitCases(k.P, fuel, c, self, st);
    OKHierarchy(k);
    ParentCall(k.P, c);
    var up := k.P.classes[c].parent;
    var l := InitText(k, c);
    InitPc(k, inj, st, s, c, self);
    InitPieces(k, c, l);
    InitEnter(k, inj, st, s, c, self);
    var s1 := EnterState(s);
    SelfIsAcc(s);
    if up == NoClass {
      RunsNone(k.img, s1);
      QuietStay(s1);
      var q := StartQuiet(k, c, self, InitScope(k.P, c), -3, map[], st, inj, s1, 0, s1);
      r := SimInits(k, fuel, inj, st, s, c, self, st, q, l);
    } else if fuel == 0 {
      r := InitTimeout(k, inj, st, s);
    } else {
      var c0 := ParentJump(k, inj, st, s1, c, up, self);
      var rc := SimInit(k, fuel - 1, inj, st, c0, up, self);
      var o := Init(k.P, fuel - 1, up, self, st);
      if o.Val? {
        var q := ParentReturn(k, fuel - 1, inj, st, s1, c, self, c0, o, rc);
        r := SimInits(k, fuel, inj, st, s, c, self, o.st, q, l);
      } else {
        r := InitStops(k, fuel, s, s1, c0, inj, st, o, rc);
      }
    }
  }

  /** The attributes that the class itself declares, once those of its ancestors are initialised. */
  lemma {:induction false} SimInits(k: Ctx, fuel: nat, inj: Inj, st: Store, s: State, c: ClassName, self: Value, st1: Store, q: Run, l: int) returns (r: Run)
    requires OK(k) && Hierarchy(k.P) && c in k.P.classes && s.sp.Stk? && s.ra.Ret? && Runs(k.img, 7, s, EnterState(s))
    requires Runs(k.img, q.n, EnterState(s), q.t) && Rel(k.P, c, self, InitScope(k.P, c), -3, map[], st1, q.inj, q.t)
    requires Mid(k.P, c, self, InitScope(k.P, c), -3, inj, st, EnterState(s), map[], st1, q.inj, q.t)
    requires var g := CompileSeq(k.P, c, InitScope(k.P, c), -3, InitExprs(k.P.classes[c].attrs), l);
      && CodeAt(k.img.text, q.t.pc, g.code)
      && CodeAt(k.img.text, q.t.pc + |g.code|, [Move(ACC, SELFR)]) && CodeAt(k.img.text, q.t.pc + |g.code| + 1, Exit(0))
    ensures CallGood(k, fuel, inj, st, s, 0, InitDone(self, EvalSeq(k.P, fuel, c, self, map[], st1, InitExprs(k.P.classes[c].attrs))), r)
    decreases fuel, 2
  {
    hide *;
    var es := InitExprs(k.P.classes[c].attrs);
    var o := EvalSeq(k.P, fuel, c, self, map[], st1, es);
    var scope := InitScope(k.P, c);
    InitDoneIs(self, o);
    if es == [] {
      NoInits(k.P, fuel, c, self, st1, scope, l);
      r := InitLeave(k, fuel, inj, st, s, c, self, map[], st1, q);
    } else {
      var len := |CompileSeq(k.P, c, scope, -3, es, l).code|;
      var r1 := SimSeq(k, fuel, c, self, scope, -3, map[], st1, q.inj, q.t, es, l);
      if o.Val? {
        GoodVal(k, fuel, c, self, scope, -3, q.inj, st1, q.t, len, o, r1);
        var q1 := PartTrans(k, c, self, scope, -3, inj, st, EnterState(s), map[], st1, q, o.env, o.st, r1);
        r := InitLeave(k, fuel, inj, st, s, c, self, o.env, o.st, q1);
      } else {
        r := InitSeqStops(k, fuel, inj, st, s, EnterState(s), q, c, self, scope, st1, len, o, r1);
      }
    }
  }
}
