/** Labels: every numbered label that the generator draws is defined at most once. */
module Labels {
  import opened CoolNames
  import opened Inheritance
  import opened CoolSyntax
  import opened Layout
  import opened ClassTags
  import opened CoolSemantics
  import opened Mips
  import opened CodeGen
  import opened CodeGenEquations
  import opened SimSelect

  /** 1 when `lb` is one of the numbered labels from `lo` up to `hi`. */
  function Own(lb: Label, lo: int, hi: int): nat {
    if lb.Num? && lo <= lb.n < hi then 1 else 0
  }

  function Is(lb: Label, n: int): nat {
    if lb == Num(n) then 1 else 0
  }

  /** Code in which `lb` is defined at most `k` times, and that leaves `next` as the next free label. */
  ghost predicate Draws(g: Gen, l: int, lb: Label) {
    l <= g.next && Count(g.code, lb) <= Own(lb, l, g.next)
  }

  /** Instructions that define no label. */
  ghost predicate NoLabels(code: seq<Instr>) {
    forall i :: 0 <= i < |code| ==> !code[i].LabelDef?
  }

  lemma {:induction false} CountNone(code: seq<Instr>, lb: Label)
    requires NoLabels(code)
    ensures Count(code, lb) == 0
    decreases |code|
  {
    if code != [] {
      assert code[0] != LabelDef(lb);
      CountNone(code[1..], lb);
    }
  }

  lemma CountOne(n: int, lb: Label)
    ensures Count([LabelDef(Num(n))], lb) == Is(lb, n)
  {
    assert [LabelDef(Num(n))][1..] == [];
  }

  /** A label definition between two stretches without labels. */
  lemma CountMiddle(a: seq<Instr>, n: int, b: seq<Instr>, lb: Label)
    requires NoLabels(a) && NoLabels(b)
    ensures Count(a + ([LabelDef(Num(n))] + b), lb) == Is(lb, n)
  {
    CountConcat(a, [LabelDef(Num(n))] + b, lb);
    CountConcat([LabelDef(Num(n))], b, lb);
    CountNone(a, lb);
    CountNone(b, lb);
    CountOne(n, lb);
  }

  lemma CountThree(a: seq<Instr>, b: seq<Instr>, c: seq<Instr>, lb: Label)
    ensures Count(a + (b + c), lb) == Count(a, lb) + Count(b, lb) + Count(c, lb)
  {
    CountConcat(a, b + c, lb);
    CountConcat(b, c, lb);
  }

  // ---------------------------------------------------------------------------------------------
  // The fixed pieces.

  lemma PushPop(lb: Label)
    ensures Count(PUSH, lb) == 0 && Count(POP, lb) == 0
  {
    CountNone(PUSH, lb);
    CountNone(POP, lb);
  }

  lemma ArithLabels(P: Program, op: ArithOp, lb: Label)
    requires Hierarchy(P)
    ensures Count(ArithTail(P, op), lb) == 0 && Count(NegTail(P), lb) == 0
  {
    CountNone(ArithTail(P, op), lb);
    CountNone(NegTail(P), lb);
  }

  lemma CompareLabels(cmp: CmpOp, end: int, lb: Label)
    ensures Count(CompareTail(cmp, end), lb) == Is(lb, end)
  {
    var code := CompareTail(cmp, end);
    assert code == code[..6] + ([LabelDef(Num(end))] + code[7..]);
    CountMiddle(code[..6], end, code[7..], lb);
  }

  lemma CompLabels(no: int, end: int, lb: Label)
    ensures Count(CompTail(no, end), lb) == Is(lb, no) + Is(lb, end)
  {
    var code := CompTail(no, end);
    var b := code[5..];
    assert code == code[..4] + ([LabelDef(Num(no))] + b);
    assert b == b[..1] + ([LabelDef(Num(end))] + []);
    CountThree(code[..4], [LabelDef(Num(no))], b, lb);
    CountNone(code[..4], lb);
    CountOne(no, lb);
    CountMiddle(b[..1], end, [], lb);
  }

  lemma TestLabels(l: int, lb: Label)
    ensures Count(TestFalse(l), lb) == 0
  {
    CountNone(TestFalse(l), lb);
  }

  lemma VoidLabels(f: Fault, l: int, lb: Label)
    ensures Count(AbortOnVoid(f, l), lb) == 0
  {
    CountNone(AbortOnVoid(f, l), lb);
  }

  lemma DispatchLabels(P: Program, c: ClassName, m: Name, l: int, lb: Label)
    requires Hierarchy(P)
    ensures Count(DispatchTail(P, c, m, l), lb) == Is(lb, l) && Count(StaticDispatchTail(P, c, m, l), lb) == Is(lb, l)
  {
    var call := [Lw(T1, DISPTABLE_OFFSET, ACC), Lw(T1, MethodOffset(P, c, m), T1), Jalr(T1)];
    var jump := [Jal(MethodLabel(MethodClass(P, c, m), m))];
    assert DispatchTail(P, c, m, l) == AbortOnVoid(DispatchVoid, l) + ([LabelDef(Num(l))] + call);
    assert StaticDispatchTail(P, c, m, l) == AbortOnVoid(DispatchVoid, l) + ([LabelDef(Num(l))] + jump);
    CountMiddle(AbortOnVoid(DispatchVoid, l), l, call, lb);
    CountMiddle(AbortOnVoid(DispatchVoid, l), l, jump, lb);
  }

  lemma BranchLabels(iv: Interval, cur: int, next: int, lb: Label)
    ensures Count(BranchTest(iv, cur, next), lb) == Is(lb, cur)
  {
    var code := BranchTest(iv, cur, next);
    assert code == [] + ([LabelDef(Num(cur))] + code[1..]);
    CountMiddle([], cur, code[1..], lb);
  }

  lemma JumpLabels(l: int, lb: Label)
    ensures Count([B(Num(l))], lb) == 0
  {
    CountNone([B(Num(l))], lb);
  }

  lemma EndLabels(cur: int, esac: int, lb: Label)
    ensures Count([LabelDef(Num(cur)), AbortCall(CaseNoMatch), LabelDef(Num(esac))], lb) == Is(lb, cur) + Is(lb, esac)
  {
    var code := [LabelDef(Num(cur)), AbortCall(CaseNoMatch), LabelDef(Num(esac))];
    assert code == [LabelDef(Num(cur))] + ([AbortCall(CaseNoMatch)] + ([LabelDef(Num(esac))] + []));
    CountConcat([LabelDef(Num(cur))], [AbortCall(CaseNoMatch)] + ([LabelDef(Num(esac))] + []), lb);
    CountMiddle([AbortCall(CaseNoMatch)], esac, [], lb);
    CountOne(cur, lb);
  }

  lemma LeafLabels(P: Program, cls: ClassName, env: Scope, tmp: int, e: Expr, l: int, lb: Label)
    requires Hierarchy(P)
    requires e.IntConst? || e.BoolConst? || e.StrConst? || e.NoExpr? || e.Object? || e.New? || e.NewSelf?
    ensures Draws(Compile(P, cls, env, tmp, e, l), l, lb)
  {
    CountNone(Compile(P, cls, env, tmp, e, l).code, lb);
  }

  // ---------------------------------------------------------------------------------------------
  // Expressions.

  lemma {:induction false} ExprLabels(P: Program, cls: ClassName, env: Scope, tmp: int, e: Expr, l: int, lb: Label)
    requires Hierarchy(P)
    ensures Draws(Compile(P, cls, env, tmp, e, l), l, lb)
    decreases e, 2
  {
    hide *;
    match e
    case Assign(_, _) => UnaryLabels(P, cls, env, tmp, e, l, lb);
    case Neg(_) => UnaryLabels(P, cls, env, tmp, e, l, lb);
    case Comp(_) => UnaryLabels(P, cls, env, tmp, e, l, lb);
    case Block(es) =>
      CompileBlock(P, cls, env, tmp, e, l);
      SeqLabels(P, cls, env, tmp, es, l, lb);
    case Cond(_, _, _) => CondLabels(P, cls, env, tmp, e, l, lb);
    case Loop(_, _) => LoopLabels(P, cls, env, tmp, e, l, lb);
    case Let(_, _, _, _) => BinaryLabels(P, cls, env, tmp, e, l, lb);
    case Arith(_, _, _) => BinaryLabels(P, cls, env, tmp, e, l, lb);
    case Compare(_, _, _) => BinaryLabels(P, cls, env, tmp, e, l, lb);
    case Dispatch(_, _, _, _) => CallLabels(P, cls, env, tmp, e, l, lb);
    case StaticDispatch(_, _, _, _) => CallLabels(P, cls, env, tmp, e, l, lb);
    case TypCase(_, _) => CaseLabels(P, cls, env, tmp, e, l, lb);
    case _ => LeafLabels(P, cls, env, tmp, e, l, lb);
  }

  lemma {:induction false} UnaryLabels(P: Program, cls: ClassName, env: Scope, tmp: int, e: Expr, l: int, lb: Label)
    requires Hierarchy(P) && (e.Assign? || e.Neg? || e.Comp?)
    ensures Draws(Compile(P, cls, env, tmp, e, l), l, lb)
    decreases e, 1
  {
    hide Compile, Hierarchy, Count, StoreVar, NegTail, CompTail;
    var g := Compile(P, cls, env, tmp, e.e, l);
    ExprLabels(P, cls, env, tmp, e.e, l, lb);
    match e
    case Assign(x, _) =>
      CompileAssign(P, cls, env, tmp, e, l);
      CountConcat(g.code, [StoreVar(env, x)], lb);
      StoreLabels(env, x, lb);
    case Neg(_) =>
      CompileNeg(P, cls, env, tmp, e, l);
      CountConcat(g.code, NegTail(P), lb);
      ArithLabels(P, OpSub, lb);
    case Comp(_) =>
      CompileComp(P, cls, env, tmp, e, l);
      CountConcat(g.code, CompTail(g.next, g.next + 1), lb);
      CompLabels(g.next, g.next + 1, lb);
  }

  lemma StoreLabels(env: Scope, x: Name, lb: Label)
    ensures Count([StoreVar(env, x)], lb) == 0
  {
    CountNone([StoreVar(env, x)], lb);
  }

  lemma {:induction false} SeqLabels(P: Program, cls: ClassName, env: Scope, tmp: int, es: seq<Expr>, l: int, lb: Label)
    requires Hierarchy(P)
    ensures Draws(CompileSeq(P, cls, env, tmp, es, l), l, lb)
    decreases es, 0
  {
    hide Compile, CompileSeq, Hierarchy;
    if es == [] {
      CompileSeqNone(P, cls, env, tmp, es, l);
    } else {
      CompileSeqMore(P, cls, env, tmp, es, l);
      var g0 := Compile(P, cls, env, tmp, es[0], l);
      var g1 := CompileSeq(P, cls, env, tmp, es[1..], g0.next);
      ExprLabels(P, cls, env, tmp, es[0], l, lb);
      SeqLabels(P, cls, env, tmp, es[1..], g0.next, lb);
      CountConcat(g0.code, g1.code, lb);
    }
  }

  lemma {:induction false} ArgLabels(P: Program, cls: ClassName, env: Scope, tmp: int, es: seq<Expr>, l: int, lb: Label)
    requires Hierarchy(P)
    ensures Draws(CompileArgs(P, cls, env, tmp, es, l), l, lb)
    decreases es, 0
  {
    hide Compile, CompileArgs, Hierarchy;
    if es == [] {
      CompileArgsNone(P, cls, env, tmp, es, l);
    } else {
      CompileArgsMore(P, cls, env, tmp, es, l);
      var g0 := Compile(P, cls, env, tmp, es[0], l);
      var g1 := CompileArgs(P, cls, env, tmp - 1, es[1..], g0.next);
      ExprLabels(P, cls, env, tmp, es[0], l, lb);
      ArgLabels(P, cls, env, tmp - 1, es[1..], g0.next, lb);
      CountThree(g0.code, PUSH, g1.code, lb);
      PushPop(lb);
    }
  }

  /** Two parts with a push between them. */
  lemma CountPushed(c0: seq<Instr>, c1: seq<Instr>, tail: seq<Instr>, lb: Label)
    ensures Count(c0 + (PUSH + (c1 + tail)), lb) == Count(c0, lb) + Count(c1, lb) + Count(tail, lb)
  {
    CountThree(c0, PUSH, c1 + tail, lb);
    CountConcat(c1, tail, lb);
    PushPop(lb);
  }

  lemma {:induction false} BinaryLabels(P: Program, cls: ClassName, env: Scope, tmp: int, e: Expr, l: int, lb: Label)
    requires Hierarchy(P) && (e.Let? || e.Arith? || e.Compare?)
    ensures Draws(Compile(P, cls, env, tmp, e, l), l, lb)
    decreases e, 1
  {
    hide Compile, Hierarchy, Count, ArithTail, CompareTail;
    match e
    case Let(x, _, init, body) =>
      CompileLet(P, cls, env, tmp, e, l);
      var g0 := Compile(P, cls, env, tmp, init, l);
      var g1 := Compile(P, cls, env[x := Local(tmp)], tmp - 1, body, g0.next);
      ExprLabels(P, cls, env, tmp, init, l, lb);
      ExprLabels(P, cls, env[x := Local(tmp)], tmp - 1, body, g0.next, lb);
      CountPushed(g0.code, g1.code, POP, lb);
      PushPop(lb);
    case Arith(op, e1, e2) =>
      CompileArith(P, cls, env, tmp, e, l);
      var g0 := Compile(P, cls, env, tmp, e1, l);
      var g1 := Compile(P, cls, env, tmp - 1, e2, g0.next);
      ExprLabels(P, cls, env, tmp, e1, l, lb);
      ExprLabels(P, cls, env, tmp - 1, e2, g0.next, lb);
      CountPushed(g0.code, g1.code, ArithTail(P, op), lb);
      ArithLabels(P, op, lb);
    case Compare(cmp, e1, e2) =>
      CompileCompare(P, cls, env, tmp, e, l);
      var g0 := Compile(P, cls, env, tmp, e1, l);
      var g1 := Compile(P, cls, env, tmp - 1, e2, g0.next);
      ExprLabels(P, cls, env, tmp, e1, l, lb);
      ExprLabels(P, cls, env, tmp - 1, e2, g0.next, lb);
      CountPushed(g0.code, g1.code, CompareTail(cmp, g1.next), lb);
      CompareLabels(cmp, g1.next, lb);
  }

  lemma {:induction false} CondLabels(P: Program, cls: ClassName, env: Scope, tmp: int, e: Expr, l: int, lb: Label)
    requires Hierarchy(P) && e.Cond?
    ensures Draws(Compile(P, cls, env, tmp, e, l), l, lb)
    decreases e, 1
  {
    hide Compile, Hierarchy, Count, TestFalse;
    CompileCond(P, cls, env, tmp, e, l);
    var g0 := Compile(P, cls, env, tmp, e.pred, l);
    var g1 := Compile(P, cls, env, tmp, e.thn, g0.next + 2);
    var g2 := Compile(P, cls, env, tmp, e.els, g1.next);
    ExprLabels(P, cls, env, tmp, e.pred, l, lb);
    ExprLabels(P, cls, env, tmp, e.thn, g0.next + 2, lb);
    ExprLabels(P, cls, env, tmp, e.els, g1.next, lb);
    CondCount(g0.code, g0.next, g1.code, g2.code, lb);
  }

  lemma CondCount(c0: seq<Instr>, l: int, c1: seq<Instr>, c2: seq<Instr>, lb: Label)
    ensures Count(c0 + (TestFalse(l) + (c1 + ([B(Num(l + 1)), LabelDef(Num(l))] + (c2 + [LabelDef(Num(l + 1))])))), lb)
         == Count(c0, lb) + Count(c1, lb) + Is(lb, l) + Count(c2, lb) + Is(lb, l + 1)
  {
    hide *;
    var mid, end := [B(Num(l + 1)), LabelDef(Num(l))], c2 + [LabelDef(Num(l + 1))];
    var rest := c1 + (mid + end);
    CountThree(c0, TestFalse(l), rest, lb);
    CountThree(c1, mid, end, lb);
    CountConcat(c2, [LabelDef(Num(l + 1))], lb);
    JumpThenLabel(l + 1, l, lb);
    TestLabels(l, lb);
    CountOne(l + 1, lb);
  }

  lemma JumpThenLabel(l: int, n: int, lb: Label)
    ensures Count([B(Num(l)), LabelDef(Num(n))], lb) == Is(lb, n)
  {
    assert [B(Num(l)), LabelDef(Num(n))] == [B(Num(l))] + [LabelDef(Num(n))];
    CountConcat([B(Num(l))], [LabelDef(Num(n))], lb);
    JumpLabels(l, lb);
    CountOne(n, lb);
  }

  lemma {:induction false} LoopLabels(P: Program, cls: ClassName, env: Scope, tmp: int, e: Expr, l: int, lb: Label)
    requires Hierarchy(P) && e.Loop?
    ensures Draws(Compile(P, cls, env, tmp, e, l), l, lb)
    decreases e, 1
  {
    hide Compile, Hierarchy, Count, TestFalse;
    CompileLoop(P, cls, env, tmp, e, l);
    var g0 := Compile(P, cls, env, tmp, e.pred, l + 2);
    var g1 := Compile(P, cls, env, tmp, e.body, g0.next);
    ExprLabels(P, cls, env, tmp, e.pred, l + 2, lb);
    ExprLabels(P, cls, env, tmp, e.body, g0.next, lb);
    LoopCount(l, g0.code, g1.code, lb);
  }

  lemma LoopCount(l: int, c0: seq<Instr>, c1: seq<Instr>, lb: Label)
    ensures Count([LabelDef(Num(l))] + (c0 + (TestFalse(l + 1) + (c1 + [B(Num(l)), LabelDef(Num(l + 1))]))), lb)
         == Is(lb, l) + Count(c0, lb) + Count(c1, lb) + Is(lb, l + 1)
  {
    hide Count, TestFalse, Is;
    var end := [B(Num(l)), LabelDef(Num(l + 1))];
    CountThree([LabelDef(Num(l))], c0, TestFalse(l + 1) + (c1 + end), lb);
    CountThree(TestFalse(l + 1), c1, end, lb);
    JumpThenLabel(l, l + 1, lb);
    TestLabels(l + 1, lb);
    CountOne(l, lb);
  }

  lemma {:induction false} CallLabels(P: Program, cls: ClassName, env: Scope, tmp: int, e: Expr, l: int, lb: Label)
    requires Hierarchy(P) && (e.Dispatch? || e.StaticDispatch?)
    ensures Draws(Compile(P, cls, env, tmp, e, l), l, lb)
    decreases e, 1
  {
    hide Compile, CompileArgs, Hierarchy, Count, DispatchTail, StaticDispatchTail;
    var g0 := CompileArgs(P, cls, env, tmp, e.args, l);
    var g1 := Compile(P, cls, env, tmp - |e.args|, e.e, g0.next);
    ArgLabels(P, cls, env, tmp, e.args, l, lb);
    ExprLabels(P, cls, env, tmp - |e.args|, e.e, g0.next, lb);
    var c := if e.Dispatch? then StaticClass(e.sty, cls) else e.c;
    DispatchLabels(P, c, e.m, g1.next, lb);
    if e.Dispatch? {
      CompileDispatch(P, cls, env, tmp, e, l);
      CountThree(g0.code, g1.code, DispatchTail(P, c, e.m, g1.next), lb);
    } else {
      CompileStaticDispatch(P, cls, env, tmp, e, l);
      CountThree(g0.code, g1.code, StaticDispatchTail(P, c, e.m, g1.next), lb);
    }
  }

  lemma {:induction false} CaseLabels(P: Program, cls: ClassName, env: Scope, tmp: int, e: Expr, l: int, lb: Label)
    requires Hierarchy(P) && e.TypCase?
    ensures Draws(Compile(P, cls, env, tmp, e, l), l, lb)
    decreases e, 1
  {
    hide Compile, CompileCases, Hierarchy, Count, AbortOnVoid, Arrange, Intervals;
    CompileTypCase(P, cls, env, tmp, e, l);
    var order := Arrange(Intervals(P, CaseTypes(e.cases)));
    var g0 := Compile(P, cls, env, tmp, e.e, l + 1);
    var g1 := CompileCases(P, cls, env, tmp, e.cases, order, l, g0.next, g0.next + 1);
    ExprLabels(P, cls, env, tmp, e.e, l + 1, lb);
    BranchesLabels(P, cls, env, tmp, e.cases, order, l, g0.next, g0.next + 1, lb);
    CountThree(g0.code, AbortOnVoid(CaseVoid, g0.next), g1.code, lb);
    VoidLabels(CaseVoid, g0.next, lb);
  }

  lemma {:induction false} BranchesLabels(P: Program, cls: ClassName, env: Scope, tmp: int, cases: seq<Branch>, order: seq<nat>, esac: int, cur: int, l: int, lb: Label)
    requires Hierarchy(P) && forall i :: 0 <= i < |order| ==> order[i] < |cases|
    ensures var g := CompileCases(P, cls, env, tmp, cases, order, esac, cur, l);
      l <= g.next && Count(g.code, lb) <= Own(lb, l, g.next) + Is(lb, cur) + Is(lb, esac)
    decreases cases, |order|
  {
    hide Compile, CompileCases, Hierarchy, Count, BranchTest, IntervalOf;
    if order == [] {
      CompileCasesNone(P, cls, env, tmp, cases, esac, cur, l);
      EndLabels(cur, esac, lb);
    } else {
      CompileCasesMore(P, cls, env, tmp, cases, order, esac, cur, l);
      var br := cases[order[0]];
      var g0 := Compile(P, cls, env[br.x := Local(tmp)], tmp - 1, br.body, l + 1);
      var g1 := CompileCases(P, cls, env, tmp, cases, order[1..], esac, l, g0.next);
      ExprLabels(P, cls, env[br.x := Local(tmp)], tmp - 1, br.body, l + 1, lb);
      BranchesLabels(P, cls, env, tmp, cases, order[1..], esac, l, g0.next, lb);
      BranchCount(IntervalOf(P, br.c), cur, l, g0.code, esac, g1.code, lb);
    }
  }

  lemma BranchCount(iv: Interval, cur: int, l: int, c0: seq<Instr>, esac: int, rest: seq<Instr>, lb: Label)
    ensures Count(BranchTest(iv, cur, l) + (PUSH + (c0 + (POP + ([B(Num(esac))] + rest)))), lb)
         == Is(lb, cur) + Count(c0, lb) + Count(rest, lb)
  {
    hide Count, BranchTest, Is;
    CountThree(BranchTest(iv, cur, l), PUSH, c0 + (POP + ([B(Num(esac))] + rest)), lb);
    CountThree(c0, POP, [B(Num(esac))] + rest, lb);
    CountConcat([B(Num(esac))], rest, lb);
    BranchLabels(iv, cur, l, lb);
    PushPop(lb);
    JumpLabels(esac, lb);
  }
}
