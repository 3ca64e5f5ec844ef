/** Where prototypes are loaded: the code of an expression loads that of `c` only for a `new c` in it. */
module NewClasses {
  import opened CoolNames
  import opened Inheritance
  import opened CoolSyntax
  import opened Layout
  import opened ClassTags
  import opened CoolSemantics
  import opened Mips
  import opened CodeGen
  import opened CodeGenEquations
  import opened ProgramImage
  import opened SimSelect

  /** No instruction loads the prototype of `c`. */
  ghost predicate Without(code: seq<Instr>, c: ClassName) {
    La(ACC, Proto(c)) !in code
  }

  lemma Two(a: seq<Instr>, b: seq<Instr>, c: ClassName)
    requires Without(a, c) && Without(b, c)
    ensures Without(a + b, c)
  {
  }

  lemma Three(a: seq<Instr>, b: seq<Instr>, d: seq<Instr>, c: ClassName)
    requires Without(a, c) && Without(b, c) && Without(d, c)
    ensures Without(a + (b + d), c)
  {
  }

  /** The fixed pieces of code. */
  lemma Fixed(P: Program, c: ClassName)
    requires Hierarchy(P)
    ensures Without(PUSH, c) && Without(POP, c) && Without(NEWSELF, c) && Without(ENTER, c) && Without([], c) && Without([Move(ACC, SELFR)], c)
    ensures forall op :: Without(ArithTail(P, op), c)
    ensures Without(NegTail(P), c)
    ensures forall n :: Without(Exit(n), c)
  {
  }

  lemma Tests(c: ClassName)
    ensures forall cmp, l {:trigger CompareTail(cmp, l)} :: Without(CompareTail(cmp, l), c)
    ensures forall n, l {:trigger CompTail(n, l)} :: Without(CompTail(n, l), c)
    ensures forall l {:trigger TestFalse(l)} :: Without(TestFalse(l), c)
    ensures forall f, l {:trigger AbortOnVoid(f, l)} :: Without(AbortOnVoid(f, l), c)
    ensures forall iv, l, m {:trigger BranchTest(iv, l, m)} :: Without(BranchTest(iv, l, m), c)
  {
  }

  lemma Calls(P: Program, d: ClassName, m: Name, l: int, c: ClassName)
    requires Hierarchy(P)
    ensures Without(DispatchTail(P, d, m, l), c) && Without(StaticDispatchTail(P, d, m, l), c)
  {
    hide AbortOnVoid;
    Tests(c);
  }

  lemma Leaf(P: Program, cls: ClassName, env: Scope, tmp: int, e: Expr, l: int, c: ClassName)
    requires Hierarchy(P) && !Creates(e, c)
    requires e.IntConst? || e.BoolConst? || e.StrConst? || e.NoExpr? || e.Object? || e.New? || e.NewSelf?
    ensures Without(Compile(P, cls, env, tmp, e, l).code, c)
  {
  }

  lemma {:induction false} Expression(P: Program, cls: ClassName, env: Scope, tmp: int, e: Expr, l: int, c: ClassName)
    requires Hierarchy(P) && !Creates(e, c)
    ensures Without(Compile(P, cls, env, tmp, e, l).code, c)
    decreases e, 2
  {
    hide Compile, CompileSeq, Hierarchy, Without;
    match e
    case Assign(_, _) => Unary(P, cls, env, tmp, e, l, c);
    case Neg(_) => Unary(P, cls, env, tmp, e, l, c);
    case Comp(_) => Unary(P, cls, env, tmp, e, l, c);
    case Block(es) =>
      CompileBlock(P, cls, env, tmp, e, l);
      Sequence(P, cls, env, tmp, es, l, c);
    case Cond(_, _, _) => Branching(P, cls, env, tmp, e, l, c);
    case Loop(_, _) => Branching(P, cls, env, tmp, e, l, c);
    case Let(_, _, _, _) => Binary(P, cls, env, tmp, e, l, c);
    case Arith(_, _, _) => Binary(P, cls, env, tmp, e, l, c);
    case Compare(_, _, _) => Binary(P, cls, env, tmp, e, l, c);
    case Dispatch(_, _, _, _) => Calling(P, cls, env, tmp, e, l, c);
    case StaticDispatch(_, _, _, _) => Calling(P, cls, env, tmp, e, l, c);
    case TypCase(_, _) => Choosing(P, cls, env, tmp, e, l, c);
    case _ => Leaf(P, cls, env, tmp, e, l, c);
  }

  lemma {:induction false} Unary(P: Program, cls: ClassName, env: Scope, tmp: int, e: Expr, l: int, c: ClassName)
    requires Hierarchy(P) && !Creates(e, c) && (e.Assign? || e.Neg? || e.Comp?)
    ensures Without(Compile(P, cls, env, tmp, e, l).code, c)
    decreases e, 1
  {
    hide Compile, Hierarchy, NegTail, CompTail, Without;
    var g := Compile(P, cls, env, tmp, e.e, l);
    Expression(P, cls, env, tmp, e.e, l, c);
    Fixed(P, c);
    Tests(c);
    match e
    case Assign(x, _) =>
      CompileAssign(P, cls, env, tmp, e, l);
      Stored(env, x, c);
      Two(g.code, [StoreVar(env, x)], c);
    case Neg(_) =>
      CompileNeg(P, cls, env, tmp, e, l);
      Two(g.code, NegTail(P), c);
    case Comp(_) =>
      CompileComp(P, cls, env, tmp, e, l);
      Two(g.code, CompTail(g.next, g.next + 1), c);
  }

  lemma Stored(env: Scope, x: Name, c: ClassName)
    ensures Without([StoreVar(env, x)], c)
  {
  }

  lemma Jump(l: int, n: int, c: ClassName)
    ensures Without([B(Num(l)), LabelDef(Num(n))], c) && Without([LabelDef(Num(n))], c) && Without([B(Num(l))], c)
  {
  }

  lemma {:induction false} Sequence(P: Program, cls: ClassName, env: Scope, tmp: int, es: seq<Expr>, l: int, c: ClassName)
    requires Hierarchy(P) && forall i :: 0 <= i < |es| ==> !Creates(es[i], c)
    ensures Without(CompileSeq(P, cls, env, tmp, es, l).code, c)
    decreases es, 0
  {
    hide Compile, CompileSeq, Hierarchy, Without, Creates;
    Fixed(P, c);
    if es == [] {
      CompileSeqNone(P, cls, env, tmp, es, l);
    } else {
      CompileSeqMore(P, cls, env, tmp, es, l);
      var g0 := Compile(P, cls, env, tmp, es[0], l);
      Expression(P, cls, env, tmp, es[0], l, c);
      Sequence(P, cls, env, tmp, es[1..], g0.next, c);
      Two(g0.code, CompileSeq(P, cls, env, tmp, es[1..], g0.next).code, c);
    }
  }

  lemma {:induction false} Arguments(P: Program, cls: ClassName, env: Scope, tmp: int, es: seq<Expr>, l: int, c: ClassName)
    requires Hierarchy(P) && forall i :: 0 <= i < |es| ==> !Creates(es[i], c)
    ensures Without(CompileArgs(P, cls, env, tmp, es, l).code, c)
    decreases es, 0
  {
    hide Compile, CompileArgs, Hierarchy, Without, Creates;
    Fixed(P, c);
    if es == [] {
      CompileArgsNone(P, cls, env, tmp, es, l);
    } else {
      CompileArgsMore(P, cls, env, tmp, es, l);
      var g0 := Compile(P, cls, env, tmp, es[0], l);
      Expression(P, cls, env, tmp, es[0], l, c);
      Arguments(P, cls, env, tmp - 1, es[1..], g0.next, c);
      Three(g0.code, PUSH, CompileArgs(P, cls, env, tmp - 1, es[1..], g0.next).code, c);
    }
  }

  lemma {:induction false} Binary(P: Program, cls: ClassName, env: Scope, tmp: int, e: Expr, l: int, c: ClassName)
    requires Hierarchy(P) && !Creates(e, c) && (e.Let? || e.Arith? || e.Compare?)
    ensures Without(Compile(P, cls, env, tmp, e, l).code, c)
    decreases e, 1
  {
    hide Compile, Hierarchy, ArithTail, CompareTail, Without;
    Fixed(P, c);
    Tests(c);
    match e
    case Let(x, _, init, body) =>
      CompileLet(P, cls, env, tmp, e, l);
      var g0 := Compile(P, cls, env, tmp, init, l);
      var g1 := Compile(P, cls, env[x := Local(tmp)], tmp - 1, body, g0.next);
      Expression(P, cls, env, tmp, init, l, c);
      Expression(P, cls, env[x := Local(tmp)], tmp - 1, body, g0.next, c);
      Pushed(g0.code, g1.code, POP, c);
    case Arith(op, e1, e2) =>
      CompileArith(P, cls, env, tmp, e, l);
      var g0 := Compile(P, cls, env, tmp, e1, l);
      var g1 := Compile(P, cls, env, tmp - 1, e2, g0.next);
      Expression(P, cls, env, tmp, e1, l, c);
      Expression(P, cls, env, tmp - 1, e2, g0.next, c);
      Pushed(g0.code, g1.code, ArithTail(P, op), c);
    case Compare(cmp, e1, e2) =>
      CompileCompare(P, cls, env, tmp, e, l);
      var g0 := Compile(P, cls, env, tmp, e1, l);
      var g1 := Compile(P, cls, env, tmp - 1, e2, g0.next);
      Expression(P, cls, env, tmp, e1, l, c);
      Expression(P, cls, env, tmp - 1, e2, g0.next, c);
      Pushed(g0.code, g1.code, CompareTail(cmp, g1.next), c);
  }

  lemma Pushed(c0: seq<Instr>, c1: seq<Instr>, tail: seq<Instr>, c: ClassName)
    requires Without(c0, c) && Without(c1, c) && Without(tail, c)
    ensures Without(c0 + (PUSH + (c1 + tail)), c)
  {
    assert Without(PUSH, c);
    Two(c1, tail, c);
    Three(c0, PUSH, c1 + tail, c);
  }

  lemma {:induction false} Branching(P: Program, cls: ClassName, env: Scope, tmp: int, e: Expr, l: int, c: ClassName)
    requires Hierarchy(P) && !Creates(e, c) && (e.Cond? || e.Loop?)
    ensures Without(Compile(P, cls, env, tmp, e, l).code, c)
    decreases e, 1
  {
    hide Compile, Hierarchy, TestFalse, Without;
    Tests(c);
    match e
    case Cond(p, t, f) =>
      CompileCond(P, cls, env, tmp, e, l);
      var g0 := Compile(P, cls, env, tmp, p, l);
      var g1 := Compile(P, cls, env, tmp, t, g0.next + 2);
      var g2 := Compile(P, cls, env, tmp, f, g1.next);
      Expression(P, cls, env, tmp, p, l, c);
      Expression(P, cls, env, tmp, t, g0.next + 2, c);
      Expression(P, cls, env, tmp, f, g1.next, c);
      Jump(g0.next + 1, g0.next, c);
      Jump(g0.next, g0.next + 1, c);
      var mid, end := [B(Num(g0.next + 1)), LabelDef(Num(g0.next))], [LabelDef(Num(g0.next + 1))];
      Two(g2.code, end, c);
      Three(g1.code, mid, g2.code + end, c);
      Three(g0.code, TestFalse(g0.next), g1.code + (mid + (g2.code + end)), c);
    case Loop(p, b) =>
      CompileLoop(P, cls, env, tmp, e, l);
      var g0 := Compile(P, cls, env, tmp, p, l + 2);
      var g1 := Compile(P, cls, env, tmp, b, g0.next);
      Expression(P, cls, env, tmp, p, l + 2, c);
      Expression(P, cls, env, tmp, b, g0.next, c);
      Jump(l, l + 1, c);
      Jump(l, l, c);
      var end := [B(Num(l)), LabelDef(Num(l + 1))];
      Three(TestFalse(l + 1), g1.code, end, c);
      Three([LabelDef(Num(l))], g0.code, TestFalse(l + 1) + (g1.code + end), c);
  }

  lemma {:induction false} Calling(P: Program, cls: ClassName, env: Scope, tmp: int, e: Expr, l: int, c: ClassName)
    requires Hierarchy(P) && !Creates(e, c) && (e.Dispatch? || e.StaticDispatch?)
    ensures Without(Compile(P, cls, env, tmp, e, l).code, c)
    decreases e, 1
  {
    hide Compile, CompileArgs, Hierarchy, DispatchTail, StaticDispatchTail, Without;
    var g0 := CompileArgs(P, cls, env, tmp, e.args, l);
    var g1 := Compile(P, cls, env, tmp - |e.args|, e.e, g0.next);
    Arguments(P, cls, env, tmp, e.args, l, c);
    Expression(P, cls, env, tmp - |e.args|, e.e, g0.next, c);
    var d := if e.Dispatch? then StaticClass(e.sty, cls) else e.c;
    Calls(P, d, e.m, g1.next, c);
    if e.Dispatch? {
      CompileDispatch(P, cls, env, tmp, e, l);
      Three(g0.code, g1.code, DispatchTail(P, d, e.m, g1.next), c);
    } else {
      CompileStaticDispatch(P, cls, env, tmp, e, l);
      Three(g0.code, g1.code, StaticDispatchTail(P, d, e.m, g1.next), c);
    }
  }

  lemma {:induction false} Choosing(P: Program, cls: ClassName, env: Scope, tmp: int, e: Expr, l: int, c: ClassName)
    requires Hierarchy(P) && !Creates(e, c) && e.TypCase?
    ensures Without(Compile(P, cls, env, tmp, e, l).code, c)
    decreases e, 1
  {
    hide Compile, CompileCases, Hierarchy, AbortOnVoid, Arrange, Intervals, Without;
    CompileTypCase(P, cls, env, tmp, e, l);
    var order := Arrange(Intervals(P, CaseTypes(e.cases)));
    var g0 := Compile(P, cls, env, tmp, e.e, l + 1);
    var g1 := CompileCases(P, cls, env, tmp, e.cases, order, l, g0.next, g0.next + 1);
    Expression(P, cls, env, tmp, e.e, l + 1, c);
    Cases(P, cls, env, tmp, e.cases, order, l, g0.next, g0.next + 1, c);
    Tests(c);
    Three(g0.code, AbortOnVoid(CaseVoid, g0.next), g1.code, c);
  }

  lemma NoCase(cur: int, esac: int, c: ClassName)
    ensures Without([LabelDef(Num(cur)), AbortCall(CaseNoMatch), LabelDef(Num(esac))], c)
  {
  }

  lemma {:induction false} Cases(P: Program, cls: ClassName, env: Scope, tmp: int, cases: seq<Branch>, order: seq<nat>, esac: int, cur: int, l: int, c: ClassName)
    requires Hierarchy(P) && (forall i :: 0 <= i < |order| ==> order[i] < |cases|) && forall i :: 0 <= i < |cases| ==> !Creates(cases[i].body, c)
    ensures Without(CompileCases(P, cls, env, tmp, cases, order, esac, cur, l).code, c)
    decreases cases, |order|
  {
    hide Compile, CompileCases, Hierarchy, BranchTest, IntervalOf, Without, Creates;
    if order == [] {
      CompileCasesNone(P, cls, env, tmp, cases, esac, cur, l);
      NoCase(cur, esac, c);
    } else {
      CompileCasesMore(P, cls, env, tmp, cases, order, esac, cur, l);
      var br := cases[order[0]];
      var g0 := Compile(P, cls, env[br.x := Local(tmp)], tmp - 1, br.body, l + 1);
      var g1 := CompileCases(P, cls, env, tmp, cases, order[1..], esac, l, g0.next);
      Expression(P, cls, env[br.x := Local(tmp)], tmp - 1, br.body, l + 1, c);
      Cases(P, cls, env, tmp, cases, order[1..], esac, l, g0.next, c);
      CaseParts(IntervalOf(P, br.c), cur, l, g0.code, esac, g1.code, c);
    }
  }

  lemma CaseParts(iv: Interval, cur: int, l: int, c0: seq<Instr>, esac: int, rest: seq<Instr>, c: ClassName)
    requires Without(c0, c) && Without(rest, c)
    ensures Without(BranchTest(iv, cur, l) + (PUSH + (c0 + (POP + ([B(Num(esac))] + rest)))), c)
  {
    assert Without(PUSH, c) && Without(POP, c);
    hide Without, BranchTest;
    Tests(c);
    Jump(esac, esac, c);
    Two([B(Num(esac))], rest, c);
    Three(c0, POP, [B(Num(esac))] + rest, c);
    Three(BranchTest(iv, cur, l), PUSH, c0 + (POP + ([B(Num(esac))] + rest)), c);
  }

  // ---------------------------------------------------------------------------------------------
  // Whole programs.

  lemma InitWithout(P: Program, d: ClassName, l: int, c: ClassName)
    requires Hierarchy(P) && d in P.classes && !Created(P, c)
    ensures Without(InitCode(P, d, l).code, c)
  {
    hide CompileSeq, Hierarchy, ENTER, Exit, AttrScope, ParentInit, AttrLayout, Creates;
    var es, scope := InitExprs(P.classes[d].attrs), AttrScope(AttrLayout(P, d));
    forall i | 0 <= i < |es| ensures !Creates(es[i], c) {
      AssignCreates(es[i], c);
      assert P.classes[d].attrs[i] in P.classes[d].attrs;
    }
    Sequence(P, d, scope, -3, es, l, c);
    Fixed(P, c);
    ParentWithout(P, d, c);
  }

  lemma AssignCreates(e: Expr, c: ClassName)
    requires e.Assign?
    ensures Creates(e, c) == Creates(e.e, c)
  {
  }

  lemma ParentWithout(P: Program, d: ClassName, c: ClassName)
    requires Hierarchy(P) && d in P.classes
    ensures Without(ParentInit(P, d), c)
  {
  }

  lemma MethodWithout(P: Program, d: ClassName, m: Method, l: int, c: ClassName)
    requires Hierarchy(P) && d in P.classes && m in P.classes[d].methods && !Created(P, c)
    ensures Without(OneMethod(P, d, m, l).code, c)
  {
    hide Compile, Hierarchy, ENTER, Exit, MethodScope, Creates;
    Fixed(P, c);
    if m.body.Code? {
      Expression(P, d, MethodScope(P, d, m.formals), -3, m.body.e, l, c);
    }
  }

  lemma {:induction false} MethodsWithout(P: Program, d: ClassName, decls: seq<Method>, l: int, c: ClassName)
    requires Hierarchy(P) && d in P.classes && !Created(P, c) && forall m :: m in decls ==> m in P.classes[d].methods
    ensures Without(MethodsCode(P, d, decls, l).code, c)
    decreases |decls|
  {
    hide OneMethod, Hierarchy, Created;
    if decls != [] {
      var g0 := OneMethod(P, d, decls[0], l);
      MethodWithout(P, d, decls[0], l, c);
      MethodsWithout(P, d, decls[1..], g0.next, c);
    }
  }

  lemma {:induction false} ClassesWithout(P: Program, cs: seq<ClassName>, l: int, c: ClassName)
    requires Hierarchy(P) && !Created(P, c) && forall i :: 0 <= i < |cs| ==> cs[i] in P.classes
    ensures Without(ClassesCode(P, cs, l).code, c)
    decreases |cs|
  {
    hide InitCode, MethodsCode, Hierarchy, Created;
    if cs != [] {
      InitWithout(P, cs[0], l, c);
      MethodsWithout(P, cs[0], P.classes[cs[0]].methods, InitCode(P, cs[0], l).next, c);
      ClassesWithout(P, cs[1..], ClassCode(P, cs[0], l).next, c);
    }
  }

  lemma {:induction false} NativesWithout(d: ClassName, decls: seq<Method>, c: ClassName)
    ensures Without(NativesCode(d, decls), c)
    decreases |decls|
  {
    if decls != [] {
      NativesWithout(d, decls[1..], c);
    }
  }

  lemma {:induction false} RuntimeWithout(P: Program, cs: seq<ClassName>, c: ClassName)
    requires forall i :: 0 <= i < |cs| ==> cs[i] in P.classes
    ensures Without(RuntimeCode(P, cs), c)
    decreases |cs|
  {
    hide NativesCode;
    if cs != [] {
      NativesWithout(cs[0], P.classes[cs[0]].methods, c);
      RuntimeWithout(P, cs[1..], c);
    }
  }

  lemma WithoutIs(code: seq<Instr>, c: ClassName)
    requires Without(code, c)
    ensures La(ACC, Proto(c)) !in code
  {
  }

  lemma InPart(a: seq<Instr>, b: seq<Instr>, pc: nat, i: Instr)
    ensures pc < |a + b| && (a + b)[pc] == i ==> (pc < |a| && a[pc] == i) || i in b
  {
  }

  /** Only the start-up code loads the prototype of a class that the program does not create. */
  lemma OnlyBoot(P: Program, pc: nat, c: ClassName)
    requires Hierarchy(P) && OrderKnown(P) && !Created(P, c)
    requires pc < |ProgramText(P)| && ProgramText(P)[pc] == La(ACC, Proto(c))
    ensures pc == 0 && c == MAIN
  {
    hide Hierarchy, ClassesCode, RuntimeCode, Created, Without;
    ClassesWithout(P, P.order, 0, c);
    RuntimeWithout(P, P.order, c);
    var rest := ClassesCode(P, P.order, 0).code + RuntimeCode(P, P.order);
    Two(ClassesCode(P, P.order, 0).code, RuntimeCode(P, P.order), c);
    WithoutIs(rest, c);
    InPart(BOOT, rest, pc, La(ACC, Proto(c)));
  }
}
