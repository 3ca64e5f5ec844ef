/** What the generator emits for each construct, one equation per construct. */
module CodeGenEquations {
  import opened CoolNames
  import opened Inheritance
  import opened CoolSyntax
  import opened Layout
  import opened ClassTags
  import opened CoolSemantics
  import opened Mips
  import opened CodeGen

  lemma {:induction false} CompileNoExpr(P: Program, cls: ClassName, env: Scope, tmp: int, e: Expr, l: int)
    requires Hierarchy(P) && e.NoExpr?
    ensures Compile(P, cls, env, tmp, e, l) == Gen(DefaultCode(e.ty), l)
  {
  }

  lemma {:induction false} CompileObject(P: Program, cls: ClassName, env: Scope, tmp: int, e: Expr, l: int)
    requires Hierarchy(P) && e.Object?
    ensures Compile(P, cls, env, tmp, e, l) == Gen(if e.x == SELF then [Move(ACC, SELFR)] else [LoadVar(env, e.x)], l)
  {
  }

  lemma {:induction false} CompileAssign(P: Program, cls: ClassName, env: Scope, tmp: int, e: Expr, l: int)
    requires Hierarchy(P) && e.Assign?
    ensures var g := Compile(P, cls, env, tmp, e.e, l);
      Compile(P, cls, env, tmp, e, l) == Gen(g.code + [StoreVar(env, e.x)], g.next)
  {
  }

  lemma {:induction false} CompileBlock(P: Program, cls: ClassName, env: Scope, tmp: int, e: Expr, l: int)
    requires Hierarchy(P) && e.Block?
    ensures Compile(P, cls, env, tmp, e, l) == CompileSeq(P, cls, env, tmp, e.es, l)
  {
  }

  lemma {:induction false} CompileCond(P: Program, cls: ClassName, env: Scope, tmp: int, e: Expr, l: int)
    requires Hierarchy(P) && e.Cond?
    ensures var g0 := Compile(P, cls, env, tmp, e.pred, l);
      var g1 := Compile(P, cls, env, tmp, e.thn, g0.next + 2);
      var g2 := Compile(P, cls, env, tmp, e.els, g1.next);
      Compile(P, cls, env, tmp, e, l) ==
        Gen(g0.code + (TestFalse(g0.next) + (g1.code + ([B(Num(g0.next + 1)), LabelDef(Num(g0.next))]
            + (g2.code + [LabelDef(Num(g0.next + 1))])))), g2.next)
  {
  }

  lemma {:induction false} CompileLoop(P: Program, cls: ClassName, env: Scope, tmp: int, e: Expr, l: int)
    requires Hierarchy(P) && e.Loop?
    ensures var g0 := Compile(P, cls, env, tmp, e.pred, l + 2);
      var g1 := Compile(P, cls, env, tmp, e.body, g0.next);
      Compile(P, cls, env, tmp, e, l) ==
        Gen([LabelDef(Num(l))] + (g0.code + (TestFalse(l + 1) + (g1.code
            + [B(Num(l)), LabelDef(Num(l + 1))]))), g1.next)
  {
  }

  lemma {:induction false} CompileLet(P: Program, cls: ClassName, env: Scope, tmp: int, e: Expr, l: int)
    requires Hierarchy(P) && e.Let?
    ensures var g0 := Compile(P, cls, env, tmp, e.init, l);
      var g1 := Compile(P, cls, env[e.x := Local(tmp)], tmp - 1, e.body, g0.next);
      Compile(P, cls, env, tmp, e, l) == Gen(g0.code + (PUSH + (g1.code + POP)), g1.next)
  {
  }

  lemma {:induction false} CompileArith(P: Program, cls: ClassName, env: Scope, tmp: int, e: Expr, l: int)
    requires Hierarchy(P) && e.Arith?
    ensures var g0 := Compile(P, cls, env, tmp, e.e1, l);
      var g1 := Compile(P, cls, env, tmp - 1, e.e2, g0.next);
      Compile(P, cls, env, tmp, e, l) == Gen(g0.code + (PUSH + (g1.code + ArithTail(P, e.op))), g1.next)
  {
  }

  lemma {:induction false} CompileNeg(P: Program, cls: ClassName, env: Scope, tmp: int, e: Expr, l: int)
    requires Hierarchy(P) && e.Neg?
    ensures var g := Compile(P, cls, env, tmp, e.e, l);
      Compile(P, cls, env, tmp, e, l) == Gen(g.code + NegTail(P), g.next)
  {
  }

  lemma {:induction false} CompileCompare(P: Program, cls: ClassName, env: Scope, tmp: int, e: Expr, l: int)
    requires Hierarchy(P) && e.Compare?
    ensures var g0 := Compile(P, cls, env, tmp, e.e1, l);
      var g1 := Compile(P, cls, env, tmp - 1, e.e2, g0.next);
      Compile(P, cls, env, tmp, e, l) == Gen(g0.code + (PUSH + (g1.code + CompareTail(e.cmp, g1.next))), g1.next + 1)
  {
  }

  lemma {:induction false} CompileComp(P: Program, cls: ClassName, env: Scope, tmp: int, e: Expr, l: int)
    requires Hierarchy(P) && e.Comp?
    ensures var g := Compile(P, cls, env, tmp, e.e, l);
      Compile(P, cls, env, tmp, e, l) == Gen(g.code + CompTail(g.next, g.next + 1), g.next + 2)
  {
  }

  lemma {:induction false} CompileDispatch(P: Program, cls: ClassName, env: Scope, tmp: int, e: Expr, l: int)
    requires Hierarchy(P) && e.Dispatch?
    ensures var g0 := CompileArgs(P, cls, env, tmp, e.args, l);
      var g1 := Compile(P, cls, env, tmp - |e.args|, e.e, g0.next);
      Compile(P, cls, env, tmp, e, l) ==
        Gen(g0.code + (g1.code + DispatchTail(P, StaticClass(e.sty, cls), e.m, g1.next)), g1.next + 1)
  {
  }

  lemma {:induction false} CompileStaticDispatch(P: Program, cls: ClassName, env: Scope, tmp: int, e: Expr, l: int)
    requires Hierarchy(P) && e.StaticDispatch?
    ensures var g0 := CompileArgs(P, cls, env, tmp, e.args, l);
      var g1 := Compile(P, cls, env, tmp - |e.args|, e.e, g0.next);
      Compile(P, cls, env, tmp, e, l) ==
        Gen(g0.code + (g1.code + StaticDispatchTail(P, e.c, e.m, g1.next)), g1.next + 1)
  {
  }

  lemma {:induction false} CompileTypCase(P: Program, cls: ClassName, env: Scope, tmp: int, e: Expr, l: int)
    requires Hierarchy(P) && e.TypCase?
    ensures var g0 := Compile(P, cls, env, tmp, e.e, l + 1);
      var g1 := CompileCases(P, cls, env, tmp, e.cases, Arrange(Intervals(P, CaseTypes(e.cases))), l, g0.next, g0.next + 1);
      Compile(P, cls, env, tmp, e, l) == Gen(g0.code + (AbortOnVoid(CaseVoid, g0.next) + g1.code), g1.next)
  {
  }

  lemma {:induction false} CompileNew(P: Program, cls: ClassName, env: Scope, tmp: int, e: Expr, l: int)
    requires Hierarchy(P) && e.New?
    ensures Compile(P, cls, env, tmp, e, l) == Gen(NewCode(P, e.c), l)
  {
  }

  lemma {:induction false} CompileNewSelf(P: Program, cls: ClassName, env: Scope, tmp: int, e: Expr, l: int)
    requires Hierarchy(P) && e.NewSelf?
    ensures Compile(P, cls, env, tmp, e, l) == Gen(NEWSELF, l)
  {
  }

  lemma {:induction false} CompileIntConst(P: Program, cls: ClassName, env: Scope, tmp: int, e: Expr, l: int)
    requires Hierarchy(P) && e.IntConst?
    ensures Compile(P, cls, env, tmp, e, l) == Gen([La(ACC, IntObj(e.n))], l)
  {
  }

  lemma {:induction false} CompileBoolConst(P: Program, cls: ClassName, env: Scope, tmp: int, e: Expr, l: int)
    requires Hierarchy(P) && e.BoolConst?
    ensures Compile(P, cls, env, tmp, e, l) == Gen([La(ACC, BoolObj(e.b))], l)
  {
  }

  lemma {:induction false} CompileStrConst(P: Program, cls: ClassName, env: Scope, tmp: int, e: Expr, l: int)
    requires Hierarchy(P) && e.StrConst?
    ensures Compile(P, cls, env, tmp, e, l) == Gen([La(ACC, StrObj(e.s))], l)
  {
  }

  lemma {:induction false} CompileSeqMore(P: Program, cls: ClassName, env: Scope, tmp: int, es: seq<Expr>, l: int)
    requires Hierarchy(P) && es != []
    ensures var g0 := Compile(P, cls, env, tmp, es[0], l);
      var g1 := CompileSeq(P, cls, env, tmp, es[1..], g0.next);
      CompileSeq(P, cls, env, tmp, es, l) == Gen(g0.code + g1.code, g1.next)
  {
  }

  lemma {:induction false} CompileSeqNone(P: Program, cls: ClassName, env: Scope, tmp: int, es: seq<Expr>, l: int)
    requires Hierarchy(P) && es == []
    ensures CompileSeq(P, cls, env, tmp, es, l) == Gen([], l)
  {
  }

  lemma {:induction false} CompileArgsNone(P: Program, cls: ClassName, env: Scope, tmp: int, es: seq<Expr>, l: int)
    requires Hierarchy(P) && es == []
    ensures CompileArgs(P, cls, env, tmp, es, l) == Gen([], l)
  {
  }

  lemma {:induction false} CompileArgsMore(P: Program, cls: ClassName, env: Scope, tmp: int, es: seq<Expr>, l: int)
    requires Hierarchy(P) && es != []
    ensures var g0 := Compile(P, cls, env, tmp, es[0], l);
      var g1 := CompileArgs(P, cls, env, tmp - 1, es[1..], g0.next);
      CompileArgs(P, cls, env, tmp, es, l) == Gen(g0.code + (PUSH + g1.code), g1.next)
  {
  }

  lemma {:induction false} CompileCasesNone(P: Program, cls: ClassName, env: Scope, tmp: int, cases: seq<Branch>, esac: int, cur: int, l: int)
    requires Hierarchy(P)
    ensures CompileCases(P, cls, env, tmp, cases, [], esac, cur, l) ==
      Gen([LabelDef(Num(cur)), AbortCall(CaseNoMatch), LabelDef(Num(esac))], l)
  {
  }

  lemma {:induction false} CompileCasesMore(P: Program, cls: ClassName, env: Scope, tmp: int, cases: seq<Branch>, order: seq<nat>, esac: int, cur: int, l: int)
    requires Hierarchy(P) && order != [] && forall i :: 0 <= i < |order| ==> order[i] < |cases|
    ensures var br := cases[order[0]];
      var g0 := Compile(P, cls, env[br.x := Local(tmp)], tmp - 1, br.body, l + 1);
      var g1 := CompileCases(P, cls, env, tmp, cases, order[1..], esac, l, g0.next);
      CompileCases(P, cls, env, tmp, cases, order, esac, cur, l) ==
        Gen(BranchTest(IntervalOf(P, br.c), cur, l) + (PUSH + (g0.code + (POP + ([B(Num(esac))] + g1.code)))), g1.next)
  {
  }
}
