/** The value of each construct, one equation per construct. */
module SemanticsEquations {
  import opened CoolNames
  import opened Inheritance
  import opened CoolSyntax
  import opened Layout
  import opened ClassTags
  import opened CoolSemantics

  lemma {:induction false} EvalNoExpr(P: Program, fuel: nat, cls: ClassName, self: Value, env: Env, st: Store, e: Expr)
    requires Hierarchy(P) && e.NoExpr?
    ensures Eval(P, fuel, cls, self, env, st, e) == Val(Default(e.ty), env, st)
  {
  }

  lemma {:induction false} EvalObject(P: Program, fuel: nat, cls: ClassName, self: Value, env: Env, st: Store, e: Expr)
    requires Hierarchy(P) && e.Object?
    ensures Eval(P, fuel, cls, self, env, st, e) == ReadVar(P, cls, self, env, st, e.x)
  {
  }

  lemma {:induction false} EvalAssign(P: Program, fuel: nat, cls: ClassName, self: Value, env: Env, st: Store, e: Expr)
    requires Hierarchy(P) && e.Assign?
    ensures var o := Eval(P, fuel, cls, self, env, st, e.e);
      Eval(P, fuel, cls, self, env, st, e) == if o.Val? then WriteVar(P, cls, self, o.env, o.st, e.x, o.v) else o
  {
  }

  lemma {:induction false} EvalBlock(P: Program, fuel: nat, cls: ClassName, self: Value, env: Env, st: Store, e: Expr)
    requires Hierarchy(P) && e.Block?
    ensures Eval(P, fuel, cls, self, env, st, e) == if e.es == [] then Wrong else EvalSeq(P, fuel, cls, self, env, st, e.es)
  {
  }

  lemma {:induction false} EvalCond(P: Program, fuel: nat, cls: ClassName, self: Value, env: Env, st: Store, e: Expr)
    requires Hierarchy(P) && e.Cond?
    ensures var o := Eval(P, fuel, cls, self, env, st, e.pred);
      Eval(P, fuel, cls, self, env, st, e) ==
        if !o.Val? then o
        else if !o.v.VBool? then Wrong
        else Eval(P, fuel, cls, self, o.env, o.st, if o.v.b then e.thn else e.els)
  {
  }

  lemma {:induction false} EvalLoop(P: Program, fuel: nat, cls: ClassName, self: Value, env: Env, st: Store, e: Expr)
    requires Hierarchy(P) && e.Loop?
    ensures var o := Eval(P, fuel, cls, self, env, st, e.pred);
      Eval(P, fuel, cls, self, env, st, e) ==
        if !o.Val? then o
        else if !o.v.VBool? then Wrong
        else if !o.v.b then Val(VVoid, o.env, o.st)
        else
          var o1 := Eval(P, fuel, cls, self, o.env, o.st, e.body);
          if !o1.Val? then o1
          else if fuel == 0 then Timeout
          else Eval(P, fuel - 1, cls, self, o1.env, o1.st, e)
  {
  }

  lemma {:induction false} EvalLet(P: Program, fuel: nat, cls: ClassName, self: Value, env: Env, st: Store, e: Expr)
    requires Hierarchy(P) && e.Let?
    ensures var o := Eval(P, fuel, cls, self, env, st, e.init);
      Eval(P, fuel, cls, self, env, st, e) ==
        if !o.Val? then o
        else if e.x == SELF then Wrong
        else LeaveScope(o.env, e.x, Eval(P, fuel, cls, self, o.env[e.x := o.v], o.st, e.body))
  {
  }

  lemma {:induction false} EvalArith(P: Program, fuel: nat, cls: ClassName, self: Value, env: Env, st: Store, e: Expr)
    requires Hierarchy(P) && e.Arith?
    ensures var o := Eval(P, fuel, cls, self, env, st, e.e1);
      Eval(P, fuel, cls, self, env, st, e) ==
        if !o.Val? then o else ArithOutcome(e.op, o.v, Eval(P, fuel, cls, self, o.env, o.st, e.e2))
  {
  }

  lemma {:induction false} EvalNeg(P: Program, fuel: nat, cls: ClassName, self: Value, env: Env, st: Store, e: Expr)
    requires Hierarchy(P) && e.Neg?
    ensures Eval(P, fuel, cls, self, env, st, e) == NegOutcome(Eval(P, fuel, cls, self, env, st, e.e))
  {
  }

  lemma {:induction false} EvalCompare(P: Program, fuel: nat, cls: ClassName, self: Value, env: Env, st: Store, e: Expr)
    requires Hierarchy(P) && e.Compare?
    ensures var o := Eval(P, fuel, cls, self, env, st, e.e1);
      Eval(P, fuel, cls, self, env, st, e) ==
        if !o.Val? then o else CompareOutcome(e.cmp, o.v, Eval(P, fuel, cls, self, o.env, o.st, e.e2))
  {
  }

  lemma {:induction false} EvalComp(P: Program, fuel: nat, cls: ClassName, self: Value, env: Env, st: Store, e: Expr)
    requires Hierarchy(P) && e.Comp?
    ensures Eval(P, fuel, cls, self, env, st, e) == CompOutcome(Eval(P, fuel, cls, self, env, st, e.e))
  {
  }

  /** What follows the evaluation of the receiver of a dispatch. */
  ghost function DispatchOutcome(P: Program, fuel: nat, sc: ClassName, m: Name, vs: seq<Value>, o: Outcome): Outcome
    requires Hierarchy(P)
  {
    match o
    case Val(v0, env, st) =>
      if v0 == VVoid then Abort(DispatchVoid, st.out)
      else if fuel == 0 then Timeout
      else Return(env, CallDynamic(P, fuel - 1, sc, ClassOf(st, v0), v0, m, vs, st))
    case _ => o
  }

  ghost function StaticOutcome(P: Program, fuel: nat, c: ClassName, m: Name, vs: seq<Value>, o: Outcome): Outcome
    requires Hierarchy(P)
  {
    match o
    case Val(v0, env, st) =>
      if v0 == VVoid then Abort(DispatchVoid, st.out)
      else if fuel == 0 then Timeout
      else if !HasClass(P, ClassOf(st, v0)) || !Inherits(P, ClassOf(st, v0), c) then Wrong
      else Return(env, Call(P, fuel - 1, c, v0, m, vs, st))
    case _ => o
  }

  lemma {:induction false} EvalDispatch(P: Program, fuel: nat, cls: ClassName, self: Value, env: Env, st: Store, e: Expr)
    requires Hierarchy(P) && e.Dispatch?
    ensures var a := EvalArgs(P, fuel, cls, self, env, st, e.args);
      Eval(P, fuel, cls, self, env, st, e) ==
        if a.Stopped? then a.o
        else DispatchOutcome(P, fuel, StaticClass(e.sty, cls), e.m, a.vs, Eval(P, fuel, cls, self, a.env, a.st, e.e))
  {
  }

  lemma {:induction false} EvalStaticDispatch(P: Program, fuel: nat, cls: ClassName, self: Value, env: Env, st: Store, e: Expr)
    requires Hierarchy(P) && e.StaticDispatch?
    ensures var a := EvalArgs(P, fuel, cls, self, env, st, e.args);
      Eval(P, fuel, cls, self, env, st, e) ==
        if a.Stopped? then a.o
        else StaticOutcome(P, fuel, e.c, e.m, a.vs, Eval(P, fuel, cls, self, a.env, a.st, e.e))
  {
  }

  /** What follows the evaluation of the operand of a case. */
  ghost function CaseOutcome(P: Program, fuel: nat, cls: ClassName, self: Value, cases: seq<Branch>, o: Outcome): Outcome
    requires Hierarchy(P)
  {
    match o
    case Val(v0, env, st) =>
      if v0 == VVoid then Abort(CaseVoid, st.out)
      else if ClassOf(st, v0) !in P.classes || !GoodBranches(P, CaseTypes(cases)) then Wrong
      else
        var i := Closest(P, ClassOf(st, v0), CaseTypes(cases));
        if i == -1 then Abort(CaseNoMatch, st.out)
        else BranchOutcome(P, fuel, cls, self, env, st, v0, cases[i])
    case _ => o
  }

  /** The branch `br` runs with its variable bound to `v0`. */
  ghost function BranchOutcome(P: Program, fuel: nat, cls: ClassName, self: Value, env: Env, st: Store, v0: Value, br: Branch): Outcome
    requires Hierarchy(P)
  {
    if br.x == SELF then Wrong
    else LeaveScope(env, br.x, Eval(P, fuel, cls, self, env[br.x := v0], st, br.body))
  }

  lemma {:induction false} EvalTypCase(P: Program, fuel: nat, cls: ClassName, self: Value, env: Env, st: Store, e: Expr)
    requires Hierarchy(P) && e.TypCase?
    ensures Eval(P, fuel, cls, self, env, st, e) == CaseOutcome(P, fuel, cls, self, e.cases, Eval(P, fuel, cls, self, env, st, e.e))
  {
  }

  lemma {:induction false} EvalNew(P: Program, fuel: nat, cls: ClassName, self: Value, env: Env, st: Store, e: Expr)
    requires Hierarchy(P) && e.New?
    ensures Eval(P, fuel, cls, self, env, st, e) == if fuel == 0 then Timeout else Return(env, Create(P, fuel - 1, e.c, st))
  {
  }

  lemma {:induction false} EvalNewSelf(P: Program, fuel: nat, cls: ClassName, self: Value, env: Env, st: Store, e: Expr)
    requires Hierarchy(P) && e.NewSelf?
    ensures Eval(P, fuel, cls, self, env, st, e) ==
      if fuel == 0 then Timeout
      else if !self.VObj? then Wrong
      else Return(env, Create(P, fuel - 1, ClassOf(st, self), st))
  {
  }

  lemma {:induction false} EvalIntConst(P: Program, fuel: nat, cls: ClassName, self: Value, env: Env, st: Store, e: Expr)
    requires Hierarchy(P) && e.IntConst?
    ensures Eval(P, fuel, cls, self, env, st, e) == if InRange(e.n) then Val(VInt(e.n), env, st) else Wrong
  {
  }

  lemma {:induction false} EvalBoolConst(P: Program, fuel: nat, cls: ClassName, self: Value, env: Env, st: Store, e: Expr)
    requires Hierarchy(P) && e.BoolConst?
    ensures Eval(P, fuel, cls, self, env, st, e) == Val(VBool(e.b), env, st)
  {
  }

  lemma {:induction false} EvalStrConst(P: Program, fuel: nat, cls: ClassName, self: Value, env: Env, st: Store, e: Expr)
    requires Hierarchy(P) && e.StrConst?
    ensures Eval(P, fuel, cls, self, env, st, e) == Val(VStr(e.s), env, st)
  {
  }

  lemma {:induction false} EvalSeqMore(P: Program, fuel: nat, cls: ClassName, self: Value, env: Env, st: Store, es: seq<Expr>)
    requires Hierarchy(P) && es != []
    ensures var o := Eval(P, fuel, cls, self, env, st, es[0]);
      EvalSeq(P, fuel, cls, self, env, st, es) ==
        if !o.Val? || |es| == 1 then o else EvalSeq(P, fuel, cls, self, o.env, o.st, es[1..])
  {
  }

  lemma {:induction false} EvalArgsNone(P: Program, fuel: nat, cls: ClassName, self: Value, env: Env, st: Store, es: seq<Expr>)
    requires Hierarchy(P) && es == []
    ensures EvalArgs(P, fuel, cls, self, env, st, es) == Args([], env, st)
  {
  }

  /** The first argument's outcome, then that of the others. */
  function ConsArgs(v: Value, a: ArgsOutcome): ArgsOutcome {
    match a
    case Args(vs, env, st) => Args([v] + vs, env, st)
    case _ => a
  }

  lemma {:induction false} EvalArgsMore(P: Program, fuel: nat, cls: ClassName, self: Value, env: Env, st: Store, es: seq<Expr>)
    requires Hierarchy(P) && es != []
    ensures var o := Eval(P, fuel, cls, self, env, st, es[0]);
      EvalArgs(P, fuel, cls, self, env, st, es) ==
        if !o.Val? then Stopped(o) else ConsArgs(o.v, EvalArgs(P, fuel, cls, self, o.env, o.st, es[1..]))
  {
  }

  lemma {:induction false} ArgsCount(P: Program, fuel: nat, cls: ClassName, self: Value, env: Env, st: Store, es: seq<Expr>)
    requires Hierarchy(P)
    ensures var a := EvalArgs(P, fuel, cls, self, env, st, es);
      if a.Stopped? then !a.o.Val? else |a.vs| == |es|
    decreases |es|
  {
    if es == [] {
      EvalArgsNone(P, fuel, cls, self, env, st, es);
    } else {
      EvalArgsMore(P, fuel, cls, self, env, st, es);
      var o := Eval(P, fuel, cls, self, env, st, es[0]);
      if o.Val? {
        ArgsCount(P, fuel, cls, self, o.env, o.st, es[1..]);
      }
    }
  }
}
