/** Each construct, given the runs of its sub-expressions. */
module SimConstructs {
  import opened CoolNames
  import opened Inheritance
  import opened CoolSyntax
  import opened Layout
  import opened ClassTags
  import opened CoolSemantics
  import opened Mips
  import opened CodeGen
  import opened SimRel
  import opened SimFrame
  import opened SimSteps
  import opened SimVars
  import opened SimCalls
  import opened SimObjects
  import opened SimScopes
  import opened SimFinish
  import opened SimDispatch

  /** Where the code ends does not matter to an evaluation that does not end normally. */
  lemma Stops(k: Ctx, fuel: nat, cls: ClassName, self: Value, scope: Scope, tmp: int, inj: Inj, st: Store, s: State, len0: nat, len: nat, o: Outcome, r: Run)
    requires Hierarchy(k.P) && !o.Val? && Good(k, fuel, cls, self, scope, tmp, inj, st, s, len0, o, r)
    ensures Good(k, fuel, cls, self, scope, tmp, inj, st, s, len, o, r)
  {
  }

  lemma WrongGood(k: Ctx, fuel: nat, cls: ClassName, self: Value, scope: Scope, tmp: int, inj: Inj, st: Store, s: State, len: nat, r: Run)
    requires Hierarchy(k.P)
    ensures Good(k, fuel, cls, self, scope, tmp, inj, st, s, len, Wrong, r)
  {
  }

  lemma TimeoutGood(k: Ctx, cls: ClassName, self: Value, scope: Scope, tmp: int, inj: Inj, st: Store, s: State, len: nat) returns (r: Run)
    requires Hierarchy(k.P)
    ensures Good(k, 0, cls, self, scope, tmp, inj, st, s, len, Timeout, r)
  {
    RunsNone(k.img, s);
    r := Run(0, s, inj);
  }

  // ---------------------------------------------------------------------------------------------
  // Constants, variables, assignment.

  /** One instruction that puts the word of a value in $a0. */
  lemma LoadAddress(k: Ctx, fuel: nat, cls: ClassName, self: Value, scope: Scope, tmp: int, env: Env, st: Store, inj: Inj, s: State, code: seq<Instr>, w: Word, v: Value) returns (r: Run)
    requires Hierarchy(k.P) && Rel(k.P, cls, self, scope, tmp, env, st, inj, s) && CodeAt(k.img.text, s.pc, code)
    requires (w.Ref? && code == [La(ACC, w.r)]) || (w == I(0) && code == [Move(ACC, ZERO)])
    requires ValRel(k.P, inj, s.heap, v, w)
    ensures Good(k, fuel, cls, self, scope, tmp, inj, st, s, 1, Val(v, env, st), r)
  {
    hide OK, WellFormed, ImageOK, Hierarchy;
    Fetch(k.img, s.pc, code, 0);
    var t := s.(pc := s.pc + 1, acc := w);
    RunsOne(k.img, s, t);
    QuietPost(k.P, cls, self, scope, tmp, env, st, inj, s, v, t);
    r := Run(1, t, inj);
  }

  lemma ConstCase(k: Ctx, fuel: nat, cls: ClassName, self: Value, scope: Scope, tmp: int, env: Env, st: Store, inj: Inj, s: State, e: Expr, code: seq<Instr>, ref: ObjRef, v: Value) returns (r: Run)
    requires Hierarchy(k.P) && Rel(k.P, cls, self, scope, tmp, env, st, inj, s) && CodeAt(k.img.text, s.pc, code)
    requires code == [La(ACC, ref)]
    requires match e
      case IntConst(n) => ref == IntObj(n) && v == VInt(n)
      case BoolConst(b) => ref == BoolObj(b) && v == VBool(b)
      case StrConst(x) => ref == StrObj(x) && v == VStr(x)
      case _ => false
    ensures Good(k, fuel, cls, self, scope, tmp, inj, st, s, 1, Val(v, env, st), r)
  {
    match e {
      case IntConst(n) => IntConstRel(k.P, inj, s.heap, s.next, st.objs, n);
      case BoolConst(b) => BoolConstRel(k.P, inj, s.heap, s.next, st.objs, b);
      case StrConst(x) => StrConstRel(k.P, inj, s.heap, s.next, st.objs, x);
    }
    r := LoadAddress(k, fuel, cls, self, scope, tmp, env, st, inj, s, code, Ref(ref), v);
  }

  lemma DefaultCase(k: Ctx, fuel: nat, cls: ClassName, self: Value, scope: Scope, tmp: int, env: Env, st: Store, inj: Inj, s: State, ty: StaticType) returns (r: Run)
    requires Hierarchy(k.P) && Rel(k.P, cls, self, scope, tmp, env, st, inj, s) && CodeAt(k.img.text, s.pc, DefaultCode(ty))
    ensures Good(k, fuel, cls, self, scope, tmp, inj, st, s, |DefaultCode(ty)|, Val(Default(ty), env, st), r)
  {
    InjDynSet(k.P, inj, s.heap, s.next, st.objs);
    DefaultRel(k.P, inj, s.heap, ty);
    r := LoadAddress(k, fuel, cls, self, scope, tmp, env, st, inj, s, DefaultCode(ty), DefaultWord(ty), Default(ty));
  }

  lemma ObjectCase(k: Ctx, fuel: nat, cls: ClassName, self: Value, scope: Scope, tmp: int, env: Env, st: Store, inj: Inj, s: State, x: Name, code: seq<Instr>) returns (r: Run)
    requires Hierarchy(k.P) && Rel(k.P, cls, self, scope, tmp, env, st, inj, s) && CodeAt(k.img.text, s.pc, code)
    requires code == if x == SELF then [Move(ACC, SELFR)] else [LoadVar(scope, x)]
    ensures Good(k, fuel, cls, self, scope, tmp, inj, st, s, |code|, ReadVar(k.P, cls, self, env, st, x), r)
  {
    r := Run(0, s, inj);
    if ReadVar(k.P, cls, self, env, st, x).Val? {
      var t := ReadRun(k, cls, self, scope, tmp, env, st, inj, s, x, code);
      r := Run(1, t, inj);
    }
  }

  lemma AssignCase(k: Ctx, fuel: nat, cls: ClassName, self: Value, scope: Scope, tmp: int, inj: Inj, st: Store, s: State, len: nat, x: Name, o: Outcome, r0: Run) returns (r: Run)
    requires OK(k) && Hierarchy(k.P) && Good(k, fuel, cls, self, scope, tmp, inj, st, s, len, o, r0)
    requires CodeAt(k.img.text, s.pc + len, [StoreVar(scope, x)])
    ensures Good(k, fuel, cls, self, scope, tmp, inj, st, s, len + 1,
                 if o.Val? then WriteVar(k.P, cls, self, o.env, o.st, x, o.v) else o, r)
  {
    hide OK, ImageOK, WellFormed, Hierarchy, HeapRel, ValRel, Runs, Halts, CodeAt, StoreVar, AttrInScope;
    r := r0;
    if o.Val? {
      var w := WriteVar(k.P, cls, self, o.env, o.st, x, o.v);
      if w.Val? {
        var t := WriteRun(k, cls, self, scope, tmp, o.env, o.st, r.inj, r.t, x, o.v);
        r := GoodThen(k, fuel, cls, self, scope, tmp, inj, st, s, o.env, o.st, r, 1, len + 1, w, Run(1, t, r.inj));
      }
    }
  }

  // ---------------------------------------------------------------------------------------------
  // Operators.

  lemma ArithCase(k: Ctx, fuel: nat, cls: ClassName, self: Value, scope: Scope, tmp: int, inj: Inj, st: Store, s: State, len: nat, op: ArithOp, a: Value, o: Outcome, m: nat, r1: Run) returns (r: Run)
    requires OK(k) && Hierarchy(k.P) && (!o.Val? ==> Finishes(k, fuel, s, o, r1))
    requires o.Val? ==> OperandsDone(k, cls, self, scope, tmp, inj, st, s, len, a, o, m, r1) && CodeAt(k.img.text, r1.t.pc, ArithTail(k.P, op))
    ensures Good(k, fuel, cls, self, scope, tmp, inj, st, s, len + 7, ArithOutcome(op, a, o), r)
  {
    r := r1;
    if o.Val? && a.VInt? && o.v.VInt? {
      r := ArithFinish(k, fuel, cls, self, scope, tmp, inj, st, s, op, a.n, o.v.n, o.env, o.st, m, r1, len + 7);
    }
  }

  lemma CompareCase(k: Ctx, fuel: nat, cls: ClassName, self: Value, scope: Scope, tmp: int, inj: Inj, st: Store, s: State, len: nat, cmp: CmpOp, end: int, a: Value, o: Outcome, m: nat, r1: Run) returns (r: Run)
    requires OK(k) && Hierarchy(k.P) && (!o.Val? ==> Finishes(k, fuel, s, o, r1))
    requires o.Val? ==> OperandsDone(k, cls, self, scope, tmp, inj, st, s, len, a, o, m, r1) && CodeAt(k.img.text, r1.t.pc, CompareTail(cmp, end))
    ensures Good(k, fuel, cls, self, scope, tmp, inj, st, s, len + 8, CompareOutcome(cmp, a, o), r)
  {
    r := r1;
    if o.Val? && a.VInt? && o.v.VInt? {
      r := CompareFinish(k, fuel, cls, self, scope, tmp, inj, st, s, cmp, end, a.n, o.v.n, o.env, o.st, m, r1, len + 8);
    }
  }

  lemma NegCase(k: Ctx, fuel: nat, cls: ClassName, self: Value, scope: Scope, tmp: int, inj: Inj, st: Store, s: State, len: nat, o: Outcome, r0: Run) returns (r: Run)
    requires OK(k) && Hierarchy(k.P) && CodeAt(k.img.text, s.pc + len, NegTail(k.P))
    requires Good(k, fuel, cls, self, scope, tmp, inj, st, s, len, o, r0)
    ensures Good(k, fuel, cls, self, scope, tmp, inj, st, s, len + 4, NegOutcome(o), r)
  {
    r := r0;
    if o.Val? && o.v.VInt? {
      r := NegFinish(k, fuel, cls, self, scope, tmp, inj, st, s, o.v.n, o.env, o.st, r0, len + 4);
    }
  }

  lemma CompCase(k: Ctx, fuel: nat, cls: ClassName, self: Value, scope: Scope, tmp: int, inj: Inj, st: Store, s: State, len: nat, no: int, end: int, o: Outcome, r0: Run) returns (r: Run)
    requires OK(k) && Hierarchy(k.P)
    requires CodeAt(k.img.text, s.pc + len, CompTail(no, end))
    requires Good(k, fuel, cls, self, scope, tmp, inj, st, s, len, o, r0)
    ensures Good(k, fuel, cls, self, scope, tmp, inj, st, s, len + 7, CompOutcome(o), r)
  {
    r := r0;
    if o.Val? && o.v.VBool? {
      r := CompFinish(k, fuel, cls, self, scope, tmp, inj, st, s, no, end, o.v.b, o.env, o.st, r0, len + 7);
    }
  }

  // ---------------------------------------------------------------------------------------------
  // Conditionals and loops.

  lemma Unique(k: Ctx)
    requires OK(k)
    ensures UniqueLabels(k.img.text)
  {
  }

  lemma GoodVal(k: Ctx, fuel: nat, cls: ClassName, self: Value, scope: Scope, tmp: int, inj: Inj, st: Store, s: State, len: nat, o: Outcome, r: Run)
    requires Hierarchy(k.P) && o.Val? && Good(k, fuel, cls, self, scope, tmp, inj, st, s, len, o, r)
    ensures Runs(k.img, r.n, s, r.t) && r.t.pc == s.pc + len
    ensures Post(k.P, cls, self, scope, tmp, inj, st, s, o.v, o.env, o.st, r.inj, r.t)
    ensures Mid(k.P, cls, self, scope, tmp, inj, st, s, o.env, o.st, r.inj, r.t)
    ensures Rel(k.P, cls, self, scope, tmp, o.env, o.st, r.inj, r.t) && ValRel(k.P, r.inj, r.t.heap, o.v, r.t.acc)
    ensures r.t.sp.Stk? && r.t.fp.Stk?
  {
  }

  lemma QuietStep(s: State, pc: nat)
    ensures Quiet(s, s.(pc := pc))
  {
  }

  /** The predicate has been evaluated and tested; the machine is at the code that it selects. */
  lemma TestCase(k: Ctx, fuel: nat, cls: ClassName, self: Value, scope: Scope, tmp: int, inj: Inj, st: Store, s: State, len0: nat, l: int, o: Outcome, r0: Run, pc: nat) returns (q: Run)
    requires OK(k) && Hierarchy(k.P) && o.Val? && o.v.VBool?
    requires Good(k, fuel, cls, self, scope, tmp, inj, st, s, len0, o, r0)
    requires CodeAt(k.img.text, s.pc + len0, TestFalse(l)) && CodeAt(k.img.text, pc, [LabelDef(Num(l))])
    ensures Runs(k.img, q.n, s, q.t) && Mid(k.P, cls, self, scope, tmp, inj, st, s, o.env, o.st, q.inj, q.t)
    ensures q.t.pc == (if o.v.b then s.pc + len0 + 2 else pc + 1) && q.t.acc == BoolWord(o.v.b)
  {
    hide *;
    Unique(k);
    GoodVal(k, fuel, cls, self, scope, tmp, inj, st, s, len0, o, r0);
    Fetch(k.img, pc, [LabelDef(Num(l))], 0);
    q := TestFinish(k, cls, self, scope, tmp, inj, st, s, l, o.v.b, o.env, o.st, r0, pc);
    if !o.v.b {
      LabelStep(k.img, q.t, Num(l));
      QuietStep(q.t, pc + 1);
      q := Skip(k, cls, self, scope, tmp, inj, st, s, o.env, o.st, q, 1, q.t.(pc := pc + 1));
    }
  }

  /** From a point between two parts of a construct, on to another. */
  lemma Skip(k: Ctx, cls: ClassName, self: Value, scope: Scope, tmp: int, inj: Inj, st: Store, s: State, env1: Env, st1: Store, r1: Run, n: nat, u: State) returns (q: Run)
    requires Hierarchy(k.P) && Runs(k.img, r1.n, s, r1.t) && Mid(k.P, cls, self, scope, tmp, inj, st, s, env1, st1, r1.inj, r1.t)
    requires (Runs(k.img, n, r1.t, u) || (n == 1 && Step(k.img, r1.t) == Go(u))) && Quiet(r1.t, u)
    ensures q == Run(r1.n + n, u, r1.inj) && Runs(k.img, q.n, s, u) && Mid(k.P, cls, self, scope, tmp, inj, st, s, env1, st1, q.inj, u)
  {
    MidQuiet(k.P, cls, self, scope, tmp, inj, st, s, env1, st1, r1.inj, r1.t, u);
    if !Runs(k.img, n, r1.t, u) {
      RunsOne(k.img, r1.t, u);
    }
    RunsTrans(k.img, r1.n, n, s, r1.t, u);
    q := Run(r1.n + n, u, r1.inj);
  }

  /** A part, an expression, and a jump or fall to the end of the construct. */
  lemma PartThenMove(k: Ctx, fuel: nat, cls: ClassName, self: Value, scope: Scope, tmp: int, inj: Inj, st: Store, s: State, env1: Env, st1: Store, q: Run, len1: nat, o: Outcome, r1: Run, n: nat, len: nat) returns (r: Run)
    requires Hierarchy(k.P) && Runs(k.img, q.n, s, q.t) && Mid(k.P, cls, self, scope, tmp, inj, st, s, env1, st1, q.inj, q.t)
    requires Good(k, fuel, cls, self, scope, tmp, q.inj, st1, q.t, len1, o, r1)
    requires o.Val? ==> Runs(k.img, n, r1.t, r1.t.(pc := s.pc + len))
    ensures Good(k, fuel, cls, self, scope, tmp, inj, st, s, len, o, r)
  {
    if o.Val? {
      var q1 := GoodThenVal(k, cls, self, scope, tmp, inj, st, s, env1, st1, q, o, r1);
      r := PostMove(k, cls, self, scope, tmp, inj, st, s, o, q1, r1.t, n, len);
    } else {
      r := FinishesAfter(k, fuel, s, q.n, q.t, o, r1);
    }
  }

  lemma PostMove(k: Ctx, cls: ClassName, self: Value, scope: Scope, tmp: int, inj: Inj, st: Store, s: State, o: Outcome, q: Run, t: State, n: nat, len: nat) returns (r: Run)
    requires Hierarchy(k.P) && o.Val? && Runs(k.img, q.n, s, q.t) && q.t == t
    requires Post(k.P, cls, self, scope, tmp, inj, st, s, o.v, o.env, o.st, q.inj, q.t)
    requires Runs(k.img, n, t, t.(pc := s.pc + len))
    ensures Runs(k.img, r.n, s, r.t) && r.t.pc == s.pc + len
    ensures Post(k.P, cls, self, scope, tmp, inj, st, s, o.v, o.env, o.st, r.inj, r.t)
  {
    r := Skip(k, cls, self, scope, tmp, inj, st, s, o.env, o.st, q, n, t.(pc := s.pc + len));
  }

  /** The chosen branch of a conditional, and the way to the end. */
  lemma CondDone(k: Ctx, fuel: nat, cls: ClassName, self: Value, scope: Scope, tmp: int, inj: Inj, st: Store, s: State, env1: Env, st1: Store, q: Run, len1: nat, o: Outcome, r1: Run, b: bool, l: int, end: nat, len: nat) returns (r: Run)
    requires OK(k) && Hierarchy(k.P)
    requires Runs(k.img, q.n, s, q.t) && Mid(k.P, cls, self, scope, tmp, inj, st, s, env1, st1, q.inj, q.t)
    requires Good(k, fuel, cls, self, scope, tmp, q.inj, st1, q.t, len1, o, r1)
    requires CodeAt(k.img.text, end, [LabelDef(Num(l))]) && end + 1 == s.pc + len
    requires if b then CodeAt(k.img.text, q.t.pc + len1, [B(Num(l))]) else q.t.pc + len1 == end
    ensures Good(k, fuel, cls, self, scope, tmp, inj, st, s, len, o, r)
  {
    hide *;
    Unique(k);
    if o.Val? {
      GoodVal(k, fuel, cls, self, scope, tmp, q.inj, st1, q.t, len1, o, r1);
      if b {
        BranchRun(k, r1.t, Num(l), end);
      } else {
        LabelRun(k.img, r1.t, Num(l));
      }
    }
    r := PartThenMove(k, fuel, cls, self, scope, tmp, inj, st, s, env1, st1, q, len1, o, r1, if b then 2 else 1, len);
  }

  /** A part that ends normally, then one that does not. */
  lemma PartStops(k: Ctx, fuel: nat, cls: ClassName, self: Value, scope: Scope, tmp: int, inj: Inj, st: Store, s: State, env1: Env, st1: Store, q: Run, len1: nat, o: Outcome, r1: Run, len: nat) returns (r: Run)
    requires Hierarchy(k.P) && Runs(k.img, q.n, s, q.t) && !o.Val?
    requires Good(k, fuel, cls, self, scope, tmp, q.inj, st1, q.t, len1, o, r1)
    ensures Good(k, fuel, cls, self, scope, tmp, inj, st, s, len, o, r)
  {
    r := FinishesAfter(k, fuel, s, q.n, q.t, o, r1);
  }

  /** Quiet steps at the start of a construct. */
  lemma StartQuiet(k: Ctx, cls: ClassName, self: Value, scope: Scope, tmp: int, env: Env, st: Store, inj: Inj, s: State, n: nat, u: State) returns (q: Run)
    requires Hierarchy(k.P) && Rel(k.P, cls, self, scope, tmp, env, st, inj, s) && Runs(k.img, n, s, u) && Quiet(s, u)
    ensures q == Run(n, u, inj) && Mid(k.P, cls, self, scope, tmp, inj, st, s, env, st, inj, u)
    ensures Rel(k.P, cls, self, scope, tmp, env, st, inj, u)
  {
    QuietRel(k.P, cls, self, scope, tmp, env, st, inj, s, u);
    q := Run(n, u, inj);
  }

  /** Two parts in sequence. */
  lemma PartTrans(k: Ctx, cls: ClassName, self: Value, scope: Scope, tmp: int, inj: Inj, st: Store, s: State, env1: Env, st1: Store, q1: Run, env2: Env, st2: Store, q2: Run) returns (q: Run)
    requires Hierarchy(k.P)
    requires Runs(k.img, q1.n, s, q1.t) && Mid(k.P, cls, self, scope, tmp, inj, st, s, env1, st1, q1.inj, q1.t)
    requires Runs(k.img, q2.n, q1.t, q2.t) && Mid(k.P, cls, self, scope, tmp, q1.inj, st1, q1.t, env2, st2, q2.inj, q2.t)
    ensures q == q2.(n := q1.n + q2.n)
    ensures Runs(k.img, q.n, s, q.t) && Mid(k.P, cls, self, scope, tmp, inj, st, s, env2, st2, q.inj, q.t)
    ensures Rel(k.P, cls, self, scope, tmp, env2, st2, q.inj, q.t)
  {
    q := q2.(n := q1.n + q2.n);
    MidTrans(k.P, cls, self, scope, tmp, inj, st, s, env1, st1, q1.inj, q1.t, env2, st2, q2.inj, q2.t);
    RunsTrans(k.img, q1.n, q2.n, s, q1.t, q2.t);
  }

  /** A construct whose value is in $a0 when its last part ends. */
  lemma PartValue(k: Ctx, fuel: nat, cls: ClassName, self: Value, scope: Scope, tmp: int, inj: Inj, st: Store, s: State, env1: Env, st1: Store, q: Run, v: Value, len: nat)
    requires Hierarchy(k.P) && Runs(k.img, q.n, s, q.t) && Mid(k.P, cls, self, scope, tmp, inj, st, s, env1, st1, q.inj, q.t)
    requires ValRel(k.P, q.inj, q.t.heap, v, q.t.acc) && q.t.pc == s.pc + len
    ensures Good(k, fuel, cls, self, scope, tmp, inj, st, s, len, Val(v, env1, st1), q)
  {
  }

  /** The label in front of a loop. */
  lemma LoopEnter(k: Ctx, cls: ClassName, self: Value, scope: Scope, tmp: int, env: Env, st: Store, inj: Inj, s: State, l: int) returns (q: Run)
    requires Hierarchy(k.P) && Rel(k.P, cls, self, scope, tmp, env, st, inj, s) && CodeAt(k.img.text, s.pc, [LabelDef(Num(l))])
    ensures q == Run(1, s.(pc := s.pc + 1), inj) && Runs(k.img, 1, s, q.t)
    ensures Mid(k.P, cls, self, scope, tmp, inj, st, s, env, st, inj, q.t)
    ensures Rel(k.P, cls, self, scope, tmp, env, st, inj, q.t)
  {
    hide *;
    Fetch(k.img, s.pc, [LabelDef(Num(l))], 0);
    LabelStep(k.img, s, Num(l));
    QuietStep(s, s.pc + 1);
    RunsOne(k.img, s, s.(pc := s.pc + 1));
    q := StartQuiet(k, cls, self, scope, tmp, env, st, inj, s, 1, s.(pc := s.pc + 1));
  }

  lemma JumpStep(img: Image, s: State, l: Label)
    requires s.pc < |img.text| && img.text[s.pc] == B(l)
    ensures Step(img, s) == Go(s.(pc := Find(img.text, l))) && Quiet(s, s.(pc := Find(img.text, l)))
  {
  }

  /** The body of a loop, and the jump back to its label. */
  lemma LoopAgain(k: Ctx, fuel: nat, cls: ClassName, self: Value, scope: Scope, tmp: int, inj: Inj, st: Store, s: State, env1: Env, st1: Store, q: Run, len1: nat, o: Outcome, r1: Run, l: int) returns (q2: Run)
    requires OK(k) && Hierarchy(k.P) && o.Val?
    requires Runs(k.img, q.n, s, q.t) && Mid(k.P, cls, self, scope, tmp, inj, st, s, env1, st1, q.inj, q.t)
    requires Good(k, fuel, cls, self, scope, tmp, q.inj, st1, q.t, len1, o, r1)
    requires CodeAt(k.img.text, q.t.pc + len1, [B(Num(l))]) && CodeAt(k.img.text, s.pc, [LabelDef(Num(l))])
    ensures q2.n > 0 && q2.t.pc == s.pc && Runs(k.img, q2.n, s, q2.t)
    ensures Mid(k.P, cls, self, scope, tmp, inj, st, s, o.env, o.st, q2.inj, q2.t)
    ensures Rel(k.P, cls, self, scope, tmp, o.env, o.st, q2.inj, q2.t)
  {
    hide *;
    Unique(k);
    GoodVal(k, fuel, cls, self, scope, tmp, q.inj, st1, q.t, len1, o, r1);
    q2 := PartTrans(k, cls, self, scope, tmp, inj, st, s, env1, st1, q, o.env, o.st, r1);
    Fetch(k.img, q2.t.pc, [B(Num(l))], 0);
    Fetch(k.img, s.pc, [LabelDef(Num(l))], 0);
    LabelHere(k, s.pc, Num(l));
    JumpStep(k.img, q2.t, Num(l));
    q2 := Skip(k, cls, self, scope, tmp, inj, st, s, o.env, o.st, q2, 1, q2.t.(pc := s.pc));
    MidRel(k, cls, self, scope, tmp, inj, st, s, o.env, o.st, q2);
  }

  lemma MidRel(k: Ctx, cls: ClassName, self: Value, scope: Scope, tmp: int, inj: Inj, st: Store, s: State, env1: Env, st1: Store, q: Run)
    requires Hierarchy(k.P) && Mid(k.P, cls, self, scope, tmp, inj, st, s, env1, st1, q.inj, q.t)
    ensures Rel(k.P, cls, self, scope, tmp, env1, st1, q.inj, q.t)
  {
  }

  /** The rest of a loop, which the interpreter evaluates with one unit of fuel less. */
  lemma LoopDone(k: Ctx, fuel: nat, cls: ClassName, self: Value, scope: Scope, tmp: int, inj: Inj, st: Store, s: State, env1: Env, st1: Store, q: Run, len: nat, o: Outcome, r1: Run) returns (r: Run)
    requires Hierarchy(k.P) && fuel > 0 && q.n > 0 && q.t.pc == s.pc
    requires Runs(k.img, q.n, s, q.t) && Mid(k.P, cls, self, scope, tmp, inj, st, s, env1, st1, q.inj, q.t)
    requires Good(k, fuel - 1, cls, self, scope, tmp, q.inj, st1, q.t, len, o, r1)
    ensures Good(k, fuel, cls, self, scope, tmp, inj, st, s, len, o, r)
  {
    if o.Val? {
      r := GoodThenVal(k, cls, self, scope, tmp, inj, st, s, env1, st1, q, o, r1);
    } else {
      r := FinishesAfterStep(k, fuel, s, q.n, q.t, o, r1);
    }
  }

  // ---------------------------------------------------------------------------------------------
  // Scopes.

  /** The value in $a0 is pushed and becomes the variable `x`. */
  lemma ScopeEnter(k: Ctx, cls: ClassName, self: Value, scope: Scope, tmp: int, env: Env, st: Store, inj: Inj, s: State, x: Name, v: Value) returns (s2: State)
    requires Hierarchy(k.P) && Rel(k.P, cls, self, scope, tmp, env, st, inj, s) && ValRel(k.P, inj, s.heap, v, s.acc)
    requires x != SELF && CodeAt(k.img.text, s.pc, PUSH)
    ensures Runs(k.img, 2, s, s2) && Pushed(s, s.acc, s2) && s2.pc == s.pc + 2
    ensures Rel(k.P, cls, self, scope[x := Local(tmp)], tmp - 1, env[x := v], st, inj, s2)
  {
    PushRun(k.img, s);
    s2 := PushState(s, s.acc);
    BindRel(k.P, cls, self, scope, tmp, env, st, inj, s, x, v, s2);
  }

  /** The body of the scope of `x` and the pop behind it. */
  lemma ScopeDone(k: Ctx, fuel: nat, cls: ClassName, self: Value, scope: Scope, tmp: int, env: Env, st: Store, inj: Inj, s: State, x: Name, s2: State, len1: nat, o: Outcome, r1: Run) returns (r: Run)
    requires Hierarchy(k.P) && Rel(k.P, cls, self, scope, tmp, env, st, inj, s)
    requires Runs(k.img, 2, s, s2) && Pushed(s, s.acc, s2) && s2.pc == s.pc + 2
    requires Good(k, fuel, cls, self, scope[x := Local(tmp)], tmp - 1, inj, st, s2, len1, o, r1)
    requires CodeAt(k.img.text, s.pc + 2 + len1, POP)
    ensures Good(k, fuel, cls, self, scope, tmp, inj, st, s, 3 + len1, LeaveScope(env, x, o), r)
  {
    if o.Val? {
      r := ScopeFinish(k, cls, self, scope, tmp, env, st, inj, s, x, s2, 2, o.v, o.env, o.st, r1);
    } else {
      r := FinishesAfter(k, fuel, s, 2, s2, o, r1);
    }
  }

  /** A part that ends normally, then an expression up to the end of the construct. */
  lemma PartThen(k: Ctx, fuel: nat, cls: ClassName, self: Value, scope: Scope, tmp: int, inj: Inj, st: Store, s: State, len0: nat, o0: Outcome, r0: Run, len1: nat, o: Outcome, r1: Run) returns (r: Run)
    requires Hierarchy(k.P) && o0.Val? && Good(k, fuel, cls, self, scope, tmp, inj, st, s, len0, o0, r0)
    requires Good(k, fuel, cls, self, scope, tmp, r0.inj, o0.st, r0.t, len1, o, r1)
    ensures Good(k, fuel, cls, self, scope, tmp, inj, st, s, len0 + len1, o, r)
  {
    hide *;
    GoodVal(k, fuel, cls, self, scope, tmp, inj, st, s, len0, o0, r0);
    r := GoodThen(k, fuel, cls, self, scope, tmp, inj, st, s, o0.env, o0.st, r0, len1, len0 + len1, o, r1);
  }

  lemma LoopExit(k: Ctx, fuel: nat, cls: ClassName, self: Value, scope: Scope, tmp: int, inj: Inj, st: Store, s: State, env1: Env, st1: Store, q: Run, len: nat)
    requires Hierarchy(k.P) && Runs(k.img, q.n, s, q.t) && Mid(k.P, cls, self, scope, tmp, inj, st, s, env1, st1, q.inj, q.t)
    requires q.t.acc == BoolWord(false) && q.t.pc == s.pc + len
    ensures Good(k, fuel, cls, self, scope, tmp, inj, st, s, len, Val(VVoid, env1, st1), q)
  {
    PartValue(k, fuel, cls, self, scope, tmp, inj, st, s, env1, st1, q, VVoid, len);
  }

  lemma Pushes(s: State, t: State)
    requires s.sp.Stk? && t == PushState(s, s.acc)
    ensures t.pc == s.pc + 2 && Pushed(s, s.acc, t)
  {
  }

  lemma OperandsAt(k: Ctx, cls: ClassName, self: Value, scope: Scope, tmp: int, inj: Inj, st: Store, s: State, len: nat, a: Value, o: Outcome, m: nat, r: Run)
    requires Hierarchy(k.P) && o.Val? && OperandsDone(k, cls, self, scope, tmp, inj, st, s, len, a, o, m, r)
    ensures r.t.pc == s.pc + len
  {
  }

  // ---------------------------------------------------------------------------------------------
  // The pieces of the emitted code.

  lemma TailSizes(P: Program, op: ArithOp, cmp: CmpOp, l: int, l1: int, c: ClassName, m: Name)
    requires Hierarchy(P)
    ensures |ArithTail(P, op)| == 7 && |NegTail(P)| == 4 && |CompareTail(cmp, l)| == 8 && |CompTail(l, l1)| == 7
    ensures |PUSH| == 2 && |POP| == 1 && |TestFalse(l)| == 2
    ensures |DispatchTail(P, c, m, l)| == 8 && |StaticDispatchTail(P, c, m, l)| == 6
  {
  }

  lemma SplitOperands(text: seq<Instr>, pc: nat, c0: seq<Instr>, c1: seq<Instr>, tail: seq<Instr>)
    requires CodeAt(text, pc, c0 + (PUSH + (c1 + tail)))
    ensures CodeAt(text, pc, c0) && CodeAt(text, pc + |c0|, PUSH)
    ensures CodeAt(text, pc + |c0| + 2, c1) && CodeAt(text, pc + |c0| + 2 + |c1|, tail)
    ensures |PUSH| == 2 && |POP| == 1
  {
    CodeSplit(text, pc, c0, PUSH + (c1 + tail));
    CodeSplit(text, pc + |c0|, PUSH, c1 + tail);
    CodeSplit(text, pc + |c0| + 2, c1, tail);
  }

  lemma SplitCond(text: seq<Instr>, pc: nat, c0: seq<Instr>, l: int, c1: seq<Instr>, c2: seq<Instr>)
    requires CodeAt(text, pc, c0 + (TestFalse(l) + (c1 + ([B(Num(l + 1)), LabelDef(Num(l))] + (c2 + [LabelDef(Num(l + 1))])))))
    ensures CodeAt(text, pc, c0) && CodeAt(text, pc + |c0|, TestFalse(l)) && |TestFalse(l)| == 2
    ensures CodeAt(text, pc + |c0| + 2, c1) && CodeAt(text, pc + |c0| + 2 + |c1|, [B(Num(l + 1))])
    ensures CodeAt(text, pc + |c0| + 2 + |c1| + 1, [LabelDef(Num(l))])
    ensures CodeAt(text, pc + |c0| + 2 + |c1| + 2, c2)
    ensures CodeAt(text, pc + |c0| + 2 + |c1| + 2 + |c2|, [LabelDef(Num(l + 1))])
  {
    hide *;
    TestSize(l);
    var end := c2 + [LabelDef(Num(l + 1))];
    var mid := [B(Num(l + 1)), LabelDef(Num(l))];
    CodeSplit(text, pc, c0, TestFalse(l) + (c1 + (mid + end)));
    CodeSplit(text, pc + |c0|, TestFalse(l), c1 + (mid + end));
    CodeSplit(text, pc + |c0| + 2, c1, mid + end);
    CodeSplit(text, pc + |c0| + 2 + |c1|, mid, end);
    assert mid == [B(Num(l + 1))] + [LabelDef(Num(l))];
    CodeSplit(text, pc + |c0| + 2 + |c1|, [B(Num(l + 1))], [LabelDef(Num(l))]);
    CodeSplit(text, pc + |c0| + 2 + |c1| + 2, c2, [LabelDef(Num(l + 1))]);
  }

  lemma TestSize(l: int)
    ensures |TestFalse(l)| == 2
  {
  }

  lemma SplitLoop(text: seq<Instr>, pc: nat, l: int, c0: seq<Instr>, c1: seq<Instr>)
    requires CodeAt(text, pc, [LabelDef(Num(l))] + (c0 + (TestFalse(l + 1) + (c1 + [B(Num(l)), LabelDef(Num(l + 1))]))))
    ensures CodeAt(text, pc, [LabelDef(Num(l))]) && CodeAt(text, pc + 1, c0)
    ensures CodeAt(text, pc + 1 + |c0|, TestFalse(l + 1)) && |TestFalse(l + 1)| == 2
    ensures CodeAt(text, pc + 1 + |c0| + 2, c1) && CodeAt(text, pc + 1 + |c0| + 2 + |c1|, [B(Num(l))])
    ensures CodeAt(text, pc + |c0| + |c1| + 4, [LabelDef(Num(l + 1))])
  {
    hide *;
    TestSize(l + 1);
    var end := [B(Num(l)), LabelDef(Num(l + 1))];
    CodeSplit(text, pc, [LabelDef(Num(l))], c0 + (TestFalse(l + 1) + (c1 + end)));
    CodeSplit(text, pc + 1, c0, TestFalse(l + 1) + (c1 + end));
    CodeSplit(text, pc + 1 + |c0|, TestFalse(l + 1), c1 + end);
    CodeSplit(text, pc + 1 + |c0| + 2, c1, end);
    assert end == [B(Num(l))] + [LabelDef(Num(l + 1))];
    CodeSplit(text, pc + 1 + |c0| + 2 + |c1|, [B(Num(l))], [LabelDef(Num(l + 1))]);
  }
}
