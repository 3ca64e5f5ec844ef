/** Calls as the caller sees them: from the receiver in $a0 to the popped arguments. */
module SimDispatch {
  import opened CoolNames
  import opened Inheritance
  import opened CoolSyntax
  import opened Layout
  import opened ClassTags
  import opened CoolSemantics
  import opened Mips
  import opened CodeGen
  import opened SimRel
  import opened SimFrame
  import opened SimSteps
  import opened SimCalls
  import opened SimScopes

  /** The state in which the callee of a jump at `pc - 1` starts. */
  ghost predicate JumpedTo(s: State, l: Label, text: seq<Instr>, pc: nat, c: State) {
    Quiet(s, c) && c.acc == s.acc && c.pc == Find(text, l) && c.ra == Ret(pc)
  }

  lemma JumpFrom(s: State, s3: State, target: Label, text: seq<Instr>, pc: nat, c: State)
    requires s3 == s.(pc := s3.pc, t1 := s3.t1) && JumpedTo(s3, target, text, pc, c)
    ensures JumpedTo(s, target, text, pc, c)
  {
    hide Find;
  }

  /** From the label after the void check: load the table, load the slot, jump. */
  lemma TableJump(img: Image, s: State, l: int, slot: int, dc: ClassName, target: Label) returns (c: State)
    requires CodeAt(img.text, s.pc, [LabelDef(Num(l)), Lw(T1, DISPTABLE_OFFSET, ACC), Lw(T1, slot, T1), Jalr(T1)])
    requires s.acc.Ref? && s.acc.r in s.heap && |s.heap[s.acc.r]| > 2 && s.heap[s.acc.r][2] == Disp(dc)
    requires dc in img.disp && 0 <= slot < |img.disp[dc]| && img.disp[dc][slot] == target
    ensures Runs(img, 4, s, c) && JumpedTo(s, target, img.text, s.pc + 4, c)
  {
    hide Step, Runs, CodeAt, Find, Quiet;
    var code := [LabelDef(Num(l)), Lw(T1, DISPTABLE_OFFSET, ACC), Lw(T1, slot, T1), Jalr(T1)];
    Fetch(img, s.pc, code, 0);
    Fetch(img, s.pc, code, 1);
    Fetch(img, s.pc, code, 2);
    Fetch(img, s.pc, code, 3);
    var s1 := s.(pc := s.pc + 1);
    var s2 := s.(pc := s.pc + 2, t1 := Disp(dc));
    var s3 := s.(pc := s.pc + 3, t1 := Lab(target));
    LabelStep(img, s, Num(l));
    StepLw(img, s1, T1, DISPTABLE_OFFSET, ACC, Disp(dc));
    RunsTwo(img, s, s1, s2);
    c := SlotJump(img, s2, slot, dc, target, s3);
    RunsTrans(img, 2, 2, s, s2, c);
    JumpFrom(s, s3, target, img.text, s.pc + 4, c);
  }

  lemma SlotJump(img: Image, s2: State, slot: int, dc: ClassName, target: Label, s3: State) returns (c: State)
    requires s2.pc + 1 < |img.text| && img.text[s2.pc] == Lw(T1, slot, T1) && img.text[s2.pc + 1] == Jalr(T1)
    requires s2.t1 == Disp(dc) && s3 == s2.(pc := s2.pc + 1, t1 := Lab(target))
    requires dc in img.disp && 0 <= slot < |img.disp[dc]| && img.disp[dc][slot] == target
    ensures Runs(img, 2, s2, c) && JumpedTo(s3, target, img.text, s2.pc + 2, c)
  {
    c := s3.(pc := Find(img.text, target), ra := Ret(s3.pc + 1));
    RunsTwo(img, s2, s3, c);
  }

  /** The slot that the static class gives leads to the method that is nearest to the dynamic class. */
  lemma SlotTarget(k: Ctx, sc: ClassName, dc: ClassName, m: Name)
    requires OK(k) && sc in k.P.classes && dc in k.P.classes && Inherits(k.P, dc, sc) && Nearest(k.P, sc, m) != NoClass
    ensures dc in k.img.disp && 0 <= MethodOffset(k.P, sc, m) < |k.img.disp[dc]|
    ensures k.img.disp[dc][MethodOffset(k.P, sc, m)] == MethodLabel(Nearest(k.P, dc, m), m)
    ensures Nearest(k.P, dc, m) != NoClass
  {
    TableEntry(k.P, sc, dc, m);
    assert TablesOK(k, dc);
  }

  lemma TableEntry(P: Program, sc: ClassName, dc: ClassName, m: Name)
    requires Hierarchy(P) && sc in P.classes && dc in P.classes && Inherits(P, dc, sc) && Nearest(P, sc, m) != NoClass
    ensures 0 <= MethodOffset(P, sc, m) < |DispTable(P, dc)| && Nearest(P, dc, m) != NoClass
    ensures DispTable(P, dc)[MethodOffset(P, sc, m)] == MethodLabel(Nearest(P, dc, m), m)
  {
    SlotFindsNearest(P, dc, sc, m);
  }

  /** dispatch_class::code after the receiver, which is not void. */
  lemma DispatchJump(k: Ctx, s: State, sc: ClassName, dc: ClassName, m: Name, l: int) returns (c: State)
    requires OK(k) && sc in k.P.classes && dc in k.P.classes && Inherits(k.P, dc, sc) && Nearest(k.P, sc, m) != NoClass
    requires CodeAt(k.img.text, s.pc, DispatchTail(k.P, sc, m, l))
    requires s.acc.Ref? && s.acc.r in s.heap && |s.heap[s.acc.r]| > 2 && s.heap[s.acc.r][2] == Disp(dc)
    ensures Runs(k.img, 5, s, c) && JumpedTo(s, MethodLabel(Nearest(k.P, dc, m), m), k.img.text, s.pc + 8, c)
  {
    SlotTarget(k, sc, dc, m);
    c := SkipAndJump(k, s, DispatchTail(k.P, sc, m, l), l, MethodOffset(k.P, sc, m), dc, MethodLabel(Nearest(k.P, dc, m), m));
  }

  lemma SkipAndJump(k: Ctx, s: State, tail: seq<Instr>, l: int, slot: int, dc: ClassName, target: Label) returns (c: State)
    requires UniqueLabels(k.img.text)
    requires tail == AbortOnVoid(DispatchVoid, l) + [LabelDef(Num(l)), Lw(T1, DISPTABLE_OFFSET, ACC), Lw(T1, slot, T1), Jalr(T1)]
    requires CodeAt(k.img.text, s.pc, tail)
    requires s.acc.Ref? && s.acc.r in s.heap && |s.heap[s.acc.r]| > 2 && s.heap[s.acc.r][2] == Disp(dc)
    requires dc in k.img.disp && 0 <= slot < |k.img.disp[dc]| && k.img.disp[dc][slot] == target
    ensures Runs(k.img, 5, s, c) && JumpedTo(s, target, k.img.text, s.pc + 8, c)
  {
    var call := [LabelDef(Num(l)), Lw(T1, DISPTABLE_OFFSET, ACC), Lw(T1, slot, T1), Jalr(T1)];
    CodeSplit(k.img.text, s.pc, AbortOnVoid(DispatchVoid, l), call);
    Fetch(k.img, s.pc + 4, call, 0);
    NotVoidRun(k, s, DispatchVoid, l, s.pc + 4);
    var s1 := s.(pc := s.pc + 4);
    c := TableJump(k.img, s1, l, slot, dc, target);
    RunsTrans(k.img, 1, 4, s, s1, c);
  }

  /** static_dispatch_class::code after the receiver, which is not void. */
  lemma StaticJump(k: Ctx, s: State, c0: ClassName, m: Name, l: int) returns (c: State)
    requires OK(k) && c0 in k.P.classes && Nearest(k.P, c0, m) != NoClass
    requires CodeAt(k.img.text, s.pc, StaticDispatchTail(k.P, c0, m, l)) && s.acc != I(0)
    ensures Runs(k.img, 3, s, c) && JumpedTo(s, MethodLabel(Nearest(k.P, c0, m), m), k.img.text, s.pc + 6, c)
  {
    MethNearest(k.P, c0);
    c := SkipAndCall(k, s, l, MethodLabel(Nearest(k.P, c0, m), m));
  }

  lemma SkipAndCall(k: Ctx, s: State, l: int, target: Label) returns (c: State)
    requires UniqueLabels(k.img.text) && s.acc != I(0)
    requires CodeAt(k.img.text, s.pc, AbortOnVoid(DispatchVoid, l) + [LabelDef(Num(l)), Jal(target)])
    ensures Runs(k.img, 3, s, c) && JumpedTo(s, target, k.img.text, s.pc + 6, c)
  {
    var call := [LabelDef(Num(l)), Jal(target)];
    CodeSplit(k.img.text, s.pc, AbortOnVoid(DispatchVoid, l), call);
    Fetch(k.img, s.pc + 4, call, 0);
    Fetch(k.img, s.pc + 4, call, 1);
    NotVoidRun(k, s, DispatchVoid, l, s.pc + 4);
    var s1 := s.(pc := s.pc + 4);
    c := s.(pc := Find(k.img.text, target), ra := Ret(s.pc + 6));
    RunsTwo(k.img, s1, s1.(pc := s.pc + 5), c);
    RunsTrans(k.img, 1, 2, s, s1, c);
  }

  /** A plain jump-and-link. */
  lemma JalRun(img: Image, s: State, target: Label) returns (c: State)
    requires CodeAt(img.text, s.pc, [Jal(target)])
    ensures Runs(img, 1, s, c) && JumpedTo(s, target, img.text, s.pc + 1, c)
  {
    Fetch(img, s.pc, [Jal(target)], 0);
    c := s.(pc := Find(img.text, target), ra := Ret(s.pc + 1));
    RunsOne(img, s, c);
  }

  /** The frame of the caller, as if the arguments of the coming call were popped already. */
  lemma ArgsPopMid(P: Program, cls: ClassName, self: Value, scope: Scope, tmp: int, env: Env, inj: Inj, st: Store, s: State, vs: seq<Value>, env1: Env, st1: Store, inj1: Inj, s1: State, env2: Env, st2: Store, inj2: Inj, s2: State)
    requires Hierarchy(P) && Rel(P, cls, self, scope, tmp, env, st, inj, s)
    requires ArgsPost(P, cls, self, scope, tmp, inj, st, s, vs, env1, st1, inj1, s1)
    requires Mid(P, cls, self, scope, tmp - |vs|, inj1, st1, s1, env2, st2, inj2, s2)
    ensures NoSlotFrom(scope, tmp)
    ensures Mid(P, cls, self, scope, tmp, inj, st, s, env2, st2, inj2, PopState(s2, |vs|))
  {
    ScopeAbove(P, cls, self, scope, tmp, env, st, inj, s);
    ExtTrans(inj, s.heap, inj1, s1.heap, inj2, s2.heap);
    ClassesTrans(st.objs, st1.objs, st2.objs);
    PopEnv(P, cls, scope, tmp, tmp - |vs|, s2.fp.a, env2, inj2, s2.heap, s2.stack);
    LowerFrame(scope, s, s1, s2);
  }

  lemma LowerFrame(scope: Scope, s: State, s1: State, s2: State)
    requires s.sp.Stk? && s.fp.Stk? && s1.sp.Stk? && s1.sp.a <= s.sp.a && s1.fp == s.fp
    requires FrameKept(scope, s, s1) && FrameKept(scope, s1, s2)
    ensures FrameKept(scope, s, s2)
  {
  }

  /**
    The outcome of a call, seen from the expression that made it: `m` steps from `s` to the jump in
    `s2`, with `n` arguments on the stack, then the callee's run from `c`.
   */
  lemma CallFinish(k: Ctx, fuel: nat, cls: ClassName, self: Value, scope: Scope, tmp: int, inj: Inj, st: Store, s: State, n: nat, env2: Env, st2: Store, inj2: Inj, s2: State, m: nat, c: State, o: Outcome, rc: Run, len: nat) returns (r: Run)
    requires Hierarchy(k.P) && fuel > 0 && m > 0 && NoSlotFrom(scope, tmp) && s2.sp.Stk?
    requires Mid(k.P, cls, self, scope, tmp, inj, st, s, env2, st2, inj2, PopState(s2, n))
    requires Rel(k.P, cls, self, scope, tmp - n, env2, st2, inj2, s2)
    requires Runs(k.img, m, s, c) && Quiet(s2, c) && c.ra == Ret(s.pc + len)
    requires CallGood(k, fuel - 1, inj2, st2, c, n, o, rc)
    ensures Good(k, fuel, cls, self, scope, tmp, inj, st, s, len, Return(env2, o), r)
  {
    if o.Val? {
      RunsTrans(k.img, m, rc.n, s, c, rc.t);
      ReturnPost(k.P, cls, self, scope, tmp, n, env2, st2, inj2, s2, c, o.v, o.st, rc.inj, rc.t);
      MidTrans(k.P, cls, self, scope, tmp, inj, st, s, env2, st2, inj2, PopState(s2, n), env2, o.st, rc.inj, rc.t);
      r := rc.(n := m + rc.n);
    } else {
      r := FinishesAfterStep(k, fuel, s, m, c, o, rc);
    }
  }
}
