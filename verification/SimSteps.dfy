/** Runs of the fixed instruction sequences that the generator emits around sub-expressions. */
module SimSteps {
  import opened CoolNames
  import opened Inheritance
  import opened CoolSyntax
  import opened Layout
  import opened ClassTags
  import opened CoolSemantics
  import opened Mips
  import opened CodeGen
  import opened SimRel

  /** The instruction at `pc + i` when `code` stands at `pc`. */
  lemma Fetch(img: Image, pc: nat, code: seq<Instr>, i: nat)
    requires CodeAt(img.text, pc, code) && i < |code|
    ensures pc + i < |img.text| && img.text[pc + i] == code[i]
  {
    CodeIndex(img.text, pc, code, i);
  }

  lemma RunsTwo(img: Image, s: State, t: State, u: State)
    requires Step(img, s) == Go(t) && Step(img, t) == Go(u)
    ensures Runs(img, 2, s, u)
  {
    RunsOne(img, s, t);
    RunsOne(img, t, u);
    RunsTrans(img, 1, 1, s, t, u);
  }

  lemma RunsMore(img: Image, n: nat, s: State, t: State, u: State)
    requires Runs(img, n, s, t) && Step(img, t) == Go(u)
    ensures Runs(img, n + 1, s, u)
  {
    RunsOne(img, t, u);
    RunsTrans(img, n, 1, s, t, u);
  }

  /** A label that stands at `pc` is where a jump to it lands. */
  lemma LabelHere(k: Ctx, pc: nat, l: Label)
    requires UniqueLabels(k.img.text) && pc < |k.img.text| && k.img.text[pc] == LabelDef(l)
    ensures Find(k.img.text, l) == pc
  {
    FindUnique(k.img.text, pc, l);
  }

  ghost function PushState(s: State, w: Word): State
    requires s.sp.Stk?
  {
    s.(pc := s.pc + 2, sp := Stk(s.sp.a - 4), stack := s.stack[s.sp.a := w])
  }

  lemma PushRun(img: Image, s: State)
    requires CodeAt(img.text, s.pc, PUSH) && s.sp.Stk?
    ensures Runs(img, 2, s, PushState(s, s.acc))
  {
    Fetch(img, s.pc, PUSH, 0);
    Fetch(img, s.pc, PUSH, 1);
    RunsTwo(img, s, s.(pc := s.pc + 1, stack := s.stack[s.sp.a := s.acc]), PushState(s, s.acc));
  }

  lemma PopRun(img: Image, s: State)
    requires CodeAt(img.text, s.pc, POP) && s.sp.Stk?
    ensures Runs(img, 1, s, s.(pc := s.pc + 1, sp := Stk(s.sp.a + 4)))
  {
    Fetch(img, s.pc, POP, 0);
    RunsOne(img, s, s.(pc := s.pc + 1, sp := Stk(s.sp.a + 4)));
  }

  /** Falling over a label definition. */
  lemma LabelRun(img: Image, s: State, l: Label)
    requires CodeAt(img.text, s.pc, [LabelDef(l)])
    ensures Runs(img, 1, s, s.(pc := s.pc + 1))
  {
    Fetch(img, s.pc, [LabelDef(l)], 0);
    RunsOne(img, s, s.(pc := s.pc + 1));
  }

  /** A jump to a label that stands at `pc`, and over it. */
  lemma BranchRun(k: Ctx, s: State, l: Label, pc: nat)
    requires UniqueLabels(k.img.text) && CodeAt(k.img.text, s.pc, [B(l)]) && CodeAt(k.img.text, pc, [LabelDef(l)])
    ensures Runs(k.img, 2, s, s.(pc := pc + 1))
  {
    Fetch(k.img, s.pc, [B(l)], 0);
    Fetch(k.img, pc, [LabelDef(l)], 0);
    LabelHere(k, pc, l);
    RunsTwo(k.img, s, s.(pc := pc), s.(pc := pc + 1));
  }

  // ---------------------------------------------------------------------------------------------
  // Object.copy

  ghost function CopyState(s: State, pc: nat, ws: seq<Word>): State {
    s.(pc := pc, ra := Ret(pc), acc := Ref(Dyn(s.next)), next := s.next + 1, heap := s.heap[Dyn(s.next) := ws])
  }

  /** The `copy` that class `c` resolves to. */
  lemma NearestCopy(k: Ctx, c: ClassName)
    requires Hierarchy(k.P) && ImageOK(k) && c in k.P.classes && CopyIsRuntime(k.P, c)
    ensures HasClass(k.P, c)
    ensures var d := Nearest(k.P, c, COPY);
      d in k.P.classes && Declares(k.P.classes[d], COPY) && CopyLabel(k.P, c) == MethodLabel(d, COPY)
      && MethodPlaced(k, d, Decl(k.P.classes[d], COPY)) && Decl(k.P.classes[d], COPY).body == Native(RtCopy)
  {
    hide InitPlaced, TablesOK, UniqueLabels, MethLayout;
    MethNearest(k.P, c);
    assert MethodPlaced(k, Nearest(k.P, c, COPY), Decl(k.P.classes[Nearest(k.P, c, COPY)], COPY));
  }

  lemma NativePlaced(k: Ctx, d: ClassName, m: Method)
    requires Hierarchy(k.P) && d in k.P.classes && MethodPlaced(k, d, m) && m.body.Native?
    ensures var pc := Find(k.img.text, MethodLabel(d, m.name));
      pc + 1 < |k.img.text| && k.img.text[pc] == LabelDef(MethodLabel(d, m.name)) && k.img.text[pc + 1] == Runtime(m.body.op)
  {
    var pc := Find(k.img.text, MethodLabel(d, m.name));
    Fetch(k.img, pc, NativeCode(d, m), 0);
    Fetch(k.img, pc, NativeCode(d, m), 1);
  }

  lemma CopyPlaced(k: Ctx, c: ClassName)
    requires Hierarchy(k.P) && ImageOK(k) && c in k.P.classes && CopyIsRuntime(k.P, c)
    ensures var pc := Find(k.img.text, CopyLabel(k.P, c));
      pc + 1 < |k.img.text| && k.img.text[pc] == LabelDef(CopyLabel(k.P, c)) && k.img.text[pc + 1] == Runtime(RtCopy)
  {
    hide *;
    NearestCopy(k, c);
    var d := Nearest(k.P, c, COPY);
    var m := Decl(k.P.classes[d], COPY);
    NativePlaced(k, d, m);
  }

  lemma CallCopy(k: Ctx, c: ClassName, s: State)
    requires Hierarchy(k.P) && ImageOK(k) && c in k.P.classes && CopyIsRuntime(k.P, c)
    requires CodeAt(k.img.text, s.pc, [Jal(CopyLabel(k.P, c))])
    requires s.acc.Ref? && s.acc.r in s.heap
    ensures Runs(k.img, 3, s, CopyState(s, s.pc + 1, s.heap[s.acc.r]))
  {
    hide ImageOK, Hierarchy, Step, Runs, CodeAt, Find, CopyLabel, CopyIsRuntime;
    CopyPlaced(k, c);
    Fetch(k.img, s.pc, [Jal(CopyLabel(k.P, c))], 0);
    CopyRun(k.img, s, CopyLabel(k.P, c));
  }

  lemma JalStep(img: Image, s: State, l: Label)
    requires s.pc < |img.text| && img.text[s.pc] == Jal(l)
    ensures Step(img, s) == Go(s.(pc := Find(img.text, l), ra := Ret(s.pc + 1)))
  {
  }

  lemma LabelStep(img: Image, s: State, l: Label)
    requires s.pc < |img.text| && img.text[s.pc] == LabelDef(l)
    ensures Step(img, s) == Go(s.(pc := s.pc + 1))
  {
  }

  lemma CopyStep(img: Image, s: State, h: Heap)
    requires s.pc < |img.text| && img.text[s.pc] == Runtime(RtCopy)
    requires s.ra.Ret? && s.acc.Ref? && s.acc.r in s.heap && h == s.heap[Dyn(s.next) := s.heap[s.acc.r]]
    ensures Step(img, s) == Go(s.(pc := s.ra.pc, acc := Ref(Dyn(s.next)), next := s.next + 1, heap := h))
  {
  }

  lemma CopyRun(img: Image, s: State, l: Label)
    requires s.pc < |img.text| && img.text[s.pc] == Jal(l)
    requires Find(img.text, l) + 1 < |img.text|
    requires img.text[Find(img.text, l)] == LabelDef(l) && img.text[Find(img.text, l) + 1] == Runtime(RtCopy)
    requires s.acc.Ref? && s.acc.r in s.heap
    ensures Runs(img, 3, s, CopyState(s, s.pc + 1, s.heap[s.acc.r]))
  {
    hide Step, Runs, Find;
    var pc := Find(img.text, l);
    var t := s.(pc := pc, ra := Ret(s.pc + 1));
    var u := t.(pc := pc + 1);
    JalStep(img, s, l);
    LabelStep(img, t, l);
    RunsTwo(img, s, t, u);
    CopyStep(img, u, u.heap[Dyn(s.next) := s.heap[s.acc.r]]);
    RunsMore(img, 2, s, u, CopyState(s, s.pc + 1, s.heap[s.acc.r]));
  }

  // ---------------------------------------------------------------------------------------------
  // Arithmetic

  ghost predicate HasInt(h: Heap, w: Word, n: int) {
    w.Ref? && w.r in h && |h[w.r]| == 4 && h[w.r][3] == I(n)
  }

  /** The three loads of code_arithm_expr and of the comparisons. */
  lemma LoadOperands(img: Image, s: State, a: int, b: int)
    requires CodeAt(img.text, s.pc, [Lw(T1, 1, SP), Lw(T1, DEFAULT_OBJFIELDS, T1), Lw(T2, DEFAULT_OBJFIELDS, ACC)])
    requires s.sp.Stk? && s.sp.a + 4 in s.stack && HasInt(s.heap, s.stack[s.sp.a + 4], a) && HasInt(s.heap, s.acc, b)
    ensures Runs(img, 3, s, s.(pc := s.pc + 3, t1 := I(a), t2 := I(b)))
  {
    var code := [Lw(T1, 1, SP), Lw(T1, DEFAULT_OBJFIELDS, T1), Lw(T2, DEFAULT_OBJFIELDS, ACC)];
    Fetch(img, s.pc, code, 0);
    Fetch(img, s.pc, code, 1);
    Fetch(img, s.pc, code, 2);
    var s1 := s.(pc := s.pc + 1, t1 := s.stack[s.sp.a + 4]);
    var s2 := s.(pc := s.pc + 2, t1 := I(a));
    RunsTwo(img, s, s1, s2);
    RunsMore(img, 2, s, s2, s.(pc := s.pc + 3, t1 := I(a), t2 := I(b)));
  }

  const STORERESULT: seq<Instr> := [Sw(T1, DEFAULT_OBJFIELDS, ACC), Addiu(SP, SP, 4)]

  /** The arithmetic instruction, the store into the fresh Int and the pop. */
  lemma ComputeRun(img: Image, s: State, op: ArithOp, a: int, b: int)
    requires CodeAt(img.text, s.pc, [Arith3(op, T1, T1, T2)] + STORERESULT)
    requires s.t1 == I(a) && s.t2 == I(b) && s.sp.Stk? && s.acc.Ref? && s.acc.r in s.heap && |s.heap[s.acc.r]| == 4
    ensures match ArithValue(op, a, b)
      case Number(n) =>
        Runs(img, 3, s, s.(pc := s.pc + 3, t1 := I(n), sp := Stk(s.sp.a + 4),
                           heap := s.heap[s.acc.r := s.heap[s.acc.r][3 := I(n)]]))
      case Trap => Halts(img, 0, s, Faulted(ArithFault), s.out)
  {
    hide Alu, ArithValue;
    var code := [Arith3(op, T1, T1, T2)] + STORERESULT;
    Fetch(img, s.pc, code, 0);
    AluIs(op, a, b);
    match ArithValue(op, a, b)
    case Trap => HaltsNow(img, s, Faulted(ArithFault));
    case Number(n) =>
      Fetch(img, s.pc, code, 1);
      Fetch(img, s.pc, code, 2);
      StoreRun(img, s, s.(pc := s.pc + 1, t1 := I(n)), n);
  }

  lemma StoreRun(img: Image, s: State, s1: State, n: int)
    requires Step(img, s) == Go(s1) && s1.t1 == I(n) && s1.sp.Stk?
    requires s1.pc + 1 < |img.text| && img.text[s1.pc] == Sw(T1, DEFAULT_OBJFIELDS, ACC) && img.text[s1.pc + 1] == Addiu(SP, SP, 4)
    requires s1.acc.Ref? && s1.acc.r in s1.heap && |s1.heap[s1.acc.r]| == 4
    ensures Runs(img, 3, s, s1.(pc := s1.pc + 2, sp := Stk(s1.sp.a + 4),
                                heap := s1.heap[s1.acc.r := s1.heap[s1.acc.r][3 := I(n)]]))
  {
    hide Step, Runs;
    var s2 := s1.(pc := s1.pc + 1, heap := s1.heap[s1.acc.r := s1.heap[s1.acc.r][3 := I(n)]]);
    StepSw(img, s1, T1, DEFAULT_OBJFIELDS, ACC);
    RunsTwo(img, s, s1, s2);
    StepAddiu(img, s2, SP, SP, 4);
    RunsMore(img, 2, s, s2, s2.(pc := s2.pc + 1, sp := Stk(s2.sp.a + 4)));
  }

  /** The end of code_arithm_expr: copy the second operand, compute, store the result in the copy, pop. */
  lemma ArithRun(k: Ctx, s: State, op: ArithOp, a: int, b: int) returns (t: State)
    requires Hierarchy(k.P) && ImageOK(k) && IntC in k.P.classes && CopyIsRuntime(k.P, IntC)
    requires CodeAt(k.img.text, s.pc, ArithTail(k.P, op))
    requires s.sp.Stk? && s.sp.a + 4 in s.stack && HasInt(s.heap, s.stack[s.sp.a + 4], a)
    requires s.acc.Ref? && s.acc.r in s.heap && s.heap[s.acc.r] == IntWords(k.P, b) && Dyn(s.next) !in s.heap
    ensures match ArithValue(op, a, b)
      case Number(n) =>
        Runs(k.img, 9, s, t)
        && t == s.(pc := s.pc + 7, sp := Stk(s.sp.a + 4), acc := Ref(Dyn(s.next)), t1 := t.t1, t2 := t.t2, ra := t.ra,
                   next := s.next + 1, heap := s.heap[Dyn(s.next) := IntWords(k.P, n)])
      case Trap => Halts(k.img, 6, s, Faulted(ArithFault), s.out)
  {
    hide ImageOK, Step, Runs, Halts, CodeAt, CopyLabel, Hierarchy, UniqueLabels, Find, CopyIsRuntime;
    var loads := [Lw(T1, 1, SP), Lw(T1, DEFAULT_OBJFIELDS, T1), Lw(T2, DEFAULT_OBJFIELDS, ACC)];
    var rest := [Arith3(op, T1, T1, T2)] + STORERESULT;
    assert ArithTail(k.P, op) == [Jal(CopyLabel(k.P, IntC))] + (loads + rest);
    CodeSplit(k.img.text, s.pc, [Jal(CopyLabel(k.P, IntC))], loads + rest);
    CodeSplit(k.img.text, s.pc + 1, loads, rest);
    CallCopy(k, IntC, s);
    var s1 := CopyState(s, s.pc + 1, IntWords(k.P, b));
    LoadOperands(k.img, s1, a, b);
    var s2 := s1.(pc := s1.pc + 3, t1 := I(a), t2 := I(b));
    RunsTrans(k.img, 3, 3, s, s1, s2);
    t := ArithEnd(k, s, s2, op, a, b);
  }

  lemma ArithEnd(k: Ctx, s: State, s2: State, op: ArithOp, a: int, b: int) returns (t: State)
    requires CodeAt(k.img.text, s.pc + 4, [Arith3(op, T1, T1, T2)] + STORERESULT)
    requires Runs(k.img, 6, s, s2) && s.sp.Stk?
    requires s2 == CopyState(s, s.pc + 1, IntWords(k.P, b)).(pc := s.pc + 4, t1 := I(a), t2 := I(b))
    ensures match ArithValue(op, a, b)
      case Number(n) =>
        Runs(k.img, 9, s, t)
        && t == s.(pc := s.pc + 7, sp := Stk(s.sp.a + 4), acc := Ref(Dyn(s.next)), t1 := t.t1, t2 := t.t2, ra := t.ra,
                   next := s.next + 1, heap := s.heap[Dyn(s.next) := IntWords(k.P, n)])
      case Trap => Halts(k.img, 6, s, Faulted(ArithFault), s.out)
  {
    ComputeRun(k.img, s2, op, a, b);
    match ArithValue(op, a, b)
    case Trap =>
      HaltsTrans(k.img, 6, 0, s, s2, Faulted(ArithFault), s.out);
      t := s2;
    case Number(n) =>
      t := s2.(pc := s2.pc + 3, t1 := I(n), sp := Stk(s2.sp.a + 4), heap := s2.heap[s2.acc.r := s2.heap[s2.acc.r][3 := I(n)]]);
      RunsTrans(k.img, 6, 3, s, s2, t);
      assert IntWords(k.P, b)[3 := I(n)] == IntWords(k.P, n);
      assert t.heap == s.heap[Dyn(s.next) := IntWords(k.P, n)];
  }

  /** The end of neg_class::code. */
  lemma NegRun(k: Ctx, s: State, a: int) returns (t: State)
    requires Hierarchy(k.P) && ImageOK(k) && IntC in k.P.classes && CopyIsRuntime(k.P, IntC)
    requires CodeAt(k.img.text, s.pc, NegTail(k.P))
    requires s.acc.Ref? && s.acc.r in s.heap && s.heap[s.acc.r] == IntWords(k.P, a) && Dyn(s.next) !in s.heap
    ensures match NegValue(a)
      case Number(n) =>
        Runs(k.img, 6, s, t)
        && t == s.(pc := s.pc + 4, acc := Ref(Dyn(s.next)), t1 := t.t1, t2 := t.t2, ra := t.ra,
                   next := s.next + 1, heap := s.heap[Dyn(s.next) := IntWords(k.P, n)])
      case Trap => Halts(k.img, 4, s, Faulted(ArithFault), s.out)
  {
    hide ImageOK, Step, Runs, Halts, CodeAt, CopyLabel, Hierarchy, Find, CopyIsRuntime;
    var rest := [Lw(T1, DEFAULT_OBJFIELDS, ACC), NegI(T1, T1), Sw(T1, DEFAULT_OBJFIELDS, ACC)];
    assert NegTail(k.P) == [Jal(CopyLabel(k.P, IntC))] + rest;
    CodeSplit(k.img.text, s.pc, [Jal(CopyLabel(k.P, IntC))], rest);
    CallCopy(k, IntC, s);
    var s1 := CopyState(s, s.pc + 1, IntWords(k.P, a));
    t := NegEnd(k, s, s1, a);
  }

  /** The load in neg_class::code from the copy. */
  lemma NegLoad(k: Ctx, s: State, s1: State, a: int) returns (s2: State)
    requires s1.pc < |k.img.text| && k.img.text[s1.pc] == Lw(T1, DEFAULT_OBJFIELDS, ACC)
    requires Runs(k.img, 3, s, s1) && s1 == CopyState(s, s.pc + 1, IntWords(k.P, a))
    ensures s2 == s1.(pc := s1.pc + 1, t1 := I(a)) && Runs(k.img, 4, s, s2)
  {
    s2 := s1.(pc := s1.pc + 1, t1 := I(a));
    RunsMore(k.img, 3, s, s1, s2);
  }

  lemma NegTrap(img: Image, s2: State, a: int)
    requires s2.pc < |img.text| && img.text[s2.pc] == NegI(T1, T1) && s2.t1 == I(a) && NegValue(a) == Trap
    ensures Halts(img, 0, s2, Faulted(ArithFault), s2.out)
  {
    hide Alu, ArithValue;
    AluIs(OpSub, 0, a);
    HaltsNow(img, s2, Faulted(ArithFault));
  }

  lemma NegEnd(k: Ctx, s: State, s1: State, a: int) returns (t: State)
    requires CodeAt(k.img.text, s.pc + 1, [Lw(T1, DEFAULT_OBJFIELDS, ACC), NegI(T1, T1), Sw(T1, DEFAULT_OBJFIELDS, ACC)])
    requires Runs(k.img, 3, s, s1) && s1 == CopyState(s, s.pc + 1, IntWords(k.P, a))
    ensures match NegValue(a)
      case Number(n) =>
        Runs(k.img, 6, s, t)
        && t == s.(pc := s.pc + 4, acc := Ref(Dyn(s.next)), t1 := t.t1, t2 := t.t2, ra := t.ra,
                   next := s.next + 1, heap := s.heap[Dyn(s.next) := IntWords(k.P, n)])
      case Trap => Halts(k.img, 4, s, Faulted(ArithFault), s.out)
  {
    hide Step, Runs, Halts, CodeAt, NegValue, IntWords;
    var rest := [Lw(T1, DEFAULT_OBJFIELDS, ACC), NegI(T1, T1), Sw(T1, DEFAULT_OBJFIELDS, ACC)];
    Fetch(k.img, s.pc + 1, rest, 0);
    Fetch(k.img, s.pc + 1, rest, 1);
    Fetch(k.img, s.pc + 1, rest, 2);
    var s2 := NegLoad(k, s, s1, a);
    match NegValue(a)
    case Trap =>
      NegTrap(k.img, s2, a);
      HaltsTrans(k.img, 4, 0, s, s2, Faulted(ArithFault), s.out);
      t := s2;
    case Number(n) =>
      t := NegStore(k, s, s1, s2, a, n);
  }

  lemma NegStore(k: Ctx, s: State, s1: State, s2: State, a: int, n: int) returns (t: State)
    requires s1 == CopyState(s, s.pc + 1, IntWords(k.P, a)) && s2 == s1.(pc := s1.pc + 1, t1 := I(a))
    requires s2.pc + 1 < |k.img.text| && k.img.text[s2.pc] == NegI(T1, T1) && k.img.text[s2.pc + 1] == Sw(T1, DEFAULT_OBJFIELDS, ACC)
    requires Runs(k.img, 4, s, s2) && NegValue(a) == Number(n)
    ensures Runs(k.img, 6, s, t)
    ensures t == s.(pc := s.pc + 4, acc := Ref(Dyn(s.next)), t1 := t.t1, t2 := t.t2, ra := t.ra,
                    next := s.next + 1, heap := s.heap[Dyn(s.next) := IntWords(k.P, n)])
  {
    hide Hierarchy, Alu, ArithValue;
    AluIs(OpSub, 0, a);
    var s3 := s2.(pc := s2.pc + 1, t1 := I(n));
    t := s3.(pc := s3.pc + 1, heap := s3.heap[s3.acc.r := s3.heap[s3.acc.r][3 := I(n)]]);
    RunsTwo(k.img, s2, s3, t);
    RunsTrans(k.img, 4, 2, s, s2, t);
    assert IntWords(k.P, a)[3 := I(n)] == IntWords(k.P, n);
    assert t.heap == s.heap[Dyn(s.next) := IntWords(k.P, n)];
  }

  // ---------------------------------------------------------------------------------------------
  // Comparison, complement and tests

  /** The end of lt_class::code and leq_class::code. */
  lemma CompareRun(k: Ctx, s: State, cmp: CmpOp, end: int, a: int, b: int) returns (n: nat, t: State)
    requires UniqueLabels(k.img.text) && CodeAt(k.img.text, s.pc, CompareTail(cmp, end))
    requires s.sp.Stk? && s.sp.a + 4 in s.stack && HasInt(s.heap, s.stack[s.sp.a + 4], a) && HasInt(s.heap, s.acc, b)
    ensures Runs(k.img, n, s, t)
    ensures t == s.(pc := s.pc + 8, sp := Stk(s.sp.a + 4), acc := Ref(BoolObj(CompareValue(cmp, a, b))), t1 := t.t1, t2 := t.t2)
  {
    var loads := [Lw(T1, 1, SP), Lw(T1, DEFAULT_OBJFIELDS, T1), Lw(T2, DEFAULT_OBJFIELDS, ACC)];
    var rest := CompareCode(cmp, end);
    assert CompareTail(cmp, end) == loads + rest;
    CodeSplit(k.img.text, s.pc, loads, rest);
    LoadOperands(k.img, s, a, b);
    var s1 := s.(pc := s.pc + 3, t1 := I(a), t2 := I(b));
    n, t := CompareEnd(k, s1, cmp, end, a, b);
    RunsTrans(k.img, 3, n, s, s1, t);
    n := 3 + n;
  }

  function CompareCode(cmp: CmpOp, end: int): seq<Instr> {
    [La(ACC, BoolObj(true)), Bcmp(cmp, T1, T2, Num(end)), La(ACC, BoolObj(false)), LabelDef(Num(end)), Addiu(SP, SP, 4)]
  }

  lemma CompareEnd(k: Ctx, s: State, cmp: CmpOp, end: int, a: int, b: int) returns (n: nat, t: State)
    requires UniqueLabels(k.img.text) && CodeAt(k.img.text, s.pc, CompareCode(cmp, end))
    requires s.sp.Stk? && s.t1 == I(a) && s.t2 == I(b)
    ensures Runs(k.img, n, s, t)
    ensures t == s.(pc := s.pc + 5, sp := Stk(s.sp.a + 4), acc := Ref(BoolObj(CompareValue(cmp, a, b))))
  {
    var s3;
    n, s3 := CompareBranch(k, s, cmp, end, a, b);
    Fetch(k.img, s.pc, CompareCode(cmp, end), 3);
    Fetch(k.img, s.pc, CompareCode(cmp, end), 4);
    t := s3.(pc := s.pc + 5, sp := Stk(s.sp.a + 4));
    RunsTwo(k.img, s3, s3.(pc := s.pc + 4), t);
    RunsTrans(k.img, n, 2, s, s3, t);
    n := n + 2;
  }

  lemma CompareBranch(k: Ctx, s: State, cmp: CmpOp, end: int, a: int, b: int) returns (n: nat, t: State)
    requires UniqueLabels(k.img.text) && CodeAt(k.img.text, s.pc, CompareCode(cmp, end))
    requires s.t1 == I(a) && s.t2 == I(b)
    ensures Runs(k.img, n, s, t)
    ensures t == s.(pc := s.pc + 3, acc := Ref(BoolObj(CompareValue(cmp, a, b))))
  {
    hide Runs, CodeAt, Find, UniqueLabels;
    var code := CompareCode(cmp, end);
    Fetch(k.img, s.pc, code, 0);
    Fetch(k.img, s.pc, code, 1);
    Fetch(k.img, s.pc, code, 3);
    LabelHere(k, s.pc + 3, Num(end));
    n, t := TakeBranch(k.img, s, cmp, end, a, b);
    if !CompareValue(cmp, a, b) {
      Fetch(k.img, s.pc, code, 2);
      var s2 := t;
      t := s2.(pc := s.pc + 3, acc := Ref(BoolObj(false)));
      RunsMore(k.img, 2, s, s2, t);
      n := 3;
    }
  }

  lemma TakeBranch(img: Image, s: State, cmp: CmpOp, end: int, a: int, b: int) returns (n: nat, t: State)
    requires s.pc + 1 < |img.text| && img.text[s.pc] == La(ACC, BoolObj(true)) && img.text[s.pc + 1] == Bcmp(cmp, T1, T2, Num(end))
    requires Find(img.text, Num(end)) == s.pc + 3 && s.t1 == I(a) && s.t2 == I(b)
    ensures n == 2 && Runs(img, 2, s, t)
    ensures t == s.(pc := if CompareValue(cmp, a, b) then s.pc + 3 else s.pc + 2, acc := Ref(BoolObj(true)))
  {
    TakenIs(cmp, a, b);
    var s1 := s.(pc := s.pc + 1, acc := Ref(BoolObj(true)));
    n, t := 2, s1.(pc := if CompareValue(cmp, a, b) then s.pc + 3 else s.pc + 2);
    RunsTwo(img, s, s1, t);
  }

  ghost predicate HasBool(h: Heap, w: Word, b: bool) {
    w.Ref? && w.r in h && |h[w.r]| == 4 && h[w.r][3] == BoolWord(b)
  }

  /** The test of cond_class::code and loop_class::code: false jumps to `l`. */
  lemma TestRun(k: Ctx, s: State, l: int, b: bool, pc: nat)
    requires UniqueLabels(k.img.text) && CodeAt(k.img.text, s.pc, TestFalse(l)) && HasBool(s.heap, s.acc, b)
    requires pc < |k.img.text| && k.img.text[pc] == LabelDef(Num(l))
    ensures Runs(k.img, 2, s, s.(pc := if b then s.pc + 2 else pc, acc := BoolWord(b)))
  {
    Fetch(k.img, s.pc, TestFalse(l), 0);
    Fetch(k.img, s.pc, TestFalse(l), 1);
    LabelHere(k, pc, Num(l));
    var s1 := s.(pc := s.pc + 1, acc := BoolWord(b));
    RunsTwo(k.img, s, s1, s1.(pc := if b then s.pc + 2 else pc));
  }

  /** The end of comp_class::code. */
  lemma CompRun(k: Ctx, s: State, no: int, end: int, b: bool) returns (n: nat, t: State)
    requires UniqueLabels(k.img.text) && CodeAt(k.img.text, s.pc, CompTail(no, end)) && HasBool(s.heap, s.acc, b)
    ensures Runs(k.img, n, s, t) && t == s.(pc := s.pc + 7, acc := Ref(BoolObj(!b)))
  {
    var code := CompTail(no, end);
    var rest := CompCode(no, end);
    assert code == TestFalse(no) + rest;
    CodeSplit(k.img.text, s.pc, TestFalse(no), rest);
    Fetch(k.img, s.pc, code, 4);
    TestRun(k, s, no, b, s.pc + 4);
    var s1 := s.(pc := if b then s.pc + 2 else s.pc + 4, acc := BoolWord(b));
    n, t := CompEnd(k, s1, s.pc + 2, no, end, b);
    RunsTrans(k.img, 2, n, s, s1, t);
    n := n + 2;
  }

  function CompCode(no: int, end: int): seq<Instr> {
    [La(ACC, BoolObj(false)), B(Num(end)), LabelDef(Num(no)), La(ACC, BoolObj(true)), LabelDef(Num(end))]
  }

  lemma CompEnd(k: Ctx, s: State, pc: nat, no: int, end: int, b: bool) returns (n: nat, t: State)
    requires UniqueLabels(k.img.text) && s.pc == (if b then pc else pc + 2)
    requires CodeAt(k.img.text, pc, CompCode(no, end))
    ensures Runs(k.img, n, s, t) && t == s.(pc := pc + 5, acc := Ref(BoolObj(!b)))
  {
    Fetch(k.img, pc, CompCode(no, end), 4);
    var s2 := s.(pc := pc + 4, acc := Ref(BoolObj(!b)));
    if b {
      CompTrue(k, s, no, end);
    } else {
      CompFalse(k.img, s, pc, no, end);
    }
    t := s2.(pc := pc + 5);
    RunsMore(k.img, 2, s, s2, t);
    n := 3;
  }

  lemma CompTrue(k: Ctx, s: State, no: int, end: int)
    requires UniqueLabels(k.img.text) && CodeAt(k.img.text, s.pc, CompCode(no, end))
    ensures Runs(k.img, 2, s, s.(pc := s.pc + 4, acc := Ref(BoolObj(false))))
  {
    Fetch(k.img, s.pc, CompCode(no, end), 0);
    Fetch(k.img, s.pc, CompCode(no, end), 1);
    Fetch(k.img, s.pc, CompCode(no, end), 4);
    LabelHere(k, s.pc + 4, Num(end));
    RunsTwo(k.img, s, s.(pc := s.pc + 1, acc := Ref(BoolObj(false))), s.(pc := s.pc + 4, acc := Ref(BoolObj(false))));
  }

  lemma CompFalse(img: Image, s: State, pc: nat, no: int, end: int)
    requires CodeAt(img.text, pc, CompCode(no, end)) && s.pc == pc + 2
    ensures Runs(img, 2, s, s.(pc := pc + 4, acc := Ref(BoolObj(true))))
  {
    Fetch(img, pc, CompCode(no, end), 2);
    Fetch(img, pc, CompCode(no, end), 3);
    RunsTwo(img, s, s.(pc := pc + 3), s.(pc := pc + 4, acc := Ref(BoolObj(true))));
  }

  lemma AbortHalts(img: Image, s: State, f: Fault)
    requires s.pc < |img.text| && img.text[s.pc] == AbortCall(f)
    ensures Halts(img, 0, s, Faulted(f), s.out)
  {
    HaltsNow(img, s, Faulted(f));
  }

  /** The check for a void receiver or a void `case` operand. */
  lemma VoidRun(img: Image, s: State, f: Fault, l: int)
    requires CodeAt(img.text, s.pc, AbortOnVoid(f, l)) && s.acc == I(0)
    ensures Halts(img, 3, s, Faulted(f), s.out)
  {
    hide Step, Runs, Halts, CodeAt;
    var code := AbortOnVoid(f, l);
    Fetch(img, s.pc, code, 0);
    Fetch(img, s.pc, code, 1);
    Fetch(img, s.pc, code, 2);
    Fetch(img, s.pc, code, 3);
    var s1 := s.(pc := s.pc + 1);
    var s2 := s.(pc := s.pc + 2, acc := Ref(StrObj(FIRST_STRING)));
    var s3 := s2.(pc := s.pc + 3, t1 := I(1));
    StepBne(img, s, ACC, ZERO, Num(l));
    StepLa(img, s1, ACC, StrObj(FIRST_STRING));
    RunsTwo(img, s, s1, s2);
    StepLi(img, s2, T1, 1);
    RunsMore(img, 2, s, s2, s3);
    AbortHalts(img, s3, f);
    HaltsTrans(img, 3, 0, s, s3, Faulted(f), s.out);
  }

  lemma NotVoidRun(k: Ctx, s: State, f: Fault, l: int, pc: nat)
    requires UniqueLabels(k.img.text) && CodeAt(k.img.text, s.pc, AbortOnVoid(f, l)) && s.acc != I(0)
    requires pc < |k.img.text| && k.img.text[pc] == LabelDef(Num(l))
    ensures Runs(k.img, 1, s, s.(pc := pc))
  {
    Fetch(k.img, s.pc, AbortOnVoid(f, l), 0);
    LabelHere(k, pc, Num(l));
    RunsOne(k.img, s, s.(pc := pc));
  }
}
