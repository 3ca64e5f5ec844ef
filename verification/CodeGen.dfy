/**
  The code generator of PA5/cgen.cc as a function from syntax to instructions: what each
  `*_class::code` emits, given the environment, the position `tmp` of the stack pointer relative to
  the frame pointer (in words), and the next free label.
 */
module CodeGen {
  import opened CoolNames
  import opened Inheritance
  import opened CoolSyntax
  import opened Layout
  import opened ClassTags
  import opened CoolSemantics
  import opened Mips

  /** Where a variable lives: `off` words from $fp, or attribute number `k` of the object in $s0. */
  datatype Place = Local(off: int) | AttrSlot(k: nat)

  type Scope = map<Name, Place>

  /** Emitted code and the next free label. */
  datatype Gen = Gen(code: seq<Instr>, next: int)

  const DEFAULT_OBJFIELDS: int := 3
  const TAG_OFFSET: int := 0
  const DISPTABLE_OFFSET: int := 2

  /** stringtable.lookup(0): the string passed to the abort routines. */
  const FIRST_STRING: string := ""

  const PUSH: seq<Instr> := [Sw(ACC, 0, SP), Addiu(SP, SP, -4)]
  const POP: seq<Instr> := [Addiu(SP, SP, 4)]

  const ENTER: seq<Instr> := [
    Addiu(SP, SP, -12), Sw(FP, 3, SP), Sw(SELFR, 2, SP), Sw(RA, 1, SP), Addiu(FP, SP, 12), Move(SELFR, ACC)]

  function Exit(formals: nat): seq<Instr> {
    [Lw(FP, 3, SP), Lw(SELFR, 2, SP), Lw(RA, 1, SP), Addiu(SP, SP, 4 * (formals + 3)), JrRa]
  }

  function PlaceOf(env: Scope, x: Name): Place {
    if x in env then env[x] else Local(0)
  }

  function LoadVar(env: Scope, x: Name): Instr {
    match PlaceOf(env, x)
    case Local(off) => Lw(ACC, off, FP)
    case AttrSlot(k) => Lw(ACC, DEFAULT_OBJFIELDS + k, SELFR)
  }

  function StoreVar(env: Scope, x: Name): Instr {
    match PlaceOf(env, x)
    case Local(off) => Sw(ACC, off, FP)
    case AttrSlot(k) => Sw(ACC, DEFAULT_OBJFIELDS + k, SELFR)
  }

  function DefaultCode(ty: StaticType): seq<Instr> {
    match ty
    case Of(IntC) => [La(ACC, IntObj(0))]
    case Of(BoolC) => [La(ACC, BoolObj(false))]
    case Of(StringC) => [La(ACC, StrObj(""))]
    case _ => [Move(ACC, ZERO)]
  }

  /** method_class: the class whose definition of `m` is in the table of `c`. */
  ghost function MethodClass(P: Program, c: ClassName, m: Name): ClassName
    requires Hierarchy(P)
  {
    if c in P.classes && m in MethLayout(P, c).definer then MethLayout(P, c).definer[m] else NoClass
  }

  /** method_offset: -1 stands for ~0, the offset of a method that is not there. */
  ghost function MethodOffset(P: Program, c: ClassName, m: Name): int
    requires Hierarchy(P)
  {
    if c in P.classes && Nearest(P, c, m) != NoClass then Slot(P, c, m) else -1
  }

  ghost function CopyLabel(P: Program, c: ClassName): Label
    requires Hierarchy(P)
  {
    MethodLabel(MethodClass(P, c, COPY), COPY)
  }

  function AbortOnVoid(f: Fault, l: int): seq<Instr> {
    [Bne(ACC, ZERO, Num(l)), La(ACC, StrObj(FIRST_STRING)), Li(T1, 1), AbortCall(f)]
  }

  /** The second half of code_arithm_expr, after both operands. */
  ghost function ArithTail(P: Program, op: ArithOp): seq<Instr>
    requires Hierarchy(P)
  {
    [Jal(CopyLabel(P, IntC)), Lw(T1, 1, SP), Lw(T1, DEFAULT_OBJFIELDS, T1), Lw(T2, DEFAULT_OBJFIELDS, ACC),
     Arith3(op, T1, T1, T2), Sw(T1, DEFAULT_OBJFIELDS, ACC), Addiu(SP, SP, 4)]
  }

  ghost function NegTail(P: Program): seq<Instr>
    requires Hierarchy(P)
  {
    [Jal(CopyLabel(P, IntC)), Lw(T1, DEFAULT_OBJFIELDS, ACC), NegI(T1, T1), Sw(T1, DEFAULT_OBJFIELDS, ACC)]
  }

  function CompareTail(cmp: CmpOp, end: int): seq<Instr> {
    [Lw(T1, 1, SP), Lw(T1, DEFAULT_OBJFIELDS, T1), Lw(T2, DEFAULT_OBJFIELDS, ACC), La(ACC, BoolObj(true)),
     Bcmp(cmp, T1, T2, Num(end)), La(ACC, BoolObj(false)), LabelDef(Num(end)), Addiu(SP, SP, 4)]
  }

  function CompTail(no: int, end: int): seq<Instr> {
    [Lw(ACC, DEFAULT_OBJFIELDS, ACC), Beqz(ACC, Num(no)), La(ACC, BoolObj(false)), B(Num(end)),
     LabelDef(Num(no)), La(ACC, BoolObj(true)), LabelDef(Num(end))]
  }

  function TestFalse(l: int): seq<Instr> {
    [Lw(ACC, DEFAULT_OBJFIELDS, ACC), Beqz(ACC, Num(l))]
  }

  ghost function NewCode(P: Program, c: ClassName): seq<Instr>
    requires Hierarchy(P)
  {
    [La(ACC, Proto(c)), Jal(CopyLabel(P, c)), Jal(InitLabel(c))]
  }

  const NEWSELF: seq<Instr> := [
    LaTab(T1), Lw(T2, TAG_OFFSET, SELFR), Sll(T2, T2, 3), Addu(T1, T1, T2),
    Sw(T1, 0, SP), Addiu(SP, SP, -4), Lw(ACC, 0, T1), Jal(MethodLabel(ObjectC, COPY)),
    Lw(T1, 1, SP), Addiu(SP, SP, 4), Lw(T1, 1, T1), Jalr(T1)]

  ghost function DispatchTail(P: Program, c: ClassName, m: Name, l: int): seq<Instr>
    requires Hierarchy(P)
  {
    AbortOnVoid(DispatchVoid, l)
    + [LabelDef(Num(l)), Lw(T1, DISPTABLE_OFFSET, ACC), Lw(T1, MethodOffset(P, c, m), T1), Jalr(T1)]
  }

  ghost function StaticDispatchTail(P: Program, c: ClassName, m: Name, l: int): seq<Instr>
    requires Hierarchy(P)
  {
    AbortOnVoid(DispatchVoid, l) + [LabelDef(Num(l)), Jal(MethodLabel(MethodClass(P, c, m), m))]
  }

  function BranchTest(iv: Interval, cur: int, next: int): seq<Instr> {
    [LabelDef(Num(cur)), Lw(T1, TAG_OFFSET, ACC), Blti(T1, iv.tag, Num(next)), Bgti(T1, iv.end, Num(next))]
  }

  ghost function Compile(P: Program, cls: ClassName, env: Scope, tmp: int, e: Expr, l: int): Gen
    requires Hierarchy(P)
    decreases e, 1
  {
    match e
    case IntConst(n) => Gen([La(ACC, IntObj(n))], l)
    case BoolConst(b) => Gen([La(ACC, BoolObj(b))], l)
    case StrConst(s) => Gen([La(ACC, StrObj(s))], l)
    case NoExpr(ty) => Gen(DefaultCode(ty), l)
    case Object(x) => Gen(if x == SELF then [Move(ACC, SELFR)] else [LoadVar(env, x)], l)
    case Assign(x, e1) =>
      var g := Compile(P, cls, env, tmp, e1, l);
      Gen(g.code + [StoreVar(env, x)], g.next)
    case Block(es) => CompileSeq(P, cls, env, tmp, es, l)
    case Cond(p, t, f) =>
      var g0 := Compile(P, cls, env, tmp, p, l);
      var g1 := Compile(P, cls, env, tmp, t, g0.next + 2);
      var g2 := Compile(P, cls, env, tmp, f, g1.next);
      Gen(g0.code + (TestFalse(g0.next) + (g1.code + ([B(Num(g0.next + 1)), LabelDef(Num(g0.next))]
          + (g2.code + [LabelDef(Num(g0.next + 1))])))), g2.next)
    case Loop(p, b) =>
      var g0 := Compile(P, cls, env, tmp, p, l + 2);
      var g1 := Compile(P, cls, env, tmp, b, g0.next);
      Gen([LabelDef(Num(l))] + (g0.code + (TestFalse(l + 1) + (g1.code
          + [B(Num(l)), LabelDef(Num(l + 1))]))), g1.next)
    case Let(x, _, init, body) =>
      var g0 := Compile(P, cls, env, tmp, init, l);
      var g1 := Compile(P, cls, env[x := Local(tmp)], tmp - 1, body, g0.next);
      Gen(g0.code + (PUSH + (g1.code + POP)), g1.next)
    case Arith(op, e1, e2) =>
      var g0 := Compile(P, cls, env, tmp, e1, l);
      var g1 := Compile(P, cls, env, tmp - 1, e2, g0.next);
      Gen(g0.code + (PUSH + (g1.code + ArithTail(P, op))), g1.next)
    case Neg(e1) =>
      var g := Compile(P, cls, env, tmp, e1, l);
      Gen(g.code + NegTail(P), g.next)
    case Compare(cmp, e1, e2) =>
      var g0 := Compile(P, cls, env, tmp, e1, l);
      var g1 := Compile(P, cls, env, tmp - 1, e2, g0.next);
      Gen(g0.code + (PUSH + (g1.code + CompareTail(cmp, g1.next))), g1.next + 1)
    case Comp(e1) =>
      var g := Compile(P, cls, env, tmp, e1, l);
      Gen(g.code + CompTail(g.next, g.next + 1), g.next + 2)
    case Dispatch(e0, sty, m, args) =>
      var g0 := CompileArgs(P, cls, env, tmp, args, l);
      var g1 := Compile(P, cls, env, tmp - |args|, e0, g0.next);
      Gen(g0.code + (g1.code + DispatchTail(P, StaticClass(sty, cls), m, g1.next)), g1.next + 1)
    case StaticDispatch(e0, c, m, args) =>
      var g0 := CompileArgs(P, cls, env, tmp, args, l);
      var g1 := Compile(P, cls, env, tmp - |args|, e0, g0.next);
      Gen(g0.code + (g1.code + StaticDispatchTail(P, c, m, g1.next)), g1.next + 1)
    case TypCase(e0, cases) =>
      var g0 := Compile(P, cls, env, tmp, e0, l + 1);
      var g1 := CompileCases(P, cls, env, tmp, cases, Arrange(Intervals(P, CaseTypes(cases))), l, g0.next, g0.next + 1);
      Gen(g0.code + (AbortOnVoid(CaseVoid, g0.next) + g1.code), g1.next)
    case New(c) => Gen(NewCode(P, c), l)
    case NewSelf => Gen(NEWSELF, l)
  }

  ghost function CompileSeq(P: Program, cls: ClassName, env: Scope, tmp: int, es: seq<Expr>, l: int): Gen
    requires Hierarchy(P)
    decreases es, 0
  {
    if es == [] then Gen([], l)
    else
      var g0 := Compile(P, cls, env, tmp, es[0], l);
      var g1 := CompileSeq(P, cls, env, tmp, es[1..], g0.next);
      Gen(g0.code + g1.code, g1.next)
  }

  /** The actual arguments, each pushed on the stack. */
  ghost function CompileArgs(P: Program, cls: ClassName, env: Scope, tmp: int, es: seq<Expr>, l: int): Gen
    requires Hierarchy(P)
    decreases es, 0
  {
    if es == [] then Gen([], l)
    else
      var g0 := Compile(P, cls, env, tmp, es[0], l);
      var g1 := CompileArgs(P, cls, env, tmp - 1, es[1..], g0.next);
      Gen(g0.code + (PUSH + g1.code), g1.next)
  }

  /** The branches of a `case` in the order `order`, the first at label `cur`; `l` is the next free label. */
  ghost function CompileCases(P: Program, cls: ClassName, env: Scope, tmp: int, cases: seq<Branch>, order: seq<nat>, esac: int, cur: int, l: int): Gen
    requires Hierarchy(P) && forall i :: 0 <= i < |order| ==> order[i] < |cases|
    decreases cases, |order|
  {
    if order == [] then
      Gen([LabelDef(Num(cur)), AbortCall(CaseNoMatch), LabelDef(Num(esac))], l)
    else
      var br := cases[order[0]];
      var g0 := Compile(P, cls, env[br.x := Local(tmp)], tmp - 1, br.body, l + 1);
      var g1 := CompileCases(P, cls, env, tmp, cases, order[1..], esac, l, g0.next);
      Gen(BranchTest(IntervalOf(P, br.c), cur, l) + (PUSH + (g0.code + (POP + ([B(Num(esac))] + g1.code)))), g1.next)
  }

  /** The scope of code_methods: every attribute of the layout. */
  function AttrScope(layout: seq<Attr>): Scope {
    if layout == [] then map[]
    else AttrScope(layout[..|layout| - 1])[layout[|layout| - 1].name := AttrSlot(|layout| - 1)]
  }

  /** The scope of code_method: formal i of n is n - i words above $fp. */
  function FormalScope(env: Scope, formals: seq<Name>, n: nat): Scope {
    if formals == [] then env
    else FormalScope(env, formals[..|formals| - 1], n)[formals[|formals| - 1] := Local(n - (|formals| - 1))]
  }

  ghost function MethodScope(P: Program, c: ClassName, formals: seq<Name>): Scope
    requires Hierarchy(P) && c in P.classes
  {
    FormalScope(AttrScope(AttrLayout(P, c)), formals, |formals|)
  }

  /** code_method */
  ghost function MethodCode(P: Program, c: ClassName, m: Method, l: int): Gen
    requires Hierarchy(P) && c in P.classes && m.body.Code?
  {
    var g := Compile(P, c, MethodScope(P, c, m.formals), -3, m.body.e, l);
    Gen([LabelDef(MethodLabel(c, m.name))] + (ENTER + (g.code + Exit(|m.formals|))), g.next)
  }

  /** code_init */
  ghost function InitCode(P: Program, c: ClassName, l: int): Gen
    requires Hierarchy(P) && c in P.classes
  {
    var g := CompileSeq(P, c, AttrScope(AttrLayout(P, c)), -3, InitExprs(P.classes[c].attrs), l);
    Gen([LabelDef(InitLabel(c))] + (ENTER + (ParentInit(P, c) + (g.code + ([Move(ACC, SELFR)] + Exit(0))))), g.next)
  }

  ghost function ParentInit(P: Program, c: ClassName): seq<Instr>
    requires Hierarchy(P) && c in P.classes
  {
    if P.classes[c].parent == NoClass then [] else [Jal(InitLabel(P.classes[c].parent))]
  }

  /** The entry of a routine of the run-time system. */
  function NativeCode(c: ClassName, m: Method): seq<Instr>
    requires m.body.Native?
  {
    [LabelDef(MethodLabel(c, m.name)), Runtime(m.body.op)]
  }

  /** code_disptab */
  ghost function DispTable(P: Program, c: ClassName): (r: seq<Label>)
    requires Hierarchy(P) && c in P.classes
    ensures |r| == |MethLayout(P, c).layout|
  {
    var ms := MethLayout(P, c);
    seq(|ms.layout|, i requires 0 <= i < |ms.layout| =>
      MethodLabel(MethodClass(P, c, ms.layout[i]), ms.layout[i]))
  }

  // ---------------------------------------------------------------------------------------------
  // The words of objects in the data segment.

  function BoolWord(b: bool): Word {
    I(if b then 1 else 0)
  }

  function TagWord(P: Program, c: ClassName): Word {
    I(if c in P.tag then P.tag[c] else 0)
  }

  function IntWords(P: Program, n: int): seq<Word> {
    [TagWord(P, IntC), I(4), Disp(IntC), I(n)]
  }

  function BoolWords(P: Program, b: bool): seq<Word> {
    [TagWord(P, BoolC), I(4), Disp(BoolC), BoolWord(b)]
  }

  function StrWords(P: Program, s: string): seq<Word> {
    [TagWord(P, StringC), I(4 + (|s| + 4) / 4), Disp(StringC), Ref(IntObj(|s|)), Chars(s)]
  }

  function DefaultWord(ty: StaticType): Word {
    match ty
    case Of(IntC) => Ref(IntObj(0))
    case Of(BoolC) => Ref(BoolObj(false))
    case Of(StringC) => Ref(StrObj(""))
    case _ => I(0)
  }

  /** code_protobj */
  ghost function ProtoWords(P: Program, c: ClassName): seq<Word>
    requires Hierarchy(P) && c in P.classes
  {
    if c == IntC then IntWords(P, 0)
    else if c == BoolC then BoolWords(P, false)
    else if c == StringC then StrWords(P, "")
    else ObjectWords(P, c, AttrLayout(P, c))
  }

  function ObjectWords(P: Program, c: ClassName, layout: seq<Attr>): (r: seq<Word>)
    ensures |r| == 3 + |layout| && r[0] == TagWord(P, c) && r[2] == Disp(c)
    ensures forall i :: 0 <= i < |layout| ==> r[3 + i] == DefaultWord(layout[i].ty)
  {
    [TagWord(P, c), I(3 + |layout|), Disp(c)]
    + seq(|layout|, i requires 0 <= i < |layout| => DefaultWord(layout[i].ty))
  }
}
