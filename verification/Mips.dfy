/**
  The target of the code generator: the MIPS instructions that PA5/cgen.cc emits, on a memory made
  of a stack of words at byte addresses and of objects (blocks of words) named by their label or by
  the order of their allocation.  Emitted text is a sequence of instructions in which a label
  definition is an instruction that does nothing.
 */
module Mips {
  import opened CoolNames
  import opened CoolSyntax
  import opened CoolSemantics

  datatype Label = Num(n: int) | MethodLabel(c: ClassName, m: Name) | InitLabel(c: ClassName)

  /** int_const, bool_const and str_const objects, prototypes, and objects made by Object.copy. */
  datatype ObjRef = IntObj(n: int) | BoolObj(b: bool) | StrObj(s: string) | Proto(c: ClassName) | Dyn(k: nat)

  datatype Word =
    | I(n: int)
    | Stk(a: int)             // address in the stack
    | Ref(r: ObjRef)          // address of an object
    | Disp(c: ClassName)      // address of a dispatch table
    | Lab(l: Label)           // address of emitted code
    | Tab(off: int)           // address inside class_objTab
    | Ret(pc: nat)            // return address
    | Chars(s: string)        // the characters of a String object

  datatype Reg = ZERO | ACC | SELFR | T1 | T2 | SP | FP | RA

  datatype Instr =
    | Lw(dst: Reg, off: int, base: Reg)
    | Sw(src: Reg, off: int, base: Reg)
    | Addiu(dst: Reg, src: Reg, imm: int)
    | Addu(dst: Reg, src1: Reg, src2: Reg)
    | Sll(dst: Reg, src: Reg, num: nat)
    | Li(dst: Reg, imm: int)
    | La(dst: Reg, r: ObjRef)
    | LaTab(dst: Reg)
    | Move(dst: Reg, src: Reg)
    | Arith3(op: ArithOp, dst: Reg, src1: Reg, src2: Reg)
    | NegI(dst: Reg, src: Reg)
    | Beqz(src: Reg, l: Label)
    | Bne(src1: Reg, src2: Reg, l: Label)
    | Bcmp(cmp: CmpOp, src1: Reg, src2: Reg, l: Label)
    | Blti(src: Reg, imm: int, l: Label)
    | Bgti(src: Reg, imm: int, l: Label)
    | B(l: Label)
    | Jal(l: Label)
    | Jalr(src: Reg)
    | JrRa
    | LabelDef(l: Label)
    | AbortCall(f: Fault)     // jal to a routine of the run-time system that ends the program
    | Runtime(rt: NativeOp)   // the body of a run-time routine
    | Halt

  type Heap = imap<ObjRef, seq<Word>>

  datatype State = State(
    pc: nat, acc: Word, slf: Word, t1: Word, t2: Word, sp: Word, fp: Word, ra: Word,
    stack: map<int, Word>, heap: Heap, next: nat, out: seq<Output>)

  /** The text segment, the dispatch tables and class_objTab. */
  datatype Image = Image(text: seq<Instr>, disp: map<ClassName, seq<Label>>, objTab: map<int, ClassName>)

  datatype Why = Faulted(f: Fault) | Finished | Stuck
  datatype Next = Go(s: State) | Stop(why: Why)
  datatype Fetched = Got(w: Word) | BadAddress

  ghost function Get(s: State, r: Reg): Word {
    match r
    case ZERO => I(0)
    case ACC => s.acc
    case SELFR => s.slf
    case T1 => s.t1
    case T2 => s.t2
    case SP => s.sp
    case FP => s.fp
    case RA => s.ra
  }

  /** Writes a register and goes on to the next instruction. */
  ghost function Set(s: State, r: Reg, w: Word): Next {
    match r
    case ZERO => Stop(Stuck)
    case ACC => Go(s.(pc := s.pc + 1, acc := w))
    case SELFR => Go(s.(pc := s.pc + 1, slf := w))
    case T1 => Go(s.(pc := s.pc + 1, t1 := w))
    case T2 => Go(s.(pc := s.pc + 1, t2 := w))
    case SP => Go(s.(pc := s.pc + 1, sp := w))
    case FP => Go(s.(pc := s.pc + 1, fp := w))
    case RA => Go(s.(pc := s.pc + 1, ra := w))
  }

  /** class_objTab holds, for each tag, the prototype and the initialiser of the class. */
  function ObjTabEntry(objTab: map<int, ClassName>, off: int): Fetched {
    if off / 8 !in objTab then BadAddress
    else if off % 8 == 0 then Got(Ref(Proto(objTab[off / 8])))
    else if off % 8 == 4 then Got(Lab(InitLabel(objTab[off / 8])))
    else BadAddress
  }

  /** The word at `k` words from address `w`. */
  ghost function Load(img: Image, s: State, w: Word, k: int): Fetched {
    match w
    case Stk(a) => if a + 4 * k in s.stack then Got(s.stack[a + 4 * k]) else BadAddress
    case Ref(r) => if r in s.heap && 0 <= k < |s.heap[r]| then Got(s.heap[r][k]) else BadAddress
    case Disp(c) => if c in img.disp && 0 <= k < |img.disp[c]| then Got(Lab(img.disp[c][k])) else BadAddress
    case Tab(off) => ObjTabEntry(img.objTab, off + 4 * k)
    case _ => BadAddress
  }

  ghost function StoreWord(s: State, w: Word, k: int, x: Word): Next {
    match w
    case Stk(a) => Go(s.(pc := s.pc + 1, stack := s.stack[a + 4 * k := x]))
    case Ref(r) =>
      if r in s.heap && 0 <= k < |s.heap[r]| then
        Go(s.(pc := s.pc + 1, heap := s.heap[r := s.heap[r][k := x]]))
      else Stop(Stuck)
    case _ => Stop(Stuck)
  }

  /** The position of the first definition of a label; the length of the text when there is none. */
  ghost function Find(text: seq<Instr>, l: Label): (i: nat)
    ensures i <= |text|
  {
    if text == [] then 0
    else if text[0] == LabelDef(l) then 0
    else 1 + Find(text[1..], l)
  }

  ghost function Goto(img: Image, s: State, l: Label): Next {
    Go(s.(pc := Find(img.text, l)))
  }

  ghost function BranchIf(img: Image, s: State, cond: bool, l: Label): Next {
    if cond then Goto(img, s, l) else Go(s.(pc := s.pc + 1))
  }

  /** The low 32 bits as a signed number: the top bit counts -2^31. */
  function Signed(n: int): int {
    var low := n % 0x8000_0000;
    if n / 0x8000_0000 % 2 == 1 then low - 0x8000_0000 else low
  }

  /** add, sub, mul and div: the first two trap when the 32 bits of the result are not the result. */
  function Alu(op: ArithOp, a: int, b: int): ArithResult {
    match op
    case OpAdd => if Signed(a + b) == a + b then Number(a + b) else Trap
    case OpSub => if Signed(a - b) == a - b then Number(a - b) else Trap
    case OpMul => Number(Signed(a * b))
    case OpDiv => if b == 0 then Trap else Number(Signed(if (a < 0) == (b < 0) then Size(a) / Size(b) else -(Size(a) / Size(b))))
  }

  function Size(n: int): (k: nat)
    ensures n != 0 ==> k != 0
  {
    if n < 0 then -n else n
  }

  /** blt and ble look at the sign of a difference. */
  predicate Taken(cmp: CmpOp, a: int, b: int) {
    match cmp
    case Lt => a - b < 0
    case Leq => !(b - a < 0)
  }

  lemma SignedIs(n: int)
    ensures Signed(n) == Wrap(n) && (Signed(n) == n <==> InRange(n))
  {
    var h := n / 0x8000_0000;
    assert n == 0x8000_0000 * h + n % 0x8000_0000;
    if h % 2 == 0 {
      assert n == 0x1_0000_0000 * (h / 2) + n % 0x8000_0000;
    } else {
      assert n == 0x1_0000_0000 * (h / 2) + 0x8000_0000 + n % 0x8000_0000;
    }
  }

  /** The quotient of the sizes, with its sign, is the truncated quotient. */
  lemma SizesDivide(a: int, b: int)
    requires b != 0
    ensures (if (a < 0) == (b < 0) then Size(a) / Size(b) else -(Size(a) / Size(b))) == Quot(a, b)
  {
    assert b < 0 ==> Size(a) / b == -(Size(a) / -b);
  }

  /** The instructions compute what the operators of Cool mean. */
  lemma AluIs(op: ArithOp, a: int, b: int)
    ensures Alu(op, a, b) == ArithValue(op, a, b)
  {
    hide Signed, Wrap, Quot, Size;
    match op
    case OpAdd => SignedIs(a + b);
    case OpSub => SignedIs(a - b);
    case OpMul => SignedIs(a * b);
    case OpDiv =>
      if b != 0 {
        SizesDivide(a, b);
        SignedIs(Quot(a, b));
      }
  }

  lemma TakenIs(cmp: CmpOp, a: int, b: int)
    ensures Taken(cmp, a, b) == CompareValue(cmp, a, b)
  {
  }

  function PowerOfTwo(k: nat): nat {
    if k == 0 then 1 else 2 * PowerOfTwo(k - 1)
  }

  ghost function RuntimeStep(s: State, op: NativeOp): Next {
    if op == RtAbort then Stop(Faulted(UserAbort))
    else if !s.ra.Ret? then Stop(Stuck)
    else
      match op
      case RtCopy =>
        if s.acc.Ref? && s.acc.r in s.heap then
          Go(s.(pc := s.ra.pc, acc := Ref(Dyn(s.next)), next := s.next + 1,
                heap := s.heap[Dyn(s.next) := s.heap[s.acc.r]]))
        else Stop(Stuck)
      case RtOutInt =>
        if s.sp.Stk? && s.sp.a + 4 in s.stack && s.stack[s.sp.a + 4].Ref? then
          var r := s.stack[s.sp.a + 4].r;
          if r in s.heap && |s.heap[r]| > 3 && s.heap[r][3].I? then
            Go(s.(pc := s.ra.pc, sp := Stk(s.sp.a + 4), out := s.out + [OutInt(s.heap[r][3].n)]))
          else Stop(Stuck)
        else Stop(Stuck)
      case RtOutString =>
        if s.sp.Stk? && s.sp.a + 4 in s.stack && s.stack[s.sp.a + 4].Ref? then
          var r := s.stack[s.sp.a + 4].r;
          if r in s.heap && |s.heap[r]| > 4 && IsText(s.heap[r][4]) then
            Go(s.(pc := s.ra.pc, sp := Stk(s.sp.a + 4), out := s.out + [OutStr(TextOf(s.heap[r][4]))]))
          else Stop(Stuck)
        else Stop(Stuck)
      case _ => Stop(Stuck)
  }

  /** The characters of a string object; a zero word is the end of an empty string. */
  predicate IsText(w: Word) {
    w.Chars? || w == I(0)
  }

  function TextOf(w: Word): string
    requires IsText(w)
  {
    if w.Chars? then w.s else ""
  }

  /** One machine step. */
  ghost function Step(img: Image, s: State): Next {
    if s.pc >= |img.text| then Stop(Stuck) else
    match img.text[s.pc]
    case Lw(d, k, b) => (match Load(img, s, Get(s, b), k) case Got(w) => Set(s, d, w) case BadAddress => Stop(Stuck))
    case Sw(r, k, b) => StoreWord(s, Get(s, b), k, Get(s, r))
    case Addiu(d, r, n) =>
      (match Get(s, r)
       case Stk(a) => Set(s, d, Stk(a + n))
       case I(a) => Set(s, d, I(a + n))
       case _ => Stop(Stuck))
    case Addu(d, r1, r2) =>
      if Get(s, r1).Tab? && Get(s, r2).I? then Set(s, d, Tab(Get(s, r1).off + Get(s, r2).n)) else Stop(Stuck)
    case Sll(d, r, k) => if Get(s, r).I? then Set(s, d, I(Get(s, r).n * PowerOfTwo(k))) else Stop(Stuck)
    case Li(d, n) => Set(s, d, I(n))
    case La(d, r) => Set(s, d, Ref(r))
    case LaTab(d) => Set(s, d, Tab(0))
    case Move(d, r) => Set(s, d, Get(s, r))
    case Arith3(op, d, r1, r2) =>
      if Get(s, r1).I? && Get(s, r2).I? then
        match Alu(op, Get(s, r1).n, Get(s, r2).n)
        case Number(n) => Set(s, d, I(n))
        case Trap => Stop(Faulted(ArithFault))
      else Stop(Stuck)
    case NegI(d, r) =>
      if Get(s, r).I? then
        match Alu(OpSub, 0, Get(s, r).n)
        case Number(n) => Set(s, d, I(n))
        case Trap => Stop(Faulted(ArithFault))
      else Stop(Stuck)
    case Beqz(r, l) => BranchIf(img, s, Get(s, r) == I(0), l)
    case Bne(r1, r2, l) => BranchIf(img, s, Get(s, r1) != Get(s, r2), l)
    case Bcmp(cmp, r1, r2, l) =>
      if Get(s, r1).I? && Get(s, r2).I? then
        BranchIf(img, s, Taken(cmp, Get(s, r1).n, Get(s, r2).n), l)
      else Stop(Stuck)
    case Blti(r, n, l) => if Get(s, r).I? then BranchIf(img, s, Get(s, r).n < n, l) else Stop(Stuck)
    case Bgti(r, n, l) => if Get(s, r).I? then BranchIf(img, s, Get(s, r).n > n, l) else Stop(Stuck)
    case B(l) => Goto(img, s, l)
    case Jal(l) => Goto(img, s.(ra := Ret(s.pc + 1)), l)
    case Jalr(r) => if Get(s, r).Lab? then Goto(img, s.(ra := Ret(s.pc + 1)), Get(s, r).l) else Stop(Stuck)
    case JrRa => if s.ra.Ret? then Go(s.(pc := s.ra.pc)) else Stop(Stuck)
    case LabelDef(_) => Go(s.(pc := s.pc + 1))
    case AbortCall(f) => Stop(Faulted(f))
    case Runtime(op) => RuntimeStep(s, op)
    case Halt => Stop(Finished)
  }

  // What single instructions do.

  lemma StepLw(img: Image, s: State, d: Reg, k: int, b: Reg, w: Word)
    requires s.pc < |img.text| && img.text[s.pc] == Lw(d, k, b) && Load(img, s, Get(s, b), k) == Got(w)
    ensures Step(img, s) == Set(s, d, w)
  {
  }

  lemma StepSw(img: Image, s: State, r: Reg, k: int, b: Reg)
    requires s.pc < |img.text| && img.text[s.pc] == Sw(r, k, b)
    ensures Step(img, s) == StoreWord(s, Get(s, b), k, Get(s, r))
  {
  }

  lemma StepAddiu(img: Image, s: State, d: Reg, r: Reg, n: int)
    requires s.pc < |img.text| && img.text[s.pc] == Addiu(d, r, n) && Get(s, r).Stk?
    ensures Step(img, s) == Set(s, d, Stk(Get(s, r).a + n))
  {
  }

  lemma StepLa(img: Image, s: State, d: Reg, r: ObjRef)
    requires s.pc < |img.text| && img.text[s.pc] == La(d, r)
    ensures Step(img, s) == Set(s, d, Ref(r))
  {
  }

  lemma StepLi(img: Image, s: State, d: Reg, n: int)
    requires s.pc < |img.text| && img.text[s.pc] == Li(d, n)
    ensures Step(img, s) == Set(s, d, I(n))
  {
  }

  lemma StepMove(img: Image, s: State, d: Reg, r: Reg)
    requires s.pc < |img.text| && img.text[s.pc] == Move(d, r)
    ensures Step(img, s) == Set(s, d, Get(s, r))
  {
  }

  lemma StepBne(img: Image, s: State, r1: Reg, r2: Reg, l: Label)
    requires s.pc < |img.text| && img.text[s.pc] == Bne(r1, r2, l)
    ensures Step(img, s) == BranchIf(img, s, Get(s, r1) != Get(s, r2), l)
  {
  }

  ghost predicate StepAt(img: Image, trace: seq<State>, i: nat)
    requires i + 1 < |trace|
  {
    Step(img, trace[i]) == Go(trace[i + 1])
  }

  /** The states of a run of `n` steps from `s` to `t`. */
  ghost predicate IsTrace(img: Image, trace: seq<State>, n: nat, s: State, t: State) {
    && |trace| == n + 1 && trace[0] == s && trace[n] == t
    && forall i: nat {:trigger StepAt(img, trace, i)} :: i < n ==> StepAt(img, trace, i)
  }

  /** `t` is the state `n` steps after `s`. */
  ghost predicate Runs(img: Image, n: nat, s: State, t: State) {
    exists trace :: IsTrace(img, trace, n, s, t)
  }

  /** After `n` steps from `s` the machine stops, having printed `out`. */
  ghost predicate Halts(img: Image, n: nat, s: State, why: Why, out: seq<Output>) {
    exists t :: Runs(img, n, s, t) && Step(img, t) == Stop(why) && t.out == out
  }

  lemma RunsNone(img: Image, s: State)
    ensures Runs(img, 0, s, s)
  {
    assert IsTrace(img, [s], 0, s, s);
  }

  lemma RunsOne(img: Image, s: State, t: State)
    requires Step(img, s) == Go(t)
    ensures Runs(img, 1, s, t)
  {
    assert StepAt(img, [s, t], 0);
    assert IsTrace(img, [s, t], 1, s, t);
  }

  lemma RunsTrans(img: Image, m: nat, n: nat, s: State, t: State, u: State)
    requires Runs(img, m, s, t) && Runs(img, n, t, u)
    ensures Runs(img, m + n, s, u)
  {
    var a :| IsTrace(img, a, m, s, t);
    var b :| IsTrace(img, b, n, t, u);
    var c := a + b[1..];
    assert forall i :: m <= i <= m + n ==> c[i] == b[i - m];
    forall i: nat | i < m + n ensures StepAt(img, c, i) {
      assert if i < m then StepAt(img, a, i) else StepAt(img, b, i - m);
    }
    assert IsTrace(img, c, m + n, s, u);
  }

  lemma HaltsTrans(img: Image, m: nat, n: nat, s: State, t: State, why: Why, out: seq<Output>)
    requires Runs(img, m, s, t) && Halts(img, n, t, why, out)
    ensures Halts(img, m + n, s, why, out)
  {
    var u :| Runs(img, n, t, u) && Step(img, u) == Stop(why) && u.out == out;
    RunsTrans(img, m, n, s, t, u);
  }

  lemma HaltsNow(img: Image, s: State, why: Why)
    requires Step(img, s) == Stop(why)
    ensures Halts(img, 0, s, why, s.out)
  {
    RunsNone(img, s);
  }

  lemma {:induction false} SameTrace(img: Image, a: seq<State>, b: seq<State>, m: nat, n: nat, s: State, t: State, u: State, i: nat)
    requires IsTrace(img, a, m, s, t) && IsTrace(img, b, n, s, u) && i <= m && i <= n
    ensures a[i] == b[i]
    decreases i
  {
    if i != 0 {
      SameTrace(img, a, b, m, n, s, t, u, i - 1);
      assert StepAt(img, a, i - 1) && StepAt(img, b, i - 1);
    }
  }

  /** The machine is deterministic: a run that stops after `m` steps is not running after more, and prints one output. */
  lemma StoppedStays(img: Image, m: nat, n: nat, s: State, why: Why, out: seq<Output>, u: State)
    requires Halts(img, m, s, why, out) && Runs(img, n, s, u)
    ensures n <= m
    ensures Step(img, u).Stop? ==> n == m && Step(img, u) == Stop(why) && u.out == out
  {
    var t :| Runs(img, m, s, t) && Step(img, t) == Stop(why) && t.out == out;
    var a :| IsTrace(img, a, m, s, t);
    var b :| IsTrace(img, b, n, s, u);
    var i := if m < n then m else n;
    SameTrace(img, a, b, m, n, s, t, u, i);
    assert m < n ==> StepAt(img, b, m);
    assert n < m ==> StepAt(img, a, n);
  }

  // ---------------------------------------------------------------------------------------------
  // Labels and positions.

  /** How often `l` is defined in `code`. */
  ghost function Count(code: seq<Instr>, l: Label): nat {
    if code == [] then 0
    else (if code[0] == LabelDef(l) then 1 else 0) + Count(code[1..], l)
  }

  lemma {:induction false} CountConcat(a: seq<Instr>, b: seq<Instr>, l: Label)
    ensures Count(a + b, l) == Count(a, l) + Count(b, l)
    decreases |a|
  {
    if a == [] {
      assert a + b == b;
    } else {
      assert (a + b)[1..] == a[1..] + b;
      CountConcat(a[1..], b, l);
    }
  }

  lemma {:induction false} CountAt(code: seq<Instr>, i: nat, l: Label)
    requires i < |code| && code[i] == LabelDef(l)
    ensures Count(code, l) >= 1
    decreases |code|
  {
    if i != 0 {
      CountAt(code[1..], i - 1, l);
    }
  }

  /** A label that is defined once is found where it is defined. */
  lemma {:induction false} FindUnique(code: seq<Instr>, i: nat, l: Label)
    requires i < |code| && code[i] == LabelDef(l) && Count(code, l) <= 1
    ensures Find(code, l) == i
    decreases |code|
  {
    if i != 0 {
      CountAt(code[1..], i - 1, l);
      FindUnique(code[1..], i - 1, l);
    }
  }

  /** `code` stands in `text` at position `pc`. */
  ghost predicate CodeAt(text: seq<Instr>, pc: nat, code: seq<Instr>) {
    pc + |code| <= |text| && text[pc..pc + |code|] == code
  }

  lemma CodeSplit(text: seq<Instr>, pc: nat, a: seq<Instr>, b: seq<Instr>)
    requires CodeAt(text, pc, a + b)
    ensures CodeAt(text, pc, a) && CodeAt(text, pc + |a|, b)
  {
    var c := text[pc..pc + |a + b|];
    assert c[..|a|] == a && c[|a|..] == b;
    assert text[pc..pc + |a|] == c[..|a|];
    assert text[pc + |a|..pc + |a| + |b|] == c[|a|..];
  }

  lemma CodeIndex(text: seq<Instr>, pc: nat, code: seq<Instr>, i: nat)
    requires CodeAt(text, pc, code) && i < |code|
    ensures pc + i < |text| && text[pc + i] == code[i]
  {
    assert text[pc..pc + |code|][i] == code[i];
  }
}
