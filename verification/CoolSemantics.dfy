/**
  A definitional interpreter for Cool (Cool manual, section 13).  Values of the basic classes are
  immutable; objects live in a store and name their attributes.  The fuel bounds the number of
  nested calls, initialisations and loop iterations: `Timeout` means that it ran out.
  `Wrong` marks ill-typed evaluation, which a program whose checks all succeed never reaches.
 */
module CoolSemantics {
  import opened CoolNames
  import opened Inheritance
  import opened CoolSyntax
  import opened Layout
  import opened ClassTags

  datatype Value = VInt(n: int) | VBool(b: bool) | VStr(s: string) | VVoid | VObj(id: nat)

  datatype Obj = Obj(cls: ClassName, attrs: map<Name, Value>)

  datatype Output = OutInt(n: int) | OutStr(s: string)

  /** The object store and what the program has printed. */
  datatype Store = Store(objs: seq<Obj>, out: seq<Output>)

  type Env = map<Name, Value>

  /** The ways in which the run-time system ends a program. */
  datatype Fault = DispatchVoid | CaseVoid | CaseNoMatch | ArithFault | UserAbort

  datatype Outcome =
    | Val(v: Value, env: Env, st: Store)
    | Abort(f: Fault, out: seq<Output>)
    | Timeout
    | Wrong

  datatype ArgsOutcome = Args(vs: seq<Value>, env: Env, st: Store) | Stopped(o: Outcome)

  const MAXINT: int := 0x7FFF_FFFF
  const MININT: int := -0x8000_0000

  predicate InRange(n: int) {
    MININT <= n <= MAXINT
  }

  /** The low 32 bits of `n`, as a signed number. */
  function Wrap(n: int): (r: int)
    ensures InRange(r) && (r - n) % 0x1_0000_0000 == 0
  {
    var m := n % 0x1_0000_0000;
    if m <= MAXINT then m else m - 0x1_0000_0000
  }

  /** Division truncates toward zero. */
  function Quot(a: int, b: int): int
    requires b != 0
  {
    if a >= 0 then a / b else -((-a) / b)
  }

  datatype ArithResult = Number(n: int) | Trap

  /** The MIPS instructions add, sub, mul and div: the first two trap on overflow, mul wraps. */
  function ArithValue(op: ArithOp, a: int, b: int): ArithResult {
    match op
    case OpAdd => if InRange(a + b) then Number(a + b) else Trap
    case OpSub => if InRange(a - b) then Number(a - b) else Trap
    case OpMul => Number(Wrap(a * b))
    case OpDiv => if b == 0 then Trap else Number(Wrap(Quot(a, b)))
  }

  function NegValue(a: int): ArithResult {
    ArithValue(OpSub, 0, a)
  }

  predicate CompareValue(cmp: CmpOp, a: int, b: int) {
    match cmp
    case Lt => a < b
    case Leq => a <= b
  }

  /** The default value of a declared type. */
  function Default(ty: StaticType): Value {
    match ty
    case Of(IntC) => VInt(0)
    case Of(BoolC) => VBool(false)
    case Of(StringC) => VStr("")
    case _ => VVoid
  }

  function Put(st: Store, id: nat, x: Name, v: Value): Store
    requires id < |st.objs|
  {
    st.(objs := st.objs[id := st.objs[id].(attrs := st.objs[id].attrs[x := v])])
  }

  /** The class of a non-void value. */
  function ClassOf(st: Store, v: Value): ClassName {
    match v
    case VInt(_) => IntC
    case VBool(_) => BoolC
    case VStr(_) => StringC
    case VVoid => NoClass
    case VObj(id) => if id < |st.objs| then st.objs[id].cls else NoClass
  }

  /** `x` is an attribute that class `cls` declares or inherits. */
  ghost predicate HasAttr(P: Program, cls: ClassName, x: Name)
    requires Hierarchy(P) && HasClass(P, cls)
  {
    exists i :: 0 <= i < |AttrLayout(P, cls)| && AttrLayout(P, cls)[i].name == x
  }

  /** `x` names an attribute of the object `self`, in scope in the methods of class `cls`. */
  ghost predicate AttrInScope(P: Program, cls: ClassName, self: Value, st: Store, x: Name)
    requires Hierarchy(P)
  {
    && self.VObj? && self.id < |st.objs| && x in st.objs[self.id].attrs
    && cls in P.classes && HasAttr(P, cls, x)
  }

  /** What a variable denotes: self, a local, or an attribute of self. */
  ghost function ReadVar(P: Program, cls: ClassName, self: Value, env: Env, st: Store, x: Name): Outcome
    requires Hierarchy(P)
  {
    if x == SELF then Val(self, env, st)
    else if x in env then Val(env[x], env, st)
    else if AttrInScope(P, cls, self, st, x) then Val(st.objs[self.id].attrs[x], env, st)
    else Wrong
  }

  ghost function WriteVar(P: Program, cls: ClassName, self: Value, env: Env, st: Store, x: Name, v: Value): Outcome
    requires Hierarchy(P)
  {
    if x == SELF then Wrong
    else if x in env then Val(v, env[x := v], st)
    else if AttrInScope(P, cls, self, st, x) then Val(v, env, Put(st, self.id, x, v))
    else Wrong
  }

  /** Leaves the scope of `x`: the binding that it hid, if any, is visible again. */
  function Unbind(outer: Env, inner: Env, x: Name): Env {
    if x in outer then inner[x := outer[x]] else inner - {x}
  }

  /** Ends the scope of `x` in a finished evaluation. */
  function LeaveScope(outer: Env, x: Name, o: Outcome): Outcome {
    match o
    case Val(v, env, st) => Val(v, Unbind(outer, env, x), st)
    case _ => o
  }

  /** Formal i is bound to actual i. */
  function Bind(formals: seq<Name>, vs: seq<Value>): Env
    requires |formals| == |vs|
  {
    if formals == [] then map[]
    else Bind(formals[..|formals| - 1], vs[..|vs| - 1])[formals[|formals| - 1] := vs[|vs| - 1]]
  }

  function ArithOutcome(op: ArithOp, a: Value, o: Outcome): Outcome {
    match o
    case Val(b, env, st) =>
      if a.VInt? && b.VInt? then
        match ArithValue(op, a.n, b.n)
        case Number(n) => Val(VInt(n), env, st)
        case Trap => Abort(ArithFault, st.out)
      else Wrong
    case _ => o
  }

  function CompareOutcome(cmp: CmpOp, a: Value, o: Outcome): Outcome {
    match o
    case Val(b, env, st) =>
      if a.VInt? && b.VInt? then Val(VBool(CompareValue(cmp, a.n, b.n)), env, st) else Wrong
    case _ => o
  }

  function NegOutcome(o: Outcome): Outcome {
    match o
    case Val(a, env, st) =>
      if a.VInt? then
        match NegValue(a.n)
        case Number(n) => Val(VInt(n), env, st)
        case Trap => Abort(ArithFault, st.out)
      else Wrong
    case _ => o
  }

  function CompOutcome(o: Outcome): Outcome {
    match o
    case Val(a, env, st) => if a.VBool? then Val(VBool(!a.b), env, st) else Wrong
    case _ => o
  }

  /** A call returns to the caller's environment. */
  function Return(env: Env, o: Outcome): Outcome {
    match o
    case Val(v, _, st) => Val(v, env, st)
    case _ => o
  }

  /** The run-time routines; `n` counts the arguments they take. */
  function NativeArity(op: NativeOp): nat {
    match op
    case RtCopy => 0
    case RtAbort => 0
    case RtOutInt => 1
    case RtOutString => 1
  }

  function RunNative(op: NativeOp, self: Value, vs: seq<Value>, st: Store): Outcome {
    if |vs| != NativeArity(op) then Wrong else
    match op
    case RtAbort => Abort(UserAbort, st.out)
    case RtOutInt => if vs[0].VInt? then Val(self, map[], st.(out := st.out + [OutInt(vs[0].n)])) else Wrong
    case RtOutString => if vs[0].VStr? then Val(self, map[], st.(out := st.out + [OutStr(vs[0].s)])) else Wrong
    case RtCopy =>
      if self.VObj? && self.id < |st.objs| then
        Val(VObj(|st.objs|), map[], st.(objs := st.objs + [st.objs[self.id]]))
      else if self.VVoid? then Wrong
      else Val(self, map[], st)
  }

  function CaseTypes(cases: seq<Branch>): (r: seq<ClassName>)
    ensures |r| == |cases| && forall i :: 0 <= i < |r| ==> r[i] == cases[i].c
  {
    seq(|cases|, i requires 0 <= i < |cases| => cases[i].c)
  }

  /** The static type of a receiver, resolved in the class that contains the dispatch. */
  function StaticClass(sty: StaticType, cls: ClassName): ClassName {
    match sty
    case Of(c) => c
    case _ => cls
  }

  /** The assignments that initialise the attributes a class declares, in order. */
  function InitExprs(attrs: seq<Attr>): (r: seq<Expr>)
    ensures |r| == |attrs| && forall i :: 0 <= i < |r| ==> r[i] == Assign(attrs[i].name, attrs[i].init)
  {
    seq(|attrs|, i requires 0 <= i < |attrs| => Assign(attrs[i].name, attrs[i].init))
  }

  /** Every attribute of a new object has the default of its type. */
  function Defaults(layout: seq<Attr>): Env {
    if layout == [] then map[]
    else Defaults(layout[..|layout| - 1])[layout[|layout| - 1].name := Default(layout[|layout| - 1].ty)]
  }

  predicate IsBasic(c: ClassName) {
    c == IntC || c == BoolC || c == StringC
  }

  // ---------------------------------------------------------------------------------------------

  /** What an expression in a method of class `cls` evaluates to. */
  ghost function Eval(P: Program, fuel: nat, cls: ClassName, self: Value, env: Env, st: Store, e: Expr): Outcome
    requires Hierarchy(P)
    decreases fuel, 0, e, 1
  {
    match e
    case IntConst(n) => if InRange(n) then Val(VInt(n), env, st) else Wrong
    case BoolConst(b) => Val(VBool(b), env, st)
    case StrConst(s) => Val(VStr(s), env, st)
    case NoExpr(ty) => Val(Default(ty), env, st)
    case Object(x) => ReadVar(P, cls, self, env, st, x)
    case Assign(x, e) =>
      (match Eval(P, fuel, cls, self, env, st, e)
       case Val(v, env1, st1) => WriteVar(P, cls, self, env1, st1, x, v)
       case o => o)
    case Block(es) => if es == [] then Wrong else EvalSeq(P, fuel, cls, self, env, st, es)
    case Cond(p, t, f) =>
      (match Eval(P, fuel, cls, self, env, st, p)
       case Val(v, env1, st1) =>
         if !v.VBool? then Wrong
         else if v.b then Eval(P, fuel, cls, self, env1, st1, t)
         else Eval(P, fuel, cls, self, env1, st1, f)
       case o => o)
    case Loop(p, body) =>
      (match Eval(P, fuel, cls, self, env, st, p)
       case Val(v, env1, st1) =>
         if !v.VBool? then Wrong
         else if !v.b then Val(VVoid, env1, st1)
         else
           (match Eval(P, fuel, cls, self, env1, st1, body)
            case Val(_, env2, st2) =>
              if fuel == 0 then Timeout else Eval(P, fuel - 1, cls, self, env2, st2, e)
            case o => o)
       case o => o)
    case Let(x, _, init, body) =>
      (match Eval(P, fuel, cls, self, env, st, init)
       case Val(v, env1, st1) =>
         if x == SELF then Wrong
         else LeaveScope(env1, x, Eval(P, fuel, cls, self, env1[x := v], st1, body))
       case o => o)
    case Arith(op, e1, e2) =>
      (match Eval(P, fuel, cls, self, env, st, e1)
       case Val(a, env1, st1) => ArithOutcome(op, a, Eval(P, fuel, cls, self, env1, st1, e2))
       case o => o)
    case Compare(cmp, e1, e2) =>
      (match Eval(P, fuel, cls, self, env, st, e1)
       case Val(a, env1, st1) => CompareOutcome(cmp, a, Eval(P, fuel, cls, self, env1, st1, e2))
       case o => o)
    case Neg(e) => NegOutcome(Eval(P, fuel, cls, self, env, st, e))
    case Comp(e) => CompOutcome(Eval(P, fuel, cls, self, env, st, e))
    case Dispatch(e0, sty, m, args) =>
      (match EvalArgs(P, fuel, cls, self, env, st, args)
       case Stopped(o) => o
       case Args(vs, env1, st1) =>
         (match Eval(P, fuel, cls, self, env1, st1, e0)
          case Val(v0, env2, st2) =>
            if v0 == VVoid then Abort(DispatchVoid, st2.out)
            else if fuel == 0 then Timeout
            else
              Return(env2, CallDynamic(P, fuel - 1, StaticClass(sty, cls), ClassOf(st2, v0), v0, m, vs, st2))
          case o => o))
    case StaticDispatch(e0, c, m, args) =>
      (match EvalArgs(P, fuel, cls, self, env, st, args)
       case Stopped(o) => o
       case Args(vs, env1, st1) =>
         (match Eval(P, fuel, cls, self, env1, st1, e0)
          case Val(v0, env2, st2) =>
            if v0 == VVoid then Abort(DispatchVoid, st2.out)
            else if fuel == 0 then Timeout
            else if !HasClass(P, ClassOf(st2, v0)) || !Inherits(P, ClassOf(st2, v0), c) then Wrong
            else Return(env2, Call(P, fuel - 1, c, v0, m, vs, st2))
          case o => o))
    case TypCase(e0, cases) =>
      (match Eval(P, fuel, cls, self, env, st, e0)
       case Val(v0, env1, st1) =>
         if v0 == VVoid then Abort(CaseVoid, st1.out)
         else if ClassOf(st1, v0) !in P.classes || !GoodBranches(P, CaseTypes(cases)) then Wrong
         else
           var i := Closest(P, ClassOf(st1, v0), CaseTypes(cases));
           if i == -1 then Abort(CaseNoMatch, st1.out)
           else if cases[i].x == SELF then Wrong
           else LeaveScope(env1, cases[i].x, Eval(P, fuel, cls, self, env1[cases[i].x := v0], st1, cases[i].body))
       case o => o)
    case New(c) => if fuel == 0 then Timeout else Return(env, Create(P, fuel - 1, c, st))
    case NewSelf =>
      if fuel == 0 then Timeout
      else if !self.VObj? then Wrong
      else Return(env, Create(P, fuel - 1, ClassOf(st, self), st))
  }

  ghost function EvalSeq(P: Program, fuel: nat, cls: ClassName, self: Value, env: Env, st: Store, es: seq<Expr>): Outcome
    requires Hierarchy(P)
    decreases fuel, 0, es, 0
  {
    if es == [] then Val(VVoid, env, st)
    else
      match Eval(P, fuel, cls, self, env, st, es[0])
      case Val(v, env1, st1) =>
        if |es| == 1 then Val(v, env1, st1) else EvalSeq(P, fuel, cls, self, env1, st1, es[1..])
      case o => o
  }

  ghost function EvalArgs(P: Program, fuel: nat, cls: ClassName, self: Value, env: Env, st: Store, es: seq<Expr>): ArgsOutcome
    requires Hierarchy(P)
    decreases fuel, 0, es, 0
  {
    if es == [] then Args([], env, st)
    else
      match Eval(P, fuel, cls, self, env, st, es[0])
      case Val(v, env1, st1) =>
        (match EvalArgs(P, fuel, cls, self, env1, st1, es[1..])
         case Args(vs, env2, st2) => Args([v] + vs, env2, st2)
         case o => o)
      case o => Stopped(o)
  }

  /** Dynamic dispatch (section 7.4): the static type only says that some class defines `m`. */
  ghost function CallDynamic(P: Program, fuel: nat, sc: ClassName, dc: ClassName, v0: Value, m: Name, vs: seq<Value>, st: Store): Outcome
    requires Hierarchy(P)
    decreases fuel, 4
  {
    if sc !in P.classes || dc !in P.classes || !Inherits(P, dc, sc) || Nearest(P, sc, m) == NoClass then Wrong
    else Call(P, fuel, dc, v0, m, vs, st)
  }

  /** Runs the definition of `m` that is nearest at or above `c`. */
  ghost function Call(P: Program, fuel: nat, c: ClassName, v0: Value, m: Name, vs: seq<Value>, st: Store): Outcome
    requires Hierarchy(P)
    decreases fuel, 3
  {
    if c !in P.classes || Nearest(P, c, m) == NoClass then Wrong
    else
      var d := Nearest(P, c, m);
      match Decl(P.classes[d], m).body
      case Native(op) => RunNative(op, v0, vs, st)
      case Code(e) =>
        var formals := Decl(P.classes[d], m).formals;
        if |formals| != |vs| || !v0.VObj? || !Inherits(P, c, d) then Wrong
        else Eval(P, fuel, d, v0, Bind(formals, vs), st, e)
  }

  /** A new value of class `c`, with its attributes initialised. */
  ghost function Create(P: Program, fuel: nat, c: ClassName, st: Store): Outcome
    requires Hierarchy(P)
    decreases fuel, 3
  {
    if IsBasic(c) then Val(Default(Of(c)), map[], st)
    else if c !in P.classes then Wrong
    else
      Init(P, fuel, c, VObj(|st.objs|), st.(objs := st.objs + [Obj(c, Defaults(AttrLayout(P, c)))]))
  }

  /** An initialiser returns the object that it initialised. */
  function InitDone(self: Value, o: Outcome): Outcome {
    match o
    case Val(_, _, st) => Val(self, map[], st)
    case _ => o
  }

  /** Runs the initialisers of the attributes of `c`, those of its ancestors first. */
  ghost function Init(P: Program, fuel: nat, c: ClassName, self: Value, st: Store): Outcome
    requires Hierarchy(P) && c in P.classes
    decreases fuel, 2
  {
    var up := Up(P, c);
    if up == NoClass then InitDone(self, EvalSeq(P, fuel, c, self, map[], st, InitExprs(P.classes[c].attrs)))
    else if fuel == 0 then Timeout
    else
      match Init(P, fuel - 1, up, self, st)
      case Val(_, _, st1) => InitDone(self, EvalSeq(P, fuel, c, self, map[], st1, InitExprs(P.classes[c].attrs)))
      case o => o
  }
}
