/**
  The typing rules of the Cool manual, section 12, as a judgement: `e` has type `t` in class `cls`, where the variables
  have the types `O`.  With `strict` the rules are those of the manual.  Without, there are also the rules by which
  the checker accepts a program in silence: an expression whose check fails has no type.
 */
module TypingRules {
  import opened CoolNames
  import opened Inheritance
  import opened CoolSyntax
  import opened Layout
  import opened CoolSemantics
  import opened SimRel
  import opened Typing

  /** The type is SELF_TYPE or a class of the program. */
  predicate Known(P: Program, t: Type) {
    t.SelfType? || (t.Cls? && t.c in P.classes)
  }

  /** The class that a type stands for in class `cls`. */
  function ClassFor(t: Type, cls: ClassName): ClassName {
    if t.Cls? then t.c else cls
  }

  /** Conformance: every type conforms to itself, and a class to those that it inherits from; SELF_TYPE conforms like its class. */
  ghost predicate Conforms(P: Program, cls: ClassName, a: Type, b: Type)
    requires Hierarchy(P) && cls in P.classes
  {
    Known(P, a) && Known(P, b) && (a == b || (b.Cls? && Inherits(P, ClassFor(a, cls), b.c)))
  }

  /** The join is above both and below every other type that is. */
  ghost predicate IsJoin(P: Program, cls: ClassName, a: Type, b: Type, t: Type)
    requires Hierarchy(P) && cls in P.classes
  {
    && Conforms(P, cls, a, t) && Conforms(P, cls, b, t)
    && forall u {:trigger Conforms(P, cls, t, u)} :: Conforms(P, cls, a, u) && Conforms(P, cls, b, u) ==> Conforms(P, cls, t, u)
  }

  /** Class `c` declares attribute `x` with type `t`. */
  predicate DeclaresAttr(P: Program, c: ClassName, x: Name, t: Type) {
    c in P.classes && exists i :: 0 <= i < |P.classes[c].attrs| && P.classes[c].attrs[i].name == x && t == TypeOf(P.classes[c].attrs[i].ty)
  }

  /** A variable is a local, `self`, or an attribute that the class or one of its ancestors declares. */
  ghost predicate HasType(P: Program, cls: ClassName, O: map<Name, Type>, x: Name, t: Type)
    requires Hierarchy(P) && cls in P.classes
  {
    && !t.NoType?
    && if x in O then t == O[x]
       else if x == SELF then t == SelfType
       else exists c :: Inherits(P, cls, c) && DeclaresAttr(P, c, x, t)
  }

  /** Class `d` declares method `m`, and no class from `c` up to `d` does before it. */
  ghost predicate Visible(P: Program, c: ClassName, m: Name, d: ClassName)
    requires Hierarchy(P) && HasClass(P, c)
  {
    && d in P.classes && Inherits(P, c, d) && Declares(P.classes[d], m)
    && forall k :: k in P.classes && Inherits(P, c, k) && Declares(P.classes[k], m) ==> Inherits(P, d, k)
  }

  ghost predicate HasSig(P: Program, sigs: Sigs, c: ClassName, m: Name, sig: Sig)
    requires Hierarchy(P) && HasClass(P, c)
  {
    exists d :: Visible(P, c, m, d) && (d, m) in sigs && sigs[(d, m)] == sig
  }

  // ---------------------------------------------------------------------------------------------
  // Expressions.

  ghost predicate Typed(P: Program, sigs: Sigs, strict: bool, cls: ClassName, O: map<Name, Type>, e: Expr, t: Type)
    requires Hierarchy(P) && cls in P.classes
    decreases e, 1
  {
    match e
    case Assign(_, _) => RuleAssign(P, sigs, strict, cls, O, e, t)
    case Block(_) => RuleBlock(P, sigs, strict, cls, O, e, t)
    case Cond(_, _, _) => RuleCond(P, sigs, strict, cls, O, e, t)
    case Loop(_, _) => RuleLoop(P, sigs, strict, cls, O, e, t)
    case Let(_, _, _, _) => RuleLet(P, sigs, strict, cls, O, e, t)
    case Arith(_, _, _) => RuleInts(P, sigs, strict, cls, O, e, t)
    case Compare(_, _, _) => RuleInts(P, sigs, strict, cls, O, e, t)
    case Neg(_) => RuleUnary(P, sigs, strict, cls, O, e, t)
    case Comp(_) => RuleUnary(P, sigs, strict, cls, O, e, t)
    case Dispatch(_, _, _, _) => RuleDispatch(P, sigs, strict, cls, O, e, t)
    case StaticDispatch(_, _, _, _) => RuleStatic(P, sigs, strict, cls, O, e, t)
    case TypCase(_, _) => RuleCase(P, sigs, strict, cls, O, e, t)
    case _ => RuleLeaf(P, sigs, strict, cls, O, e, t)
  }

  /** The expression has some type. */
  ghost predicate HasSome(P: Program, sigs: Sigs, strict: bool, cls: ClassName, O: map<Name, Type>, e: Expr)
    requires Hierarchy(P) && cls in P.classes
    decreases e, 2
  {
    exists t :: Typed(P, sigs, strict, cls, O, e, t)
  }

  /** Expressions without parts. */
  ghost predicate RuleLeaf(P: Program, sigs: Sigs, strict: bool, cls: ClassName, O: map<Name, Type>, e: Expr, t: Type)
    requires Hierarchy(P) && cls in P.classes && (e.IntConst? || e.BoolConst? || e.StrConst? || e.NoExpr? || e.Object? || e.New? || e.NewSelf?)
    decreases e, 0
  {
    match e
    case IntConst(n) => t == INT && (strict ==> -2147483648 <= n <= 2147483647)
    case BoolConst(_) => t == BOOL
    case StrConst(_) => t == Cls(StringC)
    case NoExpr(_) => !strict && t.NoType?
    case Object(x) => HasType(P, cls, O, x, t)
    case New(c) => t == Cls(c) && (strict ==> c in P.classes)
    case NewSelf => t == SelfType
  }

  /** An assignment has the type of its value, which conforms to that of the variable. */
  ghost predicate RuleAssign(P: Program, sigs: Sigs, strict: bool, cls: ClassName, O: map<Name, Type>, e: Expr, t: Type)
    requires Hierarchy(P) && cls in P.classes && e.Assign?
    decreases e, 0
  {
    e.x != SELF && Typed(P, sigs, strict, cls, O, e.e, t) && exists t0 :: HasType(P, cls, O, e.x, t0) && Conforms(P, cls, t, t0)
  }

  /** A block has the type of its last expression. */
  ghost predicate RuleBlock(P: Program, sigs: Sigs, strict: bool, cls: ClassName, O: map<Name, Type>, e: Expr, t: Type)
    requires Hierarchy(P) && cls in P.classes && e.Block?
    decreases e, 0
  {
    if e.es == [] then !strict && t.NoType?
    else (forall i :: 0 <= i < |e.es| - 1 ==> HasSome(P, sigs, strict, cls, O, e.es[i])) && Typed(P, sigs, strict, cls, O, e.es[|e.es| - 1], t)
  }

  /** A conditional has the join of the types of its branches. */
  ghost predicate RuleCond(P: Program, sigs: Sigs, strict: bool, cls: ClassName, O: map<Name, Type>, e: Expr, t: Type)
    requires Hierarchy(P) && cls in P.classes && e.Cond?
    decreases e, 0
  {
    if Typed(P, sigs, strict, cls, O, e.pred, BOOL) then
      exists t1, t2 :: Typed(P, sigs, strict, cls, O, e.thn, t1) && Typed(P, sigs, strict, cls, O, e.els, t2) && IsJoin(P, cls, t1, t2, t)
    else !strict && t.NoType? && HasSome(P, sigs, strict, cls, O, e.pred)
  }

  /** A loop is an Object. */
  ghost predicate RuleLoop(P: Program, sigs: Sigs, strict: bool, cls: ClassName, O: map<Name, Type>, e: Expr, t: Type)
    requires Hierarchy(P) && cls in P.classes && e.Loop?
    decreases e, 0
  {
    if Typed(P, sigs, strict, cls, O, e.pred, BOOL) then t == Cls(ObjectC) && HasSome(P, sigs, strict, cls, O, e.body)
    else !strict && t.NoType? && HasSome(P, sigs, strict, cls, O, e.pred)
  }

  /** The body of a let has the variable in scope. */
  ghost predicate RuleLet(P: Program, sigs: Sigs, strict: bool, cls: ClassName, O: map<Name, Type>, e: Expr, t: Type)
    requires Hierarchy(P) && cls in P.classes && e.Let?
    decreases e, 0
  {
    && e.x != SELF && Known(P, TypeOf(e.ty)) && Initialises(P, sigs, strict, cls, O, e.ty, e.init)
    && Typed(P, sigs, strict, cls, O[e.x := TypeOf(e.ty)], e.body, t)
  }

  /** Arithmetic and comparisons are on Int. */
  ghost predicate RuleInts(P: Program, sigs: Sigs, strict: bool, cls: ClassName, O: map<Name, Type>, e: Expr, t: Type)
    requires Hierarchy(P) && cls in P.classes && (e.Arith? || e.Compare?)
    decreases e, 0
  {
    if Typed(P, sigs, strict, cls, O, e.e1, INT) && Typed(P, sigs, strict, cls, O, e.e2, INT) then t == if e.Arith? then INT else BOOL
    else !strict && t.NoType? && HasSome(P, sigs, strict, cls, O, e.e1) && HasSome(P, sigs, strict, cls, O, e.e2)
  }

  /** `~` is on Int and `not` on Bool. */
  ghost predicate RuleUnary(P: Program, sigs: Sigs, strict: bool, cls: ClassName, O: map<Name, Type>, e: Expr, t: Type)
    requires Hierarchy(P) && cls in P.classes && (e.Neg? || e.Comp?)
    decreases e, 0
  {
    if e.Neg? then t == INT && Typed(P, sigs, strict, cls, O, e.e, INT)
    else if Typed(P, sigs, strict, cls, O, e.e, BOOL) then t == BOOL
    else !strict && t.NoType? && HasSome(P, sigs, strict, cls, O, e.e)
  }

  /** The method is that of the class of the receiver; a receiver without a type is a null pointer in the checker. */
  ghost predicate RuleDispatch(P: Program, sigs: Sigs, strict: bool, cls: ClassName, O: map<Name, Type>, e: Expr, t: Type)
    requires Hierarchy(P) && cls in P.classes && e.Dispatch?
    decreases e, 0
  {
    exists t0 :: Typed(P, sigs, strict, cls, O, e.e, t0) &&
      if Known(P, t0) then (strict ==> TypeOf(e.sty) == t0) && Calls(P, sigs, strict, cls, O, e.args, ClassFor(t0, cls), e.m, t0, t)
      else !strict && t.NoType?
  }

  /** The receiver conforms to the class that is named. */
  ghost predicate RuleStatic(P: Program, sigs: Sigs, strict: bool, cls: ClassName, O: map<Name, Type>, e: Expr, t: Type)
    requires Hierarchy(P) && cls in P.classes && e.StaticDispatch?
    decreases e, 0
  {
    e.c in P.classes && exists t0 :: Typed(P, sigs, strict, cls, O, e.e, t0) && Conforms(P, cls, t0, Cls(e.c)) && Calls(P, sigs, strict, cls, O, e.args, e.c, e.m, t0, t)
  }

  /** The branches of a case are of different classes. */
  ghost predicate RuleCase(P: Program, sigs: Sigs, strict: bool, cls: ClassName, O: map<Name, Type>, e: Expr, t: Type)
    requires Hierarchy(P) && cls in P.classes && e.TypCase?
    decreases e, 0
  {
    && HasSome(P, sigs, strict, cls, O, e.e) && (forall i, j :: 0 <= i < j < |e.cases| ==> e.cases[i].c != e.cases[j].c)
    && if e.cases == [] then !strict && t.NoType? else Branches(P, sigs, strict, cls, O, e.cases, t)
  }

  /** Some declaration of `m` for class `c` fits the arguments, and the call has its result type. */
  ghost predicate Calls(P: Program, sigs: Sigs, strict: bool, cls: ClassName, O: map<Name, Type>, args: seq<Expr>, c: ClassName, m: Name, t0: Type, t: Type)
    requires Hierarchy(P) && cls in P.classes && HasClass(P, c)
    decreases args, 1
  {
    exists sig :: HasSig(P, sigs, c, m, sig) && Fit(P, sigs, strict, cls, O, args, sig.formals) && t == ResultType(sig, t0)
  }

  /** The type of a call: that of the receiver for SELF_TYPE. */
  function ResultType(sig: Sig, t0: Type): Type {
    if sig.ret.SelfType? then t0 else sig.ret
  }

  /** No initialiser, or one that conforms to the declared type. */
  ghost predicate Initialises(P: Program, sigs: Sigs, strict: bool, cls: ClassName, O: map<Name, Type>, ty: StaticType, init: Expr)
    requires Hierarchy(P) && cls in P.classes
    decreases init, 3
  {
    if init.NoExpr? then strict ==> init.ty == ty
    else ConformsTo(P, sigs, strict, cls, O, init, TypeOf(ty))
  }

  /** The expression has a type that conforms to `b`. */
  ghost predicate ConformsTo(P: Program, sigs: Sigs, strict: bool, cls: ClassName, O: map<Name, Type>, e: Expr, b: Type)
    requires Hierarchy(P) && cls in P.classes
    decreases e, 2
  {
    exists t :: Typed(P, sigs, strict, cls, O, e, t) && Conforms(P, cls, t, b)
  }

  /** As many arguments as formals, each of which conforms to its formal. */
  ghost predicate Fit(P: Program, sigs: Sigs, strict: bool, cls: ClassName, O: map<Name, Type>, args: seq<Expr>, formals: seq<ClassName>)
    requires Hierarchy(P) && cls in P.classes
    decreases args, 0
  {
    && |args| == |formals|
    && forall i :: 0 <= i < |args| ==> ConformsTo(P, sigs, strict, cls, O, args[i], Cls(formals[i]))
  }

  /** The type of a case: that of its branch, or the join of those of its branches. */
  ghost predicate Branches(P: Program, sigs: Sigs, strict: bool, cls: ClassName, O: map<Name, Type>, cases: seq<Branch>, t: Type)
    requires Hierarchy(P) && cls in P.classes && cases != []
    decreases cases, 0
  {
    var br, n := cases[|cases| - 1], |cases| - 1;
    && br.c in P.classes && (strict ==> br.x != SELF)
    && exists t1 :: Typed(P, sigs, strict, cls, O[br.x := Cls(br.c)], br.body, t1) && !t1.NoType?
         && JoinsRest(P, sigs, strict, cls, O, cases[..n], t1, t)
  }

  /** `t` is `t1`, or its join with the type of the other branches. */
  ghost predicate JoinsRest(P: Program, sigs: Sigs, strict: bool, cls: ClassName, O: map<Name, Type>, rest: seq<Branch>, t1: Type, t: Type)
    requires Hierarchy(P) && cls in P.classes
    decreases rest, 1
  {
    if rest == [] then t == t1 else exists t2 :: Branches(P, sigs, strict, cls, O, rest, t2) && IsJoin(P, cls, t1, t2, t)
  }

  // ---------------------------------------------------------------------------------------------
  // Features and programs.

  /** A redefined method keeps its signature, formals and result are known, and the body conforms to the result. */
  ghost predicate TypedMethod(P: Program, sigs: Sigs, strict: bool, c: ClassName, m: Method)
    requires Hierarchy(P) && c in P.classes && m.body.Code?
  {
    && SigOf(sigs, c, m)
    && var sig := sigs[(c, m.name)];
    && (forall i :: 0 <= i < |sig.formals| ==> sig.formals[i] in P.classes) && Known(P, sig.ret)
    && (forall sig' :: HasSig(P, sigs, Up(P, c), m.name, sig') ==> sig' == sig)
    && ConformsTo(P, sigs, strict, c, FormalTypes(m.formals, sig.formals), m.body.e, sig.ret)
  }

  ghost predicate TypedAttr(P: Program, sigs: Sigs, strict: bool, c: ClassName, a: Attr)
    requires Hierarchy(P) && c in P.classes
  {
    if Known(P, TypeOf(a.ty)) then Initialises(P, sigs, strict, c, map[], a.ty, a.init) else !strict
  }

  ghost predicate TypedProgram(P: Program, sigs: Sigs, strict: bool)
    requires Hierarchy(P)
  {
    && (forall c, m :: c in P.classes && m in P.classes[c].methods && m.body.Code? ==> TypedMethod(P, sigs, strict, c, m))
    && forall c, a :: c in P.classes && c.User? && a in P.classes[c].attrs ==> TypedAttr(P, sigs, strict, c, a)
  }
}
