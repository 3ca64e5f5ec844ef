/**
  Abstract syntax of type-checked Cool programs, as the code generator of PA5/cgen.cc sees it:
  every dispatch carries the static type of its receiver, and the basic classes are present in
  the class table with methods implemented by the run-time system.
 */
module CoolSyntax {
  import opened CoolNames
  import opened Inheritance

  /** A declared or inferred type; `_val` and `_str_field` have the type `_prim_slot`. */
  datatype StaticType = Of(c: ClassName) | SelfT | PrimSlot

  datatype ArithOp = OpAdd | OpSub | OpMul | OpDiv
  datatype CmpOp = Lt | Leq

  /** A missing initialiser is `NoExpr` of the declared type, which the generator sets on it. */
  datatype Expr =
    | IntConst(n: int)
    | BoolConst(b: bool)
    | StrConst(s: string)
    | NoExpr(ty: StaticType)
    | Object(x: Name)
    | Assign(x: Name, e: Expr)
    | Block(es: seq<Expr>)
    | Cond(pred: Expr, thn: Expr, els: Expr)
    | Loop(pred: Expr, body: Expr)
    | Let(x: Name, ty: StaticType, init: Expr, body: Expr)
    | Arith(op: ArithOp, e1: Expr, e2: Expr)
    | Neg(e: Expr)
    | Compare(cmp: CmpOp, e1: Expr, e2: Expr)
    | Comp(e: Expr)
    | Dispatch(e: Expr, sty: StaticType, m: Name, args: seq<Expr>)
    | StaticDispatch(e: Expr, c: ClassName, m: Name, args: seq<Expr>)
    | TypCase(e: Expr, cases: seq<Branch>)
    | New(c: ClassName)
    | NewSelf

  datatype Branch = Branch(x: Name, c: ClassName, body: Expr)

  /** The run-time routines that the model covers. */
  datatype NativeOp = RtCopy | RtAbort | RtOutInt | RtOutString

  datatype Body = Code(e: Expr) | Native(op: NativeOp)
  datatype Attr = Attr(name: Name, ty: StaticType, init: Expr)
  datatype Method = Method(name: Name, formals: seq<Name>, body: Body)
  datatype Class = Class(parent: ClassName, attrs: seq<Attr>, methods: seq<Method>)

  /**
    The class table: the classes with the order in which the generator visits them (`nds`),
    and the tag interval that assign_class_tags gave each class.
   */
  datatype Program = Program(
    classes: map<ClassName, Class>,
    order: seq<ClassName>,
    tag: map<ClassName, int>,
    tagEnd: map<ClassName, int>)

  /** The expression contains `new c`. */
  ghost predicate Creates(e: Expr, c: ClassName) {
    match e
    case New(d) => d == c
    case Assign(_, e1) => Creates(e1, c)
    case Neg(e1) => Creates(e1, c)
    case Comp(e1) => Creates(e1, c)
    case Block(es) => exists i :: 0 <= i < |es| && Creates(es[i], c)
    case Cond(p, t, f) => Creates(p, c) || Creates(t, c) || Creates(f, c)
    case Loop(p, b) => Creates(p, c) || Creates(b, c)
    case Let(_, _, init, b) => Creates(init, c) || Creates(b, c)
    case Arith(_, e1, e2) => Creates(e1, c) || Creates(e2, c)
    case Compare(_, e1, e2) => Creates(e1, c) || Creates(e2, c)
    case Dispatch(e0, _, _, args) => Creates(e0, c) || exists i :: 0 <= i < |args| && Creates(args[i], c)
    case StaticDispatch(e0, _, _, args) => Creates(e0, c) || exists i :: 0 <= i < |args| && Creates(args[i], c)
    case TypCase(e0, cases) => Creates(e0, c) || exists i :: 0 <= i < |cases| && Creates(cases[i].body, c)
    case _ => false
  }

  /** Some method or some attribute's initialiser contains `new c`. */
  ghost predicate Created(P: Program, c: ClassName) {
    || (exists d, m :: d in P.classes && m in P.classes[d].methods && m.body.Code? && Creates(m.body.e, c))
    || (exists d, a :: d in P.classes && a in P.classes[d].attrs && Creates(a.init, c))
  }

  ghost function Parents(P: Program): (g: Graph) {
    map c | c in P.classes :: P.classes[c].parent
  }

  ghost predicate Hierarchy(P: Program) {
    ParentsKnown(Parents(P)) && Grounded(Parents(P))
  }

  ghost predicate HasClass(P: Program, c: ClassName) {
    InTree(Parents(P), c)
  }

  ghost function Level(P: Program, c: ClassName): (k: nat)
    requires Hierarchy(P) && HasClass(P, c)
    ensures k == 0 <==> c == NoClass
  {
    Height(Parents(P), c)
  }

  /** The parent of a declared class, one level up. */
  ghost function Up(P: Program, c: ClassName): (p: ClassName)
    requires Hierarchy(P) && c in P.classes
    ensures HasClass(P, p) && Level(P, p) + 1 == Level(P, c)
  {
    HeightParent(Parents(P), c);
    P.classes[c].parent
  }

  /** `c` is `d` or inherits from it. */
  ghost predicate Inherits(P: Program, c: ClassName, d: ClassName)
    requires Hierarchy(P) && HasClass(P, c)
  {
    Anc(Parents(P), c, d)
  }

  ghost predicate Declares(cls: Class, m: Name) {
    exists i :: 0 <= i < |cls.methods| && cls.methods[i].name == m
  }

  /** The declaration of `m` in a class that has one. */
  ghost function Decl(cls: Class, m: Name): (d: Method)
    requires Declares(cls, m)
    ensures d.name == m && d in cls.methods
  {
    var i :| 0 <= i < |cls.methods| && cls.methods[i].name == m;
    cls.methods[i]
  }

  /** The class at or above `c` with the nearest definition of `m`; `_no_class` when there is none. */
  ghost function Nearest(P: Program, c: ClassName, m: Name): (d: ClassName)
    requires Hierarchy(P) && HasClass(P, c)
    ensures d != NoClass ==> d in P.classes && Declares(P.classes[d], m) && Inherits(P, c, d)
    decreases Level(P, c)
  {
    if c == NoClass then NoClass
    else if Declares(P.classes[c], m) then c
    else Nearest(P, Up(P, c), m)
  }
}
