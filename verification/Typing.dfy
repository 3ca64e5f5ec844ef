/**
  The type checker of PA4/semant.cc, `analyze` of every kind of expression, feature and class.  A check that fails
  is reported, or it only ends the analysis of the node and leaves its type unset: the program is then accepted
  all the same.
 */
module Typing {
  import opened CoolNames
  import opened Inheritance
  import opened CoolSyntax
  import opened Layout
  import opened ClassTags
  import opened CoolSemantics

  /** The declared types of a method; the type of a formal is a class. */
  datatype Sig = Sig(formals: seq<ClassName>, ret: Type)

  /** The signatures of the declarations, by class and method. */
  type Sigs = map<(ClassName, Name), Sig>

  /** The type that a node gets, NoType standing for NULL; an error was reported; a failed check was not. */
  datatype Verdict = Verdict(ty: Type, reported: bool, skipped: bool)

  /** Type and flags of a list of nodes. */
  datatype Verdicts = Verdicts(tys: seq<Type>, reported: bool, skipped: bool)

  predicate Clean(v: Verdict) {
    !v.reported && !v.skipped
  }

  const INT: Type := Cls(IntC)
  const BOOL: Type := Cls(BoolC)

  function TypeOf(ty: StaticType): Type {
    match ty
    case Of(c) => Cls(c)
    case SelfT => SelfType
    case PrimSlot => NoType
  }

  /** type_exists */
  ghost predicate Exists(P: Program, t: Type) {
    !t.NoType? && (t.Cls? ==> t.c in P.classes)
  }

  /** is_subclass, on types that exist */
  ghost predicate Sub(P: Program, cls: ClassName, a: Type, b: Type)
    requires Hierarchy(P) && cls in P.classes
  {
    Exists(P, a) && Exists(P, b) && Below(Parents(P), cls, a, b)
  }

  datatype FoundSig = Found(sig: Sig) | Missing

  /** get_method: the nearest declaration. */
  ghost function MethodSig(P: Program, sigs: Sigs, c: ClassName, m: Name): FoundSig
    requires Hierarchy(P) && HasClass(P, c)
  {
    var d := Nearest(P, c, m);
    if d != NoClass && (d, m) in sigs then Found(sigs[(d, m)]) else Missing
  }

  /** get_attr: the declared type. */
  ghost function AttrType(P: Program, c: ClassName, x: Name): Type
    requires Hierarchy(P) && c in P.classes
  {
    if HasAttr(P, c, x) then
      var i :| 0 <= i < |AttrLayout(P, c)| && AttrLayout(P, c)[i].name == x;
      TypeOf(AttrLayout(P, c)[i].ty)
    else NoType
  }

  /** The symbol table, in which `self` is outermost, and then the attributes. */
  ghost function VarType(P: Program, cls: ClassName, O: map<Name, Type>, x: Name): Type
    requires Hierarchy(P) && cls in P.classes
  {
    if x in O then O[x] else if x == SELF then SelfType else AttrType(P, cls, x)
  }

  /** The first class at or above `c` that `d` inherits from. */
  ghost function CommonAncestor(P: Program, c: ClassName, d: ClassName): (r: ClassName)
    requires Hierarchy(P) && HasClass(P, c) && HasClass(P, d)
    ensures HasClass(P, r)
    decreases Level(P, c)
  {
    if c == NoClass || Inherits(P, d, c) then c else CommonAncestor(P, Up(P, c), d)
  }

  /** lub */
  ghost function LubType(P: Program, cls: ClassName, a: Type, b: Type): Type
    requires Hierarchy(P) && cls in P.classes
  {
    if !Exists(P, a) || !Exists(P, b) then NoType
    else if a == b then a
    else
      var r := CommonAncestor(P, Resolve(a, cls), Resolve(b, cls));
      if r == NoClass then NoType else Cls(r)
  }

  /**
    analyze() of an expression in class `cls`.  What the grammar excludes, an annotation in the tree that is not the type
    found, and a literal beyond 32 bits count as failed checks that are not reported.
   */
  ghost function Analyze(P: Program, sigs: Sigs, cls: ClassName, O: map<Name, Type>, e: Expr): Verdict
    requires Hierarchy(P) && cls in P.classes
    decreases e, 1
  {
    match e
    case IntConst(n) => Verdict(INT, false, !InRange(n))
    case BoolConst(_) => Verdict(BOOL, false, false)
    case StrConst(_) => Verdict(Cls(StringC), false, false)
    case NoExpr(_) => Verdict(NoType, false, true)
    case Object(x) => Verdict(VarType(P, cls, O, x), VarType(P, cls, O, x).NoType?, false)
    case Assign(x, e1) =>
      var t := VarType(P, cls, O, x);
      if x == SELF || t.NoType? then Verdict(NoType, true, false)
      else
        var v := Analyze(P, sigs, cls, O, e1);
        if Sub(P, cls, v.ty, t) then v else Verdict(NoType, true, v.skipped)
    case Block(es) =>
      var vs := AnalyzeAll(P, sigs, cls, O, es);
      if es == [] then Verdict(NoType, false, true) else Verdict(vs.tys[|es| - 1], vs.reported, vs.skipped)
    case Cond(p, t, f) =>
      var v := Analyze(P, sigs, cls, O, p);
      if v.ty != BOOL then Verdict(NoType, v.reported, true)
      else
        var v1 := Analyze(P, sigs, cls, O, t);
        var v2 := Analyze(P, sigs, cls, O, f);
        var ty := LubType(P, cls, v1.ty, v2.ty);
        Verdict(ty, v.reported || v1.reported || v2.reported || ty.NoType?, v.skipped || v1.skipped || v2.skipped)
    case Loop(p, b) =>
      var v := Analyze(P, sigs, cls, O, p);
      if v.ty != BOOL then Verdict(NoType, v.reported, true)
      else
        var v1 := Analyze(P, sigs, cls, O, b);
        Verdict(Cls(ObjectC), v.reported || v1.reported, v.skipped || v1.skipped)
    case Let(x, ty, init, body) =>
      if x == SELF || !Exists(P, TypeOf(ty)) then Verdict(NoType, true, false)
      else
        var v := AnalyzeInit(P, sigs, cls, O, ty, init);
        var v1 := Analyze(P, sigs, cls, O[x := TypeOf(ty)], body);
        if v.ty.NoType? then Verdict(NoType, true, v.skipped)
        else Verdict(v1.ty, v.reported || v1.reported, v.skipped || v1.skipped)
    case Arith(_, e1, e2) => BothInts(INT, Analyze(P, sigs, cls, O, e1), Analyze(P, sigs, cls, O, e2))
    case Compare(_, e1, e2) => BothInts(BOOL, Analyze(P, sigs, cls, O, e1), Analyze(P, sigs, cls, O, e2))
    case Neg(e1) =>
      var v := Analyze(P, sigs, cls, O, e1);
      if v.ty != INT then Verdict(NoType, true, v.skipped) else v
    case Comp(e1) =>
      var v := Analyze(P, sigs, cls, O, e1);
      if v.ty != BOOL then Verdict(NoType, v.reported, true) else v
    case Dispatch(e0, sty, m, args) =>
      var v := Analyze(P, sigs, cls, O, e0);
      var vs := AnalyzeAll(P, sigs, cls, O, args);
      if !Exists(P, v.ty) then Verdict(NoType, v.reported, true)
      else
        var r := CallVerdict(P, cls, MethodSig(P, sigs, Resolve(v.ty, cls), m), v, vs);
        r.(skipped := r.skipped || TypeOf(sty) != v.ty)
    case StaticDispatch(e0, c, m, args) =>
      var v := Analyze(P, sigs, cls, O, e0);
      var vs := AnalyzeAll(P, sigs, cls, O, args);
      if c !in P.classes || !Sub(P, cls, v.ty, Cls(c)) then Verdict(NoType, true, v.skipped)
      else CallVerdict(P, cls, MethodSig(P, sigs, c, m), v, vs)
    case TypCase(e0, cases) =>
      var v := Analyze(P, sigs, cls, O, e0);
      var vs := AnalyzeCases(P, sigs, cls, O, cases);
      Verdict(vs.ty, v.reported || vs.reported || !Distinct(CaseTypes(cases)), v.skipped || vs.skipped || cases == [])
    case New(c) => Verdict(Cls(c), false, c !in P.classes)
    case NewSelf => Verdict(SelfType, false, false)
  }

  /** The initialiser of a variable or attribute, when there is one; its type must be the declared one or below. */
  ghost function AnalyzeInit(P: Program, sigs: Sigs, cls: ClassName, O: map<Name, Type>, ty: StaticType, init: Expr): Verdict
    requires Hierarchy(P) && cls in P.classes
    decreases init, 2
  {
    if init.NoExpr? then Verdict(TypeOf(ty), false, init.ty != ty)
    else
      var v := Analyze(P, sigs, cls, O, init);
      if Sub(P, cls, v.ty, TypeOf(ty)) then v.(ty := TypeOf(ty)) else Verdict(NoType, true, v.skipped)
  }

  function BothInts(ty: Type, v1: Verdict, v2: Verdict): Verdict {
    if v1.ty != INT || v2.ty != INT then Verdict(NoType, v1.reported || v2.reported, true)
    else Verdict(ty, v1.reported || v2.reported, v1.skipped || v2.skipped)
  }

  ghost function AnalyzeAll(P: Program, sigs: Sigs, cls: ClassName, O: map<Name, Type>, es: seq<Expr>): (r: Verdicts)
    requires Hierarchy(P) && cls in P.classes
    ensures |r.tys| == |es|
    decreases es, 0
  {
    if es == [] then Verdicts([], false, false)
    else
      var v := Analyze(P, sigs, cls, O, es[0]);
      var vs := AnalyzeAll(P, sigs, cls, O, es[1..]);
      Verdicts([v.ty] + vs.tys, v.reported || vs.reported, v.skipped || vs.skipped)
  }

  /** A method without declaration, a wrong number of arguments or an argument of a wrong type is reported. */
  ghost function CallVerdict(P: Program, cls: ClassName, found: FoundSig, v: Verdict, vs: Verdicts): Verdict
    requires Hierarchy(P) && cls in P.classes
  {
    match found
    case Missing => Verdict(NoType, true, v.skipped)
    case Found(sig) =>
      if |sig.formals| != |vs.tys| || exists i :: 0 <= i < |vs.tys| && !Sub(P, cls, vs.tys[i], Cls(sig.formals[i])) then
        Verdict(NoType, true, v.skipped)
      else Verdict(if sig.ret.SelfType? then v.ty else sig.ret, v.reported || vs.reported, v.skipped || vs.skipped)
  }

  /**
    The branches of a case.  A branch of an unknown class ends without a type, which the search for a common ancestor
    then reports; one that binds `self` is not reported.
   */
  ghost function AnalyzeCases(P: Program, sigs: Sigs, cls: ClassName, O: map<Name, Type>, cases: seq<Branch>): Verdict
    requires Hierarchy(P) && cls in P.classes
    decreases cases, 0
  {
    if cases == [] then Verdict(NoType, false, false)
    else
      var br, n := cases[|cases| - 1], |cases| - 1;
      var v := AnalyzeCases(P, sigs, cls, O, cases[..n]);
      var v1 := if br.c in P.classes then Analyze(P, sigs, cls, O[br.x := Cls(br.c)], br.body) else Verdict(NoType, false, false);
      var ty := if n == 0 then v1.ty else LubType(P, cls, v1.ty, v.ty);
      Verdict(ty, v.reported || v1.reported || ty.NoType?, v.skipped || v1.skipped || br.x == SELF)
  }

  // ---------------------------------------------------------------------------------------------
  // Features.

  /** The formals in scope. */
  function FormalTypes(formals: seq<Name>, tys: seq<ClassName>): map<Name, Type>
    requires |formals| == |tys|
  {
    if formals == [] then map[]
    else FormalTypes(formals[..|formals| - 1], tys[..|tys| - 1])[formals[|formals| - 1] := Cls(tys[|tys| - 1])]
  }

  /** The signature of a redefined method is that of the parent's. */
  ghost predicate SameAsParent(P: Program, sigs: Sigs, c: ClassName, m: Name)
    requires Hierarchy(P) && c in P.classes && (c, m) in sigs
  {
    MethodSig(P, sigs, Up(P, c), m).Found? ==> MethodSig(P, sigs, Up(P, c), m).sig == sigs[(c, m)]
  }

  /** method_class::analyze and formal_class::analyze */
  ghost function AnalyzeMethod(P: Program, sigs: Sigs, c: ClassName, m: Method): Verdict
    requires Hierarchy(P) && c in P.classes && (c, m.name) in sigs && m.body.Code? && |sigs[(c, m.name)].formals| == |m.formals|
  {
    var sig := sigs[(c, m.name)];
    var v := Analyze(P, sigs, c, FormalTypes(m.formals, sig.formals), m.body.e);
    var ok := (forall i :: 0 <= i < |sig.formals| ==> sig.formals[i] in P.classes) && Exists(P, sig.ret)
      && SameAsParent(P, sigs, c, m.name) && Sub(P, c, v.ty, sig.ret);
    Verdict(sig.ret, v.reported || !ok, v.skipped)
  }

  /** attr_class::analyze; an unknown type is not reported */
  ghost function AnalyzeAttr(P: Program, sigs: Sigs, c: ClassName, a: Attr): Verdict
    requires Hierarchy(P) && c in P.classes
  {
    if !Exists(P, TypeOf(a.ty)) then Verdict(NoType, false, true) else AnalyzeInit(P, sigs, c, map[], a.ty, a.init)
  }

  /** What install_basic_classes declares of the routines of the run-time system. */
  function NativeSig(op: NativeOp): Sig {
    match op
    case RtCopy => Sig([], SelfType)
    case RtAbort => Sig([], Cls(ObjectC))
    case RtOutInt => Sig([IntC], SelfType)
    case RtOutString => Sig([StringC], SelfType)
  }

  /**
    The program as the parser and install_basic_classes leave it: every method has its signature, the routines are
    those of the built-in classes, which redefine nothing, and Int, Bool and String are no parents.
   */
  ghost predicate Declarations(P: Program, sigs: Sigs)
    requires Hierarchy(P)
  {
    && (forall c {:trigger P.classes[c]} :: c in P.classes ==> !IsBasic(P.classes[c].parent))
    && (forall c {:trigger P.classes[c]} :: c in P.classes && !c.User? && !IsBasic(c) ==> P.classes[c].attrs == [])
    && (forall c, m {:trigger SigOf(sigs, c, m)} :: c in P.classes && m in P.classes[c].methods ==> SigOf(sigs, c, m))
    && (forall c, m {:trigger SigOf(sigs, c, m)} :: c in P.classes && m in P.classes[c].methods ==>
          SigOf(sigs, c, m) && (m.body.Native? <==> !c.User?) && (!c.User? ==> SameAsParent(P, sigs, c, m.name)))
  }

  predicate SigOf(sigs: Sigs, c: ClassName, m: Method) {
    && (c, m.name) in sigs && |sigs[(c, m.name)].formals| == |m.formals|
    && (m.body.Native? ==> sigs[(c, m.name)] == NativeSig(m.body.op))
  }

  /** No error is reported in any method or attribute of the program. */
  ghost predicate Accepts(P: Program, sigs: Sigs)
    requires Hierarchy(P) && Declarations(P, sigs)
  {
    && (forall c, m {:trigger SigOf(sigs, c, m)} :: c in P.classes && m in P.classes[c].methods && m.body.Code? ==>
          SigOf(sigs, c, m) && !AnalyzeMethod(P, sigs, c, m).reported)
    && (forall c, a {:trigger AnalyzeAttr(P, sigs, c, a)} :: c in P.classes && c.User? && a in P.classes[c].attrs ==> !AnalyzeAttr(P, sigs, c, a).reported)
  }

  /** No check fails unreported. */
  ghost predicate NothingSkipped(P: Program, sigs: Sigs)
    requires Hierarchy(P) && Declarations(P, sigs)
  {
    && (forall c, m {:trigger SigOf(sigs, c, m)} :: c in P.classes && m in P.classes[c].methods && m.body.Code? ==>
          SigOf(sigs, c, m) && !AnalyzeMethod(P, sigs, c, m).skipped)
    && (forall c, a {:trigger AnalyzeAttr(P, sigs, c, a)} :: c in P.classes && c.User? && a in P.classes[c].attrs ==> !AnalyzeAttr(P, sigs, c, a).skipped)
  }
}
