/** The tags are there for the emitted code alone: neither the type checker nor the interpreter looks at them. */
module Retagging {
  import opened CoolNames
  import opened Inheritance
  import opened CoolSyntax
  import opened Layout
  import opened ClassTags
  import opened CoolSemantics
  import opened SemanticsEquations
  import opened SimRel
  import opened SimMethods
  import opened SimCreation
  import opened Typing
  import opened ProgramImage
  import opened CodeGen
  import opened WholeProgram
  import opened Driver

  /** Two numberings of the classes of one program. */
  ghost predicate Renumbered(P: Program, Q: Program) {
    Retagged(P, Q) && Hierarchy(P) && Hierarchy(Q)
  }

  lemma ParentsKept(P: Program, Q: Program)
    requires Renumbered(P, Q)
    ensures Parents(Q) == Parents(P) && Q.classes == P.classes
  {
  }

  lemma InheritsKept(P: Program, Q: Program, c: ClassName)
    requires Renumbered(P, Q) && HasClass(P, c)
    ensures HasClass(Q, c) && Level(Q, c) == Level(P, c) && (c in P.classes ==> Up(Q, c) == Up(P, c))
    ensures forall d {:trigger Inherits(Q, c, d)} :: Inherits(Q, c, d) == Inherits(P, c, d)
  {
    ParentsKept(P, Q);
  }

  // ---------------------------------------------------------------------------------------------
  // The type checker.

  lemma {:induction false} AncestorKept(P: Program, Q: Program, c: ClassName, d: ClassName)
    requires Renumbered(P, Q) && HasClass(P, c) && HasClass(P, d)
    ensures HasClass(Q, c) && HasClass(Q, d) && CommonAncestor(Q, c, d) == CommonAncestor(P, c, d)
    decreases Level(P, c)
  {
    ParentsKept(P, Q);
    InheritsKept(P, Q, c);
    InheritsKept(P, Q, d);
    if c != NoClass {
      AncestorKept(P, Q, Up(P, c), d);
    }
  }

  lemma SubKept(P: Program, Q: Program, cls: ClassName)
    requires Renumbered(P, Q) && cls in P.classes
    ensures forall t {:trigger Exists(Q, t)} :: Exists(Q, t) == Exists(P, t)
    ensures forall a, b {:trigger Sub(Q, cls, a, b)} :: Sub(Q, cls, a, b) == Sub(P, cls, a, b)
  {
    ParentsKept(P, Q);
  }

  lemma LubKept(P: Program, Q: Program, cls: ClassName, a: Type, b: Type)
    requires Renumbered(P, Q) && cls in P.classes
    ensures LubType(Q, cls, a, b) == LubType(P, cls, a, b)
  {
    hide Hierarchy, Sub;
    ParentsKept(P, Q);
    SubKept(P, Q, cls);
    if Exists(P, a) && Exists(P, b) {
      AncestorKept(P, Q, Resolve(a, cls), Resolve(b, cls));
    }
  }

  lemma MethodSigKept(P: Program, Q: Program, sigs: Sigs, c: ClassName, m: Name)
    requires Renumbered(P, Q) && HasClass(P, c)
    ensures HasClass(Q, c) && MethodSig(Q, sigs, c, m) == MethodSig(P, sigs, c, m)
  {
    hide Hierarchy;
    NearestKept(P, Q, c, m);
  }

  lemma VarTypeKept(P: Program, Q: Program, cls: ClassName, O: map<Name, Type>, x: Name)
    requires Renumbered(P, Q) && cls in P.classes && AttrsOK(P, cls)
    ensures VarType(Q, cls, O, x) == VarType(P, cls, O, x)
  {
    hide Hierarchy, AttrLayout;
    AttrLayoutKept(P, Q, cls);
    var layout := AttrLayout(P, cls);
    if HasAttr(P, cls, x) {
      var i :| 0 <= i < |layout| && layout[i].name == x && AttrType(P, cls, x) == TypeOf(layout[i].ty);
      var j :| 0 <= j < |layout| && layout[j].name == x && AttrType(Q, cls, x) == TypeOf(layout[j].ty);
      assert i == j;
    }
  }

  lemma CallKept(P: Program, Q: Program, cls: ClassName, found: FoundSig, v: Verdict, vs: Verdicts)
    requires Renumbered(P, Q) && cls in P.classes
    ensures CallVerdict(Q, cls, found, v, vs) == CallVerdict(P, cls, found, v, vs)
  {
    hide Hierarchy, Sub;
    SubKept(P, Q, cls);
  }

  lemma {:induction false} AnalyzeKept(P: Program, Q: Program, sigs: Sigs, cls: ClassName, O: map<Name, Type>, e: Expr)
    requires Renumbered(P, Q) && cls in P.classes && cls in Q.classes && AttrsOK(P, cls)
    ensures Analyze(Q, sigs, cls, O, e) == Analyze(P, sigs, cls, O, e)
    decreases e, 1
  {
    hide *;
    match e
    case IntConst(_) => LeafKept(P, Q, sigs, cls, O, e);
    case BoolConst(_) => LeafKept(P, Q, sigs, cls, O, e);
    case StrConst(_) => LeafKept(P, Q, sigs, cls, O, e);
    case NoExpr(_) => LeafKept(P, Q, sigs, cls, O, e);
    case Object(_) => LeafKept(P, Q, sigs, cls, O, e);
    case Assign(_, _) => AssignKept(P, Q, sigs, cls, O, e);
    case Block(es) => BlockKept(P, Q, sigs, cls, O, e);
    case Cond(_, _, _) => CondKept(P, Q, sigs, cls, O, e);
    case Loop(_, _) => LoopKept(P, Q, sigs, cls, O, e);
    case Let(_, _, _, _) => LetKept(P, Q, sigs, cls, O, e);
    case Arith(_, _, _) => BinaryKept(P, Q, sigs, cls, O, e);
    case Compare(_, _, _) => BinaryKept(P, Q, sigs, cls, O, e);
    case Neg(_) => UnaryKept(P, Q, sigs, cls, O, e);
    case Comp(_) => UnaryKept(P, Q, sigs, cls, O, e);
    case Dispatch(_, _, _, _) => DispatchKept(P, Q, sigs, cls, O, e);
    case StaticDispatch(_, _, _, _) => StaticKept(P, Q, sigs, cls, O, e);
    case TypCase(_, _) => CaseKept(P, Q, sigs, cls, O, e);
    case New(_) => LeafKept(P, Q, sigs, cls, O, e);
    case NewSelf => LeafKept(P, Q, sigs, cls, O, e);
  }

  lemma {:induction false} LeafKept(P: Program, Q: Program, sigs: Sigs, cls: ClassName, O: map<Name, Type>, e: Expr)
    requires Renumbered(P, Q) && cls in P.classes && cls in Q.classes && AttrsOK(P, cls) && (e.IntConst? || e.BoolConst? || e.StrConst? || e.NoExpr? || e.Object? || e.New? || e.NewSelf?)
    ensures Analyze(Q, sigs, cls, O, e) == Analyze(P, sigs, cls, O, e)
    decreases e, 0
  {
    hide Hierarchy, VarType, AttrsOK;
    if e.Object? {
      VarTypeKept(P, Q, cls, O, e.x);
    }
  }

  lemma {:induction false} AssignKept(P: Program, Q: Program, sigs: Sigs, cls: ClassName, O: map<Name, Type>, e: Expr)
    requires Renumbered(P, Q) && cls in P.classes && cls in Q.classes && AttrsOK(P, cls) && e.Assign?
    ensures Analyze(Q, sigs, cls, O, e) == Analyze(P, sigs, cls, O, e)
    decreases e, 0
  {
    hide Hierarchy, VarType, Sub, AttrsOK;
    SubKept(P, Q, cls);
    VarTypeKept(P, Q, cls, O, e.x);
    AnalyzeKept(P, Q, sigs, cls, O, e.e);
  }

  lemma {:induction false} BlockKept(P: Program, Q: Program, sigs: Sigs, cls: ClassName, O: map<Name, Type>, e: Expr)
    requires Renumbered(P, Q) && cls in P.classes && cls in Q.classes && AttrsOK(P, cls) && e.Block?
    ensures Analyze(Q, sigs, cls, O, e) == Analyze(P, sigs, cls, O, e)
    decreases e, 0
  {
    hide Hierarchy, AnalyzeAll, AttrsOK;
    AnalyzeAllKept(P, Q, sigs, cls, O, e.es);
  }

  lemma {:induction false} CondKept(P: Program, Q: Program, sigs: Sigs, cls: ClassName, O: map<Name, Type>, e: Expr)
    requires Renumbered(P, Q) && cls in P.classes && cls in Q.classes && AttrsOK(P, cls) && e.Cond?
    ensures Analyze(Q, sigs, cls, O, e) == Analyze(P, sigs, cls, O, e)
    decreases e, 0
  {
    hide Hierarchy, LubType, AttrsOK;
    AnalyzeKept(P, Q, sigs, cls, O, e.pred);
    AnalyzeKept(P, Q, sigs, cls, O, e.thn);
    AnalyzeKept(P, Q, sigs, cls, O, e.els);
    LubKept(P, Q, cls, Analyze(P, sigs, cls, O, e.thn).ty, Analyze(P, sigs, cls, O, e.els).ty);
  }

  lemma {:induction false} LoopKept(P: Program, Q: Program, sigs: Sigs, cls: ClassName, O: map<Name, Type>, e: Expr)
    requires Renumbered(P, Q) && cls in P.classes && cls in Q.classes && AttrsOK(P, cls) && e.Loop?
    ensures Analyze(Q, sigs, cls, O, e) == Analyze(P, sigs, cls, O, e)
    decreases e, 0
  {
    hide Hierarchy, AttrsOK;
    AnalyzeKept(P, Q, sigs, cls, O, e.pred);
    AnalyzeKept(P, Q, sigs, cls, O, e.body);
  }

  lemma {:induction false} LetKept(P: Program, Q: Program, sigs: Sigs, cls: ClassName, O: map<Name, Type>, e: Expr)
    requires Renumbered(P, Q) && cls in P.classes && cls in Q.classes && AttrsOK(P, cls) && e.Let?
    ensures Analyze(Q, sigs, cls, O, e) == Analyze(P, sigs, cls, O, e)
    decreases e, 0
  {
    hide Hierarchy, AnalyzeInit, Exists, AttrsOK;
    SubKept(P, Q, cls);
    AnalyzeInitKept(P, Q, sigs, cls, O, e.ty, e.init);
    AnalyzeKept(P, Q, sigs, cls, O[e.x := TypeOf(e.ty)], e.body);
  }

  lemma {:induction false} BinaryKept(P: Program, Q: Program, sigs: Sigs, cls: ClassName, O: map<Name, Type>, e: Expr)
    requires Renumbered(P, Q) && cls in P.classes && cls in Q.classes && AttrsOK(P, cls) && (e.Arith? || e.Compare?)
    ensures Analyze(Q, sigs, cls, O, e) == Analyze(P, sigs, cls, O, e)
    decreases e, 0
  {
    hide Hierarchy, AttrsOK;
    AnalyzeKept(P, Q, sigs, cls, O, e.e1);
    AnalyzeKept(P, Q, sigs, cls, O, e.e2);
  }

  lemma {:induction false} UnaryKept(P: Program, Q: Program, sigs: Sigs, cls: ClassName, O: map<Name, Type>, e: Expr)
    requires Renumbered(P, Q) && cls in P.classes && cls in Q.classes && AttrsOK(P, cls) && (e.Neg? || e.Comp?)
    ensures Analyze(Q, sigs, cls, O, e) == Analyze(P, sigs, cls, O, e)
    decreases e, 0
  {
    hide Hierarchy, AttrsOK;
    AnalyzeKept(P, Q, sigs, cls, O, e.e);
  }

  lemma {:induction false} CaseKept(P: Program, Q: Program, sigs: Sigs, cls: ClassName, O: map<Name, Type>, e: Expr)
    requires Renumbered(P, Q) && cls in P.classes && cls in Q.classes && AttrsOK(P, cls) && e.TypCase?
    ensures Analyze(Q, sigs, cls, O, e) == Analyze(P, sigs, cls, O, e)
    decreases e, 0
  {
    hide Hierarchy, AttrsOK, AnalyzeCases;
    AnalyzeKept(P, Q, sigs, cls, O, e.e);
    AnalyzeCasesKept(P, Q, sigs, cls, O, e.cases);
  }

  lemma {:induction false} DispatchKept(P: Program, Q: Program, sigs: Sigs, cls: ClassName, O: map<Name, Type>, e: Expr)
    requires Renumbered(P, Q) && cls in P.classes && cls in Q.classes && AttrsOK(P, cls) && e.Dispatch?
    ensures Analyze(Q, sigs, cls, O, e) == Analyze(P, sigs, cls, O, e)
    decreases e, 0
  {
    hide Hierarchy, AttrsOK, AnalyzeAll, MethodSig, CallVerdict;
    SubKept(P, Q, cls);
    AnalyzeKept(P, Q, sigs, cls, O, e.e);
    AnalyzeAllKept(P, Q, sigs, cls, O, e.args);
    var v, vs := Analyze(P, sigs, cls, O, e.e), AnalyzeAll(P, sigs, cls, O, e.args);
    if Exists(P, v.ty) {
      ResolvedKept(P, Q, sigs, cls, v, vs, v.ty, e.m);
    }
  }

  lemma {:induction false} StaticKept(P: Program, Q: Program, sigs: Sigs, cls: ClassName, O: map<Name, Type>, e: Expr)
    requires Renumbered(P, Q) && cls in P.classes && cls in Q.classes && AttrsOK(P, cls) && e.StaticDispatch?
    ensures Analyze(Q, sigs, cls, O, e) == Analyze(P, sigs, cls, O, e)
    decreases e, 0
  {
    hide Hierarchy, AttrsOK, AnalyzeAll, MethodSig, CallVerdict, Sub;
    SubKept(P, Q, cls);
    AnalyzeKept(P, Q, sigs, cls, O, e.e);
    AnalyzeAllKept(P, Q, sigs, cls, O, e.args);
    var v, vs := Analyze(P, sigs, cls, O, e.e), AnalyzeAll(P, sigs, cls, O, e.args);
    if e.c in P.classes {
      ResolvedKept(P, Q, sigs, cls, v, vs, Cls(e.c), e.m);
    }
  }

  lemma ResolvedKept(P: Program, Q: Program, sigs: Sigs, cls: ClassName, v: Verdict, vs: Verdicts, ty: Type, m: Name)
    requires Renumbered(P, Q) && cls in P.classes && cls in Q.classes && Exists(P, ty) && Resolve(ty, cls) in P.classes
    ensures Exists(Q, ty) && Resolve(ty, cls) in Q.classes
    ensures CallVerdict(Q, cls, MethodSig(Q, sigs, Resolve(ty, cls), m), v, vs) == CallVerdict(P, cls, MethodSig(P, sigs, Resolve(ty, cls), m), v, vs)
  {
    hide Hierarchy, MethodSig, CallVerdict;
    MethodSigKept(P, Q, sigs, Resolve(ty, cls), m);
    CallKept(P, Q, cls, MethodSig(P, sigs, Resolve(ty, cls), m), v, vs);
  }

  lemma {:induction false} AnalyzeInitKept(P: Program, Q: Program, sigs: Sigs, cls: ClassName, O: map<Name, Type>, ty: StaticType, init: Expr)
    requires Renumbered(P, Q) && cls in P.classes && cls in Q.classes && AttrsOK(P, cls)
    ensures AnalyzeInit(Q, sigs, cls, O, ty, init) == AnalyzeInit(P, sigs, cls, O, ty, init)
    decreases init, 2
  {
    hide Hierarchy, Sub, AttrsOK, Analyze;
    SubKept(P, Q, cls);
    AnalyzeKept(P, Q, sigs, cls, O, init);
  }

  lemma {:induction false} AnalyzeAllKept(P: Program, Q: Program, sigs: Sigs, cls: ClassName, O: map<Name, Type>, es: seq<Expr>)
    requires Renumbered(P, Q) && cls in P.classes && cls in Q.classes && AttrsOK(P, cls)
    ensures AnalyzeAll(Q, sigs, cls, O, es) == AnalyzeAll(P, sigs, cls, O, es)
    decreases es, 0
  {
    hide Hierarchy, AttrsOK, Analyze;
    if es != [] {
      AnalyzeKept(P, Q, sigs, cls, O, es[0]);
      AnalyzeAllKept(P, Q, sigs, cls, O, es[1..]);
    }
  }

  lemma {:induction false} AnalyzeCasesKept(P: Program, Q: Program, sigs: Sigs, cls: ClassName, O: map<Name, Type>, cases: seq<Branch>)
    requires Renumbered(P, Q) && cls in P.classes && cls in Q.classes && AttrsOK(P, cls)
    ensures AnalyzeCases(Q, sigs, cls, O, cases) == AnalyzeCases(P, sigs, cls, O, cases)
    decreases cases, 0
  {
    hide Hierarchy, AttrsOK, Analyze, LubType;
    if cases != [] {
      var br, n := cases[|cases| - 1], |cases| - 1;
      AnalyzeCasesKept(P, Q, sigs, cls, O, cases[..n]);
      AnalyzeKept(P, Q, sigs, cls, O[br.x := Cls(br.c)], br.body);
      var v1 := if br.c in P.classes then Analyze(P, sigs, cls, O[br.x := Cls(br.c)], br.body) else Verdict(NoType, false, false);
      LubKept(P, Q, cls, v1.ty, AnalyzeCases(P, sigs, cls, O, cases[..n]).ty);
    }
  }

  /** The declarations are in order and no check fails, reported or not. */
  ghost predicate AllChecksPass(P: Program, sigs: Sigs)
    requires Hierarchy(P)
  {
    Declarations(P, sigs) && Accepts(P, sigs) && NothingSkipped(P, sigs)
  }

  lemma ParentSigKept(P: Program, Q: Program, sigs: Sigs, c: ClassName, m: Name)
    requires Renumbered(P, Q) && c in P.classes && c in Q.classes && (c, m) in sigs
    ensures SameAsParent(Q, sigs, c, m) == SameAsParent(P, sigs, c, m)
  {
    hide Hierarchy, MethodSig;
    InheritsKept(P, Q, c);
    MethodSigKept(P, Q, sigs, Up(P, c), m);
  }

  lemma DeclarationsKept(P: Program, Q: Program, sigs: Sigs)
    requires Renumbered(P, Q) && Declarations(P, sigs)
    ensures Declarations(Q, sigs)
  {
    hide Hierarchy, SameAsParent, IsBasic;
    forall c, m | c in Q.classes && m in Q.classes[c].methods
      ensures SigOf(sigs, c, m) && (m.body.Native? <==> !c.User?) && (!c.User? ==> SameAsParent(Q, sigs, c, m.name))
    {
      assert SigOf(sigs, c, m);
      ParentSigKept(P, Q, sigs, c, m.name);
    }
  }

  lemma MethodKept(P: Program, Q: Program, sigs: Sigs, c: ClassName, m: Method)
    requires Renumbered(P, Q) && c in P.classes && c in Q.classes && AttrsOK(P, c) && SigOf(sigs, c, m) && m.body.Code?
    ensures AnalyzeMethod(Q, sigs, c, m) == AnalyzeMethod(P, sigs, c, m)
  {
    hide Hierarchy, AttrsOK, Analyze, Sub, SameAsParent;
    SubKept(P, Q, c);
    ParentSigKept(P, Q, sigs, c, m.name);
    AnalyzeKept(P, Q, sigs, c, FormalTypes(m.formals, sigs[(c, m.name)].formals), m.body.e);
  }

  lemma AttrKept(P: Program, Q: Program, sigs: Sigs, c: ClassName, a: Attr)
    requires Renumbered(P, Q) && c in P.classes && c in Q.classes && AttrsOK(P, c)
    ensures AnalyzeAttr(Q, sigs, c, a) == AnalyzeAttr(P, sigs, c, a)
  {
    hide Hierarchy, AttrsOK, AnalyzeInit;
    SubKept(P, Q, c);
    AnalyzeInitKept(P, Q, sigs, c, map[], a.ty, a.init);
  }

  lemma ChecksKept(P: Program, Q: Program, sigs: Sigs)
    requires Renumbered(P, Q) && AllChecksPass(P, sigs) && forall c {:trigger AttrsOK(P, c)} :: c in P.classes ==> AttrsOK(P, c)
    ensures AllChecksPass(Q, sigs)
  {
    hide Hierarchy, AttrsOK, AnalyzeMethod, AnalyzeAttr, Declarations;
    DeclarationsKept(P, Q, sigs);
    forall c, m | c in Q.classes && m in Q.classes[c].methods && m.body.Code?
      ensures SigOf(sigs, c, m) && Clean(AnalyzeMethod(Q, sigs, c, m))
    {
      assert AttrsOK(P, c) && SigOf(sigs, c, m);
      MethodKept(P, Q, sigs, c, m);
    }
    forall c, a | c in Q.classes && c.User? && a in Q.classes[c].attrs ensures Clean(AnalyzeAttr(Q, sigs, c, a)) {
      assert AttrsOK(P, c);
      AttrKept(P, Q, sigs, c, a);
    }
  }

  // ---------------------------------------------------------------------------------------------
  // The interpreter.

  lemma ScopeKept(P: Program, Q: Program, cls: ClassName, self: Value, st: Store, x: Name)
    requires Renumbered(P, Q)
    ensures AttrInScope(Q, cls, self, st, x) == AttrInScope(P, cls, self, st, x)
  {
    hide Hierarchy, AttrLayout;
    if cls in P.classes {
      AttrLayoutKept(P, Q, cls);
    }
  }

  lemma {:induction false} ClosestKept(P: Program, Q: Program, c: ClassName, types: seq<ClassName>)
    requires Renumbered(P, Q) && HasClass(P, c)
    ensures HasClass(Q, c) && Closest(Q, c, types) == Closest(P, c, types)
    decreases Level(P, c)
  {
    InheritsKept(P, Q, c);
    if c != NoClass {
      ClosestKept(P, Q, Up(P, c), types);
    }
  }

  /** Interpreting the program needs no tags. */
  lemma {:induction false} EvalKept(P: Program, Q: Program, fuel: nat, cls: ClassName, self: Value, env: Env, st: Store, e: Expr)
    requires Renumbered(P, Q)
    ensures Eval(Q, fuel, cls, self, env, st, e) == Eval(P, fuel, cls, self, env, st, e)
    decreases fuel, 0, e, 1
  {
    hide Hierarchy, Retagged, Eval, EvalSeq;
    match e
    case IntConst(_) => EvalLeafKept(P, Q, fuel, cls, self, env, st, e);
    case BoolConst(_) => EvalLeafKept(P, Q, fuel, cls, self, env, st, e);
    case StrConst(_) => EvalLeafKept(P, Q, fuel, cls, self, env, st, e);
    case NoExpr(_) => EvalLeafKept(P, Q, fuel, cls, self, env, st, e);
    case Object(_) => EvalLeafKept(P, Q, fuel, cls, self, env, st, e);
    case Assign(_, _) => EvalAssignKept(P, Q, fuel, cls, self, env, st, e);
    case Block(es) =>
      EvalBlock(P, fuel, cls, self, env, st, e);
      EvalBlock(Q, fuel, cls, self, env, st, e);
      EvalSeqKept(P, Q, fuel, cls, self, env, st, es);
    case Cond(_, _, _) => EvalCondKept(P, Q, fuel, cls, self, env, st, e);
    case Loop(_, _) => EvalLoopKept(P, Q, fuel, cls, self, env, st, e);
    case Let(_, _, _, _) => EvalLetKept(P, Q, fuel, cls, self, env, st, e);
    case Arith(_, _, _) => EvalBinaryKept(P, Q, fuel, cls, self, env, st, e);
    case Compare(_, _, _) => EvalBinaryKept(P, Q, fuel, cls, self, env, st, e);
    case Neg(_) => EvalUnaryKept(P, Q, fuel, cls, self, env, st, e);
    case Comp(_) => EvalUnaryKept(P, Q, fuel, cls, self, env, st, e);
    case Dispatch(_, _, _, _) => EvalDispatchKept(P, Q, fuel, cls, self, env, st, e);
    case StaticDispatch(_, _, _, _) => EvalStaticKept(P, Q, fuel, cls, self, env, st, e);
    case TypCase(_, _) => EvalCaseKept(P, Q, fuel, cls, self, env, st, e);
    case New(_) => EvalNewKept(P, Q, fuel, cls, self, env, st, e);
    case NewSelf => EvalNewKept(P, Q, fuel, cls, self, env, st, e);
  }

  lemma {:induction false} EvalLeafKept(P: Program, Q: Program, fuel: nat, cls: ClassName, self: Value, env: Env, st: Store, e: Expr)
    requires Renumbered(P, Q) && (e.IntConst? || e.BoolConst? || e.StrConst? || e.NoExpr? || e.Object?)
    ensures Eval(Q, fuel, cls, self, env, st, e) == Eval(P, fuel, cls, self, env, st, e)
    decreases fuel, 0, e, 0
  {
    hide Hierarchy, AttrInScope;
    if e.Object? {
      ScopeKept(P, Q, cls, self, st, e.x);
    }
  }

  lemma {:induction false} EvalAssignKept(P: Program, Q: Program, fuel: nat, cls: ClassName, self: Value, env: Env, st: Store, e: Expr)
    requires Renumbered(P, Q) && e.Assign?
    ensures Eval(Q, fuel, cls, self, env, st, e) == Eval(P, fuel, cls, self, env, st, e)
    decreases fuel, 0, e, 0
  {
    hide Hierarchy, Eval, AttrInScope;
    EvalAssign(P, fuel, cls, self, env, st, e);
    EvalAssign(Q, fuel, cls, self, env, st, e);
    EvalKept(P, Q, fuel, cls, self, env, st, e.e);
    var o := Eval(P, fuel, cls, self, env, st, e.e);
    if o.Val? {
      ScopeKept(P, Q, cls, self, o.st, e.x);
    }
  }

  lemma {:induction false} EvalCondKept(P: Program, Q: Program, fuel: nat, cls: ClassName, self: Value, env: Env, st: Store, e: Expr)
    requires Renumbered(P, Q) && e.Cond?
    ensures Eval(Q, fuel, cls, self, env, st, e) == Eval(P, fuel, cls, self, env, st, e)
    decreases fuel, 0, e, 0
  {
    hide Hierarchy, Eval;
    EvalCond(P, fuel, cls, self, env, st, e);
    EvalCond(Q, fuel, cls, self, env, st, e);
    EvalKept(P, Q, fuel, cls, self, env, st, e.pred);
    var o := Eval(P, fuel, cls, self, env, st, e.pred);
    if o.Val? {
      EvalKept(P, Q, fuel, cls, self, o.env, o.st, e.thn);
      EvalKept(P, Q, fuel, cls, self, o.env, o.st, e.els);
    }
  }

  lemma {:induction false} EvalLoopKept(P: Program, Q: Program, fuel: nat, cls: ClassName, self: Value, env: Env, st: Store, e: Expr)
    requires Renumbered(P, Q) && e.Loop?
    ensures Eval(Q, fuel, cls, self, env, st, e) == Eval(P, fuel, cls, self, env, st, e)
    decreases fuel, 0, e, 0
  {
    hide Hierarchy, Eval;
    EvalLoop(P, fuel, cls, self, env, st, e);
    EvalLoop(Q, fuel, cls, self, env, st, e);
    EvalKept(P, Q, fuel, cls, self, env, st, e.pred);
    var o := Eval(P, fuel, cls, self, env, st, e.pred);
    if o.Val? {
      EvalKept(P, Q, fuel, cls, self, o.env, o.st, e.body);
      var o1 := Eval(P, fuel, cls, self, o.env, o.st, e.body);
      if o1.Val? && fuel > 0 {
        EvalKept(P, Q, fuel - 1, cls, self, o1.env, o1.st, e);
      }
    }
  }

  lemma {:induction false} EvalLetKept(P: Program, Q: Program, fuel: nat, cls: ClassName, self: Value, env: Env, st: Store, e: Expr)
    requires Renumbered(P, Q) && e.Let?
    ensures Eval(Q, fuel, cls, self, env, st, e) == Eval(P, fuel, cls, self, env, st, e)
    decreases fuel, 0, e, 0
  {
    hide Hierarchy, Eval, LeaveScope;
    EvalLet(P, fuel, cls, self, env, st, e);
    EvalLet(Q, fuel, cls, self, env, st, e);
    EvalKept(P, Q, fuel, cls, self, env, st, e.init);
    var o := Eval(P, fuel, cls, self, env, st, e.init);
    if o.Val? {
      EvalKept(P, Q, fuel, cls, self, o.env[e.x := o.v], o.st, e.body);
    }
  }

  lemma {:induction false} EvalBinaryKept(P: Program, Q: Program, fuel: nat, cls: ClassName, self: Value, env: Env, st: Store, e: Expr)
    requires Renumbered(P, Q) && (e.Arith? || e.Compare?)
    ensures Eval(Q, fuel, cls, self, env, st, e) == Eval(P, fuel, cls, self, env, st, e)
    decreases fuel, 0, e, 0
  {
    hide Hierarchy, Eval, ArithOutcome, CompareOutcome;
    if e.Arith? {
      EvalArith(P, fuel, cls, self, env, st, e);
      EvalArith(Q, fuel, cls, self, env, st, e);
    } else {
      EvalCompare(P, fuel, cls, self, env, st, e);
      EvalCompare(Q, fuel, cls, self, env, st, e);
    }
    EvalKept(P, Q, fuel, cls, self, env, st, e.e1);
    var o := Eval(P, fuel, cls, self, env, st, e.e1);
    if o.Val? {
      EvalKept(P, Q, fuel, cls, self, o.env, o.st, e.e2);
    }
  }

  lemma {:induction false} EvalUnaryKept(P: Program, Q: Program, fuel: nat, cls: ClassName, self: Value, env: Env, st: Store, e: Expr)
    requires Renumbered(P, Q) && (e.Neg? || e.Comp?)
    ensures Eval(Q, fuel, cls, self, env, st, e) == Eval(P, fuel, cls, self, env, st, e)
    decreases fuel, 0, e, 0
  {
    hide Hierarchy, Eval, NegOutcome, CompOutcome;
    if e.Neg? {
      EvalNeg(P, fuel, cls, self, env, st, e);
      EvalNeg(Q, fuel, cls, self, env, st, e);
    } else {
      EvalComp(P, fuel, cls, self, env, st, e);
      EvalComp(Q, fuel, cls, self, env, st, e);
    }
    EvalKept(P, Q, fuel, cls, self, env, st, e.e);
  }

  lemma {:induction false} EvalDispatchKept(P: Program, Q: Program, fuel: nat, cls: ClassName, self: Value, env: Env, st: Store, e: Expr)
    requires Renumbered(P, Q) && e.Dispatch?
    ensures Eval(Q, fuel, cls, self, env, st, e) == Eval(P, fuel, cls, self, env, st, e)
    decreases fuel, 0, e, 0
  {
    hide Hierarchy, Eval, EvalArgs, CallDynamic, Return;
    EvalDispatch(P, fuel, cls, self, env, st, e);
    EvalDispatch(Q, fuel, cls, self, env, st, e);
    EvalArgsKept(P, Q, fuel, cls, self, env, st, e.args);
    var a := EvalArgs(P, fuel, cls, self, env, st, e.args);
    if a.Args? {
      EvalKept(P, Q, fuel, cls, self, a.env, a.st, e.e);
      var o := Eval(P, fuel, cls, self, a.env, a.st, e.e);
      if o.Val? && fuel > 0 {
        CallDynamicKept(P, Q, fuel - 1, StaticClass(e.sty, cls), ClassOf(o.st, o.v), o.v, e.m, a.vs, o.st);
      }
    }
  }

  lemma {:induction false} EvalStaticKept(P: Program, Q: Program, fuel: nat, cls: ClassName, self: Value, env: Env, st: Store, e: Expr)
    requires Renumbered(P, Q) && e.StaticDispatch?
    ensures Eval(Q, fuel, cls, self, env, st, e) == Eval(P, fuel, cls, self, env, st, e)
    decreases fuel, 0, e, 0
  {
    hide Hierarchy, Eval, EvalArgs, Call, Return, Inherits;
    EvalStaticDispatch(P, fuel, cls, self, env, st, e);
    EvalStaticDispatch(Q, fuel, cls, self, env, st, e);
    EvalArgsKept(P, Q, fuel, cls, self, env, st, e.args);
    var a := EvalArgs(P, fuel, cls, self, env, st, e.args);
    if a.Args? {
      EvalKept(P, Q, fuel, cls, self, a.env, a.st, e.e);
      var o := Eval(P, fuel, cls, self, a.env, a.st, e.e);
      if o.Val? && fuel > 0 {
        ParentsKept(P, Q);
        if HasClass(P, ClassOf(o.st, o.v)) {
          InheritsKept(P, Q, ClassOf(o.st, o.v));
        }
        CallsKept(P, Q, fuel - 1, e.c, o.v, e.m, a.vs, o.st);
      }
    }
  }

  lemma {:induction false} EvalCaseKept(P: Program, Q: Program, fuel: nat, cls: ClassName, self: Value, env: Env, st: Store, e: Expr)
    requires Renumbered(P, Q) && e.TypCase?
    ensures Eval(Q, fuel, cls, self, env, st, e) == Eval(P, fuel, cls, self, env, st, e)
    decreases fuel, 0, e, 0
  {
    hide Hierarchy, Eval, Closest, LeaveScope;
    EvalTypCase(P, fuel, cls, self, env, st, e);
    EvalTypCase(Q, fuel, cls, self, env, st, e);
    EvalKept(P, Q, fuel, cls, self, env, st, e.e);
    var o := Eval(P, fuel, cls, self, env, st, e.e);
    if o.Val? && ClassOf(o.st, o.v) in P.classes {
      ClosestKept(P, Q, ClassOf(o.st, o.v), CaseTypes(e.cases));
      var i := Closest(P, ClassOf(o.st, o.v), CaseTypes(e.cases));
      if i != -1 {
        EvalKept(P, Q, fuel, cls, self, o.env[e.cases[i].x := o.v], o.st, e.cases[i].body);
      }
    }
  }

  lemma {:induction false} EvalNewKept(P: Program, Q: Program, fuel: nat, cls: ClassName, self: Value, env: Env, st: Store, e: Expr)
    requires Renumbered(P, Q) && (e.New? || e.NewSelf?)
    ensures Eval(Q, fuel, cls, self, env, st, e) == Eval(P, fuel, cls, self, env, st, e)
    decreases fuel, 0, e, 0
  {
    hide Hierarchy, Eval, Create, Return;
    if e.New? {
      EvalNew(P, fuel, cls, self, env, st, e);
      EvalNew(Q, fuel, cls, self, env, st, e);
    } else {
      EvalNewSelf(P, fuel, cls, self, env, st, e);
      EvalNewSelf(Q, fuel, cls, self, env, st, e);
    }
    if fuel > 0 {
      CreateKept(P, Q, fuel - 1, if e.New? then e.c else ClassOf(st, self), st);
    }
  }

  lemma {:induction false} EvalSeqKept(P: Program, Q: Program, fuel: nat, cls: ClassName, self: Value, env: Env, st: Store, es: seq<Expr>)
    requires Renumbered(P, Q)
    ensures EvalSeq(Q, fuel, cls, self, env, st, es) == EvalSeq(P, fuel, cls, self, env, st, es)
    decreases fuel, 0, es, 0
  {
    hide Hierarchy, Eval;
    if es != [] {
      EvalKept(P, Q, fuel, cls, self, env, st, es[0]);
      var o := Eval(P, fuel, cls, self, env, st, es[0]);
      if o.Val? && |es| > 1 {
        EvalSeqKept(P, Q, fuel, cls, self, o.env, o.st, es[1..]);
      }
    }
  }

  lemma {:induction false} EvalArgsKept(P: Program, Q: Program, fuel: nat, cls: ClassName, self: Value, env: Env, st: Store, es: seq<Expr>)
    requires Renumbered(P, Q)
    ensures EvalArgs(Q, fuel, cls, self, env, st, es) == EvalArgs(P, fuel, cls, self, env, st, es)
    decreases fuel, 0, es, 0
  {
    hide Hierarchy, Eval;
    if es != [] {
      EvalKept(P, Q, fuel, cls, self, env, st, es[0]);
      var o := Eval(P, fuel, cls, self, env, st, es[0]);
      if o.Val? {
        EvalArgsKept(P, Q, fuel, cls, self, o.env, o.st, es[1..]);
      }
    }
  }

  lemma DynamicCases(P: Program, fuel: nat, sc: ClassName, dc: ClassName, v0: Value, m: Name, vs: seq<Value>, st: Store)
    requires Hierarchy(P)
    ensures CallDynamic(P, fuel, sc, dc, v0, m, vs, st) ==
      if sc !in P.classes || dc !in P.classes || !Inherits(P, dc, sc) || Nearest(P, sc, m) == NoClass then Wrong
      else Call(P, fuel, dc, v0, m, vs, st)
  {
    hide Hierarchy, Call, Inherits, Nearest;
  }

  lemma {:induction false} CallDynamicKept(P: Program, Q: Program, fuel: nat, sc: ClassName, dc: ClassName, v0: Value, m: Name, vs: seq<Value>, st: Store)
    requires Renumbered(P, Q)
    ensures CallDynamic(Q, fuel, sc, dc, v0, m, vs, st) == CallDynamic(P, fuel, sc, dc, v0, m, vs, st)
    decreases fuel, 4
  {
    hide Hierarchy, Retagged, Call, CallDynamic, Inherits, Nearest, Level, Up;
    ParentsKept(P, Q);
    DynamicCases(P, fuel, sc, dc, v0, m, vs, st);
    DynamicCases(Q, fuel, sc, dc, v0, m, vs, st);
    CallsKept(P, Q, fuel, dc, v0, m, vs, st);
    if sc in P.classes && dc in P.classes {
      InheritsKept(P, Q, dc);
      NearestKept(P, Q, sc, m);
    }
  }

  lemma {:induction false} CallsKept(P: Program, Q: Program, fuel: nat, c: ClassName, v0: Value, m: Name, vs: seq<Value>, st: Store)
    requires Renumbered(P, Q)
    ensures Call(Q, fuel, c, v0, m, vs, st) == Call(P, fuel, c, v0, m, vs, st)
    decreases fuel, 3
  {
    hide Hierarchy, Call, Eval, Inherits, Nearest, RunNative, Decl, Declares;
    ParentsKept(P, Q);
    CallCases(P, fuel, c, v0, m, vs, st);
    CallCases(Q, fuel, c, v0, m, vs, st);
    if c in P.classes {
      NearestKept(P, Q, c, m);
      InheritsKept(P, Q, c);
      var d := Nearest(P, c, m);
      if d != NoClass {
        var mt := Decl(P.classes[d], m);
        if mt.body.Code? && |mt.formals| == |vs| {
          EvalKept(P, Q, fuel, d, v0, Bind(mt.formals, vs), st, mt.body.e);
        }
      }
    }
  }

  lemma {:induction false} CreateKept(P: Program, Q: Program, fuel: nat, c: ClassName, st: Store)
    requires Renumbered(P, Q)
    ensures Create(Q, fuel, c, st) == Create(P, fuel, c, st)
    decreases fuel, 3
  {
    hide Hierarchy, Init, AttrLayout, Defaults;
    ParentsKept(P, Q);
    CreateCases(P, fuel, c, st);
    CreateCases(Q, fuel, c, st);
    if c in P.classes {
      AttrLayoutKept(P, Q, c);
      InitKept(P, Q, fuel, c, VObj(|st.objs|), st.(objs := st.objs + [Obj(c, Defaults(AttrLayout(P, c)))]));
    }
  }

  lemma {:induction false} InitKept(P: Program, Q: Program, fuel: nat, c: ClassName, self: Value, st: Store)
    requires Renumbered(P, Q) && c in P.classes && c in Q.classes
    ensures Init(Q, fuel, c, self, st) == Init(P, fuel, c, self, st)
    decreases fuel, 2
  {
    hide Hierarchy, Init, EvalSeq;
    ParentsKept(P, Q);
    InitCases(P, fuel, c, self, st);
    InitCases(Q, fuel, c, self, st);
    var up, es := P.classes[c].parent, InitExprs(P.classes[c].attrs);
    EvalSeqKept(P, Q, fuel, c, self, map[], st, es);
    if up != NoClass && fuel > 0 {
      InitKept(P, Q, fuel - 1, up, self, st);
      var o := Init(P, fuel - 1, up, self, st);
      if o.Val? {
        EvalSeqKept(P, Q, fuel, c, self, map[], o.st, es);
      }
    }
  }

  /** A program means the same whatever its tags. */
  lemma RunKept(P: Program, Q: Program, fuel: nat)
    requires Renumbered(P, Q)
    ensures RunProgram(Q, fuel) == RunProgram(P, fuel)
  {
    hide Hierarchy, Create, Call;
    CreateKept(P, Q, fuel, MAIN, Store([], []));
    var o := Create(P, fuel, MAIN, Store([], []));
    if o.Val? {
      CallsKept(P, Q, fuel, MAIN, o.v, MAINMETH, [], o.st);
    }
  }
}
