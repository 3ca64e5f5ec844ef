/** The checker accepts exactly what the typing rules allow. */
module TypingDecided {
  import opened CoolNames
  import opened Inheritance
  import opened CoolSyntax
  import opened Layout
  import opened ClassTags
  import opened CoolSemantics
  import opened SimRel
  import opened Typing
  import opened TypeSoundness
  import opened TypingRules
  import opened Retagging

  /** No error is reported, and with `strict` no check has failed at all. */
  predicate Passes(v: Verdict, strict: bool) {
    !v.reported && (strict ==> !v.skipped)
  }

  // ---------------------------------------------------------------------------------------------
  // Conformance and joins.

  lemma {:induction false} ConformsIs(P: Program, cls: ClassName)
    requires Hierarchy(P) && cls in P.classes
    ensures forall a, b {:trigger Conforms(P, cls, a, b)} {:trigger Sub(P, cls, a, b)} :: Conforms(P, cls, a, b) == Sub(P, cls, a, b)
    ensures forall t {:trigger Known(P, t)} {:trigger Exists(P, t)} :: Known(P, t) == Exists(P, t)
  {
  }

  lemma {:induction false} JoinIs(P: Program, cls: ClassName, a: Type, b: Type)
    requires Hierarchy(P) && cls in P.classes
    ensures forall t {:trigger IsJoin(P, cls, a, b, t)} :: IsJoin(P, cls, a, b, t) <==> !t.NoType? && LubType(P, cls, a, b) == t
  {
    hide Hierarchy, Conforms, Sub, Known, Exists;
    ConformsIs(P, cls);
    var l := LubType(P, cls, a, b);
    if Exists(P, a) && Exists(P, b) {
      forall t ensures IsJoin(P, cls, a, b, t) ==> t == l {
        LubIsLeast(P, cls, a, b, t);
        Antisymmetric(P, cls, l, t);
      }
      forall u ensures Sub(P, cls, a, u) && Sub(P, cls, b, u) ==> Sub(P, cls, l, u) {
        LubIsLeast(P, cls, a, b, u);
      }
      LubIsLeast(P, cls, a, b, a);
    }
    NotKnown(P, cls, a, b);
  }

  lemma {:induction false} NotKnown(P: Program, cls: ClassName, a: Type, b: Type)
    requires Hierarchy(P) && cls in P.classes
    ensures !Exists(P, a) || !Exists(P, b) ==> LubType(P, cls, a, b).NoType? && forall t :: !IsJoin(P, cls, a, b, t)
    ensures forall t {:trigger IsJoin(P, cls, a, b, t)} :: IsJoin(P, cls, a, b, t) ==> !t.NoType?
  {
  }

  lemma {:induction false} Antisymmetric(P: Program, cls: ClassName, a: Type, b: Type)
    requires Hierarchy(P) && cls in P.classes
    ensures Sub(P, cls, a, b) && Sub(P, cls, b, a) ==> a == b
  {
    if Sub(P, cls, a, b) && Sub(P, cls, b, a) {
      BelowPartialOrder(Parents(P), cls, a, b, a);
    }
  }

  // ---------------------------------------------------------------------------------------------
  // Variables and methods.

  lemma {:induction false} LayoutDeclared(P: Program, c: ClassName, i: nat) returns (d: ClassName)
    requires Hierarchy(P) && c in P.classes && i < |AttrLayout(P, c)|
    ensures d in P.classes && Inherits(P, c, d) && AttrLayout(P, c)[i] in P.classes[d].attrs
    decreases Level(P, c)
  {
    hide Hierarchy;
    OwnAttrs(P, c);
    SelfAndUp(P, c);
    var up := Up(P, c);
    if i < |AttrLayout(P, up)| {
      d := LayoutDeclared(P, up, i);
    } else {
      d := c;
    }
  }

  lemma {:induction false} SelfAndUp(P: Program, c: ClassName)
    requires Hierarchy(P) && c in P.classes
    ensures Inherits(P, c, c)
    ensures forall d {:trigger Inherits(P, c, d)} :: Inherits(P, c, d) <==> d == c || Inherits(P, Up(P, c), d)
  {
  }

  lemma {:induction false} DeclaredInLayout(P: Program, c: ClassName, d: ClassName, i: nat) returns (j: nat)
    requires Hierarchy(P) && c in P.classes && d in P.classes && Inherits(P, c, d) && i < |P.classes[d].attrs|
    ensures j < |AttrLayout(P, c)| && AttrLayout(P, c)[j] == P.classes[d].attrs[i]
  {
    hide Hierarchy, Inherits;
    AttrPrefix(P, c, d);
    OwnAttrs(P, d);
    j := |AttrLayout(P, Up(P, d))| + i;
    assert AttrLayout(P, d)[j] == P.classes[d].attrs[i];
  }

  lemma {:induction false} DeclaredType(P: Program, cls: ClassName, x: Name, t: Type, c: ClassName)
    requires Hierarchy(P) && cls in P.classes && AttrsOK(P, cls) && Inherits(P, cls, c) && DeclaresAttr(P, c, x, t)
    ensures AttrType(P, cls, x) == t
  {
    hide Hierarchy, Inherits, AttrLayout;
    var layout := AttrLayout(P, cls);
    var i :| 0 <= i < |P.classes[c].attrs| && P.classes[c].attrs[i].name == x && t == TypeOf(P.classes[c].attrs[i].ty);
    var j := DeclaredInLayout(P, cls, c, i);
    assert HasAttr(P, cls, x);
    var k :| 0 <= k < |layout| && layout[k].name == x && AttrType(P, cls, x) == TypeOf(layout[k].ty);
    assert j == k;
  }

  /** An attribute that is declared for the class has the type that get_attr finds. */
  lemma {:induction false} AttrTypeIs(P: Program, cls: ClassName, x: Name, t: Type)
    requires Hierarchy(P) && cls in P.classes && AttrsOK(P, cls) && !t.NoType?
    ensures (exists c :: Inherits(P, cls, c) && DeclaresAttr(P, c, x, t)) <==> AttrType(P, cls, x) == t
  {
    hide Hierarchy, Inherits, AttrLayout, AttrsOK, AttrType;
    if c :| Inherits(P, cls, c) && DeclaresAttr(P, c, x, t) {
      DeclaredType(P, cls, x, t, c);
    }
    if AttrType(P, cls, x) == t {
      var k := AttrTypeFound(P, cls, x);
      var c := LayoutDeclared(P, cls, k);
      assert DeclaresAttr(P, c, x, t);
    }
  }

  lemma {:induction false} VarTypeIs(P: Program, cls: ClassName, O: map<Name, Type>, x: Name)
    requires Hierarchy(P) && cls in P.classes && AttrsOK(P, cls)
    ensures forall t {:trigger HasType(P, cls, O, x, t)} :: HasType(P, cls, O, x, t) <==> !t.NoType? && VarType(P, cls, O, x) == t
  {
    hide Hierarchy, Inherits, AttrsOK, AttrType, DeclaresAttr;
    forall t ensures HasType(P, cls, O, x, t) <==> !t.NoType? && VarType(P, cls, O, x) == t {
      if !t.NoType? {
        AttrTypeIs(P, cls, x, t);
      }
    }
  }

  lemma {:induction false} NearestVisible(P: Program, c: ClassName, m: Name)
    requires Hierarchy(P) && c in P.classes && Nearest(P, c, m) != NoClass
    ensures Visible(P, c, m, Nearest(P, c, m))
    decreases Level(P, c)
  {
    hide Hierarchy, Declares;
    NearestUp(P, c, m);
    SelfAndUp(P, c);
    NoClassUnknown(P);
    if !Declares(P.classes[c], m) && Up(P, c) in P.classes {
      NearestVisible(P, Up(P, c), m);
    }
  }

  lemma {:induction false} VisibleIs(P: Program, c: ClassName, m: Name)
    requires Hierarchy(P) && HasClass(P, c)
    ensures forall d {:trigger Visible(P, c, m, d)} :: Visible(P, c, m, d) <==> d != NoClass && Nearest(P, c, m) == d
  {
    forall d ensures Visible(P, c, m, d) <==> d != NoClass && Nearest(P, c, m) == d {
      if c in P.classes && Nearest(P, c, m) != NoClass {
        NearestVisible(P, c, m);
      }
      if Visible(P, c, m, d) {
        NearestBelow(P, c, d, m);
        AncAntisymmetric(Parents(P), d, Nearest(P, c, m));
      }
    }
  }

  lemma {:induction false} SigIs(P: Program, sigs: Sigs, c: ClassName, m: Name)
    requires Hierarchy(P) && HasClass(P, c)
    ensures forall sig {:trigger HasSig(P, sigs, c, m, sig)} :: HasSig(P, sigs, c, m, sig) <==> MethodSig(P, sigs, c, m) == Found(sig)
  {
    hide Hierarchy, Nearest, Visible;
    VisibleIs(P, c, m);
  }

  // ---------------------------------------------------------------------------------------------
  // Expressions.

  /** The verdict of the checker on `e` is what the rules say. */
  ghost predicate Agrees(P: Program, sigs: Sigs, strict: bool, cls: ClassName, O: map<Name, Type>, e: Expr)
    requires Hierarchy(P) && cls in P.classes
  {
    forall t {:trigger Typed(P, sigs, strict, cls, O, e, t)} ::
      Typed(P, sigs, strict, cls, O, e, t) <==> Passes(Analyze(P, sigs, cls, O, e), strict) && Analyze(P, sigs, cls, O, e).ty == t
  }

  lemma {:induction false} SomeType(P: Program, sigs: Sigs, strict: bool, cls: ClassName, O: map<Name, Type>, e: Expr, t: Type)
    requires Hierarchy(P) && cls in P.classes && Typed(P, sigs, strict, cls, O, e, t)
    ensures HasSome(P, sigs, strict, cls, O, e)
    ensures forall b {:trigger ConformsTo(P, sigs, strict, cls, O, e, b)} :: Conforms(P, cls, t, b) ==> ConformsTo(P, sigs, strict, cls, O, e, b)
  {
    hide Hierarchy, Analyze, Typed, Conforms;
  }

  lemma {:induction false} TypeOfSome(P: Program, sigs: Sigs, strict: bool, cls: ClassName, O: map<Name, Type>, e: Expr) returns (t: Type)
    requires Hierarchy(P) && cls in P.classes && HasSome(P, sigs, strict, cls, O, e)
    ensures Typed(P, sigs, strict, cls, O, e, t)
  {
    hide Hierarchy, Analyze, Typed;
    t :| Typed(P, sigs, strict, cls, O, e, t);
  }

  lemma {:induction false} TypeOfConforming(P: Program, sigs: Sigs, strict: bool, cls: ClassName, O: map<Name, Type>, e: Expr, b: Type) returns (t: Type)
    requires Hierarchy(P) && cls in P.classes && ConformsTo(P, sigs, strict, cls, O, e, b)
    ensures Typed(P, sigs, strict, cls, O, e, t) && Conforms(P, cls, t, b)
  {
    hide Hierarchy, Analyze, Typed, Conforms;
    t :| Typed(P, sigs, strict, cls, O, e, t) && Conforms(P, cls, t, b);
  }

  lemma {:induction false} AgreesAt(P: Program, sigs: Sigs, strict: bool, cls: ClassName, O: map<Name, Type>, e: Expr, t: Type)
    requires Hierarchy(P) && cls in P.classes && Agrees(P, sigs, strict, cls, O, e)
    ensures Typed(P, sigs, strict, cls, O, e, t) <==> Passes(Analyze(P, sigs, cls, O, e), strict) && Analyze(P, sigs, cls, O, e).ty == t
  {
    hide Hierarchy, Typed, Analyze, Passes;
  }

  lemma {:induction false} SomePasses(P: Program, sigs: Sigs, strict: bool, cls: ClassName, O: map<Name, Type>, e: Expr)
    requires Hierarchy(P) && cls in P.classes && Agrees(P, sigs, strict, cls, O, e) && HasSome(P, sigs, strict, cls, O, e)
    ensures Passes(Analyze(P, sigs, cls, O, e), strict)
  {
    hide *;
    var t := TypeOfSome(P, sigs, strict, cls, O, e);
    AgreesAt(P, sigs, strict, cls, O, e, t);
  }

  lemma {:induction false} ConformingPasses(P: Program, sigs: Sigs, strict: bool, cls: ClassName, O: map<Name, Type>, e: Expr, b: Type)
    requires Hierarchy(P) && cls in P.classes && Agrees(P, sigs, strict, cls, O, e) && ConformsTo(P, sigs, strict, cls, O, e, b)
    ensures Passes(Analyze(P, sigs, cls, O, e), strict) && Conforms(P, cls, Analyze(P, sigs, cls, O, e).ty, b)
  {
    hide *;
    var t := TypeOfConforming(P, sigs, strict, cls, O, e, b);
    AgreesAt(P, sigs, strict, cls, O, e, t);
  }

  lemma {:induction false} PassesTyped(P: Program, sigs: Sigs, strict: bool, cls: ClassName, O: map<Name, Type>, e: Expr)
    requires Hierarchy(P) && cls in P.classes && Agrees(P, sigs, strict, cls, O, e) && Passes(Analyze(P, sigs, cls, O, e), strict)
    ensures var t := Analyze(P, sigs, cls, O, e).ty;
      && Typed(P, sigs, strict, cls, O, e, t) && HasSome(P, sigs, strict, cls, O, e)
      && forall b {:trigger ConformsTo(P, sigs, strict, cls, O, e, b)} :: Conforms(P, cls, t, b) ==> ConformsTo(P, sigs, strict, cls, O, e, b)
  {
    hide *;
    AgreesAt(P, sigs, strict, cls, O, e, Analyze(P, sigs, cls, O, e).ty);
    SomeType(P, sigs, strict, cls, O, e, Analyze(P, sigs, cls, O, e).ty);
  }

  /** There is a type exactly when the verdict passes. */
  lemma {:induction false} Witness(P: Program, sigs: Sigs, strict: bool, cls: ClassName, O: map<Name, Type>, e: Expr)
    requires Hierarchy(P) && cls in P.classes && Agrees(P, sigs, strict, cls, O, e)
    ensures HasSome(P, sigs, strict, cls, O, e) ==> Passes(Analyze(P, sigs, cls, O, e), strict)
    ensures Passes(Analyze(P, sigs, cls, O, e), strict) ==> HasSome(P, sigs, strict, cls, O, e)
    ensures Passes(Analyze(P, sigs, cls, O, e), strict) ==> Typed(P, sigs, strict, cls, O, e, Analyze(P, sigs, cls, O, e).ty)
  {
    hide *;
    if HasSome(P, sigs, strict, cls, O, e) {
      SomePasses(P, sigs, strict, cls, O, e);
    }
    if Passes(Analyze(P, sigs, cls, O, e), strict) {
      PassesTyped(P, sigs, strict, cls, O, e);
    }
  }

  lemma {:induction false} WitnessConforms(P: Program, sigs: Sigs, strict: bool, cls: ClassName, O: map<Name, Type>, e: Expr, b: Type)
    requires Hierarchy(P) && cls in P.classes && Agrees(P, sigs, strict, cls, O, e)
    ensures ConformsTo(P, sigs, strict, cls, O, e, b) ==> Passes(Analyze(P, sigs, cls, O, e), strict) && Conforms(P, cls, Analyze(P, sigs, cls, O, e).ty, b)
    ensures Passes(Analyze(P, sigs, cls, O, e), strict) && Conforms(P, cls, Analyze(P, sigs, cls, O, e).ty, b) ==> ConformsTo(P, sigs, strict, cls, O, e, b)
  {
    hide *;
    if ConformsTo(P, sigs, strict, cls, O, e, b) {
      ConformingPasses(P, sigs, strict, cls, O, e, b);
    }
    if Passes(Analyze(P, sigs, cls, O, e), strict) {
      PassesTyped(P, sigs, strict, cls, O, e);
    }
  }

  lemma {:induction false} RuleOf(P: Program, sigs: Sigs, strict: bool, cls: ClassName, O: map<Name, Type>, e: Expr, t: Type)
    requires Hierarchy(P) && cls in P.classes
    ensures e.Assign? ==> Typed(P, sigs, strict, cls, O, e, t) == RuleAssign(P, sigs, strict, cls, O, e, t)
    ensures e.Block? ==> Typed(P, sigs, strict, cls, O, e, t) == RuleBlock(P, sigs, strict, cls, O, e, t)
    ensures e.Cond? ==> Typed(P, sigs, strict, cls, O, e, t) == RuleCond(P, sigs, strict, cls, O, e, t)
    ensures e.Loop? ==> Typed(P, sigs, strict, cls, O, e, t) == RuleLoop(P, sigs, strict, cls, O, e, t)
    ensures e.Let? ==> Typed(P, sigs, strict, cls, O, e, t) == RuleLet(P, sigs, strict, cls, O, e, t)
    ensures e.Arith? || e.Compare? ==> Typed(P, sigs, strict, cls, O, e, t) == RuleInts(P, sigs, strict, cls, O, e, t)
    ensures e.Neg? || e.Comp? ==> Typed(P, sigs, strict, cls, O, e, t) == RuleUnary(P, sigs, strict, cls, O, e, t)
    ensures e.Dispatch? ==> Typed(P, sigs, strict, cls, O, e, t) == RuleDispatch(P, sigs, strict, cls, O, e, t)
    ensures e.StaticDispatch? ==> Typed(P, sigs, strict, cls, O, e, t) == RuleStatic(P, sigs, strict, cls, O, e, t)
    ensures e.TypCase? ==> Typed(P, sigs, strict, cls, O, e, t) == RuleCase(P, sigs, strict, cls, O, e, t)
    ensures e.IntConst? || e.BoolConst? || e.StrConst? || e.NoExpr? || e.Object? || e.New? || e.NewSelf? ==>
      Typed(P, sigs, strict, cls, O, e, t) == RuleLeaf(P, sigs, strict, cls, O, e, t)
  {
    hide Hierarchy, RuleAssign, RuleBlock, RuleCond, RuleLoop, RuleLet, RuleInts, RuleUnary, RuleDispatch, RuleStatic, RuleCase, RuleLeaf;
  }

  /** Completeness and soundness of the checker with respect to the rules. */
  lemma {:induction false} Decided(P: Program, sigs: Sigs, strict: bool, cls: ClassName, O: map<Name, Type>, e: Expr)
    requires Hierarchy(P) && cls in P.classes && AttrsOK(P, cls)
    ensures Agrees(P, sigs, strict, cls, O, e)
    decreases e, 1
  {
    hide Hierarchy, AttrsOK, Agrees;
    match e
    case IntConst(_) => DecidedLeaf(P, sigs, strict, cls, O, e);
    case BoolConst(_) => DecidedLeaf(P, sigs, strict, cls, O, e);
    case StrConst(_) => DecidedLeaf(P, sigs, strict, cls, O, e);
    case NoExpr(_) => DecidedLeaf(P, sigs, strict, cls, O, e);
    case Object(_) => DecidedLeaf(P, sigs, strict, cls, O, e);
    case Assign(_, _) => DecidedAssign(P, sigs, strict, cls, O, e);
    case Block(_) => DecidedBlock(P, sigs, strict, cls, O, e);
    case Cond(_, _, _) => DecidedCond(P, sigs, strict, cls, O, e);
    case Loop(_, _) => DecidedLoop(P, sigs, strict, cls, O, e);
    case Let(_, _, _, _) => DecidedLet(P, sigs, strict, cls, O, e);
    case Arith(_, _, _) => DecidedInts(P, sigs, strict, cls, O, e);
    case Compare(_, _, _) => DecidedInts(P, sigs, strict, cls, O, e);
    case Neg(_) => DecidedUnary(P, sigs, strict, cls, O, e);
    case Comp(_) => DecidedUnary(P, sigs, strict, cls, O, e);
    case Dispatch(_, _, _, _) => DecidedDispatch(P, sigs, strict, cls, O, e);
    case StaticDispatch(_, _, _, _) => DecidedStatic(P, sigs, strict, cls, O, e);
    case TypCase(_, _) => DecidedCase(P, sigs, strict, cls, O, e);
    case New(_) => DecidedLeaf(P, sigs, strict, cls, O, e);
    case NewSelf => DecidedLeaf(P, sigs, strict, cls, O, e);
  }

  lemma {:induction false} VerdictAssign(P: Program, sigs: Sigs, cls: ClassName, O: map<Name, Type>, e: Expr)
    requires Hierarchy(P) && cls in P.classes && e.Assign?
    ensures Analyze(P, sigs, cls, O, e) ==
      var t0, v := VarType(P, cls, O, e.x), Analyze(P, sigs, cls, O, e.e);
      if e.x == SELF || t0.NoType? then Verdict(NoType, true, false)
      else if Sub(P, cls, v.ty, t0) then v
      else Verdict(NoType, true, v.skipped)
  {
    hide Hierarchy, Sub, VarType, LubType, MethodSig, CallVerdict, AnalyzeAll, AnalyzeCases, AnalyzeInit, Exists;
  }

  lemma {:induction false} SoundAssign(P: Program, sigs: Sigs, strict: bool, cls: ClassName, O: map<Name, Type>, e: Expr, t: Type)
    requires Hierarchy(P) && cls in P.classes && AttrsOK(P, cls) && e.Assign?
    requires Agrees(P, sigs, strict, cls, O, e.e)
    requires RuleAssign(P, sigs, strict, cls, O, e, t)
    ensures Passes(Analyze(P, sigs, cls, O, e), strict) && Analyze(P, sigs, cls, O, e).ty == t
  {
    hide Hierarchy, AttrsOK, Agrees, Typed, Analyze, HasSome, ConformsTo, VarType, HasType, Conforms, Sub;
    VerdictAssign(P, sigs, cls, O, e);
    AgreesAll(P, sigs, strict, cls, O, e.e);
    Witness(P, sigs, strict, cls, O, e.e);
    VarTypeIs(P, cls, O, e.x);
    ConformsIs(P, cls);
    assert !VarType(P, cls, O, e.x).NoType? ==> HasType(P, cls, O, e.x, VarType(P, cls, O, e.x));
  }

  lemma {:induction false} CompleteAssign(P: Program, sigs: Sigs, strict: bool, cls: ClassName, O: map<Name, Type>, e: Expr)
    requires Hierarchy(P) && cls in P.classes && AttrsOK(P, cls) && e.Assign?
    requires Agrees(P, sigs, strict, cls, O, e.e)
    requires Passes(Analyze(P, sigs, cls, O, e), strict)
    ensures RuleAssign(P, sigs, strict, cls, O, e, Analyze(P, sigs, cls, O, e).ty)
  {
    hide Hierarchy, AttrsOK, Agrees, Typed, Analyze, HasSome, ConformsTo, VarType, HasType, Conforms, Sub;
    VerdictAssign(P, sigs, cls, O, e);
    AgreesAll(P, sigs, strict, cls, O, e.e);
    Witness(P, sigs, strict, cls, O, e.e);
    VarTypeIs(P, cls, O, e.x);
    ConformsIs(P, cls);
    assert !VarType(P, cls, O, e.x).NoType? ==> HasType(P, cls, O, e.x, VarType(P, cls, O, e.x));
  }

  lemma {:induction false} DecidedAssign(P: Program, sigs: Sigs, strict: bool, cls: ClassName, O: map<Name, Type>, e: Expr)
    requires Hierarchy(P) && cls in P.classes && AttrsOK(P, cls) && e.Assign?
    ensures Agrees(P, sigs, strict, cls, O, e)
    decreases e, 0
  {
    hide Hierarchy, AttrsOK, Typed, Analyze, HasSome, RuleAssign, RuleBlock, RuleCond, RuleLoop, RuleLet, RuleInts, RuleUnary, RuleDispatch, RuleStatic, RuleCase, RuleLeaf;
    Decided(P, sigs, strict, cls, O, e.e);
    forall t | Typed(P, sigs, strict, cls, O, e, t) ensures Passes(Analyze(P, sigs, cls, O, e), strict) && Analyze(P, sigs, cls, O, e).ty == t {
      RuleOf(P, sigs, strict, cls, O, e, t);
      SoundAssign(P, sigs, strict, cls, O, e, t);
    }
    if Passes(Analyze(P, sigs, cls, O, e), strict) {
      RuleOf(P, sigs, strict, cls, O, e, Analyze(P, sigs, cls, O, e).ty);
      CompleteAssign(P, sigs, strict, cls, O, e);
    }
  }

  lemma {:induction false} VerdictCond(P: Program, sigs: Sigs, cls: ClassName, O: map<Name, Type>, e: Expr)
    requires Hierarchy(P) && cls in P.classes && e.Cond?
    ensures Analyze(P, sigs, cls, O, e) ==
      var v, v1, v2 := Analyze(P, sigs, cls, O, e.pred), Analyze(P, sigs, cls, O, e.thn), Analyze(P, sigs, cls, O, e.els);
      var ty := LubType(P, cls, v1.ty, v2.ty);
      if v.ty != BOOL then Verdict(NoType, v.reported, true)
      else Verdict(ty, v.reported || v1.reported || v2.reported || ty.NoType?, v.skipped || v1.skipped || v2.skipped)
  {
    hide Hierarchy, Sub, VarType, LubType, MethodSig, CallVerdict, AnalyzeAll, AnalyzeCases, AnalyzeInit, Exists;
  }

  lemma {:induction false} SoundCond(P: Program, sigs: Sigs, strict: bool, cls: ClassName, O: map<Name, Type>, e: Expr, t: Type)
    requires Hierarchy(P) && cls in P.classes && AttrsOK(P, cls) && e.Cond?
    requires Agrees(P, sigs, strict, cls, O, e.pred) && Agrees(P, sigs, strict, cls, O, e.thn) && Agrees(P, sigs, strict, cls, O, e.els)
    requires RuleCond(P, sigs, strict, cls, O, e, t)
    ensures Passes(Analyze(P, sigs, cls, O, e), strict) && Analyze(P, sigs, cls, O, e).ty == t
  {
    hide Hierarchy, AttrsOK, Agrees, Typed, Analyze, HasSome, ConformsTo, LubType, IsJoin;
    VerdictCond(P, sigs, cls, O, e);
    AgreesAll(P, sigs, strict, cls, O, e.pred);
    Witness(P, sigs, strict, cls, O, e.pred);
    AgreesAll(P, sigs, strict, cls, O, e.thn);
    Witness(P, sigs, strict, cls, O, e.thn);
    AgreesAll(P, sigs, strict, cls, O, e.els);
    Witness(P, sigs, strict, cls, O, e.els);
    var t1, t2 := Analyze(P, sigs, cls, O, e.thn).ty, Analyze(P, sigs, cls, O, e.els).ty;
    JoinIs(P, cls, t1, t2);
    assert !LubType(P, cls, t1, t2).NoType? ==> IsJoin(P, cls, t1, t2, LubType(P, cls, t1, t2));
  }

  lemma {:induction false} CompleteCond(P: Program, sigs: Sigs, strict: bool, cls: ClassName, O: map<Name, Type>, e: Expr)
    requires Hierarchy(P) && cls in P.classes && AttrsOK(P, cls) && e.Cond?
    requires Agrees(P, sigs, strict, cls, O, e.pred) && Agrees(P, sigs, strict, cls, O, e.thn) && Agrees(P, sigs, strict, cls, O, e.els)
    requires Passes(Analyze(P, sigs, cls, O, e), strict)
    ensures RuleCond(P, sigs, strict, cls, O, e, Analyze(P, sigs, cls, O, e).ty)
  {
    hide Hierarchy, AttrsOK, Agrees, Typed, Analyze, HasSome, ConformsTo, LubType, IsJoin;
    VerdictCond(P, sigs, cls, O, e);
    AgreesAll(P, sigs, strict, cls, O, e.pred);
    Witness(P, sigs, strict, cls, O, e.pred);
    AgreesAll(P, sigs, strict, cls, O, e.thn);
    Witness(P, sigs, strict, cls, O, e.thn);
    AgreesAll(P, sigs, strict, cls, O, e.els);
    Witness(P, sigs, strict, cls, O, e.els);
    var t1, t2 := Analyze(P, sigs, cls, O, e.thn).ty, Analyze(P, sigs, cls, O, e.els).ty;
    JoinIs(P, cls, t1, t2);
    assert !LubType(P, cls, t1, t2).NoType? ==> IsJoin(P, cls, t1, t2, LubType(P, cls, t1, t2));
  }

  lemma {:induction false} DecidedCond(P: Program, sigs: Sigs, strict: bool, cls: ClassName, O: map<Name, Type>, e: Expr)
    requires Hierarchy(P) && cls in P.classes && AttrsOK(P, cls) && e.Cond?
    ensures Agrees(P, sigs, strict, cls, O, e)
    decreases e, 0
  {
    hide Hierarchy, AttrsOK, Typed, Analyze, HasSome, RuleAssign, RuleBlock, RuleCond, RuleLoop, RuleLet, RuleInts, RuleUnary, RuleDispatch, RuleStatic, RuleCase, RuleLeaf;
    Decided(P, sigs, strict, cls, O, e.pred);
    Decided(P, sigs, strict, cls, O, e.thn);
    Decided(P, sigs, strict, cls, O, e.els);
    forall t | Typed(P, sigs, strict, cls, O, e, t) ensures Passes(Analyze(P, sigs, cls, O, e), strict) && Analyze(P, sigs, cls, O, e).ty == t {
      RuleOf(P, sigs, strict, cls, O, e, t);
      SoundCond(P, sigs, strict, cls, O, e, t);
    }
    if Passes(Analyze(P, sigs, cls, O, e), strict) {
      RuleOf(P, sigs, strict, cls, O, e, Analyze(P, sigs, cls, O, e).ty);
      CompleteCond(P, sigs, strict, cls, O, e);
    }
  }

  lemma {:induction false} VerdictLoop(P: Program, sigs: Sigs, cls: ClassName, O: map<Name, Type>, e: Expr)
    requires Hierarchy(P) && cls in P.classes && e.Loop?
    ensures Analyze(P, sigs, cls, O, e) ==
      var v, v1 := Analyze(P, sigs, cls, O, e.pred), Analyze(P, sigs, cls, O, e.body);
      if v.ty != BOOL then Verdict(NoType, v.reported, true)
      else Verdict(Cls(ObjectC), v.reported || v1.reported, v.skipped || v1.skipped)
  {
    hide Hierarchy, Sub, VarType, LubType, MethodSig, CallVerdict, AnalyzeAll, AnalyzeCases, AnalyzeInit, Exists;
  }

  lemma {:induction false} SoundLoop(P: Program, sigs: Sigs, strict: bool, cls: ClassName, O: map<Name, Type>, e: Expr, t: Type)
    requires Hierarchy(P) && cls in P.classes && AttrsOK(P, cls) && e.Loop?
    requires Agrees(P, sigs, strict, cls, O, e.pred) && Agrees(P, sigs, strict, cls, O, e.body)
    requires RuleLoop(P, sigs, strict, cls, O, e, t)
    ensures Passes(Analyze(P, sigs, cls, O, e), strict) && Analyze(P, sigs, cls, O, e).ty == t
  {
    hide Hierarchy, AttrsOK, Agrees, Typed, Analyze, HasSome, ConformsTo;
    VerdictLoop(P, sigs, cls, O, e);
    AgreesAll(P, sigs, strict, cls, O, e.pred);
    Witness(P, sigs, strict, cls, O, e.pred);
    Witness(P, sigs, strict, cls, O, e.body);
  }

  lemma {:induction false} CompleteLoop(P: Program, sigs: Sigs, strict: bool, cls: ClassName, O: map<Name, Type>, e: Expr)
    requires Hierarchy(P) && cls in P.classes && AttrsOK(P, cls) && e.Loop?
    requires Agrees(P, sigs, strict, cls, O, e.pred) && Agrees(P, sigs, strict, cls, O, e.body)
    requires Passes(Analyze(P, sigs, cls, O, e), strict)
    ensures RuleLoop(P, sigs, strict, cls, O, e, Analyze(P, sigs, cls, O, e).ty)
  {
    hide Hierarchy, AttrsOK, Agrees, Typed, Analyze, HasSome, ConformsTo;
    VerdictLoop(P, sigs, cls, O, e);
    AgreesAll(P, sigs, strict, cls, O, e.pred);
    Witness(P, sigs, strict, cls, O, e.pred);
    Witness(P, sigs, strict, cls, O, e.body);
  }

  lemma {:induction false} DecidedLoop(P: Program, sigs: Sigs, strict: bool, cls: ClassName, O: map<Name, Type>, e: Expr)
    requires Hierarchy(P) && cls in P.classes && AttrsOK(P, cls) && e.Loop?
    ensures Agrees(P, sigs, strict, cls, O, e)
    decreases e, 0
  {
    hide Hierarchy, AttrsOK, Typed, Analyze, HasSome, RuleAssign, RuleBlock, RuleCond, RuleLoop, RuleLet, RuleInts, RuleUnary, RuleDispatch, RuleStatic, RuleCase, RuleLeaf;
    Decided(P, sigs, strict, cls, O, e.pred);
    Decided(P, sigs, strict, cls, O, e.body);
    forall t | Typed(P, sigs, strict, cls, O, e, t) ensures Passes(Analyze(P, sigs, cls, O, e), strict) && Analyze(P, sigs, cls, O, e).ty == t {
      RuleOf(P, sigs, strict, cls, O, e, t);
      SoundLoop(P, sigs, strict, cls, O, e, t);
    }
    if Passes(Analyze(P, sigs, cls, O, e), strict) {
      RuleOf(P, sigs, strict, cls, O, e, Analyze(P, sigs, cls, O, e).ty);
      CompleteLoop(P, sigs, strict, cls, O, e);
    }
  }

  lemma {:induction false} VerdictLet(P: Program, sigs: Sigs, cls: ClassName, O: map<Name, Type>, e: Expr)
    requires Hierarchy(P) && cls in P.classes && e.Let?
    ensures Analyze(P, sigs, cls, O, e) ==
      var v, v1 := AnalyzeInit(P, sigs, cls, O, e.ty, e.init), Analyze(P, sigs, cls, O[e.x := TypeOf(e.ty)], e.body);
      if e.x == SELF || !Exists(P, TypeOf(e.ty)) then Verdict(NoType, true, false)
      else if v.ty.NoType? then Verdict(NoType, true, v.skipped)
      else Verdict(v1.ty, v.reported || v1.reported, v.skipped || v1.skipped)
  {
    hide Hierarchy, Sub, VarType, LubType, MethodSig, CallVerdict, AnalyzeAll, AnalyzeCases, AnalyzeInit, Exists;
  }

  lemma {:induction false} SoundLet(P: Program, sigs: Sigs, strict: bool, cls: ClassName, O: map<Name, Type>, e: Expr, t: Type)
    requires Hierarchy(P) && cls in P.classes && AttrsOK(P, cls) && e.Let?
    requires InitAgrees(P, sigs, strict, cls, O, e.ty, e.init) && Agrees(P, sigs, strict, cls, O[e.x := TypeOf(e.ty)], e.body)
    requires RuleLet(P, sigs, strict, cls, O, e, t)
    ensures Passes(Analyze(P, sigs, cls, O, e), strict) && Analyze(P, sigs, cls, O, e).ty == t
  {
    hide Hierarchy, AttrsOK, Agrees, Typed, Analyze, HasSome, ConformsTo, AnalyzeInit, Initialises, Exists;
    VerdictLet(P, sigs, cls, O, e);
    ConformsIs(P, cls);
    AgreesAll(P, sigs, strict, cls, O[e.x := TypeOf(e.ty)], e.body);
    Witness(P, sigs, strict, cls, O[e.x := TypeOf(e.ty)], e.body);
  }

  lemma {:induction false} CompleteLet(P: Program, sigs: Sigs, strict: bool, cls: ClassName, O: map<Name, Type>, e: Expr)
    requires Hierarchy(P) && cls in P.classes && AttrsOK(P, cls) && e.Let?
    requires InitAgrees(P, sigs, strict, cls, O, e.ty, e.init) && Agrees(P, sigs, strict, cls, O[e.x := TypeOf(e.ty)], e.body)
    requires Passes(Analyze(P, sigs, cls, O, e), strict)
    ensures RuleLet(P, sigs, strict, cls, O, e, Analyze(P, sigs, cls, O, e).ty)
  {
    hide Hierarchy, AttrsOK, Agrees, Typed, Analyze, HasSome, ConformsTo, AnalyzeInit, Initialises, Exists;
    VerdictLet(P, sigs, cls, O, e);
    ConformsIs(P, cls);
    AgreesAll(P, sigs, strict, cls, O[e.x := TypeOf(e.ty)], e.body);
    Witness(P, sigs, strict, cls, O[e.x := TypeOf(e.ty)], e.body);
  }

  lemma {:induction false} DecidedLet(P: Program, sigs: Sigs, strict: bool, cls: ClassName, O: map<Name, Type>, e: Expr)
    requires Hierarchy(P) && cls in P.classes && AttrsOK(P, cls) && e.Let?
    ensures Agrees(P, sigs, strict, cls, O, e)
    decreases e, 0
  {
    hide Hierarchy, AttrsOK, Typed, Analyze, HasSome, RuleAssign, RuleBlock, RuleCond, RuleLoop, RuleLet, RuleInts, RuleUnary, RuleDispatch, RuleStatic, RuleCase, RuleLeaf;
    DecidedInit(P, sigs, strict, cls, O, e.ty, e.init);
    Decided(P, sigs, strict, cls, O[e.x := TypeOf(e.ty)], e.body);
    forall t | Typed(P, sigs, strict, cls, O, e, t) ensures Passes(Analyze(P, sigs, cls, O, e), strict) && Analyze(P, sigs, cls, O, e).ty == t {
      RuleOf(P, sigs, strict, cls, O, e, t);
      SoundLet(P, sigs, strict, cls, O, e, t);
    }
    if Passes(Analyze(P, sigs, cls, O, e), strict) {
      RuleOf(P, sigs, strict, cls, O, e, Analyze(P, sigs, cls, O, e).ty);
      CompleteLet(P, sigs, strict, cls, O, e);
    }
  }

  lemma {:induction false} VerdictInts(P: Program, sigs: Sigs, cls: ClassName, O: map<Name, Type>, e: Expr)
    requires Hierarchy(P) && cls in P.classes && (e.Arith? || e.Compare?)
    ensures Analyze(P, sigs, cls, O, e) ==
      BothInts(if e.Arith? then INT else BOOL, Analyze(P, sigs, cls, O, e.e1), Analyze(P, sigs, cls, O, e.e2))
  {
    hide Hierarchy, Sub, VarType, LubType, MethodSig, CallVerdict, AnalyzeAll, AnalyzeCases, AnalyzeInit, Exists;
  }

  lemma {:induction false} SoundInts(P: Program, sigs: Sigs, strict: bool, cls: ClassName, O: map<Name, Type>, e: Expr, t: Type)
    requires Hierarchy(P) && cls in P.classes && AttrsOK(P, cls) && (e.Arith? || e.Compare?)
    requires Agrees(P, sigs, strict, cls, O, e.e1) && Agrees(P, sigs, strict, cls, O, e.e2)
    requires RuleInts(P, sigs, strict, cls, O, e, t)
    ensures Passes(Analyze(P, sigs, cls, O, e), strict) && Analyze(P, sigs, cls, O, e).ty == t
  {
    hide Hierarchy, AttrsOK, Agrees, Typed, Analyze, HasSome, ConformsTo;
    VerdictInts(P, sigs, cls, O, e);
    AgreesAll(P, sigs, strict, cls, O, e.e1);
    Witness(P, sigs, strict, cls, O, e.e1);
    AgreesAll(P, sigs, strict, cls, O, e.e2);
    Witness(P, sigs, strict, cls, O, e.e2);
  }

  lemma {:induction false} CompleteInts(P: Program, sigs: Sigs, strict: bool, cls: ClassName, O: map<Name, Type>, e: Expr)
    requires Hierarchy(P) && cls in P.classes && AttrsOK(P, cls) && (e.Arith? || e.Compare?)
    requires Agrees(P, sigs, strict, cls, O, e.e1) && Agrees(P, sigs, strict, cls, O, e.e2)
    requires Passes(Analyze(P, sigs, cls, O, e), strict)
    ensures RuleInts(P, sigs, strict, cls, O, e, Analyze(P, sigs, cls, O, e).ty)
  {
    hide Hierarchy, AttrsOK, Agrees, Typed, Analyze, HasSome, ConformsTo;
    VerdictInts(P, sigs, cls, O, e);
    AgreesAll(P, sigs, strict, cls, O, e.e1);
    Witness(P, sigs, strict, cls, O, e.e1);
    AgreesAll(P, sigs, strict, cls, O, e.e2);
    Witness(P, sigs, strict, cls, O, e.e2);
  }

  lemma {:induction false} DecidedInts(P: Program, sigs: Sigs, strict: bool, cls: ClassName, O: map<Name, Type>, e: Expr)
    requires Hierarchy(P) && cls in P.classes && AttrsOK(P, cls) && (e.Arith? || e.Compare?)
    ensures Agrees(P, sigs, strict, cls, O, e)
    decreases e, 0
  {
    hide Hierarchy, AttrsOK, Typed, Analyze, HasSome, RuleAssign, RuleBlock, RuleCond, RuleLoop, RuleLet, RuleInts, RuleUnary, RuleDispatch, RuleStatic, RuleCase, RuleLeaf;
    Decided(P, sigs, strict, cls, O, e.e1);
    Decided(P, sigs, strict, cls, O, e.e2);
    forall t | Typed(P, sigs, strict, cls, O, e, t) ensures Passes(Analyze(P, sigs, cls, O, e), strict) && Analyze(P, sigs, cls, O, e).ty == t {
      RuleOf(P, sigs, strict, cls, O, e, t);
      SoundInts(P, sigs, strict, cls, O, e, t);
    }
    if Passes(Analyze(P, sigs, cls, O, e), strict) {
      RuleOf(P, sigs, strict, cls, O, e, Analyze(P, sigs, cls, O, e).ty);
      CompleteInts(P, sigs, strict, cls, O, e);
    }
  }

  lemma {:induction false} VerdictUnary(P: Program, sigs: Sigs, cls: ClassName, O: map<Name, Type>, e: Expr)
    requires Hierarchy(P) && cls in P.classes && (e.Neg? || e.Comp?)
    ensures Analyze(P, sigs, cls, O, e) ==
      var v := Analyze(P, sigs, cls, O, e.e);
      if e.Neg? then if v.ty != INT then Verdict(NoType, true, v.skipped) else v
      else if v.ty != BOOL then Verdict(NoType, v.reported, true) else v
  {
    hide Hierarchy, Sub, VarType, LubType, MethodSig, CallVerdict, AnalyzeAll, AnalyzeCases, AnalyzeInit, Exists;
  }

  lemma {:induction false} SoundUnary(P: Program, sigs: Sigs, strict: bool, cls: ClassName, O: map<Name, Type>, e: Expr, t: Type)
    requires Hierarchy(P) && cls in P.classes && AttrsOK(P, cls) && (e.Neg? || e.Comp?)
    requires Agrees(P, sigs, strict, cls, O, e.e)
    requires RuleUnary(P, sigs, strict, cls, O, e, t)
    ensures Passes(Analyze(P, sigs, cls, O, e), strict) && Analyze(P, sigs, cls, O, e).ty == t
  {
    hide Hierarchy, AttrsOK, Agrees, Typed, Analyze, HasSome, ConformsTo;
    VerdictUnary(P, sigs, cls, O, e);
    AgreesAll(P, sigs, strict, cls, O, e.e);
    Witness(P, sigs, strict, cls, O, e.e);
  }

  lemma {:induction false} CompleteUnary(P: Program, sigs: Sigs, strict: bool, cls: ClassName, O: map<Name, Type>, e: Expr)
    requires Hierarchy(P) && cls in P.classes && AttrsOK(P, cls) && (e.Neg? || e.Comp?)
    requires Agrees(P, sigs, strict, cls, O, e.e)
    requires Passes(Analyze(P, sigs, cls, O, e), strict)
    ensures RuleUnary(P, sigs, strict, cls, O, e, Analyze(P, sigs, cls, O, e).ty)
  {
    hide Hierarchy, AttrsOK, Agrees, Typed, Analyze, HasSome, ConformsTo;
    VerdictUnary(P, sigs, cls, O, e);
    AgreesAll(P, sigs, strict, cls, O, e.e);
    Witness(P, sigs, strict, cls, O, e.e);
  }

  lemma {:induction false} DecidedUnary(P: Program, sigs: Sigs, strict: bool, cls: ClassName, O: map<Name, Type>, e: Expr)
    requires Hierarchy(P) && cls in P.classes && AttrsOK(P, cls) && (e.Neg? || e.Comp?)
    ensures Agrees(P, sigs, strict, cls, O, e)
    decreases e, 0
  {
    hide Hierarchy, AttrsOK, Typed, Analyze, HasSome, RuleAssign, RuleBlock, RuleCond, RuleLoop, RuleLet, RuleInts, RuleUnary, RuleDispatch, RuleStatic, RuleCase, RuleLeaf;
    Decided(P, sigs, strict, cls, O, e.e);
    forall t | Typed(P, sigs, strict, cls, O, e, t) ensures Passes(Analyze(P, sigs, cls, O, e), strict) && Analyze(P, sigs, cls, O, e).ty == t {
      RuleOf(P, sigs, strict, cls, O, e, t);
      SoundUnary(P, sigs, strict, cls, O, e, t);
    }
    if Passes(Analyze(P, sigs, cls, O, e), strict) {
      RuleOf(P, sigs, strict, cls, O, e, Analyze(P, sigs, cls, O, e).ty);
      CompleteUnary(P, sigs, strict, cls, O, e);
    }
  }

  lemma {:induction false} VerdictBlock(P: Program, sigs: Sigs, cls: ClassName, O: map<Name, Type>, e: Expr)
    requires Hierarchy(P) && cls in P.classes && e.Block?
    ensures Analyze(P, sigs, cls, O, e) ==
      var vs := AnalyzeAll(P, sigs, cls, O, e.es);
      if e.es == [] then Verdict(NoType, false, true) else Verdict(vs.tys[|e.es| - 1], vs.reported, vs.skipped)
  {
    hide Hierarchy, Sub, VarType, LubType, MethodSig, CallVerdict, AnalyzeAll, AnalyzeCases, AnalyzeInit, Exists;
  }

  lemma {:induction false} SoundBlock(P: Program, sigs: Sigs, strict: bool, cls: ClassName, O: map<Name, Type>, e: Expr, t: Type)
    requires Hierarchy(P) && cls in P.classes && AttrsOK(P, cls) && e.Block?
    requires AllAgree(P, sigs, strict, cls, O, e.es)
    requires RuleBlock(P, sigs, strict, cls, O, e, t)
    ensures Passes(Analyze(P, sigs, cls, O, e), strict) && Analyze(P, sigs, cls, O, e).ty == t
  {
    hide Hierarchy, AttrsOK, Agrees, Typed, Analyze, HasSome, ConformsTo, AnalyzeAll;
    VerdictBlock(P, sigs, cls, O, e);
    forall i | 0 <= i < |e.es|
      ensures HasSome(P, sigs, strict, cls, O, e.es[i]) <==> Passes(Analyze(P, sigs, cls, O, e.es[i]), strict)
    {
      Witness(P, sigs, strict, cls, O, e.es[i]);
    }
    if e.es != [] {
      AgreesAll(P, sigs, strict, cls, O, e.es[|e.es| - 1]);
      Witness(P, sigs, strict, cls, O, e.es[|e.es| - 1]);
    }
  }

  lemma {:induction false} CompleteBlock(P: Program, sigs: Sigs, strict: bool, cls: ClassName, O: map<Name, Type>, e: Expr)
    requires Hierarchy(P) && cls in P.classes && AttrsOK(P, cls) && e.Block?
    requires AllAgree(P, sigs, strict, cls, O, e.es)
    requires Passes(Analyze(P, sigs, cls, O, e), strict)
    ensures RuleBlock(P, sigs, strict, cls, O, e, Analyze(P, sigs, cls, O, e).ty)
  {
    hide Hierarchy, AttrsOK, Agrees, Typed, Analyze, HasSome, ConformsTo, AnalyzeAll;
    VerdictBlock(P, sigs, cls, O, e);
    forall i | 0 <= i < |e.es|
      ensures HasSome(P, sigs, strict, cls, O, e.es[i]) <==> Passes(Analyze(P, sigs, cls, O, e.es[i]), strict)
    {
      Witness(P, sigs, strict, cls, O, e.es[i]);
    }
    if e.es != [] {
      AgreesAll(P, sigs, strict, cls, O, e.es[|e.es| - 1]);
      Witness(P, sigs, strict, cls, O, e.es[|e.es| - 1]);
    }
  }

  lemma {:induction false} DecidedBlock(P: Program, sigs: Sigs, strict: bool, cls: ClassName, O: map<Name, Type>, e: Expr)
    requires Hierarchy(P) && cls in P.classes && AttrsOK(P, cls) && e.Block?
    ensures Agrees(P, sigs, strict, cls, O, e)
    decreases e, 0
  {
    hide Hierarchy, AttrsOK, Typed, Analyze, HasSome, RuleAssign, RuleBlock, RuleCond, RuleLoop, RuleLet, RuleInts, RuleUnary, RuleDispatch, RuleStatic, RuleCase, RuleLeaf;
    DecidedAll(P, sigs, strict, cls, O, e.es);
    forall t | Typed(P, sigs, strict, cls, O, e, t) ensures Passes(Analyze(P, sigs, cls, O, e), strict) && Analyze(P, sigs, cls, O, e).ty == t {
      RuleOf(P, sigs, strict, cls, O, e, t);
      SoundBlock(P, sigs, strict, cls, O, e, t);
    }
    if Passes(Analyze(P, sigs, cls, O, e), strict) {
      RuleOf(P, sigs, strict, cls, O, e, Analyze(P, sigs, cls, O, e).ty);
      CompleteBlock(P, sigs, strict, cls, O, e);
    }
  }

  lemma {:induction false} VerdictDispatch(P: Program, sigs: Sigs, cls: ClassName, O: map<Name, Type>, e: Expr)
    requires Hierarchy(P) && cls in P.classes && e.Dispatch?
    ensures Analyze(P, sigs, cls, O, e) ==
      var v, vs := Analyze(P, sigs, cls, O, e.e), AnalyzeAll(P, sigs, cls, O, e.args);
      if !Exists(P, v.ty) then Verdict(NoType, v.reported, true)
      else
        var r := CallVerdict(P, cls, MethodSig(P, sigs, Resolve(v.ty, cls), e.m), v, vs);
        r.(skipped := r.skipped || TypeOf(e.sty) != v.ty)
  {
    hide Hierarchy, Sub, VarType, LubType, MethodSig, CallVerdict, AnalyzeAll, AnalyzeCases, AnalyzeInit, Exists;
  }

  lemma {:induction false} SoundDispatch(P: Program, sigs: Sigs, strict: bool, cls: ClassName, O: map<Name, Type>, e: Expr, t: Type)
    requires Hierarchy(P) && cls in P.classes && AttrsOK(P, cls) && e.Dispatch?
    requires Agrees(P, sigs, strict, cls, O, e.e) && AllAgree(P, sigs, strict, cls, O, e.args)
    requires RuleDispatch(P, sigs, strict, cls, O, e, t)
    ensures Passes(Analyze(P, sigs, cls, O, e), strict) && Analyze(P, sigs, cls, O, e).ty == t
  {
    hide Hierarchy, AttrsOK, Agrees, Typed, Analyze, HasSome, ConformsTo, AllAgree, AnalyzeAll, MethodSig, Calls, CallVerdict;
    VerdictDispatch(P, sigs, cls, O, e);
    AgreesAll(P, sigs, strict, cls, O, e.e);
    Witness(P, sigs, strict, cls, O, e.e);
    var v := Analyze(P, sigs, cls, O, e.e);
    ConformsIs(P, cls);
    if Exists(P, v.ty) {
      CallDecided(P, sigs, strict, cls, O, e.args, Resolve(v.ty, cls), e.m, v);
    }
  }

  lemma {:induction false} CompleteDispatch(P: Program, sigs: Sigs, strict: bool, cls: ClassName, O: map<Name, Type>, e: Expr)
    requires Hierarchy(P) && cls in P.classes && AttrsOK(P, cls) && e.Dispatch?
    requires Agrees(P, sigs, strict, cls, O, e.e) && AllAgree(P, sigs, strict, cls, O, e.args)
    requires Passes(Analyze(P, sigs, cls, O, e), strict)
    ensures RuleDispatch(P, sigs, strict, cls, O, e, Analyze(P, sigs, cls, O, e).ty)
  {
    hide Hierarchy, AttrsOK, Agrees, Typed, Analyze, HasSome, ConformsTo, AllAgree, AnalyzeAll, MethodSig, Calls, CallVerdict;
    VerdictDispatch(P, sigs, cls, O, e);
    AgreesAll(P, sigs, strict, cls, O, e.e);
    Witness(P, sigs, strict, cls, O, e.e);
    var v := Analyze(P, sigs, cls, O, e.e);
    ConformsIs(P, cls);
    if Exists(P, v.ty) {
      CallDecided(P, sigs, strict, cls, O, e.args, Resolve(v.ty, cls), e.m, v);
    }
  }

  lemma {:induction false} DecidedDispatch(P: Program, sigs: Sigs, strict: bool, cls: ClassName, O: map<Name, Type>, e: Expr)
    requires Hierarchy(P) && cls in P.classes && AttrsOK(P, cls) && e.Dispatch?
    ensures Agrees(P, sigs, strict, cls, O, e)
    decreases e, 0
  {
    hide Hierarchy, AttrsOK, Typed, Analyze, HasSome, RuleAssign, RuleBlock, RuleCond, RuleLoop, RuleLet, RuleInts, RuleUnary, RuleDispatch, RuleStatic, RuleCase, RuleLeaf;
    Decided(P, sigs, strict, cls, O, e.e);
    DecidedAll(P, sigs, strict, cls, O, e.args);
    forall t | Typed(P, sigs, strict, cls, O, e, t) ensures Passes(Analyze(P, sigs, cls, O, e), strict) && Analyze(P, sigs, cls, O, e).ty == t {
      RuleOf(P, sigs, strict, cls, O, e, t);
      SoundDispatch(P, sigs, strict, cls, O, e, t);
    }
    if Passes(Analyze(P, sigs, cls, O, e), strict) {
      RuleOf(P, sigs, strict, cls, O, e, Analyze(P, sigs, cls, O, e).ty);
      CompleteDispatch(P, sigs, strict, cls, O, e);
    }
  }

  lemma {:induction false} VerdictStatic(P: Program, sigs: Sigs, cls: ClassName, O: map<Name, Type>, e: Expr)
    requires Hierarchy(P) && cls in P.classes && e.StaticDispatch?
    ensures Analyze(P, sigs, cls, O, e) ==
      var v, vs := Analyze(P, sigs, cls, O, e.e), AnalyzeAll(P, sigs, cls, O, e.args);
      if e.c !in P.classes || !Sub(P, cls, v.ty, Cls(e.c)) then Verdict(NoType, true, v.skipped)
      else CallVerdict(P, cls, MethodSig(P, sigs, e.c, e.m), v, vs)
  {
    hide Hierarchy, Sub, VarType, LubType, MethodSig, CallVerdict, AnalyzeAll, AnalyzeCases, AnalyzeInit, Exists;
  }

  lemma {:induction false} SoundStatic(P: Program, sigs: Sigs, strict: bool, cls: ClassName, O: map<Name, Type>, e: Expr, t: Type)
    requires Hierarchy(P) && cls in P.classes && AttrsOK(P, cls) && e.StaticDispatch?
    requires Agrees(P, sigs, strict, cls, O, e.e) && AllAgree(P, sigs, strict, cls, O, e.args)
    requires RuleStatic(P, sigs, strict, cls, O, e, t)
    ensures Passes(Analyze(P, sigs, cls, O, e), strict) && Analyze(P, sigs, cls, O, e).ty == t
  {
    hide Hierarchy, AttrsOK, Agrees, Typed, Analyze, HasSome, ConformsTo, AllAgree, AnalyzeAll, MethodSig, Calls, CallVerdict, Conforms, Sub;
    VerdictStatic(P, sigs, cls, O, e);
    AgreesAll(P, sigs, strict, cls, O, e.e);
    Witness(P, sigs, strict, cls, O, e.e);
    var v := Analyze(P, sigs, cls, O, e.e);
    ConformsIs(P, cls);
    if e.c in P.classes {
      CallDecided(P, sigs, strict, cls, O, e.args, e.c, e.m, v);
    }
  }

  lemma {:induction false} CompleteStatic(P: Program, sigs: Sigs, strict: bool, cls: ClassName, O: map<Name, Type>, e: Expr)
    requires Hierarchy(P) && cls in P.classes && AttrsOK(P, cls) && e.StaticDispatch?
    requires Agrees(P, sigs, strict, cls, O, e.e) && AllAgree(P, sigs, strict, cls, O, e.args)
    requires Passes(Analyze(P, sigs, cls, O, e), strict)
    ensures RuleStatic(P, sigs, strict, cls, O, e, Analyze(P, sigs, cls, O, e).ty)
  {
    hide Hierarchy, AttrsOK, Agrees, Typed, Analyze, HasSome, ConformsTo, AllAgree, AnalyzeAll, MethodSig, Calls, CallVerdict, Conforms, Sub;
    VerdictStatic(P, sigs, cls, O, e);
    AgreesAll(P, sigs, strict, cls, O, e.e);
    Witness(P, sigs, strict, cls, O, e.e);
    var v := Analyze(P, sigs, cls, O, e.e);
    ConformsIs(P, cls);
    if e.c in P.classes {
      CallDecided(P, sigs, strict, cls, O, e.args, e.c, e.m, v);
    }
  }

  lemma {:induction false} DecidedStatic(P: Program, sigs: Sigs, strict: bool, cls: ClassName, O: map<Name, Type>, e: Expr)
    requires Hierarchy(P) && cls in P.classes && AttrsOK(P, cls) && e.StaticDispatch?
    ensures Agrees(P, sigs, strict, cls, O, e)
    decreases e, 0
  {
    hide Hierarchy, AttrsOK, Typed, Analyze, HasSome, RuleAssign, RuleBlock, RuleCond, RuleLoop, RuleLet, RuleInts, RuleUnary, RuleDispatch, RuleStatic, RuleCase, RuleLeaf;
    Decided(P, sigs, strict, cls, O, e.e);
    DecidedAll(P, sigs, strict, cls, O, e.args);
    forall t | Typed(P, sigs, strict, cls, O, e, t) ensures Passes(Analyze(P, sigs, cls, O, e), strict) && Analyze(P, sigs, cls, O, e).ty == t {
      RuleOf(P, sigs, strict, cls, O, e, t);
      SoundStatic(P, sigs, strict, cls, O, e, t);
    }
    if Passes(Analyze(P, sigs, cls, O, e), strict) {
      RuleOf(P, sigs, strict, cls, O, e, Analyze(P, sigs, cls, O, e).ty);
      CompleteStatic(P, sigs, strict, cls, O, e);
    }
  }

  lemma {:induction false} VerdictCase(P: Program, sigs: Sigs, cls: ClassName, O: map<Name, Type>, e: Expr)
    requires Hierarchy(P) && cls in P.classes && e.TypCase?
    ensures Analyze(P, sigs, cls, O, e) ==
      var v, vs := Analyze(P, sigs, cls, O, e.e), AnalyzeCases(P, sigs, cls, O, e.cases);
      Verdict(vs.ty, v.reported || vs.reported || !Distinct(CaseTypes(e.cases)), v.skipped || vs.skipped || e.cases == [])
  {
    hide Hierarchy, Sub, VarType, LubType, MethodSig, CallVerdict, AnalyzeAll, AnalyzeCases, AnalyzeInit, Exists;
  }

  lemma {:induction false} SoundCase(P: Program, sigs: Sigs, strict: bool, cls: ClassName, O: map<Name, Type>, e: Expr, t: Type)
    requires Hierarchy(P) && cls in P.classes && AttrsOK(P, cls) && e.TypCase?
    requires Agrees(P, sigs, strict, cls, O, e.e) && (e.cases != [] ==> BranchesAgree(P, sigs, strict, cls, O, e.cases))
    requires RuleCase(P, sigs, strict, cls, O, e, t)
    ensures Passes(Analyze(P, sigs, cls, O, e), strict) && Analyze(P, sigs, cls, O, e).ty == t
  {
    hide Hierarchy, AttrsOK, Agrees, Typed, Analyze, HasSome, ConformsTo, AnalyzeCases, Branches, Distinct, CaseTypes;
    VerdictCase(P, sigs, cls, O, e);
    Witness(P, sigs, strict, cls, O, e.e);
    NoBranches(P, sigs, cls, O);
    DistinctIs(e.cases);
  }

  lemma {:induction false} CompleteCase(P: Program, sigs: Sigs, strict: bool, cls: ClassName, O: map<Name, Type>, e: Expr)
    requires Hierarchy(P) && cls in P.classes && AttrsOK(P, cls) && e.TypCase?
    requires Agrees(P, sigs, strict, cls, O, e.e) && (e.cases != [] ==> BranchesAgree(P, sigs, strict, cls, O, e.cases))
    requires Passes(Analyze(P, sigs, cls, O, e), strict)
    ensures RuleCase(P, sigs, strict, cls, O, e, Analyze(P, sigs, cls, O, e).ty)
  {
    hide Hierarchy, AttrsOK, Agrees, Typed, Analyze, HasSome, ConformsTo, AnalyzeCases, Branches, Distinct, CaseTypes;
    VerdictCase(P, sigs, cls, O, e);
    Witness(P, sigs, strict, cls, O, e.e);
    NoBranches(P, sigs, cls, O);
    DistinctIs(e.cases);
  }

  lemma {:induction false} DecidedCase(P: Program, sigs: Sigs, strict: bool, cls: ClassName, O: map<Name, Type>, e: Expr)
    requires Hierarchy(P) && cls in P.classes && AttrsOK(P, cls) && e.TypCase?
    ensures Agrees(P, sigs, strict, cls, O, e)
    decreases e, 0
  {
    hide Hierarchy, AttrsOK, Typed, Analyze, HasSome, RuleAssign, RuleBlock, RuleCond, RuleLoop, RuleLet, RuleInts, RuleUnary, RuleDispatch, RuleStatic, RuleCase, RuleLeaf;
    Decided(P, sigs, strict, cls, O, e.e);
    if e.cases != [] {
      DecidedBranches(P, sigs, strict, cls, O, e.cases);
    }
    forall t | Typed(P, sigs, strict, cls, O, e, t) ensures Passes(Analyze(P, sigs, cls, O, e), strict) && Analyze(P, sigs, cls, O, e).ty == t {
      RuleOf(P, sigs, strict, cls, O, e, t);
      SoundCase(P, sigs, strict, cls, O, e, t);
    }
    if Passes(Analyze(P, sigs, cls, O, e), strict) {
      RuleOf(P, sigs, strict, cls, O, e, Analyze(P, sigs, cls, O, e).ty);
      CompleteCase(P, sigs, strict, cls, O, e);
    }
  }

  lemma {:induction false} SoundLeaf(P: Program, sigs: Sigs, strict: bool, cls: ClassName, O: map<Name, Type>, e: Expr, t: Type)
    requires Hierarchy(P) && cls in P.classes && AttrsOK(P, cls) && (e.IntConst? || e.BoolConst? || e.StrConst? || e.NoExpr? || e.Object? || e.New? || e.NewSelf?)
    requires RuleLeaf(P, sigs, strict, cls, O, e, t)
    ensures Passes(Analyze(P, sigs, cls, O, e), strict) && Analyze(P, sigs, cls, O, e).ty == t
  {
    hide Hierarchy, AttrsOK, Agrees, Typed, HasSome, ConformsTo, VarType, HasType;
    if e.Object? {
      VarTypeIs(P, cls, O, e.x);
      assert !VarType(P, cls, O, e.x).NoType? ==> HasType(P, cls, O, e.x, VarType(P, cls, O, e.x));
    }
  }

  lemma {:induction false} CompleteLeaf(P: Program, sigs: Sigs, strict: bool, cls: ClassName, O: map<Name, Type>, e: Expr)
    requires Hierarchy(P) && cls in P.classes && AttrsOK(P, cls) && (e.IntConst? || e.BoolConst? || e.StrConst? || e.NoExpr? || e.Object? || e.New? || e.NewSelf?)
    requires Passes(Analyze(P, sigs, cls, O, e), strict)
    ensures RuleLeaf(P, sigs, strict, cls, O, e, Analyze(P, sigs, cls, O, e).ty)
  {
    hide Hierarchy, AttrsOK, Agrees, Typed, HasSome, ConformsTo, VarType, HasType;
    if e.Object? {
      VarTypeIs(P, cls, O, e.x);
      assert !VarType(P, cls, O, e.x).NoType? ==> HasType(P, cls, O, e.x, VarType(P, cls, O, e.x));
    }
  }

  lemma {:induction false} DecidedLeaf(P: Program, sigs: Sigs, strict: bool, cls: ClassName, O: map<Name, Type>, e: Expr)
    requires Hierarchy(P) && cls in P.classes && AttrsOK(P, cls) && (e.IntConst? || e.BoolConst? || e.StrConst? || e.NoExpr? || e.Object? || e.New? || e.NewSelf?)
    ensures Agrees(P, sigs, strict, cls, O, e)
    decreases e, 0
  {
    hide Hierarchy, AttrsOK, Typed, Analyze, HasSome, RuleAssign, RuleBlock, RuleCond, RuleLoop, RuleLet, RuleInts, RuleUnary, RuleDispatch, RuleStatic, RuleCase, RuleLeaf;
    forall t | Typed(P, sigs, strict, cls, O, e, t) ensures Passes(Analyze(P, sigs, cls, O, e), strict) && Analyze(P, sigs, cls, O, e).ty == t {
      RuleOf(P, sigs, strict, cls, O, e, t);
      SoundLeaf(P, sigs, strict, cls, O, e, t);
    }
    if Passes(Analyze(P, sigs, cls, O, e), strict) {
      RuleOf(P, sigs, strict, cls, O, e, Analyze(P, sigs, cls, O, e).ty);
      CompleteLeaf(P, sigs, strict, cls, O, e);
    }
  }

  /** The verdict on the initialiser is what the rules say. */
  ghost predicate InitAgrees(P: Program, sigs: Sigs, strict: bool, cls: ClassName, O: map<Name, Type>, ty: StaticType, init: Expr)
    requires Hierarchy(P) && cls in P.classes
  {
    var v := AnalyzeInit(P, sigs, cls, O, ty, init);
    Known(P, TypeOf(ty)) ==>
      && (Initialises(P, sigs, strict, cls, O, ty, init) ==> Passes(v, strict)) && (Passes(v, strict) ==> Initialises(P, sigs, strict, cls, O, ty, init))
      && (!v.reported ==> v.ty == TypeOf(ty))
  }

  ghost predicate AllAgree(P: Program, sigs: Sigs, strict: bool, cls: ClassName, O: map<Name, Type>, es: seq<Expr>)
    requires Hierarchy(P) && cls in P.classes
  {
    var vs := AnalyzeAll(P, sigs, cls, O, es);
    && (forall i :: 0 <= i < |es| ==> Agrees(P, sigs, strict, cls, O, es[i]) && vs.tys[i] == Analyze(P, sigs, cls, O, es[i]).ty)
    && (Passes(Verdict(NoType, vs.reported, vs.skipped), strict) <==> forall i :: 0 <= i < |es| ==> Passes(Analyze(P, sigs, cls, O, es[i]), strict))
  }

  ghost predicate BranchesAgree(P: Program, sigs: Sigs, strict: bool, cls: ClassName, O: map<Name, Type>, cases: seq<Branch>)
    requires Hierarchy(P) && cls in P.classes && cases != []
  {
    var v := AnalyzeCases(P, sigs, cls, O, cases);
    forall t {:trigger Branches(P, sigs, strict, cls, O, cases, t)} :: Branches(P, sigs, strict, cls, O, cases, t) <==> Passes(v, strict) && v.ty == t
  }

  lemma {:induction false} AgreesAll(P: Program, sigs: Sigs, strict: bool, cls: ClassName, O: map<Name, Type>, e: Expr)
    requires Hierarchy(P) && cls in P.classes && Agrees(P, sigs, strict, cls, O, e)
    ensures forall t {:trigger Typed(P, sigs, strict, cls, O, e, t)} ::
      Typed(P, sigs, strict, cls, O, e, t) ==> Passes(Analyze(P, sigs, cls, O, e), strict) && Analyze(P, sigs, cls, O, e).ty == t
  {
    hide *;
    forall t | Typed(P, sigs, strict, cls, O, e, t) ensures Passes(Analyze(P, sigs, cls, O, e), strict) && Analyze(P, sigs, cls, O, e).ty == t {
      AgreesAt(P, sigs, strict, cls, O, e, t);
    }
  }

  lemma {:induction false} NoBranches(P: Program, sigs: Sigs, cls: ClassName, O: map<Name, Type>)
    requires Hierarchy(P) && cls in P.classes
    ensures AnalyzeCases(P, sigs, cls, O, []) == Verdict(NoType, false, false)
  {
  }

  /** A call whose receiver has a type: there is a declaration that fits exactly when the verdict on the call passes. */
  lemma {:induction false} CallDecided(P: Program, sigs: Sigs, strict: bool, cls: ClassName, O: map<Name, Type>, args: seq<Expr>, c: ClassName, m: Name, v: Verdict)
    requires Hierarchy(P) && cls in P.classes && AttrsOK(P, cls) && c in P.classes && AllAgree(P, sigs, strict, cls, O, args)
    ensures var r := CallVerdict(P, cls, MethodSig(P, sigs, c, m), v, AnalyzeAll(P, sigs, cls, O, args));
      && (Passes(r, strict) ==> Passes(v, strict) && Calls(P, sigs, strict, cls, O, args, c, m, v.ty, r.ty))
      && forall t {:trigger Calls(P, sigs, strict, cls, O, args, c, m, v.ty, t)} ::
           Passes(v, strict) && Calls(P, sigs, strict, cls, O, args, c, m, v.ty, t) ==> Passes(r, strict) && r.ty == t
  {
    hide Hierarchy, AttrsOK, AllAgree, AnalyzeAll, MethodSig, Calls, CallVerdict, Passes;
    var r := CallVerdict(P, cls, MethodSig(P, sigs, c, m), v, AnalyzeAll(P, sigs, cls, O, args));
    forall t | Passes(v, strict) && Calls(P, sigs, strict, cls, O, args, c, m, v.ty, t) ensures Passes(r, strict) && r.ty == t {
      CallSound(P, sigs, strict, cls, O, args, c, m, v, t);
    }
    if Passes(r, strict) {
      CallComplete(P, sigs, strict, cls, O, args, c, m, v);
    }
  }

  lemma {:induction false} CallSound(P: Program, sigs: Sigs, strict: bool, cls: ClassName, O: map<Name, Type>, args: seq<Expr>, c: ClassName, m: Name, v: Verdict, t: Type)
    requires Hierarchy(P) && cls in P.classes && AttrsOK(P, cls) && c in P.classes && AllAgree(P, sigs, strict, cls, O, args)
    requires Passes(v, strict) && Calls(P, sigs, strict, cls, O, args, c, m, v.ty, t)
    ensures var r := CallVerdict(P, cls, MethodSig(P, sigs, c, m), v, AnalyzeAll(P, sigs, cls, O, args));
      Passes(r, strict) && r.ty == t
  {
    hide Hierarchy, AttrsOK, AllAgree, AnalyzeAll, HasSig, MethodSig, Fit, CallVerdict, Typed;
    SigIs(P, sigs, c, m);
    var sig :| HasSig(P, sigs, c, m, sig) && Fit(P, sigs, strict, cls, O, args, sig.formals) && t == ResultType(sig, v.ty);
    DecidedFit(P, sigs, strict, cls, O, args, Found(sig), v);
  }

  lemma {:induction false} CallComplete(P: Program, sigs: Sigs, strict: bool, cls: ClassName, O: map<Name, Type>, args: seq<Expr>, c: ClassName, m: Name, v: Verdict)
    requires Hierarchy(P) && cls in P.classes && AttrsOK(P, cls) && c in P.classes && AllAgree(P, sigs, strict, cls, O, args)
    requires Passes(CallVerdict(P, cls, MethodSig(P, sigs, c, m), v, AnalyzeAll(P, sigs, cls, O, args)), strict)
    ensures var r := CallVerdict(P, cls, MethodSig(P, sigs, c, m), v, AnalyzeAll(P, sigs, cls, O, args));
      Passes(v, strict) && Calls(P, sigs, strict, cls, O, args, c, m, v.ty, r.ty)
  {
    hide Hierarchy, AttrsOK, AllAgree, AnalyzeAll, HasSig, MethodSig, Fit, Sub;
    var found := MethodSig(P, sigs, c, m);
    SigIs(P, sigs, c, m);
    DecidedFit(P, sigs, strict, cls, O, args, found, v);
    assert HasSig(P, sigs, c, m, found.sig);
  }

  lemma {:induction false} DecidedAll(P: Program, sigs: Sigs, strict: bool, cls: ClassName, O: map<Name, Type>, es: seq<Expr>)
    requires Hierarchy(P) && cls in P.classes && AttrsOK(P, cls)
    ensures AllAgree(P, sigs, strict, cls, O, es)
    decreases es, 0
  {
    hide Hierarchy, AttrsOK, Agrees, Analyze, AllAgree;
    if es == [] {
      NoneDisagree(P, sigs, strict, cls, O);
    } else {
      Decided(P, sigs, strict, cls, O, es[0]);
      DecidedAll(P, sigs, strict, cls, O, es[1..]);
      MoreAgree(P, sigs, strict, cls, O, es);
    }
  }

  lemma {:induction false} NoneDisagree(P: Program, sigs: Sigs, strict: bool, cls: ClassName, O: map<Name, Type>)
    requires Hierarchy(P) && cls in P.classes
    ensures AllAgree(P, sigs, strict, cls, O, [])
  {
    hide Hierarchy, Agrees, Analyze;
  }

  lemma {:induction false} VerdictAll(P: Program, sigs: Sigs, cls: ClassName, O: map<Name, Type>, es: seq<Expr>)
    requires Hierarchy(P) && cls in P.classes && es != []
    ensures var v, vs := Analyze(P, sigs, cls, O, es[0]), AnalyzeAll(P, sigs, cls, O, es[1..]);
      AnalyzeAll(P, sigs, cls, O, es) == Verdicts([v.ty] + vs.tys, v.reported || vs.reported, v.skipped || vs.skipped)
  {
    hide Hierarchy, Analyze;
  }

  lemma {:induction false} PassesCons(P: Program, sigs: Sigs, strict: bool, cls: ClassName, O: map<Name, Type>, es: seq<Expr>)
    requires Hierarchy(P) && cls in P.classes && es != []
    ensures (forall i :: 0 <= i < |es| ==> Passes(Analyze(P, sigs, cls, O, es[i]), strict)) <==>
      (Passes(Analyze(P, sigs, cls, O, es[0]), strict) && forall i :: 0 <= i < |es[1..]| ==> Passes(Analyze(P, sigs, cls, O, es[1..][i]), strict))
  {
    hide *;
    assert forall i :: 0 < i < |es| ==> es[i] == es[1..][i - 1];
    assert forall i :: 0 <= i < |es| - 1 ==> es[1..][i] == es[i + 1];
  }

  lemma {:induction false} MoreAgree(P: Program, sigs: Sigs, strict: bool, cls: ClassName, O: map<Name, Type>, es: seq<Expr>)
    requires Hierarchy(P) && cls in P.classes && es != []
    requires Agrees(P, sigs, strict, cls, O, es[0]) && AllAgree(P, sigs, strict, cls, O, es[1..])
    ensures AllAgree(P, sigs, strict, cls, O, es)
  {
    hide Hierarchy, Agrees, Analyze, AnalyzeAll;
    VerdictAll(P, sigs, cls, O, es);
    PassesCons(P, sigs, strict, cls, O, es);
    var vs := AnalyzeAll(P, sigs, cls, O, es);
    forall i | 0 <= i < |es| ensures Agrees(P, sigs, strict, cls, O, es[i]) && vs.tys[i] == Analyze(P, sigs, cls, O, es[i]).ty {
      assert i > 0 ==> es[i] == es[1..][i - 1];
    }
  }

  lemma {:induction false} DecidedInit(P: Program, sigs: Sigs, strict: bool, cls: ClassName, O: map<Name, Type>, ty: StaticType, init: Expr)
    requires Hierarchy(P) && cls in P.classes && AttrsOK(P, cls)
    ensures InitAgrees(P, sigs, strict, cls, O, ty, init)
    decreases init, 2
  {
    hide *;
    Decided(P, sigs, strict, cls, O, init);
    InitFrom(P, sigs, strict, cls, O, ty, init);
  }

  lemma {:induction false} InitFrom(P: Program, sigs: Sigs, strict: bool, cls: ClassName, O: map<Name, Type>, ty: StaticType, init: Expr)
    requires Hierarchy(P) && cls in P.classes && Agrees(P, sigs, strict, cls, O, init)
    ensures InitAgrees(P, sigs, strict, cls, O, ty, init)
  {
    hide *;
    if Initialises(P, sigs, strict, cls, O, ty, init) {
      InitSound(P, sigs, strict, cls, O, ty, init);
    }
    if Passes(AnalyzeInit(P, sigs, cls, O, ty, init), strict) {
      InitComplete(P, sigs, strict, cls, O, ty, init);
    }
    if !AnalyzeInit(P, sigs, cls, O, ty, init).reported {
      InitType(P, sigs, cls, O, ty, init);
    }
    InitAgreesIf(P, sigs, strict, cls, O, ty, init);
  }

  lemma {:induction false} InitAgreesIf(P: Program, sigs: Sigs, strict: bool, cls: ClassName, O: map<Name, Type>, ty: StaticType, init: Expr)
    requires Hierarchy(P) && cls in P.classes
    requires Initialises(P, sigs, strict, cls, O, ty, init) ==> Passes(AnalyzeInit(P, sigs, cls, O, ty, init), strict)
    requires Passes(AnalyzeInit(P, sigs, cls, O, ty, init), strict) ==> Initialises(P, sigs, strict, cls, O, ty, init)
    requires !AnalyzeInit(P, sigs, cls, O, ty, init).reported ==> AnalyzeInit(P, sigs, cls, O, ty, init).ty == TypeOf(ty)
    ensures InitAgrees(P, sigs, strict, cls, O, ty, init)
  {
    hide Hierarchy, Initialises, AnalyzeInit, Passes, Known;
  }

  lemma {:induction false} InitType(P: Program, sigs: Sigs, cls: ClassName, O: map<Name, Type>, ty: StaticType, init: Expr)
    requires Hierarchy(P) && cls in P.classes && !AnalyzeInit(P, sigs, cls, O, ty, init).reported
    ensures AnalyzeInit(P, sigs, cls, O, ty, init).ty == TypeOf(ty)
  {
    hide Hierarchy, Analyze, Sub;
  }

  lemma {:induction false} VerdictInit(P: Program, sigs: Sigs, cls: ClassName, O: map<Name, Type>, ty: StaticType, init: Expr)
    requires Hierarchy(P) && cls in P.classes
    ensures var v := Analyze(P, sigs, cls, O, init);
      AnalyzeInit(P, sigs, cls, O, ty, init) ==
        if init.NoExpr? then Verdict(TypeOf(ty), false, init.ty != ty)
        else if Sub(P, cls, v.ty, TypeOf(ty)) then v.(ty := TypeOf(ty))
        else Verdict(NoType, true, v.skipped)
  {
    hide Hierarchy, Analyze, Sub;
  }

  lemma {:induction false} InitSound(P: Program, sigs: Sigs, strict: bool, cls: ClassName, O: map<Name, Type>, ty: StaticType, init: Expr)
    requires Hierarchy(P) && cls in P.classes && Agrees(P, sigs, strict, cls, O, init) && Initialises(P, sigs, strict, cls, O, ty, init)
    ensures Passes(AnalyzeInit(P, sigs, cls, O, ty, init), strict)
  {
    hide Hierarchy, Agrees, Analyze, AnalyzeInit, Typed, Conforms, Sub, ConformsTo;
    ConformsIs(P, cls);
    VerdictInit(P, sigs, cls, O, ty, init);
    if !init.NoExpr? {
      ConformingPasses(P, sigs, strict, cls, O, init, TypeOf(ty));
    }
  }

  lemma {:induction false} InitComplete(P: Program, sigs: Sigs, strict: bool, cls: ClassName, O: map<Name, Type>, ty: StaticType, init: Expr)
    requires Hierarchy(P) && cls in P.classes && Agrees(P, sigs, strict, cls, O, init) && Passes(AnalyzeInit(P, sigs, cls, O, ty, init), strict)
    ensures Initialises(P, sigs, strict, cls, O, ty, init)
  {
    hide Hierarchy, Agrees, Analyze, AnalyzeInit, Typed, Conforms, Sub, ConformsTo;
    ConformsIs(P, cls);
    VerdictInit(P, sigs, cls, O, ty, init);
    if !init.NoExpr? {
      PassesTyped(P, sigs, strict, cls, O, init);
    }
  }

  /** The arguments fit exactly when the verdict on the call passes. */
  lemma {:induction false} DecidedFit(P: Program, sigs: Sigs, strict: bool, cls: ClassName, O: map<Name, Type>, args: seq<Expr>, found: FoundSig, v: Verdict)
    requires Hierarchy(P) && cls in P.classes && AttrsOK(P, cls) && found.Found? && AllAgree(P, sigs, strict, cls, O, args)
    ensures var r := CallVerdict(P, cls, found, v, AnalyzeAll(P, sigs, cls, O, args));
      && (Passes(r, strict) ==> Passes(v, strict) && Fit(P, sigs, strict, cls, O, args, found.sig.formals))
      && (Passes(v, strict) && Fit(P, sigs, strict, cls, O, args, found.sig.formals) ==> Passes(r, strict))
      && (!r.reported ==> r.ty == ResultType(found.sig, v.ty))
  {
    hide Hierarchy, AttrsOK, Agrees, Analyze, AnalyzeAll, Typed, Conforms, Sub, ConformsTo;
    ConformsIs(P, cls);
    var vs := AnalyzeAll(P, sigs, cls, O, args);
    forall i | 0 <= i < |args| && |args| == |found.sig.formals|
      ensures ConformsTo(P, sigs, strict, cls, O, args[i], Cls(found.sig.formals[i])) ==>
        Passes(Analyze(P, sigs, cls, O, args[i]), strict) && Sub(P, cls, vs.tys[i], Cls(found.sig.formals[i]))
      ensures Passes(Analyze(P, sigs, cls, O, args[i]), strict) && Sub(P, cls, vs.tys[i], Cls(found.sig.formals[i])) ==>
        ConformsTo(P, sigs, strict, cls, O, args[i], Cls(found.sig.formals[i]))
    {
      WitnessConforms(P, sigs, strict, cls, O, args[i], Cls(found.sig.formals[i]));
    }
  }

  lemma {:induction false} DistinctIs(cases: seq<Branch>)
    ensures Distinct(CaseTypes(cases)) <==> forall i, j :: 0 <= i < j < |cases| ==> cases[i].c != cases[j].c
  {
  }

  lemma {:induction false} DecidedBranches(P: Program, sigs: Sigs, strict: bool, cls: ClassName, O: map<Name, Type>, cases: seq<Branch>)
    requires Hierarchy(P) && cls in P.classes && AttrsOK(P, cls) && cases != []
    ensures BranchesAgree(P, sigs, strict, cls, O, cases)
    decreases cases, 0
  {
    hide Hierarchy, AttrsOK, Analyze, AnalyzeCases, Typed, Branches;
    var br, n := cases[|cases| - 1], |cases| - 1;
    Decided(P, sigs, strict, cls, O[br.x := Cls(br.c)], br.body);
    if n > 0 {
      DecidedBranches(P, sigs, strict, cls, O, cases[..n]);
    }
    forall t | Branches(P, sigs, strict, cls, O, cases, t)
      ensures Passes(AnalyzeCases(P, sigs, cls, O, cases), strict) && AnalyzeCases(P, sigs, cls, O, cases).ty == t
    {
      SoundBranches(P, sigs, strict, cls, O, cases, t);
    }
    if Passes(AnalyzeCases(P, sigs, cls, O, cases), strict) {
      CompleteBranches(P, sigs, strict, cls, O, cases);
    }
  }

  lemma {:induction false} VerdictBranches(P: Program, sigs: Sigs, cls: ClassName, O: map<Name, Type>, cases: seq<Branch>)
    requires Hierarchy(P) && cls in P.classes && cases != []
    ensures AnalyzeCases(P, sigs, cls, O, cases) ==
      var br, n := cases[|cases| - 1], |cases| - 1;
      var v := AnalyzeCases(P, sigs, cls, O, cases[..n]);
      var v1 := if br.c in P.classes then Analyze(P, sigs, cls, O[br.x := Cls(br.c)], br.body) else Verdict(NoType, false, false);
      var ty := if n == 0 then v1.ty else LubType(P, cls, v1.ty, v.ty);
      Verdict(ty, v.reported || v1.reported || ty.NoType?, v.skipped || v1.skipped || br.x == SELF)
  {
    hide Hierarchy, Analyze, LubType;
  }

  lemma {:induction false} LastType(P: Program, sigs: Sigs, strict: bool, cls: ClassName, O: map<Name, Type>, cases: seq<Branch>, t: Type) returns (t1: Type)
    requires Hierarchy(P) && cls in P.classes && cases != [] && Branches(P, sigs, strict, cls, O, cases, t)
    ensures var br, n := cases[|cases| - 1], |cases| - 1;
      && br.c in P.classes && (strict ==> br.x != SELF) && !t1.NoType?
      && Typed(P, sigs, strict, cls, O[br.x := Cls(br.c)], br.body, t1) && JoinsRest(P, sigs, strict, cls, O, cases[..n], t1, t)
  {
    hide Hierarchy, Typed, JoinsRest;
    var br, n := cases[|cases| - 1], |cases| - 1;
    t1 :| Typed(P, sigs, strict, cls, O[br.x := Cls(br.c)], br.body, t1) && !t1.NoType? && JoinsRest(P, sigs, strict, cls, O, cases[..n], t1, t);
  }

  lemma {:induction false} SoundBranches(P: Program, sigs: Sigs, strict: bool, cls: ClassName, O: map<Name, Type>, cases: seq<Branch>, t: Type)
    requires Hierarchy(P) && cls in P.classes && cases != [] && Branches(P, sigs, strict, cls, O, cases, t)
    requires cases[|cases| - 1].c in P.classes ==>
      Agrees(P, sigs, strict, cls, O[cases[|cases| - 1].x := Cls(cases[|cases| - 1].c)], cases[|cases| - 1].body)
    requires |cases| > 1 ==> BranchesAgree(P, sigs, strict, cls, O, cases[..|cases| - 1])
    ensures Passes(AnalyzeCases(P, sigs, cls, O, cases), strict) && AnalyzeCases(P, sigs, cls, O, cases).ty == t
  {
    hide Hierarchy, Typed, Agrees, BranchesAgree, Analyze, AnalyzeCases, LubType, IsJoin, JoinsRest, Branches;
    var br, n := cases[|cases| - 1], |cases| - 1;
    VerdictBranches(P, sigs, cls, O, cases);
    NoBranches(P, sigs, cls, O);
    var t1 := LastType(P, sigs, strict, cls, O, cases, t);
    AgreesAll(P, sigs, strict, cls, O[br.x := Cls(br.c)], br.body);
    SoundRest(P, sigs, strict, cls, O, cases[..n], t1, t);
  }

  lemma {:induction false} SoundRest(P: Program, sigs: Sigs, strict: bool, cls: ClassName, O: map<Name, Type>, rest: seq<Branch>, t1: Type, t: Type)
    requires Hierarchy(P) && cls in P.classes && !t1.NoType? && JoinsRest(P, sigs, strict, cls, O, rest, t1, t)
    requires rest != [] ==> BranchesAgree(P, sigs, strict, cls, O, rest)
    ensures if rest == [] then t == t1
      else var v := AnalyzeCases(P, sigs, cls, O, rest); Passes(v, strict) && !t.NoType? && LubType(P, cls, t1, v.ty) == t
  {
    hide Hierarchy, Branches, AnalyzeCases, LubType, IsJoin;
    if rest != [] {
      var t2 :| Branches(P, sigs, strict, cls, O, rest, t2) && IsJoin(P, cls, t1, t2, t);
      JoinIs(P, cls, t1, t2);
    }
  }

  lemma {:induction false} CompleteBranches(P: Program, sigs: Sigs, strict: bool, cls: ClassName, O: map<Name, Type>, cases: seq<Branch>)
    requires Hierarchy(P) && cls in P.classes && cases != [] && Passes(AnalyzeCases(P, sigs, cls, O, cases), strict)
    requires cases[|cases| - 1].c in P.classes ==>
      Agrees(P, sigs, strict, cls, O[cases[|cases| - 1].x := Cls(cases[|cases| - 1].c)], cases[|cases| - 1].body)
    requires |cases| > 1 ==> BranchesAgree(P, sigs, strict, cls, O, cases[..|cases| - 1])
    ensures Branches(P, sigs, strict, cls, O, cases, AnalyzeCases(P, sigs, cls, O, cases).ty)
  {
    hide Hierarchy, Typed, Agrees, BranchesAgree, Analyze, AnalyzeCases, LubType, IsJoin, JoinsRest;
    var br, n := cases[|cases| - 1], |cases| - 1;
    var ty := AnalyzeCases(P, sigs, cls, O, cases).ty;
    VerdictBranches(P, sigs, cls, O, cases);
    LubKnown(P, cls);
    var t1 := Analyze(P, sigs, cls, O[br.x := Cls(br.c)], br.body).ty;
    PassesTyped(P, sigs, strict, cls, O[br.x := Cls(br.c)], br.body);
    CompleteRest(P, sigs, strict, cls, O, cases[..n], t1, ty);
  }

  lemma {:induction false} CompleteRest(P: Program, sigs: Sigs, strict: bool, cls: ClassName, O: map<Name, Type>, rest: seq<Branch>, t1: Type, t: Type)
    requires Hierarchy(P) && cls in P.classes && !t.NoType?
    requires if rest == [] then t == t1
      else var v := AnalyzeCases(P, sigs, cls, O, rest); Passes(v, strict) && LubType(P, cls, t1, v.ty) == t
    requires rest != [] ==> BranchesAgree(P, sigs, strict, cls, O, rest)
    ensures JoinsRest(P, sigs, strict, cls, O, rest, t1, t)
  {
    hide Hierarchy, Branches, AnalyzeCases, LubType, IsJoin;
    if rest != [] {
      var t2 := AnalyzeCases(P, sigs, cls, O, rest).ty;
      JoinIs(P, cls, t1, t2);
      assert Branches(P, sigs, strict, cls, O, rest, t2) && IsJoin(P, cls, t1, t2, t);
    }
  }

  // ---------------------------------------------------------------------------------------------
  // Features and programs.

  lemma {:induction false} MethodDecided(P: Program, sigs: Sigs, strict: bool, c: ClassName, m: Method)
    requires Hierarchy(P) && c in P.classes && AttrsOK(P, c) && SigOf(sigs, c, m) && m.body.Code?
    ensures TypedMethod(P, sigs, strict, c, m) <==> Passes(AnalyzeMethod(P, sigs, c, m), strict)
  {
    hide Hierarchy, AttrsOK, Analyze, Typed, Conforms, Sub, HasSig, MethodSig, FormalTypes, ConformsTo;
    var sig := sigs[(c, m.name)];
    ConformsIs(P, c);
    SigIs(P, sigs, Up(P, c), m.name);
    assert MethodSig(P, sigs, Up(P, c), m.name).Found? ==> HasSig(P, sigs, Up(P, c), m.name, MethodSig(P, sigs, Up(P, c), m.name).sig);
    Decided(P, sigs, strict, c, FormalTypes(m.formals, sig.formals), m.body.e);
    WitnessConforms(P, sigs, strict, c, FormalTypes(m.formals, sig.formals), m.body.e, sig.ret);
  }

  lemma {:induction false} AttrDecided(P: Program, sigs: Sigs, strict: bool, c: ClassName, a: Attr)
    requires Hierarchy(P) && c in P.classes && AttrsOK(P, c)
    ensures TypedAttr(P, sigs, strict, c, a) <==> Passes(AnalyzeAttr(P, sigs, c, a), strict)
  {
    hide Hierarchy, AttrsOK, AnalyzeInit, Initialises;
    ConformsIs(P, c);
    if Known(P, TypeOf(a.ty)) {
      DecidedInit(P, sigs, strict, c, map[], a.ty, a.init);
    }
  }

  /**
    The checker reports nothing exactly for the programs that the rules with their silent part allow, and every
    check succeeds exactly for those that the rules of the manual allow.
   */
  lemma {:induction false} ProgramDecided(P: Program, sigs: Sigs)
    requires Hierarchy(P) && Declarations(P, sigs) && forall c {:trigger AttrsOK(P, c)} :: c in P.classes ==> AttrsOK(P, c)
    ensures Accepts(P, sigs) <==> TypedProgram(P, sigs, false)
    ensures AllChecksPass(P, sigs) <==> TypedProgram(P, sigs, true)
  {
    hide Hierarchy, AttrsOK, AnalyzeMethod, AnalyzeAttr, TypedMethod, TypedAttr, SameAsParent;
    forall strict: bool, c, m | c in P.classes && m in P.classes[c].methods && m.body.Code?
      ensures SigOf(sigs, c, m) && (TypedMethod(P, sigs, strict, c, m) <==> Passes(AnalyzeMethod(P, sigs, c, m), strict))
    {
      assert AttrsOK(P, c) && SigOf(sigs, c, m);
      MethodDecided(P, sigs, strict, c, m);
    }
    forall strict: bool, c, a | c in P.classes && a in P.classes[c].attrs
      ensures TypedAttr(P, sigs, strict, c, a) <==> Passes(AnalyzeAttr(P, sigs, c, a), strict)
    {
      assert AttrsOK(P, c);
      AttrDecided(P, sigs, strict, c, a);
    }
  }
}
