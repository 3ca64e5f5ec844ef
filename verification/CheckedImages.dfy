/**
  From the type checker to the machine: a program all of whose checks succeed is one that the generator takes, and
  the image that it writes ends as the interpreter does.
 */
module CheckedImages {
  import opened CoolNames
  import opened Inheritance
  import opened CoolSyntax
  import opened Layout
  import opened ClassTags
  import opened CoolSemantics
  import opened Mips
  import opened CodeGen
  import opened ProgramImage
  import opened SimRel
  import opened SimCalls
  import opened Typing
  import opened TypeSoundness
  import opened WholeProgram
  import opened CheckedPrograms
  import opened Driver
  import opened Retagging
  import Emission

  // ---------------------------------------------------------------------------------------------
  // What the checker accepts, the generator can translate.

  lemma {:induction false} AttrNames(layout: seq<Attr>)
    ensures forall i :: 0 <= i < |layout| ==> layout[i].name in AttrScope(layout)
    decreases |layout|
  {
    if layout != [] {
      AttrNames(layout[..|layout| - 1]);
    }
  }

  lemma {:induction false} FormalNames(env: Scope, formals: seq<Name>, tys: seq<ClassName>, n: nat)
    requires |formals| == |tys|
    ensures FormalTypes(formals, tys).Keys <= FormalScope(env, formals, n).Keys && env.Keys <= FormalScope(env, formals, n).Keys
    decreases |formals|
  {
    if formals != [] {
      FormalNames(env, formals[..|formals| - 1], tys[..|tys| - 1], n);
    }
  }

  /** The generator has a place for every variable of the checker's. */
  ghost predicate InScope(P: Program, cls: ClassName, O: map<Name, Type>, vars: set<Name>)
    requires Hierarchy(P) && cls in P.classes
  {
    O.Keys <= vars && forall i :: 0 <= i < |AttrLayout(P, cls)| ==> AttrLayout(P, cls)[i].name in vars
  }

  lemma VarInScope(P: Program, cls: ClassName, O: map<Name, Type>, vars: set<Name>, x: Name)
    requires Hierarchy(P) && cls in P.classes && InScope(P, cls, O, vars) && !VarType(P, cls, O, x).NoType?
    ensures x == SELF || x in vars
  {
    hide AttrLayout;
  }

  /** Every class has a method `copy`. */
  lemma CopyKnown(P: Program, c: ClassName)
    requires Hierarchy(P) && BasicsOK(P) && c in P.classes
    ensures Emission.HasMethod(P, c, COPY)
  {
    ObjectIsRoot(Parents(P), c);
    NearestBelow(P, c, ObjectC, COPY);
  }

  /** An expression whose checks succeed has what the generator asks for. */
  lemma {:induction false} Translatable(P: Program, sigs: Sigs, cls: ClassName, O: map<Name, Type>, e: Expr, vars: set<Name>)
    requires Hierarchy(P) && BasicsOK(P) && cls in P.classes && InScope(P, cls, O, vars) && Clean(Analyze(P, sigs, cls, O, e))
    ensures Emission.Checked(P, cls, e, vars)
    decreases e, 1
  {
    hide Hierarchy, BasicsOK, InScope, Analyze, Clean, Emission.Checked;
    match e
    case Assign(_, _) => TranslatableName(P, sigs, cls, O, e, vars);
    case Object(_) => TranslatableName(P, sigs, cls, O, e, vars);
    case Block(_) => TranslatableBlock(P, sigs, cls, O, e, vars);
    case Cond(_, _, _) => TranslatableCond(P, sigs, cls, O, e, vars);
    case Loop(_, _) => TranslatableLoop(P, sigs, cls, O, e, vars);
    case Let(_, _, _, _) => TranslatableLet(P, sigs, cls, O, e, vars);
    case Arith(_, _, _) => TranslatableInts(P, sigs, cls, O, e, vars);
    case Compare(_, _, _) => TranslatableInts(P, sigs, cls, O, e, vars);
    case Neg(_) => TranslatableUnary(P, sigs, cls, O, e, vars);
    case Comp(_) => TranslatableUnary(P, sigs, cls, O, e, vars);
    case Dispatch(_, _, _, _) => TranslatableCall(P, sigs, cls, O, e, vars);
    case StaticDispatch(_, _, _, _) => TranslatableCall(P, sigs, cls, O, e, vars);
    case TypCase(_, _) => TranslatableCase(P, sigs, cls, O, e, vars);
    case New(_) => TranslatableLeaf(P, sigs, cls, O, e, vars);
    case NewSelf => TranslatableLeaf(P, sigs, cls, O, e, vars);
    case IntConst(_) => TranslatableLeaf(P, sigs, cls, O, e, vars);
    case BoolConst(_) => TranslatableLeaf(P, sigs, cls, O, e, vars);
    case StrConst(_) => TranslatableLeaf(P, sigs, cls, O, e, vars);
    case NoExpr(_) => TranslatableLeaf(P, sigs, cls, O, e, vars);
  }

  lemma {:induction false} TranslatableLeaf(P: Program, sigs: Sigs, cls: ClassName, O: map<Name, Type>, e: Expr, vars: set<Name>)
    requires Hierarchy(P) && BasicsOK(P) && cls in P.classes && InScope(P, cls, O, vars) && Clean(Analyze(P, sigs, cls, O, e))
    requires e.New? || e.NewSelf? || e.IntConst? || e.BoolConst? || e.StrConst? || e.NoExpr?
    ensures Emission.Checked(P, cls, e, vars)
    decreases e, 0
  {
    hide Hierarchy, BasicsOK, InScope, Analyze, Emission.HasMethod;
    if e.New? {
      NewParts(P, sigs, cls, O, e);
      CopyKnown(P, e.c);
    }
  }

  lemma {:induction false} TranslatableName(P: Program, sigs: Sigs, cls: ClassName, O: map<Name, Type>, e: Expr, vars: set<Name>)
    requires Hierarchy(P) && BasicsOK(P) && cls in P.classes && InScope(P, cls, O, vars) && Clean(Analyze(P, sigs, cls, O, e))
    requires e.Object? || e.Assign?
    ensures Emission.Checked(P, cls, e, vars)
    decreases e, 0
  {
    hide Hierarchy, BasicsOK, InScope, Analyze, Emission.HasMethod, VarType, Sub;
    if e.Assign? {
      AssignParts(P, sigs, cls, O, e);
      Translatable(P, sigs, cls, O, e.e, vars);
    } else {
      ObjectParts(P, sigs, cls, O, e);
    }
    VarInScope(P, cls, O, vars, e.x);
  }

  lemma {:induction false} TranslatableBlock(P: Program, sigs: Sigs, cls: ClassName, O: map<Name, Type>, e: Expr, vars: set<Name>)
    requires Hierarchy(P) && BasicsOK(P) && cls in P.classes && InScope(P, cls, O, vars) && Clean(Analyze(P, sigs, cls, O, e))
    requires e.Block?
    ensures Emission.Checked(P, cls, e, vars)
    decreases e, 0
  {
    hide Hierarchy, BasicsOK, InScope, Analyze, Emission.HasMethod, AnalyzeAll;
    BlockParts(P, sigs, cls, O, e);
    TranslatableAll(P, sigs, cls, O, e.es, vars);
  }

  lemma {:induction false} TranslatableCond(P: Program, sigs: Sigs, cls: ClassName, O: map<Name, Type>, e: Expr, vars: set<Name>)
    requires Hierarchy(P) && BasicsOK(P) && cls in P.classes && InScope(P, cls, O, vars) && Clean(Analyze(P, sigs, cls, O, e))
    requires e.Cond?
    ensures Emission.Checked(P, cls, e, vars)
    decreases e, 0
  {
    hide Hierarchy, BasicsOK, InScope, Analyze, Emission.HasMethod, Sub;
    CondParts(P, sigs, cls, O, e);
    Translatable(P, sigs, cls, O, e.pred, vars);
    Translatable(P, sigs, cls, O, e.thn, vars);
    Translatable(P, sigs, cls, O, e.els, vars);
  }

  lemma {:induction false} TranslatableLoop(P: Program, sigs: Sigs, cls: ClassName, O: map<Name, Type>, e: Expr, vars: set<Name>)
    requires Hierarchy(P) && BasicsOK(P) && cls in P.classes && InScope(P, cls, O, vars) && Clean(Analyze(P, sigs, cls, O, e))
    requires e.Loop?
    ensures Emission.Checked(P, cls, e, vars)
    decreases e, 0
  {
    hide Hierarchy, BasicsOK, InScope, Analyze, Emission.HasMethod;
    LoopParts(P, sigs, cls, O, e);
    Translatable(P, sigs, cls, O, e.pred, vars);
    Translatable(P, sigs, cls, O, e.body, vars);
  }

  lemma {:induction false} TranslatableLet(P: Program, sigs: Sigs, cls: ClassName, O: map<Name, Type>, e: Expr, vars: set<Name>)
    requires Hierarchy(P) && BasicsOK(P) && cls in P.classes && InScope(P, cls, O, vars) && Clean(Analyze(P, sigs, cls, O, e))
    requires e.Let?
    ensures Emission.Checked(P, cls, e, vars)
    decreases e, 0
  {
    hide Hierarchy, BasicsOK, InScope, Analyze, Emission.HasMethod, AnalyzeInit, Exists;
    LetParts(P, sigs, cls, O, e);
    TranslatableInit(P, sigs, cls, O, e.ty, e.init, vars);
    MoreInScope(P, cls, O, vars, e.x, TypeOf(e.ty));
    Translatable(P, sigs, cls, O[e.x := TypeOf(e.ty)], e.body, vars + {e.x});
  }

  lemma {:induction false} TranslatableInts(P: Program, sigs: Sigs, cls: ClassName, O: map<Name, Type>, e: Expr, vars: set<Name>)
    requires Hierarchy(P) && BasicsOK(P) && cls in P.classes && InScope(P, cls, O, vars) && Clean(Analyze(P, sigs, cls, O, e))
    requires e.Arith? || e.Compare?
    ensures Emission.Checked(P, cls, e, vars)
    decreases e, 0
  {
    hide Hierarchy, BasicsOK, InScope, Analyze, Emission.HasMethod;
    IntsParts(P, sigs, cls, O, e);
    IntCopy(P);
    Translatable(P, sigs, cls, O, e.e1, vars);
    Translatable(P, sigs, cls, O, e.e2, vars);
  }

  lemma {:induction false} TranslatableUnary(P: Program, sigs: Sigs, cls: ClassName, O: map<Name, Type>, e: Expr, vars: set<Name>)
    requires Hierarchy(P) && BasicsOK(P) && cls in P.classes && InScope(P, cls, O, vars) && Clean(Analyze(P, sigs, cls, O, e))
    requires e.Neg? || e.Comp?
    ensures Emission.Checked(P, cls, e, vars)
    decreases e, 0
  {
    hide Hierarchy, BasicsOK, InScope, Analyze, Emission.HasMethod;
    UnaryParts(P, sigs, cls, O, e);
    IntCopy(P);
    Translatable(P, sigs, cls, O, e.e, vars);
  }

  lemma ObjectParts(P: Program, sigs: Sigs, cls: ClassName, O: map<Name, Type>, e: Expr)
    requires Hierarchy(P) && cls in P.classes && e.Object? && Clean(Analyze(P, sigs, cls, O, e))
    ensures !VarType(P, cls, O, e.x).NoType?
  {
    hide Hierarchy, VarType;
  }

  lemma IntCopy(P: Program)
    requires Hierarchy(P) && BasicsOK(P)
    ensures Emission.HasMethod(P, IntC, COPY)
  {
  }

  lemma MoreInScope(P: Program, cls: ClassName, O: map<Name, Type>, vars: set<Name>, x: Name, ty: Type)
    requires Hierarchy(P) && cls in P.classes && InScope(P, cls, O, vars)
    ensures InScope(P, cls, O[x := ty], vars + {x})
  {
    hide AttrLayout;
  }

  lemma {:induction false} TranslatableCall(P: Program, sigs: Sigs, cls: ClassName, O: map<Name, Type>, e: Expr, vars: set<Name>)
    requires Hierarchy(P) && BasicsOK(P) && cls in P.classes && InScope(P, cls, O, vars) && Clean(Analyze(P, sigs, cls, O, e))
    requires e.Dispatch? || e.StaticDispatch?
    ensures Emission.Checked(P, cls, e, vars)
    decreases e, 0
  {
    hide Hierarchy, BasicsOK, InScope, Analyze, AnalyzeAll, Sub;
    if e.Dispatch? {
      DispatchParts(P, sigs, cls, O, e);
    } else {
      StaticParts(P, sigs, cls, O, e);
    }
    Translatable(P, sigs, cls, O, e.e, vars);
    TranslatableAll(P, sigs, cls, O, e.args, vars);
  }

  lemma {:induction false} TranslatableCase(P: Program, sigs: Sigs, cls: ClassName, O: map<Name, Type>, e: Expr, vars: set<Name>)
    requires Hierarchy(P) && BasicsOK(P) && cls in P.classes && InScope(P, cls, O, vars) && e.TypCase? && Clean(Analyze(P, sigs, cls, O, e))
    ensures Emission.Checked(P, cls, e, vars)
    decreases e, 0
  {
    hide Hierarchy, BasicsOK, InScope, Analyze, AnalyzeCases, Sub, GoodBranches;
    CaseParts(P, sigs, cls, O, e);
    Translatable(P, sigs, cls, O, e.e, vars);
    forall i | 0 <= i < |e.cases| ensures Emission.Checked(P, cls, e.cases[i].body, vars + {e.cases[i].x}) {
      BranchParts(P, sigs, cls, O, e.cases, i);
      MoreInScope(P, cls, O, vars, e.cases[i].x, Cls(e.cases[i].c));
      Translatable(P, sigs, cls, O[e.cases[i].x := Cls(e.cases[i].c)], e.cases[i].body, vars + {e.cases[i].x});
    }
  }

  lemma {:induction false} TranslatableAll(P: Program, sigs: Sigs, cls: ClassName, O: map<Name, Type>, es: seq<Expr>, vars: set<Name>)
    requires Hierarchy(P) && BasicsOK(P) && cls in P.classes && InScope(P, cls, O, vars)
    requires !AnalyzeAll(P, sigs, cls, O, es).reported && !AnalyzeAll(P, sigs, cls, O, es).skipped
    ensures forall i :: 0 <= i < |es| ==> Emission.Checked(P, cls, es[i], vars)
    decreases es, 0
  {
    hide Hierarchy, BasicsOK, InScope, Analyze, AnalyzeAll;
    if es != [] {
      AllParts(P, sigs, cls, O, es);
      Translatable(P, sigs, cls, O, es[0], vars);
      TranslatableAll(P, sigs, cls, O, es[1..], vars);
      assert forall i :: 0 < i < |es| ==> es[i] == es[1..][i - 1];
    }
  }

  lemma {:induction false} TranslatableInit(P: Program, sigs: Sigs, cls: ClassName, O: map<Name, Type>, ty: StaticType, init: Expr, vars: set<Name>)
    requires Hierarchy(P) && BasicsOK(P) && cls in P.classes && InScope(P, cls, O, vars) && Clean(AnalyzeInit(P, sigs, cls, O, ty, init))
    ensures Emission.Checked(P, cls, init, vars)
    decreases init, 2
  {
    hide Hierarchy, BasicsOK, InScope, Analyze, AnalyzeInit, Sub;
    InitParts(P, sigs, cls, O, ty, init);
    if !init.NoExpr? {
      Translatable(P, sigs, cls, O, init, vars);
    }
  }

  // ---------------------------------------------------------------------------------------------
  // Classes.

  lemma AttrsInScope(P: Program, c: ClassName)
    requires Hierarchy(P) && c in P.classes
    ensures InScope(P, c, map[], AttrScope(AttrLayout(P, c)).Keys)
  {
    AttrNames(AttrLayout(P, c));
  }

  lemma FormalsInScope(P: Program, c: ClassName, formals: seq<Name>, tys: seq<ClassName>)
    requires Hierarchy(P) && c in P.classes && |formals| == |tys|
    ensures InScope(P, c, FormalTypes(formals, tys), MethodScope(P, c, formals).Keys)
  {
    hide AttrLayout, AttrScope, FormalScope, FormalTypes;
    AttrNames(AttrLayout(P, c));
    FormalNames(AttrScope(AttrLayout(P, c)), formals, tys, |formals|);
  }

  lemma BodyTranslatable(P: Program, sigs: Sigs, c: ClassName, m: Method)
    requires Hierarchy(P) && BasicsOK(P) && AllChecksPass(P, sigs) && c in P.classes && m in P.classes[c].methods
    ensures (m.body.Code? <==> c.User?) && (m.body.Code? ==> Emission.Checked(P, c, m.body.e, MethodScope(P, c, m.formals).Keys))
  {
    hide Hierarchy, BasicsOK, Analyze, FormalTypes, InScope, SameAsParent, MethodScope, Sub;
    assert SigOf(sigs, c, m);
    if m.body.Code? {
      assert Clean(AnalyzeMethod(P, sigs, c, m));
      var tys := sigs[(c, m.name)].formals;
      FormalsInScope(P, c, m.formals, tys);
      Translatable(P, sigs, c, FormalTypes(m.formals, tys), m.body.e, MethodScope(P, c, m.formals).Keys);
    }
  }

  lemma AttrTranslatable(P: Program, sigs: Sigs, c: ClassName, a: Attr)
    requires Hierarchy(P) && BasicsOK(P) && AllChecksPass(P, sigs) && c in P.classes && a in P.classes[c].attrs
    ensures Emission.Checked(P, c, a.init, AttrScope(AttrLayout(P, c)).Keys)
  {
    hide Hierarchy, AnalyzeInit, InScope, SameAsParent, AttrLayout, AttrScope;
    AttrsInScope(P, c);
    if c.User? {
      assert Clean(AnalyzeAttr(P, sigs, c, a));
      TranslatableInit(P, sigs, c, map[], a.ty, a.init, AttrScope(AttrLayout(P, c)).Keys);
    }
  }

  lemma ClassTranslatable(P: Program, sigs: Sigs, c: ClassName)
    requires Hierarchy(P) && BasicsOK(P) && AllChecksPass(P, sigs) && c in P.classes
    ensures Emission.ClassChecked(P, c)
  {
    hide Hierarchy, BasicsOK, AllChecksPass, AttrLayout, AttrScope, MethodScope;
    var attrs, vars := P.classes[c].attrs, AttrScope(AttrLayout(P, c)).Keys;
    forall i | 0 <= i < |attrs| ensures Emission.Checked(P, c, InitExprs(attrs)[i], vars) {
      AttrTranslatable(P, sigs, c, attrs[i]);
      OwnName(P, c, i);
    }
    forall m | m in P.classes[c].methods
      ensures (m.body.Code? <==> c.User?) && (m.body.Code? ==> Emission.Checked(P, c, m.body.e, MethodScope(P, c, m.formals).Keys))
    {
      BodyTranslatable(P, sigs, c, m);
    }
  }

  lemma OwnName(P: Program, c: ClassName, i: nat)
    requires Hierarchy(P) && c in P.classes && i < |P.classes[c].attrs|
    ensures P.classes[c].attrs[i].name in AttrScope(AttrLayout(P, c)).Keys
  {
    hide AttrLayout, AttrScope;
    OwnAttrs(P, c);
    AttrNames(AttrLayout(P, c));
    assert AttrLayout(P, c)[|AttrLayout(P, Up(P, c))| + i] == P.classes[c].attrs[i];
  }

  lemma AttrsOfAccepted(P: Program)
    requires Accepted(P)
    ensures Hierarchy(P) && BasicsOK(P) && forall c {:trigger AttrsOK(P, c)} :: c in P.classes ==> AttrsOK(P, c)
  {
    hide AttrsOK, BasicsOK, Hierarchy, CreatedOK;
    forall c | c in P.classes ensures AttrsOK(P, c) {
      assert ClassOK(P, c);
    }
  }

  lemma BasicsKept(P: Program, Q: Program)
    requires Renumbered(P, Q) && BasicsOK(P)
    ensures BasicsOK(Q)
  {
    hide Hierarchy, CopyIsRuntime;
    CopyKept(P, Q, ObjectC);
    CopyKept(P, Q, IntC);
  }

  /** A program whose checks all succeed meets what the generator relies on. */
  lemma ChecksAnalysed(P: Program, sigs: Sigs)
    requires Accepted(P) && Hierarchy(P) && AllChecksPass(P, sigs)
    ensures Analysed(P)
  {
    hide Accepted, Hierarchy, AllChecksPass, Emission.ClassChecked, BasicsOK, AttrsOK, Retagged;
    AttrsOfAccepted(P);
    forall Q | Retagged(P, Q) && Hierarchy(Q) ensures forall c :: c in Q.classes ==> Emission.ClassChecked(Q, c) {
      ChecksKept(P, Q, sigs);
      BasicsKept(P, Q);
      forall c | c in Q.classes ensures Emission.ClassChecked(Q, c) {
        ClassTranslatable(Q, sigs, c);
      }
    }
  }

  // ---------------------------------------------------------------------------------------------
  // The compiler as a whole.

  /** The image started in its initial state behaves as the interpreter on `P`: same end, same output, or both for ever. */
  ghost predicate Faithful(P: Program, Q: Program, img: Image, top: int)
    requires Hierarchy(P) && Hierarchy(Q)
  {
    && (forall n: nat, why, out :: Halts(img, n, InitialState(Q, top), why, out) ==>
          var o := RunProgram(P, n + 1);
          if o.Val? then why == Finished && out == o.st.out else o.Abort? && why == Faulted(o.f) && out == o.out)
    && ((forall fuel: nat :: RunProgram(P, fuel) == Timeout) <==>
        (forall n: nat, why, out :: !Halts(img, n, InitialState(Q, top), why, out)))
  }

  lemma StartsKept(P: Program, Q: Program)
    requires Renumbered(P, Q) && Starts(P)
    ensures Starts(Q)
  {
  }

  lemma CheckedKeptToo(P: Program, Q: Program, sigs: Sigs)
    requires Accepted(P) && Renumbered(P, Q) && AllChecksPass(P, sigs) && ProgramOK(Q)
    ensures Checked(Q, sigs)
  {
    hide Accepted, Hierarchy, AttrsOK, Declarations, Accepts, NothingSkipped, CreatedOK;
    AttrsOfAccepted(P);
    ChecksKept(P, Q, sigs);
  }

  lemma ImageFaithful(P: Program, Q: Program, sigs: Sigs, top: int)
    requires Accepted(P) && Renumbered(P, Q) && AllChecksPass(P, sigs) && Starts(P) && ProgramOK(Q)
    requires OrderKnown(Q) && forall i :: 0 <= i < |Q.order| ==> Q.order[i] in Q.tag
    ensures Faithful(P, Q, ImageOf(Q), top)
  {
    hide Accepted, Hierarchy, Retagged, AllChecksPass, Starts, ProgramOK, OrderKnown, Checked, RunProgram, ImageOf, InitialState, Halts;
    StartsKept(P, Q);
    CheckedKeptToo(P, Q, sigs);
    forall fuel: nat ensures RunProgram(Q, fuel) == RunProgram(P, fuel) {
      RunKept(P, Q, fuel);
    }
    CheckedDiverges(Q, sigs, top);
    forall n: nat, why, out | Halts(ImageOf(Q), n, InitialState(Q, top), why, out)
      ensures var o := RunProgram(P, n + 1);
        if o.Val? then why == Finished && out == o.st.out else o.Abort? && why == Faulted(o.f) && out == o.out
    {
      CheckedEnds(Q, sigs, top, n, why, out);
    }
  }

  /** What semantic analysis has accepted, with every check of the type checker, and with a main method. */
  ghost predicate Compilable(P: Program, sigs: Sigs) {
    Accepted(P) && AllChecksPass(P, sigs) && Starts(P)
  }

  /** `img` is the image of `P` with the tags of `Q`, and it behaves as the interpreter does on `P`. */
  ghost predicate Compiled(P: Program, Q: Program, img: Image) {
    && Renumbered(P, Q) && OrderKnown(Q) && (forall i :: 0 <= i < |Q.order| ==> Q.order[i] in Q.tag)
    && img == ImageOf(Q) && forall top: int :: Faithful(P, Q, img, top)
  }

  /** The compiler on a program whose checks all succeed: the image that it writes behaves as the interpreter. */
  method CompileChecked(P: Program, ghost sigs: Sigs, table: CgenClassTable, nds: seq<CgenNode>)
    returns (Q: Program, img: Image, protos: map<ClassName, seq<Word>>)
    requires Compilable(P, sigs) && Unlaid(P, table)
    requires |nds| == |P.order| && forall i :: 0 <= i < |nds| ==> P.order[i] in table.nodes && nds[i] == table.nodes[P.order[i]]
    modifies table.nodes.Values
    ensures Compiled(P, Q, img)
  {
    hide Accepted, Hierarchy, Retagged, AllChecksPass, Starts, ProgramOK, OrderKnown, ImageOf, Faithful, Unlaid, Analysed, InitialHeap;
    AttrsOfAccepted(P);
    ChecksAnalysed(P, sigs);
    Q, img, protos := Work(P, table, nds);
    forall top: int ensures Faithful(P, Q, img, top) {
      ImageFaithful(P, Q, sigs, top);
    }
  }
}
