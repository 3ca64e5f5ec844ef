/**
  Whole programs that passed the type checker: they never go wrong, so that the image behaves as the interpreter in every case;
  and a program that the checker lets pass although it does.

    class Main { main() : Int { { not 1; 0; } }; };
 */
module CheckedPrograms {
  import opened CoolNames
  import opened Inheritance
  import opened CoolSyntax
  import opened Layout
  import opened ClassTags
  import opened CoolSemantics
  import opened SemanticsEquations
  import opened Mips
  import opened CodeGen
  import opened ProgramImage
  import opened SimRel
  import opened SimMethods
  import opened SimCreation
  import opened SimSpecialNew
  import opened Typing
  import opened TypeSoundness
  import opened WholeProgram
  import opened CopyOverridden

  /** Main has a main method without formals. */
  ghost predicate Starts(P: Program) {
    HasMain(P) && Decl(P.classes[MAIN], MAINMETH).formals == []
  }

  lemma MainFound(P: Program, sigs: Sigs)
    requires Hierarchy(P) && Checked(P, sigs) && Starts(P)
    ensures MAIN in P.classes && MethodSig(P, sigs, MAIN, MAINMETH).Found? && MethodSig(P, sigs, MAIN, MAINMETH).sig.formals == []
  {
    hide Hierarchy, Checked, Declares, SameAsParent, AnalyzeMethod;
    NoClassUnknown(P);
    NearestUp(P, MAIN, MAINMETH);
    MethodAccepted(P, sigs, MAIN, Decl(P.classes[MAIN], MAINMETH));
  }

  lemma MainObject(P: Program, fuel: nat)
    requires Hierarchy(P) && MAIN in P.classes
    ensures var o := Create(P, fuel, MAIN, Store([], []));
      o.Val? ==> o.v == VObj(0)
  {
    hide Hierarchy, Init, Defaults, AttrLayout;
    CreateCases(P, fuel, MAIN, Store([], []));
    ReturnedSelf(P, fuel, MAIN, VObj(0), Store([] + [Obj(MAIN, Defaults(AttrLayout(P, MAIN)))], []));
  }

  /** No run of a checked program goes wrong, whatever the fuel. */
  lemma NeverWrong(P: Program, sigs: Sigs, fuel: nat)
    requires Hierarchy(P) && Checked(P, sigs) && Starts(P)
    ensures RunProgram(P, fuel) != Wrong
  {
    hide Hierarchy, Checked, Create, Call, Inherits, Starts, ObjOK;
    MainFound(P, sigs);
    MainObject(P, fuel);
    SoundCreate(P, sigs, fuel, MAIN, Store([], []));
    var o := Create(P, fuel, MAIN, Store([], []));
    if o.Val? {
      SoundCall(P, sigs, fuel, MAIN, o.v, MAINMETH, [], o.st);
    }
  }

  /** How the image of a checked program ends is how the interpreter ends. */
  lemma CheckedEnds(P: Program, sigs: Sigs, top: int, n: nat, why: Why, out: seq<Output>)
    requires ProgramOK(P) && Hierarchy(P) && Checked(P, sigs) && Starts(P)
    requires OrderKnown(P) && forall i :: 0 <= i < |P.order| ==> P.order[i] in P.tag
    requires Halts(ImageOf(P), n, InitialState(P, top), why, out)
    ensures var o := RunProgram(P, n + 1);
      if o.Val? then why == Finished && out == o.st.out else o.Abort? && why == Faulted(o.f) && out == o.out
  {
    hide ProgramOK, Hierarchy, Checked, RunProgram, Halts, ImageOf, InitialState, OrderKnown, HasMain;
    NeverWrong(P, sigs, n + 1);
    EndingsAgree(P, top, n, why, out);
  }

  /** The image of a checked program runs for ever exactly when no amount of fuel suffices to interpret it. */
  lemma CheckedDiverges(P: Program, sigs: Sigs, top: int)
    requires ProgramOK(P) && Hierarchy(P) && Checked(P, sigs) && Starts(P)
    requires OrderKnown(P) && forall i :: 0 <= i < |P.order| ==> P.order[i] in P.tag
    ensures (forall fuel: nat :: RunProgram(P, fuel) == Timeout) <==>
            (forall n: nat, why, out :: !Halts(ImageOf(P), n, InitialState(P, top), why, out))
  {
    hide ProgramOK, Hierarchy, Checked, RunProgram, Halts, ImageOf, InitialState, OrderKnown, HasMain;
    forall fuel: nat ensures RunProgram(P, fuel) != Wrong {
      NeverWrong(P, sigs, fuel);
    }
    DivergenceAgrees(P, top);
  }

  // ---------------------------------------------------------------------------------------------
  // A check that fails in silence.

  const UNCHECKED: Expr := Block([Comp(IntConst(1)), IntConst(0)])
  const MAINI: Method := Method(MAINMETH, [], Code(UNCHECKED))

  const SILENT: Program := Program(
    map[ObjectC := Class(NoClass, [], [Method(COPY, [], Native(RtCopy))]),
        IntC := Class(ObjectC, [Attr("_val", PrimSlot, NoExpr(PrimSlot))], []),
        BoolC := Class(ObjectC, [Attr("_val", PrimSlot, NoExpr(PrimSlot))], []),
        StringC := Class(ObjectC, [Attr("_val", Of(IntC), NoExpr(Of(IntC))), Attr("_str_field", PrimSlot, NoExpr(PrimSlot))], []),
        MAIN := Class(ObjectC, [], [MAINI])],
    [ObjectC, IntC, BoolC, StringC, MAIN],
    map[ObjectC := 0, IntC := 1, BoolC := 2, StringC := 3, MAIN := 4],
    map[ObjectC := 4, IntC := 1, BoolC := 2, StringC := 3, MAIN := 4])

  const SIGS: Sigs := map[(ObjectC, COPY) := NativeSig(RtCopy), (MAIN, MAINMETH) := Sig([], INT)]

  lemma SilentFlat()
    ensures Flat(SILENT) && Hierarchy(SILENT) && RootClass(SILENT)
  {
    FlatHierarchy(SILENT);
  }

  lemma SilentTags()
    requires Hierarchy(SILENT) && Flat(SILENT)
    ensures TagsOK(SILENT)
  {
    forall c, d | c in SILENT.classes && d in SILENT.classes ensures TagPair(SILENT, c, d) {
      FlatInherits(SILENT, c, d);
    }
  }

  lemma SilentMethods()
    requires Hierarchy(SILENT) && Flat(SILENT)
    ensures CopyIsRuntime(SILENT, ObjectC) && CopyIsRuntime(SILENT, IntC)
    ensures Nearest(SILENT, MAIN, MAINMETH) == MAIN && Nearest(SILENT, ObjectC, MAINMETH) == NoClass
    ensures MAIN in SILENT.classes && Declares(SILENT.classes[MAIN], MAINMETH) && Decl(SILENT.classes[MAIN], MAINMETH) == MAINI
  {
    CopyOverridden.Names();
    OneMethodIs(SILENT.classes[ObjectC], Method(COPY, [], Native(RtCopy)));
    OneMethodIs(SILENT.classes[MAIN], MAINI);
    FlatNearest(SILENT, ObjectC, COPY);
    FlatNearest(SILENT, IntC, COPY);
    FlatNearest(SILENT, ObjectC, MAINMETH);
    FlatNearest(SILENT, MAIN, MAINMETH);
  }

  lemma SilentLayout(c: ClassName)
    requires Hierarchy(SILENT) && RootClass(SILENT) && c in SILENT.classes
    ensures AttrLayout(SILENT, c) == SILENT.classes[c].attrs
  {
    if c == ObjectC {
      assert AttrLayout(SILENT, NoClass) == [];
    } else {
      RootLayout(SILENT, c);
    }
  }

  lemma SilentClass(c: ClassName)
    requires Hierarchy(SILENT) && RootClass(SILENT) && c in SILENT.classes
    ensures ClassOK(SILENT, c)
  {
    SilentFormals(c);
    SilentAttrs(c);
    SilentLayout(c);
    hide AttrLayout, SILENT, Hierarchy, RootClass;
  }

  lemma SilentFormals(c: ClassName)
    requires c in SILENT.classes
    ensures MethodsOK(SILENT.classes[c])
  {
  }

  lemma SilentAttrs(c: ClassName)
    requires c in SILENT.classes
    ensures var attrs := SILENT.classes[c].attrs;
      && (forall i :: 0 <= i < |attrs| ==> attrs[i].name != SELF)
      && forall i, j :: 0 <= i < j < |attrs| ==> attrs[i].name != attrs[j].name
  {
    CopyOverridden.Names();
  }

  lemma SilentOK()
    ensures WellFormed(SILENT) && Hierarchy(SILENT) && Starts(SILENT)
  {
    hide Hierarchy, TagsOK, CopyIsRuntime, ClassOK, Flat, RootClass, Distinct;
    SilentFlat();
    SilentTags();
    SilentMethods();
    forall c | c in SILENT.classes ensures ClassOK(SILENT, c) {
      SilentClass(c);
    }
    assert Distinct(SILENT.order) by { SilentOrder(); }
  }

  lemma SilentOrder()
    ensures Distinct(SILENT.order)
  {
  }

  /** The methods of the program: Object.copy and Main.main. */
  lemma SilentMethod(c: ClassName, m: Method)
    requires c in SILENT.classes && m in SILENT.classes[c].methods
    ensures (c == ObjectC && m == Method(COPY, [], Native(RtCopy))) || (c == MAIN && m == MAINI)
  {
  }

  lemma NoSig(P: Program, sigs: Sigs, c: ClassName, m: Name)
    requires Hierarchy(P) && HasClass(P, c) && Nearest(P, c, m) == NoClass
    ensures MethodSig(P, sigs, c, m).Missing?
  {
  }

  lemma SilentSigs(c: ClassName, m: Method)
    requires Hierarchy(SILENT) && c in SILENT.classes && m in SILENT.classes[c].methods
    ensures SigOf(SIGS, c, m) && (m.body.Native? <==> !c.User?) && (c, m.name) in SIGS && SameAsParent(SILENT, SIGS, c, m.name)
  {
    hide Hierarchy, Nearest, MethodSig;
    SilentMethod(c, m);
    SilentUp(c);
    NoSig(SILENT, SIGS, Up(SILENT, c), m.name);
  }

  lemma SilentUp(c: ClassName)
    requires Hierarchy(SILENT) && (c == MAIN || c == ObjectC)
    ensures c in SILENT.classes && Nearest(SILENT, Up(SILENT, c), if c == MAIN then MAINMETH else COPY) == NoClass
  {
    hide Hierarchy;
    SilentFlat();
    SilentMethods();
    assert Nearest(SILENT, NoClass, COPY) == NoClass;
    assert Up(SILENT, c) == SILENT.classes[c].parent;
  }

  lemma SilentClasses(c: ClassName)
    requires c in SILENT.classes
    ensures !IsBasic(SILENT.classes[c].parent) && (!IsBasic(c) ==> SILENT.classes[c].attrs == [])
  {
  }

  lemma SilentDeclarations()
    requires Hierarchy(SILENT)
    ensures Declarations(SILENT, SIGS)
  {
    hide Hierarchy, SameAsParent, SILENT;
    forall c | c in SILENT.classes ensures !IsBasic(SILENT.classes[c].parent) && (!IsBasic(c) ==> SILENT.classes[c].attrs == []) {
      SilentClasses(c);
    }
    forall c, m | c in SILENT.classes && m in SILENT.classes[c].methods
      ensures SigOf(SIGS, c, m) && (m.body.Native? <==> !c.User?) && SameAsParent(SILENT, SIGS, c, m.name)
    {
      SilentSigs(c, m);
    }
  }

  lemma SilentBody()
    requires Hierarchy(SILENT) && MAIN in SILENT.classes
    ensures Analyze(SILENT, SIGS, MAIN, map[], UNCHECKED) == Verdict(INT, false, true)
  {
    hide Hierarchy;
    var e1, e2 := Comp(IntConst(1)), IntConst(0);
    assert Analyze(SILENT, SIGS, MAIN, map[], IntConst(1)) == Verdict(INT, false, false);
    assert Analyze(SILENT, SIGS, MAIN, map[], e1) == Verdict(NoType, false, true);
    assert [e1, e2][1..] == [e2];
    assert AnalyzeAll(SILENT, SIGS, MAIN, map[], [e2]) == Verdicts([INT], false, false);
    assert AnalyzeAll(SILENT, SIGS, MAIN, map[], [e1, e2]) == Verdicts([NoType, INT], false, true);
  }

  /** The only check of the program that fails is not reported. */
  lemma SilentAnalyzed()
    requires Hierarchy(SILENT) && Declarations(SILENT, SIGS) && MAIN in SILENT.classes && SigOf(SIGS, MAIN, MAINI)
    requires (MAIN, MAINMETH) in SIGS && SameAsParent(SILENT, SIGS, MAIN, MAINMETH)
    ensures AnalyzeMethod(SILENT, SIGS, MAIN, MAINI) == Verdict(INT, false, true)
  {
    hide Hierarchy, Declarations, Analyze, SameAsParent;
    SilentBody();
    assert FormalTypes([], []) == map[];
    assert INT.c in SILENT.classes;
  }

  lemma SilentAccepted()
    requires Hierarchy(SILENT)
    ensures Declarations(SILENT, SIGS) && Accepts(SILENT, SIGS) && !NothingSkipped(SILENT, SIGS)
  {
    hide Hierarchy, Declarations, AnalyzeMethod, AnalyzeAttr, SameAsParent, SILENT;
    SilentDeclarations();
    SilentHere();
    SilentSigs(MAIN, MAINI);
    SilentAnalyzed();
    forall c, m | c in SILENT.classes && m in SILENT.classes[c].methods && m.body.Code?
      ensures SigOf(SIGS, c, m) && !AnalyzeMethod(SILENT, SIGS, c, m).reported
    {
      SilentMethod(c, m);
    }
    forall c | c in SILENT.classes && c.User? ensures SILENT.classes[c].attrs == [] {
      SilentClasses(c);
    }
  }

  lemma SilentHere()
    ensures MAIN in SILENT.classes && MAINI in SILENT.classes[MAIN].methods
  {
  }

  lemma SilentInit(fuel: nat, st: Store)
    requires Hierarchy(SILENT) && fuel >= 1 && MAIN in SILENT.classes
    ensures Init(SILENT, fuel, MAIN, VObj(0), st) == Val(VObj(0), map[], st)
  {
    hide Hierarchy, Init, EvalSeq;
    var none := EvalSeq(SILENT, fuel, MAIN, VObj(0), map[], st, []);
    EmptySeq(SILENT, fuel, MAIN, VObj(0), st);
    EmptySeq(SILENT, fuel - 1, ObjectC, VObj(0), st);
    InitCases(SILENT, fuel, MAIN, VObj(0), st);
    InitCases(SILENT, fuel - 1, ObjectC, VObj(0), st);
    assert InitExprs([]) == [];
  }

  lemma SilentEval(P: Program, fuel: nat, env: Env, st: Store)
    requires Hierarchy(P)
    ensures Eval(P, fuel, MAIN, VObj(0), env, st, UNCHECKED) == Wrong
  {
    hide Hierarchy;
    assert Eval(P, fuel, MAIN, VObj(0), env, st, IntConst(1)) == Val(VInt(1), env, st);
    assert Eval(P, fuel, MAIN, VObj(0), env, st, Comp(IntConst(1))) == Wrong;
  }

  /**
    The checker accepts the example, because it does not report the failing check; its main method then
    complements an Int, with which the interpreter goes wrong.
   */
  lemma AcceptedYetWrong(fuel: nat)
    requires fuel >= 1
    ensures WellFormed(SILENT) && Hierarchy(SILENT) && Starts(SILENT)
    ensures Declarations(SILENT, SIGS) && Accepts(SILENT, SIGS) && !NothingSkipped(SILENT, SIGS)
    ensures RunProgram(SILENT, fuel) == Wrong
  {
    hide Hierarchy, Init, Call, Eval, WellFormed, Declarations, Accepts, NothingSkipped, Flat, RootClass, RunProgram, SILENT, SIGS, Starts, AttrLayout, Defaults, Declares, Nearest;
    SilentOK();
    SilentFlat();
    SilentAccepted();
    SilentMethods();
    SilentHere();
    RunCases(SILENT, fuel);
    var st := Store([Obj(MAIN, Defaults(AttrLayout(SILENT, MAIN)))], []);
    SilentInit(fuel, st);
    CallCases(SILENT, fuel, MAIN, VObj(0), MAINMETH, [], st);
    SilentEval(SILENT, fuel, Bind([], []), st);
  }
}
