/**
  A program that passes semantic analysis and that the generator does not translate faithfully, because
  it creates an object of a class that redefines `copy`:

    class A { copy() : SELF_TYPE { { 1 / 0; self; } }; };
    class Main { a : A <- new A; main() : A { a }; };
 */
module CopyOverridden {
  import opened CoolNames
  import opened Inheritance
  import opened CoolSyntax
  import opened Layout
  import opened ClassTags
  import opened CoolSemantics
  import opened Mips
  import opened CodeGen
  import opened CodeGenEquations
  import opened SemanticsEquations
  import opened ProgramImage
  import opened SimRel
  import opened SimFrame
  import opened SimSteps
  import opened SimCalls
  import opened SimObjects
  import opened SimDispatch
  import opened SimMethods
  import opened SimCreation
  import opened SimSpecialNew
  import opened Correctness
  import opened WholeProgram
  import opened NewCopy

  const A: ClassName := User("A")
  const DIVIDE: Expr := Arith(OpDiv, IntConst(1), IntConst(0))
  const COPYA: Method := Method(COPY, [], Code(Block([DIVIDE, Object(SELF)])))
  const MAINM: Method := Method(MAINMETH, [], Code(Object("a")))

  const EXAMPLE: Program := Program(
    map[ObjectC := Class(NoClass, [], [Method(COPY, [], Native(RtCopy))]),
        IntC := Class(ObjectC, [Attr("_val", PrimSlot, NoExpr(PrimSlot))], []),
        BoolC := Class(ObjectC, [Attr("_val", PrimSlot, NoExpr(PrimSlot))], []),
        StringC := Class(ObjectC, [Attr("_val", Of(IntC), NoExpr(Of(IntC))), Attr("_str_field", PrimSlot, NoExpr(PrimSlot))], []),
        A := Class(ObjectC, [], [COPYA]),
        MAIN := Class(ObjectC, [Attr("a", Of(A), New(A))], [MAINM])],
    [ObjectC, IntC, BoolC, StringC, A, MAIN],
    map[ObjectC := 0, IntC := 1, BoolC := 2, StringC := 3, A := 4, MAIN := 5],
    map[ObjectC := 5, IntC := 1, BoolC := 2, StringC := 3, A := 4, MAIN := 5])

  // ---------------------------------------------------------------------------------------------
  // Programs in which every class is a child of Object.

  ghost predicate Flat(P: Program) {
    && ObjectC in P.classes && NoClass !in P.classes && P.classes[ObjectC].parent == NoClass
    && forall c {:trigger P.classes[c]} :: c in P.classes && c != ObjectC ==> P.classes[c].parent == ObjectC
  }

  lemma FlatHierarchy(P: Program)
    requires Flat(P)
    ensures Hierarchy(P)
  {
    var g := Parents(P);
    assert Top(g, NoClass, 0);
    assert Top(g, ObjectC, 1);
    forall c | c in g ensures Ends(g, c) {
      assert c != ObjectC ==> Top(g, c, 2);
    }
    forall c | c in g && c != ObjectC ensures HasParent(g, c) {
    }
  }

  lemma FlatInherits(P: Program, c: ClassName, d: ClassName)
    requires Flat(P) && Hierarchy(P) && c in P.classes && d in P.classes
    ensures Inherits(P, c, d) <==> d == c || d == ObjectC
  {
    var g := Parents(P);
    HeightParent(g, c);
    assert Anc(g, ObjectC, d) <==> d == ObjectC;
  }

  lemma FlatNearest(P: Program, c: ClassName, m: Name)
    requires Flat(P) && Hierarchy(P) && c in P.classes
    ensures Nearest(P, c, m) == if Declares(P.classes[c], m) then c else if Declares(P.classes[ObjectC], m) then ObjectC else NoClass
  {
    assert c != ObjectC ==> Up(P, c) == ObjectC;
    assert Up(P, ObjectC) == NoClass;
  }

  // ---------------------------------------------------------------------------------------------
  // The example passes semantic analysis.

  lemma Names()
    ensures A != MAIN && "_val" != "_str_field" && "a" != SELF && "_val" != SELF && "_str_field" != SELF && MAINMETH != COPY
  {
    assert |"A"| != |"Main"| && |"_val"| != |"_str_field"| && |"a"| != |SELF| && |"_str_field"| != |SELF|;
    assert "_val"[0] != SELF[0] && "main"[0] != "copy"[0];
  }

  lemma ExampleFlat()
    ensures Flat(EXAMPLE) && Hierarchy(EXAMPLE) && RootClass(EXAMPLE)
  {
    Names();
    FlatHierarchy(EXAMPLE);
  }

  lemma ExampleTags()
    requires Hierarchy(EXAMPLE) && Flat(EXAMPLE)
    ensures TagsOK(EXAMPLE)
  {
    Names();
    forall c, d | c in EXAMPLE.classes && d in EXAMPLE.classes ensures TagPair(EXAMPLE, c, d) {
      FlatInherits(EXAMPLE, c, d);
    }
  }

  lemma OneMethodIs(cls: Class, m: Method)
    requires cls.methods == [m]
    ensures Declares(cls, m.name) && Decl(cls, m.name) == m && forall x :: Declares(cls, x) <==> x == m.name
  {
    assert cls.methods[0].name == m.name;
  }

  lemma ExampleCopies()
    requires Hierarchy(EXAMPLE) && Flat(EXAMPLE)
    ensures CopyIsRuntime(EXAMPLE, ObjectC) && CopyIsRuntime(EXAMPLE, IntC)
    ensures Nearest(EXAMPLE, A, COPY) == A && Decl(EXAMPLE.classes[A], COPY) == COPYA && !CopyIsRuntime(EXAMPLE, A)
    ensures Nearest(EXAMPLE, MAIN, MAINMETH) == MAIN && Decl(EXAMPLE.classes[MAIN], MAINMETH) == MAINM
  {
    Names();
    OneMethodIs(EXAMPLE.classes[ObjectC], Method(COPY, [], Native(RtCopy)));
    OneMethodIs(EXAMPLE.classes[A], COPYA);
    OneMethodIs(EXAMPLE.classes[MAIN], MAINM);
    FlatNearest(EXAMPLE, ObjectC, COPY);
    FlatNearest(EXAMPLE, IntC, COPY);
    FlatNearest(EXAMPLE, A, COPY);
    FlatNearest(EXAMPLE, MAIN, MAINMETH);
  }

  lemma ExampleClass(c: ClassName)
    requires Hierarchy(EXAMPLE) && RootClass(EXAMPLE) && c in EXAMPLE.classes
    ensures ClassOK(EXAMPLE, c)
  {
    ExampleMethods(c);
    ExampleAttrs(c);
    ExampleLayout(c);
    hide AttrLayout, EXAMPLE, Hierarchy, RootClass;
  }

  lemma ExampleLayout(c: ClassName)
    requires Hierarchy(EXAMPLE) && RootClass(EXAMPLE) && c in EXAMPLE.classes
    ensures AttrLayout(EXAMPLE, c) == EXAMPLE.classes[c].attrs
  {
    if c == ObjectC {
      assert AttrLayout(EXAMPLE, NoClass) == [];
    } else {
      RootLayout(EXAMPLE, c);
    }
  }

  lemma ExampleMethods(c: ClassName)
    requires c in EXAMPLE.classes
    ensures MethodsOK(EXAMPLE.classes[c])
  {
  }

  lemma ExampleAttrs(c: ClassName)
    requires c in EXAMPLE.classes
    ensures var attrs := EXAMPLE.classes[c].attrs;
      && (forall i :: 0 <= i < |attrs| ==> attrs[i].name != SELF)
      && forall i, j :: 0 <= i < j < |attrs| ==> attrs[i].name != attrs[j].name
  {
    Names();
  }

  lemma ExampleOK()
    ensures WellFormed(EXAMPLE) && HasMain(EXAMPLE) && Hierarchy(EXAMPLE) && !CreatedOK(EXAMPLE)
  {
    hide Hierarchy, TagsOK, BasicsOK, CopyIsRuntime, ClassOK, Flat, RootClass, EXAMPLE, Distinct, Created, HasMain;
    ExampleFlat();
    ExampleTags();
    ExampleBasics();
    ExampleCopies();
    forall c | c in EXAMPLE.classes ensures ClassOK(EXAMPLE, c) {
      ExampleClass(c);
    }
    ExampleOrder();
    ExampleCreates();
    ExampleMain();
  }

  lemma ExampleBasics()
    requires Hierarchy(EXAMPLE) && Flat(EXAMPLE)
    ensures BasicsOK(EXAMPLE)
  {
    ExampleCopies();
    hide CopyIsRuntime, Hierarchy, Flat;
  }

  lemma ExampleMain()
    ensures HasMain(EXAMPLE) && A in EXAMPLE.classes && MAIN in EXAMPLE.classes
  {
    Names();
    OneMethodIs(EXAMPLE.classes[MAIN], MAINM);
  }

  lemma ExampleOrder()
    ensures (forall c :: c in EXAMPLE.order <==> c in EXAMPLE.classes) && Distinct(EXAMPLE.order)
  {
    Names();
  }

  lemma ExampleCreates()
    ensures Created(EXAMPLE, A)
  {
    Names();
    var a := Attr("a", Of(A), New(A));
    assert a in EXAMPLE.classes[MAIN].attrs && Creates(a.init, A);
  }

  // ---------------------------------------------------------------------------------------------
  // The interpreter ends it with a value.

  lemma InitObject(fuel: nat, self: Value, st: Store)
    requires Hierarchy(EXAMPLE) && RootClass(EXAMPLE)
    ensures Init(EXAMPLE, fuel, ObjectC, self, st) == Val(self, map[], st)
  {
    InitCases(EXAMPLE, fuel, ObjectC, self, st);
    NoInits(EXAMPLE, fuel, ObjectC, self, st, map[], 0);
  }

  lemma InitA(fuel: nat, self: Value, st: Store)
    requires Hierarchy(EXAMPLE) && RootClass(EXAMPLE) && fuel >= 1
    ensures Init(EXAMPLE, fuel, A, self, st) == Val(self, map[], st)
  {
    Names();
    InitCases(EXAMPLE, fuel, A, self, st);
    InitObject(fuel - 1, self, st);
    NoInits(EXAMPLE, fuel, A, self, st, map[], 0);
  }

  lemma EvalNewA(fuel: nat, cls: ClassName, self: Value, env: Env, st: Store)
    requires Hierarchy(EXAMPLE) && RootClass(EXAMPLE) && fuel >= 2
    ensures Eval(EXAMPLE, fuel, cls, self, env, st, New(A)) == Val(VObj(|st.objs|), env, st.(objs := st.objs + [Obj(A, map[])]))
  {
    hide *;
    CreateA(fuel - 1, st);
    EvalNew(EXAMPLE, fuel, cls, self, env, st, New(A));
    ReturnTo(env, VObj(|st.objs|), st.(objs := st.objs + [Obj(A, map[])]));
  }

  lemma ReturnTo(env: Env, v: Value, st: Store)
    ensures Return(env, Val(v, map[], st)) == Val(v, env, st)
  {
  }

  lemma CreateA(fuel: nat, st: Store)
    requires Hierarchy(EXAMPLE) && RootClass(EXAMPLE) && fuel >= 1
    ensures Create(EXAMPLE, fuel, A, st) == Val(VObj(|st.objs|), map[], st.(objs := st.objs + [Obj(A, map[])]))
  {
    hide Create, Init, Hierarchy, RootClass, AttrLayout;
    Names();
    ExampleLayout(A);
    CreateCases(EXAMPLE, fuel, A, st);
    InitA(fuel, VObj(|st.objs|), st.(objs := st.objs + [Obj(A, map[])]));
  }

  lemma ExampleValue(fuel: nat)
    requires Hierarchy(EXAMPLE) && Flat(EXAMPLE) && RootClass(EXAMPLE) && fuel >= 2
    ensures RunProgram(EXAMPLE, fuel).Val? && RunProgram(EXAMPLE, fuel).st.out == []
  {
    Names();
    ExampleCopies();
    RunCases(EXAMPLE, fuel);
    var st := Store([Obj(MAIN, Defaults(AttrLayout(EXAMPLE, MAIN)))], []);
    var o := Init(EXAMPLE, fuel, MAIN, VObj(0), st);
    InitCases(EXAMPLE, fuel, MAIN, VObj(0), st);
    InitObject(fuel - 1, VObj(0), st);
    InitMain(fuel, st);
    CallCases(EXAMPLE, fuel, MAIN, VObj(0), MAINMETH, [], o.st);
    ReadA(fuel, o.st);
  }

  lemma InitMain(fuel: nat, st: Store)
    requires Hierarchy(EXAMPLE) && Flat(EXAMPLE) && RootClass(EXAMPLE) && fuel >= 2
    requires st == Store([Obj(MAIN, Defaults(AttrLayout(EXAMPLE, MAIN)))], [])
    ensures var o := EvalSeq(EXAMPLE, fuel, MAIN, VObj(0), map[], st, InitExprs(EXAMPLE.classes[MAIN].attrs));
      o.Val? && o.st.out == [] && |o.st.objs| == 2 && o.st.objs[0].cls == MAIN && "a" in o.st.objs[0].attrs
  {
    hide Eval, EvalSeq, Defaults, AttrLayout, Hierarchy, RootClass, Flat;
    Names();
    ExampleLayout(MAIN);
    DefaultsMain(AttrLayout(EXAMPLE, MAIN));
    EvalNewA(fuel, MAIN, VObj(0), map[], st);
    MainInits();
    AssignA(fuel, st);
  }

  lemma MainInits()
    requires MAIN in EXAMPLE.classes
    ensures InitExprs(EXAMPLE.classes[MAIN].attrs) == [Assign("a", New(A))]
  {
    Names();
  }

  lemma DefaultsMain(layout: seq<Attr>)
    requires layout == [Attr("a", Of(A), New(A))]
    ensures Defaults(layout) == map["a" := VVoid]
  {
    assert layout[..0] == [];
  }

  /** a <- new A */
  lemma AssignA(fuel: nat, st: Store)
    requires Hierarchy(EXAMPLE) && MAIN in EXAMPLE.classes && AttrLayout(EXAMPLE, MAIN) == [Attr("a", Of(A), New(A))]
    requires st == Store([Obj(MAIN, map["a" := VVoid])], [])
    requires Eval(EXAMPLE, fuel, MAIN, VObj(0), map[], st, New(A)) == Val(VObj(1), map[], st.(objs := st.objs + [Obj(A, map[])]))
    ensures var o := EvalSeq(EXAMPLE, fuel, MAIN, VObj(0), map[], st, [Assign("a", New(A))]);
      o.Val? && o.st.out == [] && |o.st.objs| == 2 && o.st.objs[0].cls == MAIN && "a" in o.st.objs[0].attrs
  {
    hide EXAMPLE, Hierarchy, AttrLayout;
    Names();
    var st1 := st.(objs := st.objs + [Obj(A, map[])]);
    assert AttrLayout(EXAMPLE, MAIN)[0].name == "a";
    assert WriteVar(EXAMPLE, MAIN, VObj(0), map[], st1, "a", VObj(1)).Val?;
  }

  lemma ReadA(fuel: nat, st: Store)
    requires Hierarchy(EXAMPLE) && Flat(EXAMPLE) && RootClass(EXAMPLE)
    requires |st.objs| == 2 && st.objs[0].cls == MAIN && "a" in st.objs[0].attrs
    ensures Eval(EXAMPLE, fuel, MAIN, VObj(0), Bind([], []), st, Object("a")).Val?
    ensures Eval(EXAMPLE, fuel, MAIN, VObj(0), Bind([], []), st, Object("a")).st == st
    ensures Inherits(EXAMPLE, MAIN, MAIN)
  {
    hide Eval, Hierarchy, RootClass, AttrLayout;
    Names();
    ExampleLayout(MAIN);
    FlatInherits(EXAMPLE, MAIN, MAIN);
    AttributeRead(fuel, st);
  }

  lemma AttributeRead(fuel: nat, st: Store)
    requires Hierarchy(EXAMPLE) && MAIN in EXAMPLE.classes && AttrLayout(EXAMPLE, MAIN) == [Attr("a", Of(A), New(A))]
    requires |st.objs| == 2 && st.objs[0].cls == MAIN && "a" in st.objs[0].attrs
    ensures Eval(EXAMPLE, fuel, MAIN, VObj(0), map[], st, Object("a")).Val?
    ensures Eval(EXAMPLE, fuel, MAIN, VObj(0), map[], st, Object("a")).st == st
  {
    hide EXAMPLE, Hierarchy, AttrLayout;
    Names();
    assert AttrLayout(EXAMPLE, MAIN)[0].name == "a";
  }

  // ---------------------------------------------------------------------------------------------
  // The machine divides by zero.

  /** The example and its image. */
  ghost predicate Built(k: Ctx) {
    && k.P == EXAMPLE && Hierarchy(EXAMPLE) && OrderKnown(EXAMPLE) && Flat(EXAMPLE) && RootClass(EXAMPLE)
    && k.img.text == ProgramText(EXAMPLE) && ImageOK(k)
    && CopyIsRuntime(EXAMPLE, ObjectC) && CopyIsRuntime(EXAMPLE, IntC) && IntC in EXAMPLE.classes && MAIN in EXAMPLE.classes
  }

  /** The blocks of the literals 0 and 1. */
  ghost predicate Literals(P: Program, h: Heap) {
    forall n {:trigger IntObj(n)} :: IntObj(n) in h && h[IntObj(n)] == IntWords(P, n)
  }

  ghost predicate Ready(s: State) {
    s.sp.Stk? && s.out == [] && Literals(EXAMPLE, s.heap) && Dyn(s.next) !in s.heap
  }

  lemma LaRun(img: Image, s: State, r: ObjRef) returns (t: State)
    requires CodeAt(img.text, s.pc, [La(ACC, r)])
    ensures Runs(img, 1, s, t) && t == s.(pc := s.pc + 1, acc := Ref(r))
  {
    Fetch(img, s.pc, [La(ACC, r)], 0);
    t := s.(pc := s.pc + 1, acc := Ref(r));
    LaStep(img, s, r);
    RunsOne(img, s, t);
  }

  /** The code of the division, piece by piece. */
  lemma DividePieces(k: Ctx, pc: nat, cls: ClassName, env: Scope, tmp: int, l: int)
    requires Hierarchy(k.P) && CodeAt(k.img.text, pc, Compile(k.P, cls, env, tmp, DIVIDE, l).code)
    ensures CodeAt(k.img.text, pc, [La(ACC, IntObj(1))]) && CodeAt(k.img.text, pc + 1, PUSH)
    ensures CodeAt(k.img.text, pc + 3, [La(ACC, IntObj(0))]) && CodeAt(k.img.text, pc + 4, ArithTail(k.P, OpDiv))
  {
    hide CodeAt, ArithTail, Hierarchy;
    CompileArith(k.P, cls, env, tmp, DIVIDE, l);
    var a, b, tail := [La(ACC, IntObj(1))], [La(ACC, IntObj(0))], ArithTail(k.P, OpDiv);
    assert Compile(k.P, cls, env, tmp, DIVIDE, l).code == a + (PUSH + (b + tail));
    CodeSplit(k.img.text, pc, a, PUSH + (b + tail));
    CodeSplit(k.img.text, pc + 1, PUSH, b + tail);
    CodeSplit(k.img.text, pc + 3, b, tail);
  }

  lemma DivideHalts(k: Ctx, s: State, cls: ClassName, env: Scope, tmp: int, l: int) returns (n: nat)
    requires Built(k) && Ready(s) && CodeAt(k.img.text, s.pc, Compile(k.P, cls, env, tmp, DIVIDE, l).code)
    ensures Halts(k.img, n, s, Faulted(ArithFault), [])
  {
    hide Hierarchy, ImageOK, CodeAt, Runs, Halts, Compile, ArithTail, CopyIsRuntime, ProgramText, IntWords, PUSH, EXAMPLE, RootClass, Flat;
    DividePieces(k, s.pc, cls, env, tmp, l);
    var s1 := LaRun(k.img, s, IntObj(1));
    PushRun(k.img, s1);
    var s2 := PushState(s1, s1.acc);
    RunsTrans(k.img, 1, 2, s, s1, s2);
    var s3 := LaRun(k.img, s2, IntObj(0));
    RunsTrans(k.img, 3, 1, s, s2, s3);
    LiteralInt(k.P, s.heap, 1);
    var t := ArithRun(k, s3, OpDiv, 1, 0);
    HaltsTrans(k.img, 4, 6, s, s3, Faulted(ArithFault), []);
    n := 10;
  }

  lemma LiteralInt(P: Program, h: Heap, n: int)
    requires Literals(P, h)
    ensures HasInt(h, Ref(IntObj(n)), n)
  {
  }

  /** The code of A.copy up to the division. */
  lemma CopyAPieces(k: Ctx, pc: nat, l: int)
    requires Hierarchy(k.P) && A in k.P.classes && CodeAt(k.img.text, pc, MethodCode(k.P, A, COPYA, l).code)
    ensures CodeAt(k.img.text, pc, [LabelDef(MethodLabel(A, COPY))] + ENTER)
    ensures CodeAt(k.img.text, pc + 7, Compile(k.P, A, MethodScope(k.P, A, []), -3, DIVIDE, l).code)
  {
    hide CodeAt, Hierarchy, MethodScope, Compile, Exit, ENTER;
    var env := MethodScope(k.P, A, []);
    var es := [DIVIDE, Object(SELF)];
    var g0 := Compile(k.P, A, env, -3, DIVIDE, l);
    CompileBlock(k.P, A, env, -3, Block(es), l);
    CompileSeqMore(k.P, A, env, -3, es, l);
    EnterSize();
    var rest := CompileSeq(k.P, A, env, -3, es[1..], g0.next).code;
    var head := [LabelDef(MethodLabel(A, COPY))];
    assert head + (ENTER + ((g0.code + rest) + Exit(0))) == (head + ENTER) + (g0.code + (rest + Exit(0)));
    CodeSplit(k.img.text, pc, head + ENTER, g0.code + (rest + Exit(0)));
    CodeSplit(k.img.text, pc + 7, g0.code, rest + Exit(0));
  }

  lemma EnterSize()
    ensures |ENTER| == 6
  {
  }

  /** `new A` enters A.copy and faults there. */
  lemma NewAHalts(k: Ctx, s: State) returns (n: nat)
    requires Built(k) && Ready(s) && CodeAt(k.img.text, s.pc, NewCode(k.P, A))
    ensures Halts(k.img, n, s, Faulted(ArithFault), [])
  {
    hide ImageOK, CodeAt, Runs, Halts, Compile, CopyIsRuntime, ProgramText, NewCode, MethodCode, Hierarchy, MethodScope, ENTER, RootClass, Flat, EXAMPLE, Literals;
    ExampleMain();
    ExampleCopies();
    var t := NewCopies(k, s, A);
    var l :| CodeAt(k.img.text, t.pc, MethodCode(k.P, A, COPYA, l).code);
    CopyAPieces(k, t.pc, l);
    EnterRun(k.img, t, MethodLabel(A, COPY));
    var u := EnterState(t);
    var m := DivideHalts(k, u, A, MethodScope(k.P, A, []), -3, l);
    RunsTrans(k.img, 2, 7, s, t, u);
    HaltsTrans(k.img, 9, m, s, u, Faulted(ArithFault), []);
    n := 9 + m;
  }

  /** Main_init, from its label to the code of `a <- new A`. */
  lemma MainInitPieces(k: Ctx)
    requires Built(k)
    ensures var pc := Find(k.img.text, InitLabel(MAIN));
      && CodeAt(k.img.text, pc, [LabelDef(InitLabel(MAIN))] + ENTER) && CodeAt(k.img.text, pc + 7, [Jal(InitLabel(ObjectC))])
      && CodeAt(k.img.text, pc + 8, NewCode(k.P, A))
  {
    hide CodeAt, Find, InitScope, Hierarchy, ImageOK, CopyIsRuntime, RootClass, ProgramText, NewCode, ENTER, Exit;
    var l := InitText(k, MAIN);
    InitPieces(k, MAIN, l);
    ParentCall(k.P, MAIN);
    AttributeCode(k, l);
    var store := CompileSeq(k.P, MAIN, InitScope(k.P, MAIN), -3, InitExprs(k.P.classes[MAIN].attrs), l).code[3..];
    CodeSplit(k.img.text, Find(k.img.text, InitLabel(MAIN)) + 8, NewCode(k.P, A), store);
  }

  lemma AttributeCode(k: Ctx, l: int)
    requires Hierarchy(k.P) && k.P == EXAMPLE && MAIN in EXAMPLE.classes
    ensures var code := CompileSeq(k.P, MAIN, InitScope(k.P, MAIN), -3, InitExprs(k.P.classes[MAIN].attrs), l).code;
      |NewCode(k.P, A)| == 3 && |code| >= 3 && code == NewCode(k.P, A) + code[3..]
      && |ParentInit(k.P, MAIN)| == 1 && k.P.classes[MAIN].parent == ObjectC
  {
    MainInits();
    NewSize(k);
    hide EXAMPLE, Hierarchy, NewCode, Compile, CompileSeq, InitScope;
    var env := InitScope(k.P, MAIN);
    var es := [Assign("a", New(A))];
    CompileSeqMore(k.P, MAIN, env, -3, es, l);
    CompileAssign(k.P, MAIN, env, -3, es[0], l);
    CompileNewA(k, env, l);
  }

  lemma NewSize(k: Ctx)
    requires Hierarchy(k.P) && k.P == EXAMPLE && MAIN in EXAMPLE.classes
    ensures |NewCode(k.P, A)| == 3 && |ParentInit(k.P, MAIN)| == 1 && k.P.classes[MAIN].parent == ObjectC
  {
    Names();
  }

  lemma CompileNewA(k: Ctx, env: Scope, l: int)
    requires Hierarchy(k.P)
    ensures Compile(k.P, MAIN, env, -3, New(A), l) == Gen(NewCode(k.P, A), l)
  {
  }

  /** From the start to `new A`. */
  lemma StartRun(k: Ctx, top: int) returns (n: nat, t: State)
    requires Built(k)
    ensures Runs(k.img, n, InitialState(k.P, top), t) && Ready(t) && t.pc == Find(k.img.text, InitLabel(MAIN)) + 8
  {
    hide ImageOK, CodeAt, Runs, CopyIsRuntime, ProgramText, Hierarchy, RootClass, Flat, EXAMPLE, Literals, Find, InitialHeap, ENTER, ProtoWords;
    var s := InitialState(k.P, top);
    BootHere(k.P);
    RootIs(k.P);
    StartHeap(k.P);
    BootCode(k.img);
    var s1 := LaRun(k.img, s, Proto(MAIN));
    CopyLabelObject(k);
    CallCopy(k, ObjectC, s1);
    var s2 := CopyState(s1, 2, s1.heap[Proto(MAIN)]);
    var s3 := JalRun(k.img, s2, InitLabel(MAIN));
    CallState(s2, k.img.text, 3, InitLabel(MAIN), s3);
    MainInitPieces(k);
    EnterRun(k.img, s3, InitLabel(MAIN));
    var s4 := EnterState(s3);
    var s5 := JalRun(k.img, s4, InitLabel(ObjectC));
    CallState(s4, k.img.text, s4.pc + 1, InitLabel(ObjectC), s5);
    var m;
    m, t := ObjectInitRun(k, s5);
    RunsTrans(k.img, 1, 3, s, s1, s2);
    RunsTrans(k.img, 4, 1, s, s2, s3);
    RunsTrans(k.img, 5, 7, s, s3, s4);
    RunsTrans(k.img, 12, 1, s, s4, s5);
    RunsTrans(k.img, 13, m, s, s5, t);
    n := 13 + m;
    AfterCopy(s1.heap, s1.heap[Proto(MAIN)]);
  }

  lemma RootIs(P: Program)
    requires RootClass(P)
    ensures ObjectC in P.classes && P.classes[ObjectC].parent == NoClass
  {
  }

  lemma BootCode(img: Image)
    requires CodeAt(img.text, 0, BOOT)
    ensures CodeAt(img.text, 0, [La(ACC, Proto(MAIN))]) && CodeAt(img.text, 1, [Jal(MethodLabel(ObjectC, COPY))])
    ensures CodeAt(img.text, 2, [Jal(InitLabel(MAIN))])
  {
    Fetch(img, 0, BOOT, 0);
    Fetch(img, 0, BOOT, 1);
    Fetch(img, 0, BOOT, 2);
  }

  lemma StartHeap(P: Program)
    requires Hierarchy(P) && MAIN in P.classes
    ensures Literals(P, InitialHeap(P)) && Proto(MAIN) in InitialHeap(P) && forall j: nat :: Dyn(j) !in InitialHeap(P)
  {
    hide IntWords, ProtoWords;
    NothingDynamic(P);
    StaticHere(P, Proto(MAIN));
    forall n ensures IntObj(n) in InitialHeap(P) && InitialHeap(P)[IntObj(n)] == IntWords(P, n) {
      StaticHere(P, IntObj(n));
    }
  }

  lemma AfterCopy(h: Heap, ws: seq<Word>)
    requires Literals(EXAMPLE, h) && forall j: nat :: Dyn(j) !in h
    ensures Literals(EXAMPLE, h[Dyn(0) := ws]) && Dyn(1) !in h[Dyn(0) := ws]
  {
    hide IntWords;
  }

  lemma CopyLabelObject(k: Ctx)
    requires Hierarchy(k.P) && ObjectC in k.P.classes && CopyIsRuntime(k.P, ObjectC) && k.P.classes[ObjectC].parent == NoClass
    ensures CopyLabel(k.P, ObjectC) == MethodLabel(ObjectC, COPY)
  {
    MethNearest(k.P, ObjectC);
    assert Up(k.P, ObjectC) == NoClass;
  }

  /**
    The example passes semantic analysis but creates a class that redefines `copy`.  Cool makes the object
    and the program ends with a value; the image enters the redefined `copy` and stops with a fault.
   */
  lemma CopyIsEntered(fuel: nat, top: int) returns (n: nat)
    ensures WellFormed(EXAMPLE) && HasMain(EXAMPLE) && Hierarchy(EXAMPLE) && !CreatedOK(EXAMPLE)
    ensures fuel >= 2 ==> RunProgram(EXAMPLE, fuel).Val?
    ensures OrderKnown(EXAMPLE) && forall i :: 0 <= i < |EXAMPLE.order| ==> EXAMPLE.order[i] in EXAMPLE.tag
    ensures Halts(ImageOf(EXAMPLE), n, InitialState(EXAMPLE, top), Faulted(ArithFault), [])
  {
    hide *;
    ExampleOK();
    ExampleFlat();
    ImageBuilt(EXAMPLE);
    var k := Ctx(EXAMPLE, ImageOf(EXAMPLE));
    ExampleBuilt(k);
    if fuel >= 2 {
      ExampleValue(fuel);
    }
    var m, t := StartRun(k, top);
    MainInitPieces(k);
    var j := NewAHalts(k, t);
    HaltsTrans(k.img, m, j, InitialState(EXAMPLE, top), t, Faulted(ArithFault), []);
    n := m + j;
  }

  lemma ExampleBuilt(k: Ctx)
    requires k.P == EXAMPLE && Hierarchy(EXAMPLE) && OrderKnown(EXAMPLE) && forall i :: 0 <= i < |EXAMPLE.order| ==> EXAMPLE.order[i] in EXAMPLE.tag
    requires k.img == ImageOf(EXAMPLE) && ImageOK(k)
    ensures Built(k)
  {
    hide ImageOK, ProgramText;
    ExampleFlat();
    ExampleCopies();
  }
}
