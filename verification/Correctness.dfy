/**
  The generator on whole programs: the emitted image is well formed, and running it prints and ends
  as the Cool program does.
 */
module Correctness {
  import opened CoolNames
  import opened Inheritance
  import opened CoolSyntax
  import opened Layout
  import opened ClassTags
  import opened CoolSemantics
  import opened Mips
  import opened CodeGen
  import opened CodeGenEquations
  import opened ProgramImage
  import opened Labels
  import opened SimRel
  import opened SimFrame
  import opened SimSteps
  import opened SimCalls
  import opened SimObjects
  import opened SimDispatch
  import opened SimConstructs
  import opened SimMethods
  import opened SimCreation
  import opened SimSpecialNew
  import opened Simulation
  import opened NewClasses

  // ---------------------------------------------------------------------------------------------
  // No label is defined twice.

  /** `m` is among the declarations, as a routine of the run-time system or with code of its own. */
  ghost predicate Has(decls: seq<Method>, m: Name, native: bool) {
    exists i :: 0 <= i < |decls| && decls[i].name == m && decls[i].body.Native? == native
  }

  ghost function OfMethods(lb: Label, c: ClassName, decls: seq<Method>, native: bool): nat {
    if lb.MethodLabel? && lb.c == c && Has(decls, lb.m, native) then 1 else 0
  }

  function OfLabel(lb: Label, lb': Label): nat {
    if lb == lb' then 1 else 0
  }

  /** Code that starts with the label `lb'`. */
  lemma HeadLabel(lb': Label, code: seq<Instr>, lb: Label)
    ensures Count([LabelDef(lb')] + code, lb) == OfLabel(lb, lb') + Count(code, lb)
  {
    CountConcat([LabelDef(lb')], code, lb);
    assert [LabelDef(lb')][1..] == [];
  }

  lemma FrameLabels(n: nat, lb: Label)
    ensures Count(ENTER, lb) == 0 && Count(Exit(n), lb) == 0 && Count([Move(ACC, SELFR)], lb) == 0
  {
    CountNone(ENTER, lb);
    CountNone(Exit(n), lb);
    CountNone([Move(ACC, SELFR)], lb);
  }

  lemma MethodLabels(P: Program, c: ClassName, m: Method, l: int, lb: Label)
    requires Hierarchy(P) && c in P.classes
    ensures var g := OneMethod(P, c, m, l);
      l <= g.next && Count(g.code, lb) <= Own(lb, l, g.next) + if m.body.Code? then OfLabel(lb, MethodLabel(c, m.name)) else 0
  {
    hide Compile, Hierarchy, Count, ENTER, Exit, MethodScope;
    if m.body.Code? {
      var g := Compile(P, c, MethodScope(P, c, m.formals), -3, m.body.e, l);
      ExprLabels(P, c, MethodScope(P, c, m.formals), -3, m.body.e, l, lb);
      HeadLabel(MethodLabel(c, m.name), ENTER + (g.code + Exit(|m.formals|)), lb);
      CountThree(ENTER, g.code, Exit(|m.formals|), lb);
      FrameLabels(|m.formals|, lb);
    } else {
      CountNone([], lb);
    }
  }

  lemma NativeLabels(c: ClassName, m: Method, lb: Label)
    requires m.body.Native?
    ensures Count(NativeCode(c, m), lb) == OfLabel(lb, MethodLabel(c, m.name))
  {
    assert NativeCode(c, m) == [LabelDef(MethodLabel(c, m.name))] + [Runtime(m.body.op)];
    HeadLabel(MethodLabel(c, m.name), [Runtime(m.body.op)], lb);
    CountNone([Runtime(m.body.op)], lb);
  }

  lemma {:induction false} MethodsLabels(P: Program, c: ClassName, decls: seq<Method>, l: int, lb: Label)
    requires Hierarchy(P) && c in P.classes
    requires forall i, j :: 0 <= i < j < |decls| ==> decls[i].name != decls[j].name
    ensures var g := MethodsCode(P, c, decls, l);
      l <= g.next && Count(g.code, lb) <= Own(lb, l, g.next) + OfMethods(lb, c, decls, false)
    decreases |decls|
  {
    hide OneMethod, Hierarchy;
    if decls != [] {
      var g0 := OneMethod(P, c, decls[0], l);
      var g1 := MethodsCode(P, c, decls[1..], g0.next);
      MethodLabels(P, c, decls[0], l, lb);
      MethodsLabels(P, c, decls[1..], g0.next, lb);
      CountConcat(g0.code, g1.code, lb);
      FirstOrRest(lb, c, decls, false);
    }
  }

  lemma {:induction false} NativesLabels(c: ClassName, decls: seq<Method>, lb: Label)
    requires forall i, j :: 0 <= i < j < |decls| ==> decls[i].name != decls[j].name
    ensures Count(NativesCode(c, decls), lb) <= OfMethods(lb, c, decls, true)
    decreases |decls|
  {
    hide NativeCode;
    if decls != [] {
      var first := if decls[0].body.Native? then NativeCode(c, decls[0]) else [];
      if decls[0].body.Native? {
        NativeLabels(c, decls[0], lb);
      }
      NativesLabels(c, decls[1..], lb);
      CountConcat(first, NativesCode(c, decls[1..]), lb);
      FirstOrRest(lb, c, decls, true);
    }
  }

  lemma FirstOrRest(lb: Label, c: ClassName, decls: seq<Method>, native: bool)
    requires decls != [] && forall i, j :: 0 <= i < j < |decls| ==> decls[i].name != decls[j].name
    ensures (if decls[0].body.Native? == native then OfLabel(lb, MethodLabel(c, decls[0].name)) else 0)
            + OfMethods(lb, c, decls[1..], native) <= OfMethods(lb, c, decls, native)
  {
    if lb.MethodLabel? && lb.c == c && Has(decls[1..], lb.m, native) {
      var i :| 0 <= i < |decls[1..]| && decls[1..][i].name == lb.m && decls[1..][i].body.Native? == native;
      assert decls[i + 1].name == lb.m;
    }
  }

  lemma InitLabels(P: Program, c: ClassName, l: int, lb: Label)
    requires Hierarchy(P) && c in P.classes
    ensures var g := InitCode(P, c, l);
      l <= g.next && Count(g.code, lb) <= Own(lb, l, g.next) + OfLabel(lb, InitLabel(c))
  {
    hide CompileSeq, Hierarchy, Count, ENTER, Exit, AttrScope, InitExprs, ParentInit;
    var es, scope := InitExprs(P.classes[c].attrs), AttrScope(AttrLayout(P, c));
    var g := CompileSeq(P, c, scope, -3, es, l);
    var tail := [Move(ACC, SELFR)] + Exit(0);
    SeqLabels(P, c, scope, -3, es, l, lb);
    HeadLabel(InitLabel(c), ENTER + (ParentInit(P, c) + (g.code + tail)), lb);
    CountThree(ENTER, ParentInit(P, c), g.code + tail, lb);
    CountThree(g.code, [Move(ACC, SELFR)], Exit(0), lb);
    FrameLabels(0, lb);
    ParentLabels(P, c, lb);
  }

  lemma ParentLabels(P: Program, c: ClassName, lb: Label)
    requires Hierarchy(P) && c in P.classes
    ensures Count(ParentInit(P, c), lb) == 0
  {
    CountNone(ParentInit(P, c), lb);
  }

  /** 1 when `lb` is the label of an initialiser or method of the program, generated or of the run-time system. */
  ghost function Declared(P: Program, lb: Label, native: bool): nat {
    if lb.Num? || lb.c !in P.classes then 0
    else if lb.InitLabel? then if native then 0 else 1
    else OfMethods(lb, lb.c, P.classes[lb.c].methods, native)
  }

  ghost function DeclaredIn(P: Program, lb: Label, cs: seq<ClassName>, native: bool): nat {
    if !lb.Num? && lb.c in cs then Declared(P, lb, native) else 0
  }

  lemma ClassLabels(P: Program, c: ClassName, l: int, lb: Label)
    requires Hierarchy(P) && c in P.classes && MethodsOK(P.classes[c])
    ensures var g := ClassCode(P, c, l);
      l <= g.next && Count(g.code, lb) <= Own(lb, l, g.next) + DeclaredIn(P, lb, [c], false)
  {
    hide InitCode, MethodsCode, Hierarchy, Has;
    var g0 := InitCode(P, c, l);
    InitLabels(P, c, l, lb);
    MethodsLabels(P, c, P.classes[c].methods, g0.next, lb);
    CountConcat(g0.code, MethodsCode(P, c, P.classes[c].methods, g0.next).code, lb);
  }

  lemma {:induction false} ClassesLabels(P: Program, cs: seq<ClassName>, l: int, lb: Label)
    requires Hierarchy(P) && Distinct(cs)
    requires forall i :: 0 <= i < |cs| ==> cs[i] in P.classes && MethodsOK(P.classes[cs[i]])
    ensures var g := ClassesCode(P, cs, l);
      l <= g.next && Count(g.code, lb) <= Own(lb, l, g.next) + DeclaredIn(P, lb, cs, false)
    decreases |cs|
  {
    hide ClassCode, Hierarchy, MethodsOK, Declared;
    if cs != [] {
      var g0 := ClassCode(P, cs[0], l);
      ClassLabels(P, cs[0], l, lb);
      ClassesLabels(P, cs[1..], g0.next, lb);
      CountConcat(g0.code, ClassesCode(P, cs[1..], g0.next).code, lb);
      assert cs[0] !in cs[1..];
      assert cs == [cs[0]] + cs[1..];
    }
  }

  lemma {:induction false} RuntimeLabels(P: Program, cs: seq<ClassName>, lb: Label)
    requires Distinct(cs)
    requires forall i :: 0 <= i < |cs| ==> cs[i] in P.classes && MethodsOK(P.classes[cs[i]])
    ensures Count(RuntimeCode(P, cs), lb) <= DeclaredIn(P, lb, cs, true)
    decreases |cs|
  {
    hide NativesCode, Has;
    if cs != [] {
      NativesLabels(cs[0], P.classes[cs[0]].methods, lb);
      RuntimeLabels(P, cs[1..], lb);
      CountConcat(NativesCode(cs[0], P.classes[cs[0]].methods), RuntimeCode(P, cs[1..]), lb);
      assert cs[0] !in cs[1..];
      assert cs == [cs[0]] + cs[1..];
    }
  }

  /** A method is generated or part of the run-time system, not both. */
  lemma EitherWay(P: Program, lb: Label)
    requires !lb.Num? && lb.c in P.classes ==> MethodsOK(P.classes[lb.c])
    ensures Declared(P, lb, false) + Declared(P, lb, true) <= 1
  {
    if lb.MethodLabel? && lb.c in P.classes && Has(P.classes[lb.c].methods, lb.m, false) {
      var decls := P.classes[lb.c].methods;
      var i :| 0 <= i < |decls| && decls[i].name == lb.m && decls[i].body.Native? == false;
      forall j | 0 <= j < |decls| && decls[j].name == lb.m ensures decls[j].body.Native? == false {
        assert i < j || j < i || i == j;
      }
    }
  }

  /** What a program that passes semantic analysis offers the generator. */
  lemma Visits(P: Program)
    requires WellFormed(P)
    ensures Hierarchy(P) && OrderKnown(P) && Distinct(P.order)
    ensures forall i :: 0 <= i < |P.order| ==> P.order[i] in P.classes && P.order[i] in P.tag && MethodsOK(P.classes[P.order[i]])
    ensures forall c :: c in P.classes ==> c in P.order && MethodsOK(P.classes[c])
  {
    forall c | c in P.classes ensures MethodsOK(P.classes[c]) {
      assert ClassOK(P, c);
    }
    forall i | 0 <= i < |P.order| ensures P.order[i] in P.classes && P.order[i] in P.tag && MethodsOK(P.classes[P.order[i]]) {
      assert P.order[i] in P.order;
      assert ClassOK(P, P.order[i]);
    }
  }

  lemma ProgramLabels(P: Program)
    requires WellFormed(P) && Hierarchy(P) && OrderKnown(P)
    ensures UniqueLabels(ProgramText(P))
  {
    hide WellFormed, Hierarchy, ClassesCode, RuntimeCode, Count, Declared, MethodsOK;
    Visits(P);
    forall lb {:trigger Count(ProgramText(P), lb)} ensures Count(ProgramText(P), lb) <= 1 {
      BootLabels(lb);
      ClassesLabels(P, P.order, 0, lb);
      RuntimeLabels(P, P.order, lb);
      EitherWay(P, lb);
      NotNumbered(P, lb, P.order);
      CountThree(BOOT, ClassesCode(P, P.order, 0).code, RuntimeCode(P, P.order), lb);
    }
  }

  lemma NotNumbered(P: Program, lb: Label, cs: seq<ClassName>)
    ensures lb.Num? ==> DeclaredIn(P, lb, cs, false) == 0 && DeclaredIn(P, lb, cs, true) == 0
  {
  }

  lemma BootLabels(lb: Label)
    ensures Count(BOOT, lb) == 0
  {
    CountNone(BOOT, lb);
  }

  // ---------------------------------------------------------------------------------------------
  // Every initialiser and every method is where its label is.

  lemma {:induction false} FindClass(P: Program, text: seq<Instr>, pc: nat, cs: seq<ClassName>, l: int, c: ClassName) returns (p: nat, l1: int)
    requires Hierarchy(P) && (forall i :: 0 <= i < |cs| ==> cs[i] in P.classes) && c in cs
    requires CodeAt(text, pc, ClassesCode(P, cs, l).code)
    ensures c in P.classes && CodeAt(text, p, ClassCode(P, c, l1).code)
    decreases |cs|
  {
    hide Hierarchy, ClassCode, CodeAt;
    var g0 := ClassCode(P, cs[0], l);
    CodeSplit(text, pc, g0.code, ClassesCode(P, cs[1..], g0.next).code);
    if cs[0] == c {
      p, l1 := pc, l;
    } else {
      p, l1 := FindClass(P, text, pc + |g0.code|, cs[1..], g0.next, c);
    }
  }

  lemma {:induction false} FindMethod(P: Program, text: seq<Instr>, pc: nat, c: ClassName, decls: seq<Method>, l: int, m: Method) returns (p: nat, l1: int)
    requires Hierarchy(P) && c in P.classes && m in decls && m.body.Code?
    requires CodeAt(text, pc, MethodsCode(P, c, decls, l).code)
    ensures CodeAt(text, p, OneMethod(P, c, m, l1).code)
    decreases |decls|
  {
    hide Hierarchy, OneMethod, CodeAt;
    var g0 := OneMethod(P, c, decls[0], l);
    CodeSplit(text, pc, g0.code, MethodsCode(P, c, decls[1..], g0.next).code);
    if decls[0] == m {
      p, l1 := pc, l;
    } else {
      p, l1 := FindMethod(P, text, pc + |g0.code|, c, decls[1..], g0.next, m);
    }
  }

  lemma {:induction false} FindNative(text: seq<Instr>, pc: nat, c: ClassName, decls: seq<Method>, m: Method) returns (p: nat)
    requires m in decls && m.body.Native? && CodeAt(text, pc, NativesCode(c, decls))
    ensures CodeAt(text, p, NativeCode(c, m))
    decreases |decls|
  {
    hide CodeAt, NativeCode;
    var first := if decls[0].body.Native? then NativeCode(c, decls[0]) else [];
    CodeSplit(text, pc, first, NativesCode(c, decls[1..]));
    if decls[0] == m {
      p := pc;
    } else {
      p := FindNative(text, pc + |first|, c, decls[1..], m);
    }
  }

  lemma {:induction false} FindNatives(P: Program, text: seq<Instr>, pc: nat, cs: seq<ClassName>, c: ClassName) returns (p: nat)
    requires (forall i :: 0 <= i < |cs| ==> cs[i] in P.classes) && c in cs && CodeAt(text, pc, RuntimeCode(P, cs))
    ensures c in P.classes && CodeAt(text, p, NativesCode(c, P.classes[c].methods))
    decreases |cs|
  {
    hide CodeAt, NativesCode;
    var first := NativesCode(cs[0], P.classes[cs[0]].methods);
    CodeSplit(text, pc, first, RuntimeCode(P, cs[1..]));
    if cs[0] == c {
      p := pc;
    } else {
      p := FindNatives(P, text, pc + |first|, cs[1..], c);
    }
  }

  lemma NativePlaced(P: Program, img: Image, c: ClassName, m: Method) returns (p: nat)
    requires WellFormed(P) && Hierarchy(P) && OrderKnown(P) && img.text == ProgramText(P) && c in P.classes
    requires m in P.classes[c].methods && m.body.Native?
    ensures CodeAt(img.text, p, NativeCode(c, m))
  {
    hide WellFormed, Hierarchy, ClassesCode, RuntimeCode, CodeAt, NativesCode, NativeCode;
    Visits(P);
    TextParts(P, img.text);
    var pc := |BOOT| + |ClassesCode(P, P.order, 0).code|;
    p := FindNatives(P, img.text, pc, P.order, c);
    p := FindNative(img.text, p, c, P.classes[c].methods, m);
  }

  lemma TextParts(P: Program, text: seq<Instr>)
    requires Hierarchy(P) && OrderKnown(P) && text == ProgramText(P)
    ensures CodeAt(text, 0, BOOT) && CodeAt(text, |BOOT|, ClassesCode(P, P.order, 0).code)
    ensures CodeAt(text, |BOOT| + |ClassesCode(P, P.order, 0).code|, RuntimeCode(P, P.order))
  {
    hide Hierarchy, ClassesCode, RuntimeCode, CodeAt;
    TextWhole(text);
    CodeSplit(text, 0, BOOT, ClassesCode(P, P.order, 0).code + RuntimeCode(P, P.order));
    CodeSplit(text, |BOOT|, ClassesCode(P, P.order, 0).code, RuntimeCode(P, P.order));
  }

  lemma LabelFound(text: seq<Instr>, p: nat, code: seq<Instr>, lb: Label)
    requires UniqueLabels(text) && CodeAt(text, p, code) && |code| > 0 && code[0] == LabelDef(lb)
    ensures Placed(Image(text, map[], map[]), lb, code) && Find(text, lb) == p
  {
    CodeIndex(text, p, code, 0);
    FindUnique(text, p, lb);
  }

  lemma InitHead(P: Program, c: ClassName, l: int)
    requires Hierarchy(P) && c in P.classes
    ensures |InitCode(P, c, l).code| > 0 && InitCode(P, c, l).code[0] == LabelDef(InitLabel(c))
  {
    hide CompileSeq, Hierarchy;
  }

  lemma MethodHead(P: Program, c: ClassName, m: Method, l: int)
    requires Hierarchy(P) && c in P.classes && m.body.Code?
    ensures |MethodCode(P, c, m, l).code| > 0 && MethodCode(P, c, m, l).code[0] == LabelDef(MethodLabel(c, m.name))
  {
    hide Compile, Hierarchy;
  }

  lemma NativeHead(c: ClassName, m: Method)
    requires m.body.Native?
    ensures |NativeCode(c, m)| > 0 && NativeCode(c, m)[0] == LabelDef(MethodLabel(c, m.name))
  {
  }

  lemma ClassPlaced(P: Program, img: Image, c: ClassName) returns (p: nat, l: int)
    requires WellFormed(P) && Hierarchy(P) && OrderKnown(P) && img.text == ProgramText(P) && c in P.classes
    ensures CodeAt(img.text, p, InitCode(P, c, l).code)
    ensures CodeAt(img.text, p + |InitCode(P, c, l).code|, MethodsCode(P, c, P.classes[c].methods, InitCode(P, c, l).next).code)
  {
    hide WellFormed, Hierarchy, ClassesCode, RuntimeCode, CodeAt, InitCode, MethodsCode;
    Visits(P);
    TextParts(P, img.text);
    p, l := FindClass(P, img.text, |BOOT|, P.order, 0, c);
    CodeSplit(img.text, p, InitCode(P, c, l).code, MethodsCode(P, c, P.classes[c].methods, InitCode(P, c, l).next).code);
  }

  lemma TextWhole(text: seq<Instr>)
    ensures CodeAt(text, 0, text)
  {
  }

  lemma PlacedIn(img: Image, lb: Label, code: seq<Instr>)
    requires Placed(Image(img.text, map[], map[]), lb, code)
    ensures Placed(img, lb, code)
  {
  }

  lemma InitIsPlaced(k: Ctx, c: ClassName)
    requires WellFormed(k.P) && Hierarchy(k.P) && OrderKnown(k.P) && k.img.text == ProgramText(k.P) && c in k.P.classes
    ensures InitPlaced(k, c)
  {
    hide WellFormed, Hierarchy, CodeAt, InitCode, ProgramText, Placed;
    ProgramLabels(k.P);
    var p, l := ClassPlaced(k.P, k.img, c);
    InitHead(k.P, c, l);
    LabelFound(k.img.text, p, InitCode(k.P, c, l).code, InitLabel(c));
    PlacedIn(k.img, InitLabel(c), InitCode(k.P, c, l).code);
  }

  lemma MethodIsPlaced(k: Ctx, c: ClassName, m: Method)
    requires WellFormed(k.P) && Hierarchy(k.P) && OrderKnown(k.P) && k.img.text == ProgramText(k.P)
    requires c in k.P.classes && m in k.P.classes[c].methods
    ensures MethodPlaced(k, c, m)
  {
    hide WellFormed, Hierarchy, CodeAt, InitCode, MethodCode, NativeCode, ProgramText, Placed;
    ProgramLabels(k.P);
    if m.body.Code? {
      var p, l := ClassPlaced(k.P, k.img, c);
      var p1, l1 := FindMethod(k.P, k.img.text, p + |InitCode(k.P, c, l).code|, c, k.P.classes[c].methods, InitCode(k.P, c, l).next, m);
      var code := MethodCode(k.P, c, m, l1).code;
      MethodHead(k.P, c, m, l1);
      LabelFound(k.img.text, p1, code, MethodLabel(c, m.name));
      PlacedIn(k.img, MethodLabel(c, m.name), code);
    } else {
      var p := NativePlaced(k.P, k.img, c, m);
      NativeHead(c, m);
      LabelFound(k.img.text, p, NativeCode(c, m), MethodLabel(c, m.name));
      PlacedIn(k.img, MethodLabel(c, m.name), NativeCode(c, m));
    }
  }

  // ---------------------------------------------------------------------------------------------
  // The tables.

  lemma {:induction false} ObjTableRow(P: Program, cs: seq<ClassName>, c: ClassName)
    requires WellFormed(P) && Hierarchy(P) && c in cs
    requires forall i :: 0 <= i < |cs| ==> cs[i] in P.classes && cs[i] in P.tag
    ensures P.tag[c] in ObjTable(P, cs) && ObjTable(P, cs)[P.tag[c]] == c
    decreases |cs|
  {
    hide WellFormed, Hierarchy;
    HasTagsOK(P);
    var n := |cs| - 1;
    assert cs == cs[..n] + [cs[n]];
    if c != cs[n] {
      ObjTableRow(P, cs[..n], c);
      TagsDistinct(P, c, cs[n]);
    }
  }

  lemma HasTagsOK(P: Program)
    requires WellFormed(P)
    ensures Hierarchy(P) && TagsOK(P)
  {
  }

  /** Where the text has the code of `new c`, the program has `new c`, or it is the start-up code. */
  lemma NewsPlaced(P: Program, k: Ctx)
    requires WellFormed(P) && CreatedOK(P) && Hierarchy(P) && OrderKnown(P) && k.P == P && k.img.text == ProgramText(P)
    ensures NewsOK(k)
  {
    hide WellFormed, CreatedOK, Hierarchy, ProgramText, CopyIsRuntime, Created, NewCode;
    forall pc: nat, c | c in P.classes && CodeAt(k.img.text, pc, NewCode(P, c)) ensures CopyIsRuntime(P, c) {
      if Created(P, c) {
        CreatedCopies(P, c);
      } else {
        NewStarts(k, pc, c);
        OnlyBoot(P, pc, c);
        BootStarts(P);
        ObjectsCopy(P, c);
      }
    }
  }

  lemma CreatedCopies(P: Program, c: ClassName)
    requires Hierarchy(P) && CreatedOK(P) && c in P.classes && Created(P, c)
    ensures CopyIsRuntime(P, c)
  {
    hide Created;
  }

  lemma NewStarts(k: Ctx, pc: nat, c: ClassName)
    requires Hierarchy(k.P) && CodeAt(k.img.text, pc, NewCode(k.P, c))
    ensures pc + 1 < |k.img.text| && k.img.text[pc] == La(ACC, Proto(c)) && k.img.text[pc + 1] == Jal(CopyLabel(k.P, c))
  {
    Fetch(k.img, pc, NewCode(k.P, c), 0);
    Fetch(k.img, pc, NewCode(k.P, c), 1);
  }

  lemma BootStarts(P: Program)
    requires Hierarchy(P) && OrderKnown(P)
    ensures |ProgramText(P)| > 1 && ProgramText(P)[1] == Jal(MethodLabel(ObjectC, COPY))
  {
    hide ClassesCode, RuntimeCode;
  }

  /** A class whose `copy` has the label of Object's uses the run-time routine. */
  lemma ObjectsCopy(P: Program, c: ClassName)
    requires WellFormed(P) && Hierarchy(P) && c in P.classes && CopyLabel(P, c) == MethodLabel(ObjectC, COPY)
    ensures CopyIsRuntime(P, c)
  {
    hide ClassOK, CreatedOK, MethLayout;
    MethNearest(P, c);
    assert BasicsOK(P) && Nearest(P, c, COPY) == ObjectC;
  }

  /** The emitted image has everything where its label is. */
  lemma ImageBuilt(P: Program)
    requires WellFormed(P)
    ensures Hierarchy(P) && OrderKnown(P) && forall i :: 0 <= i < |P.order| ==> P.order[i] in P.tag
    ensures ImageOK(Ctx(P, ImageOf(P)))
  {
    hide WellFormed, Hierarchy, ProgramText, MethodPlaced, InitPlaced, UniqueLabels, ObjTable;
    Visits(P);
    var k := Ctx(P, ImageOf(P));
    ProgramLabels(P);
    forall c | c in P.classes ensures InitPlaced(k, c) {
      InitIsPlaced(k, c);
    }
    forall c, m | c in P.classes && m in P.classes[c].methods ensures MethodPlaced(k, c, m) {
      MethodIsPlaced(k, c, m);
    }
    forall c | c in P.classes ensures TablesOK(k, c) {
      TablesHere(P, k, c);
    }
  }

  /** The emitted image is what the simulation expects. */
  lemma ImageCorrect(P: Program)
    requires ProgramOK(P)
    ensures Hierarchy(P) && OrderKnown(P) && forall i :: 0 <= i < |P.order| ==> P.order[i] in P.tag
    ensures OK(Ctx(P, ImageOf(P)))
  {
    hide WellFormed, CreatedOK, ImageOK, NewsOK, ProgramText, ObjTable;
    ImageBuilt(P);
    NewsPlaced(P, Ctx(P, ImageOf(P)));
  }

  lemma TablesHere(P: Program, k: Ctx, c: ClassName)
    requires WellFormed(P) && Hierarchy(P) && OrderKnown(P) && (forall i :: 0 <= i < |P.order| ==> P.order[i] in P.tag)
    requires k == Ctx(P, ImageOf(P)) && c in P.classes
    ensures TablesOK(k, c)
  {
    hide WellFormed, Hierarchy, ProgramText, ObjTable, DispTable;
    Visits(P);
    ObjTableRow(P, P.order, c);
  }
}
