/**
  What CgenClassTable::code emits for a whole program: the initialiser and the methods of every class,
  the tables, and the data segment, together with the start-up code of the run-time system.
 */
module ProgramImage {
  import opened CoolNames
  import opened Inheritance
  import opened CoolSyntax
  import opened Layout
  import opened ClassTags
  import opened CoolSemantics
  import opened Mips
  import opened CodeGen

  const MAIN: ClassName := User("Main")
  const MAINMETH: Name := "main"

  /** The methods of the basic classes are routines of the run-time system; no code is generated for them. */
  ghost function OneMethod(P: Program, c: ClassName, m: Method, l: int): Gen
    requires Hierarchy(P) && c in P.classes
  {
    if m.body.Code? then MethodCode(P, c, m, l) else Gen([], l)
  }

  ghost function MethodsCode(P: Program, c: ClassName, decls: seq<Method>, l: int): Gen
    requires Hierarchy(P) && c in P.classes
  {
    if decls == [] then Gen([], l)
    else
      var g0 := OneMethod(P, c, decls[0], l);
      var g1 := MethodsCode(P, c, decls[1..], g0.next);
      Gen(g0.code + g1.code, g1.next)
  }

  /** CgenNode::code_methods */
  ghost function ClassCode(P: Program, c: ClassName, l: int): Gen
    requires Hierarchy(P) && c in P.classes
  {
    var g0 := InitCode(P, c, l);
    var g1 := MethodsCode(P, c, P.classes[c].methods, g0.next);
    Gen(g0.code + g1.code, g1.next)
  }

  /** code_classes */
  ghost function ClassesCode(P: Program, cs: seq<ClassName>, l: int): Gen
    requires Hierarchy(P) && forall i :: 0 <= i < |cs| ==> cs[i] in P.classes
  {
    if cs == [] then Gen([], l)
    else
      var g0 := ClassCode(P, cs[0], l);
      var g1 := ClassesCode(P, cs[1..], g0.next);
      Gen(g0.code + g1.code, g1.next)
  }

  /** The part of the run-time system that the program is linked with. */
  function NativesCode(c: ClassName, decls: seq<Method>): seq<Instr> {
    if decls == [] then []
    else (if decls[0].body.Native? then NativeCode(c, decls[0]) else []) + NativesCode(c, decls[1..])
  }

  function RuntimeCode(P: Program, cs: seq<ClassName>): seq<Instr>
    requires forall i :: 0 <= i < |cs| ==> cs[i] in P.classes
  {
    if cs == [] then [] else NativesCode(cs[0], P.classes[cs[0]].methods) + RuntimeCode(P, cs[1..])
  }

  /** Start-up: make a Main object and call its main method. */
  const BOOT: seq<Instr> := [
    La(ACC, Proto(MAIN)), Jal(MethodLabel(ObjectC, COPY)), Jal(InitLabel(MAIN)), Jal(MethodLabel(MAIN, MAINMETH)), Halt]

  ghost predicate OrderKnown(P: Program) {
    forall i :: 0 <= i < |P.order| ==> P.order[i] in P.classes
  }

  ghost function ProgramText(P: Program): seq<Instr>
    requires Hierarchy(P) && OrderKnown(P)
  {
    BOOT + (ClassesCode(P, P.order, 0).code + RuntimeCode(P, P.order))
  }

  /** code_disptabs */
  ghost function DispTables(P: Program): map<ClassName, seq<Label>>
    requires Hierarchy(P)
  {
    map c | c in P.classes :: DispTable(P, c)
  }

  /** class_nametab, from which code_class_objtab emits a row for each tag. */
  function ObjTable(P: Program, cs: seq<ClassName>): map<int, ClassName>
    requires forall i :: 0 <= i < |cs| ==> cs[i] in P.tag
  {
    if cs == [] then map[] else ObjTable(P, cs[..|cs| - 1])[P.tag[cs[|cs| - 1]] := cs[|cs| - 1]]
  }

  ghost function ImageOf(P: Program): Image
    requires Hierarchy(P) && OrderKnown(P) && forall i :: 0 <= i < |P.order| ==> P.order[i] in P.tag
  {
    Image(ProgramText(P), DispTables(P), ObjTable(P, P.order))
  }

  // ---------------------------------------------------------------------------------------------
  // The data segment and the initial state.

  ghost predicate IsStatic(P: Program, r: ObjRef) {
    r.IntObj? || r.BoolObj? || r.StrObj? || (r.Proto? && r.c in P.classes)
  }

  ghost function StaticWords(P: Program, r: ObjRef): seq<Word>
    requires Hierarchy(P) && IsStatic(P, r)
  {
    match r
    case IntObj(n) => IntWords(P, n)
    case BoolObj(b) => BoolWords(P, b)
    case StrObj(s) => StrWords(P, s)
    case Proto(c) => ProtoWords(P, c)
  }

  ghost function InitialHeap(P: Program): Heap
    requires Hierarchy(P)
  {
    imap r | IsStatic(P, r) :: StaticWords(P, r)
  }

  /** The machine before the first instruction of the start-up code, with the stack at `top`. */
  ghost function InitialState(P: Program, top: int): State
    requires Hierarchy(P)
  {
    State(0, I(0), I(0), I(0), I(0), Stk(top), Stk(top), I(0), map[], InitialHeap(P), 0, [])
  }
}
