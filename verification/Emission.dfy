/**
  The code generator as it runs: it writes to a stream, draws labels from a counter, and keeps the
  places of the variables in a table of nested scopes.  Everything that it emits is what the functions
  of CodeGen and ProgramImage say.
 */
module Emission {
  import opened CoolNames
  import opened Inheritance
  import opened CoolSyntax
  import opened Layout
  import opened ClassTags
  import opened CoolSemantics
  import opened Mips
  import opened CodeGen
  import opened CodeGenEquations
  import opened ProgramImage

  /** The binding that SymbolTable::lookup finds, for every name: the innermost one. */
  function Visible(env: seq<Scope>): Scope {
    if env == [] then map[] else Visible(env[..|env| - 1]) + env[|env| - 1]
  }

  /**
    What semantic analysis guarantees of an expression in a method of class `cls`, where `vars` are in
    scope: names are bound, classes are declared, and a statically dispatched method exists.
   */
  ghost predicate Checked(P: Program, cls: ClassName, e: Expr, vars: set<Name>)
    requires Hierarchy(P)
    decreases e
  {
    match e
    case IntConst(_) => true
    case BoolConst(_) => true
    case StrConst(_) => true
    case NoExpr(_) => true
    case NewSelf => true
    case Object(x) => x == SELF || x in vars
    case Assign(x, e1) => x in vars && Checked(P, cls, e1, vars)
    case Block(es) => forall i :: 0 <= i < |es| ==> Checked(P, cls, es[i], vars)
    case Cond(p, t, f) => Checked(P, cls, p, vars) && Checked(P, cls, t, vars) && Checked(P, cls, f, vars)
    case Loop(p, b) => Checked(P, cls, p, vars) && Checked(P, cls, b, vars)
    case Let(x, _, init, body) => Checked(P, cls, init, vars) && Checked(P, cls, body, vars + {x})
    case Arith(_, e1, e2) => HasMethod(P, IntC, COPY) && Checked(P, cls, e1, vars) && Checked(P, cls, e2, vars)
    case Compare(_, e1, e2) => Checked(P, cls, e1, vars) && Checked(P, cls, e2, vars)
    case Neg(e1) => HasMethod(P, IntC, COPY) && Checked(P, cls, e1, vars)
    case Comp(e1) => Checked(P, cls, e1, vars)
    case Dispatch(e0, sty, _, args) =>
      && StaticClass(sty, cls) in P.classes && Checked(P, cls, e0, vars)
      && forall i :: 0 <= i < |args| ==> Checked(P, cls, args[i], vars)
    case StaticDispatch(e0, c, m, args) =>
      && HasMethod(P, c, m) && Checked(P, cls, e0, vars)
      && forall i :: 0 <= i < |args| ==> Checked(P, cls, args[i], vars)
    case TypCase(e0, cases) =>
      && GoodBranches(P, CaseTypes(cases)) && Checked(P, cls, e0, vars)
      && forall i :: 0 <= i < |cases| ==> Checked(P, cls, cases[i].body, vars + {cases[i].x})
    case New(c) => HasMethod(P, c, COPY)
  }

  /** Class `c` has a method `m`, its own or inherited. */
  ghost predicate HasMethod(P: Program, c: ClassName, m: Name)
    requires Hierarchy(P)
  {
    c in P.classes && Nearest(P, c, m) != NoClass
  }

  ghost predicate CheckedAll(P: Program, cls: ClassName, es: seq<Expr>, vars: set<Name>)
    requires Hierarchy(P)
  {
    forall i :: 0 <= i < |es| ==> Checked(P, cls, es[i], vars)
  }

  lemma ScopeKeys(env: seq<Scope>, x: Name, p: Place)
    ensures Visible(env + [map[x := p]]) == Visible(env)[x := p]
    ensures Visible(env)[x := p].Keys == Visible(env).Keys + {x}
  {
    assert (env + [map[x := p]])[..|env|] == env;
    assert Visible(env) + map[x := p] == Visible(env)[x := p];
  }

  lemma Assoc(a: seq<Instr>, b: seq<Instr>, c: seq<Instr>)
    ensures (a + b) + c == a + (b + c)
  {
  }

  lemma Assoc4(a: seq<Instr>, b: seq<Instr>, c: seq<Instr>, d: seq<Instr>)
    ensures ((a + b) + c) + d == a + (b + (c + d))
  {
    Assoc(a + b, c, d);
    Assoc(a, b, c + d);
  }

  lemma Assoc5(a: seq<Instr>, b: seq<Instr>, c: seq<Instr>, d: seq<Instr>, e: seq<Instr>)
    ensures (((a + b) + c) + d) + e == a + (b + (c + (d + e)))
  {
    Assoc4(a + b, c, d, e);
    Assoc(a, b, c + (d + e));
  }

  lemma Assoc6(a: seq<Instr>, b: seq<Instr>, c: seq<Instr>, d: seq<Instr>, e: seq<Instr>, f: seq<Instr>)
    ensures ((((a + b) + c) + d) + e) + f == a + (b + (c + (d + (e + f))))
  {
    Assoc5(a + b, c, d, e, f);
    Assoc(a, b, c + (d + (e + f)));
  }

  lemma NestTail(a: seq<Instr>, b: seq<Instr>, c: seq<Instr>, d: seq<Instr>, e: seq<Instr>, f: seq<Instr>)
    ensures (a + (b + (c + (d + e)))) + f == a + (b + (c + (d + (e + f))))
  {
    Assoc(a, b + (c + (d + e)), f);
    Assoc(b, c + (d + e), f);
    Assoc(c, d + e, f);
    Assoc(d, e, f);
  }

  /** The layout of a class names the definer of each of its methods. */
  lemma DefinerKnown(P: Program, c: ClassName, m: Name)
    requires Hierarchy(P) && HasMethod(P, c, m)
    ensures HasClass(P, c) && m in MethLayout(P, c).definer && MethLayout(P, c).definer[m] == MethodClass(P, c, m)
  {
    MethNearest(P, c);
  }

  /** The linear search of method_offset finds the slot. */
  lemma OffsetFound(P: Program, c: ClassName, m: Name, i: int)
    requires Hierarchy(P) && c in P.classes
    requires i == -1 ==> m !in MethLayout(P, c).layout
    requires i != -1 ==> 0 <= i < |MethLayout(P, c).layout| && MethLayout(P, c).layout[i] == m
    ensures i == MethodOffset(P, c, m)
  {
    hide Hierarchy, MethLayout, Nearest;
    MethNearest(P, c);
  }

  /** The class table is complete: every class has its layout and its tags. */
  ghost predicate Complete(P: Program, table: CgenClassTable)
    reads table.nodes.Values
  {
    && table.Valid(P) && TagsOK(P)
    && forall c {:trigger table.nodes[c]} :: c in P.classes ==> table.nodes[c].hasCalcedLayout
  }

  class Emitter {
    const P: Program
    const table: CgenClassTable
    var curClass: ClassName
    var env: seq<Scope>        // cur_env: the open scopes, the innermost last
    var out: seq<Instr>        // what has been written
    var nextLabel: int

    constructor (P: Program, table: CgenClassTable)
      ensures this.P == P && this.table == table && env == [] && out == [] && nextLabel == 0
    {
      this.P, this.table := P, table;
      curClass, env, out, nextLabel := NoClass, [], [], 0;
    }

    ghost predicate Ready()
      reads table.nodes.Values
    {
      Complete(P, table)
    }

    lemma ReadyTags()
      requires Ready()
      ensures Hierarchy(P) && TagsOK(P)
    {
    }

    /** Exactly the code of `g` has been written, its labels are used up, and the scopes are as before. */
    twostate predicate Emitted(g: Gen)
      reads this
    {
      env == old(env) && out == old(out) + g.code && nextLabel == g.next
    }

    // -------------------------------------------------------------------------------------------
    // emit_*, get_next_label and the symbol table.

    method Emit(code: seq<Instr>)
      modifies `out
      ensures out == old(out) + code
    {
      out := out + code;
    }

    method GetNextLabel() returns (l: int)
      modifies `nextLabel
      ensures l == old(nextLabel) && nextLabel == l + 1
    {
      l := nextLabel;
      nextLabel := nextLabel + 1;
    }

    method EnterScope()
      modifies `env
      ensures env == old(env) + [map[]]
    {
      env := env + [map[]];
    }

    method AddId(x: Name, p: Place)
      requires env != []
      modifies `env
      ensures env == old(env)[..|old(env)| - 1] + [old(env)[|old(env)| - 1][x := p]]
    {
      env := env[..|env| - 1] + [env[|env| - 1][x := p]];
    }

    method ExitScope()
      requires env != []
      modifies `env
      ensures env == old(env)[..|old(env)| - 1]
    {
      env := env[..|env| - 1];
    }

    /** enterscope and addid, for the one variable of a let or of a branch. */
    method Bind(x: Name, p: Place)
      modifies `env
      ensures env == old(env) + [map[x := p]]
      ensures Visible(env) == old(Visible(env))[x := p]
      ensures Visible(env).Keys == old(Visible(env)).Keys + {x}
    {
      ScopeKeys(env, x, p);
      EnterScope();
      AddId(x, p);
    }

    /** SymbolTable::lookup: from the innermost scope outwards. */
    method Lookup(x: Name) returns (p: Place)
      requires x in Visible(env)
      ensures p == Visible(env)[x]
    {
      var i := |env|;
      assert env[..i] == env;
      while 0 < i && x !in env[i - 1]
        invariant 0 <= i <= |env| && x in Visible(env[..i]) && Visible(env[..i])[x] == Visible(env)[x]
        decreases i
      {
        assert env[..i][..i - 1] == env[..i - 1];
        i := i - 1;
      } 
      assert env[..i][..i - 1] == env[..i - 1];
      p := env[i - 1][x];
    }

    method CopyRoutine(c: ClassName) returns (l: Label)
      requires Hierarchy(P) && Ready() && HasMethod(P, c, COPY)
      ensures l == CopyLabel(P, c)
    {
      hide MethodClass;
      l := MethodRoutine(c, COPY);
    }

    /** method_class */
    method MethodRoutine(c: ClassName, m: Name) returns (l: Label)
      requires Hierarchy(P) && Ready() && HasMethod(P, c, m)
      ensures l == MethodLabel(MethodClass(P, c, m), m)
    {
      DefinerKnown(P, c, m);
      assert table.LaidOut(P, c);
      l := MethodLabel(table.nodes[c].methClassMap[m], m);
    }

    method MethodSlot(c: ClassName, m: Name) returns (i: int)
      requires Hierarchy(P) && Ready() && c in P.classes
      ensures i == MethodOffset(P, c, m)
    {
      assert table.LaidOut(P, c);
      i := table.nodes[c].MethodOffset(m);
      OffsetFound(P, c, m, i);
    }

    // -------------------------------------------------------------------------------------------
    // *_class::code

    method Code(e: Expr, tmp: int)
      requires Hierarchy(P) && Ready() && Checked(P, curClass, e, Visible(env).Keys)
      modifies `out, `nextLabel, `env
      ensures Emitted(Compile(P, curClass, old(Visible(env)), tmp, e, old(nextLabel)))
      decreases e, 2
    {
      hide *;
      match e
      case Assign(_, _) => AssignCode(e, tmp);
      case Block(_) => BlockCode(e, tmp);
      case Cond(_, _, _) => CondCode(e, tmp);
      case Loop(_, _) => LoopCode(e, tmp);
      case Let(_, _, _, _) => LetCode(e, tmp);
      case Arith(_, _, _) => ArithCode(e, tmp);
      case Neg(_) => NegCode(e, tmp);
      case Compare(_, _, _) => CompareCode(e, tmp);
      case Comp(_) => CompCode(e, tmp);
      case Dispatch(_, _, _, _) => DispatchCode(e, tmp);
      case StaticDispatch(_, _, _, _) => StaticDispatchCode(e, tmp);
      case TypCase(_, _) => TypCaseCode(e, tmp);
      case New(_) => NewClassCode(e, tmp);
      case _ => LeafCode(e, tmp);
    }

    /** Constants, missing initialisers, identifiers and new SELF_TYPE. */
    method LeafCode(e: Expr, tmp: int)
      requires Hierarchy(P) && Ready() && (e.IntConst? || e.BoolConst? || e.StrConst? || e.NoExpr? || e.Object? || e.NewSelf?) && Checked(P, curClass, e, Visible(env).Keys)
      modifies `out, `nextLabel, `env
      ensures Emitted(Compile(P, curClass, old(Visible(env)), tmp, e, old(nextLabel)))
      decreases e, 1
    {
      hide Compile, CompileSeq, CompileArgs, CompileCases, Hierarchy, Ready, Visible, MethodClass, MethodOffset, IntervalOf;

      match e
      case IntConst(n) =>
        CompileIntConst(P, curClass, Visible(env), tmp, e, nextLabel);
        Emit([La(ACC, IntObj(n))]);
      case BoolConst(b) =>
        CompileBoolConst(P, curClass, Visible(env), tmp, e, nextLabel);
        Emit([La(ACC, BoolObj(b))]);
      case StrConst(s) =>
        CompileStrConst(P, curClass, Visible(env), tmp, e, nextLabel);
        Emit([La(ACC, StrObj(s))]);
      case NoExpr(ty) =>
        CompileNoExpr(P, curClass, Visible(env), tmp, e, nextLabel);
        Emit(DefaultCode(ty));
      case NewSelf =>
        CompileNewSelf(P, curClass, Visible(env), tmp, e, nextLabel);
        Emit(NEWSELF);
      case Object(x) =>
        CompileObject(P, curClass, Visible(env), tmp, e, nextLabel);
        if x == SELF {
          Emit([Move(ACC, SELFR)]);
        } else {
          var p := Lookup(x);
          match p {
            case Local(off) => Emit([Lw(ACC, off, FP)]);
            case AttrSlot(k) => Emit([Lw(ACC, DEFAULT_OBJFIELDS + k, SELFR)]);
          }
        }
    }

    method AssignCode(e: Expr, tmp: int)
      requires Hierarchy(P) && Ready() && e.Assign? && Checked(P, curClass, e, Visible(env).Keys)
      modifies `out, `nextLabel, `env
      ensures Emitted(Compile(P, curClass, old(Visible(env)), tmp, e, old(nextLabel)))
      decreases e, 1
    {
      hide Compile, CompileSeq, CompileArgs, CompileCases, Hierarchy, Ready, Visible, MethodClass, MethodOffset, IntervalOf;

      CompileAssign(P, curClass, Visible(env), tmp, e, nextLabel);
      ghost var o, g := out, Compile(P, curClass, Visible(env), tmp, e.e, nextLabel);
      Code(e.e, tmp);
      var p := Lookup(e.x);
      match p {
        case Local(off) => Emit([Sw(ACC, off, FP)]);
        case AttrSlot(k) => Emit([Sw(ACC, DEFAULT_OBJFIELDS + k, SELFR)]);
      }
      Assoc(o, g.code, [StoreVar(Visible(env), e.x)]);
    }

    method BlockCode(e: Expr, tmp: int)
      requires Hierarchy(P) && Ready() && e.Block? && Checked(P, curClass, e, Visible(env).Keys)
      modifies `out, `nextLabel, `env
      ensures Emitted(Compile(P, curClass, old(Visible(env)), tmp, e, old(nextLabel)))
      decreases e, 1
    {
      hide Compile, CompileSeq, CompileArgs, CompileCases, Hierarchy, Ready, Visible, MethodClass, MethodOffset, IntervalOf;

      CompileBlock(P, curClass, Visible(env), tmp, e, nextLabel);
      SeqCode(e.es, tmp);
    }

    /** The loop of block_class::code. */
    method SeqCode(es: seq<Expr>, tmp: int)
      requires Hierarchy(P) && Ready() && CheckedAll(P, curClass, es, Visible(env).Keys)
      modifies `out, `nextLabel, `env
      ensures Emitted(CompileSeq(P, curClass, old(Visible(env)), tmp, es, old(nextLabel)))
      decreases es
    {
      hide Compile, CompileSeq, CompileArgs, CompileCases, Hierarchy, Ready, Visible, MethodClass, MethodOffset, IntervalOf;
      ghost var o, whole, done := out, CompileSeq(P, curClass, Visible(env), tmp, es, nextLabel), [];
      var i := 0;
      while i < |es|
        invariant 0 <= i <= |es| && env == old(env) && out == o + done
        invariant whole == Gen(done + CompileSeq(P, curClass, Visible(env), tmp, es[i..], nextLabel).code, CompileSeq(P, curClass, Visible(env), tmp, es[i..], nextLabel).next)
      {
        CompileSeqMore(P, curClass, Visible(env), tmp, es[i..], nextLabel);
        assert es[i..][1..] == es[i + 1..];
        ghost var g := Compile(P, curClass, Visible(env), tmp, es[i], nextLabel);
        Code(es[i], tmp);
        Assoc(o, done, g.code);
        Assoc(done, g.code, CompileSeq(P, curClass, Visible(env), tmp, es[i + 1..], nextLabel).code);
        done := done + g.code;
        i := i + 1;
      }
      CompileSeqNone(P, curClass, Visible(env), tmp, es[i..], nextLabel);
    }

    /** The arguments of a call, each pushed; the stack grows with every one of them. */
    method ArgsCode(args: seq<Expr>, tmp: int) returns (tmp': int)
      requires Hierarchy(P) && Ready() && CheckedAll(P, curClass, args, Visible(env).Keys)
      modifies `out, `nextLabel, `env
      ensures tmp' == tmp - |args|
      ensures Emitted(CompileArgs(P, curClass, old(Visible(env)), tmp, args, old(nextLabel)))
      decreases args
    {
      hide Compile, CompileSeq, CompileArgs, CompileCases, Hierarchy, Ready, Visible, MethodClass, MethodOffset, IntervalOf;
      ghost var o, whole, done := out, CompileArgs(P, curClass, Visible(env), tmp, args, nextLabel), [];
      var i := 0;
      tmp' := tmp;
      while i < |args|
        invariant 0 <= i <= |args| && env == old(env) && out == o + done && tmp' == tmp - i
        invariant var rest := CompileArgs(P, curClass, Visible(env), tmp', args[i..], nextLabel);
          whole == Gen(done + rest.code, rest.next)
      {
        CompileArgsMore(P, curClass, Visible(env), tmp', args[i..], nextLabel);
        assert args[i..][1..] == args[i + 1..];
        ghost var g := Compile(P, curClass, Visible(env), tmp', args[i], nextLabel);
        Code(args[i], tmp');
        Emit(PUSH);
        tmp' := tmp' - 1;
        Assoc4(o, done, g.code, PUSH);
        Assoc4(done, g.code, PUSH, CompileArgs(P, curClass, Visible(env), tmp', args[i + 1..], nextLabel).code);
        Assoc(done, g.code, PUSH);
        done := done + (g.code + PUSH);
        i := i + 1;
      }
      CompileArgsNone(P, curClass, Visible(env), tmp', args[i..], nextLabel);
    }

    method CondCode(e: Expr, tmp: int)
      requires Hierarchy(P) && Ready() && e.Cond? && Checked(P, curClass, e, Visible(env).Keys)
      modifies `out, `nextLabel, `env
      ensures Emitted(Compile(P, curClass, old(Visible(env)), tmp, e, old(nextLabel)))
      decreases e, 1
    {
      hide Compile, CompileSeq, CompileArgs, CompileCases, Hierarchy, Ready, Visible, MethodClass, MethodOffset, IntervalOf;

      CompileCond(P, curClass, Visible(env), tmp, e, nextLabel);
      ghost var o, g0 := out, Compile(P, curClass, Visible(env), tmp, e.pred, nextLabel);
      Code(e.pred, tmp);
      var falseLabel := GetNextLabel();
      var endLabel := GetNextLabel();
      Emit(TestFalse(falseLabel));
      ghost var g1 := Compile(P, curClass, Visible(env), tmp, e.thn, nextLabel);
      Code(e.thn, tmp);
      Emit([B(Num(endLabel)), LabelDef(Num(falseLabel))]);
      ghost var g2 := Compile(P, curClass, Visible(env), tmp, e.els, nextLabel);
      Code(e.els, tmp);
      Emit([LabelDef(Num(endLabel))]);
      ghost var mid := [B(Num(endLabel)), LabelDef(Num(falseLabel))];
      Assoc6(o + g0.code, TestFalse(falseLabel), g1.code, mid, g2.code, [LabelDef(Num(endLabel))]);
      Assoc(o, g0.code, TestFalse(falseLabel) + (g1.code + (mid + (g2.code + [LabelDef(Num(endLabel))]))));
    }

    method LoopCode(e: Expr, tmp: int)
      requires Hierarchy(P) && Ready() && e.Loop? && Checked(P, curClass, e, Visible(env).Keys)
      modifies `out, `nextLabel, `env
      ensures Emitted(Compile(P, curClass, old(Visible(env)), tmp, e, old(nextLabel)))
      decreases e, 1
    {
      hide Compile, CompileSeq, CompileArgs, CompileCases, Hierarchy, Ready, Visible, MethodClass, MethodOffset, IntervalOf;

      CompileLoop(P, curClass, Visible(env), tmp, e, nextLabel);
      ghost var o := out;
      var loopLabel := GetNextLabel();
      var endLabel := GetNextLabel();
      Emit([LabelDef(Num(loopLabel))]);
      ghost var g0 := Compile(P, curClass, Visible(env), tmp, e.pred, nextLabel);
      Code(e.pred, tmp);
      Emit(TestFalse(endLabel));
      ghost var g1 := Compile(P, curClass, Visible(env), tmp, e.body, nextLabel);
      Code(e.body, tmp);
      Emit([B(Num(loopLabel)), LabelDef(Num(endLabel))]);
      Assoc6(o, [LabelDef(Num(loopLabel))], g0.code, TestFalse(endLabel), g1.code, [B(Num(loopLabel)), LabelDef(Num(endLabel))]);
    }

    method LetCode(e: Expr, tmp: int)
      requires Hierarchy(P) && Ready() && e.Let? && Checked(P, curClass, e, Visible(env).Keys)
      modifies `out, `nextLabel, `env
      ensures Emitted(Compile(P, curClass, old(Visible(env)), tmp, e, old(nextLabel)))
      decreases e, 1
    {
      hide Compile, CompileSeq, CompileArgs, CompileCases, Hierarchy, Ready, Visible, MethodClass, MethodOffset, IntervalOf;

      CompileLet(P, curClass, Visible(env), tmp, e, nextLabel);
      ghost var o, g0 := out, Compile(P, curClass, Visible(env), tmp, e.init, nextLabel);
      Code(e.init, tmp);
      Bind(e.x, Local(tmp));
      Emit(PUSH);
      ghost var g1 := Compile(P, curClass, Visible(env), tmp - 1, e.body, nextLabel);
      Code(e.body, tmp - 1);
      Emit(POP);
      ExitScope();
      Assoc5(o, g0.code, PUSH, g1.code, POP);
    }

    /** code_arithm_expr */
    method ArithCode(e: Expr, tmp: int)
      requires Hierarchy(P) && Ready() && e.Arith? && Checked(P, curClass, e, Visible(env).Keys)
      modifies `out, `nextLabel, `env
      ensures Emitted(Compile(P, curClass, old(Visible(env)), tmp, e, old(nextLabel)))
      decreases e, 1
    {
      hide Compile, CompileSeq, CompileArgs, CompileCases, Hierarchy, Ready, Visible, MethodClass, MethodOffset, IntervalOf;

      CompileArith(P, curClass, Visible(env), tmp, e, nextLabel);
      ghost var o, g0 := out, Compile(P, curClass, Visible(env), tmp, e.e1, nextLabel);
      Code(e.e1, tmp);
      Emit(PUSH);
      ghost var g1 := Compile(P, curClass, Visible(env), tmp - 1, e.e2, nextLabel);
      Code(e.e2, tmp - 1);
      var copy := CopyRoutine(IntC);
      Emit([Jal(copy), Lw(T1, 1, SP), Lw(T1, DEFAULT_OBJFIELDS, T1), Lw(T2, DEFAULT_OBJFIELDS, ACC),
            Arith3(e.op, T1, T1, T2), Sw(T1, DEFAULT_OBJFIELDS, ACC), Addiu(SP, SP, 4)]);
      Assoc5(o, g0.code, PUSH, g1.code, ArithTail(P, e.op));
    }

    method NegCode(e: Expr, tmp: int)
      requires Hierarchy(P) && Ready() && e.Neg? && Checked(P, curClass, e, Visible(env).Keys)
      modifies `out, `nextLabel, `env
      ensures Emitted(Compile(P, curClass, old(Visible(env)), tmp, e, old(nextLabel)))
      decreases e, 1
    {
      hide Compile, CompileSeq, CompileArgs, CompileCases, Hierarchy, Ready, Visible, MethodClass, MethodOffset, IntervalOf;

      CompileNeg(P, curClass, Visible(env), tmp, e, nextLabel);
      ghost var o, g := out, Compile(P, curClass, Visible(env), tmp, e.e, nextLabel);
      Code(e.e, tmp);
      var copy := CopyRoutine(IntC);
      Emit([Jal(copy), Lw(T1, DEFAULT_OBJFIELDS, ACC), NegI(T1, T1), Sw(T1, DEFAULT_OBJFIELDS, ACC)]);
      Assoc(o, g.code, NegTail(P));
    }

    /** lt_class::code and leq_class::code */
    method CompareCode(e: Expr, tmp: int)
      requires Hierarchy(P) && Ready() && e.Compare? && Checked(P, curClass, e, Visible(env).Keys)
      modifies `out, `nextLabel, `env
      ensures Emitted(Compile(P, curClass, old(Visible(env)), tmp, e, old(nextLabel)))
      decreases e, 1
    {
      hide Compile, CompileSeq, CompileArgs, CompileCases, Hierarchy, Ready, Visible, MethodClass, MethodOffset, IntervalOf;

      CompileCompare(P, curClass, Visible(env), tmp, e, nextLabel);
      ghost var o, g0 := out, Compile(P, curClass, Visible(env), tmp, e.e1, nextLabel);
      Code(e.e1, tmp);
      Emit(PUSH);
      ghost var g1 := Compile(P, curClass, Visible(env), tmp - 1, e.e2, nextLabel);
      Code(e.e2, tmp - 1);
      var endLabel := GetNextLabel();
      Emit(CompareTail(e.cmp, endLabel));
      Assoc5(o, g0.code, PUSH, g1.code, CompareTail(e.cmp, endLabel));
    }

    method CompCode(e: Expr, tmp: int)
      requires Hierarchy(P) && Ready() && e.Comp? && Checked(P, curClass, e, Visible(env).Keys)
      modifies `out, `nextLabel, `env
      ensures Emitted(Compile(P, curClass, old(Visible(env)), tmp, e, old(nextLabel)))
      decreases e, 1
    {
      hide Compile, CompileSeq, CompileArgs, CompileCases, Hierarchy, Ready, Visible, MethodClass, MethodOffset, IntervalOf;

      CompileComp(P, curClass, Visible(env), tmp, e, nextLabel);
      ghost var o, g := out, Compile(P, curClass, Visible(env), tmp, e.e, nextLabel);
      Code(e.e, tmp);
      var falseLabel := GetNextLabel();
      var endLabel := GetNextLabel();
      Emit(CompTail(falseLabel, endLabel));
      Assoc(o, g.code, CompTail(falseLabel, endLabel));
    }

    method DispatchCode(e: Expr, tmp: int)
      requires Hierarchy(P) && Ready() && e.Dispatch? && Checked(P, curClass, e, Visible(env).Keys)
      modifies `out, `nextLabel, `env
      ensures Emitted(Compile(P, curClass, old(Visible(env)), tmp, e, old(nextLabel)))
      decreases e, 1
    {
      hide Compile, CompileSeq, CompileArgs, CompileCases, Hierarchy, Ready, Visible, MethodClass, MethodOffset, IntervalOf;

      CompileDispatch(P, curClass, Visible(env), tmp, e, nextLabel);
      ghost var o, g0 := out, CompileArgs(P, curClass, Visible(env), tmp, e.args, nextLabel);
      var tmp' := ArgsCode(e.args, tmp);
      ghost var g1 := Compile(P, curClass, Visible(env), tmp', e.e, nextLabel);
      Code(e.e, tmp');
      var callLabel := GetNextLabel();
      var c := StaticClass(e.sty, curClass);
      var slot := MethodSlot(c, e.m);
      Emit(AbortOnVoid(DispatchVoid, callLabel)
           + [LabelDef(Num(callLabel)), Lw(T1, DISPTABLE_OFFSET, ACC), Lw(T1, slot, T1), Jalr(T1)]);
      Assoc4(o, g0.code, g1.code, DispatchTail(P, c, e.m, callLabel));
    }

    method StaticDispatchCode(e: Expr, tmp: int)
      requires Hierarchy(P) && Ready() && e.StaticDispatch? && Checked(P, curClass, e, Visible(env).Keys)
      modifies `out, `nextLabel, `env
      ensures Emitted(Compile(P, curClass, old(Visible(env)), tmp, e, old(nextLabel)))
      decreases e, 1
    {
      hide Compile, CompileSeq, CompileArgs, CompileCases, Hierarchy, Ready, Visible, MethodClass, MethodOffset, IntervalOf;

      CompileStaticDispatch(P, curClass, Visible(env), tmp, e, nextLabel);
      ghost var o, g0 := out, CompileArgs(P, curClass, Visible(env), tmp, e.args, nextLabel);
      var tmp' := ArgsCode(e.args, tmp);
      ghost var g1 := Compile(P, curClass, Visible(env), tmp', e.e, nextLabel);
      Code(e.e, tmp');
      var callLabel := GetNextLabel();
      var l := MethodRoutine(e.c, e.m);
      Emit(AbortOnVoid(DispatchVoid, callLabel) + [LabelDef(Num(callLabel)), Jal(l)]);
      Assoc4(o, g0.code, g1.code, StaticDispatchTail(P, e.c, e.m, callLabel));
    }

    method NewClassCode(e: Expr, tmp: int)
      requires Hierarchy(P) && Ready() && e.New? && Checked(P, curClass, e, Visible(env).Keys)
      modifies `out, `nextLabel, `env
      ensures Emitted(Compile(P, curClass, old(Visible(env)), tmp, e, old(nextLabel)))
      decreases e, 1
    {
      hide Compile, CompileSeq, CompileArgs, CompileCases, Hierarchy, Ready, Visible, MethodClass, MethodOffset, IntervalOf;

      CompileNew(P, curClass, Visible(env), tmp, e, nextLabel);
      var copy := CopyRoutine(e.c);
      Emit([La(ACC, Proto(e.c)), Jal(copy), Jal(InitLabel(e.c))]);
    }

    method TypCaseCode(e: Expr, tmp: int)
      requires Hierarchy(P) && Ready() && e.TypCase? && Checked(P, curClass, e, Visible(env).Keys)
      modifies `out, `nextLabel, `env
      ensures Emitted(Compile(P, curClass, old(Visible(env)), tmp, e, old(nextLabel)))
      decreases e, 1
    {
      hide Compile, CompileSeq, CompileArgs, CompileCases, Hierarchy, Ready, Visible, MethodClass, MethodOffset, IntervalOf, Checked, GoodBranches, Intervals, Arrange;

      CaseChecked(P, curClass, e, Visible(env).Keys);
      CompileTypCase(P, curClass, Visible(env), tmp, e, nextLabel);
      var sorted := SortBranches(e.cases);
      var esacLabel := GetNextLabel();
      ghost var o, g0 := out, Compile(P, curClass, Visible(env), tmp, e.e, nextLabel);
      Code(e.e, tmp);
      var nextBranch := GetNextLabel();
      Emit(AbortOnVoid(CaseVoid, nextBranch));
      ghost var g1 := CompileCases(P, curClass, Visible(env), tmp, e.cases, sorted, esacLabel, nextBranch, nextLabel);
      BranchesCode(e, tmp, sorted, esacLabel, nextBranch);
      Assoc4(o, g0.code, AbortOnVoid(CaseVoid, nextBranch), g1.code);
    }

    /** arrange_branches, with the tags of the branches. */
    method SortBranches(cases: seq<Branch>) returns (sorted: seq<nat>)
      requires Hierarchy(P) && Ready() && GoodBranches(P, CaseTypes(cases))
      ensures sorted == Arrange(Intervals(P, CaseTypes(cases))) && forall i :: 0 <= i < |sorted| ==> sorted[i] < |cases|
    {
      hide Hierarchy, Ready;
      ReadyTags();
      IntervalsLaminar(P, CaseTypes(cases));
      sorted := ArrangeBranches(Intervals(P, CaseTypes(cases)));
    }

    /** The loop of typcase_class::code over the sorted branches, and the abort behind it. */
    method BranchesCode(e: Expr, tmp: int, sorted: seq<nat>, esacLabel: int, firstBranch: int)
      requires Hierarchy(P) && Ready() && e.TypCase? && (forall i :: 0 <= i < |sorted| ==> sorted[i] < |e.cases|)
      requires forall i :: 0 <= i < |e.cases| ==> Checked(P, curClass, e.cases[i].body, Visible(env).Keys + {e.cases[i].x})
      modifies `out, `nextLabel, `env
      ensures Emitted(CompileCases(P, curClass, old(Visible(env)), tmp, e.cases, sorted, esacLabel, firstBranch, old(nextLabel)))
      decreases e, 0, 1
    {
      hide Compile, CompileSeq, CompileArgs, CompileCases, Hierarchy, Ready, Visible, MethodClass, MethodOffset, IntervalOf;
      ghost var o, whole, done := out, CompileCases(P, curClass, Visible(env), tmp, e.cases, sorted, esacLabel, firstBranch, nextLabel), [];
      var nextBranch := firstBranch;
      var i := 0;
      assert sorted[0..] == sorted;
      while i < |sorted|
        invariant 0 <= i <= |sorted| && env == old(env) && out == o + done
        invariant var rest := CompileCases(P, curClass, Visible(env), tmp, e.cases, sorted[i..], esacLabel, nextBranch, nextLabel);
          whole == Gen(done + rest.code, rest.next)
      {
        CompileCasesMore(P, curClass, Visible(env), tmp, e.cases, sorted[i..], esacLabel, nextBranch, nextLabel);
        assert sorted[i..][1..] == sorted[i + 1..];
        var curBranch := nextBranch;
        nextBranch := GetNextLabel();
        ghost var br := e.cases[sorted[i]];
        ghost var g := Compile(P, curClass, Visible(env)[br.x := Local(tmp)], tmp - 1, br.body, nextLabel);
        ghost var part := BranchCode(e, tmp, sorted[i], esacLabel, curBranch, nextBranch);
        ghost var rest := CompileCases(P, curClass, Visible(env), tmp, e.cases, sorted[i + 1..], esacLabel, nextBranch, nextLabel);
        NestTail(BranchTest(IntervalOf(P, br.c), curBranch, nextBranch), PUSH, g.code, POP, [B(Num(esacLabel))], rest.code);
        Assoc(o, done, part);
        Assoc(done, part, rest.code);
        done := done + part;
        i := i + 1;
      }
      assert sorted[i..] == [];
      CompileCasesNone(P, curClass, Visible(env), tmp, e.cases, esacLabel, nextBranch, nextLabel);
      Emit([LabelDef(Num(nextBranch)), AbortCall(CaseNoMatch), LabelDef(Num(esacLabel))]);
      Assoc(o, done, [LabelDef(Num(nextBranch)), AbortCall(CaseNoMatch), LabelDef(Num(esacLabel))]);
    }

    /** One branch of the loop of typcase_class::code. */
    method BranchCode(e: Expr, tmp: int, n: nat, esacLabel: int, curBranch: int, nextBranch: int) returns (ghost part: seq<Instr>)
      requires Hierarchy(P) && Ready() && e.TypCase? && n < |e.cases|
      requires Checked(P, curClass, e.cases[n].body, Visible(env).Keys + {e.cases[n].x})
      modifies `out, `nextLabel, `env
      ensures var br := e.cases[n];
        var g := Compile(P, curClass, old(Visible(env))[br.x := Local(tmp)], tmp - 1, br.body, old(nextLabel));
        && Emitted(Gen(part, g.next))
        && part == BranchTest(IntervalOf(P, br.c), curBranch, nextBranch) + (PUSH + (g.code + (POP + [B(Num(esacLabel))])))
      decreases e, 0, 0
    {
      hide Compile, CompileSeq, CompileArgs, CompileCases, Hierarchy, Ready, Visible, MethodClass, MethodOffset, IntervalOf;
      ghost var o := out;
      var br := e.cases[n];
      Emit(BranchTest(IntervalOf(P, br.c), curBranch, nextBranch));
      Bind(br.x, Local(tmp));
      Emit(PUSH);
      ghost var g := Compile(P, curClass, Visible(env), tmp - 1, br.body, nextLabel);
      Code(br.body, tmp - 1);
      Emit(POP);
      ExitScope();
      Emit([B(Num(esacLabel))]);
      ghost var test := BranchTest(IntervalOf(P, br.c), curBranch, nextBranch);
      part := test + (PUSH + (g.code + (POP + [B(Num(esacLabel))])));
      Assoc6(o, test, PUSH, g.code, POP, [B(Num(esacLabel))]);
    }

    // -------------------------------------------------------------------------------------------
    // CgenNode and CgenClassTable.

    /** code_init */
    method CodeInit(c: ClassName)
      requires Hierarchy(P) && Ready() && c in P.classes && curClass == c
      requires Visible(env) == AttrScope(AttrLayout(P, c)) && InitsChecked(P, c)
      modifies `out, `nextLabel, `env
      ensures Emitted(InitCode(P, c, old(nextLabel)))
    {
      hide Compile, CompileSeq, Hierarchy, Ready, Visible, AttrScope, FormalScope;
      ghost var o, l := out, nextLabel;
      var cls := P.classes[c];
      Emit([LabelDef(InitLabel(c))]);
      Emit(ENTER);
      if cls.parent != NoClass {
        Emit([Jal(InitLabel(cls.parent))]);
      } else {
        assert out + [] == out;
      }
      ghost var up := out;
      var inits := Initialisers(cls.attrs);
      ghost var g := CompileSeq(P, c, Visible(env), -3, inits, nextLabel);
      SeqCode(inits, -3);
      Emit([Move(ACC, SELFR)]);
      Emit(Exit(0));
      Assoc4(o, [LabelDef(InitLabel(c))], ENTER, ParentInit(P, c));
      Assoc4(up, g.code, [Move(ACC, SELFR)], Exit(0));
      NestInit(o, [LabelDef(InitLabel(c))], ENTER, ParentInit(P, c), g.code + ([Move(ACC, SELFR)] + Exit(0)));
    }

    /** The assignments of the attributes, in order. */
    method Initialisers(attrs: seq<Attr>) returns (inits: seq<Expr>)
      ensures inits == InitExprs(attrs)
    {
      inits := [];
      var i := 0;
      while i < |attrs|
        invariant 0 <= i <= |attrs| && |inits| == i
        invariant forall j :: 0 <= j < i ==> inits[j] == Assign(attrs[j].name, attrs[j].init)
      {
        inits := inits + [Assign(attrs[i].name, attrs[i].init)];
        i := i + 1;
      }
      assert inits == InitExprs(attrs);
    }

    /** code_method */
    method CodeMethod(c: ClassName, m: Method)
      requires Hierarchy(P) && Ready() && c in P.classes && curClass == c && m.body.Code?
      requires Visible(env) == AttrScope(AttrLayout(P, c))
      requires Checked(P, c, m.body.e, MethodScope(P, c, m.formals).Keys)
      modifies `out, `nextLabel, `env
      ensures Emitted(MethodCode(P, c, m, old(nextLabel)))
    {
      hide Compile, CompileSeq, Hierarchy, Ready, Visible, AttrScope, FormalScope;
      ghost var o := out;
      Emit([LabelDef(MethodLabel(c, m.name))]);
      Emit(ENTER);
      EnterScope();
      NewScope(old(env));
      NoFormals(Visible(env), m.formals);
      var i := 0;
      while i < |m.formals|
        invariant 0 <= i <= |m.formals| && |env| == |old(env)| + 1 && env[..|env| - 1] == old(env)
        invariant Visible(env) == FormalScope(old(Visible(env)), m.formals[..i], |m.formals|)
        invariant out == o + [LabelDef(MethodLabel(c, m.name))] + ENTER && nextLabel == old(nextLabel)
      {
        AddToLast(env, m.formals[i], Local(|m.formals| - i));
        OneFormal(old(Visible(env)), m.formals, i);
        AddId(m.formals[i], Local(|m.formals| - i));
        i := i + 1;
      }
      assert m.formals[..i] == m.formals;
      ghost var g := Compile(P, c, Visible(env), -3, m.body.e, nextLabel);
      Code(m.body.e, -3);
      Emit(Exit(|m.formals|));
      ExitScope();
      Assoc5(o, [LabelDef(MethodLabel(c, m.name))], ENTER, g.code, Exit(|m.formals|));
    }

    /** code_methods: the initialiser and, unless the class is basic, the methods. */
    method CodeMethods(c: ClassName)
      requires Hierarchy(P) && Ready() && c in P.classes && curClass == c && env == [] && ClassChecked(P, c)
      modifies `out, `nextLabel, `env
      ensures Emitted(ClassCode(P, c, old(nextLabel)))
    {
      hide Hierarchy, Ready, Visible, AttrScope, InitCode, MethodsCode, InitsChecked, BodiesChecked, HasMethod;
      ghost var o, g0 := out, InitCode(P, c, nextLabel);
      var attrs := LayoutOf(c);
      EnterScope();
      NewScope([]);
      NoAttrs(attrs);
      var i := 0;
      while i < |attrs|
        invariant 0 <= i <= |attrs| && |env| == 1 && Visible(env) == AttrScope(attrs[..i])
        invariant out == o && nextLabel == old(nextLabel)
      {
        AddToLast(env, attrs[i].name, AttrSlot(i));
        OneAttr(attrs, i);
        AddId(attrs[i].name, AttrSlot(i));
        i := i + 1;
      }
      assert attrs[..i] == attrs;
      CodeInit(c);
      ghost var g1 := MethodsCode(P, c, P.classes[c].methods, nextLabel);
      if c.User? {
        MethodsLoop(c);
      } else {
        NothingToCode(P, c, P.classes[c].methods, nextLabel);
      }
      ExitScope();
      Assoc(o, g0.code, g1.code);
    }

    method LayoutOf(c: ClassName) returns (attrs: seq<Attr>)
      requires Hierarchy(P) && Ready() && c in P.classes
      ensures attrs == AttrLayout(P, c)
    {
      assert table.LaidOut(P, c);
      attrs := table.nodes[c].attrsLayout;
    }

    /** The loop of code_methods over the features. */
    method MethodsLoop(c: ClassName)
      requires Hierarchy(P) && Ready() && c in P.classes && curClass == c && c.User?
      requires Visible(env) == AttrScope(AttrLayout(P, c)) && BodiesChecked(P, c)
      modifies `out, `nextLabel, `env
      ensures Emitted(MethodsCode(P, c, P.classes[c].methods, old(nextLabel)))
    {
      hide Hierarchy, Ready, Visible, AttrScope, MethodCode, MethodScope, Checked;
      ghost var o, done := out, [];
      var ms := P.classes[c].methods;
      ghost var whole := MethodsCode(P, c, ms, nextLabel);
      assert ms[0..] == ms;
      var i := 0;
      while i < |ms|
        invariant 0 <= i <= |ms| && env == old(env) && out == o + done
        invariant var rest := MethodsCode(P, c, ms[i..], nextLabel);
          whole == Gen(done + rest.code, rest.next)
      {
        assert ms[i..][1..] == ms[i + 1..];
        assert ms[i] in ms;
        ghost var g := MethodCode(P, c, ms[i], nextLabel);
        CodeMethod(c, ms[i]);
        Assoc(o, done, g.code);
        Assoc(done, g.code, MethodsCode(P, c, ms[i + 1..], nextLabel).code);
        done := done + g.code;
        i := i + 1;
      }
    }

    /** code_classes: the whole text segment that the generator writes. */
    method CodeClasses()
      requires Hierarchy(P) && Ready() && OrderKnown(P) && env == []
      requires forall c :: c in P.classes ==> ClassChecked(P, c)
      modifies this
      ensures Emitted(ClassesCode(P, P.order, old(nextLabel)))
    {
      hide Hierarchy, Ready, ClassCode, ClassChecked;
      ghost var o, done := out, [];
      ghost var whole := ClassesCode(P, P.order, nextLabel);
      assert P.order[0..] == P.order;
      var i := 0;
      while i < |P.order|
        invariant 0 <= i <= |P.order| && env == [] && out == o + done
        invariant var rest := ClassesCode(P, P.order[i..], nextLabel);
          whole == Gen(done + rest.code, rest.next)
      {
        assert P.order[i..][1..] == P.order[i + 1..];
        curClass := P.order[i];
        ghost var g := ClassCode(P, P.order[i], nextLabel);
        CodeMethods(P.order[i]);
        Assoc(o, done, g.code);
        Assoc(done, g.code, ClassesCode(P, P.order[i + 1..], nextLabel).code);
        done := done + g.code;
        i := i + 1;
      }
    }

    // -------------------------------------------------------------------------------------------
    // The tables and the prototypes.

    /** code_disptab */
    method CodeDispTab(c: ClassName) returns (words: seq<Label>)
      requires Hierarchy(P) && Ready() && c in P.classes
      ensures words == DispTable(P, c)
    {
      hide *;
      DispTableKnown(c);
      var nd := table.nodes[c];
      words := [];
      var i := 0;
      while i < |nd.methsLayout|
        invariant 0 <= i <= |nd.methsLayout| == |DispTable(P, c)| && words == DispTable(P, c)[..i]
      {
        words := words + [MethodLabel(nd.methClassMap[nd.methsLayout[i]], nd.methsLayout[i])];
        i := i + 1;
      }
    }

    /** code_disptabs */
    method CodeDispTabs() returns (tabs: map<ClassName, seq<Label>>)
      requires Hierarchy(P) && Ready() && OrderKnown(P) && forall c :: c in P.order <==> c in P.classes
      ensures tabs == DispTables(P)
    {
      hide Hierarchy, Ready, DispTable;
      tabs := map[];
      var i := 0;
      while i < |P.order|
        invariant 0 <= i <= |P.order| && tabs.Keys == set c | c in P.order[..i]
        invariant forall c :: c in tabs ==> c in P.classes && tabs[c] == DispTable(P, c)
      {
        var words := CodeDispTab(P.order[i]);
        assert P.order[..i + 1] == P.order[..i] + [P.order[i]];
        tabs := tabs[P.order[i] := words];
        i := i + 1;
      }
      assert P.order[..i] == P.order;
      assert tabs == DispTables(P);
    }

    lemma DispTableKnown(c: ClassName)
      requires Hierarchy(P) && Ready() && c in P.classes
      ensures c in table.nodes && |DispTable(P, c)| == |table.nodes[c].methsLayout|
      ensures var nd := table.nodes[c];
        forall i :: 0 <= i < |nd.methsLayout| ==>
          nd.methsLayout[i] in nd.methClassMap && DispTable(P, c)[i] == MethodLabel(nd.methClassMap[nd.methsLayout[i]], nd.methsLayout[i])
    {
      hide Hierarchy, Ready, Nearest, MethLayout, AttrLayout, MethodClass;
      MethodsKnown(c);
      NodeKnown(c);
      DispTableIs(P, c);
    }

    lemma NodeKnown(c: ClassName)
      requires Hierarchy(P) && Ready() && c in P.classes
      ensures c in table.nodes
    {
      hide Hierarchy, Nearest, MethLayout, AttrLayout;
      assert table.LaidOut(P, c);
    }

    lemma MethodsKnown(c: ClassName)
      requires Hierarchy(P) && Ready() && c in P.classes
      ensures var nd := table.nodes[c];
        && Meths(nd.methsLayout, nd.methClassMap) == MethLayout(P, c)
        && forall i :: 0 <= i < |nd.methsLayout| ==>
             nd.methsLayout[i] in nd.methClassMap && nd.methClassMap[nd.methsLayout[i]] == MethodClass(P, c, nd.methsLayout[i])
    {
      hide Hierarchy, Nearest, MethLayout, AttrLayout;
      assert table.LaidOut(P, c);
      MethNearest(P, c);
    }

    /** code_protobj */
    method CodeProtObj(c: ClassName) returns (words: seq<Word>)
      requires Hierarchy(P) && Ready() && c in P.classes
      ensures words == ProtoWords(P, c)
    {
      hide Hierarchy, Ready, AttrLayout, ObjectWords, IntWords, BoolWords, StrWords;
      if c == IntC {
        words := IntWords(P, 0);
      } else if c == BoolC {
        words := BoolWords(P, false);
      } else if c == StringC {
        words := StrWords(P, "");
      } else {
        var attrs := LayoutOf(c);
        words := CodeObject(c, attrs);
      }
    }

    /** code_protobjs */
    method CodeProtObjs() returns (protos: map<ClassName, seq<Word>>)
      requires Hierarchy(P) && Ready() && OrderKnown(P) && forall c :: c in P.order <==> c in P.classes
      ensures protos.Keys == P.classes.Keys && forall c :: c in P.classes ==> protos[c] == ProtoWords(P, c)
    {
      hide Hierarchy, Ready, ProtoWords;
      protos := map[];
      var i := 0;
      while i < |P.order|
        invariant 0 <= i <= |P.order| && protos.Keys == set c | c in P.order[..i]
        invariant forall c :: c in protos ==> c in P.classes && protos[c] == ProtoWords(P, c)
      {
        var words := CodeProtObj(P.order[i]);
        assert P.order[..i + 1] == P.order[..i] + [P.order[i]];
        protos := protos[P.order[i] := words];
        i := i + 1;
      }
      assert P.order[..i] == P.order;
    }

    /** The words of the prototype of a class that is not basic. */
    method CodeObject(c: ClassName, attrs: seq<Attr>) returns (words: seq<Word>)
      ensures words == ObjectWords(P, c, attrs)
    {
      hide TagWord, DefaultWord;
      words := [TagWord(P, c), I(DEFAULT_OBJFIELDS + |attrs|), Disp(c)];
      var i := 0;
      while i < |attrs|
        invariant 0 <= i <= |attrs| && |words| == 3 + i
        invariant words[0] == TagWord(P, c) && words[1] == I(3 + |attrs|) && words[2] == Disp(c)
        invariant forall j :: 0 <= j < i ==> words[3 + j] == DefaultWord(attrs[j].ty)
      {
        words := words + [DefaultWord(attrs[i].ty)];
        i := i + 1;
      }
      assert words == ObjectWords(P, c, attrs);
    }

    /** assign_class_tags fills class_nametab; code_class_objtab writes a row for each of its tags. */
    method CodeClassObjTab() returns (rows: map<int, ClassName>)
      requires forall i :: 0 <= i < |P.order| ==> P.order[i] in P.tag
      ensures rows == ObjTable(P, P.order)
    {
      rows := map[];
      var i := 0;
      while i < |P.order|
        invariant 0 <= i <= |P.order| && rows == ObjTable(P, P.order[..i])
      {
        assert P.order[..i + 1][..i] == P.order[..i];
        rows := rows[P.tag[P.order[i]] := P.order[i]];
        i := i + 1;
      }
      assert P.order[..i] == P.order;
    }
  }

  /** The text that the emitter writes, linked with start-up code and run-time system, is the text of the image. */
  method GenerateText(P: Program, table: CgenClassTable) returns (text: seq<Instr>)
    requires Hierarchy(P) && OrderKnown(P) && Complete(P, table)
    requires forall c :: c in P.classes ==> ClassChecked(P, c)
    ensures text == ProgramText(P)
  {
    hide Hierarchy, Complete, ClassChecked, ClassesCode, RuntimeCode;
    var emitter := new Emitter(P, table);
    emitter.CodeClasses();
    text := BOOT + (emitter.out + RuntimeCode(P, P.order));
  }

  // ---------------------------------------------------------------------------------------------

  /** The initialisers of a class are checked with its attributes in scope. */
  ghost predicate InitsChecked(P: Program, c: ClassName)
    requires Hierarchy(P) && c in P.classes
  {
    CheckedAll(P, c, InitExprs(P.classes[c].attrs), AttrScope(AttrLayout(P, c)).Keys)
  }

  /** The methods of user classes have code, which is checked with formals and attributes in scope. */
  ghost predicate BodiesChecked(P: Program, c: ClassName)
    requires Hierarchy(P) && c in P.classes
  {
    forall m :: m in P.classes[c].methods ==>
      (m.body.Code? <==> c.User?) && (m.body.Code? ==> Checked(P, c, m.body.e, MethodScope(P, c, m.formals).Keys))
  }

  ghost predicate ClassChecked(P: Program, c: ClassName)
    requires Hierarchy(P) && c in P.classes
  {
    InitsChecked(P, c) && BodiesChecked(P, c)
  }

  lemma CaseChecked(P: Program, cls: ClassName, e: Expr, vars: set<Name>)
    requires Hierarchy(P) && e.TypCase? && Checked(P, cls, e, vars)
    ensures GoodBranches(P, CaseTypes(e.cases)) && Checked(P, cls, e.e, vars)
    ensures forall i :: 0 <= i < |e.cases| ==> Checked(P, cls, e.cases[i].body, vars + {e.cases[i].x})
  {
    hide GoodBranches, Hierarchy;
  }

  lemma DispTableIs(P: Program, c: ClassName)
    requires Hierarchy(P) && c in P.classes
    ensures var layout := MethLayout(P, c).layout;
      |DispTable(P, c)| == |layout| && forall i :: 0 <= i < |layout| ==> DispTable(P, c)[i] == MethodLabel(MethodClass(P, c, layout[i]), layout[i])
  {
    hide Hierarchy, MethLayout, MethodClass;
  }

  lemma NewScope(env: seq<Scope>)
    ensures Visible(env + [map[]]) == Visible(env) && (env + [map[]])[..|env|] == env
  {
    assert (env + [map[]])[..|env|] == env;
    assert Visible(env) + map[] == Visible(env);
  }

  lemma AddToLast(env: seq<Scope>, x: Name, p: Place)
    requires env != []
    ensures var env' := env[..|env| - 1] + [env[|env| - 1][x := p]];
      Visible(env') == Visible(env)[x := p] && env'[..|env'| - 1] == env[..|env| - 1] && |env'| == |env|
  {
    var pre, last := env[..|env| - 1], env[|env| - 1];
    assert (pre + [last[x := p]])[..|env| - 1] == pre;
    assert Visible(pre) + last[x := p] == (Visible(pre) + last)[x := p];
  }

  lemma NoFormals(env: Scope, formals: seq<Name>)
    ensures FormalScope(env, formals[..0], |formals|) == env
  {
  }

  lemma OneFormal(env: Scope, formals: seq<Name>, i: nat)
    requires i < |formals|
    ensures FormalScope(env, formals[..i + 1], |formals|) == FormalScope(env, formals[..i], |formals|)[formals[i] := Local(|formals| - i)]
  {
    assert formals[..i + 1][..i] == formals[..i];
  }

  lemma NoAttrs(attrs: seq<Attr>)
    ensures AttrScope(attrs[..0]) == map[] && Visible([]) == map[]
  {
  }

  lemma OneAttr(attrs: seq<Attr>, i: nat)
    requires i < |attrs|
    ensures AttrScope(attrs[..i + 1]) == AttrScope(attrs[..i])[attrs[i].name := AttrSlot(i)]
  {
    assert attrs[..i + 1][..i] == attrs[..i];
  }

  /** The methods of a basic class have no code. */
  lemma {:induction false} NothingToCode(P: Program, c: ClassName, decls: seq<Method>, l: int)
    requires Hierarchy(P) && c in P.classes && BodiesChecked(P, c) && !c.User?
    requires forall m :: m in decls ==> m in P.classes[c].methods
    ensures MethodsCode(P, c, decls, l) == Gen([], l)
    decreases |decls|
  {
    hide Hierarchy, Checked, MethodScope;
    if decls != [] {
      assert decls[0] in decls;
      NothingToCode(P, c, decls[1..], l);
    }
  }

  lemma NestInit(o: seq<Instr>, a: seq<Instr>, b: seq<Instr>, c: seq<Instr>, d: seq<Instr>)
    ensures (o + (a + (b + c))) + d == o + (a + (b + (c + d)))
  {
    Assoc(o, a + (b + c), d);
    Assoc(a, b + c, d);
    Assoc(b, c, d);
  }
}
