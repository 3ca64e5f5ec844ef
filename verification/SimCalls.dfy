/** Activation records: entering and leaving a method, and what a caller may rely on after a call. */
module SimCalls {
  import opened CoolNames
  import opened Inheritance
  import opened CoolSyntax
  import opened Layout
  import opened ClassTags
  import opened CoolSemantics
  import opened Mips
  import opened CodeGen
  import opened SimRel
  import opened SimFrame
  import opened SimSteps

  // ---------------------------------------------------------------------------------------------
  // The calling convention.

  /** Words above address `a` keep their contents. */
  ghost predicate KeptAbove(s: State, t: State, a: int) {
    forall x :: x in s.stack && x > a ==> x in t.stack && t.stack[x] == s.stack[x]
  }

  /**
    A routine entered in `s` with `n` arguments on the stack has returned in `t`: the arguments are
    popped, $fp and $s0 are restored, and the result is in $a0.
   */
  ghost predicate Returned(P: Program, inj: Inj, st: Store, s: State, n: nat, v: Value, st': Store, inj': Inj, t: State)
    requires Hierarchy(P)
  {
    && s.sp.Stk? && s.ra.Ret? && t.pc == s.ra.pc
    && t.sp == Stk(s.sp.a + 4 * n) && t.fp == s.fp && t.slf == s.slf
    && KeptAbove(s, t, s.sp.a + 4 * n)
    && Ext(inj, s.heap, inj', t.heap) && ClassesKept(st.objs, st'.objs)
    && ValRel(P, inj', t.heap, v, t.acc)
    && HeapRel(P, inj', t.heap, t.next, st'.objs) && t.out == st'.out
  }

  ghost predicate CallGood(k: Ctx, fuel: nat, inj: Inj, st: Store, s: State, n: nat, o: Outcome, r: Run)
    requires Hierarchy(k.P)
  {
    match o
    case Val(v, _, st') => Runs(k.img, r.n, s, r.t) && Returned(k.P, inj, st, s, n, v, st', r.inj, r.t)
    case _ => Finishes(k, fuel, s, o, r)
  }

  /** The state in which a caller is, once the `n` words it pushed are popped. */
  ghost function PopState(s: State, n: nat): State
    requires s.sp.Stk?
  {
    s.(sp := Stk(s.sp.a + 4 * n))
  }

  lemma KeptEnv(P: Program, cls: ClassName, scope: Scope, tmp: int, fp: int, env: Env, inj: Inj, h: Heap, s: State, t: State, a: int)
    requires Hierarchy(P) && cls in P.classes && EnvRel(P, cls, scope, tmp, fp, env, inj, h, s.stack)
    requires a <= fp + 4 * tmp && KeptAbove(s, t, a)
    ensures EnvRel(P, cls, scope, tmp, fp, env, inj, h, t.stack)
  {
    forall x | x in env ensures LocalAt(P, scope, tmp, fp, env, inj, h, t.stack, x) {
      assert LocalAt(P, scope, tmp, fp, env, inj, h, s.stack, x);
    }
  }

  /** A caller that pushed `n` arguments in `s` goes on with its own frame after the return. */
  lemma ReturnPost(P: Program, cls: ClassName, self: Value, scope: Scope, tmp: int, n: nat, env: Env, st: Store, inj: Inj, s: State, c: State, v: Value, st': Store, inj': Inj, t: State)
    requires Hierarchy(P) && Rel(P, cls, self, scope, tmp - n, env, st, inj, s) && NoSlotFrom(scope, tmp)
    requires Quiet(s, c) && Returned(P, inj, st, c, n, v, st', inj', t)
    ensures Post(P, cls, self, scope, tmp, inj, st, PopState(s, n), v, env, st', inj', t)
  {
    PopEnv(P, cls, scope, tmp, tmp - n, s.fp.a, env, inj, s.heap, s.stack);
    KeptEnv(P, cls, scope, tmp, s.fp.a, env, inj, s.heap, s, t, s.sp.a + 4 * n);
    EnvMono(P, cls, scope, tmp, s.fp.a, env, inj, s.heap, t.stack, inj', t.heap);
    SelfKept(P, cls, self, st.objs, st'.objs, inj, inj', s.slf);
  }

  lemma SelfKept(P: Program, cls: ClassName, self: Value, objs: seq<Obj>, objs': seq<Obj>, inj: Inj, inj': Inj, w: Word)
    requires Hierarchy(P) && SelfRel(P, cls, self, objs, inj, w) && ClassesKept(objs, objs') && inj <= inj'
    ensures SelfRel(P, cls, self, objs', inj', w)
  {
  }

  // ---------------------------------------------------------------------------------------------
  // emit_enter_func and emit_exit_func.

  /** Right after the entry sequence of a method whose label is at `s.pc`. */
  ghost function EnterState(s: State): State
    requires s.sp.Stk?
  {
    s.(pc := s.pc + 7, sp := Stk(s.sp.a - 12), fp := Stk(s.sp.a), slf := s.acc,
       stack := s.stack[s.sp.a := s.fp][s.sp.a - 4 := s.slf][s.sp.a - 8 := s.ra])
  }

  lemma EnterRun(img: Image, s: State, l: Label)
    requires CodeAt(img.text, s.pc, [LabelDef(l)] + ENTER) && s.sp.Stk?
    ensures Runs(img, 7, s, EnterState(s))
  {
    hide Step, Runs, CodeAt;
    var code := [LabelDef(l)] + ENTER;
    Fetch(img, s.pc, code, 0);
    Fetch(img, s.pc, code, 1);
    Fetch(img, s.pc, code, 2);
    Fetch(img, s.pc, code, 3);
    var s1 := s.(pc := s.pc + 1);
    var s2 := s.(pc := s.pc + 2, sp := Stk(s.sp.a - 12));
    var s3 := s2.(pc := s.pc + 3, stack := s.stack[s.sp.a := s.fp]);
    var s4 := s3.(pc := s.pc + 4, stack := s3.stack[s.sp.a - 4 := s.slf]);
    LabelStep(img, s, l);
    StepAddiu(img, s1, SP, SP, -12);
    RunsTwo(img, s, s1, s2);
    StepSw(img, s2, FP, 3, SP);
    StepSw(img, s3, SELFR, 2, SP);
    RunsTwo(img, s2, s3, s4);
    RunsTrans(img, 2, 2, s, s2, s4);
    EnterRest(img, s, l, s4);
  }

  lemma EnterRest(img: Image, s: State, l: Label, s4: State)
    requires CodeAt(img.text, s.pc, [LabelDef(l)] + ENTER) && s.sp.Stk?
    requires s4 == s.(pc := s.pc + 4, sp := Stk(s.sp.a - 12), stack := s.stack[s.sp.a := s.fp][s.sp.a - 4 := s.slf])
    requires Runs(img, 4, s, s4)
    ensures Runs(img, 7, s, EnterState(s))
  {
    hide Step, Runs, CodeAt;
    var code := [LabelDef(l)] + ENTER;
    Fetch(img, s.pc, code, 4);
    Fetch(img, s.pc, code, 5);
    Fetch(img, s.pc, code, 6);
    var s5 := s4.(pc := s.pc + 5, stack := s4.stack[s.sp.a - 8 := s.ra]);
    var s6 := s5.(pc := s.pc + 6, fp := Stk(s.sp.a));
    StepSw(img, s4, RA, 1, SP);
    StepAddiu(img, s5, FP, SP, 12);
    RunsTwo(img, s4, s5, s6);
    RunsTrans(img, 4, 2, s, s4, s6);
    StepMove(img, s6, SELFR, ACC);
    RunsMore(img, 6, s, s6, EnterState(s));
  }

  /** The saved words of a frame whose base is `a`. */
  ghost predicate Saved(t: State, a: int, fp: Word, slf: Word, ra: Word) {
    && a in t.stack && t.stack[a] == fp
    && a - 4 in t.stack && t.stack[a - 4] == slf
    && a - 8 in t.stack && t.stack[a - 8] == ra
  }

  lemma ExitRun(img: Image, t: State, n: nat, a: int, fp: Word, slf: Word, pc: nat) returns (u: State)
    requires CodeAt(img.text, t.pc, Exit(n)) && t.sp == Stk(a - 12) && Saved(t, a, fp, slf, Ret(pc))
    ensures Runs(img, 5, t, u)
    ensures u == t.(pc := pc, sp := Stk(a + 4 * n), fp := fp, slf := slf, ra := Ret(pc))
  {
    var t3 := ExitLoads(img, t, n, a, fp, slf, pc);
    Fetch(img, t.pc, Exit(n), 3);
    Fetch(img, t.pc, Exit(n), 4);
    u := t3.(pc := pc, sp := Stk(a + 4 * n));
    ExitReturn(img, t3, n, a, pc, u);
    RunsTrans(img, 3, 2, t, t3, u);
  }

  lemma ExitLoads(img: Image, t: State, n: nat, a: int, fp: Word, slf: Word, pc: nat) returns (u: State)
    requires CodeAt(img.text, t.pc, Exit(n)) && t.sp == Stk(a - 12) && Saved(t, a, fp, slf, Ret(pc))
    ensures Runs(img, 3, t, u)
    ensures u == t.(pc := t.pc + 3, fp := fp, slf := slf, ra := Ret(pc))
  {
    hide Step, Runs, CodeAt;
    Fetch(img, t.pc, Exit(n), 0);
    Fetch(img, t.pc, Exit(n), 1);
    Fetch(img, t.pc, Exit(n), 2);
    var t1 := t.(pc := t.pc + 1, fp := fp);
    var t2 := t1.(pc := t.pc + 2, slf := slf);
    u := t2.(pc := t.pc + 3, ra := Ret(pc));
    StepLw(img, t, FP, 3, SP, fp);
    StepLw(img, t1, SELFR, 2, SP, slf);
    StepLw(img, t2, RA, 1, SP, Ret(pc));
    RunsTwo(img, t, t1, t2);
    RunsMore(img, 2, t, t2, u);
  }

  lemma ExitReturn(img: Image, t3: State, n: nat, a: int, pc: nat, u: State)
    requires t3.pc + 1 < |img.text| && img.text[t3.pc] == Addiu(SP, SP, 4 * (n + 3)) && img.text[t3.pc + 1] == JrRa
    requires t3.sp == Stk(a - 12) && t3.ra == Ret(pc) && u == t3.(pc := pc, sp := Stk(a + 4 * n))
    ensures Runs(img, 2, t3, u)
  {
    RunsTwo(img, t3, t3.(pc := t3.pc + 1, sp := Stk(a + 4 * n)), u);
  }

  // ---------------------------------------------------------------------------------------------
  // The scope of a method.

  lemma {:induction false} AttrScopeFacts(layout: seq<Attr>)
    requires forall i, j :: 0 <= i < j < |layout| ==> layout[i].name != layout[j].name
    ensures forall x :: x in AttrScope(layout) ==> AttrScope(layout)[x].AttrSlot?
    ensures forall i :: 0 <= i < |layout| ==> layout[i].name in AttrScope(layout) && AttrScope(layout)[layout[i].name] == AttrSlot(i)
    decreases |layout|
  {
    if layout != [] {
      var k := |layout| - 1;
      AttrScopeFacts(layout[..k]);
      forall i | 0 <= i < |layout|
        ensures layout[i].name in AttrScope(layout) && AttrScope(layout)[layout[i].name] == AttrSlot(i)
      {
        if i < k {
          assert layout[..k][i] == layout[i];
        }
      }
    }
  }

  /** Formal i of n is n - i words above $fp; every other name keeps the place it had. */
  lemma {:induction false} FormalScopeFacts(env: Scope, formals: seq<Name>, n: nat)
    requires FormalsOK(formals)
    ensures forall i :: 0 <= i < |formals| ==> formals[i] in FormalScope(env, formals, n) && FormalScope(env, formals, n)[formals[i]] == Local(n - i)
    ensures forall x :: x !in formals ==>
      (x in FormalScope(env, formals, n) <==> x in env) && (x in env ==> FormalScope(env, formals, n)[x] == env[x])
    decreases |formals|
  {
    if formals != [] {
      var k := |formals| - 1;
      FormalScopeFacts(env, formals[..k], n);
      forall i | 0 <= i < |formals|
        ensures formals[i] in FormalScope(env, formals, n) && FormalScope(env, formals, n)[formals[i]] == Local(n - i)
      {
        if i < k {
          assert formals[..k][i] == formals[i];
        }
      }
      forall x | x !in formals ensures x !in formals[..k] && x != formals[k] {
      }
    }
  }

  lemma {:induction false} BindFacts(formals: seq<Name>, vs: seq<Value>)
    requires FormalsOK(formals) && |formals| == |vs|
    ensures forall x :: x in Bind(formals, vs) <==> x in formals
    ensures forall i :: 0 <= i < |formals| ==> formals[i] in Bind(formals, vs) && Bind(formals, vs)[formals[i]] == vs[i]
    decreases |formals|
  {
    if formals != [] {
      var k := |formals| - 1;
      BindFacts(formals[..k], vs[..k]);
      assert formals == formals[..k] + [formals[k]];
      forall i | 0 <= i < |formals| ensures formals[i] in Bind(formals, vs) && Bind(formals, vs)[formals[i]] == vs[i] {
        if i < k {
          assert formals[..k][i] == formals[i];
        }
      }
    }
  }

  /** The actual arguments on the stack, the last one pushed just above address `a`. */
  ghost predicate ArgsOn(P: Program, inj: Inj, h: Heap, stack: map<int, Word>, a: int, vs: seq<Value>) {
    forall i :: 0 <= i < |vs| ==> ArgOn(P, inj, h, stack, a, vs, i)
  }

  ghost predicate ArgOn(P: Program, inj: Inj, h: Heap, stack: map<int, Word>, a: int, vs: seq<Value>, i: nat)
    requires i < |vs|
  {
    a + 4 * (|vs| - i) in stack && ValRel(P, inj, h, vs[i], stack[a + 4 * (|vs| - i)])
  }

  lemma MethodScopeOK(P: Program, c: ClassName, formals: seq<Name>, vs: seq<Value>)
    requires Hierarchy(P) && c in P.classes && AttrsOK(P, c) && FormalsOK(formals) && |formals| == |vs|
    ensures ScopeOK(P, c, MethodScope(P, c, formals), Bind(formals, vs))
  {
    var layout := AttrLayout(P, c);
    var scope, env := MethodScope(P, c, formals), Bind(formals, vs);
    AttrScopeFacts(layout);
    FormalScopeFacts(AttrScope(layout), formals, |formals|);
    BindFacts(formals, vs);
    forall x, y | x in env && y in env && x != y ensures OtherPlace(scope, x, y) {
      var i :| 0 <= i < |formals| && formals[i] == x;
      var j :| 0 <= j < |formals| && formals[j] == y;
    }
    forall i: nat | i < |layout| ensures AttrScoped(P, c, scope, env, i) {
    }
  }

  /** Each formal finds its argument. */
  lemma FormalsPlaced(P: Program, c: ClassName, formals: seq<Name>, vs: seq<Value>, inj: Inj, h: Heap, stack: map<int, Word>, stack': map<int, Word>, a: int)
    requires Hierarchy(P) && c in P.classes && FormalsOK(formals) && |formals| == |vs|
    requires ArgsOn(P, inj, h, stack, a, vs) && forall x :: x in stack && x > a ==> x in stack' && stack'[x] == stack[x]
    ensures forall x :: x in Bind(formals, vs) ==>
      LocalAt(P, MethodScope(P, c, formals), -3, a, Bind(formals, vs), inj, h, stack', x)
  {
    var scope, env := MethodScope(P, c, formals), Bind(formals, vs);
    FormalScopeFacts(AttrScope(AttrLayout(P, c)), formals, |formals|);
    BindFacts(formals, vs);
    forall x | x in env ensures LocalAt(P, scope, -3, a, env, inj, h, stack', x) {
      var i :| 0 <= i < |formals| && formals[i] == x;
      assert ArgOn(P, inj, h, stack, a, vs, i);
    }
  }

  /** Every local of a method scope is an argument word. */
  lemma MethodSlots(P: Program, c: ClassName, formals: seq<Name>, a: int, x: int)
    requires Hierarchy(P) && c in P.classes && AttrsOK(P, c) && FormalsOK(formals)
    requires IsSlot(MethodScope(P, c, formals), a, x)
    ensures a < x <= a + 4 * |formals|
  {
    var scope := MethodScope(P, c, formals);
    AttrScopeFacts(AttrLayout(P, c));
    FormalScopeFacts(AttrScope(AttrLayout(P, c)), formals, |formals|);
    var y :| y in scope && scope[y].Local? && x == a + 4 * scope[y].off;
    if y in formals {
      var i :| 0 <= i < |formals| && formals[i] == y;
    }
  }

  // ---------------------------------------------------------------------------------------------
  // The frame of a method or an initialiser.

  lemma ClassIsOK(P: Program, c: ClassName)
    requires WellFormed(P) && c in P.classes
    ensures Hierarchy(P) && ClassOK(P, c)
  {
    hide Hierarchy;
  }

  /** Entering a routine establishes the relation for its body. */
  lemma EntryRel(P: Program, c: ClassName, formals: seq<Name>, self: Value, vs: seq<Value>, st: Store, inj: Inj, s: State)
    requires WellFormed(P) && c in P.classes && FormalsOK(formals) && |formals| == |vs|
    requires s.sp.Stk? && HeapRel(P, inj, s.heap, s.next, st.objs) && s.out == st.out
    requires SelfRel(P, c, self, st.objs, inj, s.acc)
    requires ArgsOn(P, inj, s.heap, s.stack, s.sp.a, vs)
    ensures Rel(P, c, self, MethodScope(P, c, formals), -3, Bind(formals, vs), st, inj, EnterState(s))
  {
    hide WellFormed, MethodScope, HeapRel, Bind, AttrLayout, FormalScope, AttrScope;
    ClassIsOK(P, c);
    MethodScopeOK(P, c, formals, vs);
    FormalsPlaced(P, c, formals, vs, inj, s.heap, s.stack, EnterState(s).stack, s.sp.a);
  }

  lemma OnlyArguments(P: Program, c: ClassName, formals: seq<Name>, a: int, x: int)
    requires WellFormed(P) && c in P.classes && FormalsOK(formals) && (x <= a || x > a + 4 * |formals|)
    ensures !IsSlot(MethodScope(P, c, formals), a, x)
  {
    hide Hierarchy, MethodScope, AttrLayout;
    assert ClassOK(P, c);
    if IsSlot(MethodScope(P, c, formals), a, x) {
      MethodSlots(P, c, formals, a, x);
    }
  }

  /** The saved words survive the body. */
  lemma SavedKept(P: Program, c: ClassName, formals: seq<Name>, s: State, t: State)
    requires WellFormed(P) && c in P.classes && FormalsOK(formals) && s.sp.Stk?
    requires FrameKept(MethodScope(P, c, formals), EnterState(s), t)
    ensures Saved(t, s.sp.a, s.fp, s.slf, s.ra)
    ensures KeptAbove(s, t, s.sp.a + 4 * |formals|)
  {
    hide Hierarchy, WellFormed, MethodScope, AttrLayout, FormalsOK, IsSlot;
    SoundHierarchy(P);
    var scope, e := MethodScope(P, c, formals), EnterState(s);
    forall x | x <= s.sp.a || x > s.sp.a + 4 * |formals| ensures !IsSlot(scope, s.sp.a, x) {
      OnlyArguments(P, c, formals, s.sp.a, x);
    }
    assert Saved(e, s.sp.a, s.fp, s.slf, s.ra);
  }

  lemma SoundHierarchy(P: Program)
    requires WellFormed(P)
    ensures Hierarchy(P)
  {
  }

  /** The exit sequence after the body, whose value is in $a0. */
  lemma ExitReturned(k: Ctx, c: ClassName, formals: seq<Name>, self: Value, st: Store, inj: Inj, s: State, v: Value, env': Env, st': Store, inj': Inj, t: State, n: nat) returns (u: State)
    requires WellFormed(k.P) && c in k.P.classes && FormalsOK(formals) && s.sp.Stk? && s.ra.Ret?
    requires Post(k.P, c, self, MethodScope(k.P, c, formals), -3, inj, st, EnterState(s), v, env', st', inj', t)
    requires Runs(k.img, n, s, t) && CodeAt(k.img.text, t.pc, Exit(|formals|))
    ensures Runs(k.img, n + 5, s, u)
    ensures Returned(k.P, inj, st, s, |formals|, v, st', inj', u)
  {
    hide Hierarchy, WellFormed, Saved, KeptAbove, Returned, Rel, Ext, Runs, CodeAt, Exit, MethodScope, FrameKept, FormalsOK;
    SoundHierarchy(k.P);
    SavedKept(k.P, c, formals, s, t);
    u := RestoreFrame(k.img, s, t, |formals|, n);
    RestoredReturned(k.P, c, self, MethodScope(k.P, c, formals), st, inj, s, |formals|, v, env', st', inj', t, u);
  }

  lemma RestoreFrame(img: Image, s: State, t: State, n: nat, steps: nat) returns (u: State)
    requires s.sp.Stk? && s.ra.Ret? && t.sp == Stk(s.sp.a - 12) && Saved(t, s.sp.a, s.fp, s.slf, s.ra)
    requires Runs(img, steps, s, t) && CodeAt(img.text, t.pc, Exit(n))
    ensures Runs(img, steps + 5, s, u)
    ensures u == t.(pc := s.ra.pc, sp := Stk(s.sp.a + 4 * n), fp := s.fp, slf := s.slf, ra := s.ra)
  {
    u := ExitRun(img, t, n, s.sp.a, s.fp, s.slf, s.ra.pc);
    RunsTrans(img, steps, 5, s, t, u);
  }

  lemma RestoredReturned(P: Program, c: ClassName, self: Value, scope: Scope, st: Store, inj: Inj, s: State, n: nat, v: Value, env': Env, st': Store, inj': Inj, t: State, u: State)
    requires Hierarchy(P) && s.sp.Stk? && s.ra.Ret?
    requires Post(P, c, self, scope, -3, inj, st, EnterState(s), v, env', st', inj', t)
    requires u == t.(pc := s.ra.pc, sp := Stk(s.sp.a + 4 * n), fp := s.fp, slf := s.slf, ra := s.ra)
    requires KeptAbove(s, t, s.sp.a + 4 * n)
    ensures Returned(P, inj, st, s, n, v, st', inj', u)
  {
  }
}
