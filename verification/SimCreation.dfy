/** Initialisers and `new`, given the runs of the attribute initialisers. */
module SimCreation {
  import opened CoolNames
  import opened Inheritance
  import opened CoolSyntax
  import opened Layout
  import opened ClassTags
  import opened CoolSemantics
  import opened Mips
  import opened CodeGen
  import opened CodeGenEquations
  import opened SemanticsEquations
  import opened SimRel
  import opened SimFrame
  import opened SimSteps
  import opened SimVars
  import opened SimCalls
  import opened SimObjects
  import opened SimScopes
  import opened SimFinish
  import opened SimDispatch
  import opened SimConstructs
  import opened SimMethods

  lemma InitCases(P: Program, fuel: nat, c: ClassName, self: Value, st: Store)
    requires Hierarchy(P) && c in P.classes
    ensures var up := P.classes[c].parent;
      && (up == NoClass ==>
            Init(P, fuel, c, self, st) == InitDone(self, EvalSeq(P, fuel, c, self, map[], st, InitExprs(P.classes[c].attrs))))
      && (up != NoClass ==> up in P.classes && HasClass(P, c) && Inherits(P, c, up))
      && (up != NoClass && fuel == 0 ==> Init(P, fuel, c, self, st) == Timeout)
      && (up != NoClass && fuel > 0 ==>
            var o := Init(P, fuel - 1, up, self, st);
            Init(P, fuel, c, self, st) ==
              if !o.Val? then o
              else InitDone(self, EvalSeq(P, fuel, c, self, map[], o.st, InitExprs(P.classes[c].attrs))))
  {
    hide EvalSeq, InitExprs, InitDone;
    ParentAbove(P, c);
  }

  lemma ParentAbove(P: Program, c: ClassName)
    requires Hierarchy(P) && c in P.classes
    ensures HasClass(P, c) && Up(P, c) == P.classes[c].parent
    ensures P.classes[c].parent != NoClass ==> P.classes[c].parent in P.classes && Inherits(P, c, P.classes[c].parent)
  {
    if c != ObjectC {
      assert HasParent(Parents(P), c);
    }
  }

  /** The scope of an initialiser. */
  ghost function InitScope(P: Program, c: ClassName): Scope
    requires Hierarchy(P) && c in P.classes
  {
    MethodScope(P, c, [])
  }

  lemma InitScopeIs(P: Program, c: ClassName)
    requires Hierarchy(P) && c in P.classes
    ensures InitScope(P, c) == AttrScope(AttrLayout(P, c)) && Bind([], []) == map[]
  {
  }

  lemma InitText(k: Ctx, c: ClassName) returns (l: int)
    requires Hierarchy(k.P) && ImageOK(k) && c in k.P.classes
    ensures CodeAt(k.img.text, Find(k.img.text, InitLabel(c)), InitCode(k.P, c, l).code)
  {
    assert InitPlaced(k, c);
    l :| Placed(k.img, InitLabel(c), InitCode(k.P, c, l).code);
  }

  lemma InitCodeIs(P: Program, c: ClassName, l: int)
    requires Hierarchy(P) && c in P.classes
    ensures var g := CompileSeq(P, c, InitScope(P, c), -3, InitExprs(P.classes[c].attrs), l);
      InitCode(P, c, l).code == [LabelDef(InitLabel(c))] + (ENTER + (ParentInit(P, c) + (g.code + ([Move(ACC, SELFR)] + Exit(0)))))
    ensures |ENTER| == 6
  {
    hide CompileSeq, Hierarchy, ParentInit, Exit, InitExprs, AttrScope, AttrLayout;
    InitScopeIs(P, c);
  }

  lemma SplitInit(text: seq<Instr>, pc: nat, head: seq<Instr>, enter: seq<Instr>, up: seq<Instr>, code: seq<Instr>, move: seq<Instr>, exit: seq<Instr>)
    requires |head| == 1 && |enter| == 6 && |move| == 1
    requires CodeAt(text, pc, head + (enter + (up + (code + (move + exit)))))
    ensures CodeAt(text, pc, head + enter) && CodeAt(text, pc + 7, up) && CodeAt(text, pc + 7 + |up|, code)
    ensures CodeAt(text, pc + 7 + |up| + |code|, move) && CodeAt(text, pc + 7 + |up| + |code| + 1, exit)
  {
    hide CodeAt;
    var tail := up + (code + (move + exit));
    assert head + (enter + tail) == (head + enter) + tail;
    CodeSplit(text, pc, head + enter, tail);
    CodeSplit(text, pc + 7, up, code + (move + exit));
    CodeSplit(text, pc + 7 + |up|, code, move + exit);
    CodeSplit(text, pc + 7 + |up| + |code|, move, exit);
  }

  lemma InitPieces(k: Ctx, c: ClassName, l: int)
    requires Hierarchy(k.P) && c in k.P.classes
    requires CodeAt(k.img.text, Find(k.img.text, InitLabel(c)), InitCode(k.P, c, l).code)
    ensures var pc := Find(k.img.text, InitLabel(c));
      var up := ParentInit(k.P, c);
      var g := CompileSeq(k.P, c, InitScope(k.P, c), -3, InitExprs(k.P.classes[c].attrs), l);
      && CodeAt(k.img.text, pc, [LabelDef(InitLabel(c))] + ENTER)
      && CodeAt(k.img.text, pc + 7, up)
      && CodeAt(k.img.text, pc + 7 + |up|, g.code)
      && CodeAt(k.img.text, pc + 7 + |up| + |g.code|, [Move(ACC, SELFR)])
      && CodeAt(k.img.text, pc + 7 + |up| + |g.code| + 1, Exit(0))
  {
    hide *;
    InitCodeIs(k.P, c, l);
    var up := ParentInit(k.P, c);
    var g := CompileSeq(k.P, c, InitScope(k.P, c), -3, InitExprs(k.P.classes[c].attrs), l);
    SplitInit(k.img.text, Find(k.img.text, InitLabel(c)), [LabelDef(InitLabel(c))], ENTER, up, g.code, [Move(ACC, SELFR)], Exit(0));
  }

  lemma ParentCall(P: Program, c: ClassName)
    requires Hierarchy(P) && c in P.classes
    ensures ParentInit(P, c) == if P.classes[c].parent == NoClass then [] else [Jal(InitLabel(P.classes[c].parent))]
  {
  }

  /** In front of the initialiser of `c` for the object `self`. */
  ghost predicate AtInit(k: Ctx, inj: Inj, st: Store, s: State, c: ClassName, self: Value)
    requires Hierarchy(k.P)
  {
    AtCallee(k, inj, st, s, self, [], InitLabel(c)) && SelfRel(k.P, c, self, st.objs, inj, s.acc)
  }

  lemma InitEnter(k: Ctx, inj: Inj, st: Store, s: State, c: ClassName, self: Value)
    requires OK(k) && Hierarchy(k.P) && c in k.P.classes && AtInit(k, inj, st, s, c, self)
    requires CodeAt(k.img.text, s.pc, [LabelDef(InitLabel(c))] + ENTER)
    ensures s.sp.Stk? && s.ra.Ret? && Runs(k.img, 7, s, EnterState(s)) && EnterState(s).pc == s.pc + 7
    ensures EnterState(s).acc == s.acc
    ensures Rel(k.P, c, self, InitScope(k.P, c), -3, map[], st, inj, EnterState(s))
    ensures NoSlotFrom(InitScope(k.P, c), -3)
    ensures ValRel(k.P, inj, EnterState(s).heap, self, EnterState(s).acc)
  {
    hide Rel, Runs, Step, MethodScope, CodeAt, ENTER, SelfRel, OK;
    MethodEnter(k, inj, st, s, c, [], self, [], InitLabel(c));
    InitScopeIs(k.P, c);
    ScopeAbove(k.P, c, self, InitScope(k.P, c), -3, map[], st, inj, EnterState(s));
  }

  /** The jump to the initialiser of the parent. */
  lemma ParentJump(k: Ctx, inj: Inj, st: Store, s1: State, c: ClassName, up: ClassName, self: Value) returns (c0: State)
    requires OK(k) && Hierarchy(k.P) && c in k.P.classes && up in k.P.classes && HasClass(k.P, c) && Inherits(k.P, c, up)
    requires Rel(k.P, c, self, InitScope(k.P, c), -3, map[], st, inj, s1) && s1.acc == s1.slf
    requires CodeAt(k.img.text, s1.pc, [Jal(InitLabel(up))])
    ensures Runs(k.img, 1, s1, c0) && Quiet(s1, c0) && c0.ra == Ret(s1.pc + 1)
    ensures AtInit(k, inj, st, c0, up, self)
  {
    hide OK, WellFormed, ImageOK, Step, Runs, Halts, CodeAt, Find, Hierarchy;
    c0 := JalRun(k.img, s1, InitLabel(up));
    SelfUp(k.P, c, up, self, st.objs, inj, s1.slf);
  }

  lemma SelfUp(P: Program, c: ClassName, up: ClassName, self: Value, objs: seq<Obj>, inj: Inj, w: Word)
    requires Hierarchy(P) && SelfRel(P, c, self, objs, inj, w) && HasClass(P, c) && Inherits(P, c, up)
    ensures SelfRel(P, up, self, objs, inj, w)
  {
    AncTransitive(Parents(P), objs[self.id].cls, c, up);
  }

  /** The initialiser of the parent has returned. */
  lemma ParentReturn(k: Ctx, fuel: nat, inj: Inj, st: Store, s1: State, c: ClassName, self: Value, c0: State, o: Outcome, rc: Run) returns (q: Run)
    requires OK(k) && Hierarchy(k.P) && c in k.P.classes && o.Val?
    requires Rel(k.P, c, self, InitScope(k.P, c), -3, map[], st, inj, s1) && NoSlotFrom(InitScope(k.P, c), -3)
    requires Runs(k.img, 1, s1, c0) && Quiet(s1, c0) && c0.ra == Ret(s1.pc + 1)
    requires CallGood(k, fuel, inj, st, c0, 0, o, rc)
    ensures Runs(k.img, q.n, s1, q.t) && q.t.pc == s1.pc + 1
    ensures Mid(k.P, c, self, InitScope(k.P, c), -3, inj, st, s1, map[], o.st, q.inj, q.t)
    ensures Rel(k.P, c, self, InitScope(k.P, c), -3, map[], o.st, q.inj, q.t)
  {
    hide OK, Rel, Runs, InitScope, NoSlotFrom;
    RelStk(k.P, c, self, InitScope(k.P, c), -3, map[], st, inj, s1);
    ReturnPost(k.P, c, self, InitScope(k.P, c), -3, 0, map[], st, inj, s1, c0, o.v, o.st, rc.inj, rc.t);
    RunsTrans(k.img, 1, rc.n, s1, c0, rc.t);
    q := Run(1 + rc.n, rc.t, rc.inj);
  }

  lemma RelStk(P: Program, cls: ClassName, self: Value, scope: Scope, tmp: int, env: Env, st: Store, inj: Inj, s: State)
    requires Hierarchy(P) && Rel(P, cls, self, scope, tmp, env, st, inj, s)
    ensures s.sp.Stk? && PopState(s, 0) == s
  {
  }

  lemma InitStops(k: Ctx, fuel: nat, s: State, s1: State, c0: State, inj: Inj, st: Store, o: Outcome, rc: Run) returns (r: Run)
    requires Hierarchy(k.P) && fuel > 0 && !o.Val? && Runs(k.img, 7, s, s1) && Runs(k.img, 1, s1, c0)
    requires CallGood(k, fuel - 1, inj, st, c0, 0, o, rc)
    ensures CallGood(k, fuel, inj, st, s, 0, o, r)
  {
    RunsTrans(k.img, 7, 1, s, s1, c0);
    r := FinishesAfterStep(k, fuel, s, 8, c0, o, rc);
  }

  lemma InitTimeout(k: Ctx, inj: Inj, st: Store, s: State) returns (r: Run)
    requires Hierarchy(k.P)
    ensures CallGood(k, 0, inj, st, s, 0, Timeout, r)
  {
    RunsNone(k.img, s);
    r := Run(0, s, inj);
  }

  /** The attributes are initialised: return self. */
  lemma InitLeave(k: Ctx, fuel: nat, inj: Inj, st: Store, s: State, c: ClassName, self: Value, env1: Env, st1: Store, q: Run) returns (r: Run)
    requires OK(k) && Hierarchy(k.P) && c in k.P.classes && s.sp.Stk? && s.ra.Ret? && Runs(k.img, 7, s, EnterState(s))
    requires Runs(k.img, q.n, EnterState(s), q.t)
    requires Mid(k.P, c, self, InitScope(k.P, c), -3, inj, st, EnterState(s), env1, st1, q.inj, q.t)
    requires CodeAt(k.img.text, q.t.pc, [Move(ACC, SELFR)]) && CodeAt(k.img.text, q.t.pc + 1, Exit(0))
    ensures CallGood(k, fuel, inj, st, s, 0, InitDone(self, Val(VVoid, env1, st1)), r)
  {
    hide OK, WellFormed, Rel, Runs, InitScope, CodeAt, Mid, Exit, Post, Step, ValRel;
    Sound(k);
    var t := MoveSelf(k, c, self, InitScope(k.P, c), -3, inj, st, EnterState(s), env1, st1, q);
    RunsTrans(k.img, 7, q.n + 1, s, EnterState(s), t);
    InitScopeIsMethod(k.P, c);
    var u := ExitReturned(k, c, [], self, st, inj, s, self, env1, st1, q.inj, t, 8 + q.n);
    r := Run(13 + q.n, u, q.inj);
  }

  lemma Sound(k: Ctx)
    requires OK(k)
    ensures WellFormed(k.P)
  {
  }

  lemma InitScopeIsMethod(P: Program, c: ClassName)
    requires Hierarchy(P) && c in P.classes
    ensures InitScope(P, c) == MethodScope(P, c, [])
  {
  }

  lemma MoveSelf(k: Ctx, cls: ClassName, self: Value, scope: Scope, tmp: int, inj: Inj, st: Store, s: State, env1: Env, st1: Store, q: Run) returns (t: State)
    requires Hierarchy(k.P) && Runs(k.img, q.n, s, q.t) && Mid(k.P, cls, self, scope, tmp, inj, st, s, env1, st1, q.inj, q.t)
    requires CodeAt(k.img.text, q.t.pc, [Move(ACC, SELFR)])
    ensures Runs(k.img, q.n + 1, s, t) && t.pc == q.t.pc + 1
    ensures Post(k.P, cls, self, scope, tmp, inj, st, s, self, env1, st1, q.inj, t)
  {
    hide Hierarchy;
    Fetch(k.img, q.t.pc, [Move(ACC, SELFR)], 0);
    t := q.t.(pc := q.t.pc + 1, acc := q.t.slf);
    RunsMore(k.img, q.n, s, q.t, t);
    MidQuiet(k.P, cls, self, scope, tmp, inj, st, s, env1, st1, q.inj, q.t, t);
  }

  /** An attribute initialiser ended the program. */
  lemma InitSeqStops(k: Ctx, fuel: nat, inj: Inj, st: Store, s: State, s1: State, q: Run, cls: ClassName, self: Value, scope: Scope, st1: Store, len: nat, o: Outcome, r1: Run) returns (r: Run)
    requires Hierarchy(k.P) && !o.Val? && Runs(k.img, 7, s, s1) && Runs(k.img, q.n, s1, q.t)
    requires Good(k, fuel, cls, self, scope, -3, q.inj, st1, q.t, len, o, r1)
    ensures CallGood(k, fuel, inj, st, s, 0, o, r)
  {
    RunsTrans(k.img, 7, q.n, s, s1, q.t);
    r := FinishesAfter(k, fuel, s, 7 + q.n, q.t, o, r1);
  }

  lemma InitDoneIs(self: Value, o: Outcome)
    ensures o.Val? ==> InitDone(self, o) == InitDone(self, Val(VVoid, o.env, o.st))
    ensures !o.Val? ==> InitDone(self, o) == o
  {
  }

  lemma NoInits(P: Program, fuel: nat, c: ClassName, self: Value, st: Store, scope: Scope, l: int)
    requires Hierarchy(P) && c in P.classes && P.classes[c].attrs == []
    ensures EvalSeq(P, fuel, c, self, map[], st, InitExprs(P.classes[c].attrs)) == Val(VVoid, map[], st)
    ensures CompileSeq(P, c, scope, -3, InitExprs(P.classes[c].attrs), l).code == []
  {
  }

  // ---------------------------------------------------------------------------------------------
  // new C, for a class that is not basic.

  lemma OwnClass(P: Program, c: ClassName)
    requires Hierarchy(P) && c in P.classes
    ensures Inherits(P, c, c)
  {
  }

  lemma IdsAligned(P: Program, inj: Inj, h: Heap, next: nat, objs: seq<Obj>)
    requires Hierarchy(P) && HeapRel(P, inj, h, next, objs)
    ensures |inj| == |objs|
  {
  }

  lemma SameFrame(scope: Scope, s: State, t: State)
    requires s.sp.Stk? && s.fp.Stk? && t.stack == s.stack
    ensures FrameKept(scope, s, t)
  {
  }

  /** The prototype has been copied: a new object of the store, whose block is in $a0. */
  lemma CopyProto(k: Ctx, cls: ClassName, self: Value, scope: Scope, tmp: int, env: Env, st: Store, inj: Inj, s: State, c: ClassName, t: State) returns (st1: Store)
    requires OK(k) && Hierarchy(k.P) && Rel(k.P, cls, self, scope, tmp, env, st, inj, s) && c in k.P.classes && !IsBasic(c)
    requires Copied(s, ProtoWords(k.P, c), t)
    ensures st1 == st.(objs := st.objs + [Obj(c, Defaults(AttrLayout(k.P, c)))])
    ensures Mid(k.P, cls, self, scope, tmp, inj, st, s, env, st1, inj + [Dyn(s.next)], t)
    ensures ValRel(k.P, inj + [Dyn(s.next)], t.heap, VObj(|st.objs|), t.acc)
    ensures SelfRel(k.P, c, VObj(|st.objs|), st1.objs, inj + [Dyn(s.next)], t.acc)
  {
    hide OK, WellFormed, Hierarchy, HeapRel, EnvRel, ObjRel, Ext, ProtoWords, AttrLayout, Defaults, FrameKept;
    Sound(k);
    st1 := st.(objs := st.objs + [Obj(c, Defaults(AttrLayout(k.P, c)))]);
    ProtoRel(k.P, inj, s.heap, s.next, st.objs, c);
    NewObjHeapRel(k.P, inj, s.heap, s.next, st.objs, Obj(c, Defaults(AttrLayout(k.P, c))), ProtoWords(k.P, c));
    EnvMono(k.P, cls, scope, tmp, s.fp.a, env, inj, s.heap, s.stack, inj + [Dyn(s.next)], t.heap);
    OwnClass(k.P, c);
    IdsAligned(k.P, inj, s.heap, s.next, st.objs);
    SameFrame(scope, s, t);
  }

  lemma ProtoHere(k: Ctx, cls: ClassName, self: Value, scope: Scope, tmp: int, env: Env, st: Store, inj: Inj, s: State, c: ClassName)
    requires OK(k) && Hierarchy(k.P) && Rel(k.P, cls, self, scope, tmp, env, st, inj, s) && c in k.P.classes
    ensures Proto(c) in s.heap && s.heap[Proto(c)] == ProtoWords(k.P, c)
  {
    assert ProtoOK(k.P, s.heap, c);
  }

  /** The first two instructions of new_class::code. */
  lemma LoadAndCopy(k: Ctx, s: State, c: ClassName, ws: seq<Word>) returns (t: State)
    requires OK(k) && Hierarchy(k.P) && c in k.P.classes && CodeAt(k.img.text, s.pc, NewCode(k.P, c))
    requires Proto(c) in s.heap && s.heap[Proto(c)] == ws
    ensures Runs(k.img, 4, s, t) && Copied(s, ws, t) && t.pc == s.pc + 2
    ensures CodeAt(k.img.text, t.pc, [Jal(InitLabel(c))])
  {
    hide OK, ImageOK, Runs, Step, CodeAt, ProtoWords, CopyLabel, CopyIsRuntime, NewCode, Hierarchy, WellFormed;
    OKHierarchy(k);
    NewIsCopy(k, s.pc, c);
    NewPieces(k, s.pc, c);
    Fetch(k.img, s.pc, [La(ACC, Proto(c))], 0);
    var s1 := s.(pc := s.pc + 1, acc := Ref(Proto(c)));
    LaStep(k.img, s, Proto(c));
    RunsOne(k.img, s, s1);
    CallCopy(k, c, s1);
    t := CopyState(s1, s.pc + 2, ws);
    RunsTrans(k.img, 1, 3, s, s1, t);
  }

  lemma NewIsCopy(k: Ctx, pc: nat, c: ClassName)
    requires OK(k) && Hierarchy(k.P) && c in k.P.classes && CodeAt(k.img.text, pc, NewCode(k.P, c))
    ensures CopyIsRuntime(k.P, c)
  {
    hide WellFormed, ImageOK, CodeAt, NewCode, CopyIsRuntime;
  }

  lemma LaStep(img: Image, s: State, r: ObjRef)
    requires s.pc < |img.text| && img.text[s.pc] == La(ACC, r)
    ensures Step(img, s) == Go(s.(pc := s.pc + 1, acc := Ref(r)))
  {
  }

  lemma NewPieces(k: Ctx, pc: nat, c: ClassName)
    requires Hierarchy(k.P) && CodeAt(k.img.text, pc, NewCode(k.P, c))
    ensures CodeAt(k.img.text, pc, [La(ACC, Proto(c))]) && CodeAt(k.img.text, pc + 1, [Jal(CopyLabel(k.P, c))])
    ensures CodeAt(k.img.text, pc + 2, [Jal(InitLabel(c))])
  {
    hide CodeAt, CopyLabel;
    assert NewCode(k.P, c) == [La(ACC, Proto(c))] + ([Jal(CopyLabel(k.P, c))] + [Jal(InitLabel(c))]);
    CodeSplit(k.img.text, pc, [La(ACC, Proto(c))], [Jal(CopyLabel(k.P, c))] + [Jal(InitLabel(c))]);
    CodeSplit(k.img.text, pc + 1, [Jal(CopyLabel(k.P, c))], [Jal(InitLabel(c))]);
  }

  /** The machine in front of an initialiser: `m` steps from `s` to the callee's state `c0`. */
  ghost predicate NewReady(k: Ctx, cls: ClassName, self: Value, scope: Scope, tmp: int, env: Env, inj: Inj, st: Store, s: State, c: ClassName, st1: Store, inj1: Inj, t: State, m: nat, c0: State, len: nat)
    requires Hierarchy(k.P)
  {
    && c in k.P.classes && st1 == st.(objs := st.objs + [Obj(c, Defaults(AttrLayout(k.P, c)))])
    && Mid(k.P, cls, self, scope, tmp, inj, st, s, env, st1, inj1, t) && t.sp.Stk? && NoSlotFrom(scope, tmp)
    && m > 0 && Runs(k.img, m, s, c0) && Quiet(t, c0) && c0.ra == Ret(s.pc + len)
    && AtInit(k, inj1, st1, c0, c, VObj(|st.objs|))
  }

  lemma NewJump(k: Ctx, cls: ClassName, self: Value, scope: Scope, tmp: int, env: Env, st: Store, inj: Inj, s: State, c: ClassName, st1: Store, inj1: Inj, n: nat, t: State, len: nat, code: seq<Instr>, c0: State) returns (m: nat)
    requires Hierarchy(k.P) && c in k.P.classes && st1 == st.(objs := st.objs + [Obj(c, Defaults(AttrLayout(k.P, c)))])
    requires Rel(k.P, cls, self, scope, tmp, env, st, inj, s)
    requires Mid(k.P, cls, self, scope, tmp, inj, st, s, env, st1, inj1, t)
    requires ValRel(k.P, inj1, t.heap, VObj(|st.objs|), t.acc) && SelfRel(k.P, c, VObj(|st.objs|), st1.objs, inj1, t.acc)
    requires Runs(k.img, n, s, t) && Runs(k.img, 1, t, c0)
    requires JumpedTo(t, InitLabel(c), k.img.text, s.pc + len, c0)
    ensures NewReady(k, cls, self, scope, tmp, env, inj, st, s, c, st1, inj1, t, m, c0, len)
  {
    ScopeAbove(k.P, cls, self, scope, tmp, env, st, inj, s);
    RunsTrans(k.img, n, 1, s, t, c0);
    m := n + 1;
  }

  lemma NewEnter(k: Ctx, cls: ClassName, self: Value, scope: Scope, tmp: int, env: Env, st: Store, inj: Inj, s: State, c: ClassName) returns (st1: Store, inj1: Inj, t: State, m: nat, c0: State)
    requires OK(k) && Hierarchy(k.P) && Rel(k.P, cls, self, scope, tmp, env, st, inj, s) && c in k.P.classes && !IsBasic(c)
    requires CodeAt(k.img.text, s.pc, NewCode(k.P, c))
    ensures NewReady(k, cls, self, scope, tmp, env, inj, st, s, c, st1, inj1, t, m, c0, 3)
  {
    hide *;
    ProtoHere(k, cls, self, scope, tmp, env, st, inj, s, c);
    t := LoadAndCopy(k, s, c, ProtoWords(k.P, c));
    st1 := CopyProto(k, cls, self, scope, tmp, env, st, inj, s, c, t);
    inj1 := inj + [Dyn(s.next)];
    c0 := JalRun(k.img, t, InitLabel(c));
    m := NewJump(k, cls, self, scope, tmp, env, st, inj, s, c, st1, inj1, 4, t, 3, [], c0);
  }

  lemma NewFacts(k: Ctx, cls: ClassName, self: Value, scope: Scope, tmp: int, env: Env, inj: Inj, st: Store, s: State, c: ClassName, st1: Store, inj1: Inj, t: State, m: nat, c0: State, len: nat)
    requires Hierarchy(k.P) && NewReady(k, cls, self, scope, tmp, env, inj, st, s, c, st1, inj1, t, m, c0, len)
    ensures AtInit(k, inj1, st1, c0, c, VObj(|st.objs|))
    ensures c in k.P.classes && st1 == st.(objs := st.objs + [Obj(c, Defaults(AttrLayout(k.P, c)))])
  {
  }

  lemma NewDone(k: Ctx, fuel: nat, cls: ClassName, self: Value, scope: Scope, tmp: int, env: Env, inj: Inj, st: Store, s: State, c: ClassName, st1: Store, inj1: Inj, t: State, m: nat, c0: State, len: nat, o: Outcome, rc: Run) returns (r: Run)
    requires Hierarchy(k.P) && fuel > 0 && NewReady(k, cls, self, scope, tmp, env, inj, st, s, c, st1, inj1, t, m, c0, len)
    requires CallGood(k, fuel - 1, inj1, st1, c0, 0, o, rc)
    ensures Good(k, fuel, cls, self, scope, tmp, inj, st, s, len, Return(env, o), r)
  {
    hide Rel, Quiet, CallGood, Good, Runs, Step, NoSlotFrom, ArgsOn, ValRel, Return, AtInit;
    RelStk(k.P, cls, self, scope, tmp, env, st1, inj1, t);
    r := CallFinish(k, fuel, cls, self, scope, tmp, inj, st, s, 0, env, st1, inj1, t, m, c0, o, rc, len);
  }

  lemma CreateCases(P: Program, fuel: nat, c: ClassName, st: Store)
    requires Hierarchy(P)
    ensures Create(P, fuel, c, st) ==
      if IsBasic(c) then Val(Default(Of(c)), map[], st)
      else if c !in P.classes then Wrong
      else Init(P, fuel, c, VObj(|st.objs|), st.(objs := st.objs + [Obj(c, Defaults(AttrLayout(P, c)))]))
  {
  }

  lemma ReturnWrong(env: Env)
    ensures Return(env, Wrong) == Wrong
  {
  }

  lemma NewSize(P: Program, c: ClassName)
    requires Hierarchy(P)
    ensures |NewCode(P, c)| == 3
  {
  }

  lemma InitPc(k: Ctx, inj: Inj, st: Store, s: State, c: ClassName, self: Value)
    requires Hierarchy(k.P) && AtInit(k, inj, st, s, c, self)
    ensures s.pc == Find(k.img.text, InitLabel(c))
  {
  }

  lemma SelfIsAcc(s: State)
    requires s.sp.Stk?
    ensures EnterState(s).acc == EnterState(s).slf
  {
  }

  lemma QuietStay(s: State)
    ensures Quiet(s, s)
  {
  }
}
