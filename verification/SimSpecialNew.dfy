/** `new SELF_TYPE`, which goes through class_objTab, and `new` of a basic class. */
module SimSpecialNew {
  import opened CoolNames
  import opened Inheritance
  import opened CoolSyntax
  import opened Layout
  import opened ClassTags
  import opened CoolSemantics
  import opened Mips
  import opened CodeGen
  import opened CodeGenEquations
  import opened SimRel
  import opened SimFrame
  import opened SimSteps
  import opened SimCalls
  import opened SimObjects
  import opened SimDispatch
  import opened SimConstructs
  import opened SimMethods
  import opened SimCreation

  // ---------------------------------------------------------------------------------------------
  // new SELF_TYPE

  /** The entry of a class in class_objTab. */
  lemma TableWords(k: Ctx, c: ClassName, tag: int)
    requires OK(k) && Hierarchy(k.P) && c in k.P.classes && TagWord(k.P, c) == I(tag)
    ensures ObjTabEntry(k.img.objTab, 8 * tag) == Got(Ref(Proto(c)))
    ensures ObjTabEntry(k.img.objTab, 8 * tag + 4) == Got(Lab(InitLabel(c)))
  {
    assert TablesOK(k, c);
    assert 8 * tag / 8 == tag && 8 * tag % 8 == 0;
    assert (8 * tag + 4) / 8 == tag && (8 * tag + 4) % 8 == 4;
  }

  /** The tag of self selects its row of the table. */
  lemma RowRun(img: Image, s: State, tag: int) returns (t: State)
    requires CodeAt(img.text, s.pc, NEWSELF)
    requires s.slf.Ref? && s.slf.r in s.heap && |s.heap[s.slf.r]| > 0 && s.heap[s.slf.r][0] == I(tag)
    ensures Runs(img, 4, s, t) && t == s.(pc := s.pc + 4, t1 := Tab(8 * tag), t2 := I(8 * tag))
  {
    hide OK, WellFormed, ImageOK, Step, Runs, Halts, CodeAt, Find, Hierarchy;
    Fetch(img, s.pc, NEWSELF, 0);
    Fetch(img, s.pc, NEWSELF, 1);
    Fetch(img, s.pc, NEWSELF, 2);
    Fetch(img, s.pc, NEWSELF, 3);
    var s2 := s.(pc := s.pc + 2, t1 := Tab(0), t2 := I(tag));
    RowTag(img, s, s2, tag);
    t := RowShift(img, s2, tag);
    RunsTrans(img, 2, 2, s, s2, t);
  }

  lemma RowTag(img: Image, s: State, s2: State, tag: int)
    requires s.pc + 1 < |img.text| && img.text[s.pc] == LaTab(T1) && img.text[s.pc + 1] == Lw(T2, TAG_OFFSET, SELFR)
    requires s.slf.Ref? && s.slf.r in s.heap && |s.heap[s.slf.r]| > 0 && s.heap[s.slf.r][0] == I(tag)
    requires s2 == s.(pc := s.pc + 2, t1 := Tab(0), t2 := I(tag))
    ensures Runs(img, 2, s, s2)
  {
    RunsTwo(img, s, s.(pc := s.pc + 1, t1 := Tab(0)), s2);
  }

  lemma RowShift(img: Image, s2: State, tag: int) returns (t: State)
    requires s2.pc + 1 < |img.text| && img.text[s2.pc] == Sll(T2, T2, 3) && img.text[s2.pc + 1] == Addu(T1, T1, T2)
    requires s2.t1 == Tab(0) && s2.t2 == I(tag)
    ensures Runs(img, 2, s2, t) && t == s2.(pc := s2.pc + 2, t1 := Tab(8 * tag), t2 := I(8 * tag))
  {
    assert PowerOfTwo(3) == 8;
    var s3 := s2.(pc := s2.pc + 1, t2 := I(8 * tag));
    t := s3.(pc := s3.pc + 1, t1 := Tab(8 * tag));
    RunsTwo(img, s2, s3, t);
  }

  /** The row's address is pushed. */
  lemma PushRow(img: Image, s: State, pc: nat) returns (t: State)
    requires CodeAt(img.text, pc, NEWSELF) && s.pc == pc + 4 && s.sp.Stk?
    ensures Runs(img, 2, s, t) && Pushed(s, s.t1, t) && t.pc == pc + 6
  {
    Fetch(img, pc, NEWSELF, 4);
    Fetch(img, pc, NEWSELF, 5);
    var s1 := s.(pc := pc + 5, stack := s.stack[s.sp.a := s.t1]);
    t := s1.(pc := pc + 6, sp := Stk(s.sp.a - 4));
    RunsTwo(img, s, s1, t);
  }

  lemma ObjectCopy(k: Ctx)
    requires OK(k) && Hierarchy(k.P)
    ensures ObjectC in k.P.classes && CopyIsRuntime(k.P, ObjectC) && CopyLabel(k.P, ObjectC) == MethodLabel(ObjectC, COPY)
  {
    assert ObjectC in Parents(k.P);
    assert BasicsOK(k.P);
    MethNearest(k.P, ObjectC);
  }

  /** The prototype is loaded from the row and copied. */
  lemma CopyRow(k: Ctx, s: State, pc: nat, c: ClassName, tag: int, ws: seq<Word>) returns (t: State)
    requires OK(k) && Hierarchy(k.P) && CodeAt(k.img.text, pc, NEWSELF) && s.pc == pc + 6
    requires s.t1 == Tab(8 * tag) && ObjTabEntry(k.img.objTab, 8 * tag) == Got(Ref(Proto(c)))
    requires Proto(c) in s.heap && s.heap[Proto(c)] == ws
    ensures Runs(k.img, 4, s, t) && Copied(s, ws, t) && t.pc == pc + 8
  {
    hide OK, ImageOK, WellFormed, Hierarchy, Runs, CodeAt, ObjTabEntry, CopyIsRuntime;
    OKHierarchy(k);
    ObjectCopy(k);
    Fetch(k.img, pc, NEWSELF, 6);
    Fetch(k.img, pc, NEWSELF, 7);
    var s1 := s.(pc := pc + 7, acc := Ref(Proto(c)));
    RowProto(k.img, s, c, tag, s1);
    OneInstr(k.img, pc + 7, Jal(MethodLabel(ObjectC, COPY)));
    CallCopy(k, ObjectC, s1);
    t := CopyState(s1, pc + 8, ws);
    RunsTrans(k.img, 1, 3, s, s1, t);
  }

  lemma OneInstr(img: Image, pc: nat, i: Instr)
    requires pc < |img.text| && img.text[pc] == i
    ensures CodeAt(img.text, pc, [i])
  {
  }

  lemma RowProto(img: Image, s: State, c: ClassName, tag: int, s1: State)
    requires s.pc < |img.text| && img.text[s.pc] == Lw(ACC, 0, T1)
    requires s.t1 == Tab(8 * tag) && ObjTabEntry(img.objTab, 8 * tag) == Got(Ref(Proto(c)))
    requires s1 == s.(pc := s.pc + 1, acc := Ref(Proto(c)))
    ensures Runs(img, 1, s, s1)
  {
    RunsOne(img, s, s1);
  }

  /** The row is popped and its initialiser loaded. */
  lemma PopRow(img: Image, s: State, pc: nat, c: ClassName, tag: int) returns (t: State)
    requires CodeAt(img.text, pc, NEWSELF) && s.pc == pc + 8 && s.sp.Stk?
    requires s.sp.a + 4 in s.stack && s.stack[s.sp.a + 4] == Tab(8 * tag)
    requires ObjTabEntry(img.objTab, 8 * tag + 4) == Got(Lab(InitLabel(c)))
    ensures Runs(img, 3, s, t) && t == s.(pc := pc + 11, sp := Stk(s.sp.a + 4), t1 := Lab(InitLabel(c)))
  {
    Fetch(img, pc, NEWSELF, 8);
    Fetch(img, pc, NEWSELF, 9);
    Fetch(img, pc, NEWSELF, 10);
    var s2 := s.(pc := pc + 10, sp := Stk(s.sp.a + 4), t1 := Tab(8 * tag));
    PopTop(img, s, s2);
    t := s2.(pc := pc + 11, t1 := Lab(InitLabel(c)));
    RowInit(img, s2, c, tag, t);
    RunsTrans(img, 2, 1, s, s2, t);
  }

  lemma PopTop(img: Image, s: State, s2: State)
    requires s.pc + 1 < |img.text| && img.text[s.pc] == Lw(T1, 1, SP) && img.text[s.pc + 1] == Addiu(SP, SP, 4)
    requires s.sp.Stk? && s.sp.a + 4 in s.stack
    requires s2 == s.(pc := s.pc + 2, sp := Stk(s.sp.a + 4), t1 := s.stack[s.sp.a + 4])
    ensures Runs(img, 2, s, s2)
  {
    RunsTwo(img, s, s.(pc := s.pc + 1, t1 := s.stack[s.sp.a + 4]), s2);
  }

  lemma RowInit(img: Image, s: State, c: ClassName, tag: int, s1: State)
    requires s.pc < |img.text| && img.text[s.pc] == Lw(T1, 1, T1)
    requires s.t1 == Tab(8 * tag) && ObjTabEntry(img.objTab, 8 * tag + 4) == Got(Lab(InitLabel(c)))
    requires s1 == s.(pc := s.pc + 1, t1 := Lab(InitLabel(c)))
    ensures Runs(img, 1, s, s1)
  {
    RunsOne(img, s, s1);
  }

  lemma JalrRun(img: Image, s: State, pc: nat, l: Label) returns (c0: State)
    requires CodeAt(img.text, pc, NEWSELF) && s.pc == pc + 11 && s.t1 == Lab(l)
    ensures Runs(img, 1, s, c0) && JumpedTo(s, l, img.text, pc + 12, c0)
  {
    Fetch(img, pc, NEWSELF, 11);
    c0 := s.(pc := Find(img.text, l), ra := Ret(pc + 12));
    RunsOne(img, s, c0);
  }

  /** What the machine sees of self. */
  lemma SelfTag(P: Program, cls: ClassName, self: Value, scope: Scope, tmp: int, env: Env, st: Store, inj: Inj, s: State) returns (tag: int)
    requires WellFormed(P) && Hierarchy(P) && Rel(P, cls, self, scope, tmp, env, st, inj, s)
    ensures self.VObj? && ClassOf(st, self) in P.classes && !IsBasic(ClassOf(st, self))
    ensures TagWord(P, ClassOf(st, self)) == I(tag)
    ensures s.slf.Ref? && s.slf.r in s.heap && |s.heap[s.slf.r]| > 0 && s.heap[s.slf.r][0] == I(tag)
    ensures s.sp.Stk?
  {
    assert ObjAt(P, inj, s.heap, st.objs, self.id);
    tag := TagWord(P, ClassOf(st, self)).n;
  }

  /** The copy of the prototype between the push and the pop of the row. */
  lemma RowPopped(k: Ctx, cls: ClassName, self: Value, scope: Scope, tmp: int, env: Env, st: Store, inj: Inj, s4: State, row: Word, s6: State, c: ClassName, s8: State, st1: Store, inj1: Inj, s11: State)
    requires Hierarchy(k.P) && Rel(k.P, cls, self, scope, tmp, env, st, inj, s4) && Pushed(s4, row, s6)
    requires Mid(k.P, cls, self, scope, tmp - 1, inj, st, s6, env, st1, inj1, s8) && ValRel(k.P, inj1, s8.heap, VObj(|st.objs|), s8.acc)
    requires s11 == s8.(pc := s11.pc, sp := s4.sp, t1 := s11.t1)
    ensures Mid(k.P, cls, self, scope, tmp, inj, st, s4, env, st1, inj1, s11)
    ensures s4.sp.a in s8.stack && s8.stack[s4.sp.a] == row
  {
    PopPost(k.P, cls, self, scope, tmp, env, st, inj, s4, row, s6, VObj(|st.objs|), env, st1, inj1, s8, s11);
  }

  lemma NewSelfRun(k: Ctx, cls: ClassName, self: Value, scope: Scope, tmp: int, env: Env, st: Store, inj: Inj, s: State, c: ClassName, tag: int, s4: State, s6: State) returns (st1: Store, inj1: Inj, t: State)
    requires OK(k) && Hierarchy(k.P) && Rel(k.P, cls, self, scope, tmp, env, st, inj, s) && c in k.P.classes && !IsBasic(c)
    requires CodeAt(k.img.text, s.pc, NEWSELF) && TagWord(k.P, c) == I(tag)
    requires Runs(k.img, 4, s, s4) && s4 == s.(pc := s.pc + 4, t1 := Tab(8 * tag), t2 := I(8 * tag))
    requires Runs(k.img, 2, s4, s6) && s4.sp.Stk? && Pushed(s4, s4.t1, s6) && s6.pc == s.pc + 6
    ensures st1 == st.(objs := st.objs + [Obj(c, Defaults(AttrLayout(k.P, c)))])
    ensures Runs(k.img, 13, s, t) && t.pc == s.pc + 11 && t.t1 == Lab(InitLabel(c))
    ensures Mid(k.P, cls, self, scope, tmp, inj, st, s, env, st1, inj1, t)
    ensures ValRel(k.P, inj1, t.heap, VObj(|st.objs|), t.acc) && SelfRel(k.P, c, VObj(|st.objs|), st1.objs, inj1, t.acc)
  {
    hide *;
    TableWords(k, c, tag);
    QuietRow(s, s4, s6, tag);
    var q := StartQuiet(k, cls, self, scope, tmp, env, st, inj, s, 4, s4);
    PushRel(k.P, cls, self, scope, tmp, env, st, inj, s4, s4.t1, s6);
    ProtoHere(k, cls, self, scope, tmp - 1, env, st, inj, s6, c);
    var s8 := CopyRow(k, s6, s.pc, c, tag, ProtoWords(k.P, c));
    st1 := CopyProto(k, cls, self, scope, tmp - 1, env, st, inj, s6, c, s8);
    inj1 := inj + [Dyn(s6.next)];
    RowThere(s4, s6, ProtoWords(k.P, c), s8);
    RowPopped(k, cls, self, scope, tmp, env, st, inj, s4, s4.t1, s6, c, s8, st1, inj1, s8.(sp := s4.sp));
    t := PopRow(k.img, s8, s.pc, c, tag);
    RowPopped(k, cls, self, scope, tmp, env, st, inj, s4, s4.t1, s6, c, s8, st1, inj1, t);
    q := PartTransRuns(k, cls, self, scope, tmp, env, st, inj, s, q, s6, s8, st1, inj1, t);
  }

  lemma QuietRow(s: State, s4: State, s6: State, tag: int)
    requires s4 == s.(pc := s.pc + 4, t1 := Tab(8 * tag), t2 := I(8 * tag)) && Pushed(s4, s4.t1, s6)
    ensures Quiet(s, s4) && s6.t1 == s4.t1 && s6.sp == Stk(s4.sp.a - 4) && s6.next == s4.next
  {
  }

  lemma RowThere(s4: State, s6: State, ws: seq<Word>, s8: State)
    requires s4.sp.Stk? && s6.sp == Stk(s4.sp.a - 4) && Copied(s6, ws, s8)
    ensures s8.sp == s6.sp && s8.sp.a + 4 == s4.sp.a
  {
  }

  lemma PartTransRuns(k: Ctx, cls: ClassName, self: Value, scope: Scope, tmp: int, env: Env, st: Store, inj: Inj, s: State, q: Run, s6: State, s8: State, st1: Store, inj1: Inj, t: State) returns (r: Run)
    requires Hierarchy(k.P) && q.n == 4 && q.inj == inj && Runs(k.img, 4, s, q.t) && Mid(k.P, cls, self, scope, tmp, inj, st, s, env, st, inj, q.t)
    requires Runs(k.img, 2, q.t, s6) && Runs(k.img, 4, s6, s8) && Runs(k.img, 3, s8, t)
    requires Mid(k.P, cls, self, scope, tmp, inj, st, q.t, env, st1, inj1, t)
    ensures Runs(k.img, 13, s, t) && Mid(k.P, cls, self, scope, tmp, inj, st, s, env, st1, inj1, t)
  {
    hide *;
    RunsTrans(k.img, 2, 4, q.t, s6, s8);
    RunsTrans(k.img, 6, 3, q.t, s8, t);
    r := PartTrans(k, cls, self, scope, tmp, inj, st, s, env, st, q, env, st1, Run(9, t, inj1));
  }

  lemma NewSelfEnter(k: Ctx, cls: ClassName, self: Value, scope: Scope, tmp: int, env: Env, st: Store, inj: Inj, s: State) returns (st1: Store, inj1: Inj, t: State, m: nat, c0: State)
    requires OK(k) && Hierarchy(k.P) && Rel(k.P, cls, self, scope, tmp, env, st, inj, s)
    requires CodeAt(k.img.text, s.pc, NEWSELF)
    ensures ClassOf(st, self) in k.P.classes && !IsBasic(ClassOf(st, self))
    ensures NewReady(k, cls, self, scope, tmp, env, inj, st, s, ClassOf(st, self), st1, inj1, t, m, c0, 12)
  {
    hide *;
    Sound(k);
    var c := ClassOf(st, self);
    var tag := SelfTag(k.P, cls, self, scope, tmp, env, st, inj, s);
    var s4 := RowRun(k.img, s, tag);
    var s6 := PushRow(k.img, s4, s.pc);
    st1, inj1, t := NewSelfRun(k, cls, self, scope, tmp, env, st, inj, s, c, tag, s4, s6);
    c0 := JalrRun(k.img, t, s.pc, InitLabel(c));
    m := NewJump(k, cls, self, scope, tmp, env, st, inj, s, c, st1, inj1, 13, t, 12, [], c0);
  }

  lemma NewSelfSize()
    ensures |NEWSELF| == 12
  {
  }

  // ---------------------------------------------------------------------------------------------
  // new Int, new Bool, new String

  /** The initialiser of Object changes nothing but words below the stack pointer. */
  lemma ObjectInitRun(k: Ctx, x: State) returns (n: nat, y: State)
    requires Hierarchy(k.P) && ImageOK(k) && RootClass(k.P) && x.pc == Find(k.img.text, InitLabel(ObjectC)) && x.sp.Stk? && x.ra.Ret?
    ensures Runs(k.img, n, x, y) && y == x.(pc := x.ra.pc, stack := y.stack) && KeptAbove(x, y, x.sp.a)
  {
    hide ImageOK, RootClass, Hierarchy, Runs, Step, CodeAt, InitScope;
    ObjectPieces(k);
    EnterRun(k.img, x, InitLabel(ObjectC));
    var e := EnterState(x);
    Fetch(k.img, e.pc, [Move(ACC, SELFR)], 0);
    var t := e.(pc := e.pc + 1, acc := e.slf);
    MoveStep(k.img, e);
    RunsMore(k.img, 7, x, e, t);
    y := ExitRun(k.img, t, 0, x.sp.a, x.fp, x.slf, x.ra.pc);
    RunsTrans(k.img, 8, 5, x, t, y);
    n := 13;
  }

  lemma MoveStep(img: Image, s: State)
    requires s.pc < |img.text| && img.text[s.pc] == Move(ACC, SELFR)
    ensures Step(img, s) == Go(s.(pc := s.pc + 1, acc := s.slf))
  {
  }

  /** Object has no parent and no attributes. */
  ghost predicate RootClass(P: Program) {
    ObjectC in P.classes && P.classes[ObjectC].parent == NoClass && P.classes[ObjectC].attrs == []
  }

  lemma ObjectPieces(k: Ctx)
    requires Hierarchy(k.P) && ImageOK(k) && RootClass(k.P)
    ensures var pc := Find(k.img.text, InitLabel(ObjectC));
      && CodeAt(k.img.text, pc, [LabelDef(InitLabel(ObjectC))] + ENTER)
      && CodeAt(k.img.text, pc + 7, [Move(ACC, SELFR)]) && CodeAt(k.img.text, pc + 8, Exit(0))
  {
    hide ImageOK, CodeAt;
    var l := InitText(k, ObjectC);
    InitPieces(k, ObjectC, l);
    NoInits(k.P, 0, ObjectC, VVoid, Store([], []), InitScope(k.P, ObjectC), l);
    ParentCall(k.P, ObjectC);
  }

  lemma ObjectClass(k: Ctx)
    requires OK(k) && Hierarchy(k.P)
    ensures RootClass(k.P)
  {
    assert ObjectC in Parents(k.P) && Parents(k.P)[ObjectC] == NoClass;
  }

  /** The assignments of the default values to the attributes of a basic class. */
  function BasicStores(c: ClassName): seq<Instr> {
    if c == StringC then
      [La(ACC, IntObj(0)), Sw(ACC, 3, SELFR)] + [Move(ACC, ZERO), Sw(ACC, 4, SELFR)]
    else [Move(ACC, ZERO), Sw(ACC, 3, SELFR)]
  }

  /** The attributes of a basic class. */
  function BasicAttrs(c: ClassName): seq<Attr> {
    if c == StringC then [Attr("_val", Of(IntC), NoExpr(Of(IntC))), Attr("_str_field", PrimSlot, NoExpr(PrimSlot))]
    else [Attr("_val", PrimSlot, NoExpr(PrimSlot))]
  }

  lemma BasicClass(k: Ctx, c: ClassName)
    requires OK(k) && Hierarchy(k.P) && IsBasic(c)
    ensures c in k.P.classes && k.P.classes[c].parent == ObjectC && k.P.classes[c].attrs == BasicAttrs(c)
    ensures AttrLayout(k.P, c) == BasicAttrs(c)
  {
    hide AttrLayout, ClassOK, CopyIsRuntime, TagsOK, ImageOK, NewsOK, Distinct;
    ObjectClass(k);
    RootLayout(k.P, c);
  }

  /** The attributes of a child of Object are its own. */
  lemma RootLayout(P: Program, c: ClassName)
    requires Hierarchy(P) && RootClass(P) && c in P.classes && P.classes[c].parent == ObjectC
    ensures AttrLayout(P, c) == P.classes[c].attrs
  {
    assert Up(P, c) == ObjectC && Up(P, ObjectC) == NoClass;
    assert AttrLayout(P, ObjectC) == [];
  }

  lemma BasicScope(c: ClassName)
    requires IsBasic(c)
    ensures var sc := AttrScope(BasicAttrs(c));
      "_val" in sc && sc["_val"] == AttrSlot(0) && (c == StringC ==> "_str_field" in sc && sc["_str_field"] == AttrSlot(1))
  {
    var a := BasicAttrs(c);
    if c == StringC {
      assert a[..1] == [a[0]] && a[..1][..0] == [];
      assert AttrScope(a[..1]) == AttrScope([])["_val" := AttrSlot(0)];
      assert "_val" != "_str_field" by {
        assert |"_val"| != |"_str_field"|;
      }
    } else {
      assert a[..0] == [];
    }
  }

  lemma {:induction false} OneStore(P: Program, cls: ClassName, scope: Scope, tmp: int, a: Attr, l: int)
    requires Hierarchy(P) && a.init.NoExpr?
    ensures Compile(P, cls, scope, tmp, Assign(a.name, a.init), l) == Gen(DefaultCode(a.init.ty) + [StoreVar(scope, a.name)], l)
  {
    hide Compile;
    CompileAssign(P, cls, scope, tmp, Assign(a.name, a.init), l);
    CompileNoExpr(P, cls, scope, tmp, a.init, l);
  }

  /** The initialiser of a basic class stores its defaults. */
  lemma {:induction false} BasicCode(k: Ctx, c: ClassName, scope: Scope, l: int)
    requires Hierarchy(k.P) && IsBasic(c) && scope == AttrScope(BasicAttrs(c))
    ensures CompileSeq(k.P, c, scope, -3, InitExprs(BasicAttrs(c)), l).code == BasicStores(c)
  {
    hide CompileSeq, Compile;
    BasicScope(c);
    var es := InitExprs(BasicAttrs(c));
    CompileSeqMore(k.P, c, scope, -3, es, l);
    OneStore(k.P, c, scope, -3, BasicAttrs(c)[0], l);
    if c == StringC {
      CompileSeqMore(k.P, c, scope, -3, es[1..], l);
      OneStore(k.P, c, scope, -3, BasicAttrs(c)[1], l);
      CompileSeqNone(k.P, c, scope, -3, es[1..][1..], l);
    } else {
      CompileSeqNone(k.P, c, scope, -3, es[1..], l);
    }
  }

  /** A default is loaded and stored in word `i` of self. */
  lemma StoreDefault(img: Image, s: State, load: Instr, w: Word, i: nat, h: Heap) returns (t: State)
    requires CodeAt(img.text, s.pc, [load, Sw(ACC, i, SELFR)])
    requires (w == I(0) && load == Move(ACC, ZERO)) || (w.Ref? && load == La(ACC, w.r))
    requires s.slf.Ref? && s.slf.r in s.heap && i < |s.heap[s.slf.r]|
    requires h == s.heap[s.slf.r := s.heap[s.slf.r][i := w]]
    ensures Runs(img, 2, s, t) && t == s.(pc := s.pc + 2, acc := w, heap := h)
  {
    Fetch(img, s.pc, [load, Sw(ACC, i, SELFR)], 0);
    Fetch(img, s.pc, [load, Sw(ACC, i, SELFR)], 1);
    t := s.(pc := s.pc + 2, acc := w, heap := h);
    RunsTwo(img, s, s.(pc := s.pc + 1, acc := w), t);
  }

  /** The block of a basic class after its initialiser. */
  function BasicBlock(c: ClassName, ws: seq<Word>): seq<Word>
    requires |ws| == if c == StringC then 5 else 4
  {
    if c == StringC then ws[3 := Ref(IntObj(0))][4 := I(0)] else ws[3 := I(0)]
  }

  lemma StoresRun(img: Image, s: State, c: ClassName, ws: seq<Word>) returns (n: nat, t: State)
    requires CodeAt(img.text, s.pc, BasicStores(c)) && |ws| == (if c == StringC then 5 else 4)
    requires s.slf.Ref? && s.slf.r in s.heap && s.heap[s.slf.r] == ws
    ensures Runs(img, n, s, t)
    ensures t == s.(pc := s.pc + |BasicStores(c)|, acc := t.acc, heap := s.heap[s.slf.r := BasicBlock(c, ws)])
  {
    if c == StringC {
      var h1 := s.heap[s.slf.r := ws[3 := Ref(IntObj(0))]];
      CodeSplit(img.text, s.pc, [La(ACC, IntObj(0)), Sw(ACC, 3, SELFR)], [Move(ACC, ZERO), Sw(ACC, 4, SELFR)]);
      var s1 := StoreDefault(img, s, La(ACC, IntObj(0)), Ref(IntObj(0)), 3, h1);
      var h2 := s.heap[s.slf.r := BasicBlock(c, ws)];
      assert h2 == h1[s.slf.r := h1[s.slf.r][4 := I(0)]];
      t := StoreDefault(img, s1, Move(ACC, ZERO), I(0), 4, h2);
      RunsTrans(img, 2, 2, s, s1, t);
      n := 4;
    } else {
      t := StoreDefault(img, s, Move(ACC, ZERO), I(0), 3, s.heap[s.slf.r := BasicBlock(c, ws)]);
      n := 2;
    }
  }

  /** The code of the initialiser of a basic class. */
  lemma BasicPieces(k: Ctx, c: ClassName)
    requires OK(k) && Hierarchy(k.P) && IsBasic(c)
    ensures var pc := Find(k.img.text, InitLabel(c));
      var n := |BasicStores(c)|;
      && CodeAt(k.img.text, pc, [LabelDef(InitLabel(c))] + ENTER)
      && CodeAt(k.img.text, pc + 7, [Jal(InitLabel(ObjectC))]) && CodeAt(k.img.text, pc + 8, BasicStores(c))
      && CodeAt(k.img.text, pc + 8 + n, [Move(ACC, SELFR)]) && CodeAt(k.img.text, pc + 9 + n, Exit(0))
  {
    hide *;
    OKHierarchy(k);
    BasicClass(k, c);
    var l := InitText(k, c);
    InitPieces(k, c, l);
    InitScopeIs(k.P, c);
    BasicCode(k, c, InitScope(k.P, c), l);
    ParentCall(k.P, c);
  }

  /** The initialiser of a basic class called on a block. */
  lemma BasicInitRun(k: Ctx, x: State, c: ClassName, ws: seq<Word>) returns (n: nat, y: State)
    requires OK(k) && Hierarchy(k.P) && IsBasic(c) && x.pc == Find(k.img.text, InitLabel(c)) && x.sp.Stk? && x.ra.Ret?
    requires x.acc.Ref? && x.acc.r in x.heap && x.heap[x.acc.r] == ws && |ws| == (if c == StringC then 5 else 4)
    ensures Runs(k.img, n, x, y) && KeptAbove(x, y, x.sp.a)
    ensures y == x.(pc := x.ra.pc, t1 := y.t1, t2 := y.t2, stack := y.stack, heap := x.heap[x.acc.r := BasicBlock(c, ws)])
  {
    hide *;
    OKHierarchy(k);
    ObjectClass(k);
    BasicPieces(k, c);
    EnterRun(k.img, x, InitLabel(c));
    var e := EnterState(x);
    Entered(x);
    var e1 := JalRun(k.img, e, InitLabel(ObjectC));
    CallState(e, k.img.text, e.pc + 1, InitLabel(ObjectC), e1);
    var m, e2 := ObjectInitRun(k, e1);
    RunsTrans(k.img, 7, 1, x, e, e1);
    RunsTrans(k.img, 8, m, x, e1, e2);
    n, y := BasicRest(k, x, c, ws, e, e1, e2, 8 + m);
  }

  lemma Entered(x: State)
    requires x.sp.Stk?
    ensures EnterState(x) == x.(pc := x.pc + 7, sp := Stk(x.sp.a - 12), fp := Stk(x.sp.a), slf := x.acc, stack := EnterState(x).stack)
    ensures Saved(EnterState(x), x.sp.a, x.fp, x.slf, x.ra) && KeptAbove(x, EnterState(x), x.sp.a)
  {
  }

  lemma CallState(e: State, text: seq<Instr>, pc: nat, l: Label, c: State)
    requires JumpedTo(e, l, text, pc, c)
    ensures c.pc == Find(text, l) && c.ra == Ret(pc) && c == e.(pc := c.pc, t1 := c.t1, t2 := c.t2, ra := c.ra)
  {
  }

  lemma BasicRest(k: Ctx, x: State, c: ClassName, ws: seq<Word>, e: State, e1: State, e2: State, m: nat) returns (n: nat, y: State)
    requires OK(k) && Hierarchy(k.P) && IsBasic(c) && x.pc == Find(k.img.text, InitLabel(c)) && x.sp.Stk? && x.ra.Ret?
    requires x.acc.Ref? && x.acc.r in x.heap && x.heap[x.acc.r] == ws && |ws| == (if c == StringC then 5 else 4)
    requires e == x.(pc := x.pc + 7, sp := Stk(x.sp.a - 12), fp := Stk(x.sp.a), slf := x.acc, stack := e.stack)
    requires Saved(e, x.sp.a, x.fp, x.slf, x.ra) && KeptAbove(x, e, x.sp.a)
    requires e1 == e.(pc := e1.pc, t1 := e1.t1, t2 := e1.t2, ra := Ret(e.pc + 1))
    requires e2 == e1.(pc := e.pc + 1, stack := e2.stack) && KeptAbove(e1, e2, e.sp.a) && Runs(k.img, m, x, e2)
    ensures Runs(k.img, n, x, y) && KeptAbove(x, y, x.sp.a)
    ensures y == x.(pc := x.ra.pc, t1 := y.t1, t2 := y.t2, stack := y.stack, heap := x.heap[x.acc.r := BasicBlock(c, ws)])
  {
    hide OK, Hierarchy, Runs, Step, CodeAt, BasicStores, BasicBlock, ENTER, Exit, Find, IsBasic;
    BasicPieces(k, c);
    var j, e3 := StoresRun(k.img, e2, c, ws);
    RunsTrans(k.img, m, j, x, e2, e3);
    Fetch(k.img, e3.pc, [Move(ACC, SELFR)], 0);
    var e4 := e3.(pc := e3.pc + 1, acc := e3.slf);
    MoveStep(k.img, e3);
    RunsMore(k.img, m + j, x, e3, e4);
    assert Saved(e4, x.sp.a, x.fp, x.slf, x.ra);
    y := ExitRun(k.img, e4, 0, x.sp.a, x.fp, x.slf, x.ra.pc);
    RunsTrans(k.img, m + j + 1, 5, x, e4, y);
    n := m + j + 6;
  }

  /** The initialised block stands for the default value. */
  lemma BasicBlockRel(P: Program, c: ClassName)
    requires Hierarchy(P) && IsBasic(c) && c in P.classes
    ensures |ProtoWords(P, c)| == if c == StringC then 5 else 4
    ensures c == IntC ==> BasicBlock(c, ProtoWords(P, c)) == IntWords(P, 0)
    ensures c == BoolC ==> BasicBlock(c, ProtoWords(P, c)) == BoolWords(P, false)
    ensures c == StringC ==> IsString(P, BasicBlock(c, ProtoWords(P, c)), "")
  {
  }

  /** The value of `new` of a basic class is in a fresh block. */
  lemma BasicReturned(k: Ctx, cls: ClassName, self: Value, scope: Scope, tmp: int, env: Env, st: Store, inj: Inj, s: State, c: ClassName, y: State)
    requires OK(k) && Hierarchy(k.P) && IsBasic(c) && Rel(k.P, cls, self, scope, tmp, env, st, inj, s) && c in k.P.classes
    requires |ProtoWords(k.P, c)| == if c == StringC then 5 else 4
    requires y == s.(pc := s.pc + 3, acc := Ref(Dyn(s.next)), ra := y.ra, t1 := y.t1, t2 := y.t2, stack := y.stack, next := s.next + 1,
                     heap := s.heap[Dyn(s.next) := BasicBlock(c, ProtoWords(k.P, c))])
    requires KeptAbove(s, y, s.sp.a)
    ensures Returned(k.P, inj, st, s.(ra := Ret(s.pc + 3)), 0, Default(Of(c)), st, inj, y)
  {
    hide OK, ProtoWords, BasicBlock, IntWords, BoolWords, IsString, StaticOK, WellFormed;
    BasicBlockRel(k.P, c);
    AllocHeapRel(k.P, inj, s.heap, s.next, st.objs, BasicBlock(c, ProtoWords(k.P, c)));
  }

  lemma BasicRun(k: Ctx, cls: ClassName, self: Value, scope: Scope, tmp: int, env: Env, st: Store, inj: Inj, s: State, c: ClassName) returns (n: nat, y: State)
    requires OK(k) && Hierarchy(k.P) && IsBasic(c) && Rel(k.P, cls, self, scope, tmp, env, st, inj, s) && c in k.P.classes
    requires CodeAt(k.img.text, s.pc, NewCode(k.P, c)) && s.sp.Stk?
    ensures |ProtoWords(k.P, c)| == if c == StringC then 5 else 4
    ensures Runs(k.img, n, s, y) && KeptAbove(s, y, s.sp.a)
    ensures y == s.(pc := s.pc + 3, acc := Ref(Dyn(s.next)), ra := y.ra, t1 := y.t1, t2 := y.t2, stack := y.stack, next := s.next + 1,
                    heap := s.heap[Dyn(s.next) := BasicBlock(c, ProtoWords(k.P, c))])
  {
    hide *;
    var ws := ProtoWords(k.P, c);
    BasicBlockRel(k.P, c);
    ProtoHere(k, cls, self, scope, tmp, env, st, inj, s, c);
    var t := LoadAndCopy(k, s, c, ws);
    CopiedState(s, ws, t);
    var c0 := JalRun(k.img, t, InitLabel(c));
    CallState(t, k.img.text, t.pc + 1, InitLabel(c), c0);
    var m;
    m, y := BasicInitRun(k, c0, c, ws);
    RunsTrans(k.img, 4, 1, s, t, c0);
    RunsTrans(k.img, 5, m, s, c0, y);
    n := 5 + m;
    BasicStates(s, c, ws, t, c0, y, BasicBlock(c, ws));
  }

  lemma CopiedState(s: State, ws: seq<Word>, t: State)
    requires Copied(s, ws, t)
    ensures t == s.(pc := t.pc, acc := Ref(Dyn(s.next)), t1 := t.t1, t2 := t.t2, ra := t.ra, next := s.next + 1, heap := s.heap[Dyn(s.next) := ws])
    ensures Dyn(s.next) in t.heap && t.heap[Dyn(s.next)] == ws
  {
  }

  lemma BasicStates(s: State, c: ClassName, ws: seq<Word>, t: State, c0: State, y: State, ws': seq<Word>)
    requires s.sp.Stk? && t == s.(pc := s.pc + 2, acc := Ref(Dyn(s.next)), t1 := t.t1, t2 := t.t2, ra := t.ra, next := s.next + 1, heap := s.heap[Dyn(s.next) := ws])
    requires c0 == t.(pc := c0.pc, t1 := c0.t1, t2 := c0.t2, ra := Ret(s.pc + 3))
    requires y == c0.(pc := s.pc + 3, t1 := y.t1, t2 := y.t2, stack := y.stack, heap := c0.heap[Dyn(s.next) := ws']) && KeptAbove(c0, y, c0.sp.a)
    ensures KeptAbove(s, y, s.sp.a)
    ensures y == s.(pc := s.pc + 3, acc := Ref(Dyn(s.next)), ra := y.ra, t1 := y.t1, t2 := y.t2, stack := y.stack, next := s.next + 1,
                    heap := s.heap[Dyn(s.next) := ws'])
  {
    assert s.heap[Dyn(s.next) := ws][Dyn(s.next) := ws'] == s.heap[Dyn(s.next) := ws'];
  }

  lemma BasicNew(k: Ctx, fuel: nat, cls: ClassName, self: Value, scope: Scope, tmp: int, env: Env, st: Store, inj: Inj, s: State, c: ClassName) returns (r: Run)
    requires OK(k) && Hierarchy(k.P) && IsBasic(c) && Rel(k.P, cls, self, scope, tmp, env, st, inj, s)
    requires CodeAt(k.img.text, s.pc, NewCode(k.P, c))
    ensures Good(k, fuel, cls, self, scope, tmp, inj, st, s, 3, Val(Default(Of(c)), env, st), r)
  {
    hide *;
    BasicClass(k, c);
    RelStk(k.P, cls, self, scope, tmp, env, st, inj, s);
    ScopeAbove(k.P, cls, self, scope, tmp, env, st, inj, s);
    var n, y := BasicRun(k, cls, self, scope, tmp, env, st, inj, s, c);
    BasicReturned(k, cls, self, scope, tmp, env, st, inj, s, c, y);
    var c0 := s.(ra := Ret(s.pc + 3));
    QuietRa(s, c0);
    ReturnPost(k.P, cls, self, scope, tmp, 0, env, st, inj, s, c0, Default(Of(c)), st, inj, y);
    r := Run(n, y, inj);
    MakeGood(k, fuel, cls, self, scope, tmp, inj, st, s, 3, Default(Of(c)), env, st, r);
  }

  lemma QuietRa(s: State, c: State)
    requires c == s.(ra := c.ra)
    ensures Quiet(s, c)
  {
  }

  lemma MakeGood(k: Ctx, fuel: nat, cls: ClassName, self: Value, scope: Scope, tmp: int, inj: Inj, st: Store, s: State, len: nat, v: Value, env1: Env, st1: Store, r: Run)
    requires Hierarchy(k.P) && Runs(k.img, r.n, s, r.t) && r.t.pc == s.pc + len
    requires Post(k.P, cls, self, scope, tmp, inj, st, s, v, env1, st1, r.inj, r.t)
    ensures Good(k, fuel, cls, self, scope, tmp, inj, st, s, len, Val(v, env1, st1), r)
  {
  }

  lemma ReturnBasic(env: Env, c: ClassName, st: Store)
    ensures Return(env, Val(Default(Of(c)), map[], st)) == Val(Default(Of(c)), env, st)
  {
  }
}
