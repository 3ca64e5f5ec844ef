/** New objects and the routines of the run-time system. */
module SimObjects {
  import opened CoolNames
  import opened Inheritance
  import opened CoolSyntax
  import opened Layout
  import opened ClassTags
  import opened CoolSemantics
  import opened Mips
  import opened CodeGen
  import opened SimRel
  import opened SimFrame
  import opened SimSteps
  import opened SimCalls

  /** The block `Dyn(next)` becomes the block of a new object of the store. */
  lemma NewObjHeapRel(P: Program, inj: Inj, h: Heap, next: nat, objs: seq<Obj>, o: Obj, ws: seq<Word>)
    requires Hierarchy(P) && HeapRel(P, inj, h, next, objs) && ObjRel(P, inj, h, o, ws)
    ensures Ext(inj, h, inj + [Dyn(next)], h[Dyn(next) := ws])
    ensures HeapRel(P, inj + [Dyn(next)], h[Dyn(next) := ws], next + 1, objs + [o])
  {
    var inj', h', objs' := inj + [Dyn(next)], h[Dyn(next) := ws], objs + [o];
    AllocHeapRel(P, inj, h, next, objs, ws);
    InjDyn(P, inj, h, next, objs);
    StaticKept(P, inj, h, inj', h');
    forall id: nat | id < |inj'| ensures ObjAt(P, inj', h', objs', id) {
      if id < |inj| {
        OldObject(P, inj, h, objs, o, inj', h', id, next);
      } else {
        ObjRelMono(P, inj, h, o, ws, inj', h');
      }
    }
    assert Distinct(inj');
  }

  lemma OldObject(P: Program, inj: Inj, h: Heap, objs: seq<Obj>, o: Obj, inj': Inj, h': Heap, id: nat, next: nat)
    requires Hierarchy(P) && id < |inj| == |objs| && ObjAt(P, inj, h, objs, id)
    requires Ext(inj, h, inj', h') && (forall r :: r in h ==> r in h' && h'[r] == h[r])
    ensures inj'[id] == inj[id] && ObjAt(P, inj', h', objs + [o], id)
  {
    ObjsMono(P, inj, h, objs, inj', h', id);
    assert (objs + [o])[id] == objs[id];
  }

  lemma ObjRelMono(P: Program, inj: Inj, h: Heap, o: Obj, ws: seq<Word>, inj': Inj, h': Heap)
    requires Hierarchy(P) && ObjRel(P, inj, h, o, ws) && Ext(inj, h, inj', h')
    ensures ObjRel(P, inj', h', o, ws)
  {
    forall i: nat | i < |AttrLayout(P, o.cls)| ensures AttrAt(P, inj', h', o, ws, i) {
      assert AttrAt(P, inj, h, o, ws, i);
      ValMono(P, inj, h, inj', h', o.attrs[AttrLayout(P, o.cls)[i].name], ws[3 + i]);
    }
  }

  lemma {:induction false} DefaultsFacts(layout: seq<Attr>)
    requires forall i, j :: 0 <= i < j < |layout| ==> layout[i].name != layout[j].name
    ensures forall i :: 0 <= i < |layout| ==> layout[i].name in Defaults(layout) && Defaults(layout)[layout[i].name] == Default(layout[i].ty)
    decreases |layout|
  {
    if layout != [] {
      var k := |layout| - 1;
      DefaultsFacts(layout[..k]);
      forall i | 0 <= i < |layout|
        ensures layout[i].name in Defaults(layout) && Defaults(layout)[layout[i].name] == Default(layout[i].ty)
      {
        if i < k {
          assert layout[..k][i] == layout[i];
        }
      }
    }
  }

  lemma DefaultRel(P: Program, inj: Inj, h: Heap, ty: StaticType)
    requires Hierarchy(P) && StaticOK(P, h) && forall r :: r in inj ==> r.Dyn?
    ensures ValRel(P, inj, h, Default(ty), DefaultWord(ty))
  {
    assert IntObj(0) in h && BoolObj(false) in h && StrObj("") in h;
  }

  lemma InjDynSet(P: Program, inj: Inj, h: Heap, next: nat, objs: seq<Obj>)
    requires Hierarchy(P) && HeapRel(P, inj, h, next, objs)
    ensures forall r :: r in inj ==> r.Dyn?
  {
    InjDyn(P, inj, h, next, objs);
  }

  /** The prototype of a class stands for an object whose attributes have their defaults. */
  lemma ProtoRel(P: Program, inj: Inj, h: Heap, next: nat, objs: seq<Obj>, c: ClassName)
    requires WellFormed(P) && HeapRel(P, inj, h, next, objs) && c in P.classes && !IsBasic(c)
    ensures Proto(c) in h && h[Proto(c)] == ProtoWords(P, c)
    ensures ObjRel(P, inj, h, Obj(c, Defaults(AttrLayout(P, c))), ProtoWords(P, c))
  {
    var layout := AttrLayout(P, c);
    var o, ws := Obj(c, Defaults(layout)), ProtoWords(P, c);
    assert ProtoOK(P, h, c) && ClassOK(P, c);
    DefaultsFacts(layout);
    InjDynSet(P, inj, h, next, objs);
    forall i: nat | i < |layout| ensures AttrAt(P, inj, h, o, ws, i) {
      DefaultRel(P, inj, h, layout[i].ty);
    }
  }

  // ---------------------------------------------------------------------------------------------
  // The run-time routines keep the calling convention.

  /** A routine entered at its label reaches its body, which is one step of the run-time system. */
  lemma NativeEnter(k: Ctx, s: State, l: Label, op: NativeOp)
    requires CodeAt(k.img.text, s.pc, [LabelDef(l), Runtime(op)])
    ensures Runs(k.img, 1, s, s.(pc := s.pc + 1))
    ensures s.pc + 1 < |k.img.text| && k.img.text[s.pc + 1] == Runtime(op)
  {
    Fetch(k.img, s.pc, [LabelDef(l), Runtime(op)], 0);
    Fetch(k.img, s.pc, [LabelDef(l), Runtime(op)], 1);
    RunsOne(k.img, s, s.(pc := s.pc + 1));
  }

  lemma NativeStep(img: Image, s: State, op: NativeOp, t: State)
    requires s.pc < |img.text| && img.text[s.pc] == Runtime(op) && RuntimeStep(s, op) == Go(t)
    ensures Runs(img, 1, s, t)
  {
    RunsOne(img, s, t);
  }

  /** The state of a routine that was called with `vs` on `self`. */
  ghost predicate Called(P: Program, inj: Inj, st: Store, s: State, self: Value, vs: seq<Value>)
    requires Hierarchy(P)
  {
    && s.sp.Stk? && s.ra.Ret?
    && HeapRel(P, inj, s.heap, s.next, st.objs) && s.out == st.out
    && ValRel(P, inj, s.heap, self, s.acc)
    && ArgsOn(P, inj, s.heap, s.stack, s.sp.a, vs)
  }

  lemma OutIntRun(k: Ctx, inj: Inj, st: Store, s: State, self: Value, v: Value) returns (t: State)
    requires Hierarchy(k.P) && Called(k.P, inj, st, s, self, [v]) && v.VInt?
    requires s.pc < |k.img.text| && k.img.text[s.pc] == Runtime(RtOutInt)
    ensures Runs(k.img, 1, s, t)
    ensures Returned(k.P, inj, st, s, 1, self, st.(out := st.out + [OutInt(v.n)]), inj, t)
  {
    assert ArgOn(k.P, inj, s.heap, s.stack, s.sp.a, [v], 0);
    t := s.(pc := s.ra.pc, sp := Stk(s.sp.a + 4), out := s.out + [OutInt(v.n)]);
    NativeStep(k.img, s, RtOutInt, t);
  }

  lemma OutStringRun(k: Ctx, inj: Inj, st: Store, s: State, self: Value, v: Value) returns (t: State)
    requires Hierarchy(k.P) && Called(k.P, inj, st, s, self, [v]) && v.VStr?
    requires s.pc < |k.img.text| && k.img.text[s.pc] == Runtime(RtOutString)
    ensures Runs(k.img, 1, s, t)
    ensures Returned(k.P, inj, st, s, 1, self, st.(out := st.out + [OutStr(v.s)]), inj, t)
  {
    hide Step, Runs, Hierarchy, HeapRel;
    assert ArgOn(k.P, inj, s.heap, s.stack, s.sp.a, [v], 0);
    t := s.(pc := s.ra.pc, sp := Stk(s.sp.a + 4), out := s.out + [OutStr(v.s)]);
    NativeStep(k.img, s, RtOutString, t);
  }

  /** copy() of a value of a basic class makes an equal block. */
  lemma CopyBasicRun(k: Ctx, inj: Inj, st: Store, s: State, self: Value) returns (t: State)
    requires Hierarchy(k.P) && Called(k.P, inj, st, s, self, []) && !self.VObj? && !self.VVoid?
    requires s.pc < |k.img.text| && k.img.text[s.pc] == Runtime(RtCopy)
    ensures Runs(k.img, 1, s, t)
    ensures Returned(k.P, inj, st, s, 0, self, st, inj, t)
  {
    hide Step, Runs, Hierarchy, HeapRel;
    var ws := s.heap[s.acc.r];
    AllocHeapRel(k.P, inj, s.heap, s.next, st.objs, ws);
    t := s.(pc := s.ra.pc, acc := Ref(Dyn(s.next)), next := s.next + 1, heap := s.heap[Dyn(s.next) := ws]);
    NativeStep(k.img, s, RtCopy, t);
  }

  /** copy() of an object makes a new object with the same attributes. */
  lemma CopyObjectRun(k: Ctx, inj: Inj, st: Store, s: State, self: Value) returns (t: State)
    requires Hierarchy(k.P) && Called(k.P, inj, st, s, self, []) && self.VObj? && self.id < |st.objs|
    requires s.pc < |k.img.text| && k.img.text[s.pc] == Runtime(RtCopy)
    ensures Runs(k.img, 1, s, t)
    ensures Returned(k.P, inj, st, s, 0, VObj(|st.objs|), st.(objs := st.objs + [st.objs[self.id]]), inj + [Dyn(s.next)], t)
  {
    hide Step, Runs, ObjRel, IntWords, BoolWords, StrWords, Hierarchy;
    assert ObjAt(k.P, inj, s.heap, st.objs, self.id);
    var ws := s.heap[s.acc.r];
    NewObjHeapRel(k.P, inj, s.heap, s.next, st.objs, st.objs[self.id], ws);
    t := s.(pc := s.ra.pc, acc := Ref(Dyn(s.next)), next := s.next + 1, heap := s.heap[Dyn(s.next) := ws]);
    NativeStep(k.img, s, RtCopy, t);
  }

  /** A run-time routine does what the interpreter says. */
  lemma NativeRun(k: Ctx, fuel: nat, inj: Inj, st: Store, s: State, l: Label, op: NativeOp, self: Value, vs: seq<Value>) returns (r: Run)
    requires Hierarchy(k.P) && Called(k.P, inj, st, s, self, vs)
    requires CodeAt(k.img.text, s.pc, [LabelDef(l), Runtime(op)])
    ensures CallGood(k, fuel, inj, st, s, |vs|, RunNative(op, self, vs, st), r)
  {
    NativeEnter(k, s, l, op);
    var s1 := s.(pc := s.pc + 1);
    var o := RunNative(op, self, vs, st);
    r := Run(0, s1, inj);
    if o.Val? {
      var t, inj';
      t, inj' := NativeVal(k, inj, st, s1, op, self, vs);
      RunsTrans(k.img, 1, 1, s, s1, t);
      r := Run(2, t, inj');
      MovedReturn(k.P, inj, st, s, s1, |vs|, o.v, o.st, inj', t);
    } else if o.Abort? {
      HaltsNow(k.img, s1, Faulted(UserAbort));
      HaltsTrans(k.img, 1, 0, s, s1, Faulted(UserAbort), s.out);
      r := Run(1, s1, inj);
    }
  }

  lemma MovedReturn(P: Program, inj: Inj, st: Store, s: State, s1: State, n: nat, v: Value, st': Store, inj': Inj, t: State)
    requires Hierarchy(P) && s1 == s.(pc := s1.pc) && Returned(P, inj, st, s1, n, v, st', inj', t)
    ensures Returned(P, inj, st, s, n, v, st', inj', t)
  {
  }

  lemma NativeVal(k: Ctx, inj: Inj, st: Store, s: State, op: NativeOp, self: Value, vs: seq<Value>) returns (t: State, inj': Inj)
    requires Hierarchy(k.P) && Called(k.P, inj, st, s, self, vs) && RunNative(op, self, vs, st).Val?
    requires s.pc < |k.img.text| && k.img.text[s.pc] == Runtime(op)
    ensures Runs(k.img, 1, s, t)
    ensures Returned(k.P, inj, st, s, |vs|, RunNative(op, self, vs, st).v, RunNative(op, self, vs, st).st, inj', t)
  {
    inj' := inj;
    match op
    case RtOutInt =>
      assert vs == [vs[0]];
      t := OutIntRun(k, inj, st, s, self, vs[0]);
    case RtOutString =>
      assert vs == [vs[0]];
      t := OutStringRun(k, inj, st, s, self, vs[0]);
    case RtCopy =>
      assert vs == [];
      if self.VObj? && self.id < |st.objs| {
        t := CopyObjectRun(k, inj, st, s, self);
        inj' := inj + [Dyn(s.next)];
      } else {
        t := CopyBasicRun(k, inj, st, s, self);
      }
  }
}
