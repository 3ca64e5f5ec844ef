/** Reading and writing variables: locals in the frame, attributes in the block of self. */
module SimVars {
  import opened CoolNames
  import opened Inheritance
  import opened CoolSyntax
  import opened Layout
  import opened ClassTags
  import opened CoolSemantics
  import opened Mips
  import opened CodeGen
  import opened SimRel
  import opened SimFrame
  import opened SimSteps

  /** The slot of an attribute in scope, which is also its slot in the run-time class of self. */
  lemma AttrSlotOf(P: Program, cls: ClassName, self: Value, scope: Scope, env: Env, objs: seq<Obj>, inj: Inj, h: Heap, w: Word, x: Name) returns (i: nat)
    requires Hierarchy(P) && cls in P.classes && HasAttr(P, cls, x) && x !in env
    requires ScopeOK(P, cls, scope, env) && SelfRel(P, cls, self, objs, inj, w)
    requires ObjAt(P, inj, h, objs, self.id)
    ensures x in scope && scope[x] == AttrSlot(i)
    ensures 3 + i < |h[inj[self.id]]| && x in objs[self.id].attrs
    ensures ValRel(P, inj, h, objs[self.id].attrs[x], h[inj[self.id]][3 + i])
    ensures i < |AttrLayout(P, objs[self.id].cls)| && AttrLayout(P, objs[self.id].cls)[i].name == x
  {
    i :| 0 <= i < |AttrLayout(P, cls)| && AttrLayout(P, cls)[i].name == x;
    var c := objs[self.id].cls;
    AttrPrefix(P, c, cls);
    assert AttrLayout(P, c)[i] == AttrLayout(P, cls)[i];
    assert AttrAt(P, inj, h, objs[self.id], h[inj[self.id]], i);
    assert AttrScoped(P, cls, scope, env, i);
  }

  /** The load that the generator emits for a place, and the word that it loads. */
  lemma LoadStep(img: Image, scope: Scope, s: State, x: Name, w: Word)
    requires s.pc < |img.text| && img.text[s.pc] == LoadVar(scope, x) && x in scope
    requires match scope[x]
      case Local(off) => s.fp.Stk? && s.fp.a + 4 * off in s.stack && w == s.stack[s.fp.a + 4 * off]
      case AttrSlot(i) => s.slf.Ref? && s.slf.r in s.heap && 3 + i < |s.heap[s.slf.r]| && w == s.heap[s.slf.r][3 + i]
    ensures Step(img, s) == Go(s.(pc := s.pc + 1, acc := w))
  {
  }

  lemma StoreLocalStep(img: Image, scope: Scope, s: State, x: Name, stack: map<int, Word>)
    requires s.pc < |img.text| && img.text[s.pc] == StoreVar(scope, x) && x in scope
    requires scope[x].Local? && s.fp.Stk? && stack == s.stack[s.fp.a + 4 * scope[x].off := s.acc]
    ensures Runs(img, 1, s, s.(pc := s.pc + 1, stack := stack))
  {
    RunsOne(img, s, s.(pc := s.pc + 1, stack := stack));
  }

  lemma StoreAttrStep(img: Image, scope: Scope, s: State, x: Name, i: nat, h: Heap)
    requires s.pc < |img.text| && img.text[s.pc] == StoreVar(scope, x) && x in scope
    requires scope[x] == AttrSlot(i) && s.slf.Ref? && s.slf.r in s.heap && 3 + i < |s.heap[s.slf.r]|
    requires h == SetWord(s.heap, s.slf.r, i, s.acc)
    ensures Runs(img, 1, s, s.(pc := s.pc + 1, heap := h))
  {
    RunsOne(img, s, s.(pc := s.pc + 1, heap := h));
  }

  /** Where the machine finds a variable that is not self. */
  lemma FindVar(P: Program, cls: ClassName, self: Value, scope: Scope, tmp: int, env: Env, st: Store, inj: Inj, s: State, x: Name) returns (w: Word)
    requires Hierarchy(P) && Rel(P, cls, self, scope, tmp, env, st, inj, s)
    requires x != SELF && ReadVar(P, cls, self, env, st, x).Val?
    ensures x in scope
    ensures match scope[x]
      case Local(off) => s.fp.a + 4 * off in s.stack && w == s.stack[s.fp.a + 4 * off]
      case AttrSlot(i) => s.slf.Ref? && s.slf.r in s.heap && 3 + i < |s.heap[s.slf.r]| && w == s.heap[s.slf.r][3 + i]
    ensures ValRel(P, inj, s.heap, ReadVar(P, cls, self, env, st, x).v, w)
  {
    if x in env {
      assert LocalAt(P, scope, tmp, s.fp.a, env, inj, s.heap, s.stack, x);
      w := s.stack[s.fp.a + 4 * scope[x].off];
    } else {
      assert ObjAt(P, inj, s.heap, st.objs, self.id);
      var i := AttrSlotOf(P, cls, self, scope, env, st.objs, inj, s.heap, s.slf, x);
      w := s.heap[inj[self.id]][3 + i];
    }
  }

  /** object_class::code */
  lemma ReadRun(k: Ctx, cls: ClassName, self: Value, scope: Scope, tmp: int, env: Env, st: Store, inj: Inj, s: State, x: Name, code: seq<Instr>) returns (t: State)
    requires Hierarchy(k.P) && Rel(k.P, cls, self, scope, tmp, env, st, inj, s)
    requires code == (if x == SELF then [Move(ACC, SELFR)] else [LoadVar(scope, x)])
    requires CodeAt(k.img.text, s.pc, code) && ReadVar(k.P, cls, self, env, st, x).Val?
    ensures Runs(k.img, 1, s, t) && t.pc == s.pc + 1
    ensures Post(k.P, cls, self, scope, tmp, inj, st, s, ReadVar(k.P, cls, self, env, st, x).v, env, st, inj, t)
  {
    Fetch(k.img, s.pc, code, 0);
    if x == SELF {
      t := s.(pc := s.pc + 1, acc := s.slf);
    } else {
      var w := FindVar(k.P, cls, self, scope, tmp, env, st, inj, s, x);
      LoadStep(k.img, scope, s, x, w);
      t := s.(pc := s.pc + 1, acc := w);
    }
    RunsOne(k.img, s, t);
    QuietPost(k.P, cls, self, scope, tmp, env, st, inj, s, ReadVar(k.P, cls, self, env, st, x).v, t);
  }

  // ---------------------------------------------------------------------------------------------

  /** Assigning to a local changes its word only. */
  lemma SetLocalEnv(P: Program, cls: ClassName, scope: Scope, tmp: int, fp: int, env: Env, inj: Inj, h: Heap, stack: map<int, Word>, x: Name, v: Value, w: Word)
    requires Hierarchy(P) && cls in P.classes && EnvRel(P, cls, scope, tmp, fp, env, inj, h, stack)
    requires x in env && ValRel(P, inj, h, v, w)
    ensures LocalAt(P, scope, tmp, fp, env, inj, h, stack, x)
    ensures EnvRel(P, cls, scope, tmp, fp, env[x := v], inj, h, stack[fp + 4 * scope[x].off := w])
  {
    assert LocalAt(P, scope, tmp, fp, env, inj, h, stack, x);
    var env', stack' := env[x := v], stack[fp + 4 * scope[x].off := w];
    forall y | y in env' ensures LocalAt(P, scope, tmp, fp, env', inj, h, stack', y) {
      assert LocalAt(P, scope, tmp, fp, env, inj, h, stack, y);
      assert y != x ==> OtherPlace(scope, x, y);
    }
    forall y, z | y in env' && z in env' && y != z ensures OtherPlace(scope, y, z) {
      assert OtherPlace(scope, y, z);
    }
    forall j: nat | j < |AttrLayout(P, cls)| ensures AttrScoped(P, cls, scope, env', j) {
      assert AttrScoped(P, cls, scope, env, j);
    }
  }

  /** Assigning to an attribute changes one word of the block of self. */
  lemma PutObject(P: Program, inj: Inj, h: Heap, objs: seq<Obj>, id: nat, i: nat, x: Name, v: Value, w: Word)
    requires Hierarchy(P) && id < |inj| && id < |objs| && ObjAt(P, inj, h, objs, id)
    requires AttrsOK(P, objs[id].cls) && i < |AttrLayout(P, objs[id].cls)| && AttrLayout(P, objs[id].cls)[i].name == x
    requires Ext(inj, h, inj, h[inj[id] := h[inj[id]][3 + i := w]]) && ValRel(P, inj, h, v, w)
    ensures ObjAt(P, inj, h[inj[id] := h[inj[id]][3 + i := w]], objs[id := objs[id].(attrs := objs[id].attrs[x := v])], id)
  {
    var ws := h[inj[id]];
    var h' := h[inj[id] := ws[3 + i := w]];
    var o := objs[id];
    var layout := AttrLayout(P, o.cls);
    var o', ws' := o.(attrs := o.attrs[x := v]), ws[3 + i := w];
    forall j: nat | j < |layout| ensures AttrAt(P, inj, h', o', ws', j) {
      assert AttrAt(P, inj, h, o, ws, j);
      if j == i {
        ValMono(P, inj, h, inj, h', v, w);
      } else {
        ValMono(P, inj, h, inj, h', o.attrs[layout[j].name], ws[3 + j]);
      }
    }
  }

  lemma PutHeapRel(P: Program, inj: Inj, h: Heap, next: nat, objs: seq<Obj>, id: nat, i: nat, x: Name, v: Value, w: Word)
    requires Hierarchy(P) && HeapRel(P, inj, h, next, objs) && id < |objs|
    requires objs[id].cls in P.classes && AttrsOK(P, objs[id].cls)
    requires i < |AttrLayout(P, objs[id].cls)| && AttrLayout(P, objs[id].cls)[i].name == x
    requires ValRel(P, inj, h, v, w)
    ensures inj[id] in h && 3 + i < |h[inj[id]]|
    ensures Ext(inj, h, inj, h[inj[id] := h[inj[id]][3 + i := w]])
    ensures HeapRel(P, inj, h[inj[id] := h[inj[id]][3 + i := w]], next, objs[id := objs[id].(attrs := objs[id].attrs[x := v])])
  {
    assert ObjAt(P, inj, h, objs, id);
    var h' := h[inj[id] := h[inj[id]][3 + i := w]];
    var objs' := objs[id := objs[id].(attrs := objs[id].attrs[x := v])];
    InjDyn(P, inj, h, next, objs);
    StaticKept(P, inj, h, inj, h');
    PutObject(P, inj, h, objs, id, i, x, v, w);
    forall j: nat | j < |inj| ensures ObjAt(P, inj, h', objs', j) {
      if j != id {
        assert inj[j] != inj[id];
        assert ObjAt(P, inj, h, objs, j);
        ObjsMono(P, inj, h, objs, inj, h', j);
        assert objs'[j] == objs[j];
      }
    }
  }

  /** The store of assign_class::code, after the right-hand side. */
  lemma WriteRun(k: Ctx, cls: ClassName, self: Value, scope: Scope, tmp: int, env: Env, st: Store, inj: Inj, s: State, x: Name, v: Value) returns (t: State)
    requires OK(k) && Rel(k.P, cls, self, scope, tmp, env, st, inj, s)
    requires CodeAt(k.img.text, s.pc, [StoreVar(scope, x)]) && ValRel(k.P, inj, s.heap, v, s.acc)
    requires WriteVar(k.P, cls, self, env, st, x, v).Val?
    ensures Runs(k.img, 1, s, t) && t.pc == s.pc + 1
    ensures var o := WriteVar(k.P, cls, self, env, st, x, v);
      Post(k.P, cls, self, scope, tmp, inj, st, s, v, o.env, o.st, inj, t)
  {
    Fetch(k.img, s.pc, [StoreVar(scope, x)], 0);
    if x in env {
      t := WriteLocal(k, cls, self, scope, tmp, env, st, inj, s, x, v);
    } else {
      t := WriteAttr(k, cls, self, scope, tmp, env, st, inj, s, x, v);
    }
  }

  lemma WriteLocal(k: Ctx, cls: ClassName, self: Value, scope: Scope, tmp: int, env: Env, st: Store, inj: Inj, s: State, x: Name, v: Value) returns (t: State)
    requires Hierarchy(k.P) && Rel(k.P, cls, self, scope, tmp, env, st, inj, s) && ValRel(k.P, inj, s.heap, v, s.acc)
    requires s.pc < |k.img.text| && k.img.text[s.pc] == StoreVar(scope, x) && x in env
    ensures Runs(k.img, 1, s, t) && t.pc == s.pc + 1
    ensures Post(k.P, cls, self, scope, tmp, inj, st, s, v, env[x := v], st, inj, t)
  {
    SetLocalEnv(k.P, cls, scope, tmp, s.fp.a, env, inj, s.heap, s.stack, x, v, s.acc);
    var stack := s.stack[s.fp.a + 4 * scope[x].off := s.acc];
    t := s.(pc := s.pc + 1, stack := stack);
    StoreLocalStep(k.img, scope, s, x, stack);
    LocalPost(k.P, cls, self, scope, tmp, env, st, inj, s, x, v, t);
  }

  lemma LocalPost(P: Program, cls: ClassName, self: Value, scope: Scope, tmp: int, env: Env, st: Store, inj: Inj, s: State, x: Name, v: Value, t: State)
    requires Hierarchy(P) && Rel(P, cls, self, scope, tmp, env, st, inj, s) && ValRel(P, inj, s.heap, v, s.acc)
    requires x in scope && scope[x].Local?
    requires t == s.(pc := t.pc, stack := s.stack[s.fp.a + 4 * scope[x].off := s.acc])
    requires EnvRel(P, cls, scope, tmp, s.fp.a, env[x := v], inj, s.heap, t.stack)
    ensures Post(P, cls, self, scope, tmp, inj, st, s, v, env[x := v], st, inj, t)
  {
    assert IsSlot(scope, s.fp.a, s.fp.a + 4 * scope[x].off);
  }

  /** `h` with attribute `i` of the block `r` set. */
  ghost function SetWord(h: Heap, r: ObjRef, i: nat, w: Word): Heap
    requires r in h && 3 + i < |h[r]|
  {
    h[r := h[r][3 + i := w]]
  }

  /** The block of self after an attribute is set. */
  lemma SetAttr(P: Program, cls: ClassName, self: Value, scope: Scope, tmp: int, env: Env, st: Store, inj: Inj, s: State, x: Name, v: Value) returns (i: nat, h: Heap)
    requires WellFormed(P) && Rel(P, cls, self, scope, tmp, env, st, inj, s) && ValRel(P, inj, s.heap, v, s.acc)
    requires x !in env && AttrInScope(P, cls, self, st, x)
    ensures x in scope && scope[x] == AttrSlot(i)
    ensures s.slf.Ref? && s.slf.r in s.heap && 3 + i < |s.heap[s.slf.r]| && h == SetWord(s.heap, s.slf.r, i, s.acc)
    ensures Ext(inj, s.heap, inj, h)
    ensures HeapRel(P, inj, h, s.next, Put(st, self.id, x, v).objs)
  {
    assert ObjAt(P, inj, s.heap, st.objs, self.id);
    i := AttrSlotOf(P, cls, self, scope, env, st.objs, inj, s.heap, s.slf, x);
    assert ClassOK(P, st.objs[self.id].cls);
    PutHeapRel(P, inj, s.heap, s.next, st.objs, self.id, i, x, v, s.acc);
    h := s.heap[inj[self.id] := s.heap[inj[self.id]][3 + i := s.acc]];
  }

  lemma WriteAttr(k: Ctx, cls: ClassName, self: Value, scope: Scope, tmp: int, env: Env, st: Store, inj: Inj, s: State, x: Name, v: Value) returns (t: State)
    requires WellFormed(k.P) && Rel(k.P, cls, self, scope, tmp, env, st, inj, s) && ValRel(k.P, inj, s.heap, v, s.acc)
    requires s.pc < |k.img.text| && k.img.text[s.pc] == StoreVar(scope, x)
    requires x !in env && AttrInScope(k.P, cls, self, st, x)
    ensures Runs(k.img, 1, s, t) && t.pc == s.pc + 1
    ensures Post(k.P, cls, self, scope, tmp, inj, st, s, v, env, Put(st, self.id, x, v), inj, t)
  {
    var i, h := SetAttr(k.P, cls, self, scope, tmp, env, st, inj, s, x, v);
    t := s.(pc := s.pc + 1, heap := h);
    StoreAttrStep(k.img, scope, s, x, i, h);
    AttrPost(k.P, cls, self, scope, tmp, env, st, inj, s, x, v, t);
  }

  lemma AttrPost(P: Program, cls: ClassName, self: Value, scope: Scope, tmp: int, env: Env, st: Store, inj: Inj, s: State, x: Name, v: Value, t: State)
    requires Hierarchy(P) && Rel(P, cls, self, scope, tmp, env, st, inj, s) && ValRel(P, inj, s.heap, v, s.acc)
    requires self.id < |st.objs| && t == s.(pc := t.pc, heap := t.heap)
    requires Ext(inj, s.heap, inj, t.heap) && HeapRel(P, inj, t.heap, t.next, Put(st, self.id, x, v).objs)
    ensures Post(P, cls, self, scope, tmp, inj, st, s, v, env, Put(st, self.id, x, v), inj, t)
  {
    EnvMono(P, cls, scope, tmp, s.fp.a, env, inj, s.heap, s.stack, inj, t.heap);
    ValMono(P, inj, s.heap, inj, t.heap, v, s.acc);
  }
}
