/** How the simulation relation survives the machine's basic moves: registers, stack, allocation. */
module SimFrame {
  import opened CoolNames
  import opened Inheritance
  import opened CoolSyntax
  import opened Layout
  import opened ClassTags
  import opened CoolSemantics
  import opened Mips
  import opened CodeGen
  import opened SimRel

  /** `t` differs from `s` at most in the program counter, $a0, $t1, $t2 and $ra. */
  ghost predicate Quiet(s: State, t: State) {
    t == s.(pc := t.pc, acc := t.acc, t1 := t.t1, t2 := t.t2, ra := t.ra)
  }

  lemma QuietRel(P: Program, cls: ClassName, self: Value, scope: Scope, tmp: int, env: Env, st: Store, inj: Inj, s: State, t: State)
    requires Hierarchy(P) && Rel(P, cls, self, scope, tmp, env, st, inj, s) && Quiet(s, t)
    ensures Rel(P, cls, self, scope, tmp, env, st, inj, t)
  {
  }

  /** An expression that only puts a value in $a0. */
  lemma QuietPost(P: Program, cls: ClassName, self: Value, scope: Scope, tmp: int, env: Env, st: Store, inj: Inj, s: State, v: Value, t: State)
    requires Hierarchy(P) && Rel(P, cls, self, scope, tmp, env, st, inj, s) && Quiet(s, t)
    requires ValRel(P, inj, s.heap, v, t.acc)
    ensures Post(P, cls, self, scope, tmp, inj, st, s, v, env, st, inj, t)
  {
    QuietRel(P, cls, self, scope, tmp, env, st, inj, s, t);
  }

  /** Instructions between two expressions touch scratch registers only. */
  lemma MidQuiet(P: Program, cls: ClassName, self: Value, scope: Scope, tmp: int, inj: Inj, st: Store, s: State, env': Env, st': Store, inj': Inj, t: State, u: State)
    requires Hierarchy(P) && Mid(P, cls, self, scope, tmp, inj, st, s, env', st', inj', t) && Quiet(t, u)
    ensures Mid(P, cls, self, scope, tmp, inj, st, s, env', st', inj', u)
  {
    QuietRel(P, cls, self, scope, tmp, env', st', inj', t, u);
  }

  /** The last instructions of an expression, after its last sub-expression. */
  lemma GoodEnd(k: Ctx, fuel: nat, cls: ClassName, self: Value, scope: Scope, tmp: int, inj: Inj, st: Store, s: State, env1: Env, st1: Store, r1: Run, v: Value, n: nat, u: State, len: nat) returns (r: Run)
    requires Hierarchy(k.P)
    requires Runs(k.img, r1.n, s, r1.t) && Mid(k.P, cls, self, scope, tmp, inj, st, s, env1, st1, r1.inj, r1.t)
    requires Runs(k.img, n, r1.t, u) && Quiet(r1.t, u) && u.pc == s.pc + len
    requires ValRel(k.P, r1.inj, u.heap, v, u.acc)
    ensures Good(k, fuel, cls, self, scope, tmp, inj, st, s, len, Val(v, env1, st1), r)
  {
    hide Step, Runs, Hierarchy, HeapRel;
    MidQuiet(k.P, cls, self, scope, tmp, inj, st, s, env1, st1, r1.inj, r1.t, u);
    RunsTrans(k.img, r1.n, n, s, r1.t, u);
    r := Run(r1.n + n, u, r1.inj);
  }

  // ---------------------------------------------------------------------------------------------
  // Pushing and popping.

  /** `t` is `s` with the word `w` pushed. */
  ghost predicate Pushed(s: State, w: Word, t: State) {
    s.sp.Stk? && t == s.(pc := t.pc, sp := Stk(s.sp.a - 4), stack := s.stack[s.sp.a := w])
  }

  lemma EnvBelow(P: Program, cls: ClassName, scope: Scope, tmp: int, fp: int, env: Env, inj: Inj, h: Heap, stack: map<int, Word>, a: int, w: Word)
    requires Hierarchy(P) && cls in P.classes && EnvRel(P, cls, scope, tmp, fp, env, inj, h, stack)
    requires a == fp + 4 * tmp
    ensures EnvRel(P, cls, scope, tmp - 1, fp, env, inj, h, stack[a := w])
  {
    forall x | x in env ensures LocalAt(P, scope, tmp - 1, fp, env, inj, h, stack[a := w], x) {
      assert LocalAt(P, scope, tmp, fp, env, inj, h, stack, x);
    }
  }

  lemma PushRel(P: Program, cls: ClassName, self: Value, scope: Scope, tmp: int, env: Env, st: Store, inj: Inj, s: State, w: Word, t: State)
    requires Hierarchy(P) && Rel(P, cls, self, scope, tmp, env, st, inj, s) && Pushed(s, w, t)
    ensures Rel(P, cls, self, scope, tmp - 1, env, st, inj, t)
  {
    EnvBelow(P, cls, scope, tmp, s.fp.a, env, inj, s.heap, s.stack, s.sp.a, w);
  }

  /** A stack word that no variable in scope uses. */
  ghost predicate NoSlotFrom(scope: Scope, tmp: int) {
    forall x :: x in scope && scope[x].Local? ==> scope[x].off > tmp
  }

  lemma ScopeAbove(P: Program, cls: ClassName, self: Value, scope: Scope, tmp: int, env: Env, st: Store, inj: Inj, s: State)
    requires Hierarchy(P) && Rel(P, cls, self, scope, tmp, env, st, inj, s)
    ensures NoSlotFrom(scope, tmp)
  {
    forall x | x in scope && scope[x].Local? ensures scope[x].off > tmp {
      assert LocalAt(P, scope, tmp, s.fp.a, env, inj, s.heap, s.stack, x);
    }
  }

  /** After `tmp` words more were in use, the frame is popped to where it was. */
  lemma PopEnv(P: Program, cls: ClassName, scope: Scope, tmp: int, tmp': int, fp: int, env: Env, inj: Inj, h: Heap, stack: map<int, Word>)
    requires Hierarchy(P) && cls in P.classes && EnvRel(P, cls, scope, tmp', fp, env, inj, h, stack)
    requires NoSlotFrom(scope, tmp)
    ensures EnvRel(P, cls, scope, tmp, fp, env, inj, h, stack)
  {
    forall x | x in env ensures LocalAt(P, scope, tmp, fp, env, inj, h, stack, x) {
      assert LocalAt(P, scope, tmp', fp, env, inj, h, stack, x);
    }
  }

  /**
    `t` is `s` with `w` pushed; from `t` an expression led to `u`; now $sp is where it was in `s`.
    The frame of `s` is kept and the pushed word is still there.
   */
  lemma PopPost(P: Program, cls: ClassName, self: Value, scope: Scope, tmp: int, env: Env, st: Store, inj: Inj, s: State, w: Word, t: State, v: Value, env': Env, st': Store, inj': Inj, u: State, u': State)
    requires Hierarchy(P) && Rel(P, cls, self, scope, tmp, env, st, inj, s) && Pushed(s, w, t)
    requires Post(P, cls, self, scope, tmp - 1, inj, st, t, v, env', st', inj', u)
    requires u' == u.(pc := u'.pc, sp := s.sp, t1 := u'.t1, t2 := u'.t2, ra := u'.ra)
    ensures Post(P, cls, self, scope, tmp, inj, st, s, v, env', st', inj', u')
    ensures s.sp.a in u.stack && u.stack[s.sp.a] == w
  {
    ScopeAbove(P, cls, self, scope, tmp, env, st, inj, s);
    PopEnv(P, cls, scope, tmp, tmp - 1, u.fp.a, env', inj', u.heap, u.stack);
    NotASlot(scope, tmp, s.fp.a, s.sp.a);
    PushedKept(scope, s, w, t, u);
  }

  lemma NotASlot(scope: Scope, tmp: int, fp: int, a: int)
    requires NoSlotFrom(scope, tmp) && a == fp + 4 * tmp
    ensures !IsSlot(scope, fp, a)
  {
  }

  lemma PushedKept(scope: Scope, s: State, w: Word, t: State, u: State)
    requires Pushed(s, w, t) && s.fp.Stk? && FrameKept(scope, t, u) && !IsSlot(scope, s.fp.a, s.sp.a)
    ensures FrameKept(scope, s, u) && s.sp.a in u.stack && u.stack[s.sp.a] == w
  {
    assert s.sp.a in t.stack;
  }

  // ---------------------------------------------------------------------------------------------
  // Allocation of a block that no object of the store owns.

  lemma ObjsMono(P: Program, inj: Inj, h: Heap, objs: seq<Obj>, inj': Inj, h': Heap, id: nat)
    requires Hierarchy(P) && id < |inj| && id < |objs| && ObjAt(P, inj, h, objs, id)
    requires Ext(inj, h, inj', h') && inj[id] in h' && h'[inj[id]] == h[inj[id]]
    ensures ObjAt(P, inj', h', objs, id)
  {
    var o, ws := objs[id], h[inj[id]];
    var layout := AttrLayout(P, o.cls);
    forall i: nat | i < |layout| ensures AttrAt(P, inj', h', o, ws, i) {
      assert AttrAt(P, inj, h, o, ws, i);
      ValMono(P, inj, h, inj', h', o.attrs[layout[i].name], ws[3 + i]);
    }
  }

  lemma EnvMono(P: Program, cls: ClassName, scope: Scope, tmp: int, fp: int, env: Env, inj: Inj, h: Heap, stack: map<int, Word>, inj': Inj, h': Heap)
    requires Hierarchy(P) && cls in P.classes && EnvRel(P, cls, scope, tmp, fp, env, inj, h, stack) && Ext(inj, h, inj', h')
    ensures EnvRel(P, cls, scope, tmp, fp, env, inj', h', stack)
  {
    forall x | x in env ensures LocalAt(P, scope, tmp, fp, env, inj', h', stack, x) {
      assert LocalAt(P, scope, tmp, fp, env, inj, h, stack, x);
      ValMono(P, inj, h, inj', h', env[x], stack[fp + 4 * scope[x].off]);
    }
  }

  /** The data segment is out of reach of stores to objects. */
  lemma StaticKept(P: Program, inj: Inj, h: Heap, inj': Inj, h': Heap)
    requires Hierarchy(P) && StaticOK(P, h) && Ext(inj, h, inj', h')
    requires forall id :: 0 <= id < |inj| ==> inj[id].Dyn?
    ensures StaticOK(P, h')
  {
    assert forall r :: r in inj ==> r.Dyn?;
    forall c | c in P.classes ensures ProtoOK(P, h', c) {
      assert ProtoOK(P, h, c);
    }
  }

  lemma InjDyn(P: Program, inj: Inj, h: Heap, next: nat, objs: seq<Obj>)
    requires Hierarchy(P) && HeapRel(P, inj, h, next, objs)
    ensures forall id :: 0 <= id < |inj| ==> inj[id].Dyn?
  {
    forall id: nat | id < |inj| ensures inj[id].Dyn? {
      assert ObjAt(P, inj, h, objs, id);
    }
  }

  /** The block `Dyn(next)` is added to the heap. */
  lemma AllocHeapRel(P: Program, inj: Inj, h: Heap, next: nat, objs: seq<Obj>, ws: seq<Word>)
    requires Hierarchy(P) && HeapRel(P, inj, h, next, objs)
    ensures Dyn(next) !in inj && Dyn(next) !in h
    ensures Ext(inj, h, inj, h[Dyn(next) := ws]) && HeapRel(P, inj, h[Dyn(next) := ws], next + 1, objs)
  {
    var h' := h[Dyn(next) := ws];
    forall id: nat | id < |inj| ensures inj[id] != Dyn(next) && ObjAt(P, inj, h', objs, id) {
      assert ObjAt(P, inj, h, objs, id);
      ObjsMono(P, inj, h, objs, inj, h', id);
    }
    InjDyn(P, inj, h, next, objs);
    StaticKept(P, inj, h, inj, h');
  }

  /** `t` is `s` after Object.copy made the block `ws`, possibly with other values in the scratch registers. */
  ghost predicate Copied(s: State, ws: seq<Word>, t: State) {
    t == s.(pc := t.pc, acc := Ref(Dyn(s.next)), t1 := t.t1, t2 := t.t2, ra := t.ra,
            next := s.next + 1, heap := s.heap[Dyn(s.next) := ws])
  }

  lemma CopiedPost(P: Program, cls: ClassName, self: Value, scope: Scope, tmp: int, env: Env, st: Store, inj: Inj, s: State, ws: seq<Word>, t: State, v: Value)
    requires Hierarchy(P) && Rel(P, cls, self, scope, tmp, env, st, inj, s) && Copied(s, ws, t)
    requires (v.VInt? && ws == IntWords(P, v.n)) || (v.VBool? && ws == BoolWords(P, v.b)) || (v.VStr? && IsString(P, ws, v.s))
    ensures Post(P, cls, self, scope, tmp, inj, st, s, v, env, st, inj, t)
  {
    AllocHeapRel(P, inj, s.heap, s.next, st.objs, ws);
    EnvMono(P, cls, scope, tmp, s.fp.a, env, inj, s.heap, s.stack, inj, t.heap);
  }
}
