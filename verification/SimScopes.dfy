/** Scopes, operands and argument lists: what is on the stack around a sub-expression. */
module SimScopes {
  import opened CoolNames
  import opened Inheritance
  import opened CoolSyntax
  import opened Layout
  import opened ClassTags
  import opened CoolSemantics
  import opened Mips
  import opened CodeGen
  import opened SimRel
  import opened SimFrame
  import opened SimSteps
  import opened SimCalls

  // ---------------------------------------------------------------------------------------------
  // let and case: a variable in the word that was just pushed.

  lemma BindScope(P: Program, cls: ClassName, scope: Scope, tmp: int, fp: int, env: Env, inj: Inj, h: Heap, stack: map<int, Word>, x: Name, v: Value, w: Word)
    requires Hierarchy(P) && cls in P.classes && EnvRel(P, cls, scope, tmp, fp, env, inj, h, stack)
    requires x != SELF && ValRel(P, inj, h, v, w)
    ensures EnvRel(P, cls, scope[x := Local(tmp)], tmp - 1, fp, env[x := v], inj, h, stack[fp + 4 * tmp := w])
  {
    var scope', env', stack' := scope[x := Local(tmp)], env[x := v], stack[fp + 4 * tmp := w];
    forall y | y in env' ensures LocalAt(P, scope', tmp - 1, fp, env', inj, h, stack', y) {
      assert y != x ==> LocalAt(P, scope, tmp, fp, env, inj, h, stack, y);
    }
    forall y, z | y in env' && z in env' && y != z ensures OtherPlace(scope', y, z) {
      assert y != x ==> LocalAt(P, scope, tmp, fp, env, inj, h, stack, y);
      assert z != x ==> LocalAt(P, scope, tmp, fp, env, inj, h, stack, z);
      assert y != x && z != x ==> OtherPlace(scope, y, z);
    }
    forall i: nat | i < |AttrLayout(P, cls)| ensures AttrScoped(P, cls, scope', env', i) {
      assert AttrScoped(P, cls, scope, env, i);
    }
  }

  /** Entering the scope of `x`, whose value was pushed from $a0. */
  lemma BindRel(P: Program, cls: ClassName, self: Value, scope: Scope, tmp: int, env: Env, st: Store, inj: Inj, s: State, x: Name, v: Value, t: State)
    requires Hierarchy(P) && Rel(P, cls, self, scope, tmp, env, st, inj, s) && Pushed(s, s.acc, t)
    requires x != SELF && ValRel(P, inj, s.heap, v, s.acc)
    ensures Rel(P, cls, self, scope[x := Local(tmp)], tmp - 1, env[x := v], st, inj, t)
  {
    BindScope(P, cls, scope, tmp, s.fp.a, env, inj, s.heap, s.stack, x, v, s.acc);
  }

  /** The locals in scope are the variables of the environment. */
  lemma SameLocals(P: Program, cls: ClassName, scope: Scope, tmp: int, fp: int, env: Env, inj: Inj, h: Heap, stack: map<int, Word>)
    requires Hierarchy(P) && cls in P.classes && EnvRel(P, cls, scope, tmp, fp, env, inj, h, stack)
    ensures forall y :: y in env <==> y in scope && scope[y].Local?
  {
    forall y | y in env ensures y in scope && scope[y].Local? {
      assert LocalAt(P, scope, tmp, fp, env, inj, h, stack, y);
    }
  }

  /** A word that was live and not a variable of the inner scope is as it was. */
  lemma HiddenSlot(P: Program, cls: ClassName, scope: Scope, tmp: int, fp: int, env: Env, inj: Inj, h: Heap, stack: map<int, Word>, x: Name)
    requires Hierarchy(P) && cls in P.classes && EnvRel(P, cls, scope, tmp, fp, env, inj, h, stack) && x in env
    ensures LocalAt(P, scope, tmp, fp, env, inj, h, stack, x)
    ensures !IsSlot(scope[x := Local(tmp)], fp, fp + 4 * scope[x].off)
  {
    assert LocalAt(P, scope, tmp, fp, env, inj, h, stack, x);
    var scope' := scope[x := Local(tmp)];
    SameLocals(P, cls, scope, tmp, fp, env, inj, h, stack);
    forall y | y in scope' && scope'[y].Local? ensures scope'[y].off != scope[x].off {
      assert y != x ==> OtherPlace(scope, x, y);
    }
  }

  lemma UnbindScope(P: Program, cls: ClassName, scope: Scope, tmp: int, fp: int, env: Env, inj: Inj, h: Heap, stack: map<int, Word>, x: Name, env2: Env, inj2: Inj, h2: Heap, stack2: map<int, Word>)
    requires Hierarchy(P) && cls in P.classes && EnvRel(P, cls, scope, tmp, fp, env, inj, h, stack)
    requires EnvRel(P, cls, scope[x := Local(tmp)], tmp - 1, fp, env2, inj2, h2, stack2) && Ext(inj, h, inj2, h2)
    requires x in env ==>
      x in scope && scope[x].Local? && fp + 4 * scope[x].off in stack
      && fp + 4 * scope[x].off in stack2 && stack2[fp + 4 * scope[x].off] == stack[fp + 4 * scope[x].off]
    ensures EnvRel(P, cls, scope, tmp, fp, Unbind(env, env2, x), inj2, h2, stack2)
  {
    var env' := Unbind(env, env2, x);
    SameLocals(P, cls, scope, tmp, fp, env, inj, h, stack);
    SameLocals(P, cls, scope[x := Local(tmp)], tmp - 1, fp, env2, inj2, h2, stack2);
    assert forall y :: y in env' <==> y in env;
    forall y | y in env' ensures LocalAt(P, scope, tmp, fp, env', inj2, h2, stack2, y) {
      assert LocalAt(P, scope, tmp, fp, env, inj, h, stack, y);
      if y == x {
        ValMono(P, inj, h, inj2, h2, env[x], stack[fp + 4 * scope[x].off]);
      } else {
        assert LocalAt(P, scope[x := Local(tmp)], tmp - 1, fp, env2, inj2, h2, stack2, y);
      }
    }
    forall y, z | y in env' && z in env' && y != z ensures OtherPlace(scope, y, z) {
      assert OtherPlace(scope, y, z);
    }
    forall i: nat | i < |AttrLayout(P, cls)| ensures AttrScoped(P, cls, scope, env', i) {
      assert AttrScoped(P, cls, scope, env, i);
    }
  }

  lemma UnbindFrame(scope: Scope, tmp: int, s: State, x: Name, t: State, u: State)
    requires s.fp.Stk? && Pushed(s, s.acc, t) && s.sp.a == s.fp.a + 4 * tmp
    requires FrameKept(scope[x := Local(tmp)], t, u)
    ensures FrameKept(scope, s, u)
  {
    forall a | a in s.stack && a > s.sp.a && !IsSlot(scope, s.fp.a, a) ensures a in u.stack && u.stack[a] == s.stack[a] {
      NewSlotOnly(scope, tmp, x, s.fp.a, a);
    }
  }

  lemma NewSlotOnly(scope: Scope, tmp: int, x: Name, fp: int, a: int)
    requires a != fp + 4 * tmp && !IsSlot(scope, fp, a)
    ensures !IsSlot(scope[x := Local(tmp)], fp, a)
  {
  }

  /** Leaving the scope of `x`: the word is popped and what `x` hid is back. */
  lemma UnbindMid(P: Program, cls: ClassName, self: Value, scope: Scope, tmp: int, env: Env, st: Store, inj: Inj, s: State, x: Name, t: State, env2: Env, st2: Store, inj2: Inj, u: State, u': State)
    requires Hierarchy(P) && Rel(P, cls, self, scope, tmp, env, st, inj, s) && Pushed(s, s.acc, t)
    requires Mid(P, cls, self, scope[x := Local(tmp)], tmp - 1, inj, st, t, env2, st2, inj2, u)
    requires u' == u.(pc := u'.pc, sp := s.sp)
    ensures Mid(P, cls, self, scope, tmp, inj, st, s, Unbind(env, env2, x), st2, inj2, u')
  {
    if x in env {
      HiddenSlot(P, cls, scope, tmp, s.fp.a, env, inj, s.heap, s.stack, x);
      assert s.fp.a + 4 * scope[x].off in t.stack;
    }
    UnbindScope(P, cls, scope, tmp, s.fp.a, env, inj, s.heap, s.stack, x, env2, inj2, u.heap, u.stack);
    UnbindFrame(scope, tmp, s, x, t, u);
  }

  // ---------------------------------------------------------------------------------------------
  // Binary operators: the first operand waits on the stack.

  ghost function PopOne(t: State): State
    requires t.sp.Stk?
  {
    t.(sp := Stk(t.sp.a + 4))
  }

  lemma Operands(k: Ctx, cls: ClassName, self: Value, scope: Scope, tmp: int, inj: Inj, st: Store, s: State, a: Value, env0: Env, st0: Store, r0: Run, s2: State, b: Value, env1: Env, st1: Store, r1: Run)
    requires Hierarchy(k.P) && Runs(k.img, r0.n, s, r0.t)
    requires Post(k.P, cls, self, scope, tmp, inj, st, s, a, env0, st0, r0.inj, r0.t)
    requires Runs(k.img, 2, r0.t, s2) && Pushed(r0.t, r0.t.acc, s2) && Runs(k.img, r1.n, s2, r1.t)
    requires Post(k.P, cls, self, scope, tmp - 1, r0.inj, st0, s2, b, env1, st1, r1.inj, r1.t)
    ensures Runs(k.img, r0.n + 2 + r1.n, s, r1.t) && r1.t.sp.Stk?
    ensures Post(k.P, cls, self, scope, tmp, inj, st, s, b, env1, st1, r1.inj, PopOne(r1.t))
    ensures r1.t.sp.a + 4 in r1.t.stack && ValRel(k.P, r1.inj, r1.t.heap, a, r1.t.stack[r1.t.sp.a + 4])
  {
    RunsTrans(k.img, r0.n, 2, s, r0.t, s2);
    RunsTrans(k.img, r0.n + 2, r1.n, s, s2, r1.t);
    var u := PopOne(r1.t);
    PopPost(k.P, cls, self, scope, tmp, env0, st0, r0.inj, r0.t, r0.t.acc, s2, b, env1, st1, r1.inj, r1.t, u);
    MidTrans(k.P, cls, self, scope, tmp, inj, st, s, env0, st0, r0.inj, r0.t, env1, st1, r1.inj, u);
    ValMono(k.P, r0.inj, r0.t.heap, r1.inj, r1.t.heap, a, r0.t.acc);
  }

  // ---------------------------------------------------------------------------------------------
  // Actual arguments.

  /** `vs` have been evaluated and pushed. */
  ghost predicate ArgsPost(P: Program, cls: ClassName, self: Value, scope: Scope, tmp: int, inj: Inj, st: Store, s: State, vs: seq<Value>, env': Env, st': Store, inj': Inj, t: State)
    requires Hierarchy(P)
  {
    && s.sp.Stk? && s.fp.Stk?
    && t.sp == Stk(s.sp.a - 4 * |vs|) && t.fp == s.fp && t.slf == s.slf
    && Ext(inj, s.heap, inj', t.heap) && ClassesKept(st.objs, st'.objs)
    && FrameKept(scope, s, t)
    && Rel(P, cls, self, scope, tmp - |vs|, env', st', inj', t)
    && ArgsOn(P, inj', t.heap, t.stack, t.sp.a, vs)
  }

  ghost predicate ArgsGood(k: Ctx, fuel: nat, cls: ClassName, self: Value, scope: Scope, tmp: int, inj: Inj, st: Store, s: State, len: nat, o: ArgsOutcome, r: Run)
    requires Hierarchy(k.P)
  {
    match o
    case Args(vs, env', st') =>
      && Runs(k.img, r.n, s, r.t) && r.t.pc == s.pc + len
      && ArgsPost(k.P, cls, self, scope, tmp, inj, st, s, vs, env', st', r.inj, r.t)
    case Stopped(o) => Finishes(k, fuel, s, o, r)
  }

  lemma NoArgs(P: Program, cls: ClassName, self: Value, scope: Scope, tmp: int, env: Env, st: Store, inj: Inj, s: State)
    requires Hierarchy(P) && Rel(P, cls, self, scope, tmp, env, st, inj, s)
    ensures ArgsPost(P, cls, self, scope, tmp, inj, st, s, [], env, st, inj, s)
  {
  }

  lemma PushFrame(scope: Scope, s: State, w: Word, t: State, u: State)
    requires s.fp.Stk? && Pushed(s, w, t) && FrameKept(scope, t, u)
    ensures FrameKept(scope, s, u)
  {
  }

  /** One argument in front of the others. */
  lemma MoreArgs(P: Program, cls: ClassName, self: Value, scope: Scope, tmp: int, inj: Inj, st: Store, s: State, v: Value, env0: Env, st0: Store, inj0: Inj, s1: State, s2: State, vs: seq<Value>, env1: Env, st1: Store, inj1: Inj, t: State)
    requires Hierarchy(P) && Post(P, cls, self, scope, tmp, inj, st, s, v, env0, st0, inj0, s1) && Pushed(s1, s1.acc, s2)
    requires ArgsPost(P, cls, self, scope, tmp - 1, inj0, st0, s2, vs, env1, st1, inj1, t)
    ensures ArgsPost(P, cls, self, scope, tmp, inj, st, s, [v] + vs, env1, st1, inj1, t)
  {
    ExtTrans(inj, s.heap, inj0, s1.heap, inj1, t.heap);
    ClassesTrans(st.objs, st0.objs, st1.objs);
    PushFrame(scope, s1, s1.acc, s2, t);
    FrameTrans2(scope, s, s1, t);
    FirstArg(P, cls, self, scope, tmp, env0, st0, inj0, s1, v, s2, vs, inj1, t);
  }

  lemma FrameTrans2(scope: Scope, s: State, t: State, u: State)
    requires s.sp.Stk? && s.fp.Stk? && t.sp == s.sp && t.fp == s.fp
    requires FrameKept(scope, s, t) && FrameKept(scope, t, u)
    ensures FrameKept(scope, s, u)
  {
  }

  lemma FirstArg(P: Program, cls: ClassName, self: Value, scope: Scope, tmp: int, env0: Env, st0: Store, inj0: Inj, s1: State, v: Value, s2: State, vs: seq<Value>, inj1: Inj, t: State)
    requires Hierarchy(P) && Rel(P, cls, self, scope, tmp, env0, st0, inj0, s1) && Pushed(s1, s1.acc, s2)
    requires ValRel(P, inj0, s1.heap, v, s1.acc) && Ext(inj0, s1.heap, inj1, t.heap)
    requires FrameKept(scope, s2, t) && t.sp == Stk(s2.sp.a - 4 * |vs|)
    requires ArgsOn(P, inj1, t.heap, t.stack, t.sp.a, vs)
    ensures ArgsOn(P, inj1, t.heap, t.stack, t.sp.a, [v] + vs)
  {
    ScopeAbove(P, cls, self, scope, tmp, env0, st0, inj0, s1);
    NotASlot(scope, tmp, s1.fp.a, s1.sp.a);
    assert s1.sp.a in s2.stack;
    ValMono(P, inj0, s1.heap, inj1, t.heap, v, s1.acc);
    forall i | 0 <= i < |[v] + vs| ensures ArgOn(P, inj1, t.heap, t.stack, t.sp.a, [v] + vs, i) {
      if i > 0 {
        assert ArgOn(P, inj1, t.heap, t.stack, t.sp.a, vs, i - 1);
      }
    }
  }

  /** Evaluating the receiver leaves the arguments on the stack. */
  lemma ArgsKept(P: Program, cls: ClassName, self: Value, scope: Scope, tmp: int, inj: Inj, st: Store, env: Env, s: State, vs: seq<Value>, env': Env, st': Store, inj': Inj, t: State)
    requires Hierarchy(P) && Rel(P, cls, self, scope, tmp, env, st, inj, s) && NoSlotFrom(scope, tmp + |vs|)
    requires Mid(P, cls, self, scope, tmp, inj, st, s, env', st', inj', t)
    requires ArgsOn(P, inj, s.heap, s.stack, s.sp.a, vs)
    ensures ArgsOn(P, inj', t.heap, t.stack, t.sp.a, vs)
  {
    forall i | 0 <= i < |vs| ensures ArgOn(P, inj', t.heap, t.stack, t.sp.a, vs, i) {
      assert ArgOn(P, inj, s.heap, s.stack, s.sp.a, vs, i);
      NotASlotUpTo(scope, tmp + |vs|, s.fp.a, s.sp.a + 4 * (|vs| - i));
      ValMono(P, inj, s.heap, inj', t.heap, vs[i], s.stack[s.sp.a + 4 * (|vs| - i)]);
    }
  }

  lemma NotASlotUpTo(scope: Scope, tmp: int, fp: int, a: int)
    requires NoSlotFrom(scope, tmp) && a <= fp + 4 * tmp
    ensures !IsSlot(scope, fp, a)
  {
  }

  /** The header of the block of a non-void value names its class. */
  lemma ClassWord(P: Program, inj: Inj, h: Heap, next: nat, st: Store, v: Value, w: Word)
    requires Hierarchy(P) && HeapRel(P, inj, h, next, st.objs) && ValRel(P, inj, h, v, w) && v != VVoid
    ensures w.Ref? && w.r in h && |h[w.r]| > 2
    ensures h[w.r][0] == TagWord(P, ClassOf(st, v)) && h[w.r][2] == Disp(ClassOf(st, v))
  {
    if v.VObj? {
      assert ObjAt(P, inj, h, st.objs, v.id);
    }
  }
}
