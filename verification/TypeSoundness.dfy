/**
  Type soundness: a program whose checks all succeed never does what the interpreter calls `Wrong`.  SELF_TYPE is read
  relative to the class of the object that runs the method, which lies at or below the class that declares it.
 */
module TypeSoundness {
  import opened CoolNames
  import opened Inheritance
  import opened CoolSyntax
  import opened Layout
  import opened ClassTags
  import opened CoolSemantics
  import opened SemanticsEquations
  import opened SimRel
  import opened SimCalls
  import opened SimObjects
  import opened SimMethods
  import opened SimCreation
  import opened Typing

  ghost predicate Checked(P: Program, sigs: Sigs) {
    WellFormed(P) && Declarations(P, sigs) && Accepts(P, sigs) && NothingSkipped(P, sigs)
  }

  // ---------------------------------------------------------------------------------------------
  // Values and stores.

  /** `v` is an instance of class `t`; void is one unless `t` is Int, Bool or String. */
  ghost predicate ValueOK(P: Program, st: Store, t: ClassName, v: Value)
    requires Hierarchy(P)
  {
    t in P.classes && if v.VVoid? then !IsBasic(t) else ClassOf(st, v) in P.classes && Inherits(P, ClassOf(st, v), t)
  }

  /** `v` has type `ty` where the object in `self` is of class `dc`. */
  ghost predicate TypeOK(P: Program, st: Store, dc: ClassName, ty: Type, v: Value)
    requires Hierarchy(P)
  {
    !ty.NoType? && ValueOK(P, st, Resolve(ty, dc), v)
  }

  ghost predicate AttrOK(P: Program, st: Store, o: Obj, a: Attr)
    requires Hierarchy(P)
  {
    a.name in o.attrs && TypeOK(P, st, o.cls, TypeOf(a.ty), o.attrs[a.name])
  }

  /** Every attribute that the class declares or inherits holds a value of its type. */
  ghost predicate ObjOK(P: Program, st: Store, o: Obj)
    requires Hierarchy(P)
  {
    && o.cls in P.classes && !IsBasic(o.cls)
    && forall i :: 0 <= i < |AttrLayout(P, o.cls)| ==> AttrOK(P, st, o, AttrLayout(P, o.cls)[i])
  }

  ghost predicate StoreOK(P: Program, st: Store)
    requires Hierarchy(P)
  {
    forall id :: 0 <= id < |st.objs| ==> ObjOK(P, st, st.objs[id])
  }

  /** Objects are never lost and keep their classes. */
  ghost predicate Grows(st: Store, st1: Store) {
    |st.objs| <= |st1.objs| && forall id :: 0 <= id < |st.objs| ==> st1.objs[id].cls == st.objs[id].cls
  }

  lemma GrowsOn(st: Store, st1: Store, st2: Store)
    requires Grows(st, st1) && Grows(st1, st2)
    ensures Grows(st, st2)
  {
  }

  lemma ValueKept(P: Program, st: Store, st1: Store, t: ClassName, v: Value)
    requires Hierarchy(P) && Grows(st, st1) && ValueOK(P, st, t, v)
    ensures ValueOK(P, st1, t, v)
  {
    hide Inherits, Hierarchy;
    NoClassUnknown(P);
  }

  lemma NoClassUnknown(P: Program)
    requires Hierarchy(P)
    ensures NoClass !in P.classes
  {
  }

  lemma ObjKept(P: Program, st: Store, st1: Store, o: Obj)
    requires Hierarchy(P) && Grows(st, st1) && ObjOK(P, st, o)
    ensures ObjOK(P, st1, o)
  {
    hide ValueOK, Hierarchy;
    forall i | 0 <= i < |AttrLayout(P, o.cls)| ensures AttrOK(P, st1, o, AttrLayout(P, o.cls)[i]) {
      var a := AttrLayout(P, o.cls)[i];
      assert AttrOK(P, st, o, a);
      ValueKept(P, st, st1, Resolve(TypeOf(a.ty), o.cls), o.attrs[a.name]);
    }
  }

  /** A new object. */
  lemma ObjAdded(P: Program, st: Store, o: Obj)
    requires Hierarchy(P) && StoreOK(P, st) && ObjOK(P, st, o)
    ensures StoreOK(P, st.(objs := st.objs + [o])) && Grows(st, st.(objs := st.objs + [o]))
  {
    hide ObjOK, Hierarchy;
    var st1 := st.(objs := st.objs + [o]);
    forall id | 0 <= id < |st1.objs| ensures ObjOK(P, st1, st1.objs[id]) {
      ObjKept(P, st, st1, st1.objs[id]);
    }
  }

  /** An assignment to attribute `i` of object `id`. */
  lemma AttrPut(P: Program, st: Store, id: nat, i: nat, v: Value)
    requires Hierarchy(P) && StoreOK(P, st) && id < |st.objs| && st.objs[id].cls in P.classes
    requires AttrsOK(P, st.objs[id].cls) && i < |AttrLayout(P, st.objs[id].cls)|
    requires TypeOK(P, st, st.objs[id].cls, TypeOf(AttrLayout(P, st.objs[id].cls)[i].ty), v)
    ensures var st1 := Put(st, id, AttrLayout(P, st.objs[id].cls)[i].name, v);
      StoreOK(P, st1) && Grows(st, st1)
  {
    hide ObjOK, Hierarchy, TypeOK;
    var x := AttrLayout(P, st.objs[id].cls)[i].name;
    var st1 := Put(st, id, x, v);
    ObjPut(P, st, st.objs[id], i, v);
    forall j | 0 <= j < |st1.objs| ensures ObjOK(P, st1, st1.objs[j]) {
      ObjKept(P, st, st1, st1.objs[j]);
    }
  }

  lemma ObjPut(P: Program, st: Store, o: Obj, i: nat, v: Value)
    requires Hierarchy(P) && ObjOK(P, st, o) && AttrsOK(P, o.cls) && i < |AttrLayout(P, o.cls)|
    requires TypeOK(P, st, o.cls, TypeOf(AttrLayout(P, o.cls)[i].ty), v)
    ensures ObjOK(P, st, o.(attrs := o.attrs[AttrLayout(P, o.cls)[i].name := v]))
  {
    hide TypeOK, Hierarchy, AttrLayout;
    var layout := AttrLayout(P, o.cls);
    var o1 := o.(attrs := o.attrs[layout[i].name := v]);
    forall j | 0 <= j < |layout| ensures AttrOK(P, st, o1, layout[j]) {
      assert AttrOK(P, st, o, layout[j]);
      assert j < i || j == i || i < j;
    }
  }

  // ---------------------------------------------------------------------------------------------
  // Subtyping.

  ghost predicate BasicsAreLeaves(P: Program) {
    forall c {:trigger P.classes[c]} :: c in P.classes ==> !IsBasic(P.classes[c].parent)
  }

  lemma LeavesKnown(P: Program, sigs: Sigs)
    requires Checked(P, sigs)
    ensures Hierarchy(P) && BasicsAreLeaves(P) && BasicsOK(P)
  {
    hide BasicsOK;
  }

  lemma {:induction false} OnlyItself(P: Program, c: ClassName, d: ClassName)
    requires Hierarchy(P) && BasicsAreLeaves(P) && c in P.classes && Inherits(P, c, d) && IsBasic(d)
    ensures c == d
    decreases Level(P, c)
  {
    if c != d {
      var up := Up(P, c);
      assert Inherits(P, up, d) && up == P.classes[c].parent;
      if up != NoClass {
        OnlyItself(P, up, d);
      }
    }
  }

  lemma Widen(P: Program, st: Store, t: ClassName, u: ClassName, v: Value)
    requires Hierarchy(P) && BasicsAreLeaves(P) && ValueOK(P, st, t, v) && Inherits(P, t, u) && u in P.classes
    ensures ValueOK(P, st, u, v)
  {
    if v.VVoid? {
      if IsBasic(u) {
        OnlyItself(P, t, u);
      }
    } else {
      AncTransitive(Parents(P), ClassOf(st, v), t, u);
    }
  }

  /** Subsumption. */
  lemma WidenType(P: Program, st: Store, dc: ClassName, cls: ClassName, a: Type, b: Type, v: Value)
    requires Hierarchy(P) && BasicsAreLeaves(P) && cls in P.classes && dc in P.classes && Inherits(P, dc, cls)
    requires TypeOK(P, st, dc, a, v) && Sub(P, cls, a, b)
    ensures TypeOK(P, st, dc, b, v)
  {
    if a != b {
      if a.SelfType? {
        AncTransitive(Parents(P), dc, cls, b.c);
      }
      hide ValueOK, Hierarchy, BasicsAreLeaves;
      Widen(P, st, Resolve(a, dc), b.c, v);
    }
  }

  lemma InheritsOn(P: Program, c: ClassName, d: ClassName, e: ClassName)
    requires Hierarchy(P) && c in P.classes && d in P.classes && Inherits(P, c, d) && Inherits(P, d, e)
    ensures Inherits(P, c, e)
  {
    AncTransitive(Parents(P), c, d, e);
  }

  lemma IntValue(P: Program, st: Store, v: Value)
    requires Hierarchy(P) && BasicsAreLeaves(P) && StoreOK(P, st)
    ensures ValueOK(P, st, IntC, v) ==> v.VInt?
    ensures ValueOK(P, st, BoolC, v) ==> v.VBool?
    ensures ValueOK(P, st, StringC, v) ==> v.VStr?
  {
    forall d | IsBasic(d) && ValueOK(P, st, d, v) ensures ClassOf(st, v) == d && !v.VObj? {
      OnlyItself(P, ClassOf(st, v), d);
      assert v.VObj? ==> ObjOK(P, st, st.objs[v.id]);
    }
  }

  lemma {:induction false} AncestorIsCommon(P: Program, c: ClassName, d: ClassName)
    requires Hierarchy(P) && HasClass(P, c) && HasClass(P, d)
    ensures var r := CommonAncestor(P, c, d);
      r != NoClass ==> Inherits(P, c, r) && Inherits(P, d, r)
    decreases Level(P, c)
  {
    if c != NoClass && !Inherits(P, d, c) {
      AncestorIsCommon(P, Up(P, c), d);
    }
  }

  lemma {:induction false} AncestorIsLeast(P: Program, c: ClassName, d: ClassName, y: ClassName)
    requires Hierarchy(P) && HasClass(P, c) && HasClass(P, d) && Inherits(P, c, y) && Inherits(P, d, y)
    ensures Inherits(P, CommonAncestor(P, c, d), y)
    decreases Level(P, c)
  {
    if c != NoClass && !Inherits(P, d, c) {
      AncestorIsLeast(P, Up(P, c), d, y);
    }
  }

  /** The type of a conditional is the least type above those of its branches. */
  lemma LubIsLeast(P: Program, cls: ClassName, a: Type, b: Type, c: Type)
    requires Hierarchy(P) && cls in P.classes && Exists(P, a) && Exists(P, b)
    ensures var t := LubType(P, cls, a, b);
      Sub(P, cls, a, t) && Sub(P, cls, b, t) && (Sub(P, cls, a, c) && Sub(P, cls, b, c) ==> Sub(P, cls, t, c))
  {
    if a != b {
      var x, y := Resolve(a, cls), Resolve(b, cls);
      ObjectIsRoot(Parents(P), x);
      ObjectIsRoot(Parents(P), y);
      AncestorIsLeast(P, x, y, ObjectC);
      AncInTree(Parents(P), CommonAncestor(P, x, y), ObjectC);
      LubAbove(P, cls, a, b);
      if c.Cls? && Sub(P, cls, a, c) && Sub(P, cls, b, c) {
        AncestorIsLeast(P, x, y, c.c);
      }
    }
  }

  lemma LubAbove(P: Program, cls: ClassName, a: Type, b: Type)
    requires Hierarchy(P) && cls in P.classes && !LubType(P, cls, a, b).NoType?
    ensures Sub(P, cls, a, LubType(P, cls, a, b)) && Sub(P, cls, b, LubType(P, cls, a, b))
  {
    if a != b {
      AncestorIsCommon(P, Resolve(a, cls), Resolve(b, cls));
    }
  }

  lemma SubTrans(P: Program, cls: ClassName, a: Type, b: Type, c: Type)
    requires Hierarchy(P) && cls in P.classes && Sub(P, cls, a, b) && Sub(P, cls, b, c)
    ensures Sub(P, cls, a, c)
  {
    BelowPartialOrder(Parents(P), cls, a, b, c);
  }

  // ---------------------------------------------------------------------------------------------
  // Activations.

  /** A method of class `cls` runs on `self`, an object of class `dc`; `O` has the types of its variables. */
  datatype Frame = Frame(cls: ClassName, O: map<Name, Type>, dc: ClassName, self: Value)

  ghost predicate FrameOK(P: Program, f: Frame, st: Store)
    requires Hierarchy(P)
  {
    && f.cls in P.classes && f.dc in P.classes && !IsBasic(f.dc) && Inherits(P, f.dc, f.cls)
    && f.self.VObj? && f.self.id < |st.objs| && st.objs[f.self.id].cls == f.dc
    && SELF !in f.O && forall x :: x in f.O ==> Exists(P, f.O[x])
  }

  ghost predicate VarsOK(P: Program, f: Frame, env: Env, st: Store)
    requires Hierarchy(P)
  {
    env.Keys == f.O.Keys && forall x :: x in f.O ==> TypeOK(P, st, f.dc, f.O[x], env[x])
  }

  ghost predicate Good(P: Program, f: Frame, env: Env, st: Store)
    requires Hierarchy(P)
  {
    StoreOK(P, st) && FrameOK(P, f, st) && VarsOK(P, f, env, st)
  }

  /** The evaluation does not go wrong, and its value has type `ty`. */
  ghost predicate OutcomeOK(P: Program, f: Frame, ty: Type, st: Store, o: Outcome)
    requires Hierarchy(P)
  {
    !o.Wrong? && (o.Val? ==> Good(P, f, o.env, o.st) && Grows(st, o.st) && TypeOK(P, o.st, f.dc, ty, o.v))
  }

  /** The same for a call or a creation. */
  ghost predicate ResultOK(P: Program, t: ClassName, st: Store, o: Outcome)
    requires Hierarchy(P)
  {
    !o.Wrong? && (o.Val? ==> StoreOK(P, o.st) && Grows(st, o.st) && ValueOK(P, o.st, t, o.v))
  }

  lemma Later(P: Program, f: Frame, ty: Type, st: Store, st1: Store, o: Outcome)
    requires Hierarchy(P) && Grows(st, st1) && OutcomeOK(P, f, ty, st1, o)
    ensures OutcomeOK(P, f, ty, st, o)
  {
    hide Good, TypeOK, Hierarchy;
    if o.Val? {
      GrowsOn(st, st1, o.st);
    }
  }

  lemma VarsKept(P: Program, f: Frame, env: Env, st: Store, st1: Store)
    requires Hierarchy(P) && Good(P, f, env, st) && StoreOK(P, st1) && Grows(st, st1)
    ensures Good(P, f, env, st1)
  {
    hide ValueOK, Hierarchy, StoreOK, Inherits;
    forall x | x in f.O ensures TypeOK(P, st1, f.dc, f.O[x], env[x]) {
      ValueKept(P, st, st1, Resolve(f.O[x], f.dc), env[x]);
    }
  }

  lemma Returned(P: Program, f: Frame, ty: Type, env: Env, st: Store, o: Outcome)
    requires Hierarchy(P) && Good(P, f, env, st) && !ty.NoType? && ResultOK(P, Resolve(ty, f.dc), st, o)
    ensures OutcomeOK(P, f, ty, st, Return(env, o))
  {
    hide Good, Hierarchy, StoreOK, ValueOK;
    if o.Val? {
      VarsKept(P, f, env, st, o.st);
    }
  }

  lemma OutcomeWidened(P: Program, f: Frame, a: Type, b: Type, st: Store, o: Outcome)
    requires Hierarchy(P) && BasicsAreLeaves(P) && f.cls in P.classes && OutcomeOK(P, f, a, st, o) && Sub(P, f.cls, a, b)
    ensures OutcomeOK(P, f, b, st, o)
  {
    hide StoreOK, VarsOK, Hierarchy, BasicsAreLeaves, TypeOK, Inherits, Sub;
    if o.Val? {
      WidenType(P, o.st, f.dc, f.cls, a, b, o.v);
    }
  }

  // ---------------------------------------------------------------------------------------------
  // Scopes.

  /** The frame in which `x` has type `ty`. */
  function Inner(f: Frame, x: Name, ty: Type): Frame {
    f.(O := f.O[x := ty])
  }

  lemma Bound(P: Program, f: Frame, env: Env, st: Store, x: Name, ty: Type, v: Value)
    requires Hierarchy(P) && Good(P, f, env, st) && x != SELF && Exists(P, ty) && TypeOK(P, st, f.dc, ty, v)
    ensures Good(P, Inner(f, x, ty), env[x := v], st)
  {
    hide StoreOK, TypeOK, Hierarchy, Inherits;
  }

  lemma ScopeLeft(P: Program, f: Frame, env: Env, st: Store, x: Name, ty: Type, t: Type, o: Outcome)
    requires Hierarchy(P) && Good(P, f, env, st) && OutcomeOK(P, Inner(f, x, ty), t, st, o)
    ensures OutcomeOK(P, f, t, st, LeaveScope(env, x, o))
  {
    hide StoreOK, TypeOK, Hierarchy, Inherits;
    if o.Val? {
      VarsKept(P, f, env, st, o.st);
      assert forall y :: y in f.O && y != x ==> Inner(f, x, ty).O[y] == f.O[y];
    }
  }

  // ---------------------------------------------------------------------------------------------
  // Variables.

  lemma AttrTypeFound(P: Program, c: ClassName, x: Name) returns (i: nat)
    requires Hierarchy(P) && c in P.classes && !AttrType(P, c, x).NoType?
    ensures i < |AttrLayout(P, c)| && AttrLayout(P, c)[i].name == x && AttrType(P, c, x) == TypeOf(AttrLayout(P, c)[i].ty)
  {
    i :| 0 <= i < |AttrLayout(P, c)| && AttrLayout(P, c)[i].name == x && AttrType(P, c, x) == TypeOf(AttrLayout(P, c)[i].ty);
  }

  /** Attribute `i` of the class of the method is attribute `i` of the object. */
  lemma SelfAttr(P: Program, f: Frame, st: Store, i: nat)
    requires Hierarchy(P) && StoreOK(P, st) && FrameOK(P, f, st) && i < |AttrLayout(P, f.cls)|
    ensures i < |AttrLayout(P, f.dc)| && AttrLayout(P, f.dc)[i] == AttrLayout(P, f.cls)[i]
    ensures AttrOK(P, st, st.objs[f.self.id], AttrLayout(P, f.cls)[i])
    ensures AttrInScope(P, f.cls, f.self, st, AttrLayout(P, f.cls)[i].name)
  {
    hide AttrLayout, Hierarchy, Inherits;
    AttrPrefix(P, f.dc, f.cls);
    var o := st.objs[f.self.id];
    assert ObjOK(P, st, o);
    assert AttrOK(P, st, o, AttrLayout(P, o.cls)[i]);
  }

  lemma SelfTyped(P: Program, f: Frame, st: Store)
    requires Hierarchy(P) && FrameOK(P, f, st)
    ensures TypeOK(P, st, f.dc, SelfType, f.self)
  {
  }

  lemma ReadOK(P: Program, f: Frame, env: Env, st: Store, x: Name)
    requires Hierarchy(P) && Good(P, f, env, st) && !VarType(P, f.cls, f.O, x).NoType?
    ensures OutcomeOK(P, f, VarType(P, f.cls, f.O, x), st, ReadVar(P, f.cls, f.self, env, st, x))
  {
    hide StoreOK, TypeOK, Hierarchy, Inherits, AttrLayout, AttrType, AttrInScope;
    SelfTyped(P, f, st);
    if x != SELF && x !in f.O {
      var i := AttrTypeFound(P, f.cls, x);
      SelfAttr(P, f, st, i);
    }
  }

  lemma WriteAttr(P: Program, f: Frame, env: Env, st: Store, i: nat, v: Value)
    requires Hierarchy(P) && Good(P, f, env, st) && AttrsOK(P, f.dc) && i < |AttrLayout(P, f.cls)|
    requires AttrLayout(P, f.cls)[i].name !in env && TypeOK(P, st, f.dc, TypeOf(AttrLayout(P, f.cls)[i].ty), v)
    ensures var o := WriteVar(P, f.cls, f.self, env, st, AttrLayout(P, f.cls)[i].name, v);
      o.Val? && o.v == v && o.env == env && Good(P, f, o.env, o.st) && Grows(st, o.st)
  {
    hide StoreOK, TypeOK, Hierarchy, Inherits, AttrLayout, AttrInScope, VarsOK;
    SelfAttr(P, f, st, i);
    AttrPut(P, st, f.self.id, i, v);
    VarsKept(P, f, env, st, Put(st, f.self.id, AttrLayout(P, f.cls)[i].name, v));
  }

  lemma WriteOK(P: Program, f: Frame, env: Env, st: Store, x: Name, ty: Type, v: Value)
    requires Hierarchy(P) && BasicsAreLeaves(P) && Good(P, f, env, st) && AttrsOK(P, f.dc) && x != SELF
    requires !VarType(P, f.cls, f.O, x).NoType? && TypeOK(P, st, f.dc, ty, v) && Sub(P, f.cls, ty, VarType(P, f.cls, f.O, x))
    ensures OutcomeOK(P, f, ty, st, WriteVar(P, f.cls, f.self, env, st, x, v))
  {
    hide StoreOK, TypeOK, Hierarchy, Inherits, AttrLayout, AttrInScope, AttrType, AttrsOK, BasicsAreLeaves, Sub;
    var t := VarType(P, f.cls, f.O, x);
    WidenType(P, st, f.dc, f.cls, ty, t, v);
    if x !in f.O {
      var i := AttrTypeFound(P, f.cls, x);
      WriteAttr(P, f, env, st, i, v);
      var o := WriteVar(P, f.cls, f.self, env, st, x, v);
      TypeKept(P, st, o.st, f.dc, ty, v);
    }
  }

  lemma TypeKept(P: Program, st: Store, st1: Store, dc: ClassName, ty: Type, v: Value)
    requires Hierarchy(P) && Grows(st, st1) && TypeOK(P, st, dc, ty, v)
    ensures TypeOK(P, st1, dc, ty, v)
  {
    hide ValueOK, Hierarchy;
    ValueKept(P, st, st1, Resolve(ty, dc), v);
  }

  // ---------------------------------------------------------------------------------------------
  // Methods.

  lemma MethodAccepted(P: Program, sigs: Sigs, c: ClassName, m: Method)
    requires Hierarchy(P) && Checked(P, sigs) && c in P.classes && m in P.classes[c].methods
    ensures SigOf(sigs, c, m) && SameAsParent(P, sigs, c, m.name) && (m.body.Native? <==> !c.User?)
    ensures m.body.Code? ==> Clean(AnalyzeMethod(P, sigs, c, m)) && FormalsOK(m.formals)
  {
    hide WellFormed, Hierarchy, SameAsParent, Analyze;
    assert SigOf(sigs, c, m);
    FormalsKnown(P, c, m);
  }

  lemma FormalsKnown(P: Program, c: ClassName, m: Method)
    requires Hierarchy(P) && WellFormed(P) && c in P.classes && m in P.classes[c].methods
    ensures FormalsOK(m.formals) && AttrsOK(P, c)
  {
    hide Hierarchy, TagsOK, BasicsOK, AttrsOK;
    assert ClassOK(P, c);
  }

  lemma SigStep(P: Program, sigs: Sigs, c: ClassName, m: Name)
    requires Hierarchy(P) && Checked(P, sigs) && c in P.classes && MethodSig(P, sigs, Up(P, c), m).Found?
    ensures MethodSig(P, sigs, c, m) == MethodSig(P, sigs, Up(P, c), m)
  {
    hide Checked, Hierarchy, Declares;
    NearestUp(P, c, m);
    NoClassUnknown(P);
    if Declares(P.classes[c], m) {
      MethodAccepted(P, sigs, c, Decl(P.classes[c], m));
    }
  }

  /** A method has the same signature in every class below. */
  lemma {:induction false} SigKept(P: Program, sigs: Sigs, c: ClassName, d: ClassName, m: Name)
    requires Hierarchy(P) && Checked(P, sigs) && c in P.classes && d in P.classes && Inherits(P, c, d)
    requires MethodSig(P, sigs, d, m).Found?
    ensures MethodSig(P, sigs, c, m) == MethodSig(P, sigs, d, m)
    decreases Level(P, c)
  {
    hide Checked, Hierarchy, MethodSig;
    if c != d {
      var up := Up(P, c);
      UpHere(P, c, d);
      SigKept(P, sigs, up, d, m);
      SigStep(P, sigs, c, m);
    }
  }

  lemma UpHere(P: Program, c: ClassName, d: ClassName)
    requires Hierarchy(P) && c in P.classes && d in P.classes && Inherits(P, c, d) && c != d
    ensures Up(P, c) in P.classes && Inherits(P, Up(P, c), d)
  {
    NoClassUnknown(P);
    assert Inherits(P, Up(P, c), d);
  }

  /** What the checks say of the method that a call runs. */
  lemma MethodTyped(P: Program, sigs: Sigs, c: ClassName, m: Name)
    requires Hierarchy(P) && Checked(P, sigs) && c in P.classes && MethodSig(P, sigs, c, m).Found?
    ensures var d := Nearest(P, c, m);
      var sig := MethodSig(P, sigs, c, m).sig;
      && d != NoClass && !sig.ret.NoType?
      && var mt := Decl(P.classes[d], m);
      && |mt.formals| == |sig.formals|
      && (mt.body.Native? ==> sig == NativeSig(mt.body.op))
      && (mt.body.Code? ==>
            var v := Analyze(P, sigs, d, FormalTypes(mt.formals, sig.formals), mt.body.e);
            d.User? && FormalsOK(mt.formals) && Clean(v) && Sub(P, d, v.ty, sig.ret)
            && forall i :: 0 <= i < |sig.formals| ==> sig.formals[i] in P.classes)
  {
    hide Checked, Hierarchy, Analyze, Declares, Sub, SameAsParent;
    var d := Nearest(P, c, m);
    MethodAccepted(P, sigs, d, Decl(P.classes[d], m));
  }

  lemma {:induction false} BindTyped(P: Program, st: Store, dc: ClassName, formals: seq<Name>, tys: seq<ClassName>, vs: seq<Value>)
    requires Hierarchy(P) && |formals| == |tys| == |vs| && forall i :: 0 <= i < |vs| ==> ValueOK(P, st, tys[i], vs[i])
    ensures Bind(formals, vs).Keys == FormalTypes(formals, tys).Keys
    ensures forall x :: x in Bind(formals, vs) ==> x in formals
    ensures forall x :: x in FormalTypes(formals, tys) ==>
      Exists(P, FormalTypes(formals, tys)[x]) && TypeOK(P, st, dc, FormalTypes(formals, tys)[x], Bind(formals, vs)[x])
    decreases |formals|
  {
    hide Inherits, Hierarchy;
    if formals != [] {
      var k := |formals| - 1;
      assert forall i :: 0 <= i < k ==> vs[..k][i] == vs[i] && tys[..k][i] == tys[i];
      BindTyped(P, st, dc, formals[..k], tys[..k], vs[..k]);
    }
  }

  lemma NativeSound(P: Program, op: NativeOp, v0: Value, vs: seq<Value>, st: Store)
    requires Hierarchy(P) && BasicsAreLeaves(P) && StoreOK(P, st) && v0 != VVoid && ClassOf(st, v0) in P.classes
    requires |vs| == |NativeSig(op).formals| && forall i :: 0 <= i < |vs| ==> ValueOK(P, st, NativeSig(op).formals[i], vs[i])
    ensures ResultOK(P, Resolve(NativeSig(op).ret, ClassOf(st, v0)), st, RunNative(op, v0, vs, st))
  {
    hide ObjOK, Hierarchy;
    NoClassUnknown(P);
    match op
    case RtAbort =>
    case RtOutInt =>
      IntValue(P, st, vs[0]);
      Printed(P, v0, st, OutInt(vs[0].n));
    case RtOutString =>
      IntValue(P, st, vs[0]);
      Printed(P, v0, st, OutStr(vs[0].s));
    case RtCopy =>
      if v0.VObj? {
        ObjAdded(P, st, st.objs[v0.id]);
      }
  }

  lemma Printed(P: Program, v0: Value, st: Store, x: Output)
    requires Hierarchy(P) && StoreOK(P, st) && v0 != VVoid && ClassOf(st, v0) in P.classes
    ensures var st1 := st.(out := st.out + [x]);
      StoreOK(P, st1) && Grows(st, st1) && ValueOK(P, st1, ClassOf(st, v0), v0)
  {
    hide ObjOK, Hierarchy;
    var st1 := st.(out := st.out + [x]);
    forall id | 0 <= id < |st1.objs| ensures ObjOK(P, st1, st1.objs[id]) {
      ObjKept(P, st, st1, st.objs[id]);
    }
  }

  // ---------------------------------------------------------------------------------------------
  // New objects.

  lemma DefaultTyped(P: Program, st: Store, dc: ClassName, ty: StaticType)
    requires Hierarchy(P) && dc in P.classes && !IsBasic(dc) && Exists(P, TypeOf(ty))
    ensures TypeOK(P, st, dc, TypeOf(ty), Default(ty))
  {
  }

  lemma AttrAccepted(P: Program, sigs: Sigs, c: ClassName, a: Attr)
    requires Hierarchy(P) && Checked(P, sigs) && c in P.classes && !IsBasic(c) && a in P.classes[c].attrs
    ensures Exists(P, TypeOf(a.ty)) && Clean(AnalyzeInit(P, sigs, c, map[], a.ty, a.init))
  {
    hide WellFormed, Hierarchy, AnalyzeInit, BasicsOK;
    assert c.User?;
    assert Clean(AnalyzeAttr(P, sigs, c, a));
  }

  lemma {:induction false} AttrTypesExist(P: Program, sigs: Sigs, c: ClassName, i: nat)
    requires Hierarchy(P) && Checked(P, sigs) && BasicsAreLeaves(P) && c in P.classes && !IsBasic(c) && i < |AttrLayout(P, c)|
    ensures Exists(P, TypeOf(AttrLayout(P, c)[i].ty))
    decreases Level(P, c)
  {
    hide Checked, Hierarchy;
    var up := Up(P, c);
    var layout := AttrLayout(P, up);
    OwnAttrs(P, c);
    if i < |layout| {
      AttrTypesExist(P, sigs, up, i);
    } else {
      AttrAccepted(P, sigs, c, P.classes[c].attrs[i - |layout|]);
    }
  }

  lemma OwnAttrs(P: Program, c: ClassName)
    requires Hierarchy(P) && c in P.classes
    ensures AttrLayout(P, c) == AttrLayout(P, Up(P, c)) + P.classes[c].attrs && Up(P, c) == P.classes[c].parent
    ensures Up(P, c) == NoClass ==> AttrLayout(P, Up(P, c)) == []
    ensures Up(P, c) != NoClass ==> Up(P, c) in P.classes
  {
    NoClassUnknown(P);
  }

  lemma ClassAttrs(P: Program, sigs: Sigs, c: ClassName)
    requires Hierarchy(P) && Checked(P, sigs) && c in P.classes
    ensures AttrsOK(P, c)
  {
    hide Hierarchy, Declarations, Accepts, NothingSkipped, AttrsOK;
    assert ClassOK(P, c);
  }

  /** The object before its attributes are initialised. */
  lemma DefaultsTyped(P: Program, sigs: Sigs, c: ClassName, st: Store)
    requires Hierarchy(P) && Checked(P, sigs) && BasicsAreLeaves(P) && c in P.classes && !IsBasic(c)
    ensures ObjOK(P, st, Obj(c, Defaults(AttrLayout(P, c))))
  {
    hide Checked, Hierarchy, AttrLayout, TypeOK, Exists, Default;
    ClassAttrs(P, sigs, c);
    var layout := AttrLayout(P, c);
    DefaultsFacts(layout);
    forall i | 0 <= i < |layout| ensures AttrOK(P, st, Obj(c, Defaults(layout)), layout[i]) {
      AttrTypesExist(P, sigs, c, i);
      DefaultTyped(P, st, c, layout[i].ty);
    }
  }

  // ---------------------------------------------------------------------------------------------
  // What the checks of an expression say of its parts.

  lemma LetParts(P: Program, sigs: Sigs, cls: ClassName, O: map<Name, Type>, e: Expr)
    requires Hierarchy(P) && cls in P.classes && e.Let? && Clean(Analyze(P, sigs, cls, O, e))
    ensures e.x != SELF && Exists(P, TypeOf(e.ty)) && Clean(AnalyzeInit(P, sigs, cls, O, e.ty, e.init))
    ensures Clean(Analyze(P, sigs, cls, O[e.x := TypeOf(e.ty)], e.body))
    ensures Analyze(P, sigs, cls, O, e).ty == Analyze(P, sigs, cls, O[e.x := TypeOf(e.ty)], e.body).ty
  {
    hide Hierarchy, AnalyzeInit, Exists;
  }

  lemma InitParts(P: Program, sigs: Sigs, cls: ClassName, O: map<Name, Type>, ty: StaticType, init: Expr)
    requires Hierarchy(P) && cls in P.classes && Clean(AnalyzeInit(P, sigs, cls, O, ty, init))
    ensures if init.NoExpr? then init.ty == ty
      else Clean(Analyze(P, sigs, cls, O, init)) && Sub(P, cls, Analyze(P, sigs, cls, O, init).ty, TypeOf(ty))
  {
    hide Hierarchy, Analyze, Sub;
  }

  lemma AssignParts(P: Program, sigs: Sigs, cls: ClassName, O: map<Name, Type>, e: Expr)
    requires Hierarchy(P) && cls in P.classes && e.Assign? && Clean(Analyze(P, sigs, cls, O, e))
    ensures e.x != SELF && !VarType(P, cls, O, e.x).NoType? && Clean(Analyze(P, sigs, cls, O, e.e))
    ensures Analyze(P, sigs, cls, O, e) == Analyze(P, sigs, cls, O, e.e)
    ensures Sub(P, cls, Analyze(P, sigs, cls, O, e.e).ty, VarType(P, cls, O, e.x))
  {
    hide Hierarchy, VarType, Sub;
  }

  lemma CondParts(P: Program, sigs: Sigs, cls: ClassName, O: map<Name, Type>, e: Expr)
    requires Hierarchy(P) && cls in P.classes && e.Cond? && Clean(Analyze(P, sigs, cls, O, e))
    ensures Clean(Analyze(P, sigs, cls, O, e.pred)) && Analyze(P, sigs, cls, O, e.pred).ty == BOOL
    ensures Clean(Analyze(P, sigs, cls, O, e.thn)) && Clean(Analyze(P, sigs, cls, O, e.els))
    ensures Sub(P, cls, Analyze(P, sigs, cls, O, e.thn).ty, Analyze(P, sigs, cls, O, e).ty)
    ensures Sub(P, cls, Analyze(P, sigs, cls, O, e.els).ty, Analyze(P, sigs, cls, O, e).ty)
  {
    hide Hierarchy, LubType, Sub;
    LubAbove(P, cls, Analyze(P, sigs, cls, O, e.thn).ty, Analyze(P, sigs, cls, O, e.els).ty);
  }

  lemma LoopParts(P: Program, sigs: Sigs, cls: ClassName, O: map<Name, Type>, e: Expr)
    requires Hierarchy(P) && cls in P.classes && e.Loop? && Clean(Analyze(P, sigs, cls, O, e))
    ensures Clean(Analyze(P, sigs, cls, O, e.pred)) && Analyze(P, sigs, cls, O, e.pred).ty == BOOL
    ensures Clean(Analyze(P, sigs, cls, O, e.body)) && Analyze(P, sigs, cls, O, e).ty == Cls(ObjectC)
  {
    hide Hierarchy;
  }

  lemma IntsParts(P: Program, sigs: Sigs, cls: ClassName, O: map<Name, Type>, e: Expr)
    requires Hierarchy(P) && cls in P.classes && (e.Arith? || e.Compare?) && Clean(Analyze(P, sigs, cls, O, e))
    ensures Clean(Analyze(P, sigs, cls, O, e.e1)) && Analyze(P, sigs, cls, O, e.e1).ty == INT
    ensures Clean(Analyze(P, sigs, cls, O, e.e2)) && Analyze(P, sigs, cls, O, e.e2).ty == INT
    ensures Analyze(P, sigs, cls, O, e).ty == if e.Arith? then INT else BOOL
  {
    hide Hierarchy;
  }

  lemma UnaryParts(P: Program, sigs: Sigs, cls: ClassName, O: map<Name, Type>, e: Expr)
    requires Hierarchy(P) && cls in P.classes && (e.Neg? || e.Comp?) && Clean(Analyze(P, sigs, cls, O, e))
    ensures Clean(Analyze(P, sigs, cls, O, e.e)) && Analyze(P, sigs, cls, O, e) == Analyze(P, sigs, cls, O, e.e)
    ensures Analyze(P, sigs, cls, O, e).ty == if e.Neg? then INT else BOOL
  {
    hide Hierarchy;
  }

  lemma DispatchParts(P: Program, sigs: Sigs, cls: ClassName, O: map<Name, Type>, e: Expr)
    requires Hierarchy(P) && cls in P.classes && e.Dispatch? && Clean(Analyze(P, sigs, cls, O, e))
    ensures var v := Analyze(P, sigs, cls, O, e.e);
      && Clean(v) && Exists(P, v.ty) && TypeOf(e.sty) == v.ty && StaticClass(e.sty, cls) == Resolve(v.ty, cls)
      && CallFits(P, sigs, cls, MethodSig(P, sigs, Resolve(v.ty, cls), e.m), v.ty, Analyze(P, sigs, cls, O, e).ty, AnalyzeAll(P, sigs, cls, O, e.args))
  {
    hide Hierarchy, MethodSig, AnalyzeAll, Sub;
  }

  lemma StaticParts(P: Program, sigs: Sigs, cls: ClassName, O: map<Name, Type>, e: Expr)
    requires Hierarchy(P) && cls in P.classes && e.StaticDispatch? && Clean(Analyze(P, sigs, cls, O, e))
    ensures var v := Analyze(P, sigs, cls, O, e.e);
      && Clean(v) && e.c in P.classes && Sub(P, cls, v.ty, Cls(e.c))
      && CallFits(P, sigs, cls, MethodSig(P, sigs, e.c, e.m), v.ty, Analyze(P, sigs, cls, O, e).ty, AnalyzeAll(P, sigs, cls, O, e.args))
  {
    hide Hierarchy, MethodSig, AnalyzeAll, Sub;
  }

  /** The arguments have been checked and fit the signature; the call has type `ty`. */
  ghost predicate CallFits(P: Program, sigs: Sigs, cls: ClassName, found: FoundSig, t0: Type, ty: Type, vs: Verdicts)
    requires Hierarchy(P) && cls in P.classes
  {
    && found.Found? && !vs.reported && !vs.skipped && |vs.tys| == |found.sig.formals|
    && ty == (if found.sig.ret.SelfType? then t0 else found.sig.ret)
    && forall i :: 0 <= i < |vs.tys| ==> Sub(P, cls, vs.tys[i], Cls(found.sig.formals[i]))
  }

  lemma AllParts(P: Program, sigs: Sigs, cls: ClassName, O: map<Name, Type>, es: seq<Expr>)
    requires Hierarchy(P) && cls in P.classes && es != []
    requires !AnalyzeAll(P, sigs, cls, O, es).reported && !AnalyzeAll(P, sigs, cls, O, es).skipped
    ensures Clean(Analyze(P, sigs, cls, O, es[0])) && var vs := AnalyzeAll(P, sigs, cls, O, es[1..]);
      !vs.reported && !vs.skipped && AnalyzeAll(P, sigs, cls, O, es).tys == [Analyze(P, sigs, cls, O, es[0]).ty] + vs.tys
  {
    hide Hierarchy, Analyze;
  }

  lemma BlockParts(P: Program, sigs: Sigs, cls: ClassName, O: map<Name, Type>, e: Expr)
    requires Hierarchy(P) && cls in P.classes && e.Block? && Clean(Analyze(P, sigs, cls, O, e))
    ensures e.es != [] && var vs := AnalyzeAll(P, sigs, cls, O, e.es);
      !vs.reported && !vs.skipped && Analyze(P, sigs, cls, O, e).ty == vs.tys[|e.es| - 1]
  {
    hide Hierarchy, AnalyzeAll;
  }

  lemma CaseParts(P: Program, sigs: Sigs, cls: ClassName, O: map<Name, Type>, e: Expr)
    requires Hierarchy(P) && cls in P.classes && e.TypCase? && Clean(Analyze(P, sigs, cls, O, e))
    ensures Clean(Analyze(P, sigs, cls, O, e.e)) && Clean(AnalyzeCases(P, sigs, cls, O, e.cases)) && GoodBranches(P, CaseTypes(e.cases))
    ensures Analyze(P, sigs, cls, O, e).ty == AnalyzeCases(P, sigs, cls, O, e.cases).ty
  {
    hide Hierarchy, AnalyzeCases;
    forall i | 0 <= i < |e.cases| && Clean(AnalyzeCases(P, sigs, cls, O, e.cases)) ensures e.cases[i].c in P.classes {
      BranchParts(P, sigs, cls, O, e.cases, i);
    }
  }

  /** Without a type on one side there is none above both. */
  lemma LubKnown(P: Program, cls: ClassName)
    requires Hierarchy(P) && cls in P.classes
    ensures forall b {:trigger LubType(P, cls, NoType, b)} :: LubType(P, cls, NoType, b).NoType?
  {
  }

  lemma {:induction false} BranchParts(P: Program, sigs: Sigs, cls: ClassName, O: map<Name, Type>, cases: seq<Branch>, i: nat)
    requires Hierarchy(P) && cls in P.classes && i < |cases| && Clean(AnalyzeCases(P, sigs, cls, O, cases))
    ensures var br := cases[i];
      var v := Analyze(P, sigs, cls, O[br.x := Cls(br.c)], br.body);
      var ty := AnalyzeCases(P, sigs, cls, O, cases).ty;
      br.c in P.classes && br.x != SELF && Clean(v) && (v.ty == ty || Sub(P, cls, v.ty, ty))
    decreases |cases|
  {
    hide Hierarchy, Analyze, LubType, Sub;
    var br, n := cases[|cases| - 1], |cases| - 1;
    LubKnown(P, cls);
    var v := AnalyzeCases(P, sigs, cls, O, cases[..n]);
    var v1 := Analyze(P, sigs, cls, O[br.x := Cls(br.c)], br.body);
    if n > 0 {
      LubAbove(P, cls, v1.ty, v.ty);
      if i < n {
        BranchParts(P, sigs, cls, O, cases[..n], i);
        var br0 := cases[i];
        var t := Analyze(P, sigs, cls, O[br0.x := Cls(br0.c)], br0.body).ty;
        if t != v.ty {
          SubTrans(P, cls, t, v.ty, LubType(P, cls, v1.ty, v.ty));
        }
      }
    }
  }

  // ---------------------------------------------------------------------------------------------
  // The steps that need no induction.

  lemma ArithSound(P: Program, f: Frame, st: Store, op: ArithOp, a: Value, o: Outcome)
    requires Hierarchy(P) && BasicsAreLeaves(P) && BasicsOK(P) && a.VInt? && OutcomeOK(P, f, INT, st, o)
    ensures OutcomeOK(P, f, INT, st, ArithOutcome(op, a, o))
  {
    hide StoreOK, FrameOK, VarsOK, Hierarchy, BasicsOK, ArithValue;
    if o.Val? {
      IntValue(P, o.st, o.v);
      NumberTyped(P, o.st, f.dc);
    }
  }

  lemma NumberTyped(P: Program, st: Store, dc: ClassName)
    requires Hierarchy(P) && BasicsOK(P)
    ensures forall n {:trigger VInt(n)} :: TypeOK(P, st, dc, INT, VInt(n))
    ensures forall b {:trigger VBool(b)} :: TypeOK(P, st, dc, BOOL, VBool(b))
    ensures forall s {:trigger VStr(s)} :: TypeOK(P, st, dc, Cls(StringC), VStr(s))
    ensures TypeOK(P, st, dc, Cls(ObjectC), VVoid)
  {
  }

  lemma CompareSound(P: Program, f: Frame, st: Store, cmp: CmpOp, a: Value, o: Outcome)
    requires Hierarchy(P) && BasicsAreLeaves(P) && BasicsOK(P) && a.VInt? && OutcomeOK(P, f, INT, st, o)
    ensures OutcomeOK(P, f, BOOL, st, CompareOutcome(cmp, a, o))
  {
    hide StoreOK, FrameOK, VarsOK, Hierarchy, BasicsOK, CompareValue;
    if o.Val? {
      IntValue(P, o.st, o.v);
      NumberTyped(P, o.st, f.dc);
    }
  }

  lemma UnarySound(P: Program, f: Frame, st: Store, o: Outcome)
    requires Hierarchy(P) && BasicsAreLeaves(P) && BasicsOK(P)
    ensures OutcomeOK(P, f, INT, st, o) ==> OutcomeOK(P, f, INT, st, NegOutcome(o))
    ensures OutcomeOK(P, f, BOOL, st, o) ==> OutcomeOK(P, f, BOOL, st, CompOutcome(o))
  {
    hide StoreOK, FrameOK, VarsOK, Hierarchy, BasicsOK, ArithValue, NegValue;
    if o.Val? && StoreOK(P, o.st) {
      IntValue(P, o.st, o.v);
      NumberTyped(P, o.st, f.dc);
    }
  }

  lemma GoodParts(P: Program, sigs: Sigs, f: Frame, env: Env, st: Store)
    requires Hierarchy(P) && Checked(P, sigs) && Good(P, f, env, st)
    ensures BasicsAreLeaves(P) && BasicsOK(P) && StoreOK(P, st) && FrameOK(P, f, st) && AttrsOK(P, f.dc)
    ensures f.cls in P.classes && f.dc in P.classes && Inherits(P, f.dc, f.cls) && Grows(st, st)
  {
    hide Checked, Hierarchy, StoreOK, BasicsOK, AttrsOK, Inherits;
    LeavesKnown(P, sigs);
    ClassAttrs(P, sigs, f.dc);
  }

  /** A receiver of type `ty`: the method found through `ty` has the same signature in the receiver's class. */
  lemma ReceiverTyped(P: Program, sigs: Sigs, f: Frame, st: Store, ty: Type, m: Name, v0: Value)
    requires Hierarchy(P) && Checked(P, sigs) && StoreOK(P, st) && FrameOK(P, f, st) && Exists(P, ty) && TypeOK(P, st, f.dc, ty, v0) && v0 != VVoid
    requires MethodSig(P, sigs, Resolve(ty, f.cls), m).Found?
    ensures var sc, dc := Resolve(ty, f.cls), ClassOf(st, v0);
      && sc in P.classes && dc in P.classes && Inherits(P, dc, sc) && Inherits(P, dc, dc) && Nearest(P, sc, m) != NoClass
      && MethodSig(P, sigs, dc, m) == MethodSig(P, sigs, sc, m)
  {
    hide Checked, Hierarchy, StoreOK;
    var sc, dc := Resolve(ty, f.cls), ClassOf(st, v0);
    if ty.SelfType? {
      InheritsOn(P, dc, f.dc, f.cls);
    }
    SigKept(P, sigs, dc, sc, m);
  }

  /** The result of a call is an instance of the type of the call. */
  lemma CallTyped(P: Program, f: Frame, st: Store, ty: Type, ret: Type, v0: Value, o: Outcome)
    requires Hierarchy(P) && BasicsAreLeaves(P) && v0 != VVoid && TypeOK(P, st, f.dc, ty, v0) && !ret.NoType?
    requires ResultOK(P, Resolve(ret, ClassOf(st, v0)), st, o)
    ensures ResultOK(P, Resolve(if ret.SelfType? then ty else ret, f.dc), st, o)
  {
    hide StoreOK, Hierarchy, BasicsAreLeaves;
    if o.Val? && ret.SelfType? {
      Widen(P, o.st, ClassOf(st, v0), Resolve(ty, f.dc), o.v);
    }
  }

  lemma ArgsTyped(P: Program, f: Frame, st: Store, st1: Store, formals: seq<ClassName>, tys: seq<Type>, vs: seq<Value>)
    requires Hierarchy(P) && BasicsAreLeaves(P) && f.cls in P.classes && f.dc in P.classes && Inherits(P, f.dc, f.cls) && Grows(st, st1)
    requires |formals| == |tys| == |vs| && forall i :: 0 <= i < |vs| ==> TypeOK(P, st, f.dc, tys[i], vs[i])
    requires forall i :: 0 <= i < |tys| ==> Sub(P, f.cls, tys[i], Cls(formals[i]))
    ensures forall i :: 0 <= i < |vs| ==> ValueOK(P, st1, formals[i], vs[i])
  {
    hide ValueOK, Hierarchy, BasicsAreLeaves, Inherits, Sub;
    forall i | 0 <= i < |vs| ensures ValueOK(P, st1, formals[i], vs[i]) {
      WidenType(P, st, f.dc, f.cls, tys[i], Cls(formals[i]), vs[i]);
      ValueKept(P, st, st1, formals[i], vs[i]);
    }
  }

  // ---------------------------------------------------------------------------------------------
  // Type soundness, by induction on the evaluation.

  /** A checked expression does not go wrong, and its value has the type that the checker gave it. */
  lemma {:induction false} Sound(P: Program, sigs: Sigs, fuel: nat, f: Frame, env: Env, st: Store, e: Expr)
    requires Hierarchy(P) && Checked(P, sigs) && Good(P, f, env, st) && f.cls in P.classes && Clean(Analyze(P, sigs, f.cls, f.O, e))
    ensures OutcomeOK(P, f, Analyze(P, sigs, f.cls, f.O, e).ty, st, Eval(P, fuel, f.cls, f.self, env, st, e))
    decreases fuel, 0, e, 1
  {
    hide *;
    GoodParts(P, sigs, f, env, st);
    match e
    case IntConst(_) => SoundConst(P, sigs, fuel, f, env, st, e);
    case BoolConst(_) => SoundConst(P, sigs, fuel, f, env, st, e);
    case StrConst(_) => SoundConst(P, sigs, fuel, f, env, st, e);
    case NoExpr(_) => SoundConst(P, sigs, fuel, f, env, st, e);
    case Object(x) => SoundObject(P, sigs, fuel, f, env, st, e);
    case Assign(_, _) => SoundAssign(P, sigs, fuel, f, env, st, e);
    case Block(es) =>
      BlockParts(P, sigs, f.cls, f.O, e);
      EvalBlock(P, fuel, f.cls, f.self, env, st, e);
      SoundSeq(P, sigs, fuel, f, env, st, es);
    case Cond(_, _, _) => SoundCond(P, sigs, fuel, f, env, st, e);
    case Loop(_, _) => SoundLoop(P, sigs, fuel, f, env, st, e);
    case Let(_, _, _, _) => SoundLet(P, sigs, fuel, f, env, st, e);
    case Arith(_, _, _) => SoundInts(P, sigs, fuel, f, env, st, e);
    case Compare(_, _, _) => SoundInts(P, sigs, fuel, f, env, st, e);
    case Neg(_) => SoundUnary(P, sigs, fuel, f, env, st, e);
    case Comp(_) => SoundUnary(P, sigs, fuel, f, env, st, e);
    case Dispatch(_, _, _, _) => SoundDispatch(P, sigs, fuel, f, env, st, e);
    case StaticDispatch(_, _, _, _) => SoundStatic(P, sigs, fuel, f, env, st, e);
    case TypCase(_, _) => SoundCase(P, sigs, fuel, f, env, st, e);
    case New(_) => SoundNew(P, sigs, fuel, f, env, st, e);
    case NewSelf => SoundNew(P, sigs, fuel, f, env, st, e);
  }

  lemma SoundConst(P: Program, sigs: Sigs, fuel: nat, f: Frame, env: Env, st: Store, e: Expr)
    requires Hierarchy(P) && BasicsOK(P) && Good(P, f, env, st) && f.cls in P.classes && Clean(Analyze(P, sigs, f.cls, f.O, e))
    requires e.IntConst? || e.BoolConst? || e.StrConst? || e.NoExpr?
    ensures OutcomeOK(P, f, Analyze(P, sigs, f.cls, f.O, e).ty, st, Eval(P, fuel, f.cls, f.self, env, st, e))
  {
    hide Good, Hierarchy, BasicsOK, TypeOK;
    NumberTyped(P, st, f.dc);
  }

  lemma SoundObject(P: Program, sigs: Sigs, fuel: nat, f: Frame, env: Env, st: Store, e: Expr)
    requires Hierarchy(P) && Good(P, f, env, st) && f.cls in P.classes && e.Object? && Clean(Analyze(P, sigs, f.cls, f.O, e))
    ensures OutcomeOK(P, f, Analyze(P, sigs, f.cls, f.O, e).ty, st, Eval(P, fuel, f.cls, f.self, env, st, e))
  {
    hide Good, Hierarchy, OutcomeOK, VarType, ReadVar;
    ReadOK(P, f, env, st, e.x);
  }

  lemma {:induction false} SoundAssign(P: Program, sigs: Sigs, fuel: nat, f: Frame, env: Env, st: Store, e: Expr)
    requires Hierarchy(P) && Checked(P, sigs) && Good(P, f, env, st) && f.cls in P.classes && e.Assign? && Clean(Analyze(P, sigs, f.cls, f.O, e))
    ensures OutcomeOK(P, f, Analyze(P, sigs, f.cls, f.O, e).ty, st, Eval(P, fuel, f.cls, f.self, env, st, e))
    decreases fuel, 0, e, 0
  {
    hide Good, Hierarchy, Checked, Clean, Analyze, Eval, VarType, WriteVar, TypeOK, Sub, BasicsAreLeaves, AttrsOK, StoreOK, Inherits, BasicsOK, FrameOK, Grows;
    AssignParts(P, sigs, f.cls, f.O, e);
    EvalAssign(P, fuel, f.cls, f.self, env, st, e);
    Sound(P, sigs, fuel, f, env, st, e.e);
    var o := Eval(P, fuel, f.cls, f.self, env, st, e.e);
    var ty := Analyze(P, sigs, f.cls, f.O, e.e).ty;
    if o.Val? {
      GoodParts(P, sigs, f, o.env, o.st);
      WriteOK(P, f, o.env, o.st, e.x, ty, o.v);
      Later(P, f, ty, st, o.st, WriteVar(P, f.cls, f.self, o.env, o.st, e.x, o.v));
    }
  }

  lemma {:induction false} SoundSeq(P: Program, sigs: Sigs, fuel: nat, f: Frame, env: Env, st: Store, es: seq<Expr>)
    requires Hierarchy(P) && Checked(P, sigs) && Good(P, f, env, st) && f.cls in P.classes && es != []
    requires !AnalyzeAll(P, sigs, f.cls, f.O, es).reported && !AnalyzeAll(P, sigs, f.cls, f.O, es).skipped
    ensures OutcomeOK(P, f, AnalyzeAll(P, sigs, f.cls, f.O, es).tys[|es| - 1], st, EvalSeq(P, fuel, f.cls, f.self, env, st, es))
    decreases fuel, 0, es, 0
  {
    hide Good, Hierarchy, Checked, Clean, Analyze, AnalyzeAll, Eval, EvalSeq, TypeOK, Grows;
    AllParts(P, sigs, f.cls, f.O, es);
    EvalSeqMore(P, fuel, f.cls, f.self, env, st, es);
    Sound(P, sigs, fuel, f, env, st, es[0]);
    var o := Eval(P, fuel, f.cls, f.self, env, st, es[0]);
    if o.Val? && |es| > 1 {
      SoundSeq(P, sigs, fuel, f, o.env, o.st, es[1..]);
      Later(P, f, AnalyzeAll(P, sigs, f.cls, f.O, es[1..]).tys[|es| - 2], st, o.st, EvalSeq(P, fuel, f.cls, f.self, o.env, o.st, es[1..]));
    }
  }

  /** The evaluated arguments have the types that the checker gave them. */
  ghost predicate ArgsOK(P: Program, f: Frame, tys: seq<Type>, st: Store, a: ArgsOutcome)
    requires Hierarchy(P)
  {
    match a
    case Stopped(o) => !o.Wrong? && !o.Val?
    case Args(vs, env, st1) =>
      && Good(P, f, env, st1) && Grows(st, st1) && |vs| == |tys|
      && forall i :: 0 <= i < |vs| ==> TypeOK(P, st1, f.dc, tys[i], vs[i])
  }

  lemma {:induction false} SoundArgs(P: Program, sigs: Sigs, fuel: nat, f: Frame, env: Env, st: Store, es: seq<Expr>)
    requires Hierarchy(P) && Checked(P, sigs) && Good(P, f, env, st) && f.cls in P.classes
    requires !AnalyzeAll(P, sigs, f.cls, f.O, es).reported && !AnalyzeAll(P, sigs, f.cls, f.O, es).skipped
    ensures ArgsOK(P, f, AnalyzeAll(P, sigs, f.cls, f.O, es).tys, st, EvalArgs(P, fuel, f.cls, f.self, env, st, es))
    decreases fuel, 0, es, 0
  {
    hide Good, Hierarchy, Checked, Clean, Analyze, Eval, TypeOK;
    if es != [] {
      AllParts(P, sigs, f.cls, f.O, es);
      EvalArgsMore(P, fuel, f.cls, f.self, env, st, es);
      Sound(P, sigs, fuel, f, env, st, es[0]);
      var o := Eval(P, fuel, f.cls, f.self, env, st, es[0]);
      if o.Val? {
        SoundArgs(P, sigs, fuel, f, o.env, o.st, es[1..]);
        ArgsConsed(P, f, Analyze(P, sigs, f.cls, f.O, es[0]).ty, AnalyzeAll(P, sigs, f.cls, f.O, es[1..]).tys, st, o,
          EvalArgs(P, fuel, f.cls, f.self, o.env, o.st, es[1..]));
      }
    }
  }

  lemma ArgsConsed(P: Program, f: Frame, ty: Type, tys: seq<Type>, st: Store, o: Outcome, a: ArgsOutcome)
    requires Hierarchy(P) && o.Val? && OutcomeOK(P, f, ty, st, o) && ArgsOK(P, f, tys, o.st, a)
    ensures ArgsOK(P, f, [ty] + tys, st, ConsArgs(o.v, a))
  {
    hide Good, Hierarchy, TypeOK;
    if a.Args? {
      TypeKept(P, o.st, a.st, f.dc, ty, o.v);
    }
  }

  lemma {:induction false} SoundCond(P: Program, sigs: Sigs, fuel: nat, f: Frame, env: Env, st: Store, e: Expr)
    requires Hierarchy(P) && Checked(P, sigs) && Good(P, f, env, st) && f.cls in P.classes && e.Cond? && Clean(Analyze(P, sigs, f.cls, f.O, e))
    ensures OutcomeOK(P, f, Analyze(P, sigs, f.cls, f.O, e).ty, st, Eval(P, fuel, f.cls, f.self, env, st, e))
    decreases fuel, 0, e, 0
  {
    hide Good, Hierarchy, Checked, Clean, Analyze, Eval, Sub, BasicsAreLeaves, BasicsOK, AttrsOK, StoreOK, FrameOK, Inherits, Grows, ValueOK;
    CondParts(P, sigs, f.cls, f.O, e);
    EvalCond(P, fuel, f.cls, f.self, env, st, e);
    Sound(P, sigs, fuel, f, env, st, e.pred);
    var o := Eval(P, fuel, f.cls, f.self, env, st, e.pred);
    if o.Val? {
      GoodParts(P, sigs, f, o.env, o.st);
      IntValue(P, o.st, o.v);
      var e1 := if o.v.b then e.thn else e.els;
      var ty := Analyze(P, sigs, f.cls, f.O, e).ty;
      var o1 := Eval(P, fuel, f.cls, f.self, o.env, o.st, e1);
      Sound(P, sigs, fuel, f, o.env, o.st, e1);
      OutcomeWidened(P, f, Analyze(P, sigs, f.cls, f.O, e1).ty, ty, o.st, o1);
      Later(P, f, ty, st, o.st, o1);
    }
  }

  lemma {:induction false} SoundLoop(P: Program, sigs: Sigs, fuel: nat, f: Frame, env: Env, st: Store, e: Expr)
    requires Hierarchy(P) && Checked(P, sigs) && Good(P, f, env, st) && f.cls in P.classes && e.Loop? && Clean(Analyze(P, sigs, f.cls, f.O, e))
    ensures OutcomeOK(P, f, Analyze(P, sigs, f.cls, f.O, e).ty, st, Eval(P, fuel, f.cls, f.self, env, st, e))
    decreases fuel, 0, e, 0
  {
    hide Good, Hierarchy, Checked, Clean, Analyze, Eval, BasicsAreLeaves, BasicsOK, AttrsOK, StoreOK, FrameOK, Inherits, Grows, ValueOK;
    LoopParts(P, sigs, f.cls, f.O, e);
    EvalLoop(P, fuel, f.cls, f.self, env, st, e);
    Sound(P, sigs, fuel, f, env, st, e.pred);
    var o := Eval(P, fuel, f.cls, f.self, env, st, e.pred);
    if o.Val? {
      GoodParts(P, sigs, f, o.env, o.st);
      IntValue(P, o.st, o.v);
      NumberTyped(P, o.st, f.dc);
      if o.v.b {
        Sound(P, sigs, fuel, f, o.env, o.st, e.body);
        var o1 := Eval(P, fuel, f.cls, f.self, o.env, o.st, e.body);
        if o1.Val? && fuel > 0 {
          var o2 := Eval(P, fuel - 1, f.cls, f.self, o1.env, o1.st, e);
          Sound(P, sigs, fuel - 1, f, o1.env, o1.st, e);
          Later(P, f, Cls(ObjectC), o.st, o1.st, o2);
          Later(P, f, Cls(ObjectC), st, o.st, o2);
        }
      }
    }
  }

  /** The initialiser of a variable or attribute. */
  lemma {:induction false} SoundInitialiser(P: Program, sigs: Sigs, fuel: nat, f: Frame, env: Env, st: Store, ty: StaticType, init: Expr)
    requires Hierarchy(P) && Checked(P, sigs) && Good(P, f, env, st) && f.cls in P.classes && Exists(P, TypeOf(ty))
    requires Clean(AnalyzeInit(P, sigs, f.cls, f.O, ty, init))
    ensures OutcomeOK(P, f, TypeOf(ty), st, Eval(P, fuel, f.cls, f.self, env, st, init))
    decreases fuel, 0, init, 2
  {
    hide Good, Hierarchy, Checked, Clean, Analyze, AnalyzeInit, Eval, BasicsAreLeaves, BasicsOK, AttrsOK, StoreOK, Inherits, TypeOK, Sub, Default;
    GoodParts(P, sigs, f, env, st);
    InitParts(P, sigs, f.cls, f.O, ty, init);
    if init.NoExpr? {
      EvalNoExpr(P, fuel, f.cls, f.self, env, st, init);
      DefaultTyped(P, st, f.dc, ty);
    } else {
      Sound(P, sigs, fuel, f, env, st, init);
      OutcomeWidened(P, f, Analyze(P, sigs, f.cls, f.O, init).ty, TypeOf(ty), st, Eval(P, fuel, f.cls, f.self, env, st, init));
    }
  }

  lemma {:induction false} SoundLet(P: Program, sigs: Sigs, fuel: nat, f: Frame, env: Env, st: Store, e: Expr)
    requires Hierarchy(P) && Checked(P, sigs) && Good(P, f, env, st) && f.cls in P.classes && e.Let? && Clean(Analyze(P, sigs, f.cls, f.O, e))
    ensures OutcomeOK(P, f, Analyze(P, sigs, f.cls, f.O, e).ty, st, Eval(P, fuel, f.cls, f.self, env, st, e))
    decreases fuel, 0, e, 0
  {
    hide Good, Hierarchy, Checked, Clean, Analyze, AnalyzeInit, Eval, TypeOK, Grows, LeaveScope, Exists;
    LetParts(P, sigs, f.cls, f.O, e);
    EvalLet(P, fuel, f.cls, f.self, env, st, e);
    SoundInitialiser(P, sigs, fuel, f, env, st, e.ty, e.init);
    var o := Eval(P, fuel, f.cls, f.self, env, st, e.init);
    if o.Val? {
      SoundBound(P, sigs, fuel, f, o.env, o.st, e.x, TypeOf(e.ty), o.v, e.body);
      var t := Analyze(P, sigs, f.cls, f.O[e.x := TypeOf(e.ty)], e.body).ty;
      Later(P, f, t, st, o.st, LeaveScope(o.env, e.x, Eval(P, fuel, f.cls, f.self, o.env[e.x := o.v], o.st, e.body)));
    }
  }

  /** `body` with `x` bound to `v`. */
  lemma {:induction false} SoundBound(P: Program, sigs: Sigs, fuel: nat, f: Frame, env: Env, st: Store, x: Name, ty: Type, v: Value, body: Expr)
    requires Hierarchy(P) && Checked(P, sigs) && Good(P, f, env, st) && f.cls in P.classes && x != SELF && Exists(P, ty) && TypeOK(P, st, f.dc, ty, v)
    requires Clean(Analyze(P, sigs, f.cls, f.O[x := ty], body))
    ensures OutcomeOK(P, f, Analyze(P, sigs, f.cls, f.O[x := ty], body).ty, st,
      LeaveScope(env, x, Eval(P, fuel, f.cls, f.self, env[x := v], st, body)))
    decreases fuel, 0, body, 2
  {
    hide Good, Hierarchy, Checked, Clean, Analyze, Eval, TypeOK, LeaveScope, Exists, OutcomeOK;
    Bound(P, f, env, st, x, ty, v);
    Sound(P, sigs, fuel, Inner(f, x, ty), env[x := v], st, body);
    var o := Eval(P, fuel, f.cls, f.self, env[x := v], st, body);
    ScopeLeft(P, f, env, st, x, ty, Analyze(P, sigs, f.cls, f.O[x := ty], body).ty, o);
  }

  lemma {:induction false} SoundInts(P: Program, sigs: Sigs, fuel: nat, f: Frame, env: Env, st: Store, e: Expr)
    requires Hierarchy(P) && Checked(P, sigs) && Good(P, f, env, st) && f.cls in P.classes && (e.Arith? || e.Compare?) && Clean(Analyze(P, sigs, f.cls, f.O, e))
    ensures OutcomeOK(P, f, Analyze(P, sigs, f.cls, f.O, e).ty, st, Eval(P, fuel, f.cls, f.self, env, st, e))
    decreases fuel, 0, e, 0
  {
    hide Good, Hierarchy, Checked, Clean, Analyze, Eval, BasicsAreLeaves, BasicsOK, AttrsOK, StoreOK, FrameOK, Inherits, Grows, ValueOK, ArithOutcome, CompareOutcome;
    IntsParts(P, sigs, f.cls, f.O, e);
    Sound(P, sigs, fuel, f, env, st, e.e1);
    var o := Eval(P, fuel, f.cls, f.self, env, st, e.e1);
    if e.Arith? {
      EvalArith(P, fuel, f.cls, f.self, env, st, e);
    } else {
      EvalCompare(P, fuel, f.cls, f.self, env, st, e);
    }
    if o.Val? {
      GoodParts(P, sigs, f, o.env, o.st);
      IntValue(P, o.st, o.v);
      Sound(P, sigs, fuel, f, o.env, o.st, e.e2);
      var o1 := Eval(P, fuel, f.cls, f.self, o.env, o.st, e.e2);
      if e.Arith? {
        ArithSound(P, f, o.st, e.op, o.v, o1);
        Later(P, f, INT, st, o.st, ArithOutcome(e.op, o.v, o1));
      } else {
        CompareSound(P, f, o.st, e.cmp, o.v, o1);
        Later(P, f, BOOL, st, o.st, CompareOutcome(e.cmp, o.v, o1));
      }
    }
  }

  lemma {:induction false} SoundUnary(P: Program, sigs: Sigs, fuel: nat, f: Frame, env: Env, st: Store, e: Expr)
    requires Hierarchy(P) && Checked(P, sigs) && Good(P, f, env, st) && f.cls in P.classes && (e.Neg? || e.Comp?) && Clean(Analyze(P, sigs, f.cls, f.O, e))
    ensures OutcomeOK(P, f, Analyze(P, sigs, f.cls, f.O, e).ty, st, Eval(P, fuel, f.cls, f.self, env, st, e))
    decreases fuel, 0, e, 0
  {
    hide Good, Hierarchy, Checked, Clean, Analyze, Eval, BasicsAreLeaves, BasicsOK, AttrsOK, StoreOK, FrameOK, Inherits, Grows, OutcomeOK, NegOutcome, CompOutcome;
    GoodParts(P, sigs, f, env, st);
    UnaryParts(P, sigs, f.cls, f.O, e);
    Sound(P, sigs, fuel, f, env, st, e.e);
    UnarySound(P, f, st, Eval(P, fuel, f.cls, f.self, env, st, e.e));
    if e.Neg? {
      EvalNeg(P, fuel, f.cls, f.self, env, st, e);
    } else {
      EvalComp(P, fuel, f.cls, f.self, env, st, e);
    }
  }

  lemma {:induction false} SoundCase(P: Program, sigs: Sigs, fuel: nat, f: Frame, env: Env, st: Store, e: Expr)
    requires Hierarchy(P) && Checked(P, sigs) && Good(P, f, env, st) && f.cls in P.classes && e.TypCase? && Clean(Analyze(P, sigs, f.cls, f.O, e))
    ensures OutcomeOK(P, f, Analyze(P, sigs, f.cls, f.O, e).ty, st, Eval(P, fuel, f.cls, f.self, env, st, e))
    decreases fuel, 0, e, 0
  {
    hide Good, Hierarchy, Checked, Clean, Analyze, AnalyzeCases, Eval, GoodBranches, Grows, TypeOK, BranchOutcome, Closest;
    CaseParts(P, sigs, f.cls, f.O, e);
    EvalTypCase(P, fuel, f.cls, f.self, env, st, e);
    Sound(P, sigs, fuel, f, env, st, e.e);
    var o := Eval(P, fuel, f.cls, f.self, env, st, e.e);
    if o.Val? && o.v != VVoid {
      ClassKnown(P, o.st, f.dc, Analyze(P, sigs, f.cls, f.O, e.e).ty, o.v);
      var i := Closest(P, ClassOf(o.st, o.v), CaseTypes(e.cases));
      if i != -1 {
        SoundBranch(P, sigs, fuel, f, o.env, o.st, o.v, e.cases, i);
        Later(P, f, Analyze(P, sigs, f.cls, f.O, e).ty, st, o.st, BranchOutcome(P, fuel, f.cls, f.self, o.env, o.st, o.v, e.cases[i]));
      }
    }
  }

  lemma ClassKnown(P: Program, st: Store, dc: ClassName, ty: Type, v: Value)
    requires Hierarchy(P) && TypeOK(P, st, dc, ty, v) && v != VVoid
    ensures ClassOf(st, v) in P.classes
  {
  }

  lemma {:induction false} SoundBranch(P: Program, sigs: Sigs, fuel: nat, f: Frame, env: Env, st: Store, v0: Value, cases: seq<Branch>, i: nat)
    requires Hierarchy(P) && Checked(P, sigs) && Good(P, f, env, st) && f.cls in P.classes && Clean(AnalyzeCases(P, sigs, f.cls, f.O, cases))
    requires i < |cases| && v0 != VVoid && ClassOf(st, v0) in P.classes && cases[i].c in P.classes && Inherits(P, ClassOf(st, v0), cases[i].c)
    ensures OutcomeOK(P, f, AnalyzeCases(P, sigs, f.cls, f.O, cases).ty, st, BranchOutcome(P, fuel, f.cls, f.self, env, st, v0, cases[i]))
    decreases fuel, 0, cases, 0
  {
    hide Good, Hierarchy, Checked, Clean, Analyze, AnalyzeCases, Eval, Grows, OutcomeOK, LeaveScope, Inherits, Sub;
    GoodParts(P, sigs, f, env, st);
    var br := cases[i];
    BranchParts(P, sigs, f.cls, f.O, cases, i);
    SoundBound(P, sigs, fuel, f, env, st, br.x, Cls(br.c), v0, br.body);
    var t := Analyze(P, sigs, f.cls, f.O[br.x := Cls(br.c)], br.body).ty;
    var ty := AnalyzeCases(P, sigs, f.cls, f.O, cases).ty;
    if t != ty {
      OutcomeWidened(P, f, t, ty, st, BranchOutcome(P, fuel, f.cls, f.self, env, st, v0, br));
    }
  }

  lemma {:induction false} SoundDispatch(P: Program, sigs: Sigs, fuel: nat, f: Frame, env: Env, st: Store, e: Expr)
    requires Hierarchy(P) && Checked(P, sigs) && Good(P, f, env, st) && f.cls in P.classes && e.Dispatch? && Clean(Analyze(P, sigs, f.cls, f.O, e))
    ensures OutcomeOK(P, f, Analyze(P, sigs, f.cls, f.O, e).ty, st, Eval(P, fuel, f.cls, f.self, env, st, e))
    decreases fuel, 0, e, 0
  {
    hide Good, Hierarchy, Checked, Clean, Analyze, AnalyzeAll, Eval, EvalArgs, Grows, TypeOK, CallFits, MethodSig, CallDynamic;
    DispatchParts(P, sigs, f.cls, f.O, e);
    EvalDispatch(P, fuel, f.cls, f.self, env, st, e);
    FitsArgs(P, sigs, f, e.args, MethodSig(P, sigs, Resolve(Analyze(P, sigs, f.cls, f.O, e.e).ty, f.cls), e.m), Analyze(P, sigs, f.cls, f.O, e.e).ty, Analyze(P, sigs, f.cls, f.O, e).ty);
    SoundArgs(P, sigs, fuel, f, env, st, e.args);
    var a := EvalArgs(P, fuel, f.cls, f.self, env, st, e.args);
    if a.Args? {
      Sound(P, sigs, fuel, f, a.env, a.st, e.e);
      var o := Eval(P, fuel, f.cls, f.self, a.env, a.st, e.e);
      var ty, tys := Analyze(P, sigs, f.cls, f.O, e).ty, AnalyzeAll(P, sigs, f.cls, f.O, e.args);
      if o.Val? && o.v != VVoid && fuel > 0 {
        SoundInvoke(P, sigs, fuel - 1, f, Analyze(P, sigs, f.cls, f.O, e.e).ty, ty, tys, a.st, a.vs, o, e.m);
        var o1 := Return(o.env, CallDynamic(P, fuel - 1, StaticClass(e.sty, f.cls), ClassOf(o.st, o.v), o.v, e.m, a.vs, o.st));
        Later(P, f, ty, a.st, o.st, o1);
        Later(P, f, ty, st, a.st, o1);
      }
    }
  }

  lemma FitsArgs(P: Program, sigs: Sigs, f: Frame, es: seq<Expr>, found: FoundSig, t0: Type, ty: Type)
    requires Hierarchy(P) && f.cls in P.classes && CallFits(P, sigs, f.cls, found, t0, ty, AnalyzeAll(P, sigs, f.cls, f.O, es))
    ensures !AnalyzeAll(P, sigs, f.cls, f.O, es).reported && !AnalyzeAll(P, sigs, f.cls, f.O, es).skipped
  {
  }

  /** Dynamic dispatch on a receiver of type `t0`. */
  lemma {:induction false} SoundInvoke(P: Program, sigs: Sigs, fuel: nat, f: Frame, t0: Type, ty: Type, tys: Verdicts, st: Store, vs: seq<Value>, o: Outcome, m: Name)
    requires Hierarchy(P) && Checked(P, sigs) && f.cls in P.classes && o.Val? && o.v != VVoid && OutcomeOK(P, f, t0, st, o)
    requires Exists(P, t0) && CallFits(P, sigs, f.cls, MethodSig(P, sigs, Resolve(t0, f.cls), m), t0, ty, tys)
    requires |vs| == |tys.tys| && forall i :: 0 <= i < |vs| ==> TypeOK(P, st, f.dc, tys.tys[i], vs[i])
    ensures OutcomeOK(P, f, ty, o.st, Return(o.env, CallDynamic(P, fuel, Resolve(t0, f.cls), ClassOf(o.st, o.v), o.v, m, vs, o.st)))
    decreases fuel, 5
  {
    hide StoreOK, VarsOK, FrameOK, Hierarchy, Checked, MethodSig, TypeOK, Grows, Inherits, Sub, BasicsAreLeaves, BasicsOK, AttrsOK, Call, Return;
    GoodParts(P, sigs, f, o.env, o.st);
    var sc, dc := Resolve(t0, f.cls), ClassOf(o.st, o.v);
    var sig := MethodSig(P, sigs, sc, m).sig;
    ReceiverTyped(P, sigs, f, o.st, t0, m, o.v);
    ArgsTyped(P, f, st, o.st, sig.formals, tys.tys, vs);
    SoundCall(P, sigs, fuel, dc, o.v, m, vs, o.st);
    var r := Call(P, fuel, dc, o.v, m, vs, o.st);
    CallTyped(P, f, o.st, t0, sig.ret, o.v, r);
    Returned(P, f, ty, o.env, o.st, r);
  }

  lemma {:induction false} SoundStatic(P: Program, sigs: Sigs, fuel: nat, f: Frame, env: Env, st: Store, e: Expr)
    requires Hierarchy(P) && Checked(P, sigs) && Good(P, f, env, st) && f.cls in P.classes && e.StaticDispatch? && Clean(Analyze(P, sigs, f.cls, f.O, e))
    ensures OutcomeOK(P, f, Analyze(P, sigs, f.cls, f.O, e).ty, st, Eval(P, fuel, f.cls, f.self, env, st, e))
    decreases fuel, 0, e, 0
  {
    hide Good, Hierarchy, Checked, Clean, Analyze, AnalyzeAll, Eval, EvalArgs, Grows, TypeOK, CallFits, MethodSig, Sub, Call, Inherits;
    StaticParts(P, sigs, f.cls, f.O, e);
    EvalStaticDispatch(P, fuel, f.cls, f.self, env, st, e);
    FitsArgs(P, sigs, f, e.args, MethodSig(P, sigs, e.c, e.m), Analyze(P, sigs, f.cls, f.O, e.e).ty, Analyze(P, sigs, f.cls, f.O, e).ty);
    SoundArgs(P, sigs, fuel, f, env, st, e.args);
    var a := EvalArgs(P, fuel, f.cls, f.self, env, st, e.args);
    if a.Args? {
      Sound(P, sigs, fuel, f, a.env, a.st, e.e);
      var o := Eval(P, fuel, f.cls, f.self, a.env, a.st, e.e);
      var ty, tys := Analyze(P, sigs, f.cls, f.O, e).ty, AnalyzeAll(P, sigs, f.cls, f.O, e.args);
      if o.Val? && o.v != VVoid && fuel > 0 {
        SoundInvokeAt(P, sigs, fuel - 1, f, e.c, Analyze(P, sigs, f.cls, f.O, e.e).ty, ty, tys, a.st, a.vs, o, e.m);
        var o1 := Return(o.env, Call(P, fuel - 1, e.c, o.v, e.m, a.vs, o.st));
        Later(P, f, ty, a.st, o.st, o1);
        Later(P, f, ty, st, a.st, o1);
      }
    }
  }

  /** Static dispatch to class `c` on a receiver of type `t0`. */
  lemma {:induction false} SoundInvokeAt(P: Program, sigs: Sigs, fuel: nat, f: Frame, c: ClassName, t0: Type, ty: Type, tys: Verdicts, st: Store, vs: seq<Value>, o: Outcome, m: Name)
    requires Hierarchy(P) && Checked(P, sigs) && f.cls in P.classes && o.Val? && o.v != VVoid && OutcomeOK(P, f, t0, st, o)
    requires c in P.classes && Sub(P, f.cls, t0, Cls(c)) && CallFits(P, sigs, f.cls, MethodSig(P, sigs, c, m), t0, ty, tys)
    requires |vs| == |tys.tys| && forall i :: 0 <= i < |vs| ==> TypeOK(P, st, f.dc, tys.tys[i], vs[i])
    ensures HasClass(P, ClassOf(o.st, o.v)) && Inherits(P, ClassOf(o.st, o.v), c)
    ensures OutcomeOK(P, f, ty, o.st, Return(o.env, Call(P, fuel, c, o.v, m, vs, o.st)))
    decreases fuel, 5
  {
    hide StoreOK, VarsOK, FrameOK, Hierarchy, Checked, MethodSig, Grows, Inherits, Sub, BasicsAreLeaves, BasicsOK, AttrsOK, Call, Return;
    GoodParts(P, sigs, f, o.env, o.st);
    var sig := MethodSig(P, sigs, c, m).sig;
    WidenType(P, o.st, f.dc, f.cls, t0, Cls(c), o.v);
    ArgsTyped(P, f, st, o.st, sig.formals, tys.tys, vs);
    SoundCall(P, sigs, fuel, c, o.v, m, vs, o.st);
    var r := Call(P, fuel, c, o.v, m, vs, o.st);
    CallTyped(P, f, o.st, t0, sig.ret, o.v, r);
    Returned(P, f, ty, o.env, o.st, r);
  }

  /** A call with arguments that fit the signature; the receiver is an instance of `c`. */
  lemma {:induction false} SoundCall(P: Program, sigs: Sigs, fuel: nat, c: ClassName, v0: Value, m: Name, vs: seq<Value>, st: Store)
    requires Hierarchy(P) && Checked(P, sigs) && StoreOK(P, st) && c in P.classes && MethodSig(P, sigs, c, m).Found?
    requires v0 != VVoid && ClassOf(st, v0) in P.classes && Inherits(P, ClassOf(st, v0), c)
    requires var sig := MethodSig(P, sigs, c, m).sig;
      |vs| == |sig.formals| && forall i :: 0 <= i < |vs| ==> ValueOK(P, st, sig.formals[i], vs[i])
    ensures var sig := MethodSig(P, sigs, c, m).sig;
      !sig.ret.NoType? && ResultOK(P, Resolve(sig.ret, ClassOf(st, v0)), st, Call(P, fuel, c, v0, m, vs, st))
    decreases fuel, 3
  {
    hide StoreOK, ValueOK, Hierarchy, Checked, MethodSig, Inherits, Sub, BasicsAreLeaves, BasicsOK, Call, Clean, Analyze, Nearest, Decl, RunNative, Bind, FormalTypes, FormalsOK, ResultOK;
    LeavesKnown(P, sigs);
    MethodTyped(P, sigs, c, m);
    CallCases(P, fuel, c, v0, m, vs, st);
    var sig := MethodSig(P, sigs, c, m).sig;
    var d := Nearest(P, c, m);
    var mt := Decl(P.classes[d], m);
    if mt.body.Native? {
      NativeSound(P, mt.body.op, v0, vs, st);
    } else {
      InheritsOn(P, ClassOf(st, v0), c, d);
      SoundBody(P, sigs, fuel, d, v0, sig, mt, vs, st);
    }
  }

  lemma {:induction false} SoundBody(P: Program, sigs: Sigs, fuel: nat, d: ClassName, v0: Value, sig: Sig, mt: Method, vs: seq<Value>, st: Store)
    requires Hierarchy(P) && Checked(P, sigs) && BasicsAreLeaves(P) && BasicsOK(P) && StoreOK(P, st) && d in P.classes && d.User? && mt.body.Code? && FormalsOK(mt.formals)
    requires v0 != VVoid && ClassOf(st, v0) in P.classes && Inherits(P, ClassOf(st, v0), d)
    requires |mt.formals| == |sig.formals| == |vs| && forall i :: 0 <= i < |vs| ==> ValueOK(P, st, sig.formals[i], vs[i])
    requires var v := Analyze(P, sigs, d, FormalTypes(mt.formals, sig.formals), mt.body.e);
      Clean(v) && Sub(P, d, v.ty, sig.ret)
    ensures v0.VObj? && !sig.ret.NoType?
    ensures ResultOK(P, Resolve(sig.ret, ClassOf(st, v0)), st, Eval(P, fuel, d, v0, Bind(mt.formals, vs), st, mt.body.e))
    decreases fuel, 2
  {
    hide StoreOK, ValueOK, Hierarchy, Checked, Inherits, BasicsAreLeaves, BasicsOK, Clean, Analyze, Bind, FormalTypes, Eval;
    var dc := ClassOf(st, v0);
    UserObject(P, st, v0, d);
    BindTyped(P, st, dc, mt.formals, sig.formals, vs);
    var f := Frame(d, FormalTypes(mt.formals, sig.formals), dc, v0);
    Sound(P, sigs, fuel, f, Bind(mt.formals, vs), st, mt.body.e);
    OutcomeWidened(P, f, Analyze(P, sigs, d, f.O, mt.body.e).ty, sig.ret, st, Eval(P, fuel, d, v0, Bind(mt.formals, vs), st, mt.body.e));
  }

  lemma UserObject(P: Program, st: Store, v0: Value, d: ClassName)
    requires Hierarchy(P) && BasicsAreLeaves(P) && BasicsOK(P) && StoreOK(P, st) && d in P.classes && d.User?
    requires v0 != VVoid && ClassOf(st, v0) in P.classes && Inherits(P, ClassOf(st, v0), d)
    ensures v0.VObj? && v0.id < |st.objs| && st.objs[v0.id].cls == ClassOf(st, v0) && !IsBasic(ClassOf(st, v0))
  {
    hide Hierarchy, StoreOK, Inherits, BasicsOK;
    NoClassUnknown(P);
    if IsBasic(ClassOf(st, v0)) {
      BasicParent(P, ClassOf(st, v0), d);
    }
  }

  /** Only Object is above a basic class. */
  lemma BasicParent(P: Program, c: ClassName, d: ClassName)
    requires Hierarchy(P) && BasicsOK(P) && c in P.classes && Inherits(P, c, d) && IsBasic(c)
    ensures d == c || d == ObjectC || d == NoClass
  {
    assert Up(P, c) == ObjectC && Up(P, ObjectC) == NoClass;
    assert Inherits(P, ObjectC, d) ==> d == ObjectC || Inherits(P, NoClass, d);
  }

  lemma {:induction false} SoundNew(P: Program, sigs: Sigs, fuel: nat, f: Frame, env: Env, st: Store, e: Expr)
    requires Hierarchy(P) && Checked(P, sigs) && Good(P, f, env, st) && f.cls in P.classes && (e.New? || e.NewSelf?) && Clean(Analyze(P, sigs, f.cls, f.O, e))
    ensures OutcomeOK(P, f, Analyze(P, sigs, f.cls, f.O, e).ty, st, Eval(P, fuel, f.cls, f.self, env, st, e))
    decreases fuel, 0, e, 0
  {
    hide Good, Hierarchy, Checked, Eval, Create, StoreOK, Inherits, BasicsAreLeaves, BasicsOK, AttrsOK, ValueOK, Return;
    GoodParts(P, sigs, f, env, st);
    NewParts(P, sigs, f.cls, f.O, e);
    if e.New? {
      EvalNew(P, fuel, f.cls, f.self, env, st, e);
    } else {
      EvalNewSelf(P, fuel, f.cls, f.self, env, st, e);
    }
    if fuel > 0 {
      var c := if e.New? then e.c else f.dc;
      SoundCreate(P, sigs, fuel - 1, c, st);
      Returned(P, f, if e.New? then Cls(e.c) else SelfType, env, st, Create(P, fuel - 1, c, st));
    }
  }

  lemma NewParts(P: Program, sigs: Sigs, cls: ClassName, O: map<Name, Type>, e: Expr)
    requires Hierarchy(P) && cls in P.classes && (e.New? || e.NewSelf?) && Clean(Analyze(P, sigs, cls, O, e))
    ensures e.New? ==> e.c in P.classes
    ensures Analyze(P, sigs, cls, O, e).ty == if e.New? then Cls(e.c) else SelfType
  {
    hide Hierarchy;
  }

  /** A new object is an instance of its class, and all its attributes have values of their types. */
  lemma {:induction false} SoundCreate(P: Program, sigs: Sigs, fuel: nat, c: ClassName, st: Store)
    requires Hierarchy(P) && Checked(P, sigs) && StoreOK(P, st) && c in P.classes
    ensures ResultOK(P, c, st, Create(P, fuel, c, st))
    decreases fuel, 3
  {
    hide Hierarchy, Checked, StoreOK, Create, Init, AttrLayout, Defaults, BasicsAreLeaves, BasicsOK, Inherits, ObjOK;
    LeavesKnown(P, sigs);
    CreateCases(P, fuel, c, st);
    OwnClass(P, c);
    if !IsBasic(c) {
      var o := Obj(c, Defaults(AttrLayout(P, c)));
      var st1 := st.(objs := st.objs + [o]);
      DefaultsTyped(P, sigs, c, st);
      ObjAdded(P, st, o);
      SoundInit(P, sigs, fuel, c, VObj(|st.objs|), st1);
      ResultLater(P, c, st, st1, Init(P, fuel, c, VObj(|st.objs|), st1));
    }
  }

  lemma ResultLater(P: Program, t: ClassName, st: Store, st1: Store, o: Outcome)
    requires Hierarchy(P) && Grows(st, st1) && ResultOK(P, t, st1, o)
    ensures ResultOK(P, t, st, o)
  {
    hide StoreOK, ValueOK, Hierarchy;
    if o.Val? {
      GrowsOn(st, st1, o.st);
    }
  }

  /** The frame in which the initialisers of class `c` run. */
  ghost predicate InitFrame(P: Program, c: ClassName, self: Value, st: Store)
    requires Hierarchy(P) && c in P.classes
  {
    self.VObj? && self.id < |st.objs| && FrameOK(P, Frame(c, map[], st.objs[self.id].cls, self), st)
  }

  lemma {:induction false} SoundInit(P: Program, sigs: Sigs, fuel: nat, c: ClassName, self: Value, st: Store)
    requires Hierarchy(P) && Checked(P, sigs) && StoreOK(P, st) && c in P.classes
    requires InitFrame(P, c, self, st)
    ensures ResultOK(P, st.objs[self.id].cls, st, Init(P, fuel, c, self, st))
    decreases fuel, 2
  {
    hide Hierarchy, Checked, StoreOK, Init, EvalSeq, InitFrame, ValueOK, Grows;
    InitCases(P, fuel, c, self, st);
    var up := P.classes[c].parent;
    FrameHere(P, c, self, st, st);
    if up == NoClass {
      SoundOwnInits(P, sigs, fuel, c, self, st);
    } else if fuel > 0 {
      FrameAbove(P, c, self, st);
      SoundInit(P, sigs, fuel - 1, up, self, st);
      var o := Init(P, fuel - 1, up, self, st);
      if o.Val? {
        FrameHere(P, c, self, st, o.st);
        SoundOwnInits(P, sigs, fuel, c, self, o.st);
        ResultLater(P, st.objs[self.id].cls, st, o.st, Init(P, fuel, c, self, st));
      }
    }
  }

  lemma FrameHere(P: Program, c: ClassName, self: Value, st: Store, st1: Store)
    requires Hierarchy(P) && c in P.classes && InitFrame(P, c, self, st)
    ensures Grows(st, st)
    ensures self.VObj? && self.id < |st.objs|
    ensures Grows(st, st1) ==> InitFrame(P, c, self, st1) && st1.objs[self.id].cls == st.objs[self.id].cls
  {
    hide Hierarchy, Inherits;
  }

  lemma FrameAbove(P: Program, c: ClassName, self: Value, st: Store)
    requires Hierarchy(P) && c in P.classes && InitFrame(P, c, self, st) && P.classes[c].parent in P.classes
    ensures InitFrame(P, P.classes[c].parent, self, st)
  {
    AncTransitive(Parents(P), st.objs[self.id].cls, c, P.classes[c].parent);
  }

  /** The initialisers that `c` declares. */
  lemma {:induction false} SoundOwnInits(P: Program, sigs: Sigs, fuel: nat, c: ClassName, self: Value, st: Store)
    requires Hierarchy(P) && Checked(P, sigs) && StoreOK(P, st) && c in P.classes && InitFrame(P, c, self, st)
    ensures ResultOK(P, st.objs[self.id].cls, st, InitDone(self, EvalSeq(P, fuel, c, self, map[], st, InitExprs(P.classes[c].attrs))))
    decreases fuel, 1, 0
  {
    hide Hierarchy, Checked, StoreOK, EvalSeq, Inherits;
    var f := Frame(c, map[], st.objs[self.id].cls, self);
    var es := InitExprs(P.classes[c].attrs);
    var o := EvalSeq(P, fuel, c, self, map[], st, es);
    assert es[0..] == es;
    EmptySeq(P, fuel, c, self, st);
    if es != [] {
      SoundInits(P, sigs, fuel, f, st, 0);
    }
    if o.Val? {
      SelfTyped(P, f, o.st);
    }
  }

  lemma EmptySeq(P: Program, fuel: nat, c: ClassName, self: Value, st: Store)
    requires Hierarchy(P)
    ensures EvalSeq(P, fuel, c, self, map[], st, []) == Val(VVoid, map[], st)
  {
  }

  /** Nothing goes wrong, and the store stays well typed. */
  ghost predicate InitsOK(P: Program, f: Frame, st: Store, o: Outcome)
    requires Hierarchy(P)
  {
    !o.Wrong? && (o.Val? ==> Good(P, f, map[], o.st) && Grows(st, o.st))
  }

  /** The initialisers from attribute `k` on. */
  lemma {:induction false} SoundInits(P: Program, sigs: Sigs, fuel: nat, f: Frame, st: Store, k: nat)
    requires Hierarchy(P) && Checked(P, sigs) && Good(P, f, map[], st) && f.O == map[] && f.cls in P.classes && k < |P.classes[f.cls].attrs|
    ensures InitsOK(P, f, st, EvalSeq(P, fuel, f.cls, f.self, map[], st, InitExprs(P.classes[f.cls].attrs)[k..]))
    decreases fuel, 0, InitExprs(P.classes[f.cls].attrs)[k..], 2
  {
    hide Hierarchy, Checked, Good, Eval, EvalSeq, Grows;
    var es := InitExprs(P.classes[f.cls].attrs)[k..];
    assert es[0] == Assign(P.classes[f.cls].attrs[k].name, P.classes[f.cls].attrs[k].init);
    EvalSeqMore(P, fuel, f.cls, f.self, map[], st, es);
    SoundInitAttr(P, sigs, fuel, f, st, k, es[0]);
    var o := Eval(P, fuel, f.cls, f.self, map[], st, es[0]);
    if o.Val? && |es| > 1 {
      assert es[1..] == InitExprs(P.classes[f.cls].attrs)[k + 1..];
      SoundInits(P, sigs, fuel, f, o.st, k + 1);
      InitsLater(P, f, st, o.st, EvalSeq(P, fuel, f.cls, f.self, map[], o.st, es[1..]));
    }
  }

  lemma InitsLater(P: Program, f: Frame, st: Store, st1: Store, o: Outcome)
    requires Hierarchy(P) && Grows(st, st1) && InitsOK(P, f, st1, o)
    ensures InitsOK(P, f, st, o)
  {
    hide Good, Hierarchy;
    if o.Val? {
      GrowsOn(st, st1, o.st);
    }
  }

  lemma {:induction false} SoundInitAttr(P: Program, sigs: Sigs, fuel: nat, f: Frame, st: Store, k: nat, e: Expr)
    requires Hierarchy(P) && Checked(P, sigs) && Good(P, f, map[], st) && f.O == map[] && f.cls in P.classes && k < |P.classes[f.cls].attrs|
    requires e == Assign(P.classes[f.cls].attrs[k].name, P.classes[f.cls].attrs[k].init)
    ensures var o := Eval(P, fuel, f.cls, f.self, map[], st, e);
      InitsOK(P, f, st, o) && (o.Val? ==> o.env == map[])
    decreases fuel, 0, e, 3
  {
    hide Hierarchy, Checked, Eval, Good, Grows, Inherits, TypeOK, AttrLayout, BasicsAreLeaves, BasicsOK, AttrsOK, FrameOK, StoreOK, AnalyzeInit, Clean, WriteVar, Exists;
    var a := P.classes[f.cls].attrs[k];
    GoodParts(P, sigs, f, map[], st);
    NotBasic(P, f, st);
    AttrAccepted(P, sigs, f.cls, a);
    EvalAssign(P, fuel, f.cls, f.self, map[], st, e);
    SoundInitialiser(P, sigs, fuel, f, map[], st, a.ty, a.init);
    var o := Eval(P, fuel, f.cls, f.self, map[], st, a.init);
    if o.Val? {
      GoodParts(P, sigs, f, o.env, o.st);
      OwnAttrs(P, f.cls);
      NoVars(P, f, o.env, o.st);
      WriteAttr(P, f, o.env, o.st, |AttrLayout(P, Up(P, f.cls))| + k, o.v);
      InitsLater(P, f, st, o.st, WriteVar(P, f.cls, f.self, o.env, o.st, a.name, o.v));
    }
  }

  lemma NoVars(P: Program, f: Frame, env: Env, st: Store)
    requires Hierarchy(P) && Good(P, f, env, st) && f.O == map[]
    ensures env == map[]
  {
    assert env.Keys == {};
  }

  /** Basic classes have no proper descendants, so the class of a method is not basic. */
  lemma NotBasic(P: Program, f: Frame, st: Store)
    requires Hierarchy(P) && BasicsAreLeaves(P) && FrameOK(P, f, st)
    ensures !IsBasic(f.cls)
  {
    if IsBasic(f.cls) {
      OnlyItself(P, f.dc, f.cls);
    }
  }
}
