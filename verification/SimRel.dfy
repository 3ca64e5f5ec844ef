/**
  The simulation relation between the Cool interpreter and the machine: which words stand for a
  value, which block stands for an object, where the machine keeps each variable, and what one
  evaluated expression may change.
 */
module SimRel {
  import opened CoolNames
  import opened Inheritance
  import opened CoolSyntax
  import opened Layout
  import opened ClassTags
  import opened CoolSemantics
  import opened Mips
  import opened CodeGen

  /** A program with the image that the generator made of it. */
  datatype Ctx = Ctx(P: Program, img: Image)

  // ---------------------------------------------------------------------------------------------
  // What semantic analysis guarantees, and what the image contains.

  /** The resolved `copy` of class `c` is the run-time routine. */
  ghost predicate CopyIsRuntime(P: Program, c: ClassName)
    requires Hierarchy(P) && c in P.classes
  {
    var d := Nearest(P, c, COPY);
    d != NoClass && Decl(P.classes[d], COPY).body == Native(RtCopy)
  }

  ghost predicate AttrsOK(P: Program, c: ClassName)
    requires Hierarchy(P) && c in P.classes
  {
    var layout := AttrLayout(P, c);
    && (forall i :: 0 <= i < |layout| ==> layout[i].name != SELF)
    && forall i, j :: 0 <= i < j < |layout| ==> layout[i].name != layout[j].name
  }

  ghost predicate MethodsOK(cls: Class) {
    && (forall i, j :: 0 <= i < j < |cls.methods| ==> cls.methods[i].name != cls.methods[j].name)
    && forall m :: m in cls.methods ==> FormalsOK(m.formals)
  }

  ghost predicate FormalsOK(formals: seq<Name>) {
    && (forall i :: 0 <= i < |formals| ==> formals[i] != SELF)
    && forall i, j :: 0 <= i < j < |formals| ==> formals[i] != formals[j]
  }

  /** The basic classes as install_basic_classes declares them. */
  ghost predicate BasicsOK(P: Program)
    requires Hierarchy(P)
  {
    && ObjectC in P.classes && IntC in P.classes && BoolC in P.classes && StringC in P.classes
    && P.classes[IntC].parent == ObjectC && P.classes[BoolC].parent == ObjectC && P.classes[StringC].parent == ObjectC
    && P.classes[ObjectC].attrs == []
    && P.classes[IntC].attrs == [Attr("_val", PrimSlot, NoExpr(PrimSlot))]
    && P.classes[BoolC].attrs == [Attr("_val", PrimSlot, NoExpr(PrimSlot))]
    && P.classes[StringC].attrs ==
         [Attr("_val", Of(IntC), NoExpr(Of(IntC))), Attr("_str_field", PrimSlot, NoExpr(PrimSlot))]
    && CopyIsRuntime(P, ObjectC) && CopyIsRuntime(P, IntC)
  }

  /** What semantic analysis checks. */
  ghost predicate WellFormed(P: Program) {
    && Hierarchy(P) && TagsOK(P) && BasicsOK(P)
    && (forall c :: c in P.order <==> c in P.classes) && Distinct(P.order)
    && (forall c {:trigger ClassOK(P, c)} :: c in P.classes ==> ClassOK(P, c))
  }

  ghost predicate ProgramOK(P: Program) {
    WellFormed(P) && CreatedOK(P)
  }

  /** No class that the program creates by its name redefines or inherits a redefinition of `copy`. */
  ghost predicate CreatedOK(P: Program)
    requires Hierarchy(P)
  {
    forall c {:trigger Created(P, c)} :: c in P.classes && Created(P, c) ==> CopyIsRuntime(P, c)
  }

  ghost predicate ClassOK(P: Program, c: ClassName)
    requires Hierarchy(P) && c in P.classes
  {
    AttrsOK(P, c) && MethodsOK(P.classes[c])
  }

  /** `code` stands in the text at the definition of `l`. */
  ghost predicate Placed(img: Image, l: Label, code: seq<Instr>) {
    CodeAt(img.text, Find(img.text, l), code)
  }

  ghost predicate InitPlaced(k: Ctx, c: ClassName)
    requires Hierarchy(k.P) && c in k.P.classes
  {
    exists l :: Placed(k.img, InitLabel(c), InitCode(k.P, c, l).code)
  }

  ghost predicate MethodPlaced(k: Ctx, c: ClassName, m: Method)
    requires Hierarchy(k.P) && c in k.P.classes
  {
    match m.body
    case Code(_) => exists l :: Placed(k.img, MethodLabel(c, m.name), MethodCode(k.P, c, m, l).code)
    case Native(_) => Placed(k.img, MethodLabel(c, m.name), NativeCode(c, m))
  }

  /** The dispatch table of a class, and its entry in class_objTab. */
  ghost predicate TablesOK(k: Ctx, c: ClassName)
    requires Hierarchy(k.P) && c in k.P.classes
  {
    && c in k.img.disp && k.img.disp[c] == DispTable(k.P, c)
    && c in k.P.tag && k.P.tag[c] in k.img.objTab && k.img.objTab[k.P.tag[c]] == c
  }

  ghost predicate UniqueLabels(text: seq<Instr>) {
    forall l {:trigger Count(text, l)} :: Count(text, l) <= 1
  }

  ghost predicate ImageOK(k: Ctx)
    requires Hierarchy(k.P)
  {
    && UniqueLabels(k.img.text)
    && (forall c {:trigger TablesOK(k, c)} :: c in k.P.classes ==> TablesOK(k, c))
    && (forall c {:trigger InitPlaced(k, c)} :: c in k.P.classes ==> InitPlaced(k, c))
    && forall c, m {:trigger MethodPlaced(k, c, m)} :: c in k.P.classes && m in k.P.classes[c].methods ==> MethodPlaced(k, c, m)
  }

  /** Wherever the text has the code of `new c`, the `copy` of `c` is the run-time routine. */
  ghost predicate NewsOK(k: Ctx)
    requires Hierarchy(k.P)
  {
    forall pc: nat, c {:trigger CodeAt(k.img.text, pc, NewCode(k.P, c))} ::
      c in k.P.classes && CodeAt(k.img.text, pc, NewCode(k.P, c)) ==> CopyIsRuntime(k.P, c)
  }

  ghost predicate OK(k: Ctx) {
    WellFormed(k.P) && ImageOK(k) && NewsOK(k)
  }

  lemma OKHierarchy(k: Ctx)
    requires OK(k)
    ensures WellFormed(k.P) && Hierarchy(k.P) && ImageOK(k) && IntC in k.P.classes && CopyIsRuntime(k.P, IntC)
  {
  }

  // ---------------------------------------------------------------------------------------------
  // Values and objects.  `inj[id]` is the block of the object `id` of the interpreter's store.

  type Inj = seq<ObjRef>

  /** The block of a Bool, Int or String is never the block of a mutable object. */
  ghost predicate Frozen(inj: Inj, h: Heap, w: Word, ws: seq<Word>) {
    w.Ref? && w.r in h && w.r !in inj && h[w.r] == ws
  }

  ghost predicate IsString(P: Program, ws: seq<Word>, s: string) {
    |ws| == 5 && ws[0] == TagWord(P, StringC) && ws[2] == Disp(StringC) && IsText(ws[4]) && TextOf(ws[4]) == s
  }

  ghost predicate ValRel(P: Program, inj: Inj, h: Heap, v: Value, w: Word) {
    match v
    case VInt(n) => Frozen(inj, h, w, IntWords(P, n))
    case VBool(b) => Frozen(inj, h, w, BoolWords(P, b))
    case VStr(s) => w.Ref? && w.r in h && Frozen(inj, h, w, h[w.r]) && IsString(P, h[w.r], s)
    case VVoid => w == I(0)
    case VObj(id) => id < |inj| && w == Ref(inj[id])
  }

  /** What evaluation may do to blocks: only those of mutable objects change, new objects get new blocks. */
  ghost predicate Ext(inj: Inj, h: Heap, inj': Inj, h': Heap) {
    && inj <= inj'
    && forall r :: r in h && r !in inj ==> r in h' && h'[r] == h[r] && r !in inj'
  }

  lemma ExtTrans(inj: Inj, h: Heap, inj1: Inj, h1: Heap, inj2: Inj, h2: Heap)
    requires Ext(inj, h, inj1, h1) && Ext(inj1, h1, inj2, h2)
    ensures Ext(inj, h, inj2, h2)
  {
  }

  lemma ValMono(P: Program, inj: Inj, h: Heap, inj': Inj, h': Heap, v: Value, w: Word)
    requires ValRel(P, inj, h, v, w) && Ext(inj, h, inj', h')
    ensures ValRel(P, inj', h', v, w)
  {
  }

  /** Word 3 + i of the block holds attribute i of the layout. */
  ghost predicate AttrAt(P: Program, inj: Inj, h: Heap, o: Obj, ws: seq<Word>, i: nat)
    requires Hierarchy(P) && o.cls in P.classes && i < |AttrLayout(P, o.cls)| && |ws| == 3 + |AttrLayout(P, o.cls)|
  {
    var a := AttrLayout(P, o.cls)[i].name;
    a in o.attrs && ValRel(P, inj, h, o.attrs[a], ws[3 + i])
  }

  ghost predicate ObjRel(P: Program, inj: Inj, h: Heap, o: Obj, ws: seq<Word>)
    requires Hierarchy(P)
  {
    && o.cls in P.classes && !IsBasic(o.cls)
    && |ws| == 3 + |AttrLayout(P, o.cls)|
    && ws[0] == TagWord(P, o.cls) && ws[2] == Disp(o.cls)
    && forall i: nat {:trigger AttrAt(P, inj, h, o, ws, i)} :: i < |AttrLayout(P, o.cls)| ==> AttrAt(P, inj, h, o, ws, i)
  }

  /** Object `id` of the store and its block. */
  ghost predicate ObjAt(P: Program, inj: Inj, h: Heap, objs: seq<Obj>, id: nat)
    requires Hierarchy(P) && id < |inj| && id < |objs|
  {
    inj[id].Dyn? && inj[id] in h && ObjRel(P, inj, h, objs[id], h[inj[id]])
  }

  /** The constants and prototypes of the data segment are as they were emitted. */
  ghost predicate StaticOK(P: Program, h: Heap)
    requires Hierarchy(P)
  {
    && (forall n :: IntObj(n) in h && h[IntObj(n)] == IntWords(P, n))
    && (forall b :: BoolObj(b) in h && h[BoolObj(b)] == BoolWords(P, b))
    && (forall s :: StrObj(s) in h && h[StrObj(s)] == StrWords(P, s))
    && forall c {:trigger ProtoOK(P, h, c)} :: c in P.classes ==> ProtoOK(P, h, c)
  }

  ghost predicate ProtoOK(P: Program, h: Heap, c: ClassName)
    requires Hierarchy(P) && c in P.classes
  {
    Proto(c) in h && h[Proto(c)] == ProtoWords(P, c)
  }

  ghost predicate HeapRel(P: Program, inj: Inj, h: Heap, next: nat, objs: seq<Obj>)
    requires Hierarchy(P)
  {
    && |inj| == |objs| && Distinct(inj)
    && (forall id: nat {:trigger ObjAt(P, inj, h, objs, id)} :: id < |inj| ==> ObjAt(P, inj, h, objs, id))
    && StaticOK(P, h)
    && forall j: nat :: Dyn(j) in h ==> j < next
  }

  // ---------------------------------------------------------------------------------------------
  // Variables and frames.

  ghost predicate IsSlot(env: Scope, fp: int, a: int) {
    exists x :: x in env && env[x].Local? && a == fp + 4 * env[x].off
  }

  /** The local `x` has a live word of its own in the frame. */
  ghost predicate LocalAt(P: Program, scope: Scope, tmp: int, fp: int, env: Env, inj: Inj, h: Heap, stack: map<int, Word>, x: Name)
    requires x in env
  {
    && x != SELF && x in scope && scope[x].Local? && tmp < scope[x].off
    && fp + 4 * scope[x].off in stack && ValRel(P, inj, h, env[x], stack[fp + 4 * scope[x].off])
  }

  /** The generator's scope sends locals to their words and the other attributes to their slots. */
  ghost predicate ScopeOK(P: Program, cls: ClassName, scope: Scope, env: Env)
    requires Hierarchy(P) && cls in P.classes
  {
    && (forall x :: x in scope && scope[x].Local? ==> x in env)
    && (forall x, y {:trigger OtherPlace(scope, x, y)} :: x in env && y in env && x != y ==> OtherPlace(scope, x, y))
    && forall i: nat {:trigger AttrScoped(P, cls, scope, env, i)} :: i < |AttrLayout(P, cls)| ==> AttrScoped(P, cls, scope, env, i)
  }

  /** Two variables do not share a place. */
  ghost predicate OtherPlace(scope: Scope, x: Name, y: Name) {
    x in scope && y in scope && scope[x] != scope[y]
  }

  /** Attribute `i` of the class is in scope at its slot, unless a local hides it. */
  ghost predicate AttrScoped(P: Program, cls: ClassName, scope: Scope, env: Env, i: nat)
    requires Hierarchy(P) && cls in P.classes && i < |AttrLayout(P, cls)|
  {
    var a := AttrLayout(P, cls)[i].name;
    a !in env ==> a in scope && scope[a] == AttrSlot(i)
  }

  ghost predicate EnvRel(P: Program, cls: ClassName, scope: Scope, tmp: int, fp: int, env: Env, inj: Inj, h: Heap, stack: map<int, Word>)
    requires Hierarchy(P) && cls in P.classes
  {
    && ScopeOK(P, cls, scope, env)
    && forall x {:trigger LocalAt(P, scope, tmp, fp, env, inj, h, stack, x)} :: x in env ==> LocalAt(P, scope, tmp, fp, env, inj, h, stack, x)
  }

  /** $s0 holds self, an object of a class at or below the one whose code is running. */
  ghost predicate SelfRel(P: Program, cls: ClassName, self: Value, objs: seq<Obj>, inj: Inj, w: Word)
    requires Hierarchy(P)
  {
    && self.VObj? && self.id < |objs| && self.id < |inj| && w == Ref(inj[self.id])
    && objs[self.id].cls in P.classes && Inherits(P, objs[self.id].cls, cls)
  }

  /** The machine is at a point of the code of class `cls` where $sp = $fp + 4 * tmp. */
  ghost predicate Rel(P: Program, cls: ClassName, self: Value, scope: Scope, tmp: int, env: Env, st: Store, inj: Inj, s: State)
    requires Hierarchy(P)
  {
    && cls in P.classes
    && s.sp.Stk? && s.fp.Stk? && s.sp.a == s.fp.a + 4 * tmp
    && SelfRel(P, cls, self, st.objs, inj, s.slf)
    && EnvRel(P, cls, scope, tmp, s.fp.a, env, inj, s.heap, s.stack)
    && HeapRel(P, inj, s.heap, s.next, st.objs)
    && s.out == st.out
  }

  /** Live stack words keep their contents, except the words of the variables in scope. */
  ghost predicate FrameKept(scope: Scope, s: State, t: State)
    requires s.sp.Stk? && s.fp.Stk?
  {
    forall a :: a in s.stack && a > s.sp.a && !IsSlot(scope, s.fp.a, a) ==> a in t.stack && t.stack[a] == s.stack[a]
  }

  /** Objects never change their class. */
  ghost predicate ClassesKept(objs: seq<Obj>, objs': seq<Obj>) {
    |objs| <= |objs'| && forall id :: 0 <= id < |objs| ==> objs'[id].cls == objs[id].cls
  }

  /** Where a run of the machine ends, with the injection of the objects made so far. */
  datatype Run = Run(n: nat, t: State, inj: Inj)

  /** Only variables and mutable objects have changed since `s`, and the machine is where it was in the frame. */
  ghost predicate Mid(P: Program, cls: ClassName, self: Value, scope: Scope, tmp: int, inj: Inj, st: Store, s: State, env': Env, st': Store, inj': Inj, t: State)
    requires Hierarchy(P)
  {
    && s.sp.Stk? && s.fp.Stk?
    && t.sp == s.sp && t.fp == s.fp && t.slf == s.slf
    && Ext(inj, s.heap, inj', t.heap)
    && ClassesKept(st.objs, st'.objs)
    && FrameKept(scope, s, t)
    && Rel(P, cls, self, scope, tmp, env', st', inj', t)
  }

  /** After an expression: moreover, its value is in $a0. */
  ghost predicate Post(P: Program, cls: ClassName, self: Value, scope: Scope, tmp: int, inj: Inj, st: Store, s: State, v: Value, env': Env, st': Store, inj': Inj, t: State)
    requires Hierarchy(P)
  {
    Mid(P, cls, self, scope, tmp, inj, st, s, env', st', inj', t) && ValRel(P, inj', t.heap, v, t.acc)
  }

  /** The machine ends the program as the interpreter does, or outlives the interpreter's fuel. */
  ghost predicate Finishes(k: Ctx, fuel: nat, s: State, o: Outcome, r: Run) {
    match o
    case Val(_, _, _) => false
    case Abort(f, out) => Halts(k.img, r.n, s, Faulted(f), out)
    case Timeout => r.n >= fuel && Runs(k.img, r.n, s, r.t)
    case Wrong => true
  }

  /** The machine, started in `s` before `len` instructions, does what the interpreter's outcome says. */
  ghost predicate Good(k: Ctx, fuel: nat, cls: ClassName, self: Value, scope: Scope, tmp: int, inj: Inj, st: Store, s: State, len: nat, o: Outcome, r: Run)
    requires Hierarchy(k.P)
  {
    match o
    case Val(v, env', st') =>
      && Runs(k.img, r.n, s, r.t) && r.t.pc == s.pc + len
      && Post(k.P, cls, self, scope, tmp, inj, st, s, v, env', st', r.inj, r.t)
    case _ => Finishes(k, fuel, s, o, r)
  }

  // ---------------------------------------------------------------------------------------------
  // Composition.

  lemma FinishesAfter(k: Ctx, fuel: nat, s: State, n: nat, s1: State, o: Outcome, r: Run) returns (q: Run)
    requires Runs(k.img, n, s, s1) && Finishes(k, fuel, s1, o, r)
    ensures Finishes(k, fuel, s, o, q)
  {
    q := r.(n := n + r.n);
    if o.Abort? {
      HaltsTrans(k.img, n, r.n, s, s1, Faulted(o.f), o.out);
    } else if o.Timeout? {
      RunsTrans(k.img, n, r.n, s, s1, r.t);
    }
  }

  /** One unit of fuel less, after at least one step. */
  lemma FinishesAfterStep(k: Ctx, fuel: nat, s: State, n: nat, s1: State, o: Outcome, r: Run) returns (q: Run)
    requires fuel > 0 && n > 0 && Runs(k.img, n, s, s1) && Finishes(k, fuel - 1, s1, o, r)
    ensures Finishes(k, fuel, s, o, q)
  {
    q := r.(n := n + r.n);
    if o.Abort? {
      HaltsTrans(k.img, n, r.n, s, s1, Faulted(o.f), o.out);
    } else if o.Timeout? {
      RunsTrans(k.img, n, r.n, s, s1, r.t);
    }
  }

  lemma FrameTrans(scope: Scope, s: State, t: State, u: State)
    requires s.sp.Stk? && s.fp.Stk? && t.sp == s.sp && t.fp == s.fp
    requires FrameKept(scope, s, t) && FrameKept(scope, t, u)
    ensures FrameKept(scope, s, u)
  {
  }

  lemma ClassesTrans(a: seq<Obj>, b: seq<Obj>, c: seq<Obj>)
    requires ClassesKept(a, b) && ClassesKept(b, c)
    ensures ClassesKept(a, c)
  {
  }

  /** Two expressions one after the other in the same frame. */
  lemma MidTrans(P: Program, cls: ClassName, self: Value, scope: Scope, tmp: int, inj: Inj, st: Store, s: State, env1: Env, st1: Store, inj1: Inj, s1: State, env2: Env, st2: Store, inj2: Inj, s2: State)
    requires Hierarchy(P)
    requires Mid(P, cls, self, scope, tmp, inj, st, s, env1, st1, inj1, s1)
    requires Mid(P, cls, self, scope, tmp, inj1, st1, s1, env2, st2, inj2, s2)
    ensures Mid(P, cls, self, scope, tmp, inj, st, s, env2, st2, inj2, s2)
  {
    ExtTrans(inj, s.heap, inj1, s1.heap, inj2, s2.heap);
    ClassesTrans(st.objs, st1.objs, st2.objs);
    FrameTrans(scope, s, s1, s2);
  }

  /** A part that ends normally, then an expression. */
  lemma GoodThen(k: Ctx, fuel: nat, cls: ClassName, self: Value, scope: Scope, tmp: int, inj: Inj, st: Store, s: State, env1: Env, st1: Store, r1: Run, len2: nat, len: nat, o: Outcome, r2: Run) returns (r: Run)
    requires Hierarchy(k.P)
    requires Runs(k.img, r1.n, s, r1.t) && r1.t.pc + len2 == s.pc + len
    requires Mid(k.P, cls, self, scope, tmp, inj, st, s, env1, st1, r1.inj, r1.t)
    requires Good(k, fuel, cls, self, scope, tmp, r1.inj, st1, r1.t, len2, o, r2)
    ensures Good(k, fuel, cls, self, scope, tmp, inj, st, s, len, o, r)
  {
    if o.Val? {
      r := GoodThenVal(k, cls, self, scope, tmp, inj, st, s, env1, st1, r1, o, r2);
    } else {
      r := FinishesAfter(k, fuel, s, r1.n, r1.t, o, r2);
    }
  }

  lemma GoodThenVal(k: Ctx, cls: ClassName, self: Value, scope: Scope, tmp: int, inj: Inj, st: Store, s: State, env1: Env, st1: Store, r1: Run, o: Outcome, r2: Run) returns (r: Run)
    requires Hierarchy(k.P) && o.Val?
    requires Runs(k.img, r1.n, s, r1.t)
    requires Mid(k.P, cls, self, scope, tmp, inj, st, s, env1, st1, r1.inj, r1.t)
    requires Runs(k.img, r2.n, r1.t, r2.t)
    requires Post(k.P, cls, self, scope, tmp, r1.inj, st1, r1.t, o.v, o.env, o.st, r2.inj, r2.t)
    ensures Runs(k.img, r.n, s, r.t) && r.t == r2.t
    ensures Post(k.P, cls, self, scope, tmp, inj, st, s, o.v, o.env, o.st, r.inj, r.t)
  {
    r := r2.(n := r1.n + r2.n);
    MidTrans(k.P, cls, self, scope, tmp, inj, st, s, env1, st1, r1.inj, r1.t, o.env, o.st, r2.inj, r2.t);
    RunsTrans(k.img, r1.n, r2.n, s, r1.t, r2.t);
  }
}
