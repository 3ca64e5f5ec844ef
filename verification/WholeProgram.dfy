/** Whole programs: what the emitted image prints and how it ends, against the interpreter. */
module WholeProgram {
  import opened CoolNames
  import opened Inheritance
  import opened CoolSyntax
  import opened Layout
  import opened ClassTags
  import opened CoolSemantics
  import opened Mips
  import opened CodeGen
  import opened ProgramImage
  import opened SimRel
  import opened SimFrame
  import opened SimSteps
  import opened SimCalls
  import opened SimObjects
  import opened SimDispatch
  import opened SimConstructs
  import opened SimMethods
  import opened SimCreation
  import opened SimSpecialNew
  import opened Simulation
  import opened Correctness

  /** The Main class with its main method, which every program must have. */
  ghost predicate HasMain(P: Program) {
    MAIN in P.classes && Declares(P.classes[MAIN], MAINMETH)
  }

  /** (new Main).main() */
  ghost function RunProgram(P: Program, fuel: nat): Outcome
    requires Hierarchy(P)
  {
    match Create(P, fuel, MAIN, Store([], []))
    case Val(v, _, st) => Call(P, fuel, MAIN, v, MAINMETH, [], st)
    case o => o
  }

  /** The machine does what the interpreter's outcome says: it ends in the same way with the same output, or runs for `fuel` steps. */
  ghost predicate Agrees(img: Image, fuel: nat, s: State, o: Outcome, n: nat) {
    match o
    case Val(_, _, st) => Halts(img, n, s, Finished, st.out)
    case Abort(f, out) => Halts(img, n, s, Faulted(f), out)
    case Timeout => n >= fuel && exists t :: Runs(img, n, s, t)
    case Wrong => true
  }

  lemma StaticHere(P: Program, r: ObjRef)
    requires Hierarchy(P) && IsStatic(P, r)
    ensures r in InitialHeap(P) && InitialHeap(P)[r] == StaticWords(P, r)
  {
    hide StaticWords;
  }

  lemma NothingDynamic(P: Program)
    requires Hierarchy(P)
    ensures forall j: nat :: Dyn(j) !in InitialHeap(P)
  {
    hide StaticWords;
  }

  lemma InitialRel(P: Program)
    requires Hierarchy(P)
    ensures HeapRel(P, [], InitialHeap(P), 0, [])
  {
    hide Hierarchy, InitialHeap, IntWords, BoolWords, StrWords, ProtoWords;
    forall c | c in P.classes ensures ProtoOK(P, InitialHeap(P), c) {
      StaticHere(P, Proto(c));
    }
    forall n ensures IntObj(n) in InitialHeap(P) && InitialHeap(P)[IntObj(n)] == IntWords(P, n) {
      StaticHere(P, IntObj(n));
    }
    forall b ensures BoolObj(b) in InitialHeap(P) && InitialHeap(P)[BoolObj(b)] == BoolWords(P, b) {
      StaticHere(P, BoolObj(b));
    }
    forall x ensures StrObj(x) in InitialHeap(P) && InitialHeap(P)[StrObj(x)] == StrWords(P, x) {
      StaticHere(P, StrObj(x));
    }
    NothingDynamic(P);
  }

  /** The text starts with the start-up code. */
  lemma BootHere(P: Program)
    requires Hierarchy(P) && OrderKnown(P)
    ensures CodeAt(ProgramText(P), 0, BOOT)
  {
    TextParts(P, ProgramText(P));
  }

  /** The Main object exists and its initialiser is about to run. */
  lemma BootNew(k: Ctx, top: int) returns (c0: State, st1: Store, inj1: Inj)
    requires OK(k) && Hierarchy(k.P) && CodeAt(k.img.text, 0, BOOT) && MAIN in k.P.classes
    ensures st1 == Store([Obj(MAIN, Defaults(AttrLayout(k.P, MAIN)))], [])
    ensures Runs(k.img, 5, InitialState(k.P, top), c0) && c0.ra == Ret(3)
    ensures AtInit(k, inj1, st1, c0, MAIN, VObj(0))
  {
    hide OK, ImageOK, WellFormed, Hierarchy, Runs, Step, CodeAt, ProtoWords, InitialHeap, AttrLayout, Defaults, CopyIsRuntime;
    OKHierarchy(k);
    var s := InitialState(k.P, top);
    Sound(k);
    InitialRel(k.P);
    ProtoRel(k.P, [], s.heap, 0, [], MAIN);
    Fetch(k.img, 0, BOOT, 0);
    Fetch(k.img, 0, BOOT, 1);
    Fetch(k.img, 0, BOOT, 2);
    LaStep(k.img, s, Proto(MAIN));
    var s1 := s.(pc := 1, acc := Ref(Proto(MAIN)));
    RunsOne(k.img, s, s1);
    ObjectCopy(k);
    OneInstr(k.img, 1, Jal(MethodLabel(ObjectC, COPY)));
    CallCopy(k, ObjectC, s1);
    var s2 := CopyState(s1, 2, ProtoWords(k.P, MAIN));
    RunsTrans(k.img, 1, 3, s, s1, s2);
    OneInstr(k.img, 2, Jal(InitLabel(MAIN)));
    c0 := JalRun(k.img, s2, InitLabel(MAIN));
    RunsTrans(k.img, 4, 1, s, s2, c0);
    st1, inj1 := BootObject(k, s, s1, s2, c0);
  }

  lemma BootObject(k: Ctx, s: State, s1: State, s2: State, c0: State) returns (st1: Store, inj1: Inj)
    requires WellFormed(k.P) && Hierarchy(k.P) && MAIN in k.P.classes
    requires HeapRel(k.P, [], s.heap, 0, []) && ObjRel(k.P, [], s.heap, Obj(MAIN, Defaults(AttrLayout(k.P, MAIN))), ProtoWords(k.P, MAIN))
    requires s.sp.Stk? && s.next == 0 && s.out == [] && s1 == s.(pc := 1, acc := s1.acc) && s2 == CopyState(s1, 2, ProtoWords(k.P, MAIN))
    requires JumpedTo(s2, InitLabel(MAIN), k.img.text, 3, c0)
    ensures st1 == Store([Obj(MAIN, Defaults(AttrLayout(k.P, MAIN)))], [])
    ensures c0.ra == Ret(3) && AtInit(k, inj1, st1, c0, MAIN, VObj(0))
  {
    hide WellFormed, ObjRel, Find, ProtoWords;
    var o := Obj(MAIN, Defaults(AttrLayout(k.P, MAIN)));
    NewObjHeapRel(k.P, [], s.heap, 0, [], o, ProtoWords(k.P, MAIN));
    st1, inj1 := Store([o], []), [Dyn(0)];
    assert [] + [o] == [o];
    assert [] + [Dyn(0)] == inj1;
    MainSelf(k.P);
  }

  lemma MainSelf(P: Program)
    requires Hierarchy(P) && MAIN in P.classes
    ensures HasClass(P, MAIN) && Inherits(P, MAIN, MAIN)
  {
  }

  /** The Main object is initialised; its main method is about to run. */
  lemma BootCall(k: Ctx, fuel: nat, c0: State, st1: Store, inj1: Inj, o: Outcome, rc: Run) returns (c1: State)
    requires OK(k) && Hierarchy(k.P) && CodeAt(k.img.text, 0, BOOT) && MAIN in k.P.classes && Declares(k.P.classes[MAIN], MAINMETH)
    requires st1 == Store([Obj(MAIN, Defaults(AttrLayout(k.P, MAIN)))], []) && c0.ra == Ret(3)
    requires o.Val? && o.v == VObj(0) && CallGood(k, fuel, inj1, st1, c0, 0, o, rc)
    ensures Runs(k.img, 1, rc.t, c1) && c1.ra == Ret(4)
    ensures HasClass(k.P, MAIN) && Nearest(k.P, MAIN, MAINMETH) == MAIN && MAIN != NoClass
    ensures AtCallee(k, rc.inj, o.st, c1, VObj(0), [], MethodLabel(MAIN, MAINMETH))
    ensures HasClass(k.P, ClassOf(o.st, VObj(0))) && Inherits(k.P, ClassOf(o.st, VObj(0)), MAIN)
  {
    hide OK, CodeAt, AttrLayout, Defaults, HeapRel, Find;
    Fetch(k.img, 0, BOOT, 3);
    OneInstr(k.img, 3, Jal(MethodLabel(MAIN, MAINMETH)));
    c1 := JalRun(k.img, rc.t, MethodLabel(MAIN, MAINMETH));
    MainSelf(k.P);
  }

  lemma ReturnedSelf(P: Program, fuel: nat, c: ClassName, self: Value, st: Store)
    requires Hierarchy(P) && c in P.classes
    ensures var o := Init(P, fuel, c, self, st);
      o.Val? ==> o.v == self
  {
  }

  /** The end of the program. */
  lemma BootHalt(k: Ctx, fuel: nat, s: State, n: nat, c1: State, inj: Inj, st: Store, o: Outcome, rc: Run) returns (m: nat)
    requires Hierarchy(k.P) && CodeAt(k.img.text, 0, BOOT) && Runs(k.img, n, s, c1) && c1.ra == Ret(4)
    requires CallGood(k, fuel, inj, st, c1, 0, o, rc)
    ensures Agrees(k.img, fuel, s, o, m)
  {
    hide CodeAt, HeapRel, ValRel;
    Fetch(k.img, 0, BOOT, 4);
    if o.Val? {
      HaltsNow(k.img, rc.t, Finished);
      HaltsTrans(k.img, rc.n, 0, c1, rc.t, Finished, o.st.out);
      HaltsTrans(k.img, n, rc.n, s, c1, Finished, o.st.out);
      m := n + rc.n;
    } else {
      m := BootStops(k, fuel, s, n, c1, o, rc);
    }
  }

  lemma BootStops(k: Ctx, fuel: nat, s: State, n: nat, c1: State, o: Outcome, rc: Run) returns (m: nat)
    requires Runs(k.img, n, s, c1) && !o.Val? && Finishes(k, fuel, c1, o, rc)
    ensures Agrees(k.img, fuel, s, o, m)
  {
    var r := FinishesAfter(k, fuel, s, n, c1, o, rc);
    m := r.n;
  }

  lemma InitFinishes(k: Ctx, fuel: nat, inj: Inj, st: Store, s: State, n: nat, o: Outcome, r: Run)
    requires Hierarchy(k.P) && !o.Val? && CallGood(k, fuel, inj, st, s, n, o, r)
    ensures Finishes(k, fuel, s, o, r)
  {
  }

  /**
    Compiler correctness: whatever (new Main).main() evaluates to with the given fuel, the emitted
    program agrees: it finishes with the same output, stops with the same fault after the same
    output, or runs for at least as many steps as there was fuel.
   */
  lemma CompilerCorrect(P: Program, fuel: nat, top: int) returns (n: nat)
    requires ProgramOK(P) && HasMain(P)
    ensures Hierarchy(P) && OrderKnown(P) && forall i :: 0 <= i < |P.order| ==> P.order[i] in P.tag
    ensures Agrees(ImageOf(P), fuel, InitialState(P, top), RunProgram(P, fuel), n)
  {
    ImageCorrect(P);
    n := ProgramRuns(Ctx(P, ImageOf(P)), fuel, top);
  }

  lemma RunCases(P: Program, fuel: nat)
    requires Hierarchy(P) && MAIN in P.classes
    ensures var o := Init(P, fuel, MAIN, VObj(0), Store([Obj(MAIN, Defaults(AttrLayout(P, MAIN)))], []));
      RunProgram(P, fuel) == if o.Val? then Call(P, fuel, MAIN, o.v, MAINMETH, [], o.st) else o
  {
    hide Init, Call, Defaults, AttrLayout;
    CreateCases(P, fuel, MAIN, Store([], []));
    var o := Obj(MAIN, Defaults(AttrLayout(P, MAIN)));
    assert [] + [o] == [o];
  }

  lemma ProgramRuns(k: Ctx, fuel: nat, top: int) returns (n: nat)
    requires OK(k) && Hierarchy(k.P) && OrderKnown(k.P) && HasMain(k.P) && k.img.text == ProgramText(k.P)
    ensures Agrees(k.img, fuel, InitialState(k.P, top), RunProgram(k.P, fuel), n)
  {
    hide *;
    MainKnown(k.P);
    BootHere(k.P);
    RunCases(k.P, fuel);
    var s := InitialState(k.P, top);
    var c0, st1, inj1 := BootNew(k, top);
    var r0 := SimInit(k, fuel, inj1, st1, c0, MAIN, VObj(0));
    var o := Init(k.P, fuel, MAIN, VObj(0), st1);
    if !o.Val? {
      InitFinishes(k, fuel, inj1, st1, c0, 0, o, r0);
      n := BootStops(k, fuel, s, 5, c0, o, r0);
    } else {
      ReturnedSelf(k.P, fuel, MAIN, VObj(0), st1);
      var c1 := BootCall(k, fuel, c0, st1, inj1, o, r0);
      var r1 := SimCall(k, fuel, r0.inj, o.st, c1, MAIN, VObj(0), MAINMETH, []);
      ValRuns(k, fuel, inj1, st1, c0, o, r0);
      RunsTrans(k.img, 5, r0.n, s, c0, r0.t);
      RunsTrans(k.img, 5 + r0.n, 1, s, r0.t, c1);
      n := BootHalt(k, fuel, s, 6 + r0.n, c1, r0.inj, o.st, Call(k.P, fuel, MAIN, VObj(0), MAINMETH, [], o.st), r1);
    }
  }

  lemma MainKnown(P: Program)
    requires HasMain(P)
    ensures MAIN in P.classes && Declares(P.classes[MAIN], MAINMETH)
  {
  }

  lemma ValRuns(k: Ctx, fuel: nat, inj: Inj, st: Store, c0: State, o: Outcome, r: Run)
    requires Hierarchy(k.P) && o.Val? && CallGood(k, fuel, inj, st, c0, 0, o, r)
    ensures Runs(k.img, r.n, c0, r.t)
  {
  }

  // ---------------------------------------------------------------------------------------------
  // The other direction: the machine is deterministic.

  /** How the machine ends is how the interpreter ends, once it has more fuel than the machine took steps. */
  lemma EndingsAgree(P: Program, top: int, n: nat, why: Why, out: seq<Output>)
    requires ProgramOK(P) && HasMain(P)
    requires Hierarchy(P) && OrderKnown(P) && forall i :: 0 <= i < |P.order| ==> P.order[i] in P.tag
    requires Halts(ImageOf(P), n, InitialState(P, top), why, out)
    ensures match RunProgram(P, n + 1)
      case Val(_, _, st) => why == Finished && out == st.out
      case Abort(f, out') => why == Faulted(f) && out == out'
      case Timeout => false
      case Wrong => true
  {
    hide ProgramOK, HasMain, Hierarchy, RunProgram, InitialState, ImageOf;
    var m := CompilerCorrect(P, n + 1, top);
    AgreesOnce(ImageOf(P), n, InitialState(P, top), why, out, RunProgram(P, n + 1), m);
  }

  lemma AgreesOnce(img: Image, n: nat, s: State, why: Why, out: seq<Output>, o: Outcome, m: nat)
    requires Halts(img, n, s, why, out) && Agrees(img, n + 1, s, o, m)
    ensures match o
      case Val(_, _, st) => why == Finished && out == st.out
      case Abort(f, out') => why == Faulted(f) && out == out'
      case Timeout => false
      case Wrong => true
  {
    match o
    case Val(_, _, st) => HaltsOnce(img, n, s, why, out, m, Finished, st.out);
    case Abort(f, out') => HaltsOnce(img, n, s, why, out, m, Faulted(f), out');
    case Timeout =>
      var t :| Runs(img, m, s, t);
      StoppedStays(img, n, m, s, why, out, t);
    case Wrong =>
  }

  lemma HaltsOnce(img: Image, n: nat, s: State, why: Why, out: seq<Output>, m: nat, why': Why, out': seq<Output>)
    requires Halts(img, n, s, why, out) && Halts(img, m, s, why', out')
    ensures n == m && why == why' && out == out'
  {
    var t :| Runs(img, m, s, t) && Step(img, t) == Stop(why') && t.out == out';
    StoppedStays(img, n, m, s, why, out, t);
  }

  /** A program runs for ever exactly when no amount of fuel suffices to interpret it. */
  lemma DivergenceAgrees(P: Program, top: int)
    requires ProgramOK(P) && HasMain(P)
    requires Hierarchy(P) && OrderKnown(P) && forall i :: 0 <= i < |P.order| ==> P.order[i] in P.tag
    requires forall fuel: nat :: RunProgram(P, fuel) != Wrong
    ensures (forall fuel: nat :: RunProgram(P, fuel) == Timeout) <==>
            (forall n: nat, why, out :: !Halts(ImageOf(P), n, InitialState(P, top), why, out))
  {
    hide ProgramOK, HasMain, Hierarchy, RunProgram, InitialState, ImageOf, Halts;
    var img, s := ImageOf(P), InitialState(P, top);
    forall n: nat, why, out | Halts(img, n, s, why, out) ensures RunProgram(P, n + 1) != Timeout {
      EndingsAgree(P, top, n, why, out);
    }
    forall fuel: nat | RunProgram(P, fuel) != Timeout
      ensures exists n: nat, why, out :: Halts(img, n, s, why, out)
    {
      var n := CompilerCorrect(P, fuel, top);
      var o := RunProgram(P, fuel);
      assert Halts(img, n, s, if o.Val? then Finished else Faulted(o.f), if o.Val? then o.st.out else o.out);
    }
  }
}
