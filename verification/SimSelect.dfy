/** The tests of a `case`: which branch the emitted chain of interval tests runs. */
module SimSelect {
  import opened CoolNames
  import opened Inheritance
  import opened CoolSyntax
  import opened Layout
  import opened ClassTags
  import opened CoolSemantics
  import opened Mips
  import opened CodeGen
  import opened CodeGenEquations
  import opened SemanticsEquations
  import opened SimRel
  import opened SimFrame
  import opened SimSteps
  import opened SimVars
  import opened SimCalls
  import opened SimObjects
  import opened SimScopes
  import opened SimFinish
  import opened SimDispatch
  import opened SimConstructs

  /** The order of the tests of a `case`. */
  ghost function TestOrder(P: Program, cases: seq<Branch>): (order: seq<nat>)
    ensures forall i :: 0 <= i < |order| ==> order[i] < |cases|
  {
    Arrange(Intervals(P, CaseTypes(cases)))
  }

  /** None of the first `p` tests succeeds for an object of class `c`. */
  ghost predicate NoneBefore(P: Program, c: ClassName, cases: seq<Branch>, p: nat)
    requires p <= |TestOrder(P, cases)| && c in P.tag
  {
    forall q :: 0 <= q < p ==> !Covers(IntervalOf(P, cases[TestOrder(P, cases)[q]].c), P.tag[c])
  }

  lemma TagKnown(k: Ctx, c: ClassName)
    requires OK(k) && Hierarchy(k.P) && c in k.P.classes
    ensures c in k.P.tag && TagWord(k.P, c) == I(k.P.tag[c])
  {
    assert TablesOK(k, c);
  }

  /** The first test that succeeds is that of the closest ancestor. */
  lemma FirstTest(P: Program, c: ClassName, cases: seq<Branch>, p: nat)
    requires WellFormed(P) && Hierarchy(P) && c in P.classes && c in P.tag && GoodBranches(P, CaseTypes(cases))
    requires p < |TestOrder(P, cases)| && NoneBefore(P, c, cases, p)
    requires Covers(IntervalOf(P, cases[TestOrder(P, cases)[p]].c), P.tag[c])
    ensures Closest(P, c, CaseTypes(cases)) == TestOrder(P, cases)[p]
  {
    FirstCoverIsClosest(P, c, CaseTypes(cases), p);
  }

  lemma MoreFail(P: Program, c: ClassName, cases: seq<Branch>, p: nat)
    requires c in P.tag && p < |TestOrder(P, cases)| && NoneBefore(P, c, cases, p)
    requires !Covers(IntervalOf(P, cases[TestOrder(P, cases)[p]].c), P.tag[c])
    ensures NoneBefore(P, c, cases, p + 1)
  {
  }

  /** Every branch has its test. */
  lemma EveryTested(P: Program, cases: seq<Branch>, i: nat) returns (q: nat)
    requires WellFormed(P) && Hierarchy(P) && GoodBranches(P, CaseTypes(cases)) && i < |cases|
    ensures q < |TestOrder(P, cases)| && TestOrder(P, cases)[q] == i
  {
    hide WellFormed, Hierarchy, GoodBranches, Laminar, ArrangeFirst, Ordered;
    var types := CaseTypes(cases);
    HasTags(P);
    IntervalsLaminar(P, types);
    ArrangeFirstOrdered(Intervals(P, types), |types|);
    assert i in ArrangeFirst(Intervals(P, types), |types|);
    assert i in TestOrder(P, cases);
    q :| 0 <= q < |TestOrder(P, cases)| && TestOrder(P, cases)[q] == i;
  }

  lemma HasTags(P: Program)
    requires WellFormed(P)
    ensures Hierarchy(P) && TagsOK(P)
  {
  }

  lemma AncestorCovers(P: Program, c: ClassName, types: seq<ClassName>, i: nat)
    requires WellFormed(P) && Hierarchy(P) && c in P.classes && c in P.tag && i < |types|
    requires types[i] in P.classes && Inherits(P, c, types[i])
    ensures Covers(IntervalOf(P, types[i]), P.tag[c])
  {
    assert TagPair(P, c, types[i]);
  }

  /** When every test fails, no branch names an ancestor. */
  lemma NoTest(P: Program, c: ClassName, cases: seq<Branch>)
    requires WellFormed(P) && Hierarchy(P) && c in P.classes && c in P.tag && GoodBranches(P, CaseTypes(cases))
    requires NoneBefore(P, c, cases, |TestOrder(P, cases)|)
    ensures Closest(P, c, CaseTypes(cases)) == -1
  {
    hide WellFormed, Hierarchy, GoodBranches, Closest, TestOrder, Covers, IntervalOf, Inherits;
    var types := CaseTypes(cases);
    var i := Closest(P, c, types);
    if i != -1 {
      var q := EveryTested(P, cases, i);
      AncestorCovers(P, c, types, i);
    }
  }

  // ---------------------------------------------------------------------------------------------
  // The emitted chain.

  /** The chain starts with its own label and ends with the label of the end of the `case`. */
  lemma {:induction false} CasesEnds(P: Program, cls: ClassName, scope: Scope, tmp: int, cases: seq<Branch>, order: seq<nat>, esac: int, cur: int, l: int)
    requires Hierarchy(P) && forall i :: 0 <= i < |order| ==> order[i] < |cases|
    ensures var code := CompileCases(P, cls, scope, tmp, cases, order, esac, cur, l).code;
      |code| >= 2 && code[0] == LabelDef(Num(cur)) && code[|code| - 1] == LabelDef(Num(esac))
    decreases |order|
  {
    hide *;
    if order == [] {
      CompileCasesNone(P, cls, scope, tmp, cases, esac, cur, l);
    } else {
      CompileCasesMore(P, cls, scope, tmp, cases, order, esac, cur, l);
      var br := cases[order[0]];
      var g0 := Compile(P, cls, scope[br.x := Local(tmp)], tmp - 1, br.body, l + 1);
      CasesEnds(P, cls, scope, tmp, cases, order[1..], esac, l, g0.next);
      TestFirst(IntervalOf(P, br.c), cur, l);
    }
  }

  lemma TestFirst(iv: Interval, cur: int, l: int)
    ensures |BranchTest(iv, cur, l)| == 4 && BranchTest(iv, cur, l)[0] == LabelDef(Num(cur)) && |PUSH| == 2 && |POP| == 1
  {
  }

  /** The tests of one branch: on success the machine is behind them, on failure at the next label. */
  lemma TestRunBranch(k: Ctx, s: State, iv: Interval, cur: int, next: int, tag: int, pc: nat) returns (n: nat, t: State)
    requires UniqueLabels(k.img.text) && CodeAt(k.img.text, s.pc, BranchTest(iv, cur, next))
    requires s.acc.Ref? && s.acc.r in s.heap && |s.heap[s.acc.r]| > 0 && s.heap[s.acc.r][0] == I(tag)
    requires pc < |k.img.text| && k.img.text[pc] == LabelDef(Num(next))
    ensures Runs(k.img, n, s, t) && Quiet(s, t) && t.acc == s.acc
    ensures t.pc == if Covers(iv, tag) then s.pc + 4 else pc
  {
    Fetch(k.img, s.pc, BranchTest(iv, cur, next), 0);
    Fetch(k.img, s.pc, BranchTest(iv, cur, next), 1);
    Fetch(k.img, s.pc, BranchTest(iv, cur, next), 2);
    Fetch(k.img, s.pc, BranchTest(iv, cur, next), 3);
    LabelHere(k, pc, Num(next));
    var s2 := s.(pc := s.pc + 2, t1 := I(tag));
    LoadTag(k.img, s, Num(cur), tag, s2);
    n, t := LowHigh(k.img, s2, iv, next, tag, pc);
    RunsTrans(k.img, 2, n, s, s2, t);
    n := 2 + n;
  }

  lemma LoadTag(img: Image, s: State, l: Label, tag: int, s2: State)
    requires s.pc + 1 < |img.text| && img.text[s.pc] == LabelDef(l) && img.text[s.pc + 1] == Lw(T1, TAG_OFFSET, ACC)
    requires s.acc.Ref? && s.acc.r in s.heap && |s.heap[s.acc.r]| > 0 && s.heap[s.acc.r][0] == I(tag)
    requires s2 == s.(pc := s.pc + 2, t1 := I(tag))
    ensures Runs(img, 2, s, s2)
  {
    RunsTwo(img, s, s.(pc := s.pc + 1), s2);
  }

  lemma LowHigh(img: Image, s: State, iv: Interval, next: int, tag: int, pc: nat) returns (n: nat, t: State)
    requires s.pc + 1 < |img.text| && img.text[s.pc] == Blti(T1, iv.tag, Num(next)) && img.text[s.pc + 1] == Bgti(T1, iv.end, Num(next))
    requires s.t1 == I(tag) && Find(img.text, Num(next)) == pc
    ensures Runs(img, n, s, t) && t == s.(pc := if Covers(iv, tag) then s.pc + 2 else pc)
  {
    t := s.(pc := if Covers(iv, tag) then s.pc + 2 else pc);
    if tag < iv.tag {
      RunsOne(img, s, t);
      n := 1;
    } else {
      RunsTwo(img, s, s.(pc := s.pc + 1), t);
      n := 2;
    }
  }

  /** The end of the chain. */
  lemma NoMatchRun(img: Image, s: State, cur: int, esac: int)
    requires CodeAt(img.text, s.pc, [LabelDef(Num(cur)), AbortCall(CaseNoMatch), LabelDef(Num(esac))])
    ensures Halts(img, 1, s, Faulted(CaseNoMatch), s.out)
  {
    var code := [LabelDef(Num(cur)), AbortCall(CaseNoMatch), LabelDef(Num(esac))];
    Fetch(img, s.pc, code, 0);
    Fetch(img, s.pc, code, 1);
    var s1 := s.(pc := s.pc + 1);
    RunsOne(img, s, s1);
    HaltsNow(img, s1, Faulted(CaseNoMatch));
    HaltsTrans(img, 1, 0, s, s1, Faulted(CaseNoMatch), s.out);
  }

  lemma NoMatch(k: Ctx, fuel: nat, cls: ClassName, self: Value, scope: Scope, tmp: int, env: Env, st: Store, inj: Inj, s: State, cur: int, esac: int, len: nat) returns (r: Run)
    requires Hierarchy(k.P) && Rel(k.P, cls, self, scope, tmp, env, st, inj, s)
    requires CodeAt(k.img.text, s.pc, [LabelDef(Num(cur)), AbortCall(CaseNoMatch), LabelDef(Num(esac))])
    ensures Good(k, fuel, cls, self, scope, tmp, inj, st, s, len, Abort(CaseNoMatch, st.out), r)
  {
    NoMatchRun(k.img, s, cur, esac);
    r := Run(1, s, inj);
  }

  /** What the tests see of the operand. */
  lemma OperandTag(k: Ctx, cls: ClassName, self: Value, scope: Scope, tmp: int, env: Env, st: Store, inj: Inj, s: State, v0: Value)
    requires OK(k) && Hierarchy(k.P) && Rel(k.P, cls, self, scope, tmp, env, st, inj, s) && ValRel(k.P, inj, s.heap, v0, s.acc)
    requires v0 != VVoid && ClassOf(st, v0) in k.P.classes
    ensures ClassOf(st, v0) in k.P.tag && s.acc.Ref? && s.acc.r in s.heap && |s.heap[s.acc.r]| > 0
    ensures s.heap[s.acc.r][0] == I(k.P.tag[ClassOf(st, v0)])
  {
    ClassWord(k.P, inj, s.heap, s.next, st, v0, s.acc);
    TagKnown(k, ClassOf(st, v0));
  }

  lemma QuietVal(k: Ctx, cls: ClassName, self: Value, scope: Scope, tmp: int, env: Env, st: Store, inj: Inj, s: State, v0: Value, t: State)
    requires Hierarchy(k.P) && Rel(k.P, cls, self, scope, tmp, env, st, inj, s) && ValRel(k.P, inj, s.heap, v0, s.acc)
    requires Quiet(s, t) && t.acc == s.acc
    ensures Rel(k.P, cls, self, scope, tmp, env, st, inj, t) && ValRel(k.P, inj, t.heap, v0, t.acc)
  {
    QuietRel(k.P, cls, self, scope, tmp, env, st, inj, s, t);
  }

  /** The pieces of a chain whose first branch compiles to `c0` and whose rest is `rest`. */
  lemma SplitBranch(text: seq<Instr>, pc: nat, iv: Interval, cur: int, l: int, c0: seq<Instr>, esac: int, rest: seq<Instr>)
    requires CodeAt(text, pc, BranchTest(iv, cur, l) + (PUSH + (c0 + (POP + ([B(Num(esac))] + rest)))))
    requires |rest| >= 2 && rest[0] == LabelDef(Num(l)) && rest[|rest| - 1] == LabelDef(Num(esac))
    ensures CodeAt(text, pc, BranchTest(iv, cur, l)) && CodeAt(text, pc + 4, PUSH) && CodeAt(text, pc + 6, c0)
    ensures CodeAt(text, pc + 6 + |c0|, POP) && CodeAt(text, pc + 7 + |c0|, [B(Num(esac))]) && CodeAt(text, pc + 8 + |c0|, rest)
    ensures pc + 8 + |c0| < |text| && text[pc + 8 + |c0|] == LabelDef(Num(l))
    ensures CodeAt(text, pc + 8 + |c0| + |rest| - 1, [LabelDef(Num(esac))])
    ensures |BranchTest(iv, cur, l)| == 4 && |PUSH| == 2 && |POP| == 1
  {
    hide BranchTest, CodeAt;
    TestFirst(iv, cur, l);
    CodeSplit(text, pc, BranchTest(iv, cur, l), PUSH + (c0 + (POP + ([B(Num(esac))] + rest))));
    CodeSplit(text, pc + 4, PUSH, c0 + (POP + ([B(Num(esac))] + rest)));
    CodeSplit(text, pc + 6, c0, POP + ([B(Num(esac))] + rest));
    CodeSplit(text, pc + 6 + |c0|, POP, [B(Num(esac))] + rest);
    CodeSplit(text, pc + 7 + |c0|, [B(Num(esac))], rest);
    RestEnds(text, pc + 8 + |c0|, rest, l, esac);
  }

  lemma RestEnds(text: seq<Instr>, pc: nat, rest: seq<Instr>, l: int, esac: int)
    requires CodeAt(text, pc, rest) && |rest| >= 2 && rest[0] == LabelDef(Num(l)) && rest[|rest| - 1] == LabelDef(Num(esac))
    ensures pc < |text| && text[pc] == LabelDef(Num(l)) && CodeAt(text, pc + |rest| - 1, [LabelDef(Num(esac))])
  {
    hide CodeAt;
    Fetch2(text, pc, rest, 0);
    var n := |rest| - 1;
    assert rest == rest[..n] + [LabelDef(Num(esac))];
    CodeSplit(text, pc, rest[..n], [LabelDef(Num(esac))]);
  }

  lemma Fetch2(text: seq<Instr>, pc: nat, code: seq<Instr>, i: nat)
    requires CodeAt(text, pc, code) && i < |code|
    ensures pc + i < |text| && text[pc + i] == code[i]
  {
    CodeIndex(text, pc, code, i);
  }

  /** The chosen branch has run; the machine jumps to the end of the `case`. */
  lemma BranchDone(k: Ctx, fuel: nat, cls: ClassName, self: Value, scope: Scope, tmp: int, env: Env, st: Store, inj: Inj, s: State, n: nat, t: State, len1: nat, o: Outcome, r1: Run, esac: int, end: nat, len: nat) returns (r: Run)
    requires OK(k) && Hierarchy(k.P) && Rel(k.P, cls, self, scope, tmp, env, st, inj, s) && Runs(k.img, n, s, t) && Quiet(s, t)
    requires Good(k, fuel, cls, self, scope, tmp, inj, st, t, len1, o, r1)
    requires CodeAt(k.img.text, t.pc + len1, [B(Num(esac))]) && CodeAt(k.img.text, end, [LabelDef(Num(esac))]) && end + 1 == s.pc + len
    ensures Good(k, fuel, cls, self, scope, tmp, inj, st, s, len, o, r)
  {
    hide *;
    var q := StartQuiet(k, cls, self, scope, tmp, env, st, inj, s, n, t);
    r := CondDone(k, fuel, cls, self, scope, tmp, inj, st, s, env, st, q, len1, o, r1, true, esac, end, len);
  }

  /** The tests failed; the rest of the chain has run. */
  lemma RestDone(k: Ctx, fuel: nat, cls: ClassName, self: Value, scope: Scope, tmp: int, env: Env, st: Store, inj: Inj, s: State, n: nat, t: State, len1: nat, o: Outcome, r1: Run, len: nat) returns (r: Run)
    requires Hierarchy(k.P) && Rel(k.P, cls, self, scope, tmp, env, st, inj, s) && Runs(k.img, n, s, t) && Quiet(s, t)
    requires Good(k, fuel, cls, self, scope, tmp, inj, st, t, len1, o, r1) && t.pc + len1 == s.pc + len
    ensures Good(k, fuel, cls, self, scope, tmp, inj, st, s, len, o, r)
  {
    hide *;
    var q := StartQuiet(k, cls, self, scope, tmp, env, st, inj, s, n, t);
    r := GoodThen(k, fuel, cls, self, scope, tmp, inj, st, s, env, st, q, len1, len, o, r1);
  }

  /** The check of the operand before the first test. */
  lemma CaseVoidCheck(k: Ctx, fuel: nat, cls: ClassName, self: Value, scope: Scope, tmp: int, inj: Inj, st: Store, s: State, len0: nat, o: Outcome, r0: Run, l: int, rest: seq<Instr>, len: nat) returns (r: Run)
    requires Hierarchy(k.P) && o.Val? && o.v == VVoid && Good(k, fuel, cls, self, scope, tmp, inj, st, s, len0, o, r0)
    requires CodeAt(k.img.text, s.pc + len0, AbortOnVoid(CaseVoid, l))
    ensures Good(k, fuel, cls, self, scope, tmp, inj, st, s, len, Abort(CaseVoid, o.st.out), r)
  {
    VoidRun(k.img, r0.t, CaseVoid, l);
    r := FaultAfter(k, fuel, s, r0.n, r0.t, 3, CaseVoid, o.st.out);
  }

  lemma CaseNotVoid(k: Ctx, fuel: nat, cls: ClassName, self: Value, scope: Scope, tmp: int, inj: Inj, st: Store, s: State, len0: nat, o: Outcome, r0: Run, l: int, pc: nat) returns (q: Run)
    requires OK(k) && Hierarchy(k.P) && o.Val? && o.v != VVoid && Good(k, fuel, cls, self, scope, tmp, inj, st, s, len0, o, r0)
    requires CodeAt(k.img.text, s.pc + len0, AbortOnVoid(CaseVoid, l)) && pc < |k.img.text| && k.img.text[pc] == LabelDef(Num(l))
    ensures Runs(k.img, q.n, s, q.t) && Mid(k.P, cls, self, scope, tmp, inj, st, s, o.env, o.st, q.inj, q.t) && q.t.pc == pc
    ensures Rel(k.P, cls, self, scope, tmp, o.env, o.st, q.inj, q.t) && ValRel(k.P, q.inj, q.t.heap, o.v, q.t.acc)
  {
    hide *;
    Unique(k);
    GoodVal(k, fuel, cls, self, scope, tmp, inj, st, s, len0, o, r0);
    NotVoidWord(k.P, r0.inj, r0.t.heap, r0.t.next, o.st, o.v, r0.t.acc, cls, self, scope, tmp, o.env, r0.t);
    NotVoidRun(k, r0.t, CaseVoid, l, pc);
    QuietStep(r0.t, pc);
    q := Skip(k, cls, self, scope, tmp, inj, st, s, o.env, o.st, r0, 1, r0.t.(pc := pc));
    MidRel(k, cls, self, scope, tmp, inj, st, s, o.env, o.st, q);
  }

  lemma NotVoidWord(P: Program, inj: Inj, h: Heap, next: nat, st: Store, v: Value, w: Word, cls: ClassName, self: Value, scope: Scope, tmp: int, env: Env, s: State)
    requires Hierarchy(P) && Rel(P, cls, self, scope, tmp, env, st, inj, s) && h == s.heap && next == s.next && v != VVoid && ValRel(P, inj, h, v, w)
    ensures w != I(0)
  {
    ClassWord(P, inj, h, next, st, v, w);
  }

  lemma SplitCase(text: seq<Instr>, pc: nat, c0: seq<Instr>, l: int, rest: seq<Instr>)
    requires CodeAt(text, pc, c0 + (AbortOnVoid(CaseVoid, l) + rest)) && |rest| > 0 && rest[0] == LabelDef(Num(l))
    ensures CodeAt(text, pc, c0) && CodeAt(text, pc + |c0|, AbortOnVoid(CaseVoid, l)) && CodeAt(text, pc + |c0| + 4, rest)
    ensures pc + |c0| + 4 < |text| && text[pc + |c0| + 4] == LabelDef(Num(l)) && |AbortOnVoid(CaseVoid, l)| == 4
  {
    CodeSplit(text, pc, c0, AbortOnVoid(CaseVoid, l) + rest);
    CodeSplit(text, pc + |c0|, AbortOnVoid(CaseVoid, l), rest);
    Fetch2(text, pc + |c0| + 4, rest, 0);
  }

  lemma CaseCases(P: Program, fuel: nat, cls: ClassName, self: Value, cases: seq<Branch>, o: Outcome)
    requires Hierarchy(P)
    ensures CaseOutcome(P, fuel, cls, self, cases, o) ==
      if !o.Val? then o
      else if o.v == VVoid then Abort(CaseVoid, o.st.out)
      else if ClassOf(o.st, o.v) !in P.classes || !GoodBranches(P, CaseTypes(cases)) then Wrong
      else Selected(P, fuel, cls, self, o.env, o.st, o.v, cases)
  {
  }

  /** What the selected branch does. */
  ghost function Selected(P: Program, fuel: nat, cls: ClassName, self: Value, env: Env, st: Store, v0: Value, cases: seq<Branch>): Outcome
    requires Hierarchy(P) && ClassOf(st, v0) in P.classes
  {
    var i := Closest(P, ClassOf(st, v0), CaseTypes(cases));
    if i == -1 then Abort(CaseNoMatch, st.out) else BranchOutcome(P, fuel, cls, self, env, st, v0, cases[i])
  }

  lemma SelectedNone(P: Program, fuel: nat, cls: ClassName, self: Value, env: Env, st: Store, v0: Value, cases: seq<Branch>)
    requires WellFormed(P) && Hierarchy(P) && ClassOf(st, v0) in P.classes && ClassOf(st, v0) in P.tag && GoodBranches(P, CaseTypes(cases))
    requires NoneBefore(P, ClassOf(st, v0), cases, |TestOrder(P, cases)|)
    ensures Selected(P, fuel, cls, self, env, st, v0, cases) == Abort(CaseNoMatch, st.out)
  {
    NoTest(P, ClassOf(st, v0), cases);
  }

  lemma SelectedFirst(P: Program, fuel: nat, cls: ClassName, self: Value, env: Env, st: Store, v0: Value, cases: seq<Branch>, p: nat)
    requires WellFormed(P) && Hierarchy(P) && ClassOf(st, v0) in P.classes && ClassOf(st, v0) in P.tag && GoodBranches(P, CaseTypes(cases))
    requires p < |TestOrder(P, cases)| && NoneBefore(P, ClassOf(st, v0), cases, p)
    requires Covers(IntervalOf(P, cases[TestOrder(P, cases)[p]].c), P.tag[ClassOf(st, v0)])
    ensures var br := cases[TestOrder(P, cases)[p]];
      Selected(P, fuel, cls, self, env, st, v0, cases) ==
        if br.x == SELF then Wrong else LeaveScope(env, br.x, Eval(P, fuel, cls, self, env[br.x := v0], st, br.body))
  {
    hide Eval, Closest, TagsOK, Covers, IntervalOf, NoneBefore;
    FirstTest(P, ClassOf(st, v0), cases, p);
  }

  lemma OrderIs(P: Program, cases: seq<Branch>)
    ensures TestOrder(P, cases) == Arrange(Intervals(P, CaseTypes(cases))) && TestOrder(P, cases)[0..] == TestOrder(P, cases)
  {
  }

  lemma NoneYet(P: Program, c: ClassName, cases: seq<Branch>)
    requires c in P.tag
    ensures NoneBefore(P, c, cases, 0)
  {
  }
}
