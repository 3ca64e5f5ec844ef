/**
  The transition-based dependency parser of CS224n: PartialParse, its three transitions, and the driver
  that advances many parses in batches.  Tokens are values of any type.
 */
module TransitionParser {

  datatype Transition = S | LA | RA

  /** The state of a partial parse; the top of the stack is its last element. */
  datatype Parse<T> = Parse(stack: seq<T>, buffer: seq<T>, deps: seq<(T, T)>)

  function Init<T>(root: T, sentence: seq<T>): Parse<T> {
    Parse([root], sentence, [])
  }

  predicate Legal<T>(p: Parse<T>, t: Transition) {
    match t
    case S => |p.buffer| > 0
    case _ => |p.stack| >= 2
  }

  function Apply<T>(p: Parse<T>, t: Transition): Parse<T>
    requires Legal(p, t)
  {
    var n := |p.stack|;
    match t
    case S => Parse(p.stack + [p.buffer[0]], p.buffer[1..], p.deps)
    case LA => Parse(p.stack[..n - 2] + [p.stack[n - 1]], p.buffer, p.deps + [(p.stack[n - 1], p.stack[n - 2])])
    case RA => Parse(p.stack[..n - 1], p.buffer, p.deps + [(p.stack[n - 2], p.stack[n - 1])])
  }

  predicate Done<T>(p: Parse<T>) {
    |p.buffer| == 0 && |p.stack| == 1
  }

  /** Every transition of the list is legal when its turn comes. */
  predicate LegalRun<T>(p: Parse<T>, ts: seq<Transition>)
    decreases |ts|
  {
    ts == [] || (Legal(p, ts[0]) && LegalRun(Apply(p, ts[0]), ts[1..]))
  }

  function Run<T>(p: Parse<T>, ts: seq<Transition>): Parse<T>
    requires LegalRun(p, ts)
    decreases |ts|
  {
    if ts == [] then p else Run(Apply(p, ts[0]), ts[1..])
  }

  /** How many transitions are left. */
  function Left<T>(p: Parse<T>): int {
    2 * |p.buffer| + |p.stack| - 1
  }

  lemma StepCounts<T>(p: Parse<T>, t: Transition)
    requires Legal(p, t)
    ensures Left(Apply(p, t)) == Left(p) - 1
    ensures |p.stack| >= 1 ==> |Apply(p, t).stack| >= 1
  {
  }

  /** A run from start to end takes two transitions per token and makes one arc per token, whatever they are. */
  lemma {:induction false} RunCounts<T>(p: Parse<T>, ts: seq<Transition>)
    requires LegalRun(p, ts) && |p.stack| >= 1
    ensures |ts| == Left(p) - Left(Run(p, ts)) && |Run(p, ts).stack| >= 1
    ensures |Run(p, ts).deps| + |Run(p, ts).stack| + |Run(p, ts).buffer| == |p.deps| + |p.stack| + |p.buffer|
    decreases |ts|
  {
    if ts != [] {
      StepCounts(p, ts[0]);
      RunCounts(Apply(p, ts[0]), ts[1..]);
    }
  }

  lemma {:induction false} RunConcat<T>(p: Parse<T>, ts: seq<Transition>, us: seq<Transition>)
    requires LegalRun(p, ts) && LegalRun(Run(p, ts), us)
    ensures LegalRun(p, ts + us) && Run(p, ts + us) == Run(Run(p, ts), us)
    decreases |ts|
  {
    if ts == [] {
      assert ts + us == us;
    } else {
      assert (ts + us)[1..] == ts[1..] + us;
      RunConcat(Apply(p, ts[0]), ts[1..], us);
    }
  }

  // ---------------------------------------------------------------------------------------------
  // Tokens are never inspected.

  function MapSeq<T, U>(f: T -> U, s: seq<T>): (r: seq<U>)
    ensures |r| == |s| && forall i :: 0 <= i < |s| ==> r[i] == f(s[i])
  {
    seq(|s|, i requires 0 <= i < |s| => f(s[i]))
  }

  function MapArcs<T, U>(f: T -> U, s: seq<(T, T)>): (r: seq<(U, U)>)
    ensures |r| == |s| && forall i :: 0 <= i < |s| ==> r[i] == (f(s[i].0), f(s[i].1))
  {
    seq(|s|, i requires 0 <= i < |s| => (f(s[i].0), f(s[i].1)))
  }

  function MapParse<T, U>(f: T -> U, p: Parse<T>): Parse<U> {
    Parse(MapSeq(f, p.stack), MapSeq(f, p.buffer), MapArcs(f, p.deps))
  }

  lemma MapStep<T, U>(f: T -> U, p: Parse<T>, t: Transition)
    requires Legal(p, t)
    ensures Legal(MapParse(f, p), t) && Apply(MapParse(f, p), t) == MapParse(f, Apply(p, t))
  {
    var a, b := Apply(MapParse(f, p), t), MapParse(f, Apply(p, t));
    assert a.stack == b.stack && a.buffer == b.buffer && a.deps == b.deps;
  }

  /** Parsing words is parsing their positions and then reading the words off. */
  lemma {:induction false} MapRun<T, U>(f: T -> U, p: Parse<T>, ts: seq<Transition>)
    requires LegalRun(p, ts)
    ensures LegalRun(MapParse(f, p), ts) && Run(MapParse(f, p), ts) == MapParse(f, Run(p, ts))
    decreases |ts|
  {
    if ts != [] {
      MapStep(f, p, ts[0]);
      MapRun(f, Apply(p, ts[0]), ts[1..]);
    }
  }

  // ---------------------------------------------------------------------------------------------
  // PartialParse.

  class PartialParse<T> {
    const sentence: seq<T>
    var stack: seq<T>
    var buffer: seq<T>
    var dependencies: seq<(T, T)>

    constructor (root: T, sentence: seq<T>)
      ensures this.sentence == sentence && State() == Init(root, sentence)
    {
      this.sentence, stack, buffer, dependencies := sentence, [root], sentence, [];
    }

    function State(): Parse<T>
      reads this
    {
      Parse(stack, buffer, dependencies)
    }

    method ParseStep(t: Transition)
      requires Legal(State(), t)
      modifies this
      ensures State() == Apply(old(State()), t)
    {
      match t
      case S =>
        var w := buffer[0];
        buffer := buffer[1..];
        stack := stack + [w];
      case LA =>
        var s2 := stack[|stack| - 2];
        var s1 := stack[|stack| - 1];
        stack := stack[..|stack| - 1];
        dependencies := dependencies + [(s1, s2)];
        stack := stack[|stack| - 1 := s1];
        assert stack == Apply(old(State()), t).stack;
      case RA =>
        var s2 := stack[|stack| - 2];
        var s1 := stack[|stack| - 1];
        stack := stack[..|stack| - 1];
        dependencies := dependencies + [(s2, s1)];
    }

    method RunAll(transitions: seq<Transition>) returns (deps: seq<(T, T)>)
      requires LegalRun(State(), transitions)
      modifies this
      ensures State() == Run(old(State()), transitions) && deps == dependencies
    {
      var i := 0;
      assert transitions[0..] == transitions;
      while i < |transitions|
        invariant 0 <= i <= |transitions| && LegalRun(State(), transitions[i..])
        invariant Run(State(), transitions[i..]) == Run(old(State()), transitions)
      {
        assert transitions[i..][1..] == transitions[i + 1..];
        ParseStep(transitions[i]);
        i := i + 1;
      }
      deps := dependencies;
    }

    predicate IsDone()
      reads this
    {
      |buffer| == 0 && |stack| == 1
    }
  }

  // ---------------------------------------------------------------------------------------------
  // minibatch_parse.

  /** The model always predicts a legal transition. */
  ghost predicate Predicts<T(!new)>(model: Parse<T> -> Transition) {
    forall p: Parse<T> {:trigger model(p)} :: |p.stack| >= 1 && !Done(p) ==> Legal(p, model(p))
  }

  /** Parsing one sentence alone, transition by transition. */
  ghost function Solo<T(!new)>(model: Parse<T> -> Transition, p: Parse<T>): Parse<T>
    requires Predicts(model) && |p.stack| >= 1
    decreases Left(p)
  {
    if Done(p) then p else Solo(model, Apply(p, model(p)))
  }

  lemma {:induction false} SoloDone<T(!new)>(model: Parse<T> -> Transition, p: Parse<T>)
    requires Predicts(model) && |p.stack| >= 1
    ensures Done(Solo(model, p))
    decreases Left(p)
  {
    if !Done(p) {
      SoloDone(model, Apply(p, model(p)));
    }
  }

  /** The work left in all parses together. */
  ghost function Work<T>(ps: seq<Parse<T>>): int {
    if ps == [] then 0 else Left(ps[0]) + Work(ps[1..])
  }

  lemma {:induction false} WorkUpdate<T>(ps: seq<Parse<T>>, i: nat, p: Parse<T>)
    requires i < |ps|
    ensures Work(ps[i := p]) == Work(ps) - Left(ps[i]) + Left(p)
    decreases |ps|
  {
    if i == 0 {
      assert ps[0 := p][1..] == ps[1..];
    } else {
      assert ps[i := p][1..] == ps[1..][i - 1 := p];
      WorkUpdate(ps[1..], i - 1, p);
    }
  }

  lemma {:induction false} WorkPositive<T>(ps: seq<Parse<T>>)
    requires forall i :: 0 <= i < |ps| ==> |ps[i].stack| >= 1
    ensures Work(ps) >= 0
    decreases |ps|
  {
    if ps != [] {
      WorkPositive(ps[1..]);
    }
  }

  ghost predicate Separate<O>(s: seq<O>) {
    forall i, j :: 0 <= i < j < |s| ==> s[i] != s[j]
  }

  ghost function States<T>(pps: seq<PartialParse<T>>): (r: seq<Parse<T>>)
    reads pps
    ensures |r| == |pps| && forall i :: 0 <= i < |r| ==> r[i] == pps[i].State()
  {
    seq(|pps|, i requires 0 <= i < |pps| reads pps => pps[i].State())
  }

  /** Each parse is on the way to where its sentence alone would go. */
  ghost predicate Tracks<T(!new)>(model: Parse<T> -> Transition, root: T, sentences: seq<seq<T>>, ps: seq<Parse<T>>)
    requires Predicts(model)
  {
    && |ps| == |sentences|
    && forall i :: 0 <= i < |ps| ==> |ps[i].stack| >= 1 && Solo(model, ps[i]) == Solo(model, Init(root, sentences[i]))
  }

  lemma TracksStep<T(!new)>(model: Parse<T> -> Transition, root: T, sentences: seq<seq<T>>, ps: seq<Parse<T>>, i: nat, p: Parse<T>)
    requires Predicts(model) && Tracks(model, root, sentences, ps) && i < |ps| && !Done(ps[i]) && p == Apply(ps[i], model(ps[i]))
    ensures Tracks(model, root, sentences, ps[i := p]) && Work(ps[i := p]) == Work(ps) - 1
  {
    StepCounts(ps[i], model(ps[i]));
    WorkUpdate(ps, i, p);
  }

  lemma TracksWork<T(!new)>(model: Parse<T> -> Transition, root: T, sentences: seq<seq<T>>, ps: seq<Parse<T>>)
    requires Predicts(model) && Tracks(model, root, sentences, ps)
    ensures Work(ps) >= 0
  {
    WorkPositive(ps);
  }

  /** `unfinished` holds the parses that are not done, each once. */
  ghost predicate Unfinished<T>(pps: seq<PartialParse<T>>, unfinished: seq<PartialParse<T>>)
    reads pps, unfinished
  {
    && Separate(unfinished)
    && (forall pp :: pp in unfinished ==> pp in pps && !pp.IsDone())
    && forall pp :: pp in pps && !pp.IsDone() ==> pp in unfinished
  }

  method CreateAll<T(!new)>(root: T, sentences: seq<seq<T>>) returns (pps: seq<PartialParse<T>>)
    ensures |pps| == |sentences| && Separate(pps) && fresh(pps)
    ensures forall i :: 0 <= i < |pps| ==> pps[i].State() == Init(root, sentences[i])
  {
    pps := [];
    var i := 0;
    while i < |sentences|
      invariant 0 <= i <= |sentences| && |pps| == i && Separate(pps) && fresh(pps)
      invariant forall j :: 0 <= j < i ==> pps[j].State() == Init(root, sentences[j])
    {
      var pp := new PartialParse(root, sentences[i]);
      pps := pps + [pp];
      i := i + 1;
    }
  }

  /** filter_done_pp */
  method FilterDone<T(!new)>(pps: seq<PartialParse<T>>) returns (r: seq<PartialParse<T>>)
    requires Separate(pps)
    ensures Separate(r) && forall pp :: pp in r <==> pp in pps && !pp.IsDone()
  {
    r := [];
    var i := 0;
    while i < |pps|
      invariant 0 <= i <= |pps| && Separate(r)
      invariant forall pp :: pp in r <==> pp in pps[..i] && !pp.IsDone()
    {
      assert pps[..i + 1] == pps[..i] + [pps[i]];
      if !pps[i].IsDone() {
        r := r + [pps[i]];
      }
      i := i + 1;
    }
    assert pps[..i] == pps;
  }

  /** model.predict on a batch. */
  method Predict<T(!new)>(model: Parse<T> -> Transition, batch: seq<PartialParse<T>>) returns (ts: seq<Transition>)
    ensures |ts| == |batch| && forall i :: 0 <= i < |ts| ==> ts[i] == model(batch[i].State())
  {
    ts := [];
    var i := 0;
    while i < |batch|
      invariant 0 <= i <= |batch| && |ts| == i && forall j :: 0 <= j < i ==> ts[j] == model(batch[j].State())
    {
      ts := ts + [model(batch[i].State())];
      i := i + 1;
    }
  }

  /** One step of one parse of the batch, seen by the list of all parses. */
  method Advance<T(!new)>(pp: PartialParse<T>, t: Transition, ghost pps: seq<PartialParse<T>>, ghost i: nat)
    requires Separate(pps) && i < |pps| && pps[i] == pp && Legal(pp.State(), t)
    modifies pp
    ensures States(pps) == old(States(pps))[i := Apply(old(pp.State()), t)]
    ensures forall q: PartialParse<T> {:trigger q.State()} {:trigger q.IsDone()} :: q in pps && q != pp ==>
      q.State() == old(q.State()) && q.IsDone() == old(q.IsDone())
  {
    pp.ParseStep(t);
    forall j | 0 <= j < |pps| && j != i ensures pps[j] != pp {
      assert i < j || j < i;
    }
  }

  /** The inner loop: every parse of the batch takes the step predicted for it. */
  method StepBatch<T(!new)>(batch: seq<PartialParse<T>>, transitions: seq<Transition>, ghost model: Parse<T> -> Transition, ghost root: T, ghost sentences: seq<seq<T>>, ghost pps: seq<PartialParse<T>>)
    requires Predicts(model) && Separate(pps) && Separate(batch) && |transitions| == |batch|
    requires forall i :: 0 <= i < |batch| ==> batch[i] in pps && !batch[i].IsDone() && transitions[i] == model(batch[i].State())
    requires Tracks(model, root, sentences, States(pps))
    modifies pps
    ensures Tracks(model, root, sentences, States(pps)) && Work(States(pps)) == old(Work(States(pps))) - |batch|
    ensures forall pp: PartialParse<T> {:trigger pp.IsDone()} :: pp in pps && old(pp.IsDone()) ==> pp.IsDone()
  {
    var i := 0;
    while i < |batch|
      invariant 0 <= i <= |batch| && Tracks(model, root, sentences, States(pps))
      invariant Work(States(pps)) == old(Work(States(pps))) - i
      invariant forall pp: PartialParse<T> {:trigger pp.IsDone()} :: pp in pps && old(pp.IsDone()) ==> pp.IsDone()
      invariant forall j :: i <= j < |batch| ==> !batch[j].IsDone() && transitions[j] == model(batch[j].State())
    {
      ghost var k: nat :| k < |pps| && pps[k] == batch[i];
      ghost var ps := States(pps);
      TracksStep(model, root, sentences, ps, k, Apply(ps[k], model(ps[k])));
      Advance(batch[i], transitions[i], pps, k);
      i := i + 1;
    }
  }

  /** unfinished_parses[:batch_size] */
  method TakeBatch<O>(unfinished: seq<O>, batchSize: nat) returns (batch: seq<O>)
    requires |unfinished| > 0 && batchSize >= 1 && Separate(unfinished)
    ensures |batch| > 0 && Separate(batch)
    ensures forall i :: 0 <= i < |batch| ==> batch[i] in unfinished
  {
    batch := if |unfinished| <= batchSize then unfinished else unfinished[..batchSize];
  }

  /** One round: a batch of unfinished parses is predicted for and stepped. */
  method Round<T(!new)>(unfinished: seq<PartialParse<T>>, model: Parse<T> -> Transition, batchSize: nat, ghost root: T, ghost sentences: seq<seq<T>>, ghost pps: seq<PartialParse<T>>)
    returns (still: seq<PartialParse<T>>)
    requires Predicts(model) && Separate(pps) && batchSize >= 1 && |unfinished| > 0
    requires Unfinished(pps, unfinished) && Tracks(model, root, sentences, States(pps))
    modifies pps
    ensures Unfinished(pps, still) && Tracks(model, root, sentences, States(pps))
    ensures Work(States(pps)) < old(Work(States(pps)))
  {
    hide Tracks, Work, Predicts, Done, Legal, Apply, Solo, States;
    var batch := TakeBatch(unfinished, batchSize);
    var transitions := Predict(model, batch);
    StepBatch(batch, transitions, model, root, sentences, pps);
    still := FilterDone(unfinished);
  }

  /** Batching does not change what any sentence is parsed to. */
  method MinibatchParse<T(!new)>(sentences: seq<seq<T>>, root: T, model: Parse<T> -> Transition, batchSize: nat) returns (dependencies: seq<seq<(T, T)>>)
    requires Predicts(model) && batchSize >= 1
    ensures |dependencies| == |sentences|
    ensures forall i :: 0 <= i < |sentences| ==>
      Done(Solo(model, Init(root, sentences[i]))) && dependencies[i] == Solo(model, Init(root, sentences[i])).deps
  {
    hide Work, Predicts;
    var partialParses := CreateAll(root, sentences);
    var unfinished := FilterDone(partialParses);
    while |unfinished| > 0
      invariant fresh(partialParses) && Unfinished(partialParses, unfinished)
      invariant Tracks(model, root, sentences, States(partialParses))
      decreases Work(States(partialParses))
    {
      TracksWork(model, root, sentences, States(partialParses));
      unfinished := Round(unfinished, model, batchSize, root, sentences, partialParses);
      TracksWork(model, root, sentences, States(partialParses));
    }
    dependencies := Collect(partialParses);
    AllDone(model, root, sentences, partialParses, unfinished);
    forall i | 0 <= i < |sentences| ensures Done(Solo(model, Init(root, sentences[i]))) {
      SoloDone(model, Init(root, sentences[i]));
    }
  }

  lemma AllDone<T(!new)>(model: Parse<T> -> Transition, root: T, sentences: seq<seq<T>>, pps: seq<PartialParse<T>>, unfinished: seq<PartialParse<T>>)
    requires Predicts(model) && Tracks(model, root, sentences, States(pps)) && Unfinished(pps, unfinished) && unfinished == []
    ensures |pps| == |sentences| && forall i :: 0 <= i < |pps| ==> pps[i].dependencies == Solo(model, Init(root, sentences[i])).deps
  {
    forall i | 0 <= i < |pps| ensures pps[i].dependencies == Solo(model, Init(root, sentences[i])).deps {
      assert pps[i].IsDone() && States(pps)[i] == pps[i].State();
    }
  }

  method Collect<T(!new)>(pps: seq<PartialParse<T>>) returns (r: seq<seq<(T, T)>>)
    ensures |r| == |pps| && forall i :: 0 <= i < |pps| ==> r[i] == pps[i].dependencies
  {
    r := [];
    var i := 0;
    while i < |pps|
      invariant 0 <= i <= |pps| && |r| == i && forall j :: 0 <= j < i ==> r[j] == pps[j].dependencies
    {
      r := r + [pps[i].dependencies];
      i := i + 1;
    }
  }
}
