/**
  What the transition parser can produce, over token positions: every complete run yields a projective
  tree, and every projective tree rooted at ROOT is the result of some run.
 */
module ParseTrees {
  import opened TransitionParser

  /** The head of each token that has one. */
  type Heads = map<nat, nat>

  /** `k` steps from dependent to head lead from `x` to `r`. */
  ghost predicate Chain(h: Heads, x: nat, r: nat, k: nat)
    decreases k
  {
    if k == 0 then x == r else x in h && Chain(h, h[x], r, k - 1)
  }

  ghost predicate Reaches(h: Heads, x: nat, r: nat) {
    exists k: nat :: Chain(h, x, r, k)
  }

  /** Every token but the root has one head, and following heads leads to the root: no cycles. */
  ghost predicate IsTree(h: Heads, n: nat, r: nat) {
    && r <= n
    && (forall x: nat :: x in h <==> x <= n && x != r)
    && (forall x: nat :: x in h ==> h[x] <= n)
    && forall x: nat :: x <= n ==> Reaches(h, x, r)
  }

  predicate Between(a: nat, b: nat, y: nat) {
    (a < y < b) || (b < y < a)
  }

  predicate Outside(a: nat, b: nat, y: nat) {
    (y < a && y < b) || (a < y && b < y)
  }

  /** Drawn above the sentence, the arcs of `x` and `y` cross. */
  predicate Cross(h: Heads, x: nat, y: nat)
    requires x in h && y in h
  {
    (Between(x, h[x], y) && Outside(x, h[x], h[y])) || (Between(x, h[x], h[y]) && Outside(x, h[x], y))
  }

  ghost predicate NonCrossing(h: Heads) {
    forall x: nat, y: nat :: x in h && y in h ==> !Cross(h, x, y)
  }

  /** The dependencies are the arcs of `h`, one for each token with a head. */
  ghost predicate DepsAre(deps: seq<(nat, nat)>, h: Heads) {
    && |deps| == |h|
    && (forall i :: 0 <= i < |deps| ==> deps[i].1 in h && deps[i].0 == h[deps[i].1])
    && forall d: nat :: d in h ==> (h[d], d) in deps
  }

  /** The positions from `a` to `n`. */
  function Positions(a: nat, n: nat): (s: seq<nat>)
    requires a <= n + 1
    ensures |s| == n + 1 - a && forall i :: 0 <= i < |s| ==> s[i] == a + i
  {
    seq(n + 1 - a, i requires 0 <= i < n + 1 - a => a + i)
  }

  /** ROOT is position 0 and the words are 1 to n. */
  function Start(n: nat): Parse<nat> {
    Init(0, Positions(1, n))
  }

  lemma {:induction false} ChainMore(h: Heads, h': Heads, x: nat, r: nat, k: nat)
    requires Chain(h, x, r, k) && forall y: nat :: y in h ==> y in h' && h'[y] == h[y]
    ensures Chain(h', x, r, k)
    decreases k
  {
    if k != 0 {
      ChainMore(h, h', h[x], r, k - 1);
    }
  }

  lemma {:induction false} ChainConcat(h: Heads, x: nat, y: nat, z: nat, j: nat, k: nat)
    requires Chain(h, x, y, j) && Chain(h, y, z, k)
    ensures Chain(h, x, z, j + k)
    decreases j
  {
    if j != 0 {
      ChainConcat(h, h[x], y, z, j - 1, k);
    }
  }

  lemma ReachesSelf(h: Heads, x: nat)
    ensures Reaches(h, x, x)
  {
    assert Chain(h, x, x, 0);
  }

  lemma ReachesTrans(h: Heads, x: nat, y: nat, z: nat)
    requires Reaches(h, x, y) && Reaches(h, y, z)
    ensures Reaches(h, x, z)
  {
    var j: nat :| Chain(h, x, y, j);
    var k: nat :| Chain(h, y, z, k);
    ChainConcat(h, x, y, z, j, k);
  }

  lemma ReachesHead(h: Heads, x: nat)
    requires x in h
    ensures Reaches(h, x, h[x])
  {
    assert Chain(h, h[x], h[x], 0);
    assert Chain(h, x, h[x], 1);
  }

  lemma ReachesMore(h: Heads, x: nat, r: nat, d: nat, hd: nat)
    requires Reaches(h, x, r) && d !in h
    ensures Reaches(h[d := hd], x, r)
  {
    var k: nat :| Chain(h, x, r, k);
    ChainMore(h, h[d := hd], x, r, k);
  }

  // ---------------------------------------------------------------------------------------------
  // Soundness.

  /** Token `x` of the stretch hangs below the root `r` of the stretch, under an arc that does not cover `r`. */
  ghost predicate Hangs(h: Heads, lo: nat, hi: nat, r: nat, x: nat) {
    x in h && lo <= h[x] < hi && Reaches(h, x, r) && !Between(x, h[x], r)
  }

  /** The tokens from `lo` up to `hi` form a finished subtree with root `r`. */
  ghost predicate Subtree(h: Heads, lo: nat, hi: nat, r: nat) {
    && lo <= r < hi && r !in h
    && forall x: nat {:trigger Hangs(h, lo, hi, r, x)} :: lo <= x < hi && x != r ==> Hangs(h, lo, hi, r, x)
  }

  lemma SubtreeKept(h: Heads, lo: nat, hi: nat, r: nat, d: nat, hd: nat)
    requires Subtree(h, lo, hi, r) && d !in h && !(lo <= d < hi)
    ensures Subtree(h[d := hd], lo, hi, r)
  {
    var h' := h[d := hd];
    forall x: nat | lo <= x < hi && x != r ensures Hangs(h', lo, hi, r, x) {
      assert Hangs(h, lo, hi, r, x);
      ReachesMore(h, x, r, d, hd);
    }
  }

  /** Two neighbouring subtrees become one when the root of one becomes a dependent of the other's. */
  lemma SubtreeMerge(h: Heads, lo: nat, mid: nat, hi: nat, s2: nat, s1: nat, left: bool)
    requires Subtree(h, lo, mid, s2) && Subtree(h, mid, hi, s1)
    ensures Subtree(if left then h[s2 := s1] else h[s1 := s2], lo, hi, if left then s1 else s2)
  {
    var d, r := if left then s2 else s1, if left then s1 else s2;
    var h' := h[d := r];
    forall x: nat | lo <= x < hi && x != r ensures Hangs(h', lo, hi, r, x) {
      ReachesHead(h', d);
      if x != d {
        var own := if x < mid then s2 else s1;
        assert if x < mid then Hangs(h, lo, mid, s2, x) else Hangs(h, mid, hi, s1, x);
        ReachesMore(h, x, own, d, r);
        if own == d {
          ReachesTrans(h', x, d, r);
        }
      }
    }
  }

  /** The new arc crosses none of the old ones. */
  lemma NewArc(h: Heads, lo: nat, mid: nat, hi: nat, s2: nat, s1: nat, left: bool)
    requires Subtree(h, lo, mid, s2) && Subtree(h, mid, hi, s1) && NonCrossing(h)
    requires forall x: nat :: x in h ==> x < hi && (x < lo ==> h[x] < lo)
    ensures NonCrossing(if left then h[s2 := s1] else h[s1 := s2])
  {
    var d, r := if left then s2 else s1, if left then s1 else s2;
    var h' := h[d := r];
    forall x: nat, y: nat | x in h' && y in h' ensures !Cross(h', x, y) {
      var z := if x == d then y else x;
      if (x == d) != (y == d) && z >= lo {
        assert if z < mid then Hangs(h, lo, mid, s2, z) else Hangs(h, mid, hi, s1, z);
      } else if x != d && y != d {
        assert !Cross(h, x, y);
      }
    }
  }

  /** The stack holds the roots of adjacent subtrees. */
  ghost predicate Stacked(h: Heads, bounds: seq<nat>, stack: seq<nat>)
    requires |bounds| == |stack| + 1
  {
    forall i :: 0 <= i < |stack| ==> Subtree(h, bounds[i], bounds[i + 1], stack[i])
  }

  /** No arc leaves a prefix of the subtrees. */
  ghost predicate Closed(h: Heads, bounds: seq<nat>) {
    && (forall i, x: nat :: 0 <= i < |bounds| && x in h && x < bounds[i] ==> h[x] < bounds[i])
    && forall x: nat :: x in h ==> |bounds| > 0 && x < bounds[|bounds| - 1]
  }

  /** What holds after every legal run: the stack holds the roots of adjacent subtrees that end where the buffer starts. */
  ghost predicate Inv(p: Parse<nat>, n: nat, h: Heads, bounds: seq<nat>) {
    var m := |p.stack|;
    && m >= 1 && |bounds| == m + 1 && bounds[0] == 0 && bounds[m] <= n + 1
    && p.buffer == Positions(bounds[m], n)
    && Stacked(h, bounds, p.stack) && Closed(h, bounds)
    && NonCrossing(h) && DepsAre(p.deps, h)
  }

  lemma StartInv(n: nat)
    ensures Inv(Start(n), n, map[], [0, 1])
  {
  }

  lemma ShiftInv(p: Parse<nat>, n: nat, h: Heads, bounds: seq<nat>)
    requires Inv(p, n, h, bounds) && Legal(p, S)
    ensures Inv(Apply(p, S), n, h, bounds + [bounds[|bounds| - 1] + 1])
  {
    var q, b := Apply(p, S), bounds[|bounds| - 1];
    var bounds' := bounds + [b + 1];
    assert q.buffer == Positions(b + 1, n);
    forall i | 0 <= i < |q.stack| ensures Subtree(h, bounds'[i], bounds'[i + 1], q.stack[i]) {
    }
  }

  /** One more arc. */
  lemma MoreDeps(deps: seq<(nat, nat)>, h: Heads, d: nat, r: nat)
    requires DepsAre(deps, h) && d !in h
    ensures DepsAre(deps + [(r, d)], h[d := r])
  {
    var deps', h' := deps + [(r, d)], h[d := r];
    assert deps'[|deps|] == (r, d);
    forall x: nat | x in h' ensures (h'[x], x) in deps' {
      if x != d {
        assert (h[x], x) in deps;
      }
    }
  }

  /** The subtrees below the two that an arc joins are as before. */
  lemma StackedArc(p: Parse<nat>, n: nat, h: Heads, bounds: seq<nat>, d: nat, r: nat, h': Heads, bounds': seq<nat>)
    requires Inv(p, n, h, bounds) && |p.stack| >= 2 && bounds[|p.stack| - 2] <= d && d !in h && h' == h[d := r]
    requires bounds' == bounds[..|p.stack| - 1] + [bounds[|p.stack|]]
    requires Subtree(h', bounds[|p.stack| - 2], bounds[|p.stack|], r)
    ensures Stacked(h', bounds', p.stack[..|p.stack| - 2] + [r])
  {
    hide NonCrossing, DepsAre, Positions, Subtree, Closed;
    var m := |p.stack|;
    var stack' := p.stack[..m - 2] + [r];
    forall i | 0 <= i < m - 1 ensures Subtree(h', bounds'[i], bounds'[i + 1], stack'[i]) {
      if i < m - 2 {
        BoundsGrow(p, n, h, bounds, i + 1, m - 2);
        SubtreeKept(h, bounds[i], bounds[i + 1], p.stack[i], d, r);
      }
    }
  }

  lemma ClosedArc(p: Parse<nat>, n: nat, h: Heads, bounds: seq<nat>, d: nat, r: nat, h': Heads, bounds': seq<nat>)
    requires Inv(p, n, h, bounds) && |p.stack| >= 2 && h' == h[d := r] && bounds' == bounds[..|p.stack| - 1] + [bounds[|p.stack|]]
    requires bounds[|p.stack| - 2] <= d < bounds[|p.stack|] && r < bounds[|p.stack|]
    ensures Closed(h', bounds')
  {
    hide Stacked, NonCrossing, DepsAre, Positions;
    var m := |p.stack|;
    forall i, x: nat | 0 <= i < m && x in h' && x < bounds'[i] ensures h'[x] < bounds'[i] {
      var j := if i == m - 1 then m else i;
      assert bounds'[i] == bounds[j];
      if x == d && i < m - 1 {
        BoundsGrow(p, n, h, bounds, i, m - 2);
      }
    }
  }

  lemma ArcInv(p: Parse<nat>, n: nat, h: Heads, bounds: seq<nat>, t: Transition) returns (h': Heads, bounds': seq<nat>)
    requires Inv(p, n, h, bounds) && t != S && Legal(p, t)
    ensures Inv(Apply(p, t), n, h', bounds')
  {
    var m := |p.stack|;
    var s2, s1 := p.stack[m - 2], p.stack[m - 1];
    var d, r := if t == LA then s2 else s1, if t == LA then s1 else s2;
    h', bounds' := h[d := r], bounds[..m - 1] + [bounds[m]];
    hide *;
    Neighbours(p, n, h, bounds);
    ApplyArc(p, t);
    SubtreeMerge(h, bounds[m - 2], bounds[m - 1], bounds[m], s2, s1, t == LA);
    NewArc(h, bounds[m - 2], bounds[m - 1], bounds[m], s2, s1, t == LA);
    MoreDeps(p.deps, h, d, r);
    StackedArc(p, n, h, bounds, d, r, h', bounds');
    ClosedArc(p, n, h, bounds, d, r, h', bounds');
    MakeInv(p, n, h, bounds, Apply(p, t), h', bounds');
  }

  lemma ApplyArc(p: Parse<nat>, t: Transition)
    requires t != S && Legal(p, t)
    ensures var m := |p.stack|;
      var s2, s1 := p.stack[m - 2], p.stack[m - 1];
      Apply(p, t) == Parse(p.stack[..m - 2] + [if t == LA then s1 else s2], p.buffer, p.deps + [if t == LA then (s1, s2) else (s2, s1)])
  {
    var m := |p.stack|;
    assert p.stack[..m - 1] == p.stack[..m - 2] + [p.stack[m - 2]];
  }

  lemma MakeInv(p: Parse<nat>, n: nat, h: Heads, bounds: seq<nat>, q: Parse<nat>, h': Heads, bounds': seq<nat>)
    requires Inv(p, n, h, bounds) && |p.stack| >= 2 && |q.stack| == |p.stack| - 1 && q.buffer == p.buffer
    requires bounds' == bounds[..|p.stack| - 1] + [bounds[|p.stack|]]
    requires Stacked(h', bounds', q.stack) && Closed(h', bounds') && NonCrossing(h') && DepsAre(q.deps, h')
    ensures Inv(q, n, h', bounds')
  {
    hide Stacked, Closed, NonCrossing, DepsAre, Positions;
  }

  /** The two topmost subtrees. */
  lemma Neighbours(p: Parse<nat>, n: nat, h: Heads, bounds: seq<nat>)
    requires Inv(p, n, h, bounds) && |p.stack| >= 2
    ensures var m := |p.stack|;
      && |bounds| == m + 1 && NonCrossing(h) && DepsAre(p.deps, h)
      && Subtree(h, bounds[m - 2], bounds[m - 1], p.stack[m - 2]) && Subtree(h, bounds[m - 1], bounds[m], p.stack[m - 1])
      && bounds[m - 2] <= p.stack[m - 2] < bounds[m - 1] <= p.stack[m - 1] < bounds[m]
      && p.stack[m - 2] !in h && p.stack[m - 1] !in h
      && forall x: nat :: x in h ==> x < bounds[m] && (x < bounds[m - 2] ==> h[x] < bounds[m - 2])
  {
    var m := |p.stack|;
    assert Subtree(h, bounds[m - 2], bounds[m - 2 + 1], p.stack[m - 2]);
    assert Subtree(h, bounds[m - 1], bounds[m - 1 + 1], p.stack[m - 1]);
  }

  lemma {:induction false} BoundsGrow(p: Parse<nat>, n: nat, h: Heads, bounds: seq<nat>, i: nat, j: nat)
    requires Inv(p, n, h, bounds) && i <= j <= |p.stack|
    ensures bounds[i] <= bounds[j]
    decreases j - i
  {
    if i < j {
      assert Subtree(h, bounds[i], bounds[i + 1], p.stack[i]);
      BoundsGrow(p, n, h, bounds, i + 1, j);
    }
  }

  lemma {:induction false} RunInv(p: Parse<nat>, n: nat, h: Heads, bounds: seq<nat>, ts: seq<Transition>) returns (h': Heads, bounds': seq<nat>)
    requires Inv(p, n, h, bounds) && LegalRun(p, ts)
    ensures Inv(Run(p, ts), n, h', bounds')
    decreases |ts|
  {
    h', bounds' := h, bounds;
    if ts != [] {
      if ts[0] == S {
        ShiftInv(p, n, h, bounds);
        bounds' := bounds + [bounds[|bounds| - 1] + 1];
      } else {
        h', bounds' := ArcInv(p, n, h, bounds, ts[0]);
      }
      h', bounds' := RunInv(Apply(p, ts[0]), n, h', bounds', ts[1..]);
    }
  }

  /**
    Soundness: a complete run on n words takes 2n transitions, and its n dependencies are the arcs of a
    projective tree whose root is the token left on the stack.
   */
  lemma RunsAreTrees(n: nat, ts: seq<Transition>) returns (h: Heads)
    requires LegalRun(Start(n), ts) && Done(Run(Start(n), ts))
    ensures var p := Run(Start(n), ts);
      && |ts| == 2 * n && |p.deps| == n
      && DepsAre(p.deps, h) && IsTree(h, n, p.stack[0]) && NonCrossing(h)
  {
    StartInv(n);
    var bounds;
    h, bounds := RunInv(Start(n), n, map[], [0, 1], ts);
    RunCounts(Start(n), ts);
    var p := Run(Start(n), ts);
    var r := p.stack[0];
    assert Subtree(h, 0, n + 1, r);
    forall x: nat | x <= n ensures Reaches(h, x, r) && (x != r ==> x in h && h[x] <= n) {
      if x == r {
        ReachesSelf(h, x);
      } else {
        assert Hangs(h, 0, n + 1, r, x);
      }
    }
  }

  // ---------------------------------------------------------------------------------------------
  // In a projective tree rooted at position 0, the tokens below a token are a stretch of the sentence.

  ghost predicate Projective(h: Heads, n: nat) {
    IsTree(h, n, 0) && NonCrossing(h)
  }

  /** What lies under an arc hangs below its head. */
  lemma {:induction false} UnderArc(h: Heads, n: nat, d: nat, y: nat, k: nat)
    requires Projective(h, n) && d in h && Between(d, h[d], y) && Chain(h, y, 0, k)
    ensures Reaches(h, y, h[d])
    decreases k
  {
    assert y in h;
    assert !Cross(h, d, y);
    ReachesHead(h, y);
    ReachesHead(h, d);
    if h[y] == d {
      ReachesTrans(h, y, d, h[d]);
    } else if h[y] != h[d] {
      UnderArc(h, n, d, h[y], k - 1);
      ReachesTrans(h, y, h[y], h[d]);
    }
  }

  lemma {:induction false} ConvexChain(h: Heads, n: nat, x: nat, d: nat, k: nat, y: nat)
    requires Projective(h, n) && Chain(h, x, d, k) && Between(x, d, y) && x <= n && d <= n
    ensures Reaches(h, y, d)
    decreases k
  {
    var x1 := h[x];
    assert Chain(h, x1, d, k - 1);
    if Between(x, x1, y) {
      assert Reaches(h, y, 0);
      var j: nat :| Chain(h, y, 0, j);
      UnderArc(h, n, x, y, j);
      ReachesTrans(h, y, x1, d);
    } else if y != x1 {
      ConvexChain(h, n, x1, d, k - 1, y);
    }
  }

  /** Between two tokens below `d`, every token is below `d`. */
  lemma Convex(h: Heads, n: nat, x: nat, z: nat, d: nat, y: nat)
    requires Projective(h, n) && Reaches(h, x, d) && Reaches(h, z, d) && x <= y <= z <= n && d <= n
    ensures Reaches(h, y, d)
  {
    var j: nat :| Chain(h, x, d, j);
    var k: nat :| Chain(h, z, d, k);
    if y == d {
      ReachesSelf(h, d);
    } else if Between(x, d, y) {
      ConvexChain(h, n, x, d, j, y);
    } else if Between(z, d, y) {
      ConvexChain(h, n, z, d, k, y);
    }
  }

  /** Chains to the root have one length. */
  lemma {:induction false} ChainLength(h: Heads, n: nat, x: nat, j: nat, k: nat)
    requires IsTree(h, n, 0) && Chain(h, x, 0, j) && Chain(h, x, 0, k)
    ensures j == k
    decreases j
  {
    if j != 0 && k != 0 {
      ChainLength(h, n, h[x], j - 1, k - 1);
    }
  }

  /** No cycles: a head is not below its dependent. */
  lemma NotBelow(h: Heads, n: nat, d: nat)
    requires IsTree(h, n, 0) && d in h
    ensures !Reaches(h, h[d], d)
  {
    if Reaches(h, h[d], d) {
      var j: nat :| Chain(h, h[d], d, j);
      assert Reaches(h, d, 0);
      var k: nat :| Chain(h, d, 0, k);
      ChainConcat(h, h[d], d, 0, j, k);
      assert Chain(h, d, 0, j + k + 1);
      ChainLength(h, n, d, k, j + k + 1);
    }
  }

  /** Of two tokens that one token is below, one is below the other. */
  lemma {:induction false} ChainsMeet(h: Heads, x: nat, a: nat, b: nat, j: nat, k: nat)
    requires Chain(h, x, a, j) && Chain(h, x, b, k) && j <= k
    ensures Chain(h, a, b, k - j)
    decreases j
  {
    if j != 0 {
      ChainsMeet(h, h[x], a, b, j - 1, k - 1);
    }
  }

  lemma Siblings(h: Heads, n: nat, x: nat, a: nat, b: nat)
    requires IsTree(h, n, 0) && a in h && b in h && h[a] == h[b] && Reaches(h, x, a) && Reaches(h, x, b)
    ensures a == b
  {
    var j: nat :| Chain(h, x, a, j);
    var k: nat :| Chain(h, x, b, k);
    if j <= k {
      ChainsMeet(h, x, a, b, j, k);
      SiblingChain(h, n, a, b, k - j);
    } else {
      ChainsMeet(h, x, b, a, k, j);
      SiblingChain(h, n, b, a, j - k);
    }
  }

  lemma SiblingChain(h: Heads, n: nat, a: nat, b: nat, k: nat)
    requires IsTree(h, n, 0) && a in h && b in h && h[a] == h[b] && Chain(h, a, b, k)
    ensures a == b
  {
    if k != 0 {
      assert Chain(h, h[a], b, k - 1);
      NotBelow(h, n, b);
    }
  }

  /** The dependent of `c` that `x` is below or equal to. */
  lemma {:induction false} ChildAbove(h: Heads, x: nat, c: nat, k: nat) returns (d: nat)
    requires Chain(h, x, c, k) && x != c
    ensures d in h && h[d] == c && Reaches(h, x, d)
    decreases k
  {
    if h[x] == c {
      d := x;
      ReachesSelf(h, x);
    } else {
      d := ChildAbove(h, h[x], c, k - 1);
      ReachesHead(h, x);
      ReachesTrans(h, x, h[x], d);
    }
  }

  /** The stretch of `d` starting at `a` ends before `e`. */
  lemma {:induction false} StretchEnd(h: Heads, d: nat, a: nat, hi: nat) returns (e: nat)
    requires a < hi && Reaches(h, a, d)
    ensures a < e <= hi && (forall x: nat :: a <= x < e ==> Reaches(h, x, d)) && (e < hi ==> !Reaches(h, e, d))
    decreases hi - a
  {
    e := a + 1;
    if e < hi && Reaches(h, e, d) {
      e := StretchEnd(h, d, e, hi);
    }
  }

  // ---------------------------------------------------------------------------------------------
  // Completeness.

  /** The tokens from `lo` up to `hi` are those below `c`. */
  ghost predicate Below(h: Heads, n: nat, lo: nat, hi: nat, c: nat) {
    lo <= c < hi <= n + 1 && forall x: nat :: x <= n ==> (Reaches(h, x, c) <==> lo <= x < hi)
  }

  /** No dependent of `c` has tokens below it on both sides of `a`. */
  ghost predicate Cut(h: Heads, n: nat, a: nat, c: nat) {
    forall d: nat, x: nat, y: nat {:trigger Reaches(h, x, d), Reaches(h, y, d)} ::
      d in h && h[d] == c && x < a <= y <= n && Reaches(h, x, d) ==> !Reaches(h, y, d)
  }

  /** The dependencies are the arcs of the tokens from `lo` up to `hi`, except that of `c`. */
  ghost predicate ArcsOf(h: Heads, lo: nat, hi: nat, c: nat, deps: seq<(nat, nat)>) {
    && (forall i :: 0 <= i < |deps| ==> lo <= deps[i].1 < hi && deps[i].1 != c && deps[i].1 in h && deps[i].0 == h[deps[i].1])
    && forall x: nat :: lo <= x < hi && x != c && x in h ==> (h[x], x) in deps
  }

  /** The next dependent of `c`, with its stretch from `a` to `e`, and the cut behind it. */
  lemma NextChild(h: Heads, n: nat, a: nat, hi: nat, c: nat) returns (d: nat, e: nat)
    requires Projective(h, n) && a < hi <= n + 1 && c <= n && !(a <= c < hi) && Cut(h, n, a, c)
    requires forall x: nat :: a <= x < hi ==> Reaches(h, x, c)
    requires hi <= n && hi != c ==> !Reaches(h, hi, c)
    ensures d in h && h[d] == c && a < e <= hi && Below(h, n, a, e, d) && Cut(h, n, e, c)
  {
    assert Reaches(h, a, c);
    var k: nat :| Chain(h, a, c, k);
    d := ChildAbove(h, a, c, k);
    e := StretchEnd(h, d, a, hi);
    NotBelow(h, n, d);
    if e == hi && hi <= n && Reaches(h, e, d) {
      ReachesHead(h, d);
      ReachesTrans(h, e, d, c);
    }
    forall x: nat | x <= n ensures Reaches(h, x, d) <==> a <= x < e {
      if x >= e && Reaches(h, x, d) {
        Convex(h, n, a, x, d, e);
      }
    }
    ReachesSelf(h, d);
    forall d': nat, x: nat, y: nat | d' in h && h[d'] == c && x < e <= y <= n && Reaches(h, x, d')
      ensures !Reaches(h, y, d')
    {
      if x >= a {
        Siblings(h, n, x, d, d');
      }
    }
  }

  lemma ArcsConcat(h: Heads, lo: nat, mid: nat, hi: nat, c: nat, d: nat, a: seq<(nat, nat)>, b: seq<(nat, nat)>, before: bool)
    requires lo <= mid <= hi && !(lo <= c < mid) && lo <= d < mid && d in h && h[d] == c
    requires ArcsOf(h, lo, mid, d, a) && ArcsOf(h, mid, hi, c, b)
    ensures ArcsOf(h, lo, hi, c, if before then a + [(c, d)] + b else a + b + [(c, d)])
  {
    var r := if before then a + [(c, d)] + b else a + b + [(c, d)];
    forall x: nat | lo <= x < hi && x != c && x in h ensures (h[x], x) in r {
      if x == d {
        assert r[if before then |a| else |a + b|] == (c, d);
      } else if x < mid {
        assert (h[x], x) in a;
      } else {
        assert (h[x], x) in b;
      }
    }
  }

  /** From `p`, the tokens up to `hi` have been read and parsed into the subtree of `c`. */
  ghost predicate Parsed(h: Heads, n: nat, p: Parse<nat>, stack: seq<nat>, hi: nat, ts: seq<Transition>, deps: seq<(nat, nat)>) {
    && hi <= n + 1 && LegalRun(p, ts)
    && Run(p, ts) == Parse(stack, Positions(hi, n), p.deps + deps)
  }

  lemma ParsedConcat(h: Heads, n: nat, p: Parse<nat>, stack: seq<nat>, mid: nat, ts: seq<Transition>, deps: seq<(nat, nat)>, stack': seq<nat>, hi: nat, us: seq<Transition>, deps': seq<(nat, nat)>)
    requires Parsed(h, n, p, stack, mid, ts, deps)
    requires Parsed(h, n, Run(p, ts), stack', hi, us, deps')
    ensures Parsed(h, n, p, stack', hi, ts + us, deps + deps')
  {
    RunConcat(p, ts, us);
    assert (p.deps + deps) + deps' == p.deps + (deps + deps');
  }

  lemma ParsedStep(h: Heads, n: nat, p: Parse<nat>, stack: seq<nat>, s2: nat, s1: nat, hi: nat, t: Transition)
    requires hi <= n + 1 && p.stack == stack + [s2, s1] && p.buffer == Positions(hi, n) && t != S
    ensures Parsed(h, n, p, stack + [if t == LA then s1 else s2], hi, [t], [if t == LA then (s1, s2) else (s2, s1)])
  {
    assert [t][1..] == [];
    var q := Apply(p, t);
    assert p.stack[..|p.stack| - 2] == stack;
    assert p.stack[..|p.stack| - 1] == stack + [s2];
    assert Run(p, [t]) == Run(q, []);
  }

  lemma ParsedShift(h: Heads, n: nat, p: Parse<nat>, a: nat)
    requires a <= n && p.buffer == Positions(a, n)
    ensures Parsed(h, n, p, p.stack + [a], a + 1, [S], [])
  {
    assert [S][1..] == [];
    assert Positions(a, n)[1..] == Positions(a + 1, n);
    assert p.deps + [] == p.deps;
    assert Run(p, [S]) == Run(Apply(p, S), []);
  }

  lemma {:induction false} ParseSubtree(h: Heads, n: nat, p: Parse<nat>, lo: nat, hi: nat, c: nat) returns (ts: seq<Transition>, deps: seq<(nat, nat)>)
    requires Projective(h, n) && Below(h, n, lo, hi, c) && c in h && p.buffer == Positions(lo, n)
    ensures Parsed(h, n, p, p.stack + [c], hi, ts, deps) && ArcsOf(h, lo, hi, c, deps)
    decreases hi - lo, 2
  {
    LeftCut(h, n, lo, hi, c);
    ts, deps := ParseLeft(h, n, p, lo, hi, c);
    RightCut(h, n, lo, hi, c);
    var us, deps' := ParseRight(h, n, Run(p, ts), p.stack, c + 1, hi, c);
    ParsedConcat(h, n, p, p.stack + [c], c + 1, ts, deps, p.stack + [c], hi, us, deps');
    BothSides(h, lo, hi, c, deps, deps');
    ts, deps := ts + us, deps + deps';
  }

  lemma BothSides(h: Heads, lo: nat, hi: nat, c: nat, a: seq<(nat, nat)>, b: seq<(nat, nat)>)
    requires ArcsOf(h, lo, c, c, a) && ArcsOf(h, c + 1, hi, c, b) && lo <= c < hi
    ensures ArcsOf(h, lo, hi, c, a + b)
  {
    forall x: nat | lo <= x < hi && x != c && x in h ensures (h[x], x) in a + b {
      assert if x < c then (h[x], x) in a else (h[x], x) in b;
    }
  }

  lemma LeftCut(h: Heads, n: nat, lo: nat, hi: nat, c: nat)
    requires Projective(h, n) && Below(h, n, lo, hi, c)
    ensures Cut(h, n, lo, c)
  {
    forall d: nat, x: nat | d in h && h[d] == c && x < lo ensures !Reaches(h, x, d) {
      ReachesHead(h, d);
      if Reaches(h, x, d) {
        ReachesTrans(h, x, d, c);
      }
    }
  }

  lemma RightCut(h: Heads, n: nat, lo: nat, hi: nat, c: nat)
    requires Projective(h, n) && c <= n
    ensures Cut(h, n, c + 1, c)
  {
    forall d: nat, x: nat, y: nat | d in h && h[d] == c && x < c + 1 <= y <= n && Reaches(h, x, d) ensures !Reaches(h, y, d) {
      NotBelow(h, n, d);
      if Reaches(h, y, d) {
        Convex(h, n, x, y, d, c);
      }
    }
  }

  lemma ParsedEnd(h: Heads, n: nat, p: Parse<nat>, stack: seq<nat>, hi: nat, ts: seq<Transition>, deps: seq<(nat, nat)>)
    requires Parsed(h, n, p, stack, hi, ts, deps)
    ensures hi <= n + 1 && LegalRun(p, ts) && Run(p, ts).stack == stack && Run(p, ts).buffer == Positions(hi, n)
  {
  }

  /** With `d` below the top `c` of the stack, one more transition attaches one to the other. */
  lemma Attach(h: Heads, n: nat, p: Parse<nat>, stack: seq<nat>, s2: nat, s1: nat, hi: nat, ts: seq<Transition>, deps: seq<(nat, nat)>, t: Transition)
    requires Parsed(h, n, p, stack + [s2] + [s1], hi, ts, deps) && t != S
    ensures Parsed(h, n, p, stack + [if t == LA then s1 else s2], hi, ts + [t], deps + [if t == LA then (s1, s2) else (s2, s1)])
  {
    hide Parsed, LegalRun, Run, Positions;
    assert stack + [s2] + [s1] == stack + [s2, s1];
    ParsedEnd(h, n, p, stack + [s2, s1], hi, ts, deps);
    ParsedStep(h, n, Run(p, ts), stack, s2, s1, hi, t);
    ParsedConcat(h, n, p, stack + [s2, s1], hi, ts, deps, stack + [if t == LA then s1 else s2], hi, [t],
                 [if t == LA then (s1, s2) else (s2, s1)]);
  }

  lemma NoArcs(h: Heads, a: nat, c: nat)
    ensures ArcsOf(h, a, a, c, [])
  {
  }

  /** The dependents of `c` to its left, `c` itself, and their arcs. */
  lemma {:induction false} ParseLeft(h: Heads, n: nat, p: Parse<nat>, a: nat, hi: nat, c: nat) returns (ts: seq<Transition>, deps: seq<(nat, nat)>)
    requires Projective(h, n) && a <= c < hi <= n + 1 && Cut(h, n, a, c) && p.buffer == Positions(a, n)
    requires forall x: nat :: a <= x < hi ==> Reaches(h, x, c)
    ensures Parsed(h, n, p, p.stack + [c], c + 1, ts, deps) && ArcsOf(h, a, c, c, deps)
    decreases c - a, 3
  {
    hide *;
    if a == c {
      ParsedShift(h, n, p, c);
      NoArcs(h, a, c);
      ts, deps := [S], [];
    } else {
      var d, e := NextChild(h, n, a, c, c);
      var ts1, deps1 := ParseSubtree(h, n, p, a, e, d);
      ParsedEnd(h, n, p, p.stack + [d], e, ts1, deps1);
      var ts2, deps2 := ParseLeft(h, n, Run(p, ts1), e, hi, c);
      ParsedConcat(h, n, p, p.stack + [d], e, ts1, deps1, p.stack + [d] + [c], c + 1, ts2, deps2);
      Attach(h, n, p, p.stack, d, c, c + 1, ts1 + ts2, deps1 + deps2, LA);
      BelowEnds(h, n, a, e, d);
      ArcsConcat(h, a, e, c, c, d, deps1, deps2, false);
      ts, deps := ts1 + ts2 + [LA], deps1 + deps2 + [(c, d)];
    }
  }

  lemma BelowEnds(h: Heads, n: nat, lo: nat, hi: nat, c: nat)
    requires Below(h, n, lo, hi, c)
    ensures lo <= c < hi <= n + 1
  {
  }

  /** The dependents of `c` to its right, each attached as soon as it is parsed. */
  lemma {:induction false} ParseRight(h: Heads, n: nat, p: Parse<nat>, stack: seq<nat>, a: nat, hi: nat, c: nat) returns (ts: seq<Transition>, deps: seq<(nat, nat)>)
    requires Projective(h, n) && c < a <= hi <= n + 1 && Cut(h, n, a, c)
    requires p.stack == stack + [c] && p.buffer == Positions(a, n)
    requires (forall x: nat :: a <= x < hi ==> Reaches(h, x, c)) && (hi <= n ==> !Reaches(h, hi, c))
    ensures Parsed(h, n, p, stack + [c], hi, ts, deps) && ArcsOf(h, a, hi, c, deps)
    decreases hi - a, 3
  {
    if a == hi {
      ts, deps := [], [];
      assert p.deps + [] == p.deps;
    } else {
      hide *;
      var d, e := NextChild(h, n, a, hi, c);
      var ts1, deps1 := ParseSubtree(h, n, p, a, e, d);
      Attach(h, n, p, stack, c, d, e, ts1, deps1, RA);
      ParsedEnd(h, n, p, stack + [c], e, ts1 + [RA], deps1 + [(c, d)]);
      var ts2, deps2 := ParseRight(h, n, Run(p, ts1 + [RA]), stack, e, hi, c);
      ParsedConcat(h, n, p, stack + [c], e, ts1 + [RA], deps1 + [(c, d)], stack + [c], hi, ts2, deps2);
      BelowEnds(h, n, a, e, d);
      ArcsConcat(h, a, e, hi, c, d, deps1, deps2, true);
      ts, deps := ts1 + [RA] + ts2, deps1 + [(c, d)] + deps2;
    }
  }

  /** Completeness: every projective tree rooted at ROOT is what some run produces. */
  lemma TreesAreRuns(n: nat, h: Heads) returns (ts: seq<Transition>)
    requires IsTree(h, n, 0) && NonCrossing(h)
    ensures LegalRun(Start(n), ts) && Done(Run(Start(n), ts))
    ensures Run(Start(n), ts).stack == [0] && DepsAre(Run(Start(n), ts).deps, h)
  {
    var p := Start(n);
    RightCut(h, n, 0, n + 1, 0);
    var deps;
    ts, deps := ParseRight(h, n, p, [], 1, n + 1, 0);
    RunCounts(p, ts);
    KeysCount(h, n);
    assert p.deps + deps == deps;
  }

  lemma KeysCount(h: Heads, n: nat)
    requires IsTree(h, n, 0)
    ensures |h| == n
  {
    CountUpTo(n, h.Keys);
  }

  lemma {:induction false} CountUpTo(n: nat, s: set<nat>)
    requires forall x: nat :: x in s <==> 1 <= x <= n
    ensures |s| == n
  {
    if n == 0 {
      assert s == {};
    } else {
      CountUpTo(n - 1, s - {n});
    }
  }
}
