/**
  The inheritance graph of PA4/semant.cc: one parent edge per class.  `Validate` walks every
  chain of parents and rejects the program when a chain comes back to a class it has seen;
  `IsSubclass` and `Lub` walk the chains of an accepted graph.
 */
module Inheritance {
  import opened CoolNames

  type Graph = map<ClassName, ClassName>

  /** The walk from `c` arrives at `_no_class` after exactly `k` parent steps. */
  ghost predicate Top(g: Graph, c: ClassName, k: nat)
    decreases k
  {
    if k == 0 then c == NoClass else c != NoClass && c in g && Top(g, g[c], k - 1)
  }

  /** What fill_inheritence_graph leaves behind: Object is the root and every parent is declared. */
  ghost predicate ParentsKnown(g: Graph) {
    && NoClass !in g
    && ObjectC in g && g[ObjectC] == NoClass
    && forall c {:trigger HasParent(g, c)} :: c in g && c != ObjectC ==> HasParent(g, c)
  }

  ghost predicate HasParent(g: Graph, c: ClassName) {
    c in g && g[c] in g
  }

  ghost predicate Ends(g: Graph, c: ClassName) {
    exists k: nat :: Top(g, c, k)
  }

  /** Acyclic: every chain of parents ends. */
  ghost predicate Grounded(g: Graph) {
    NoClass !in g && forall c {:trigger Ends(g, c)} :: c in g ==> Ends(g, c)
  }

  lemma {:induction false} TopUnique(g: Graph, c: ClassName, j: nat, k: nat)
    requires Top(g, c, j) && Top(g, c, k)
    ensures j == k
    decreases j
  {
    if j != 0 && k != 0 {
      TopUnique(g, g[c], j - 1, k - 1);
    }
  }

  ghost predicate InTree(g: Graph, c: ClassName) {
    c in g || c == NoClass
  }

  ghost function Height(g: Graph, c: ClassName): (k: nat)
    requires Grounded(g) && InTree(g, c)
    ensures Top(g, c, k)
    ensures k == 0 <==> c == NoClass
    ensures c != NoClass ==> InTree(g, g[c])
  {
    if c == NoClass then
      assert Top(g, c, 0);
      0
    else
      assert Ends(g, c);
      var k: nat :| Top(g, c, k);
      assert Top(g, g[c], k - 1);
      k
  }

  lemma HeightParent(g: Graph, c: ClassName)
    requires Grounded(g) && c in g
    ensures InTree(g, g[c]) && Height(g, c) == Height(g, g[c]) + 1
  {
    var k := Height(g, c);
    assert Top(g, g[c], k - 1);
    TopUnique(g, g[c], k - 1, Height(g, g[c]));
  }

  /** `d` is `c` or one of its proper ancestors (`_no_class` counts as everybody's ancestor). */
  ghost predicate Anc(g: Graph, c: ClassName, d: ClassName)
    requires Grounded(g) && InTree(g, c)
    decreases Height(g, c)
  {
    c == d || (c != NoClass && (HeightParent(g, c); Anc(g, g[c], d)))
  }

  // ---------------------------------------------------------------------------------------------
  // Subclassing is a partial order.

  lemma {:induction false} AncInTree(g: Graph, c: ClassName, d: ClassName)
    requires Grounded(g) && InTree(g, c) && Anc(g, c, d)
    ensures InTree(g, d) && Height(g, d) <= Height(g, c)
    ensures Height(g, d) == Height(g, c) ==> c == d
    decreases Height(g, c)
  {
    if c != d {
      HeightParent(g, c);
      AncInTree(g, g[c], d);
    }
  }

  lemma {:induction false} AncTransitive(g: Graph, a: ClassName, b: ClassName, c: ClassName)
    requires Grounded(g) && InTree(g, a) && Anc(g, a, b) && InTree(g, b) && Anc(g, b, c)
    ensures Anc(g, a, c)
    decreases Height(g, a)
  {
    if a != b {
      HeightParent(g, a);
      AncTransitive(g, g[a], b, c);
    }
  }

  lemma AncAntisymmetric(g: Graph, a: ClassName, b: ClassName)
    requires Grounded(g) && InTree(g, a) && InTree(g, b) && Anc(g, a, b) && Anc(g, b, a)
    ensures a == b
  {
    AncInTree(g, a, b);
    AncInTree(g, b, a);
  }

  /** The ancestors of one class form a chain: of two of them, one is an ancestor of the other. */
  lemma {:induction false} AncChain(g: Graph, c: ClassName, x: ClassName, y: ClassName)
    requires Grounded(g) && InTree(g, c) && Anc(g, c, x) && Anc(g, c, y)
    ensures InTree(g, x) && InTree(g, y)
    ensures Height(g, x) <= Height(g, y) ==> Anc(g, y, x)
    decreases Height(g, c)
  {
    AncInTree(g, c, x);
    AncInTree(g, c, y);
    if c == y {
    } else if c == x {
    } else {
      HeightParent(g, c);
      AncChain(g, g[c], x, y);
    }
  }

  // ---------------------------------------------------------------------------------------------
  // Cycle detection.

  /** The walk from `c` is at `d` after `n` parent steps. */
  ghost predicate Walk(g: Graph, c: ClassName, n: nat, d: ClassName)
    decreases n
  {
    if n == 0 then c == d else c in g && Walk(g, g[c], n - 1, d)
  }

  lemma {:induction false} WalkStep(g: Graph, c: ClassName, n: nat, d: ClassName)
    requires Walk(g, c, n, d) && d in g
    ensures Walk(g, c, n + 1, g[d])
    decreases n
  {
    if n != 0 {
      WalkStep(g, g[c], n - 1, d);
    } else {
      assert Walk(g, g[d], 0, g[d]);
    }
  }

  lemma {:induction false} WalkTop(g: Graph, c: ClassName, n: nat, d: ClassName, k: nat)
    requires NoClass !in g && Walk(g, c, n, d) && Top(g, c, k)
    ensures n <= k && Top(g, d, k - n)
    decreases n
  {
    if n != 0 {
      WalkTop(g, g[c], n - 1, d, k - 1);
    }
  }

  lemma {:induction false} WalkTopBack(g: Graph, c: ClassName, n: nat, d: ClassName, k: nat)
    requires NoClass !in g && Walk(g, c, n, d) && Top(g, d, k)
    ensures Top(g, c, n + k)
    decreases n
  {
    if n != 0 {
      WalkTopBack(g, g[c], n - 1, d, k);
    }
  }

  /** A class on a cycle never gets to the top. */
  lemma {:induction false} CycleHasNoTop(g: Graph, c: ClassName, n: nat, k: nat)
    requires NoClass !in g && n > 0 && Walk(g, c, n, c)
    ensures !Top(g, c, k)
  {
    if Top(g, c, k) {
      WalkTop(g, c, n, c, k);
      var j := k - n;
      TopUnique(g, c, k, j);
    }
  }

  ghost predicate Follows(g: Graph, x: ClassName, y: ClassName) {
    exists n: nat :: n > 0 && Walk(g, x, n, y)
  }

  lemma FollowsStep(g: Graph, x: ClassName, y: ClassName)
    requires y in g && (x == y || Follows(g, x, y))
    ensures Follows(g, x, g[y])
  {
    if x == y {
      assert Walk(g, g[x], 0, g[y]);
      assert Walk(g, x, 1, g[y]);
    } else {
      var n: nat :| n > 0 && Walk(g, x, n, y);
      WalkStep(g, x, n, y);
    }
  }

  /** The inner loop of validate(): walk from one class until Object or a class already seen. */
  method WalkToObject(g: Graph, start: ClassName) returns (ok: bool)
    requires ParentsKnown(g) && start in g
    ensures ok <==> Ends(g, start)
  {
    var seen: set<ClassName> := {};
    var parent := start;
    ghost var n: nat := 0;
    while parent != ObjectC
      invariant parent in g && seen <= g.Keys
      invariant Walk(g, start, n, parent)
      invariant forall x :: x in seen ==> Follows(g, x, parent)
      decreases g.Keys - seen
    {
      if parent in seen {
        ghost var m: nat :| m > 0 && Walk(g, parent, m, parent);
        forall k: nat ensures !Top(g, start, k) {
          if Top(g, start, k) {
            WalkTop(g, start, n, parent, k);
            CycleHasNoTop(g, parent, m, k - n);
          }
        }
        return false;
      }
      forall x | x in seen + {parent} ensures Follows(g, x, g[parent]) {
        FollowsStep(g, x, parent);
      }
      WalkStep(g, start, n, parent);
      assert HasParent(g, parent);
      n := n + 1;
      seen := seen + {parent};
      parent := g[parent];
    }
    assert Top(g, NoClass, 0);
    assert Top(g, ObjectC, 1);
    WalkTopBack(g, start, n, ObjectC, 1);
    return true;
  }

  /** validate(): accepts exactly the graphs in which no class inherits from itself. */
  method Validate(g: Graph) returns (ok: bool)
    requires ParentsKnown(g)
    ensures ok <==> Grounded(g)
  {
    var todo := g.Keys;
    while todo != {}
      invariant todo <= g.Keys
      invariant forall c :: c in g && c !in todo ==> Ends(g, c)
      decreases todo
    {
      var c :| c in todo;
      var grounded := WalkToObject(g, c);
      if !grounded {
        return false;
      }
      todo := todo - {c};
    }
    return true;
  }

  // ---------------------------------------------------------------------------------------------
  // is_subclass and lub, with SELF_TYPE standing for the current class.

  datatype Type = NoType | SelfType | Cls(c: ClassName)

  ghost predicate GoodType(g: Graph, t: Type) {
    t.Cls? ==> t.c in g
  }

  function Resolve(t: Type, cur: ClassName): ClassName
    requires !t.NoType?
  {
    if t.SelfType? then cur else t.c
  }

  /** The order on types: SELF_TYPE lies below its class and above nothing but itself. */
  ghost predicate Below(g: Graph, cur: ClassName, a: Type, b: Type)
    requires Grounded(g) && cur in g && GoodType(g, a) && GoodType(g, b)
  {
    && !a.NoType? && !b.NoType?
    && (a == b || (b.Cls? && Anc(g, Resolve(a, cur), b.c)))
  }

  method IsSubclass(g: Graph, cur: ClassName, a: Type, b: Type) returns (r: bool)
    requires Grounded(g) && cur in g && GoodType(g, a) && GoodType(g, b)
    ensures r <==> Below(g, cur, a, b)
  {
    if a.NoType? || b.NoType? {
      return false;
    }
    if a == b {
      return true;
    } else if b == SelfType {
      return false;
    }
    var x := Resolve(a, cur);
    while x != NoClass
      invariant InTree(g, x)
      invariant Anc(g, Resolve(a, cur), b.c) <==> Anc(g, x, b.c)
      decreases Height(g, x)
    {
      if x == b.c {
        return true;
      }
      HeightParent(g, x);
      x := g[x];
    }
    return false;
  }

  /** Below is a partial order on the types of a program. */
  lemma BelowPartialOrder(g: Graph, cur: ClassName, a: Type, b: Type, c: Type)
    requires Grounded(g) && cur in g && GoodType(g, a) && GoodType(g, b) && GoodType(g, c)
    ensures !a.NoType? ==> Below(g, cur, a, a)
    ensures Below(g, cur, a, b) && Below(g, cur, b, c) ==> Below(g, cur, a, c)
    ensures Below(g, cur, a, b) && Below(g, cur, b, a) ==> a == b
  {
    if Below(g, cur, a, b) && Below(g, cur, b, c) && a != b && b != c {
      AncTransitive(g, Resolve(a, cur), Resolve(b, cur), c.c);
    }
    if Below(g, cur, a, b) && Below(g, cur, b, a) && a != b {
      AncAntisymmetric(g, Resolve(a, cur), Resolve(b, cur));
    }
  }

  /** Counts the parent steps up to `_no_class`, as both height loops of lub() do. */
  method Depth(g: Graph, c: ClassName) returns (h: nat)
    requires Grounded(g) && c in g
    ensures h == Height(g, c)
  {
    h := 0;
    var x := c;
    while x != NoClass
      invariant InTree(g, x) && h + Height(g, x) == Height(g, c)
      decreases Height(g, x)
    {
      HeightParent(g, x);
      x := g[x];
      h := h + 1;
    }
  }

  /** Every declared class descends from Object. */
  lemma {:induction false} ObjectIsRoot(g: Graph, c: ClassName)
    requires ParentsKnown(g) && Grounded(g) && c in g
    ensures Anc(g, c, ObjectC)
    decreases Height(g, c)
  {
    if c != ObjectC {
      HeightParent(g, c);
      assert HasParent(g, c);
      ObjectIsRoot(g, g[c]);
    }
  }

  /** One step up from `a` does not lose a common ancestor with a class that is no deeper. */
  lemma JoinStep(g: Graph, a: ClassName, b: ClassName)
    requires Grounded(g) && a in g && InTree(g, b) && a != b && Height(g, b) <= Height(g, a)
    ensures InTree(g, g[a])
    ensures forall y :: Anc(g, a, y) && Anc(g, b, y) <==> Anc(g, g[a], y) && Anc(g, b, y)
  {
    HeightParent(g, a);
    forall y | Anc(g, a, y) && Anc(g, b, y) ensures Anc(g, g[a], y) {
      if a == y {
        AncInTree(g, b, y);
      }
    }
  }

  method Lub(g: Graph, cur: ClassName, a: Type, b: Type) returns (r: Type)
    requires ParentsKnown(g) && Grounded(g) && cur in g && GoodType(g, a) && GoodType(g, b)
    ensures a.NoType? || b.NoType? <==> r.NoType?
    ensures !r.NoType? ==> GoodType(g, r) && Below(g, cur, a, r) && Below(g, cur, b, r)
    ensures !r.NoType? ==> forall t :: GoodType(g, t) && Below(g, cur, a, t) && Below(g, cur, b, t) ==> Below(g, cur, r, t)
  {
    hide Top, Anc, Ends, HasParent;
    if a.NoType? || b.NoType? {
      return NoType;
    }
    if a == b {
      return a;
    }
    var x, y := Resolve(a, cur), Resolve(b, cur);
    var hx := Depth(g, x);
    var hy := Depth(g, y);
    var delta := if hx < hy then hy - hx else hx - hy;
    if hx < hy {
      x, y := y, x;
    }
    ghost var x0, y0 := x, y;
    ghost var lo := Height(g, y);
    var i := 0;
    while i < delta
      invariant 0 <= i <= delta
      invariant InTree(g, x) && Height(g, x) == Height(g, y) + delta - i
      invariant forall z :: Anc(g, x0, z) && Anc(g, y0, z) <==> Anc(g, x, z) && Anc(g, y, z)
    {
      HeightParent(g, x);
      JoinStep(g, x, y);
      x := g[x];
      i := i + 1;
    }
    while x != y
      invariant InTree(g, x) && InTree(g, y) && Height(g, x) == Height(g, y)
      invariant forall z :: Anc(g, x0, z) && Anc(g, y0, z) <==> Anc(g, x, z) && Anc(g, y, z)
      decreases Height(g, x)
    {
      HeightParent(g, x);
      HeightParent(g, y);
      JoinBoth(g, x, y);
      x, y := g[x], g[y];
    }
    ObjectIsRoot(g, x0);
    ObjectIsRoot(g, y0);
    AncEnds(g, x, ObjectC);
    AncEnds(g, x0, ObjectC);
    AncEnds(g, y0, ObjectC);
    assert x != NoClass;
    return Cls(x);
  }

  lemma AncEnds(g: Graph, c: ClassName, d: ClassName)
    requires Grounded(g) && InTree(g, c)
    ensures Anc(g, c, c) && (c == NoClass ==> (Anc(g, c, d) <==> d == NoClass))
  {
  }

  /** Two different classes of equal depth keep their common ancestors when both step up. */
  lemma JoinBoth(g: Graph, a: ClassName, b: ClassName)
    requires Grounded(g) && a in g && b in g && a != b && Height(g, b) == Height(g, a)
    ensures InTree(g, g[a]) && InTree(g, g[b])
    ensures forall y :: Anc(g, a, y) && Anc(g, b, y) <==> Anc(g, g[a], y) && Anc(g, g[b], y)
  {
    HeightParent(g, a);
    HeightParent(g, b);
    forall y | Anc(g, a, y) && Anc(g, b, y) ensures Anc(g, g[a], y) && Anc(g, g[b], y) {
      AncInTree(g, a, y);
      AncInTree(g, b, y);
    }
  }

  // ---------------------------------------------------------------------------------------------
  // From the class list to the graph.

  /** A class of the program as it is declared; the parent defaults to Object. */
  datatype ClassDecl = ClassDecl(name: ClassName, parent: ClassName)

  const MAIN_CLASS: ClassName := User("Main")
  const SELF_TYPE: ClassName := User("SELF_TYPE")
  const BASIC: set<ClassName> := {ObjectC, IOC, IntC, BoolC, StringC}

  /** One of the first `n` declarations is that of `c`. */
  ghost predicate Declared(classes: seq<ClassDecl>, n: nat, c: ClassName) {
    exists i :: 0 <= i < n && i < |classes| && classes[i].name == c
  }

  lemma DeclaredNext(classes: seq<ClassDecl>, n: nat, next: nat)
    requires n < |classes| && next == n + 1
    ensures forall c {:trigger Declared(classes, next, c)} :: Declared(classes, next, c) <==> Declared(classes, n, c) || c == classes[n].name
    ensures forall c {:trigger Declared(classes, n, c)} :: Declared(classes, n, c) ==> Declared(classes, |classes|, c)
  {
  }

  ghost predicate IsClass(classes: seq<ClassDecl>, c: ClassName) {
    c in BASIC || Declared(classes, |classes|, c)
  }

  /** A class name that the first `n` declarations leave free. */
  ghost predicate NameOk(classes: seq<ClassDecl>, n: nat)
    requires n < |classes|
  {
    classes[n].name !in BASIC && classes[n].name != SELF_TYPE && !Declared(classes, n, classes[n].name)
  }

  /** The classes are new, distinct, and one of them is Main. */
  ghost predicate NamesOk(classes: seq<ClassDecl>) {
    && (forall n: nat {:trigger NameOk(classes, n)} :: n < |classes| ==> NameOk(classes, n))
    && Declared(classes, |classes|, MAIN_CLASS)
  }

  /** The parent is declared, and may be inherited from. */
  ghost predicate ParentOk(classes: seq<ClassDecl>, n: nat)
    requires n < |classes|
  {
    IsClass(classes, classes[n].parent) && classes[n].parent !in {IntC, BoolC, StringC}
  }

  ghost predicate ParentsOk(classes: seq<ClassDecl>) {
    forall n: nat {:trigger ParentOk(classes, n)} :: n < |classes| ==> ParentOk(classes, n)
  }

  /** The edges of the basic classes and of the first `n` that are declared. */
  ghost predicate GraphOf(classes: seq<ClassDecl>, n: nat, g: Graph) {
    && (forall c {:trigger c in g} :: c in g <==> c in BASIC || Declared(classes, n, c))
    && ObjectC in g && g[ObjectC] == NoClass
    && (forall c {:trigger g[c]} :: c in BASIC && c != ObjectC && c in g ==> g[c] == ObjectC)
    && forall i: nat {:trigger classes[i]} :: i < n && i < |classes| ==> classes[i].name in g && g[classes[i].name] == classes[i].parent
  }

  /** fill_class_map, on a map that has the basic classes; not ok is the error exit */
  method FillClassMap(classes: seq<ClassDecl>) returns (ok: bool, classMap: set<ClassName>)
    ensures ok <==> NamesOk(classes)
    ensures ok ==> forall c :: c in classMap <==> IsClass(classes, c)
  {
    hide Declared;
    NoneDeclared(classes);
    classMap := BASIC;
    var hasMainClass := false;
    var i := 0;
    while i < |classes|
      invariant 0 <= i <= |classes|
      invariant forall n: nat {:trigger NameOk(classes, n)} :: n < i ==> NameOk(classes, n)
      invariant hasMainClass <==> Declared(classes, i, MAIN_CLASS)
      invariant forall c :: c in classMap <==> c in BASIC || Declared(classes, i, c)
    {
      var name := classes[i].name;
      DeclaredNext(classes, i, i + 1);
      if name == SELF_TYPE || name in {ObjectC, IntC, BoolC, StringC} || name in classMap {
        assert !NameOk(classes, i);
        return false, classMap;
      }
      classMap := classMap + {name};
      if name == MAIN_CLASS {
        hasMainClass := true;
      }
      i := i + 1;
    }
    ok := hasMainClass;
  }

  lemma NoneDeclared(classes: seq<ClassDecl>)
    ensures forall c {:trigger Declared(classes, 0, c)} :: !Declared(classes, 0, c)
  {
  }

  /** The edge of the next class. */
  lemma GraphNext(classes: seq<ClassDecl>, n: nat, g: Graph)
    requires NamesOk(classes) && n < |classes| && GraphOf(classes, n, g)
    ensures GraphOf(classes, n + 1, g[classes[n].name := classes[n].parent])
  {
    DeclaredNext(classes, n, n + 1);
    assert NameOk(classes, n);
  }

  lemma GraphStart(classes: seq<ClassDecl>)
    ensures GraphOf(classes, 0, map[ObjectC := NoClass, IntC := ObjectC, BoolC := ObjectC, StringC := ObjectC, IOC := ObjectC])
  {
  }

  /** fill_inheritence_graph; not ok is the error exit */
  method FillInheritenceGraph(classes: seq<ClassDecl>, classMap: set<ClassName>) returns (ok: bool, g: Graph)
    requires NamesOk(classes) && forall c :: c in classMap <==> IsClass(classes, c)
    ensures ok <==> ParentsOk(classes)
    ensures ok ==> GraphOf(classes, |classes|, g)
  {
    hide GraphOf, NamesOk, IsClass;
    GraphStart(classes);
    SelfTypeIsNoClass(classes);
    g := map[ObjectC := NoClass, IntC := ObjectC, BoolC := ObjectC, StringC := ObjectC, IOC := ObjectC];
    var i := 0;
    while i < |classes|
      invariant 0 <= i <= |classes| && GraphOf(classes, i, g)
      invariant forall n: nat {:trigger ParentOk(classes, n)} :: n < i ==> ParentOk(classes, n)
    {
      var parent := classes[i].parent;
      if parent !in classMap || parent in {IntC, BoolC, StringC} || parent == SELF_TYPE {
        assert !ParentOk(classes, i);
        return false, g;
      }
      GraphNext(classes, i, g);
      g := g[classes[i].name := parent];
      i := i + 1;
    }
    ok := true;
  }

  lemma SelfTypeIsNoClass(classes: seq<ClassDecl>)
    requires NamesOk(classes)
    ensures !IsClass(classes, SELF_TYPE)
  {
    forall n: nat | n < |classes| ensures classes[n].name != SELF_TYPE {
      assert NameOk(classes, n);
    }
  }

  /** The graph of classes with proper parents is what the walks along parents need. */
  lemma GraphKnown(classes: seq<ClassDecl>, g: Graph)
    requires NamesOk(classes) && ParentsOk(classes) && GraphOf(classes, |classes|, g) && !IsClass(classes, NoClass)
    ensures ParentsKnown(g)
  {
    forall c | c in g && c != ObjectC ensures HasParent(g, c) {
      if c !in BASIC {
        var i: nat :| i < |classes| && classes[i].name == c;
        assert ParentOk(classes, i);
      }
    }
  }

  /** The checks of the class hierarchy, in the order of program_class::semant: exactly the hierarchies pass. */
  method CheckHierarchy(classes: seq<ClassDecl>) returns (ok: bool, g: Graph)
    requires !IsClass(classes, NoClass)
    ensures ok ==> NamesOk(classes) && ParentsOk(classes) && GraphOf(classes, |classes|, g) && ParentsKnown(g) && Grounded(g)
    ensures !ok ==> !NamesOk(classes) || !ParentsOk(classes) || (GraphOf(classes, |classes|, g) && !Grounded(g))
  {
    hide *;
    var classMap;
    g := map[];
    ok, classMap := FillClassMap(classes);
    if ok {
      ok, g := FillInheritenceGraph(classes, classMap);
      if ok {
        GraphKnown(classes, g);
        ok := Validate(g);
      }
    }
  }
}
