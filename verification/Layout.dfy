/**
  Object and dispatch-table layout (CgenNode::calc_layout): a class copies its parent's layout,
  appends its own attributes and new methods, and records itself as the definer of every method
  it declares.  A slot chosen through a static type therefore finds, in the table of any
  descendant, the nearest definition of the same method.
 */
module Layout {
  import opened CoolNames
  import opened Inheritance
  import opened CoolSyntax

  datatype Meths = Meths(layout: seq<Name>, definer: map<Name, ClassName>)

  /** One step of the feature loop. */
  ghost function AddMeth(ms: Meths, c: ClassName, m: Name): Meths {
    Meths(if m in ms.definer then ms.layout else ms.layout + [m], ms.definer[m := c])
  }

  ghost function AddMeths(ms: Meths, c: ClassName, decls: seq<Method>): Meths {
    if decls == [] then ms
    else AddMeth(AddMeths(ms, c, decls[..|decls| - 1]), c, decls[|decls| - 1].name)
  }

  ghost function AttrLayout(P: Program, c: ClassName): seq<Attr>
    requires Hierarchy(P) && HasClass(P, c)
    decreases Level(P, c)
  {
    if c == NoClass then [] else AttrLayout(P, Up(P, c)) + P.classes[c].attrs
  }

  ghost function MethLayout(P: Program, c: ClassName): Meths
    requires Hierarchy(P) && HasClass(P, c)
    decreases Level(P, c)
  {
    if c == NoClass then Meths([], map[]) else AddMeths(MethLayout(P, Up(P, c)), c, P.classes[c].methods)
  }

  // ---------------------------------------------------------------------------------------------
  // The layout of a parent is a prefix of the layout of every descendant.

  lemma {:induction false} AttrPrefix(P: Program, c: ClassName, d: ClassName)
    requires Hierarchy(P) && HasClass(P, c) && HasClass(P, d) && Inherits(P, c, d)
    ensures AttrLayout(P, d) <= AttrLayout(P, c)
    decreases Level(P, c)
  {
    if c != d {
      AttrPrefix(P, Up(P, c), d);
    }
  }

  ghost predicate Consistent(ms: Meths) {
    && (forall m :: m in ms.layout <==> m in ms.definer)
    && forall i, j :: 0 <= i < j < |ms.layout| ==> ms.layout[i] != ms.layout[j]
  }

  ghost function Names(decls: seq<Method>): set<Name> {
    if decls == [] then {} else Names(decls[..|decls| - 1]) + {decls[|decls| - 1].name}
  }

  lemma {:induction false} NamesDeclared(cls: Class, decls: seq<Method>, m: Name)
    requires decls <= cls.methods
    ensures m in Names(decls) <==> exists i :: 0 <= i < |decls| && decls[i].name == m
    decreases |decls|
  {
    if decls != [] {
      var k := |decls| - 1;
      NamesDeclared(cls, decls[..k], m);
      assert forall i :: 0 <= i < k ==> decls[..k][i] == decls[i];
    }
  }

  lemma {:induction false} AddMethsFacts(ms: Meths, c: ClassName, decls: seq<Method>)
    requires Consistent(ms)
    ensures ms.layout <= AddMeths(ms, c, decls).layout && Consistent(AddMeths(ms, c, decls))
    ensures Defines(ms, c, Names(decls), AddMeths(ms, c, decls))
    decreases |decls|
  {
    if decls != [] {
      var k := |decls| - 1;
      AddMethsFacts(ms, c, decls[..k]);
      AddMethFacts(ms, c, Names(decls[..k]), AddMeths(ms, c, decls[..k]), decls[k].name);
    }
  }

  /** `r` is `ms` with `c` as the definer of the methods `ns`. */
  ghost predicate Defines(ms: Meths, c: ClassName, ns: set<Name>, r: Meths) {
    && r.definer.Keys == ms.definer.Keys + ns
    && forall m :: m in r.definer ==> r.definer[m] == if m in ns then c else ms.definer[m]
  }

  lemma AddMethFacts(ms: Meths, c: ClassName, ns: set<Name>, r: Meths, m: Name)
    requires Consistent(r) && Defines(ms, c, ns, r) && ms.layout <= r.layout
    ensures ms.layout <= AddMeth(r, c, m).layout && Consistent(AddMeth(r, c, m))
    ensures Defines(ms, c, ns + {m}, AddMeth(r, c, m))
  {
    var q := AddMeth(r, c, m);
    if m !in r.definer {
      assert q.layout == r.layout + [m];
      assert q.layout[|r.layout|] == m;
    }
  }

  /** The table holds each method once and names its nearest definer. */
  lemma {:induction false} MethNearest(P: Program, c: ClassName)
    requires Hierarchy(P) && HasClass(P, c)
    ensures Consistent(MethLayout(P, c))
    ensures forall m :: m in MethLayout(P, c).definer <==> Nearest(P, c, m) != NoClass
    ensures forall m :: m in MethLayout(P, c).definer ==> MethLayout(P, c).definer[m] == Nearest(P, c, m)
    decreases Level(P, c)
  {
    if c != NoClass {
      hide *;
      OwnLayout(P, c);
      MethNearest(P, Up(P, c));
      NearestStep(P, c, MethLayout(P, Up(P, c)));
    }
  }

  lemma NamesAll(cls: Class)
    ensures forall m :: m in Names(cls.methods) <==> Declares(cls, m)
  {
    forall m ensures m in Names(cls.methods) <==> Declares(cls, m) {
      NamesDeclared(cls, cls.methods, m);
    }
  }

  lemma OwnLayout(P: Program, c: ClassName)
    requires Hierarchy(P) && HasClass(P, c) && c != NoClass
    ensures c in P.classes && HasClass(P, Up(P, c)) && Level(P, Up(P, c)) < Level(P, c)
    ensures MethLayout(P, c) == AddMeths(MethLayout(P, Up(P, c)), c, P.classes[c].methods)
  {
    hide AddMeths, Height;
  }

  /** From the table of the parent to that of the class. */
  lemma NearestStep(P: Program, c: ClassName, ms: Meths)
    requires Hierarchy(P) && c in P.classes && Consistent(ms)
    requires forall m :: m in ms.definer <==> Nearest(P, Up(P, c), m) != NoClass
    requires forall m :: m in ms.definer ==> ms.definer[m] == Nearest(P, Up(P, c), m)
    ensures var r := AddMeths(ms, c, P.classes[c].methods);
      && Consistent(r) && (forall m :: m in r.definer <==> Nearest(P, c, m) != NoClass)
      && forall m :: m in r.definer ==> r.definer[m] == Nearest(P, c, m)
  {
    hide AddMeths, Consistent, Hierarchy, Nearest, Declares;
    AddMethsFacts(ms, c, P.classes[c].methods);
    NamesAll(P.classes[c]);
    forall m ensures Nearest(P, c, m) == if Declares(P.classes[c], m) then c else Nearest(P, Up(P, c), m) {
      NearestUp(P, c, m);
    }
    NotNoClass(P, c);
  }

  lemma NearestUp(P: Program, c: ClassName, m: Name)
    requires Hierarchy(P) && c in P.classes
    ensures Nearest(P, c, m) == if Declares(P.classes[c], m) then c else Nearest(P, Up(P, c), m)
  {
    hide Declares;
  }

  lemma NotNoClass(P: Program, c: ClassName)
    requires Hierarchy(P) && c in P.classes
    ensures c != NoClass
  {
  }

  lemma {:induction false} MethPrefix(P: Program, c: ClassName, d: ClassName)
    requires Hierarchy(P) && HasClass(P, c) && HasClass(P, d) && Inherits(P, c, d)
    ensures MethLayout(P, d).layout <= MethLayout(P, c).layout
    decreases Level(P, c)
  {
    if c != d {
      MethPrefix(P, Up(P, c), d);
      MethNearest(P, Up(P, c));
      AddMethsFacts(MethLayout(P, Up(P, c)), c, P.classes[c].methods);
    }
  }

  /** method_offset: the slot of `m` in the table of `c`. */
  ghost function Slot(P: Program, c: ClassName, m: Name): (i: nat)
    requires Hierarchy(P) && HasClass(P, c) && Nearest(P, c, m) != NoClass
    ensures i < |MethLayout(P, c).layout| && MethLayout(P, c).layout[i] == m
  {
    MethNearest(P, c);
    var i: nat :| i < |MethLayout(P, c).layout| && MethLayout(P, c).layout[i] == m;
    i
  }

  /**
    Dynamic dispatch: the slot that the generator picks through the static class `d` holds, in
    the table of every run-time class `c` below `d`, the same method with its nearest definer.
   */
  lemma SlotFindsNearest(P: Program, c: ClassName, d: ClassName, m: Name)
    requires Hierarchy(P) && HasClass(P, c) && HasClass(P, d) && Inherits(P, c, d)
    requires Nearest(P, d, m) != NoClass
    ensures Nearest(P, c, m) != NoClass
    ensures Slot(P, d, m) < |MethLayout(P, c).layout| && MethLayout(P, c).layout[Slot(P, d, m)] == m
    ensures m in MethLayout(P, c).definer && MethLayout(P, c).definer[m] == Nearest(P, c, m)
    ensures Inherits(P, Nearest(P, c, m), Nearest(P, d, m))
  {
    MethPrefix(P, c, d);
    MethNearest(P, c);
    MethNearest(P, d);
    NearestBelow(P, c, d, m);
  }

  /** Going down the hierarchy can only bring the definition nearer. */
  lemma {:induction false} NearestBelow(P: Program, c: ClassName, d: ClassName, m: Name)
    requires Hierarchy(P) && HasClass(P, c) && HasClass(P, d) && Inherits(P, c, d)
    requires Nearest(P, d, m) != NoClass
    ensures Nearest(P, c, m) != NoClass && Inherits(P, Nearest(P, c, m), Nearest(P, d, m))
    decreases Level(P, c)
  {
    if c != d {
      if Declares(P.classes[c], m) {
        AncTransitive(Parents(P), c, d, Nearest(P, d, m));
      } else {
        NearestBelow(P, Up(P, c), d, m);
      }
    }
  }

  // ---------------------------------------------------------------------------------------------
  // The generator's own traversal, over linked nodes that are filled in on demand.

  class CgenNode {
    const name: ClassName
    const parent: ClassName
    const attrs: seq<Attr>
    const methods: seq<Method>
    var parentnd: CgenNode?
    var hasCalcedLayout: bool
    var attrsLayout: seq<Attr>
    var methsLayout: seq<Name>
    var methClassMap: map<Name, ClassName>

    constructor (name: ClassName, cls: Class)
      ensures this.name == name && parent == cls.parent && attrs == cls.attrs && methods == cls.methods
      ensures parentnd == null && !hasCalcedLayout
      ensures attrsLayout == [] && methsLayout == [] && methClassMap == map[]
    {
      this.name, parent, attrs, methods := name, cls.parent, cls.attrs, cls.methods;
      parentnd, hasCalcedLayout := null, false;
      attrsLayout, methsLayout, methClassMap := [], [], map[];
    }

    ghost function Methods(): Meths
      reads this
    {
      Meths(methsLayout, methClassMap)
    }

    /** The part of calc_layout() that runs once the parent has its layout. */
    method Extend()
      requires parentnd != null && parentnd != this
      modifies this
      ensures parentnd == old(parentnd) && hasCalcedLayout
      ensures attrsLayout == old(parentnd.attrsLayout) + attrs
      ensures Methods() == AddMeths(old(parentnd.Methods()), name, methods)
    {
      attrsLayout := parentnd.attrsLayout;
      methsLayout := parentnd.methsLayout;
      methClassMap := parentnd.methClassMap;
      attrsLayout := attrsLayout + attrs;
      var i := 0;
      while i < |methods|
        invariant 0 <= i <= |methods| && parentnd == old(parentnd)
        invariant attrsLayout == old(parentnd.attrsLayout) + attrs
        invariant Methods() == AddMeths(old(parentnd.Methods()), name, methods[..i])
      {
        var meth := methods[i];
        assert methods[..i + 1][..i] == methods[..i];
        if meth.name !in methClassMap {
          methsLayout := methsLayout + [meth.name];
        }
        methClassMap := methClassMap[meth.name := name];
        i := i + 1;
      }
      assert methods[..i] == methods;
      hasCalcedLayout := true;
    }

    /** method_offset() by linear search; -1 stands for ~0. */
    method MethodOffset(m: Name) returns (i: int)
      ensures i == -1 ==> m !in methsLayout
      ensures i != -1 ==> 0 <= i < |methsLayout| && methsLayout[i] == m
    {
      i := 0;
      while i < |methsLayout|
        invariant 0 <= i <= |methsLayout|
        invariant forall j :: 0 <= j < i ==> methsLayout[j] != m
      {
        if methsLayout[i] == m {
          return;
        }
        i := i + 1;
      }
      i := -1;
    }
  }

  class CgenClassTable {
    const nodes: map<ClassName, CgenNode>

    constructor (nodes: map<ClassName, CgenNode>)
      ensures this.nodes == nodes
    {
      this.nodes := nodes;
    }

    /** The nodes mirror the program, and a node that has a layout has the right one. */
    ghost predicate Valid(P: Program)
      reads nodes.Values
    {
      && Hierarchy(P)
      && nodes.Keys == P.classes.Keys + {NoClass}
      && (forall c :: c in nodes ==> nodes[c].name == c)
      && (forall c :: c in P.classes ==> Mirrors(P, c))
      && nodes[NoClass].hasCalcedLayout
      && forall c :: c in nodes ==> LaidOut(P, c)
    }

    ghost predicate Mirrors(P: Program, c: ClassName)
      requires c in P.classes && c in nodes
      reads nodes[c]
    {
      var nd, cls := nodes[c], P.classes[c];
      && nd.parent == cls.parent && nd.attrs == cls.attrs && nd.methods == cls.methods
      && cls.parent in nodes && nd.parentnd == nodes[cls.parent]
    }

    ghost predicate LaidOut(P: Program, c: ClassName)
      requires Hierarchy(P) && HasClass(P, c) && c in nodes
      reads nodes[c]
    {
      nodes[c].hasCalcedLayout ==>
        nodes[c].attrsLayout == AttrLayout(P, c) && nodes[c].Methods() == MethLayout(P, c)
    }

    /** Copies the layout of a parent that has one. */
    method ExtendNode(nd: CgenNode, ghost P: Program)
      requires Valid(P)
      requires nd.name in P.classes && nodes[nd.name] == nd
      requires nd.parentnd != null && nd.parentnd.hasCalcedLayout
      modifies nd
      ensures Valid(P) && nd.hasCalcedLayout
    {
      ghost var c, up := nd.name, Up(P, nd.name);
      assert Mirrors(P, c) && LaidOut(P, up) && nd.parentnd == nodes[up];
      nd.Extend();
      assert Mirrors(P, c) && LaidOut(P, c);
      forall d | d in nodes && d != c ensures LaidOut(P, d) && (d in P.classes ==> Mirrors(P, d)) {
        assert nodes[d] != nd;
      }
    }

    method CalcLayout(nd: CgenNode, ghost P: Program)
      requires Valid(P)
      requires nd.name in P.classes && nodes[nd.name] == nd
      modifies nodes.Values
      ensures Valid(P) && nd.hasCalcedLayout
      ensures forall c :: c in nodes && old(nodes[c].hasCalcedLayout) ==> nodes[c].hasCalcedLayout
      decreases Level(P, nd.name)
    {
      if nd.hasCalcedLayout {
        return;
      }
      assert Mirrors(P, nd.name) && nd.parentnd == nodes[Up(P, nd.name)];
      if nd.parent != NoClass {
        CalcLayout(nd.parentnd, P);
        assert Mirrors(P, nd.name);
      }
      ExtendNode(nd, P);
    }

    /** calc_classes_layout(): after it every class has its layout. */
    method CalcClassesLayout(nds: seq<CgenNode>, ghost P: Program)
      requires Valid(P)
      requires forall nd :: nd in nds ==> nd.name in P.classes && nodes[nd.name] == nd
      modifies nodes.Values
      ensures Valid(P)
      ensures forall nd :: nd in nds ==>
        nd.hasCalcedLayout && nd.attrsLayout == AttrLayout(P, nd.name) && nd.Methods() == MethLayout(P, nd.name)
    {
      hide Hierarchy, Valid, AttrLayout, MethLayout;
      NodesKnown(P);
      var i := 0;
      while i < |nds|
        invariant 0 <= i <= |nds| && Valid(P) && forall c :: c in P.classes ==> c in nodes
        invariant forall j :: 0 <= j < i ==> nodes[nds[j].name].hasCalcedLayout
      {
        CalcLayout(nds[i], P);
        i := i + 1;
      }
      forall nd | nd in nds
        ensures nd.hasCalcedLayout && nd.attrsLayout == AttrLayout(P, nd.name) && nd.Methods() == MethLayout(P, nd.name)
      {
        LayoutIs(P, nd);
      }
    }

    lemma NodesKnown(P: Program)
      requires Valid(P)
      ensures Hierarchy(P) && forall c :: c in P.classes ==> c in nodes && HasClass(P, c)
    {
    }

    lemma LayoutIs(P: Program, nd: CgenNode)
      requires Valid(P) && nd.name in P.classes && nodes[nd.name] == nd && nd.hasCalcedLayout
      ensures Hierarchy(P)
      ensures nd.attrsLayout == AttrLayout(P, nd.name) && nd.Methods() == MethLayout(P, nd.name)
    {
      hide Hierarchy, AttrLayout, MethLayout;
      assert LaidOut(P, nd.name);
    }
  }
}
