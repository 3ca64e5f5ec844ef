/**
  Class tags and `case` (assign_class_tags, arrange_branches in PA5/cgen.cc).  A depth-first
  numbering gives every class the interval of its descendants' tags; the branches of a `case` are
  emitted so that the first interval test that succeeds belongs to the closest ancestor.
 */
module ClassTags {
  import opened CoolNames
  import opened Inheritance
  import opened CoolSyntax
  import opened IntSets

  /** The tag interval of `d` takes in that of `c` exactly when `c` descends from `d`. */
  ghost predicate TagPair(P: Program, c: ClassName, d: ClassName)
    requires Hierarchy(P) && HasClass(P, c) && c in P.tag && c in P.tagEnd && d in P.tag && d in P.tagEnd
  {
    && (P.tag[d] <= P.tag[c] <= P.tagEnd[d] <==> Inherits(P, c, d))
    && (Inherits(P, c, d) ==> P.tagEnd[c] <= P.tagEnd[d])
    && P.tag[c] <= P.tagEnd[c]
  }

  /** `_class_tag` and `_class_tag_end` describe the descendants of each class. */
  ghost predicate TagsOK(P: Program)
    requires Hierarchy(P)
  {
    && P.tag.Keys == P.classes.Keys && P.tagEnd.Keys == P.classes.Keys
    && forall c, d {:trigger TagPair(P, c, d)} :: c in P.classes && d in P.classes ==> TagPair(P, c, d)
  }

  // ---------------------------------------------------------------------------------------------
  // Depth-first numbering, over the inheritance relation given as a set of (descendant, ancestor) pairs.

  type Relation = set<(ClassName, ClassName)>
  type Children = map<ClassName, seq<ClassName>>

  ghost function Desc(R: Relation, c: ClassName): set<ClassName> {
    set p | p in R && p.1 == c :: p.0
  }

  ghost predicate Distinct<T>(s: seq<T>) {
    forall i, j :: 0 <= i < j < |s| ==> s[i] != s[j]
  }

  /** No class of one set inherits from a class of the other. */
  ghost predicate Apart(R: Relation, s: set<ClassName>, t: set<ClassName>) {
    s !! t && forall x, y :: x in s && y in t ==> (x, y) !in R && (y, x) !in R
  }

  /** The subtree of `c` is `c` on top of the subtrees of its children `l`, which are apart. */
  ghost predicate Family(R: Relation, c: ClassName, l: seq<ClassName>) {
    && c in Desc(R, c)
    && (forall x :: x in Desc(R, c) && (c, x) in R ==> x == c)
    && (forall k :: k in l ==> Desc(R, k) < Desc(R, c) && c !in Desc(R, k))
    && (forall d :: d in Desc(R, c) && d != c ==> exists k :: k in l && d in Desc(R, k))
    && forall i, j :: 0 <= i < j < |l| ==> Apart(R, Desc(R, l[i]), Desc(R, l[j]))
  }

  ghost predicate Forest(R: Relation, cs: set<ClassName>, kids: Children) {
    && cs <= kids.Keys
    && forall c :: c in cs ==> Family(R, c, kids[c]) && forall k :: k in kids[c] ==> k in cs
  }

  /** The tagged classes of `s` lie in [lo, hi) and nest as the classes of `s` inherit. */
  ghost predicate Numbered(R: Relation, s: set<ClassName>, tag: map<ClassName, int>, tagEnd: map<ClassName, int>, lo: int, hi: int)
  {
    && s <= tag.Keys && s <= tagEnd.Keys
    && (forall d :: d in s ==> lo <= tag[d] <= tagEnd[d] < hi)
    && (forall x, y :: x in s && y in s && (x, y) in R ==> tagEnd[x] <= tagEnd[y])
    && forall x, y :: x in s && y in s ==> (tag[y] <= tag[x] <= tagEnd[y] <==> (x, y) in R)
  }

  /** Numbering a set `t` that is apart from the numbered set `s` keeps the numbering of `s`. */
  lemma NumberedUnion(R: Relation, s: set<ClassName>, t: set<ClassName>, tag: map<ClassName, int>, tagEnd: map<ClassName, int>, tag1: map<ClassName, int>, tagEnd1: map<ClassName, int>, lo: int, mid: int, hi: int)
    requires lo <= mid <= hi && Apart(R, s, t)
    requires Numbered(R, s, tag, tagEnd, lo, mid) && Numbered(R, t, tag1, tagEnd1, mid, hi)
    requires forall c :: c in tag ==> c in tag1 && tag1[c] == tag[c]
    requires forall c :: c in tagEnd ==> c in tagEnd1 && tagEnd1[c] == tagEnd[c]
    ensures Numbered(R, s + t, tag1, tagEnd1, lo, hi)
  {
  }

  /** The interval of a class is that of its descendants with its own tag in front. */
  lemma NumberedRoot(R: Relation, nd: ClassName, l: seq<ClassName>, tag: map<ClassName, int>, tagEnd: map<ClassName, int>, lo: int, hi: int)
    requires Family(R, nd, l)
    requires Numbered(R, Desc(R, nd) - {nd}, tag, tagEnd, lo + 1, hi) && lo < hi && nd in tag && tag[nd] == lo
    ensures Numbered(R, Desc(R, nd), tag, tagEnd[nd := hi - 1], lo, hi)
  {
    var e := tagEnd[nd := hi - 1];
    forall x, y | x in Desc(R, nd) && y in Desc(R, nd)
      ensures (tag[y] <= tag[x] <= e[y] <==> (x, y) in R) && ((x, y) in R ==> e[x] <= e[y])
    {
    }
  }

  /** The descendants of the first children of a class. */
  ghost function Under(R: Relation, l: seq<ClassName>): set<ClassName> {
    set p | p in R && p.1 in l :: p.0
  }

  lemma UnderStep(R: Relation, c: ClassName, l: seq<ClassName>, i: nat)
    requires Family(R, c, l) && i < |l|
    ensures Under(R, l[..i + 1]) == Under(R, l[..i]) + Desc(R, l[i])
    ensures Apart(R, Under(R, l[..i]), Desc(R, l[i]))
    ensures Desc(R, l[i]) <= Under(R, l)
  {
    assert l[..i + 1] == l[..i] + [l[i]];
    forall x, y | x in Under(R, l[..i]) && y in Desc(R, l[i])
      ensures x != y && (x, y) !in R && (y, x) !in R
    {
      var p :| p in R && p.1 in l[..i] && p.0 == x;
      var j :| 0 <= j < i && l[j] == p.1;
      assert x in Desc(R, l[j]);
      assert Apart(R, Desc(R, l[j]), Desc(R, l[i]));
    }
  }

  lemma UnderAll(R: Relation, c: ClassName, l: seq<ClassName>)
    requires Family(R, c, l)
    ensures Under(R, l) == Desc(R, c) - {c}
  {
    forall d | d in Desc(R, c) - {c} ensures d in Under(R, l) {
      var k :| k in l && d in Desc(R, k);
    }
    forall d | d in Under(R, l) ensures d in Desc(R, c) - {c} {
      var p :| p in R && p.1 in l && p.0 == d;
      assert d in Desc(R, p.1);
    }
  }

  /** `tag1` has the entries of `tag0` and those of the new classes `s`. */
  ghost predicate Extends(tag0: map<ClassName, int>, s: set<ClassName>, tag1: map<ClassName, int>) {
    tag1.Keys == tag0.Keys + s && forall c :: c in tag0 ==> tag1[c] == tag0[c]
  }

  lemma ExtendsTwice(tag0: map<ClassName, int>, s: set<ClassName>, tag1: map<ClassName, int>, t: set<ClassName>, tag2: map<ClassName, int>, u: set<ClassName>)
    requires Extends(tag0, s, tag1) && Extends(tag1, t, tag2) && u == s + t
    ensures Extends(tag0, u, tag2)
  {
  }

  /** What numbering does from one state to a later one: the classes `s` get the next tags. */
  ghost predicate Numbers(R: Relation, s: set<ClassName>, tag0: map<ClassName, int>, end0: map<ClassName, int>, n0: int, tag1: map<ClassName, int>, end1: map<ClassName, int>, n1: int) {
    Extends(tag0, s, tag1) && Extends(end0, s, end1) && n0 <= n1 && Numbered(R, s, tag1, end1, n0, n1)
  }

  /** One more child of `nd`. */
  lemma NumbersStep(R: Relation, nd: ClassName, l: seq<ClassName>, i: nat, tag0: map<ClassName, int>, end0: map<ClassName, int>, n0: int, tag1: map<ClassName, int>, end1: map<ClassName, int>, n1: int, tag2: map<ClassName, int>, end2: map<ClassName, int>, n2: int)
    requires Family(R, nd, l) && i < |l|
    requires Numbers(R, Under(R, l[..i]), tag0, end0, n0, tag1, end1, n1)
    requires Numbers(R, Desc(R, l[i]), tag1, end1, n1, tag2, end2, n2)
    ensures Numbers(R, Under(R, l[..i + 1]), tag0, end0, n0, tag2, end2, n2)
  {
    hide Apart, Under, Desc, Family, Numbered;
    UnderStep(R, nd, l, i);
    ExtendsTwice(tag0, Under(R, l[..i]), tag1, Desc(R, l[i]), tag2, Under(R, l[..i + 1]));
    ExtendsTwice(end0, Under(R, l[..i]), end1, Desc(R, l[i]), end2, Under(R, l[..i + 1]));
    NumberedUnion(R, Under(R, l[..i]), Desc(R, l[i]), tag1, end1, tag2, end2, n0, n1, n2);
  }

  /** The descendants of the next child have no tags yet. */
  lemma NextChild(R: Relation, nd: ClassName, l: seq<ClassName>, i: nat, tag0: map<ClassName, int>, end0: map<ClassName, int>, n0: int, tag1: map<ClassName, int>, end1: map<ClassName, int>, n1: int)
    requires Family(R, nd, l) && i < |l|
    requires tag0.Keys !! Under(R, l) && end0.Keys !! Under(R, l)
    requires Numbers(R, Under(R, l[..i]), tag0, end0, n0, tag1, end1, n1)
    ensures tag1.Keys !! Desc(R, l[i]) && end1.Keys !! Desc(R, l[i])
    ensures Desc(R, l[i]) < Desc(R, nd)
  {
    UnderStep(R, nd, l, i);
    assert l[i] in l;
    hide Under, Desc, Numbered;
  }

  lemma NoneNumbered(R: Relation, tag: map<ClassName, int>, tagEnd: map<ClassName, int>, n: int)
    ensures Numbers(R, Under(R, []), tag, tagEnd, n, tag, tagEnd, n)
  {
    assert Under(R, []) == {};
  }

  /** A class and then its descendants. */
  lemma NumbersRoot(R: Relation, nd: ClassName, l: seq<ClassName>, tag0: map<ClassName, int>, end0: map<ClassName, int>, n0: int, tag1: map<ClassName, int>, end1: map<ClassName, int>, n1: int)
    requires Family(R, nd, l) && nd !in tag0 && nd !in end0
    requires Numbers(R, Under(R, l), tag0[nd := n0], end0, n0 + 1, tag1, end1, n1)
    ensures Numbers(R, Desc(R, nd), tag0, end0, n0, tag1, end1[nd := n1 - 1], n1)
  {
    hide Under, Desc, Numbered;
    UnderAll(R, nd, l);
    NumberedRoot(R, nd, l, tag1, end1, n0, n1);
  }

  /** A class of the forest, its children, and the tags they do not have yet. */
  lemma Unnumbered(R: Relation, cs: set<ClassName>, kids: Children, nd: ClassName, tag: map<ClassName, int>, tagEnd: map<ClassName, int>, n: int)
    requires Forest(R, cs, kids) && nd in cs
    requires tag.Keys !! Desc(R, nd) && tagEnd.Keys !! Desc(R, nd)
    ensures Family(R, nd, kids[nd]) && nd !in tag && nd !in tagEnd
    ensures tag[nd := n].Keys !! Under(R, kids[nd]) && tagEnd.Keys !! Under(R, kids[nd])
  {
    assert Family(R, nd, kids[nd]);
    UnderAll(R, nd, kids[nd]);
  }

  lemma FamilyIn(R: Relation, cs: set<ClassName>, kids: Children, nd: ClassName)
    requires Forest(R, cs, kids) && nd in cs
    ensures nd in kids && Family(R, nd, kids[nd]) && forall i :: 0 <= i < |kids[nd]| ==> kids[nd][i] in cs
  {
    hide Family;
  }

  class Tagger {
    const kids: Children
    var nextClasstag: int
    var tag: map<ClassName, int>
    var tagEnd: map<ClassName, int>

    constructor (kids: Children)
      ensures this.kids == kids && nextClasstag == 0 && tag == map[] && tagEnd == map[]
    {
      this.kids, nextClasstag, tag, tagEnd := kids, 0, map[], map[];
    }

    /** assign_class_tags_impl */
    method AssignImpl(nd: ClassName, ghost R: Relation, ghost cs: set<ClassName>)
      requires Forest(R, cs, kids) && nd in cs
      requires tag.Keys !! Desc(R, nd) && tagEnd.Keys !! Desc(R, nd)
      modifies this
      ensures Numbers(R, Desc(R, nd), old(tag), old(tagEnd), old(nextClasstag), tag, tagEnd, nextClasstag)
      decreases Desc(R, nd), 1
    {
      hide *;
      FamilyIn(R, cs, kids, nd);
      Unnumbered(R, cs, kids, nd, tag, tagEnd, nextClasstag);
      tag := tag[nd := nextClasstag];
      nextClasstag := nextClasstag + 1;
      AssignChildren(nd, R, cs);
      NumbersRoot(R, nd, kids[nd], old(tag), old(tagEnd), old(nextClasstag), tag, tagEnd, nextClasstag);
      tagEnd := tagEnd[nd := nextClasstag - 1];
    }

    /** The loop of assign_class_tags_impl over the children of `nd`. */
    method AssignChildren(nd: ClassName, ghost R: Relation, ghost cs: set<ClassName>)
      requires Forest(R, cs, kids) && nd in cs
      requires tag.Keys !! Under(R, kids[nd]) && tagEnd.Keys !! Under(R, kids[nd])
      modifies this
      ensures Numbers(R, Under(R, kids[nd]), old(tag), old(tagEnd), old(nextClasstag), tag, tagEnd, nextClasstag)
      decreases Desc(R, nd), 0
    {
      hide *;
      FamilyIn(R, cs, kids, nd);
      var l := kids[nd];
      NoneNumbered(R, tag, tagEnd, nextClasstag);
      assert l[..0] == [];
      var i := 0;
      while i < |l|
        invariant 0 <= i <= |l|
        invariant Numbers(R, Under(R, l[..i]), old(tag), old(tagEnd), old(nextClasstag), tag, tagEnd, nextClasstag)
      {
        ghost var tag1, end1, n1 := tag, tagEnd, nextClasstag;
        NextChild(R, nd, l, i, old(tag), old(tagEnd), old(nextClasstag), tag1, end1, n1);
        AssignImpl(l[i], R, cs);
        NumbersStep(R, nd, l, i, old(tag), old(tagEnd), old(nextClasstag), tag1, end1, n1, tag, tagEnd, nextClasstag);
        i := i + 1;
      }
      assert l[..i] == l;
    }
  }

  // ---------------------------------------------------------------------------------------------
  // The inheritance tree of a program is such a forest.

  /** `kids` lists, for each class, its children among the classes `nds`. */
  ghost predicate ChildrenAmong(parent: map<ClassName, ClassName>, kids: Children, nds: set<ClassName>) {
    && nds <= parent.Keys
    && kids.Keys == parent.Keys + {NoClass}
    && forall c :: c in kids ==> ListsChildren(parent, kids[c], nds, c)
  }

  /** The list of class `c`. */
  ghost predicate ListsChildren(parent: map<ClassName, ClassName>, l: seq<ClassName>, nds: set<ClassName>, c: ClassName) {
    Distinct(l) && forall k :: k in l <==> k in nds && k in parent && parent[k] == c
  }

  lemma PushChild(parent: map<ClassName, ClassName>, l: seq<ClassName>, nds: set<ClassName>, nd: ClassName, c: ClassName)
    requires ListsChildren(parent, l, nds, c) && nd in parent && nd !in nds
    ensures ListsChildren(parent, if parent[nd] == c then [nd] + l else l, nds + {nd}, c)
  {
    var r := [nd] + l;
    forall j | 1 <= j < |r| ensures r[j] in l {
      assert r[j] == l[j - 1];
    }
    forall k ensures k in r <==> k == nd || k in l {
    }
  }

  lemma AddChild(parent: map<ClassName, ClassName>, kids: Children, nds: set<ClassName>, nd: ClassName)
    requires ChildrenAmong(parent, kids, nds) && nd in parent && nd !in nds && parent[nd] in kids
    ensures ChildrenAmong(parent, kids[parent[nd] := [nd] + kids[parent[nd]]], nds + {nd})
  {
    hide ListsChildren;
    forall c | c in kids ensures ListsChildren(parent, kids[parent[nd] := [nd] + kids[parent[nd]]][c], nds + {nd}, c) {
      PushChild(parent, kids[c], nds, nd, c);
    }
  }

  lemma NoChildrenYet(parent: map<ClassName, ClassName>, kids: Children)
    requires kids.Keys == parent.Keys + {NoClass} && forall c :: c in kids ==> kids[c] == []
    ensures ChildrenAmong(parent, kids, {})
  {
  }

  lemma NextNew(order: seq<ClassName>, i: nat)
    requires Distinct(order) && i < |order|
    ensures order[i] !in order[..i] && order[..i + 1] == order[..i] + [order[i]]
  {
  }

  /** build_inheritance_tree: each class is pushed on the front of its parent's list of children. */
  method BuildInheritanceTree(order: seq<ClassName>, parent: map<ClassName, ClassName>) returns (kids: Children)
    requires (forall c :: c in order <==> c in parent) && Distinct(order)
    requires forall c :: c in parent ==> parent[c] in parent || parent[c] == NoClass
    ensures ChildrenAmong(parent, kids, parent.Keys)
  {
    hide *;
    kids := map c | c in parent.Keys + {NoClass} :: [];
    NoChildrenYet(parent, kids);
    var i := 0;
    ghost var nds: set<ClassName> := {};
    while i < |order|
      invariant 0 <= i <= |order|
      invariant forall c :: c in nds <==> c in order[..i]
      invariant kids.Keys == parent.Keys + {NoClass} && ChildrenAmong(parent, kids, nds)
    {
      var nd := order[i];
      NextNew(order, i);
      AddChild(parent, kids, nds, nd);
      kids := kids[parent[nd] := [nd] + kids[parent[nd]]];
      nds := nds + {nd};
      i := i + 1;
    }
    assert order[..i] == order;
    assert nds == parent.Keys;
  }

  /** A proper descendant of `c` descends from one of the classes whose parent is `c`. */
  lemma {:induction false} DescThroughChild(g: Graph, d: ClassName, c: ClassName) returns (k: ClassName)
    requires Grounded(g) && c in g && d in g && d != c && Anc(g, d, c)
    ensures k in g && g[k] == c && Anc(g, d, k)
    decreases Height(g, d)
  {
    HeightParent(g, d);
    if g[d] == c {
      k := d;
    } else {
      AncInTree(g, g[d], c);
      k := DescThroughChild(g, g[d], c);
    }
  }

  lemma ChildBelow(g: Graph, k: ClassName, c: ClassName)
    requires Grounded(g) && c in g && k in g && g[k] == c
    ensures Anc(g, k, c) && !Anc(g, c, k)
  {
    HeightParent(g, k);
    if Anc(g, c, k) {
      AncInTree(g, c, k);
    }
  }

  /** No class of one child's subtree inherits from a class of another's. */
  lemma SiblingsApart(g: Graph, k: ClassName, l: ClassName, x: ClassName, y: ClassName)
    requires Grounded(g) && k in g && l in g && k != l && g[k] == g[l]
    requires x in g && y in g && Anc(g, x, k) && Anc(g, y, l)
    ensures !Anc(g, x, y)
  {
    if Anc(g, x, y) {
      AncTransitive(g, x, y, l);
      HeightParent(g, k);
      HeightParent(g, l);
      AncChain(g, x, k, l);
      AncInTree(g, l, k);
    }
  }

  lemma FamilyOf(g: Graph, R: Relation, c: ClassName, l: seq<ClassName>)
    requires Grounded(g) && IsOrder(g, R) && c in g && Distinct(l)
    requires forall k :: k in l <==> k in g && g[k] == c
    ensures Family(R, c, l)
  {
    forall x | x in Desc(R, c) && (c, x) in R ensures x == c {
      AncAntisymmetric(g, c, x);
    }
    forall k | k in l ensures Desc(R, k) < Desc(R, c) && c !in Desc(R, k) {
      ChildBelow(g, k, c);
      forall d | d in Desc(R, k) ensures d in Desc(R, c) {
        assert (d, k) in R;
        AncTransitive(g, d, k, c);
        assert (d, c) in R;
      }
      assert (c, c) in R && (c, k) !in R;
      assert c in Desc(R, c);
    }
    forall d | d in Desc(R, c) && d != c ensures exists k :: k in l && d in Desc(R, k) {
      assert (d, c) in R;
      var k := DescThroughChild(g, d, c);
      assert (d, k) in R;
      assert d in Desc(R, k);
    }
    forall i, j | 0 <= i < j < |l| ensures Apart(R, Desc(R, l[i]), Desc(R, l[j])) {
      forall x, y | x in Desc(R, l[i]) && y in Desc(R, l[j])
        ensures x != y && (x, y) !in R && (y, x) !in R
      {
        assert l[i] in l && l[j] in l;
        assert (x, l[i]) in R && (y, l[j]) in R;
        SiblingsApart(g, l[i], l[j], x, y);
        SiblingsApart(g, l[j], l[i], y, x);
      }
    }
    assert (c, c) in R;
  }

  /** `R` lists the pairs of the inheritance order of `g`. */
  ghost predicate IsOrder(g: Graph, R: Relation)
    requires Grounded(g)
  {
    forall x, y :: (x, y) in R <==> x in g && y in g && Anc(g, x, y)
  }

  lemma ForestOf(g: Graph, R: Relation, kids: Children)
    requires ParentsKnown(g) && Grounded(g) && IsOrder(g, R) && ChildrenAmong(g, kids, g.Keys)
    ensures Forest(R, g.Keys, kids)
  {
    forall c | c in g ensures Family(R, c, kids[c]) && forall k :: k in kids[c] ==> k in g {
      FamilyOf(g, R, c, kids[c]);
    }
  }

  lemma RootDesc(g: Graph, R: Relation)
    requires ParentsKnown(g) && Grounded(g) && IsOrder(g, R)
    ensures Desc(R, ObjectC) == g.Keys
  {
    forall c | c in g ensures c in Desc(R, ObjectC) {
      ObjectIsRoot(g, c);
      assert (c, ObjectC) in R;
    }
  }

  /** The numbering of a whole hierarchy. */
  method NumberClasses(g: Graph, kids: Children, ghost R: Relation) returns (tag: map<ClassName, int>, tagEnd: map<ClassName, int>)
    requires ParentsKnown(g) && Forest(R, g.Keys, kids) && Desc(R, ObjectC) == g.Keys
    ensures tag.Keys == g.Keys && tagEnd.Keys == g.Keys
    ensures exists hi :: Numbered(R, g.Keys, tag, tagEnd, 0, hi)
  {
    var t := new Tagger(kids);
    t.AssignImpl(ObjectC, R, g.Keys);
    tag, tagEnd := t.tag, t.tagEnd;
  }

  /** assign_class_tags: numbering from Object gives every class the interval of its descendants. */
  method AssignClassTags(P: Program) returns (tag: map<ClassName, int>, tagEnd: map<ClassName, int>)
    requires Hierarchy(P)
    requires (forall c :: c in P.order <==> c in P.classes) && Distinct(P.order)
    ensures Hierarchy(P.(tag := tag, tagEnd := tagEnd)) && TagsOK(P.(tag := tag, tagEnd := tagEnd))
  {
    var g := map c | c in P.classes :: P.classes[c].parent;
    assert g == Parents(P);
    ParentsDeclared(g);
    ghost var R := set c, d | c in g && d in g && Anc(g, c, d) :: (c, d);
    var kids := BuildInheritanceTree(P.order, g);
    ForestOf(g, R, kids);
    RootDesc(g, R);
    tag, tagEnd := NumberClasses(g, kids, R);
    TagsFromNumbering(P, g, R, P.(tag := tag, tagEnd := tagEnd));
  }

  lemma ParentsDeclared(g: Graph)
    requires ParentsKnown(g)
    ensures forall c :: c in g ==> g[c] in g || g[c] == NoClass
  {
    forall c | c in g ensures g[c] in g || g[c] == NoClass {
      assert c != ObjectC ==> HasParent(g, c);
    }
  }

  lemma TagsFromNumbering(P: Program, g: Graph, R: Relation, Q: Program)
    requires Hierarchy(P) && g == Parents(P) && Q == P.(tag := Q.tag, tagEnd := Q.tagEnd)
    requires IsOrder(g, R)
    requires Q.tag.Keys == g.Keys && Q.tagEnd.Keys == g.Keys
    requires exists hi :: Numbered(R, g.Keys, Q.tag, Q.tagEnd, 0, hi)
    ensures Hierarchy(Q) && TagsOK(Q)
  {
    assert Parents(Q) == g;
    forall c, d | c in Q.classes && d in Q.classes
      ensures TagPair(Q, c, d)
    {
      assert (c, d) in R <==> Anc(g, c, d);
    }
  }

  // ---------------------------------------------------------------------------------------------
  // The order in which the branches of a `case` are tested.

  datatype Interval = Interval(tag: int, end: int)

  /** Tag intervals of distinct classes: distinct starts, nested or disjoint. */
  ghost predicate Laminar(ivs: seq<Interval>) {
    && (forall i :: 0 <= i < |ivs| ==> ivs[i].tag <= ivs[i].end)
    && (forall i, j :: 0 <= i < j < |ivs| ==> ivs[i].tag != ivs[j].tag)
    && forall i, j :: 0 <= i < |ivs| && 0 <= j < |ivs| && ivs[i].tag <= ivs[j].tag <= ivs[i].end ==> ivs[j].end <= ivs[i].end
  }

  /** Branch `i` is emitted before branch `j`: its interval ends sooner, or lies inside with the same end. */
  predicate Before(ivs: seq<Interval>, i: nat, j: nat)
    requires i < |ivs| && j < |ivs|
  {
    ivs[i].end < ivs[j].end || (ivs[i].end == ivs[j].end && ivs[i].tag > ivs[j].tag)
  }

  ghost predicate Ordered(ivs: seq<Interval>, s: seq<nat>) {
    && (forall a :: 0 <= a < |s| ==> s[a] < |ivs|)
    && forall a, b :: 0 <= a < b < |s| ==> Before(ivs, s[a], s[b])
  }

  /** The reference order: insert the branches one by one. */
  function Insert(ivs: seq<Interval>, s: seq<nat>, i: nat): seq<nat>
    requires i < |ivs| && forall a :: 0 <= a < |s| ==> s[a] < |ivs|
  {
    if s == [] then [i]
    else if Before(ivs, i, s[0]) then [i] + s
    else [s[0]] + Insert(ivs, s[1..], i)
  }

  function ArrangeFirst(ivs: seq<Interval>, n: nat): (s: seq<nat>)
    requires n <= |ivs|
    ensures |s| == n && forall a :: 0 <= a < |s| ==> s[a] < n
  {
    if n == 0 then [] else
      var r := Insert(ivs, ArrangeFirst(ivs, n - 1), n - 1);
      InsertElements(ivs, ArrangeFirst(ivs, n - 1), n - 1);
      assert forall a :: 0 <= a < |r| ==> r[a] in r;
      r
  }

  function Arrange(ivs: seq<Interval>): (s: seq<nat>)
    ensures |s| == |ivs| && forall a :: 0 <= a < |s| ==> s[a] < |ivs|
  {
    ArrangeFirst(ivs, |ivs|)
  }

  lemma {:induction false} InsertElements(ivs: seq<Interval>, s: seq<nat>, i: nat)
    requires i < |ivs| && forall a :: 0 <= a < |s| ==> s[a] < |ivs|
    ensures |Insert(ivs, s, i)| == |s| + 1
    ensures forall x :: x in Insert(ivs, s, i) <==> x in s || x == i
    decreases |s|
  {
    if s != [] && !Before(ivs, i, s[0]) {
      InsertElements(ivs, s[1..], i);
      assert s == [s[0]] + s[1..];
    }
  }

  lemma {:induction false} InsertOrdered(ivs: seq<Interval>, s: seq<nat>, i: nat)
    requires i < |ivs| && Ordered(ivs, s)
    requires forall a :: 0 <= a < |s| ==> ivs[s[a]].tag != ivs[i].tag
    ensures Ordered(ivs, Insert(ivs, s, i))
    decreases |s|
  {
    if s != [] && !Before(ivs, i, s[0]) {
      InsertOrdered(ivs, s[1..], i);
      InsertElements(ivs, s[1..], i);
      var r := Insert(ivs, s[1..], i);
      forall b | 0 <= b < |r| ensures Before(ivs, s[0], r[b]) {
        assert r[b] in r;
        if r[b] != i {
          var a :| 0 <= a < |s[1..]| && s[1..][a] == r[b];
          assert s[a + 1] == r[b];
        }
      }
    }
  }

  lemma {:induction false} ArrangeFirstOrdered(ivs: seq<Interval>, n: nat)
    requires Laminar(ivs) && n <= |ivs|
    ensures Ordered(ivs, ArrangeFirst(ivs, n))
    ensures forall x: nat :: x in ArrangeFirst(ivs, n) <==> x < n
  {
    if n != 0 {
      ArrangeFirstOrdered(ivs, n - 1);
      InsertOrdered(ivs, ArrangeFirst(ivs, n - 1), n - 1);
      InsertElements(ivs, ArrangeFirst(ivs, n - 1), n - 1);
    }
  }

  lemma TailElements(ivs: seq<Interval>, s: seq<nat>)
    requires Ordered(ivs, s) && s != []
    ensures forall x :: x in s[1..] <==> x in s && x != s[0]
  {
    assert s == [s[0]] + s[1..];
    forall a | 1 <= a < |s| ensures s[a] != s[0] {
      assert Before(ivs, s[0], s[a]);
    }
  }

  lemma FirstIn(t: seq<nat>)
    ensures t != [] ==> t[0] in t
  {
  }

  /** An ordered list is determined by its elements. */
  lemma {:induction false} OrderedUnique(ivs: seq<Interval>, s: seq<nat>, t: seq<nat>)
    requires Ordered(ivs, s) && Ordered(ivs, t)
    requires forall x :: x in s <==> x in t
    ensures s == t
    decreases |s|
  {
    if s == [] {
      FirstIn(t);
    } else {
      assert s[0] in s;
      assert t != [];
      assert t[0] in t;
      var a :| 0 <= a < |t| && t[a] == s[0];
      var b :| 0 <= b < |s| && s[b] == t[0];
      assert s[0] == t[0];
      TailElements(ivs, s);
      TailElements(ivs, t);
      OrderedUnique(ivs, s[1..], t[1..]);
      assert s == [s[0]] + s[1..] && t == [t[0]] + t[1..];
    }
  }

  /** `s` is the reference order of the branches whose tags satisfy lo < tag <= hi. */
  ghost predicate Stretch(ivs: seq<Interval>, s: seq<nat>, lo: int, hi: int) {
    && Ordered(ivs, s)
    && (forall x :: x in s ==> lo < ivs[x].tag && ivs[x].end <= hi)
    && forall i: nat :: i < |ivs| && lo < ivs[i].tag <= hi ==> i in s
  }

  lemma StretchAppend(ivs: seq<Interval>, s: seq<nat>, t: seq<nat>, lo: int, mid: int, start: int, hi: int)
    requires Laminar(ivs) && lo <= mid < start <= hi
    requires Stretch(ivs, s, lo, mid) && Stretch(ivs, t, start - 1, hi)
    requires forall i: nat :: i < |ivs| ==> !(mid < ivs[i].tag < start)
    ensures Stretch(ivs, s + t, lo, hi)
  {
    var r := s + t;
    forall a, b | 0 <= a < b < |r| ensures Before(ivs, r[a], r[b]) {
      if a < |s| <= b {
        assert r[a] in s && r[b] in t;
        assert ivs[r[b]].tag <= ivs[r[b]].end;
      }
    }
  }

  /** The branch of a class comes right after the branches of its descendants. */
  lemma StretchRoot(ivs: seq<Interval>, s: seq<nat>, i: nat, mid: int)
    requires Laminar(ivs) && i < |ivs| && mid <= ivs[i].end && ivs[i].tag <= mid
    requires Stretch(ivs, s, ivs[i].tag, mid)
    requires forall j: nat :: j < |ivs| ==> !(mid < ivs[j].tag <= ivs[i].end)
    ensures Stretch(ivs, s + [i], ivs[i].tag - 1, ivs[i].end)
  {
    var r := s + [i];
    forall a, b | 0 <= a < b < |r| ensures Before(ivs, r[a], r[b]) {
      assert b == |s| ==> r[a] in s;
    }
  }

  /** A block of all branches is the reference order. */
  lemma StretchIsArrange(ivs: seq<Interval>, s: seq<nat>, lo: int, hi: int)
    requires Laminar(ivs) && Stretch(ivs, s, lo, hi)
    requires forall i: nat :: i < |ivs| ==> lo < ivs[i].tag <= hi
    ensures s == Arrange(ivs)
  {
    ArrangeFirstOrdered(ivs, |ivs|);
    OrderedUnique(ivs, s, Arrange(ivs));
  }

  lemma NoStretch(ivs: seq<Interval>, lo: int)
    ensures Stretch(ivs, [], lo, lo)
  {
  }

  /** `visited` with the tags above `lo` and up to `hi` marked. */
  ghost function Mark(visited: map<int, bool>, lo: int, hi: int): map<int, bool> {
    map k | k in visited :: visited[k] || lo < k <= hi
  }

  lemma MarkMore(visited: map<int, bool>, lo: int, mid: int, start: int, hi: int)
    requires lo <= mid < start <= hi && forall k :: k in visited ==> !(mid < k < start)
    ensures Mark(Mark(visited, lo, mid), start - 1, hi) == Mark(visited, lo, hi)
  {
  }

  /** Marking up to `hi` leaves the tags above it as they are. */
  lemma MarkBelow(visited: map<int, bool>, lo: int, hi: int, a: int, b: int)
    requires Unvisited(visited, a, b) && hi < a
    ensures Unvisited(Mark(visited, lo, hi), a, b) && Mark(visited, lo, hi).Keys == visited.Keys
  {
  }

  lemma MarkOne(visited: map<int, bool>, tag: int)
    requires tag in visited
    ensures visited[tag := true] == Mark(visited, tag - 1, tag)
  {
  }

  ghost predicate Unvisited(visited: map<int, bool>, lo: int, hi: int) {
    forall k :: k in visited && lo <= k <= hi ==> !visited[k]
  }

  lemma UnvisitedInner(visited: map<int, bool>, lo: int, hi: int, a: int, b: int)
    requires Unvisited(visited, lo, hi) && lo <= a && b <= hi
    ensures Unvisited(visited, a, b)
  {
  }

  /** A tag of a range that was unvisited is marked when it lies in the marked part. */
  lemma MarkedAt(visited: map<int, bool>, lo: int, hi: int, end: int, k: int)
    requires Unvisited(visited, lo + 1, end) && lo < k <= end
    ensures k in Mark(visited, lo, hi) <==> k in visited
    ensures k in visited ==> Mark(visited, lo, hi)[k] == (k <= hi)
  {
  }

  lemma MarkGap(visited: map<int, bool>, lo: int, mid: int, hi: int)
    requires mid <= hi && forall k :: k in visited ==> !(mid < k < hi + 1)
    ensures Mark(visited, lo, mid) == Mark(visited, lo, hi)
  {
  }

  type MetaMap = map<int, (int, nat)>

  /** `meta` records, under each branch's tag, the end of its interval and its position. */
  ghost predicate Describes(ivs: seq<Interval>, meta: MetaMap) {
    && Laminar(ivs)
    && (forall i: nat :: i < |ivs| ==> ivs[i].tag in meta)
    && forall k :: k in meta ==> meta[k].1 < |ivs| && ivs[meta[k].1] == Interval(k, meta[k].0)
  }

  lemma DescribesLaminar(ivs: seq<Interval>, meta: MetaMap)
    requires Describes(ivs, meta)
    ensures Laminar(ivs)
  {
  }

  lemma DescribesNested(ivs: seq<Interval>, meta: MetaMap, j: int, k: int)
    requires Describes(ivs, meta) && j in meta && k in meta && j <= k <= meta[j].0
    ensures k <= meta[k].0 <= meta[j].0
  {
  }

  lemma GapInTags(ivs: seq<Interval>, meta: MetaMap, lo: int, hi: int)
    requires Describes(ivs, meta) && forall k :: k in meta ==> !(lo < k < hi)
    ensures forall i: nat :: i < |ivs| ==> !(lo < ivs[i].tag < hi)
  {
  }

  /** The least pending tag that has not been visited starts a fresh stretch. */
  lemma NextUnvisited(ivs: seq<Interval>, meta: MetaMap, start: map<int, bool>, todo: set<int>, lo: int, hi: int, tag: int)
    requires Describes(ivs, meta) && start.Keys == meta.Keys
    requires (forall k :: k in start ==> !start[k] && lo < k) && tag in start
    requires !Mark(start, lo - 1, hi)[tag]
    requires tag in todo && forall j :: j in todo ==> tag <= j
    requires forall k :: k in meta && k !in todo ==> k <= hi
    ensures hi < tag <= meta[tag].0 && Unvisited(start, tag, meta[tag].0)
    ensures forall k :: k in meta ==> !(hi < k < tag)
  {
    DescribesNested(ivs, meta, tag, tag);
  }

  lemma AllVisited(ivs: seq<Interval>, meta: MetaMap, s: seq<nat>, lo: int, hi: int)
    requires Describes(ivs, meta) && (forall k :: k in meta ==> lo < k <= hi) && Stretch(ivs, s, lo, hi)
    ensures s == Arrange(ivs)
  {
    StretchIsArrange(ivs, s, lo, hi);
  }

  class BranchSorter {
    var visited: map<int, bool>
    const metaMap: MetaMap
    var sorted: seq<nat>

    constructor (visited: map<int, bool>, metaMap: MetaMap)
      ensures this.visited == visited && this.metaMap == metaMap && sorted == []
    {
      this.visited, this.metaMap, sorted := visited, metaMap, [];
    }

    /** arrange_branch_impl: `s` is what it appends to `sorted`. */
    method ArrangeImpl(tag: int, ghost ivs: seq<Interval>) returns (ghost s: seq<nat>)
      requires Describes(ivs, metaMap) && visited.Keys == metaMap.Keys && tag in metaMap
      requires Unvisited(visited, tag, metaMap[tag].0)
      modifies this`visited, this`sorted
      ensures visited == Mark(old(visited), tag - 1, metaMap[tag].0)
      ensures sorted == old(sorted) + s && Stretch(ivs, s, tag - 1, metaMap[tag].0)
      decreases metaMap[tag].0 - tag, 2
    {
      DescribesNested(ivs, metaMap, tag, tag);
      MarkOne(visited, tag);
      visited := visited[tag := true];
      ghost var hi;
      s, hi := Subclasses(tag, ivs, old(visited));
      GapInTags(ivs, metaMap, hi, metaMap[tag].0 + 1);
      StretchRoot(ivs, s, metaMap[tag].1, hi);
      sorted := sorted + [metaMap[tag].1];
      s := s + [metaMap[tag].1];
    }

    /** The loop of arrange_branch_impl over the tags of the subclasses. */
    method Subclasses(tag: int, ghost ivs: seq<Interval>, ghost start: map<int, bool>) returns (ghost s: seq<nat>, ghost hi: int)
      requires Describes(ivs, metaMap) && start.Keys == metaMap.Keys && tag in metaMap && tag <= metaMap[tag].0
      requires Unvisited(start, tag, metaMap[tag].0) && visited == Mark(start, tag - 1, tag)
      modifies this`visited, this`sorted
      ensures visited == Mark(start, tag - 1, metaMap[tag].0)
      ensures tag <= hi <= metaMap[tag].0 && forall k :: k in metaMap ==> !(hi < k < metaMap[tag].0 + 1)
      ensures sorted == old(sorted) + s && Stretch(ivs, s, tag, hi)
      decreases metaMap[tag].0 - tag, 1
    {
      hide *;
      var end := metaMap[tag].0;
      s, hi := [], tag;
      NoStretch(ivs, tag);
      var iterTag := tag + 1;
      while iterTag <= end
        invariant tag <= hi <= end && tag < iterTag && iterTag <= end + 1
        invariant visited == Mark(start, tag - 1, hi)
        invariant forall k :: k in metaMap ==> !(hi < k < iterTag)
        invariant sorted == old(sorted) + s && Stretch(ivs, s, tag, hi)
      {
        MarkedAt(start, tag - 1, hi, end, iterTag);
        if iterTag in visited && !visited[iterTag] {
          DescribesNested(ivs, metaMap, tag, iterTag);
          UnvisitedInner(start, tag, end, iterTag, metaMap[iterTag].0);
          s, hi := VisitBranch(iterTag, hi, tag, s, ivs, start, old(sorted));
        }
        iterTag := iterTag + 1;
      }
      MarkGap(start, tag - 1, hi, end);
    }

    /** One recursive call of the loop, with what it adds to the list so far. */
    method VisitBranch(iterTag: int, ghost hi: int, ghost tag: int, ghost s: seq<nat>, ghost ivs: seq<Interval>, ghost start: map<int, bool>, ghost base: seq<nat>)
      returns (ghost s': seq<nat>, ghost hi': int)
      requires Describes(ivs, metaMap) && start.Keys == metaMap.Keys && iterTag in metaMap
      requires sorted == base + s
      requires tag <= hi && hi < iterTag <= metaMap[iterTag].0 && Stretch(ivs, s, tag, hi)
      requires visited == Mark(start, tag - 1, hi) && Unvisited(start, iterTag, metaMap[iterTag].0)
      requires forall k :: k in metaMap ==> !(hi < k < iterTag)
      modifies this`visited, this`sorted
      ensures hi' == metaMap[iterTag].0 && visited == Mark(start, tag - 1, hi')
      ensures sorted == base + s'
      ensures Stretch(ivs, s', tag, hi')
      decreases metaMap[iterTag].0 - iterTag, 3
    {
      hide *;
      MarkMore(start, tag - 1, hi, iterTag, metaMap[iterTag].0);
      MarkBelow(start, tag - 1, hi, iterTag, metaMap[iterTag].0);
      DescribesLaminar(ivs, metaMap);
      ghost var t := ArrangeImpl(iterTag, ivs);
      hi' := metaMap[iterTag].0;
      GapInTags(ivs, metaMap, hi, iterTag);
      StretchAppend(ivs, s, t, tag, hi, iterTag, hi');
      s' := s + t;
    }

    /** The outer loop, over the tags in increasing order. */
    method VisitAll(ghost ivs: seq<Interval>) returns (r: seq<nat>)
      requires Describes(ivs, metaMap) && visited.Keys == metaMap.Keys && sorted == []
      requires forall k :: k in visited ==> !visited[k]
      modifies this`visited, this`sorted
      ensures r == Arrange(ivs)
    {
      hide Laminar, Stretch, Ordered;
      var todo := visited.Keys;
      ghost var lo := LowerBound(todo);
      NoStretch(ivs, lo);
      ghost var start, hi, s := visited, lo, [];
      while todo != {}
        invariant todo <= metaMap.Keys && lo <= hi
        invariant forall k :: k in metaMap && k !in todo ==> k <= hi
        invariant visited == Mark(start, lo - 1, hi)
        invariant sorted == s && Stretch(ivs, s, lo, hi)
        decreases todo
      {
        var tag := FirstKey(todo);
        if !visited[tag] {
          NextUnvisited(ivs, metaMap, start, todo, lo, hi, tag);
          s, hi := VisitBranch(tag, hi, lo, s, ivs, start, []);
        }
        todo := todo - {tag};
      }
      r := sorted;
      AllVisited(ivs, metaMap, r, lo, hi);
    }
  }

  /** arrange_branches: the depth-first traversal leaves the branches in the reference order. */
  method ArrangeBranches(ivs: seq<Interval>) returns (sorted: seq<nat>)
    requires Laminar(ivs)
    ensures sorted == Arrange(ivs)
  {
    var visited: map<int, bool> := map[];
    var metaMap: MetaMap := map[];
    var i := 0;
    while i < |ivs|
      invariant 0 <= i <= |ivs| && visited.Keys == metaMap.Keys
      invariant forall j: nat :: j < i ==> ivs[j].tag in metaMap
      invariant forall k :: k in metaMap ==> metaMap[k].1 < i && ivs[metaMap[k].1] == Interval(k, metaMap[k].0)
      invariant forall k :: k in visited ==> !visited[k]
    {
      visited := visited[ivs[i].tag := false];
      metaMap := metaMap[ivs[i].tag := (ivs[i].end, i)];
      i := i + 1;
    }
    var sorter := new BranchSorter(visited, metaMap);
    sorted := sorter.VisitAll(ivs);
  }

  // ---------------------------------------------------------------------------------------------
  // What a `case` selects.

  ghost predicate IsBranch(types: seq<ClassName>, c: ClassName) {
    exists i :: 0 <= i < |types| && types[i] == c
  }

  /** The branch of the closest ancestor of `c`, the one that section 7.9 of the Cool manual selects. */
  ghost function Closest(P: Program, c: ClassName, types: seq<ClassName>): (r: int)
    requires Hierarchy(P) && HasClass(P, c)
    ensures -1 <= r < |types|
    ensures r != -1 ==> types[r] in P.classes && Inherits(P, c, types[r])
    decreases Level(P, c)
  {
    if c == NoClass then -1
    else if IsBranch(types, c) then
      var i :| 0 <= i < |types| && types[i] == c;
      i
    else Closest(P, Up(P, c), types)
  }

  /** Closest finds an ancestor whenever there is one, and no branch lies strictly between. */
  lemma {:induction false} ClosestIsClosest(P: Program, c: ClassName, types: seq<ClassName>, i: nat)
    requires Hierarchy(P) && HasClass(P, c) && i < |types| && types[i] != NoClass && Inherits(P, c, types[i])
    ensures Closest(P, c, types) != -1
    ensures Inherits(P, types[Closest(P, c, types)], types[i])
    decreases Level(P, c)
  {
    if types[i] != c && !IsBranch(types, c) {
      ClosestIsClosest(P, Up(P, c), types, i);
    }
  }

  ghost predicate GoodBranches(P: Program, types: seq<ClassName>) {
    && (forall i :: 0 <= i < |types| ==> types[i] in P.classes)
    && Distinct(types)
  }

  function IntervalOf(P: Program, c: ClassName): Interval {
    Interval(if c in P.tag then P.tag[c] else 0, if c in P.tagEnd then P.tagEnd[c] else 0)
  }

  function Intervals(P: Program, types: seq<ClassName>): (ivs: seq<Interval>)
    ensures |ivs| == |types|
  {
    seq(|types|, i requires 0 <= i < |types| => IntervalOf(P, types[i]))
  }

  /** The test that the generator emits for one branch. */
  predicate Covers(iv: Interval, tag: int) {
    iv.tag <= tag <= iv.end
  }

  lemma IntervalsLaminar(P: Program, types: seq<ClassName>)
    requires Hierarchy(P) && TagsOK(P) && GoodBranches(P, types)
    ensures Laminar(Intervals(P, types))
  {
    var ivs := Intervals(P, types);
    forall i | 0 <= i < |ivs| ensures ivs[i].tag <= ivs[i].end {
      assert TagPair(P, types[i], types[i]);
    }
    forall i, j | 0 <= i < j < |ivs| ensures ivs[i].tag != ivs[j].tag {
      TagsDistinct(P, types[i], types[j]);
    }
    forall i, j | 0 <= i < |ivs| && 0 <= j < |ivs| && ivs[i].tag <= ivs[j].tag <= ivs[i].end
      ensures ivs[j].end <= ivs[i].end
    {
      TagsNested(P, types[j], types[i]);
    }
  }

  lemma TagsDistinct(P: Program, c: ClassName, d: ClassName)
    requires Hierarchy(P) && TagsOK(P) && c in P.classes && d in P.classes && c != d
    ensures P.tag[c] != P.tag[d]
  {
    if P.tag[c] == P.tag[d] {
      assert TagPair(P, c, d) && TagPair(P, d, c);
      AncAntisymmetric(Parents(P), c, d);
    }
  }

  lemma TagsNested(P: Program, c: ClassName, d: ClassName)
    requires Hierarchy(P) && TagsOK(P) && c in P.classes && d in P.classes && P.tag[d] <= P.tag[c] <= P.tagEnd[d]
    ensures Inherits(P, c, d) && P.tagEnd[c] <= P.tagEnd[d]
  {
    assert TagPair(P, c, d);
  }

  /**
    Case selection: in the emitted order, the first branch whose interval covers the dynamic tag
    is the branch of the closest ancestor; none covers it exactly when no branch is an ancestor.
   */
  lemma FirstCoverIsClosest(P: Program, c: ClassName, types: seq<ClassName>, p: nat)
    requires Hierarchy(P) && TagsOK(P) && GoodBranches(P, types) && c in P.classes && p < |types|
    ensures Covers(Intervals(P, types)[Arrange(Intervals(P, types))[p]], P.tag[c]) ==>
              Closest(P, c, types) != -1
    ensures (forall q :: 0 <= q < p ==> !Covers(Intervals(P, types)[Arrange(Intervals(P, types))[q]], P.tag[c]))
            && Covers(Intervals(P, types)[Arrange(Intervals(P, types))[p]], P.tag[c]) ==>
              Closest(P, c, types) == Arrange(Intervals(P, types))[p]
    ensures Closest(P, c, types) == -1 ==> !Covers(Intervals(P, types)[Arrange(Intervals(P, types))[p]], P.tag[c])
  {
    var ivs := Intervals(P, types);
    var s := Arrange(ivs);
    IntervalsLaminar(P, types);
    ArrangeFirstOrdered(ivs, |ivs|);
    var d := types[s[p]];
    if Covers(ivs[s[p]], P.tag[c]) {
      assert TagPair(P, c, d);
      ClosestIsClosest(P, c, types, s[p]);
      var i := Closest(P, c, types);
      if forall q :: 0 <= q < p ==> !Covers(ivs[s[q]], P.tag[c]) {
        ClosestComesFirst(P, c, types, p, i);
      }
    }
  }

  lemma ClosestComesFirst(P: Program, c: ClassName, types: seq<ClassName>, p: nat, i: nat)
    requires Hierarchy(P) && TagsOK(P) && GoodBranches(P, types) && c in P.classes && p < |types| && i < |types|
    requires Inherits(P, c, types[i]) && Inherits(P, types[i], types[Arrange(Intervals(P, types))[p]])
    requires forall q :: 0 <= q < p ==> !Covers(Intervals(P, types)[Arrange(Intervals(P, types))[q]], P.tag[c])
    ensures i == Arrange(Intervals(P, types))[p]
  {
    var ivs := Intervals(P, types);
    var s := Arrange(ivs);
    IntervalsLaminar(P, types);
    ArrangeFirstOrdered(ivs, |ivs|);
    assert i in s;
    var q :| 0 <= q < |s| && s[q] == i;
    assert TagPair(P, c, types[i]) && TagPair(P, types[i], types[s[p]]);
    assert Covers(ivs[s[q]], P.tag[c]);
    assert P.tag[types[s[p]]] <= P.tag[types[i]];
    assert !Before(ivs, s[p], s[q]);
  }
}
