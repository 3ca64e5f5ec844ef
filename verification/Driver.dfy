/** CgenClassTable::work: number the classes, lay them out, and write the code. */
module Driver {
  import opened CoolNames
  import opened Inheritance
  import opened CoolSyntax
  import opened Layout
  import opened ClassTags
  import opened CoolSemantics
  import opened Mips
  import opened CodeGen
  import opened ProgramImage
  import opened SimRel
  import opened Emission

  /** `Q` is `P` with other tags. */
  ghost predicate Retagged(P: Program, Q: Program) {
    Q == P.(tag := Q.tag, tagEnd := Q.tagEnd)
  }

  /** The nodes of a program's classes, none of them laid out yet. */
  ghost predicate Unlaid(P: Program, table: CgenClassTable)
    reads table.nodes.Values
  {
    var nodes := table.nodes;
    && nodes.Keys == P.classes.Keys + {NoClass}
    && (forall c :: c in nodes ==> nodes[c].name == c)
    && (forall c :: c in P.classes ==> table.Mirrors(P, c) && !nodes[c].hasCalcedLayout)
    && nodes[NoClass].hasCalcedLayout && nodes[NoClass].attrsLayout == [] && nodes[NoClass].Methods() == Meths([], map[])
  }

  lemma UnlaidValid(P: Program, Q: Program, table: CgenClassTable)
    requires Hierarchy(Q) && Retagged(P, Q) && Unlaid(P, table)
    ensures table.Valid(Q)
  {
    hide Hierarchy, Anc;
    forall c | c in Q.classes ensures table.Mirrors(Q, c) {
      assert table.Mirrors(P, c);
    }
    NoClassLayout(Q);
  }

  lemma NoClassLayout(P: Program)
    requires Hierarchy(P)
    ensures HasClass(P, NoClass) && AttrLayout(P, NoClass) == [] && MethLayout(P, NoClass) == Meths([], map[])
  {
  }

  /** Every class passes semantic analysis, whatever the tags. */
  ghost predicate Analysed(P: Program) {
    forall Q {:trigger Retagged(P, Q)} :: Retagged(P, Q) && Hierarchy(Q) ==> forall c :: c in Q.classes ==> ClassChecked(Q, c)
  }

  /** The parts of semantic analysis that do not speak of tags. */
  ghost predicate Accepted(P: Program) {
    && Hierarchy(P) && BasicsOK(P) && (forall c :: c in P.order <==> c in P.classes) && Distinct(P.order)
    && (forall c {:trigger ClassOK(P, c)} :: c in P.classes ==> ClassOK(P, c)) && CreatedOK(P)
  }

  lemma {:induction false} NearestKept(P: Program, Q: Program, c: ClassName, m: Name)
    requires Retagged(P, Q) && Hierarchy(P) && Hierarchy(Q) && HasClass(P, c)
    ensures HasClass(Q, c) && Nearest(Q, c, m) == Nearest(P, c, m)
    decreases Level(P, c)
  {
    assert Parents(Q) == Parents(P);
    if c != NoClass {
      NearestKept(P, Q, Up(P, c), m);
    }
  }

  lemma {:induction false} AttrLayoutKept(P: Program, Q: Program, c: ClassName)
    requires Retagged(P, Q) && Hierarchy(P) && Hierarchy(Q) && HasClass(P, c)
    ensures HasClass(Q, c) && AttrLayout(Q, c) == AttrLayout(P, c)
    decreases Level(P, c)
  {
    assert Parents(Q) == Parents(P);
    if c != NoClass {
      AttrLayoutKept(P, Q, Up(P, c));
    }
  }

  lemma CopyKept(P: Program, Q: Program, c: ClassName)
    requires Retagged(P, Q) && Hierarchy(P) && Hierarchy(Q) && c in P.classes
    ensures CopyIsRuntime(Q, c) == CopyIsRuntime(P, c)
  {
    hide Hierarchy, Nearest;
    NearestKept(P, Q, c, COPY);
  }

  lemma ClassKept(P: Program, Q: Program, c: ClassName)
    requires Retagged(P, Q) && Hierarchy(P) && Hierarchy(Q) && c in P.classes && ClassOK(P, c)
    ensures ClassOK(Q, c)
  {
    hide Hierarchy, AttrLayout;
    AttrLayoutKept(P, Q, c);
  }

  /** Numbering the classes of an accepted program makes it one that the generator translates correctly. */
  lemma AcceptedOK(P: Program, Q: Program)
    requires Accepted(P) && Retagged(P, Q) && Hierarchy(Q) && TagsOK(Q)
    ensures ProgramOK(Q)
  {
    hide Hierarchy, TagsOK, CopyIsRuntime, ClassOK, Created;
    forall c | c in Q.classes ensures ClassOK(Q, c) {
      ClassKept(P, Q, c);
    }
    forall c | c in Q.classes ensures CopyIsRuntime(Q, c) == CopyIsRuntime(P, c) {
      CopyKept(P, Q, c);
    }
    forall c ensures Created(Q, c) == Created(P, c) {
      CreatedKept(P, Q, c);
    }
  }

  lemma CreatedKept(P: Program, Q: Program, c: ClassName)
    requires Retagged(P, Q)
    ensures Created(Q, c) == Created(P, c)
  {
    hide Creates;
  }

  /**
    CgenClassTable::work: from an accepted program to the image that the correctness theorem is about,
    text, dispatch tables, class_objTab and prototypes.
   */
  method Work(P: Program, table: CgenClassTable, nds: seq<CgenNode>)
    returns (Q: Program, img: Image, protos: map<ClassName, seq<Word>>)
    requires Accepted(P)
    requires Analysed(P) && Unlaid(P, table)
    requires |nds| == |P.order| && forall i :: 0 <= i < |nds| ==> P.order[i] in table.nodes && nds[i] == table.nodes[P.order[i]]
    modifies table.nodes.Values
    ensures Retagged(P, Q) && Hierarchy(Q) && ProgramOK(Q)
    ensures OrderKnown(Q) && forall i :: 0 <= i < |Q.order| ==> Q.order[i] in Q.tag
    ensures img == ImageOf(Q)
    ensures forall c :: c in Q.classes ==> c in protos && Proto(c) in InitialHeap(Q) && protos[c] == InitialHeap(Q)[Proto(c)]
  {
    hide Hierarchy, TagsOK, ClassChecked, ProgramText, AttrLayout, MethLayout, Unlaid, Accepted, ProgramOK, ObjTable, DispTables, Complete, ProtoWords, InitialHeap;
    AcceptedParts(P);
    var tag, tagEnd := AssignClassTags(P);
    Q := P.(tag := tag, tagEnd := tagEnd);
    AcceptedOK(P, Q);
    UnlaidValid(P, Q, table);
    OrderKept(P, Q);
    NodesNamed(P, table, nds);
    table.CalcClassesLayout(nds, Q);
    AllLaidOut(P, Q, table, nds);
    CheckedKept(P, Q);
    var text := GenerateText(Q, table);
    var emitter := new Emitter(Q, table);
    var rows := emitter.CodeClassObjTab();
    var tabs := emitter.CodeDispTabs();
    protos := emitter.CodeProtObjs();
    img := Image(text, tabs, rows);
    ProtosOf(Q, protos);
  }

  lemma AcceptedParts(P: Program)
    requires Accepted(P)
    ensures Hierarchy(P) && (forall c :: c in P.order <==> c in P.classes) && Distinct(P.order)
  {
  }

  lemma ProtosOf(Q: Program, protos: map<ClassName, seq<Word>>)
    requires Hierarchy(Q) && protos.Keys == Q.classes.Keys && forall c :: c in Q.classes ==> protos[c] == ProtoWords(Q, c)
    ensures forall c :: c in Q.classes ==> c in protos && Proto(c) in InitialHeap(Q) && protos[c] == InitialHeap(Q)[Proto(c)]
  {
    hide ProtoWords, Hierarchy;
  }

  lemma OrderKept(P: Program, Q: Program)
    requires Retagged(P, Q) && Hierarchy(Q) && TagsOK(Q) && forall c :: c in P.order <==> c in P.classes
    ensures OrderKnown(Q) && forall i :: 0 <= i < |Q.order| ==> Q.order[i] in Q.tag
  {
    hide Hierarchy;
  }

  lemma CheckedKept(P: Program, Q: Program)
    requires Analysed(P) && Retagged(P, Q) && Hierarchy(Q)
    ensures forall c :: c in Q.classes ==> ClassChecked(Q, c)
  {
    hide Hierarchy, ClassChecked;
  }

  lemma NodesNamed(P: Program, table: CgenClassTable, nds: seq<CgenNode>)
    requires Unlaid(P, table) && forall c :: c in P.order <==> c in P.classes
    requires |nds| == |P.order| && forall i :: 0 <= i < |nds| ==> P.order[i] in table.nodes && nds[i] == table.nodes[P.order[i]]
    ensures forall nd :: nd in nds ==> nd.name in P.classes && nd.name in table.nodes && table.nodes[nd.name] == nd
  {
    forall nd | nd in nds ensures nd.name in P.classes && nd.name in table.nodes && table.nodes[nd.name] == nd {
      var i :| 0 <= i < |nds| && nds[i] == nd;
      assert P.order[i] in P.order;
    }
  }

  lemma AllLaidOut(P: Program, Q: Program, table: CgenClassTable, nds: seq<CgenNode>)
    requires Retagged(P, Q) && Hierarchy(Q) && TagsOK(Q) && table.Valid(Q) && forall c :: c in P.order <==> c in P.classes
    requires |nds| == |P.order| && forall i :: 0 <= i < |nds| ==> P.order[i] in table.nodes && nds[i] == table.nodes[P.order[i]]
    requires forall nd :: nd in nds ==> nd.hasCalcedLayout
    ensures Complete(Q, table)
  {
    hide Hierarchy, TagsOK;
    forall c | c in Q.classes ensures table.nodes[c].hasCalcedLayout {
      var i :| 0 <= i < |P.order| && P.order[i] == c;
      assert nds[i] in nds;
    }
  }
}
