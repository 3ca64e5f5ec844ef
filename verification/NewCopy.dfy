/**
  `new C` calls the method `copy` that is nearest to C, not the copying routine of the run-time system.
  The two are the same exactly when no class from C up to Object redefines `copy`.
 */
module NewCopy {
  import opened CoolNames
  import opened Inheritance
  import opened CoolSyntax
  import opened Layout
  import opened ClassTags
  import opened CoolSemantics
  import opened Mips
  import opened CodeGen
  import opened SimRel
  import opened SimFrame
  import opened SimSteps
  import opened SimObjects
  import opened SimCreation

  lemma DeclPlaced(k: Ctx, d: ClassName)
    requires Hierarchy(k.P) && ImageOK(k) && d in k.P.classes && Declares(k.P.classes[d], COPY)
    ensures MethodPlaced(k, d, Decl(k.P.classes[d], COPY)) && Decl(k.P.classes[d], COPY).name == COPY
  {
    hide MethodPlaced;
    assert MethodPlaced(k, d, Decl(k.P.classes[d], COPY));
  }

  /** The pieces of a method that is where its label is. */
  lemma CopyPieces(k: Ctx, d: ClassName)
    requires Hierarchy(k.P) && ImageOK(k) && d in k.P.classes && Declares(k.P.classes[d], COPY)
    ensures var m := Decl(k.P.classes[d], COPY);
      var pc := Find(k.img.text, MethodLabel(d, COPY));
      && pc + 1 < |k.img.text| && k.img.text[pc] == LabelDef(MethodLabel(d, COPY))
      && k.img.text[pc + 1] == (if m.body.Native? then Runtime(m.body.op) else Addiu(SP, SP, -12))
      && (m.body.Code? ==> exists l :: CodeAt(k.img.text, pc, MethodCode(k.P, d, m, l).code))
  {
    hide ImageOK, Compile, Hierarchy, Find, MethodScope, Declares, Decl;
    var m := Decl(k.P.classes[d], COPY);
    DeclPlaced(k, d);
    var pc := Find(k.img.text, MethodLabel(d, COPY));
    if m.body.Native? {
      Fetch(k.img, pc, NativeCode(d, m), 0);
      Fetch(k.img, pc, NativeCode(d, m), 1);
    } else {
      var l :| Placed(k.img, MethodLabel(d, COPY), MethodCode(k.P, d, m, l).code);
      Fetch(k.img, pc, MethodCode(k.P, d, m, l).code, 0);
      Fetch(k.img, pc, MethodCode(k.P, d, m, l).code, 1);
    }
  }

  /** The instruction behind the label tells which `copy` it is. */
  lemma CopyWhich(k: Ctx, c: ClassName)
    requires Hierarchy(k.P) && ImageOK(k) && c in k.P.classes && HasClass(k.P, c) && Nearest(k.P, c, COPY) != NoClass
    ensures var pc := Find(k.img.text, CopyLabel(k.P, c));
      var d := Nearest(k.P, c, COPY);
      var m := Decl(k.P.classes[d], COPY);
      && pc + 1 < |k.img.text| && k.img.text[pc] == LabelDef(CopyLabel(k.P, c)) && CopyLabel(k.P, c) == MethodLabel(d, COPY)
      && (k.img.text[pc + 1] == Runtime(RtCopy) <==> CopyIsRuntime(k.P, c))
      && (m.body.Code? ==> exists l :: CodeAt(k.img.text, pc, MethodCode(k.P, d, m, l).code))
  {
    hide Hierarchy, ImageOK, CodeAt, MethodCode, Find, CopyLabel, Nearest, Decl;
    CopyTarget(k, c);
    CopyPieces(k, Nearest(k.P, c, COPY));
  }

  lemma CopyTarget(k: Ctx, c: ClassName)
    requires Hierarchy(k.P) && c in k.P.classes && HasClass(k.P, c) && Nearest(k.P, c, COPY) != NoClass
    ensures CopyLabel(k.P, c) == MethodLabel(Nearest(k.P, c, COPY), COPY)
  {
    MethNearest(k.P, c);
  }

  /**
    Two steps into `new C` the machine is at the label of the nearest `copy`, with the prototype
    itself as the object: what runs is the run-time routine if and only if that `copy` is the inherited
    one, and otherwise it is the body that the program gives to `copy`.
   */
  lemma NewCopies(k: Ctx, s: State, c: ClassName) returns (t: State)
    requires Hierarchy(k.P) && ImageOK(k) && c in k.P.classes && HasClass(k.P, c) && Nearest(k.P, c, COPY) != NoClass
    requires CodeAt(k.img.text, s.pc, NewCode(k.P, c))
    ensures Runs(k.img, 2, s, t) && t == s.(pc := t.pc, acc := Ref(Proto(c)), ra := Ret(s.pc + 2))
    ensures t.pc + 1 < |k.img.text| && (k.img.text[t.pc + 1] == Runtime(RtCopy) <==> CopyIsRuntime(k.P, c))
    ensures var d := Nearest(k.P, c, COPY);
      var m := Decl(k.P.classes[d], COPY);
      && k.img.text[t.pc] == LabelDef(MethodLabel(d, COPY))
      && (m.body.Code? ==> exists l :: CodeAt(k.img.text, t.pc, MethodCode(k.P, d, m, l).code))
  {
    hide *;
    CopyWhich(k, c);
    NewPieces(k, s.pc, c);
    var pc := Find(k.img.text, CopyLabel(k.P, c));
    Fetch(k.img, s.pc, [La(ACC, Proto(c))], 0);
    Fetch(k.img, s.pc + 1, [Jal(CopyLabel(k.P, c))], 0);
    var s1 := s.(pc := s.pc + 1, acc := Ref(Proto(c)));
    t := s1.(pc := pc, ra := Ret(s.pc + 2));
    LaStep(k.img, s, Proto(c));
    JalStep(k.img, s1, CopyLabel(k.P, c));
    RunsTwo(k.img, s, s1, t);
  }
}
