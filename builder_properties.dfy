/** Properties of the introspection fold: which accessor slot a method
    fills, that a FieldInfo only ever gains information, that property names
    stay distinct and are exactly the names of the described members, and
    what a class of plain fields yields. */
module IntrospectionProperties {
  import opened Wrappers
  import opened Sequences
  import opened Reflection
  import opened Info
  import opened Introspection

  // ---------------------------------------------------------------------
  // One method: the precedence chain

  /** The accessor slots of a FieldInfo. */
  datatype Slot = AddSlot | CreateSlot | GetSlot | SetSlot | IsSlot | NoSlot

  /** The slot the naming service's classification selects, the first
      recognised kind winning in the order add, create, get, set, is. */
  function SlotOf(naming: JavaNaming, m: MethodDecl): (s: Slot)
    ensures s == NoSlot <==> !IsAccessor(naming, m)
  {
    if naming.isAddMethod(m) then AddSlot
    else if naming.isCreateMethod(m) then CreateSlot
    else if naming.isGetMethod(m) then GetSlot
    else if naming.isSetMethod(m) then SetSlot
    else if naming.isIsMethod(m) then IsSlot
    else NoSlot
  }

  /** A method fills exactly the slot `SlotOf` selects, with itself, and
      leaves the other four slots, the field slot, the name and the XML
      names as they were; a described method always selects a slot. */
  lemma ApplyMethodFillsOneSlot(naming: JavaNaming, rec: FieldRecord, m: MethodDecl)
    ensures var r := ApplyMethod(naming, rec, m); var s := SlotOf(naming, m);
      && r.methodAdd == (if s == AddSlot then Some(m) else rec.methodAdd)
      && r.methodCreate == (if s == CreateSlot then Some(m) else rec.methodCreate)
      && r.methodGet == (if s == GetSlot then Some(m) else rec.methodGet)
      && r.methodSet == (if s == SetSlot then Some(m) else rec.methodSet)
      && r.methodIs == (if s == IsSlot then Some(m) else rec.methodIs)
      && r.field == rec.field && r.fieldName == rec.fieldName
      && r.elementName == rec.elementName && r.attributeName == rec.attributeName
    ensures forall t :: MethodDescribed(naming, t, m) ==> SlotOf(naming, m) != NoSlot
  {
  }

  /** The multi-valued test of a getter (its return type) or of a setter
      (its parameter type, only when it has exactly one). */
  predicate CollectionShaped(naming: JavaNaming, m: MethodDecl) {
    match SlotOf(naming, m)
    case GetSlot => MultiShape(m.returnType)
    case SetSlot => |m.params| == 1 && MultiShape(m.params[0].paramType)
    case _ => false
  }

  /** `multivalued` after a method: it stays true once true, an add method
      always sets it, and otherwise only a collection-shaped getter or setter
      sets it. The generic type changes only for a collection-shaped getter
      or setter, to the inspected return or parameter type. */
  lemma ApplyMethodMultivalued(naming: JavaNaming, rec: FieldRecord, m: MethodDecl)
    ensures var r := ApplyMethod(naming, rec, m);
      && (r.multivalued <==> rec.multivalued || SlotOf(naming, m) == AddSlot || CollectionShaped(naming, m))
      && r.genericType == (if !CollectionShaped(naming, m) then rec.genericType
                           else if SlotOf(naming, m) == GetSlot then Some(m.genericReturnType)
                           else Some(m.params[0].genericType))
  {
  }

  /** A set method with other than one parameter still fills the setter
      slot, but leaves `multivalued` and the generic type alone. */
  lemma SetterSlotBeforeArity(naming: JavaNaming, rec: FieldRecord, m: MethodDecl)
    requires SlotOf(naming, m) == SetSlot && |m.params| != 1
    ensures ApplyMethod(naming, rec, m) == rec.(methodSet := Some(m))
  {
  }

  /** A field fills the field slot and always overwrites the generic type
      with its own, whatever was there. */
  lemma ApplyFieldOverwritesGenericType(rec: FieldRecord, f: FieldDecl)
    ensures var r := ApplyField(rec, f);
      && r.field == Some(f) && r.genericType == Some(f.genericType)
      && r.(field := rec.field, genericType := rec.genericType, multivalued := rec.multivalued) == rec
      && (rec.multivalued ==> r.multivalued)
  {
  }

  /** What the platform guarantees about a declared field: arrays declare
      no fields, fields of interfaces are static, and the only classes a
      `Collection` may be stored in are interfaces and Object. */
  predicate WellFormedField(f: FieldDecl) {
    && !f.declaringClass.isArray
    && (f.declaringClass.isInterface ==> f.isStatic)
    && (f.declaringClass.acceptsCollection ==> f.declaringClass.isInterface || f.declaringClass.name == "java.lang.Object")
  }

  /** Since the plain-field multi-valued test inspects the declaring class,
      it never fires for a field that is described while introspecting a
      describable class: such a field is declared by that class, which is
      neither an array nor a supertype of Collection. */
  lemma DescribedFieldNeverMultivalued(t: TypeRef, f: FieldDecl, rec: FieldRecord)
    requires IsDescribeableType(t) && FieldDescribed(t, f) && WellFormedField(f)
    ensures ApplyField(rec, f).multivalued == rec.multivalued
  {
  }

  // ---------------------------------------------------------------------
  // A record only gains information

  /** `b` is `a` after some members were applied: the same name, every
      slot the builder fills still filled, and `multivalued` not reset. The
      XML names are the field annotation service's to change. */
  predicate Grows(a: FieldRecord, b: FieldRecord) {
    && b.fieldName == a.fieldName
    && (a.field.Some? ==> b.field.Some?)
    && (a.methodAdd.Some? ==> b.methodAdd.Some?)
    && (a.methodCreate.Some? ==> b.methodCreate.Some?)
    && (a.methodGet.Some? ==> b.methodGet.Some?)
    && (a.methodSet.Some? ==> b.methodSet.Some?)
    && (a.methodIs.Some? ==> b.methodIs.Some?)
    && (a.multivalued ==> b.multivalued)
    && (a.genericType.Some? ==> b.genericType.Some?)
  }

  /** `after` keeps every record of `before` at its position, grown, and
      may have more records at the end. */
  predicate Extends(before: seq<FieldRecord>, after: seq<FieldRecord>) {
    |before| <= |after| && forall i :: 0 <= i < |before| ==> Grows(before[i], after[i])
  }

  /** A member update is the builder's slot update followed by the field
      annotation service: the XML names are the service's answer for the
      member's annotations, every other slot is the builder's. */
  lemma ApplyMemberAnnotates(naming: JavaNaming, fieldService: FieldAnnotationService, rec: FieldRecord, mem: Member)
    ensures var r := ApplyMember(naming, fieldService, rec, mem);
      && XmlNamesOf(r) == fieldService(XmlNamesOf(rec), MemberAnnotations(mem))
      && r.(elementName := rec.elementName, attributeName := rec.attributeName)
         == match mem
            case FieldMember(f) => ApplyField(rec, f)
            case MethodMember(m) => ApplyMethod(naming, rec, m)
  {
  }

  lemma ApplyMemberGrows(naming: JavaNaming, fieldService: FieldAnnotationService, rec: FieldRecord, mem: Member)
    ensures Grows(rec, ApplyMember(naming, fieldService, rec, mem))
  {
    match mem
    case FieldMember(f) =>
      ApplyFieldOverwritesGenericType(rec, f);
    case MethodMember(m) =>
      ApplyMethodFillsOneSlot(naming, rec, m);
      ApplyMethodMultivalued(naming, rec, m);
  }

  /** One `buildFieldInfo` call: the list is updated in place or extended
      at the end. */
  lemma MergeExtends(naming: JavaNaming, fieldService: FieldAnnotationService, recs: seq<FieldRecord>, mem: Member)
    ensures Extends(recs, Merge(naming, fieldService, recs, mem))
    ensures |Merge(naming, fieldService, recs, mem)| <= |recs| + 1
  {
    var k := LastIndexOf(Names(recs), MemberName(naming, mem));
    if k != -1 {
      ApplyMemberGrows(naming, fieldService, recs[k], mem);
    }
  }

  lemma ExtendsTransitive(a: seq<FieldRecord>, b: seq<FieldRecord>, c: seq<FieldRecord>)
    requires Extends(a, b) && Extends(b, c)
    ensures Extends(a, c)
  {
  }

  /** Both loops only grow records and append new ones: no FieldInfo is
      removed, renamed or reordered, no filled slot is cleared, and
      `multivalued` is never reset. */
  lemma {:induction false} FoldExtends(naming: JavaNaming, fieldService: FieldAnnotationService, t: TypeRef, recs: seq<FieldRecord>, mems: seq<Member>)
    ensures Extends(recs, FoldMembers(naming, fieldService, t, recs, mems))
    decreases |mems|
  {
    if mems == [] {
      assert Extends(recs, recs);
    } else {
      var init := FoldMembers(naming, fieldService, t, recs, mems[..|mems| - 1]);
      FoldExtends(naming, fieldService, t, recs, mems[..|mems| - 1]);
      var mem := mems[|mems| - 1];
      if Described(naming, t, mem) {
        MergeExtends(naming, fieldService, init, mem);
        ExtendsTransitive(recs, init, Merge(naming, fieldService, init, mem));
      }
    }
  }

  // ---------------------------------------------------------------------
  // Property names: find-or-create

  /** Find-or-create on the names: an existing name leaves the names as
      they were, a new one is appended. */
  lemma MergeNames(naming: JavaNaming, fieldService: FieldAnnotationService, recs: seq<FieldRecord>, mem: Member)
    ensures var name := MemberName(naming, mem);
      Names(Merge(naming, fieldService, recs, mem)) == if name in Names(recs) then Names(recs) else Names(recs) + [name]
  {
    var name := MemberName(naming, mem);
    var m := Merge(naming, fieldService, recs, mem);
    if name in Names(recs) {
      assert Names(m) == Names(recs) by {
        var k := LastIndexOf(Names(recs), name);
        assert forall i :: 0 <= i < |recs| ==> Names(m)[i] == Names(recs)[i] by {
          ApplyMemberGrows(naming, fieldService, recs[k], mem);
        }
      }
    } else {
      assert Names(m) == Names(recs) + [name];
    }
  }

  /** Find-or-create keeps the names pairwise distinct. */
  lemma MergeKeepsNamesDistinct(naming: JavaNaming, fieldService: FieldAnnotationService, recs: seq<FieldRecord>, mem: Member)
    requires Distinct(Names(recs))
    ensures Distinct(Names(Merge(naming, fieldService, recs, mem)))
  {
    MergeNames(naming, fieldService, recs, mem);
    var name := MemberName(naming, mem);
    if name !in Names(recs) {
      DistinctSnoc(Names(recs), name);
    }
  }

  lemma {:induction false} FoldKeepsNamesDistinct(naming: JavaNaming, fieldService: FieldAnnotationService, t: TypeRef, recs: seq<FieldRecord>, mems: seq<Member>)
    requires Distinct(Names(recs))
    ensures Distinct(Names(FoldMembers(naming, fieldService, t, recs, mems)))
    decreases |mems|
  {
    if mems != [] {
      var init := FoldMembers(naming, fieldService, t, recs, mems[..|mems| - 1]);
      FoldKeepsNamesDistinct(naming, fieldService, t, recs, mems[..|mems| - 1]);
      if Described(naming, t, mems[|mems| - 1]) {
        MergeKeepsNamesDistinct(naming, fieldService, init, mems[|mems| - 1]);
      }
    }
  }

  /** Some member of `mems` is described and carries the name `n`. */
  predicate NamedBy(naming: JavaNaming, t: TypeRef, mems: seq<Member>, n: string) {
    exists i :: 0 <= i < |mems| && Described(naming, t, mems[i]) && MemberName(naming, mems[i]) == n
  }

  /** After the fold, a name is present iff it was present before or some
      described member carries it. */
  lemma {:induction false} FoldNames(naming: JavaNaming, fieldService: FieldAnnotationService, t: TypeRef, recs: seq<FieldRecord>, mems: seq<Member>, n: string)
    ensures n in Names(FoldMembers(naming, fieldService, t, recs, mems)) <==> n in Names(recs) || NamedBy(naming, t, mems, n)
    decreases |mems|
  {
    if mems != [] {
      var front := mems[..|mems| - 1];
      var mem := mems[|mems| - 1];
      var init := FoldMembers(naming, fieldService, t, recs, front);
      FoldNames(naming, fieldService, t, recs, front, n);
      if Described(naming, t, mem) {
        MergeNames(naming, fieldService, init, mem);
      }
      if NamedBy(naming, t, mems, n) {
        var i :| 0 <= i < |mems| && Described(naming, t, mems[i]) && MemberName(naming, mems[i]) == n;
        if i < |front| {
          assert front[i] == mems[i];
        }
      }
      if NamedBy(naming, t, front, n) {
        var i :| 0 <= i < |front| && Described(naming, t, front[i]) && MemberName(naming, front[i]) == n;
        assert mems[i] == front[i];
      }
    }
  }

  /** The FieldInfos of a class have pairwise distinct names, and a name is
      among them iff some described field or method of the class carries
      it. */
  lemma IntrospectNames(naming: JavaNaming, fieldService: FieldAnnotationService, c: ClassDecl, n: string)
    ensures Distinct(Names(Introspect(naming, fieldService, c)))
    ensures n in Names(Introspect(naming, fieldService, c)) <==> NamedBy(naming, c.ref, Members(c), n)
  {
    IntrospectIsOneFold(naming, fieldService, c);
    FoldKeepsNamesDistinct(naming, fieldService, c.ref, [], Members(c));
    FoldNames(naming, fieldService, c.ref, [], Members(c), n);
  }

  // ---------------------------------------------------------------------
  // Every described member leaves its mark

  /** What visiting `mem` guarantees about the record of its name, whatever
      the record held before: a field fills the field slot and the generic
      type; a method fills its slot, an add method sets `multivalued`, and so
      does a collection-shaped getter or setter. */
  predicate Marks(naming: JavaNaming, mem: Member, rec: FieldRecord) {
    match mem
    case FieldMember(f) => rec.field.Some? && rec.genericType.Some?
    case MethodMember(m) =>
      && (CollectionShaped(naming, m) ==> rec.multivalued && rec.genericType.Some?)
      && match SlotOf(naming, m)
         case AddSlot => rec.methodAdd.Some? && rec.multivalued
         case CreateSlot => rec.methodCreate.Some?
         case GetSlot => rec.methodGet.Some?
         case SetSlot => rec.methodSet.Some?
         case IsSlot => rec.methodIs.Some?
         case NoSlot => true
  }

  lemma ApplyMemberMarks(naming: JavaNaming, fieldService: FieldAnnotationService, rec: FieldRecord, mem: Member)
    ensures Marks(naming, mem, ApplyMember(naming, fieldService, rec, mem))
  {
  }

  lemma MarksPersist(naming: JavaNaming, mem: Member, a: FieldRecord, b: FieldRecord)
    requires Marks(naming, mem, a) && Grows(a, b)
    ensures Marks(naming, mem, b)
  {
  }

  /** After merging `mem`, the record of its name carries its mark. */
  lemma MergeLands(naming: JavaNaming, fieldService: FieldAnnotationService, recs: seq<FieldRecord>, mem: Member) returns (k: nat)
    ensures var m := Merge(naming, fieldService, recs, mem);
      k < |m| && m[k].fieldName == MemberName(naming, mem) && Marks(naming, mem, m[k])
  {
    var name := MemberName(naming, mem);
    var j := LastIndexOf(Names(recs), name);
    if j == -1 {
      k := |recs|;
      ApplyMemberMarks(naming, fieldService, NewRecord(name), mem);
    } else {
      k := j;
      ApplyMemberMarks(naming, fieldService, recs[k], mem);
    }
  }

  /** A described member at any position of the fold leaves its mark on the
      final record of its name: later members may fill more slots but never
      clear one. */
  lemma DescribedMemberLands(naming: JavaNaming, fieldService: FieldAnnotationService, t: TypeRef, recs: seq<FieldRecord>, mems: seq<Member>, p: nat)
    requires p < |mems| && Described(naming, t, mems[p])
    ensures var r := FoldMembers(naming, fieldService, t, recs, mems);
      exists i :: 0 <= i < |r| && r[i].fieldName == MemberName(naming, mems[p]) && Marks(naming, mems[p], r[i])
  {
    var upto := mems[..p + 1];
    var rest := mems[p + 1..];
    assert mems == upto + rest;
    FoldConcat(naming, fieldService, t, recs, upto, rest);
    FoldStep(naming, fieldService, t, recs, mems, p);
    var mid := FoldMembers(naming, fieldService, t, recs, upto);
    var k := MergeLands(naming, fieldService, FoldMembers(naming, fieldService, t, recs, mems[..p]), mems[p]);
    FoldExtends(naming, fieldService, t, mid, rest);
    var r := FoldMembers(naming, fieldService, t, recs, mems);
    MarksPersist(naming, mems[p], mid[k], r[k]);
  }

  /** In the FieldInfos of a class, the property of a described add method
      is multi-valued and has an add method, whatever members follow. */
  lemma AddMethodMakesPropertyMultivalued(naming: JavaNaming, fieldService: FieldAnnotationService, c: ClassDecl, j: nat)
    requires j < |c.methods| && MethodDescribed(naming, c.ref, c.methods[j]) && naming.isAddMethod(c.methods[j])
    ensures var r := Introspect(naming, fieldService, c);
      exists i :: 0 <= i < |r| && r[i].fieldName == naming.extractFieldNameFromMethod(c.methods[j])
        && r[i].multivalued && r[i].methodAdd.Some?
  {
    IntrospectIsOneFold(naming, fieldService, c);
    var p := |c.fields| + j;
    assert Members(c)[p] == MethodMember(c.methods[j]);
    DescribedMemberLands(naming, fieldService, c.ref, [], Members(c), p);
  }

  /** In the FieldInfos of a class, the property of a described field has
      its field slot and generic type filled. */
  lemma DescribedFieldFillsItsProperty(naming: JavaNaming, fieldService: FieldAnnotationService, c: ClassDecl, j: nat)
    requires j < |c.fields| && FieldDescribed(c.ref, c.fields[j])
    ensures var r := Introspect(naming, fieldService, c);
      exists i :: 0 <= i < |r| && r[i].fieldName == naming.extractFieldNameFromField(c.fields[j])
        && r[i].field.Some? && r[i].genericType.Some?
  {
    IntrospectIsOneFold(naming, fieldService, c);
    assert Members(c)[j] == FieldMember(c.fields[j]);
    DescribedMemberLands(naming, fieldService, c.ref, [], Members(c), j);
  }

  // ---------------------------------------------------------------------
  // XML names come from the field annotation service alone

  /** The field annotation service leaves the XML names alone when it is
      handed no annotations. */
  ghost predicate IgnoresNoAnnotations(fieldService: FieldAnnotationService) {
    forall x: XmlNames :: fieldService(x, []) == x
  }

  /** No member of `mems` carries an annotation. */
  predicate Unannotated(mems: seq<Member>) {
    forall i :: 0 <= i < |mems| ==> MemberAnnotations(mems[i]) == []
  }

  /** No record has an element or an attribute name. */
  predicate XmlNamesUnset(recs: seq<FieldRecord>) {
    forall i :: 0 <= i < |recs| ==> recs[i].elementName.None? && recs[i].attributeName.None?
  }

  /** The builder's own steps never set an element or attribute name: over
      members without annotations, a service that ignores an empty
      annotation list leaves every record without one. */
  lemma {:induction false} FoldLeavesXmlNamesUnset(naming: JavaNaming, fieldService: FieldAnnotationService, t: TypeRef,
                                                   recs: seq<FieldRecord>, mems: seq<Member>)
    requires IgnoresNoAnnotations(fieldService) && Unannotated(mems)
    requires XmlNamesUnset(recs)
    ensures XmlNamesUnset(FoldMembers(naming, fieldService, t, recs, mems))
    decreases |mems|
  {
    if mems != [] {
      var front := mems[..|mems| - 1];
      assert Unannotated(front) by {
        forall i | 0 <= i < |front| ensures MemberAnnotations(front[i]) == [] {
          assert front[i] == mems[i];
        }
      }
      var init := FoldMembers(naming, fieldService, t, recs, front);
      FoldLeavesXmlNamesUnset(naming, fieldService, t, recs, front);
      var mem := mems[|mems| - 1];
      assert MemberAnnotations(mem) == [];
      if Described(naming, t, mem) {
        var r := Merge(naming, fieldService, init, mem);
        var name := MemberName(naming, mem);
        var k := LastIndexOf(Names(init), name);
        var before := if k == -1 then NewRecord(name) else init[k];
        ApplyMemberAnnotates(naming, fieldService, before, mem);
        assert fieldService(XmlNamesOf(before), []) == XmlNamesOf(before);
      }
    }
  }

  /** The FieldInfos of a class none of whose fields and methods carries an
      annotation have no element or attribute name, as long as the field
      annotation service adds none for an empty annotation list. */
  lemma IntrospectLeavesXmlNamesUnset(naming: JavaNaming, fieldService: FieldAnnotationService, c: ClassDecl)
    requires IgnoresNoAnnotations(fieldService) && Unannotated(Members(c))
    ensures XmlNamesUnset(Introspect(naming, fieldService, c))
  {
    IntrospectIsOneFold(naming, fieldService, c);
    FoldLeavesXmlNamesUnset(naming, fieldService, c.ref, [], Members(c));
  }

  /** A class with two plain fields of different property names and no
      annotations, a synthetic outer-instance reference and no methods
      yields exactly two FieldInfos, one per plain field in the order
      reflection returns them, neither with an element or an attribute
      name. */
  lemma TwoPlainFieldsTwoInfos(naming: JavaNaming, fieldService: FieldAnnotationService, c: ClassDecl)
    requires IgnoresNoAnnotations(fieldService)
    requires |c.fields| == 3 && c.methods == []
    requires FieldDescribed(c.ref, c.fields[0]) && FieldDescribed(c.ref, c.fields[1]) && c.fields[2].isSynthetic
    requires c.fields[0].annotations == [] && c.fields[1].annotations == []
    requires naming.extractFieldNameFromField(c.fields[0]) != naming.extractFieldNameFromField(c.fields[1])
    ensures var r := Introspect(naming, fieldService, c);
      && |r| == 2
      && r[0].fieldName == naming.extractFieldNameFromField(c.fields[0]) && r[0].field == Some(c.fields[0])
      && r[1].fieldName == naming.extractFieldNameFromField(c.fields[1]) && r[1].field == Some(c.fields[1])
      && r[0].elementName.None? && r[0].attributeName.None?
      && r[1].elementName.None? && r[1].attributeName.None?
  {
    var mems := FieldMembers(c);
    FoldStep(naming, fieldService, c.ref, [], mems, 0);
    FoldStep(naming, fieldService, c.ref, [], mems, 1);
    FoldStep(naming, fieldService, c.ref, [], mems, 2);
    assert mems[..0] == [];
    assert mems[..3] == mems;
    assert MethodMembers(c) == [];
    assert fieldService(XmlNames(None, None), []) == XmlNames(None, None);
  }
}
