/** ClassInfoBuilder: introspects one class into a ClassInfo. Its declared
    fields and then its declared methods are filtered, each surviving member
    is merged into the FieldInfo of its property name (created on first
    sight), and the package's annotations are dispatched to the package
    processors. */
module Introspection {
  import opened Wrappers
  import opened Sequences
  import opened Reflection
  import opened Info
  import opened PackageAnnotationProcessing

  // ---------------------------------------------------------------------
  // Which classes and members are described

  /** `isDescribeable(Class)`: every class except Object, Void and Class. */
  predicate IsDescribeableType(t: TypeRef) {
    t.name != "java.lang.Object" && t.name != "java.lang.Void" && t.name != "java.lang.Class"
  }

  /** The declaring-class test shared by both member filters: the member is
      declared by the introspected class itself or by an interface. */
  predicate DeclaredHere(t: TypeRef, declaringClass: TypeRef) {
    declaringClass == t || declaringClass.isInterface
  }

  /** `isDescribeable(Class, Field)`. */
  predicate FieldDescribed(t: TypeRef, f: FieldDecl) {
    DeclaredHere(t, f.declaringClass) && !f.isStatic && !f.isTransient && !f.isSynthetic
  }

  /** The naming service recognises `m` as an add, create, get, is or set
      method. */
  predicate IsAccessor(naming: JavaNaming, m: MethodDecl) {
    naming.isAddMethod(m) || naming.isCreateMethod(m) || naming.isGetMethod(m)
      || naming.isIsMethod(m) || naming.isSetMethod(m)
  }

  /** `isDescribeable(Class, Method)`. */
  predicate MethodDescribed(naming: JavaNaming, t: TypeRef, m: MethodDecl) {
    DeclaredHere(t, m.declaringClass) && !m.isSynthetic && !m.isStatic && !m.isTransient
      && IsAccessor(naming, m)
  }

  // ---------------------------------------------------------------------
  // What one member contributes to its FieldInfo

  /** The multi-valued test applied to getter return types and setter
      parameter types: an array, a supertype of Collection, or a Collection. */
  predicate MultiShape(t: TypeRef) {
    t.isArray || t.acceptsCollection || t.isCollection
  }

  /** `buildFieldInfo(classInfo, field)` on the FieldInfo's slots. The
      multi-valued test looks at the field's DECLARING class, not at the
      field's own type, and omits the `isCollection` disjunct. */
  function ApplyField(rec: FieldRecord, f: FieldDecl): FieldRecord {
    rec.(field := Some(f),
         multivalued := rec.multivalued || f.declaringClass.isArray || f.declaringClass.acceptsCollection,
         genericType := Some(f.genericType))
  }

  /** `buildFieldInfo(classInfo, method)` on the FieldInfo's slots: the first
      of add, create, get, set, is that the naming service recognises decides
      the slot. A set method fills the setter slot whatever its arity; only
      its collection inference needs exactly one parameter. */
  function ApplyMethod(naming: JavaNaming, rec: FieldRecord, m: MethodDecl): FieldRecord {
    if naming.isAddMethod(m) then
      rec.(methodAdd := Some(m), multivalued := true)
    else if naming.isCreateMethod(m) then
      rec.(methodCreate := Some(m))
    else if naming.isGetMethod(m) then
      var r := rec.(methodGet := Some(m));
      if MultiShape(m.returnType) then r.(genericType := Some(m.genericReturnType), multivalued := true)
      else r
    else if naming.isSetMethod(m) then
      var r := rec.(methodSet := Some(m));
      if |m.params| == 1 && MultiShape(m.params[0].paramType) then
        r.(multivalued := true, genericType := Some(m.params[0].genericType))
      else r
    else if naming.isIsMethod(m) then
      rec.(methodIs := Some(m))
    else rec
  }

  // ---------------------------------------------------------------------
  // The class and field annotation services

  /** `ClassAnnotationProcessingService.processAnnotations(classInfo,
      annotations)` as the builder sees it: from the slots the class
      processors write and the class's annotations, to the new values of
      those slots. The class processors are not part of this model, so the
      caller supplies the function. */
  type ClassAnnotationService = (TypeSlots, seq<Annotation>) -> TypeSlots

  /** `FieldAnnotationProcessingService.processAnnotations(fieldInfo,
      annotations)`, likewise: from a FieldInfo's XML names and the member's
      annotations, to its new XML names. */
  type FieldAnnotationService = (XmlNames, seq<Annotation>) -> XmlNames

  /** The field annotation service run on a record: only its XML names
      change. */
  function Annotate(fieldService: FieldAnnotationService, rec: FieldRecord, annotations: seq<Annotation>): FieldRecord {
    var x := fieldService(XmlNamesOf(rec), annotations);
    rec.(elementName := x.elementName, attributeName := x.attributeName)
  }

  /** A declared field or a declared method, as the two loops visit them. */
  datatype Member = FieldMember(f: FieldDecl) | MethodMember(m: MethodDecl)

  /** The property name the naming service extracts from a member. */
  function MemberName(naming: JavaNaming, mem: Member): string {
    match mem
    case FieldMember(f) => naming.extractFieldNameFromField(f)
    case MethodMember(m) => naming.extractFieldNameFromMethod(m)
  }

  /** `getAnnotations()` of a member. */
  function MemberAnnotations(mem: Member): seq<Annotation> {
    match mem
    case FieldMember(f) => f.annotations
    case MethodMember(m) => m.annotations
  }

  predicate Described(naming: JavaNaming, t: TypeRef, mem: Member) {
    match mem
    case FieldMember(f) => FieldDescribed(t, f)
    case MethodMember(m) => MethodDescribed(naming, t, m)
  }

  function ApplyMember(naming: JavaNaming, fieldService: FieldAnnotationService, rec: FieldRecord, mem: Member): (r: FieldRecord)
    ensures r.fieldName == rec.fieldName
  {
    match mem
    case FieldMember(f) => Annotate(fieldService, ApplyField(rec, f), f.annotations)
    case MethodMember(m) => Annotate(fieldService, ApplyMethod(naming, rec, m), m.annotations)
  }

  /** One `buildFieldInfo` call on the list of FieldInfo records: the record
      `getFieldInfo` finds for the member's name (the last one so named) is
      updated in place, or a new record with that name is appended and
      updated. */
  function Merge(naming: JavaNaming, fieldService: FieldAnnotationService, recs: seq<FieldRecord>, mem: Member): seq<FieldRecord> {
    var name := MemberName(naming, mem);
    var k := LastIndexOf(Names(recs), name);
    if k == -1 then recs + [ApplyMember(naming, fieldService, NewRecord(name), mem)]
    else recs[k := ApplyMember(naming, fieldService, recs[k], mem)]
  }

  /** The two loops of `buildClassInfo` over `mems`, from `recs`. */
  function FoldMembers(naming: JavaNaming, fieldService: FieldAnnotationService, t: TypeRef, recs: seq<FieldRecord>, mems: seq<Member>): seq<FieldRecord>
    decreases |mems|, 1
  {
    if mems == [] then recs else FoldLast(naming, fieldService, t, recs, mems)
  }

  /** `FoldMembers` on a non-empty list: the last member visits the fold of
      the others. */
  function FoldLast(naming: JavaNaming, fieldService: FieldAnnotationService, t: TypeRef, recs: seq<FieldRecord>, mems: seq<Member>): seq<FieldRecord>
    requires mems != []
    decreases |mems|, 0
  {
    Visit(naming, fieldService, t, FoldMembers(naming, fieldService, t, recs, mems[..|mems| - 1]), mems[|mems| - 1])
  }

  /** One iteration of either loop: a described member is merged, any other
      member is skipped. */
  function Visit(naming: JavaNaming, fieldService: FieldAnnotationService, t: TypeRef, recs: seq<FieldRecord>, mem: Member): seq<FieldRecord> {
    if Described(naming, t, mem) then Merge(naming, fieldService, recs, mem) else recs
  }

  /** The declared fields, in the order reflection returns them. */
  function FieldMembers(c: ClassDecl): seq<Member> {
    seq(|c.fields|, i requires 0 <= i < |c.fields| => FieldMember(c.fields[i]))
  }

  /** The declared methods, in the order reflection returns them. */
  function MethodMembers(c: ClassDecl): seq<Member> {
    seq(|c.methods|, j requires 0 <= j < |c.methods| => MethodMember(c.methods[j]))
  }

  /** The declared fields, then the declared methods. */
  function Members(c: ClassDecl): seq<Member> {
    FieldMembers(c) + MethodMembers(c)
  }

  /** The FieldInfo records `buildClassInfo` produces for `c`: the field
      loop from no records, then the method loop, with `fieldService` run on
      each merged member. */
  function Introspect(naming: JavaNaming, fieldService: FieldAnnotationService, c: ClassDecl): seq<FieldRecord> {
    FoldMembers(naming, fieldService, c.ref, FoldMembers(naming, fieldService, c.ref, [], FieldMembers(c)), MethodMembers(c))
  }

  /** The outcome of `buildClassInfo`: its two exceptions, the null it
      returns for classes it does not describe, or the ClassInfo. */
  datatype BuildOutcome =
    | IllegalArgument(message: string)
    | NullPointer
    | NotDescribeable
    | Built(info: ClassInfo)

  const NullTypeMessage := "Argument type must not be null."

  // ---------------------------------------------------------------------
  // The builder

  class ClassInfoBuilder {
    var packageService: PackageAnnotationProcessingService
    var classAnnotations: ClassAnnotationService
    var fieldAnnotations: FieldAnnotationService
    var javaNaming: JavaNaming

    /** Creates the package annotation service; the class and field
        annotation services and the naming service are the caller's. */
    constructor (naming: JavaNaming, classService: ClassAnnotationService, fieldService: FieldAnnotationService)
      ensures javaNaming == naming
      ensures classAnnotations == classService && fieldAnnotations == fieldService
      ensures fresh(packageService) && packageService.processors == DefaultProcessors
    {
      javaNaming := naming;
      classAnnotations := classService;
      fieldAnnotations := fieldService;
      packageService := new PackageAnnotationProcessingService();
    }

    /** `isDescribeable(Class)`. */
    method IsDescribeableClass(t: TypeRef) returns (b: bool)
      ensures b <==> IsDescribeableType(t)
      ensures b ==> t.name != "java.lang.Object"
    {
      if t.name == "java.lang.Object" || t.name == "java.lang.Void" || t.name == "java.lang.Class" {
        return false;
      }
      return true;
    }

    /** `isDescribeable(Class, Field)`: starts from true and clears the flag
        for a foreign declaring class, static, transient and synthetic. */
    method IsDescribeableField(t: TypeRef, f: FieldDecl) returns (b: bool)
      ensures b <==> FieldDescribed(t, f)
    {
      b := true;
      var declaringClass := f.declaringClass;
      if declaringClass != t && !declaringClass.isInterface {
        b := false;
      }
      if f.isStatic {
        b := b && false;
      }
      if f.isTransient {
        b := b && false;
      }
      if f.isSynthetic {
        b := b && false;
      }
    }

    /** `isDescribeable(Class, Method)`: the same flag, cleared also for a
        method the naming service does not recognise as an accessor. */
    method IsDescribeableMethod(t: TypeRef, m: MethodDecl) returns (b: bool)
      ensures b <==> MethodDescribed(javaNaming, t, m)
    {
      b := true;
      var declaringClass := m.declaringClass;
      if declaringClass != t && !declaringClass.isInterface {
        b := false;
      }
      if m.isSynthetic {
        b := b && false;
      }
      if m.isStatic {
        b := b && false;
      }
      if m.isTransient {
        b := b && false;
      }
      if !(javaNaming.isAddMethod(m) || javaNaming.isCreateMethod(m) || javaNaming.isGetMethod(m)
           || javaNaming.isIsMethod(m) || javaNaming.isSetMethod(m)) {
        b := false;
      }
    }

    /** `hasPublicEmptyConstructor`: both lookup failures count as "no". */
    method HasPublicEmptyConstructor(c: ClassDecl) returns (b: bool)
      ensures b <==> c.constructorLookup == PublicEmptyConstructor
    {
      var found := false;
      if c.constructorLookup.PublicEmptyConstructor? {
        found := true;
      }
      b := found;
    }

    /** Find or create the FieldInfo named `name` in `ci`. */
    method FindOrCreate(ci: ClassInfo, name: string) returns (fi: FieldInfo, ghost k: nat)
      requires ci.DistinctEntries()
      modifies ci`fieldInfos
      ensures ci.DistinctEntries()
      ensures forall i :: 0 <= i < |ci.fieldInfos| ==>
        (i < |old(ci.fieldInfos)| && ci.fieldInfos[i] == old(ci.fieldInfos)[i]) || fresh(ci.fieldInfos[i])
      ensures k < |ci.fieldInfos| && ci.fieldInfos[k] == fi && fi.fieldName == name
      ensures name in Names(old(ci.Records())) ==> ci.fieldInfos == old(ci.fieldInfos)
      ensures name !in Names(old(ci.Records())) ==> fresh(fi) && ci.fieldInfos == old(ci.fieldInfos) + [fi]
      ensures k == if name in Names(old(ci.Records())) then LastIndexOf(Names(old(ci.Records())), name)
                   else |old(ci.Records())|
      ensures ci.Records() ==
        if name in Names(old(ci.Records())) then old(ci.Records()) else old(ci.Records()) + [NewRecord(name)]
    {
      var existing := ci.GetFieldInfo(name);
      if existing == null {
        k := |ci.fieldInfos|;
        fi := AppendNew(ci, name);
      } else {
        fi := existing;
        k := LastIndexOf(ci.FieldNames(), name);
      }
    }

    /** The branch of `buildFieldInfo` for a name not seen yet: a new
        FieldInfo with that name, appended to `ci`. */
    method AppendNew(ci: ClassInfo, name: string) returns (fi: FieldInfo)
      requires ci.DistinctEntries()
      modifies ci`fieldInfos
      ensures fresh(fi) && fi.Record() == NewRecord(name)
      ensures ci.fieldInfos == old(ci.fieldInfos) + [fi]
      ensures ci.DistinctEntries()
      ensures ci.Records() == old(ci.Records()) + [NewRecord(name)]
    {
      fi := new FieldInfo();
      fi.fieldName := name;
      ci.AddFieldInfo(fi);
      DistinctSnoc(old(ci.fieldInfos), fi);
      RecordsOfSnoc(old(ci.fieldInfos), fi);
    }

    /** `buildFieldInfo(classInfo, field)`: the FieldInfo `getFieldInfo`
        finds for the field's property name, or a new one appended, receives
        the field. */
    method BuildFieldInfoFromField(ci: ClassInfo, f: FieldDecl) returns (r: ClassInfo)
      requires ci.DistinctEntries()
      modifies ci`fieldInfos, ci.fieldInfos
      ensures r == ci && ci.DistinctEntries()
      ensures forall i :: 0 <= i < |ci.fieldInfos| ==>
        (i < |old(ci.fieldInfos)| && ci.fieldInfos[i] == old(ci.fieldInfos)[i]) || fresh(ci.fieldInfos[i])
      ensures ci.Records() == Merge(javaNaming, fieldAnnotations, old(ci.Records()), FieldMember(f))
    {
      ghost var recs := ci.Records();
      var fieldName := javaNaming.extractFieldNameFromField(f);
      var fi;
      ghost var k;
      fi, k := FindOrCreate(ci, fieldName);
      ghost var mid := ci.Records();
      UpdateEntry(ci, fi, k, FieldMember(f));
      MergeAt(javaNaming, fieldAnnotations, recs, mid, k, FieldMember(f));
      r := ci;
    }

    /** `buildFieldInfo(classInfo, method)`: the same lookup, then the
        method fills the slot the naming service's first matching predicate
        selects. */
    method BuildFieldInfoFromMethod(ci: ClassInfo, m: MethodDecl) returns (r: ClassInfo)
      requires ci.DistinctEntries()
      modifies ci`fieldInfos, ci.fieldInfos
      ensures r == ci && ci.DistinctEntries()
      ensures forall i :: 0 <= i < |ci.fieldInfos| ==>
        (i < |old(ci.fieldInfos)| && ci.fieldInfos[i] == old(ci.fieldInfos)[i]) || fresh(ci.fieldInfos[i])
      ensures ci.Records() == Merge(javaNaming, fieldAnnotations, old(ci.Records()), MethodMember(m))
    {
      ghost var recs := ci.Records();
      var fieldName := javaNaming.extractFieldNameFromMethod(m);
      var fi;
      ghost var k;
      fi, k := FindOrCreate(ci, fieldName);
      ghost var mid := ci.Records();
      UpdateEntry(ci, fi, k, MethodMember(m));
      MergeAt(javaNaming, fieldAnnotations, recs, mid, k, MethodMember(m));
      r := ci;
    }

    /** The slot updates of `buildFieldInfo(classInfo, field)` on the
        FieldInfo it found or created, then the field's annotations. */
    method ReceiveField(fi: FieldInfo, f: FieldDecl)
      modifies fi
      ensures fi.Record() == Annotate(fieldAnnotations, ApplyField(old(fi.Record()), f), f.annotations)
    {
      fi.field := Some(f);
      var fieldType := f.declaringClass;
      if fieldType.isArray || fieldType.acceptsCollection {
        fi.multivalued := true;
      }
      fi.genericType := Some(f.genericType);
      ProcessFieldAnnotations(fi, f.annotations);
    }

    /** `_fieldAnnotationProcessingService.processAnnotations(fieldInfo,
        annotations)`: the service's answer replaces the XML names. */
    method ProcessFieldAnnotations(fi: FieldInfo, annotations: seq<Annotation>)
      modifies fi`elementName, fi`attributeName
      ensures fi.Record() == Annotate(fieldAnnotations, old(fi.Record()), annotations)
    {
      var names := fieldAnnotations(XmlNames(fi.elementName, fi.attributeName), annotations);
      fi.elementName := names.elementName;
      fi.attributeName := names.attributeName;
    }

    /** `_classAnnotationProcessingService.processAnnotations(classInfo,
        annotations)`: the service's answer is written back slot by slot. */
    method ProcessClassAnnotations(ci: ClassInfo, annotations: seq<Annotation>)
      modifies ci`typeName, ci`typeProperties, ci`typeNamespace, ci`typeFactoryClass,
        ci`typeFactoryMethod, ci`rootElementName, ci`rootElementNamespace, ci`isTransient,
        ci`seeAlsoClasses, ci`xmlAccessType, ci`xmlAccessOrder, ci`enumClass
      ensures ci.Slots() == classAnnotations(old(ci.Slots()), annotations)
    {
      var slots := classAnnotations(ci.Slots(), annotations);
      ci.SetTypeName(slots.typeName);
      ci.SetTypeProperties(slots.typeProperties);
      ci.SetTypeNamespace(slots.typeNamespace);
      ci.SetTypeFactoryClass(slots.typeFactoryClass);
      ci.SetTypeFactoryMethod(slots.typeFactoryMethod);
      ci.SetRootElementName(slots.rootElementName);
      ci.SetRootElementNamespace(slots.rootElementNamespace);
      ci.SetTransient(slots.isTransient);
      ci.SetSeeAlsoClasses(slots.seeAlsoClasses);
      ci.SetXmlAccessType(slots.xmlAccessType);
      ci.SetXmlAccessOrder(slots.xmlAccessOrder);
      ci.SetEnumClass(slots.enumClass);
    }

    /** The slot updates of `buildFieldInfo(classInfo, method)` on the
        FieldInfo it found or created, then the method's annotations. */
    method ReceiveMethod(fi: FieldInfo, m: MethodDecl)
      modifies fi
      ensures fi.Record() == Annotate(fieldAnnotations, ApplyMethod(javaNaming, old(fi.Record()), m), m.annotations)
    {
      if javaNaming.isAddMethod(m) {
        fi.methodAdd := Some(m);
        fi.multivalued := true;
      } else if javaNaming.isCreateMethod(m) {
        fi.methodCreate := Some(m);
      } else if javaNaming.isGetMethod(m) {
        fi.methodGet := Some(m);
        var fieldType := m.returnType;
        if fieldType.isArray || fieldType.acceptsCollection || fieldType.isCollection {
          fi.genericType := Some(m.genericReturnType);
          fi.multivalued := true;
        }
      } else if javaNaming.isSetMethod(m) {
        fi.methodSet := Some(m);
        var parameterTypes := m.params;
        if |parameterTypes| == 1 {
          var fieldType := parameterTypes[0].paramType;
          if fieldType.isArray || fieldType.acceptsCollection || fieldType.isCollection {
            fi.multivalued := true;
            fi.genericType := Some(parameterTypes[0].genericType);
          }
        }
      } else if javaNaming.isIsMethod(m) {
        fi.methodIs := Some(m);
      }
      ProcessFieldAnnotations(fi, m.annotations);
    }

    /** Hands `mem` to `fi`, the FieldInfo at position `k` of `ci`; only
        that entry's record changes. */
    method UpdateEntry(ci: ClassInfo, fi: FieldInfo, ghost k: nat, mem: Member)
      requires ci.DistinctEntries() && k < |ci.fieldInfos| && ci.fieldInfos[k] == fi
      modifies fi
      ensures ci.Records() == old(ci.Records())[k := ApplyMember(javaNaming, fieldAnnotations, old(ci.Records())[k], mem)]
    {
      ghost var mid := ci.Records();
      match mem
      case FieldMember(f) => ReceiveField(fi, f);
      case MethodMember(m) => ReceiveMethod(fi, m);
      forall i | 0 <= i < |ci.fieldInfos| && i != k
        ensures ci.Records()[i] == mid[i]
      {
        assert ci.fieldInfos[i] != fi;
      }
      assert ci.Records() == mid[k := fi.Record()];
    }

    /** `buildPackageInfo(pkg)`: a new PackageInfo for the package, with
        the package's annotations dispatched to the registered processors.
        `null` stands for the NullPointerException a null package raises. */
    method BuildPackageInfo(pkg: Option<PackageDecl>) returns (pi: PackageInfo?)
      ensures pi == null <==> pkg.None?
      ensures pi != null ==> fresh(pi)
      ensures pi != null ==>
        pi.Record() == Dispatch(packageService.processors, EmptyPackageRecord.(pkg := pkg), pkg.value.annotations)
    {
      var packageInfo := new PackageInfo();
      packageInfo.pkg := pkg;
      if pkg.None? {
        return null;
      }
      packageService.ProcessAnnotations(PackageTarget(packageInfo), pkg.value.annotations);
      pi := packageInfo;
    }

    /** The body of the field loop of `buildClassInfo`. */
    method VisitField(ci: ClassInfo, t: TypeRef, field: FieldDecl) returns (r: ClassInfo)
      requires ci.DistinctEntries()
      modifies ci`fieldInfos, ci.fieldInfos
      ensures r == ci && ci.DistinctEntries()
      ensures forall i :: 0 <= i < |ci.fieldInfos| ==>
        (i < |old(ci.fieldInfos)| && ci.fieldInfos[i] == old(ci.fieldInfos)[i]) || fresh(ci.fieldInfos[i])
      ensures ci.Records() == Visit(javaNaming, fieldAnnotations, t, old(ci.Records()), FieldMember(field))
    {
      r := ci;
      var d := IsDescribeableField(t, field);
      if d {
        r := BuildFieldInfoFromField(ci, field);
      }
    }

    /** The body of the method loop of `buildClassInfo`. */
    method VisitMethod(ci: ClassInfo, t: TypeRef, m: MethodDecl) returns (r: ClassInfo)
      requires ci.DistinctEntries()
      modifies ci`fieldInfos, ci.fieldInfos
      ensures r == ci && ci.DistinctEntries()
      ensures forall i :: 0 <= i < |ci.fieldInfos| ==>
        (i < |old(ci.fieldInfos)| && ci.fieldInfos[i] == old(ci.fieldInfos)[i]) || fresh(ci.fieldInfos[i])
      ensures ci.Records() == Visit(javaNaming, fieldAnnotations, t, old(ci.Records()), MethodMember(m))
    {
      r := ci;
      var d := IsDescribeableMethod(t, m);
      if d {
        r := BuildFieldInfoFromMethod(ci, m);
      }
    }

    /** Iteration `i` of the field loop, as a step of the fold. */
    method FieldStep(ci: ClassInfo, c: ClassDecl, ghost mems: seq<Member>, i: nat) returns (r: ClassInfo)
      requires i < |c.fields| && mems == FieldMembers(c)
      requires ci.DistinctEntries()
      requires ci.Records() == FoldMembers(javaNaming, fieldAnnotations, c.ref, [], mems[..i])
      modifies ci`fieldInfos, ci.fieldInfos
      ensures r == ci && ci.DistinctEntries()
      ensures forall i :: 0 <= i < |ci.fieldInfos| ==>
        (i < |old(ci.fieldInfos)| && ci.fieldInfos[i] == old(ci.fieldInfos)[i]) || fresh(ci.fieldInfos[i])
      ensures ci.Records() == FoldMembers(javaNaming, fieldAnnotations, c.ref, [], mems[..i + 1])
    {
      r := VisitField(ci, c.ref, c.fields[i]);
      FoldStep(javaNaming, fieldAnnotations, c.ref, [], mems, i);
    }

    /** Iteration `j` of the method loop, as a step of the fold. */
    method MethodStep(ci: ClassInfo, c: ClassDecl, ghost start: seq<FieldRecord>, ghost mems: seq<Member>, j: nat)
      returns (r: ClassInfo)
      requires j < |c.methods| && mems == MethodMembers(c)
      requires ci.DistinctEntries()
      requires ci.Records() == FoldMembers(javaNaming, fieldAnnotations, c.ref, start, mems[..j])
      modifies ci`fieldInfos, ci.fieldInfos
      ensures r == ci && ci.DistinctEntries()
      ensures forall i :: 0 <= i < |ci.fieldInfos| ==>
        (i < |old(ci.fieldInfos)| && ci.fieldInfos[i] == old(ci.fieldInfos)[i]) || fresh(ci.fieldInfos[i])
      ensures ci.Records() == FoldMembers(javaNaming, fieldAnnotations, c.ref, start, mems[..j + 1])
    {
      r := VisitMethod(ci, c.ref, c.methods[j]);
      FoldStep(javaNaming, fieldAnnotations, c.ref, start, mems, j);
    }

    /** The loop of `buildClassInfo` over the declared fields, on a
        ClassInfo with no FieldInfo yet. */
    method DescribeFields(classInfo: ClassInfo, c: ClassDecl) returns (ci: ClassInfo)
      requires classInfo.fieldInfos == []
      modifies classInfo`fieldInfos
      ensures ci == classInfo && ci.DistinctEntries()
      ensures forall i :: 0 <= i < |ci.fieldInfos| ==> fresh(ci.fieldInfos[i])
      ensures ci.Records() == FoldMembers(javaNaming, fieldAnnotations, c.ref, [], FieldMembers(c))
    {
      ci := classInfo;
      ghost var mems := FieldMembers(c);
      var i := 0;
      while i < |c.fields|
        invariant 0 <= i <= |c.fields|
        invariant ci == classInfo && ci.DistinctEntries()
        invariant forall i :: 0 <= i < |ci.fieldInfos| ==> fresh(ci.fieldInfos[i])
        invariant ci.Records() == FoldMembers(javaNaming, fieldAnnotations, c.ref, [], mems[..i])
      {
        ci := FieldStep(ci, c, mems, i);
        i := i + 1;
      }
      assert mems[..i] == mems;
    }

    /** The loop of `buildClassInfo` over the declared methods, from the
        records `start` the field loop left. */
    method DescribeMethods(classInfo: ClassInfo, c: ClassDecl, ghost start: seq<FieldRecord>) returns (ci: ClassInfo)
      requires classInfo.DistinctEntries() && classInfo.Records() == start
      modifies classInfo`fieldInfos, classInfo.fieldInfos
      ensures ci == classInfo && ci.DistinctEntries()
      ensures ci.Records() == FoldMembers(javaNaming, fieldAnnotations, c.ref, start, MethodMembers(c))
    {
      ci := classInfo;
      ghost var mems := MethodMembers(c);
      var j := 0;
      while j < |c.methods|
        invariant 0 <= j <= |c.methods|
        invariant ci == classInfo && ci.DistinctEntries()
        invariant forall i :: 0 <= i < |ci.fieldInfos| ==>
          (i < |old(ci.fieldInfos)| && ci.fieldInfos[i] == old(ci.fieldInfos)[i]) || fresh(ci.fieldInfos[i])
        invariant ci.Records() == FoldMembers(javaNaming, fieldAnnotations, c.ref, start, mems[..j])
      {
        ci := MethodStep(ci, c, start, mems, j);
        j := j + 1;
      }
      assert mems[..j] == mems;
    }

    /** `buildClassInfo(type)` from `new ClassInfo()` to the last setter
        call before the class annotations. */
    method NewClassInfo(c: ClassDecl) returns (classInfo: ClassInfo)
      ensures fresh(classInfo) && classInfo.fieldInfos == []
      ensures Header(javaNaming, classInfo, c)
      ensures classInfo.Slots() == NoTypeSlots
    {
      classInfo := new ClassInfo();
      ghost var slots := classInfo.Slots();
      var name := javaNaming.getClassName(c.ref);
      var hasConstructor := HasPublicEmptyConstructor(c);
      classInfo.SetType(Some(c.ref));
      classInfo.SetClassName(Some(name));
      classInfo.SetSupertype(c.superclass);
      classInfo.SetInterfaces(Some(c.interfaces));
      classInfo.SetHasPublicEmptyConstructor(hasConstructor);
      assert classInfo.Slots() == slots;
    }

    /** `buildClassInfo(type)` from `new ClassInfo()` to the class
        annotations, before the loops. */
    method AnnotatedClassInfo(c: ClassDecl) returns (classInfo: ClassInfo)
      ensures fresh(classInfo) && classInfo.fieldInfos == []
      ensures Header(javaNaming, classInfo, c)
      ensures classInfo.Slots() == classAnnotations(NoTypeSlots, c.annotations)
    {
      classInfo := NewClassInfo(c);
      ProcessClassAnnotations(classInfo, c.annotations);
    }

    /** `buildClassInfo(type)` from `new ClassInfo()` to the end of the
        method loop, for a class that is describable. */
    method DescribeClass(c: ClassDecl) returns (classInfo: ClassInfo)
      ensures fresh(classInfo) && Describes(javaNaming, classAnnotations, fieldAnnotations, classInfo, c)
    {
      classInfo := AnnotatedClassInfo(c);
      ghost var slots := classInfo.Slots();
      classInfo := DescribeMembers(classInfo, c);
      assert classInfo.Slots() == slots;
    }

    /** The two loops of `buildClassInfo`, on a ClassInfo with no FieldInfo
        yet: the declared fields, then the declared methods. */
    method DescribeMembers(classInfo: ClassInfo, c: ClassDecl) returns (ci: ClassInfo)
      requires classInfo.fieldInfos == []
      modifies classInfo`fieldInfos
      ensures ci == classInfo && ci.DistinctEntries()
      ensures ci.Records() == Introspect(javaNaming, fieldAnnotations, c)
    {
      ci := DescribeFields(classInfo, c);
      ci := DescribeMethods(ci, c, ci.Records());
    }

    /** `buildClassInfo(type)`. */
    method BuildClassInfo(t: Option<ClassDecl>) returns (r: BuildOutcome)
      ensures t.None? ==> r == IllegalArgument(NullTypeMessage)
      ensures t.Some? && !IsDescribeableType(t.value.ref) ==> r == NotDescribeable
      ensures t.Some? && IsDescribeableType(t.value.ref) && t.value.pkg.None? ==> r == NullPointer
      ensures t.Some? && IsDescribeableType(t.value.ref) && t.value.pkg.Some? ==>
        && r.Built? && fresh(r.info)
        && Describes(javaNaming, classAnnotations, fieldAnnotations, r.info, t.value)
        && r.info.packageInfo != null && fresh(r.info.packageInfo)
        && r.info.packageInfo.Record()
           == Dispatch(packageService.processors, EmptyPackageRecord.(pkg := t.value.pkg), t.value.pkg.value.annotations)
    {
      if t.None? {
        return IllegalArgument(NullTypeMessage);
      }
      var c := t.value;
      var describeable := IsDescribeableClass(c.ref);
      if !describeable {
        return NotDescribeable;
      }
      r := BuildDescribeable(c);
    }

    /** `buildClassInfo(type)` past its two guards. */
    method BuildDescribeable(c: ClassDecl) returns (r: BuildOutcome)
      ensures c.pkg.None? ==> r == NullPointer
      ensures c.pkg.Some? ==>
        && r.Built? && fresh(r.info)
        && Describes(javaNaming, classAnnotations, fieldAnnotations, r.info, c)
        && r.info.packageInfo != null && fresh(r.info.packageInfo)
        && r.info.packageInfo.Record()
           == Dispatch(packageService.processors, EmptyPackageRecord.(pkg := c.pkg), c.pkg.value.annotations)
    {
      var classInfo := DescribeClass(c);
      var pi := BuildPackageInfo(c.pkg);
      if pi == null {
        return NullPointer;
      }
      classInfo.SetPackageInfo(pi);
      return Built(classInfo);
    }
  }

  /** The slots `buildClassInfo` sets from `c` before its loops: the type,
      the class name, the supertype, the interfaces and the constructor
      flag. */
  predicate Header(naming: JavaNaming, ci: ClassInfo, c: ClassDecl)
    reads ci`describedType, ci`className, ci`supertype, ci`interfaces, ci`hasPublicEmptyConstructor
  {
    && ci.describedType == Some(c.ref)
    && ci.className == Some(naming.getClassName(c.ref))
    && ci.supertype == c.superclass
    && ci.interfaces == Some(c.interfaces)
    && (ci.hasPublicEmptyConstructor <==> c.constructorLookup == PublicEmptyConstructor)
  }

  /** What `buildClassInfo` records about a describable class `c` in `ci`:
      the `Header` slots, the slots the class annotation service computes
      from a new ClassInfo and the class's annotations, and distinct
      FieldInfos whose records are `Introspect`'s. */
  predicate Describes(naming: JavaNaming, classService: ClassAnnotationService,
    fieldService: FieldAnnotationService, ci: ClassInfo, c: ClassDecl)
    reads ci`fieldInfos, ci.fieldInfos, ci`describedType, ci`className, ci`supertype,
      ci`interfaces, ci`hasPublicEmptyConstructor
    reads ci`typeName, ci`typeProperties, ci`typeNamespace, ci`typeFactoryClass,
      ci`typeFactoryMethod, ci`rootElementName, ci`rootElementNamespace, ci`isTransient,
      ci`seeAlsoClasses, ci`xmlAccessType, ci`xmlAccessOrder, ci`enumClass
  {
    && Header(naming, ci, c)
    && ci.Slots() == classService(NoTypeSlots, c.annotations)
    && ci.DistinctEntries()
    && ci.Records() == Introspect(naming, fieldService, c)
  }

  /** `Merge` seen from the list after the lookup: the record at `k` (found,
      or just appended) receives the member. */
  lemma MergeAt(naming: JavaNaming, fieldService: FieldAnnotationService, recs: seq<FieldRecord>, mid: seq<FieldRecord>, k: nat, mem: Member)
    requires var name := MemberName(naming, mem);
      && mid == (if name in Names(recs) then recs else recs + [NewRecord(name)])
      && k == (if name in Names(recs) then LastIndexOf(Names(recs), name) else |recs|)
    ensures k < |mid|
    ensures Merge(naming, fieldService, recs, mem) == mid[k := ApplyMember(naming, fieldService, mid[k], mem)]
  {
  }

  /** Folding over two lists one after the other. */
  lemma {:induction false} FoldConcat(naming: JavaNaming, fieldService: FieldAnnotationService, t: TypeRef, recs: seq<FieldRecord>, a: seq<Member>, b: seq<Member>)
    ensures FoldMembers(naming, fieldService, t, recs, a + b) == FoldMembers(naming, fieldService, t, FoldMembers(naming, fieldService, t, recs, a), b)
    decreases |b|
  {
    if b == [] {
      assert a + b == a;
    } else {
      assert (a + b)[..|a + b| - 1] == a + b[..|b| - 1];
      FoldConcat(naming, fieldService, t, recs, a, b[..|b| - 1]);
    }
  }

  /** The two loops are one fold over the fields followed by the methods. */
  lemma IntrospectIsOneFold(naming: JavaNaming, fieldService: FieldAnnotationService, c: ClassDecl)
    ensures Introspect(naming, fieldService, c) == FoldMembers(naming, fieldService, c.ref, [], Members(c))
  {
    FoldConcat(naming, fieldService, c.ref, [], FieldMembers(c), MethodMembers(c));
  }

  /** One more iteration of the fold. */
  lemma FoldStep(naming: JavaNaming, fieldService: FieldAnnotationService, t: TypeRef, recs: seq<FieldRecord>, mems: seq<Member>, i: nat)
    requires i < |mems|
    ensures FoldMembers(naming, fieldService, t, recs, mems[..i + 1]) == Visit(naming, fieldService, t, FoldMembers(naming, fieldService, t, recs, mems[..i]), mems[i])
  {
    assert mems[..i + 1][..i] == mems[..i];
  }
}
