/** The records the introspection fills in: FieldInfo (one per property),
    PackageInfo (one per package) and ClassInfo (one per class). The sources
    of FieldInfo and PackageInfo are not part of this model; their classes
    hold the slots the builder and the package processors write, plus the
    XML names the field annotation service writes, and their setters are
    plain field assignments. */
module Info {
  import opened Wrappers
  import opened Sequences
  import opened Reflection

  // ---------------------------------------------------------------------
  // FieldInfo

  /** The value of a FieldInfo's slots at one moment. */
  datatype FieldRecord = FieldRecord(
    fieldName: string,
    field: Option<FieldDecl>,
    methodAdd: Option<MethodDecl>,
    methodCreate: Option<MethodDecl>,
    methodGet: Option<MethodDecl>,
    methodSet: Option<MethodDecl>,
    methodIs: Option<MethodDecl>,
    multivalued: bool,
    genericType: Option<GenericType>,
    elementName: Option<string>,
    attributeName: Option<string>)

  /** A FieldInfo just created and named. */
  function NewRecord(name: string): FieldRecord {
    FieldRecord(name, None, None, None, None, None, None, false, None, None, None)
  }

  /** The slots of a FieldInfo that the field annotation processors write:
      the XML element and attribute names. */
  datatype XmlNames = XmlNames(elementName: Option<string>, attributeName: Option<string>)

  function XmlNamesOf(rec: FieldRecord): XmlNames {
    XmlNames(rec.elementName, rec.attributeName)
  }

  /** The property names of a list of records, in order. */
  function Names(recs: seq<FieldRecord>): seq<string> {
    seq(|recs|, i requires 0 <= i < |recs| => recs[i].fieldName)
  }

  class FieldInfo {
    var fieldName: string
    var field: Option<FieldDecl>
    var methodAdd: Option<MethodDecl>
    var methodCreate: Option<MethodDecl>
    var methodGet: Option<MethodDecl>
    var methodSet: Option<MethodDecl>
    var methodIs: Option<MethodDecl>
    var multivalued: bool
    var genericType: Option<GenericType>
    var elementName: Option<string>
    var attributeName: Option<string>

    /** Java's `new FieldInfo()`: every slot unset. The name is "" until
        `setFieldName`, which the builder calls right away. */
    constructor ()
      ensures Record() == NewRecord("")
    {
      fieldName := "";
      field := None;
      methodAdd, methodCreate, methodGet, methodSet, methodIs := None, None, None, None, None;
      multivalued := false;
      genericType := None;
      elementName, attributeName := None, None;
    }

    function Record(): FieldRecord
      reads this
    {
      FieldRecord(fieldName, field, methodAdd, methodCreate, methodGet, methodSet,
                  methodIs, multivalued, genericType, elementName, attributeName)
    }
  }

  /** The records of a list of FieldInfo objects, position by position. */
  function RecordsOf(fis: seq<FieldInfo>): (recs: seq<FieldRecord>)
    reads fis
    ensures |recs| == |fis|
    ensures forall i :: 0 <= i < |fis| ==> recs[i] == fis[i].Record()
  {
    if fis == [] then [] else RecordsOf(fis[..|fis| - 1]) + [fis[|fis| - 1].Record()]
  }

  /** Appending a FieldInfo appends its record. */
  lemma RecordsOfSnoc(fis: seq<FieldInfo>, fi: FieldInfo)
    ensures RecordsOf(fis + [fi]) == RecordsOf(fis) + [fi.Record()]
  {
    assert (fis + [fi])[..|fis|] == fis;
  }

  // ---------------------------------------------------------------------
  // PackageInfo

  /** The value of a PackageInfo's slots at one moment. */
  datatype PackageRecord = PackageRecord(
    pkg: Option<PackageDecl>,
    schemaNamespace: Option<string>,
    schemaElementForm: Option<XmlNsForm>,
    schemaAttributeForm: Option<XmlNsForm>,
    schemaNs: seq<XmlNs>,
    accessType: Option<XmlAccessType>,
    accessOrder: Option<XmlAccessOrder>,
    schemaTypes: seq<SchemaTypeEntry>)

  const EmptyPackageRecord := PackageRecord(None, None, None, None, [], None, None, [])

  class PackageInfo {
    var pkg: Option<PackageDecl>
    var schemaNamespace: Option<string>
    var schemaElementForm: Option<XmlNsForm>
    var schemaAttributeForm: Option<XmlNsForm>
    var schemaNs: seq<XmlNs>
    var accessType: Option<XmlAccessType>
    var accessOrder: Option<XmlAccessOrder>
    var schemaTypes: seq<SchemaTypeEntry>

    constructor ()
      ensures Record() == EmptyPackageRecord
    {
      pkg := None;
      schemaNamespace, schemaElementForm, schemaAttributeForm := None, None, None;
      schemaNs := [];
      accessType, accessOrder := None, None;
      schemaTypes := [];
    }

    function Record(): PackageRecord
      reads this
    {
      PackageRecord(pkg, schemaNamespace, schemaElementForm, schemaAttributeForm,
                    schemaNs, accessType, accessOrder, schemaTypes)
    }
  }

  // ---------------------------------------------------------------------
  // ClassInfo

  /** The slots of a ClassInfo that the class annotation processors write. */
  datatype TypeSlots = TypeSlots(
    typeName: Option<string>,
    typeProperties: Option<seq<string>>,
    typeNamespace: Option<string>,
    typeFactoryClass: Option<TypeRef>,
    typeFactoryMethod: Option<string>,
    rootElementName: Option<string>,
    rootElementNamespace: Option<string>,
    isTransient: bool,
    seeAlsoClasses: Option<seq<TypeRef>>,
    xmlAccessType: Option<XmlAccessType>,
    xmlAccessOrder: Option<XmlAccessOrder>,
    enumClass: Option<TypeRef>)

  /** Those slots in a new ClassInfo. */
  const NoTypeSlots := TypeSlots(None, None, None, None, None, None, None, false, None, None, None, None)

  class ClassInfo {
    var typeName: Option<string>
    var typeProperties: Option<seq<string>>
    var typeNamespace: Option<string>
    var typeFactoryClass: Option<TypeRef>
    var typeFactoryMethod: Option<string>
    var rootElementName: Option<string>
    var rootElementNamespace: Option<string>
    var isTransient: bool
    var seeAlsoClasses: Option<seq<TypeRef>>
    var xmlAccessType: Option<XmlAccessType>
    var xmlAccessOrder: Option<XmlAccessOrder>
    var clazz: Option<TypeRef>
    var superClass: Option<TypeRef>
    var interfaces: Option<seq<TypeRef>>
    var fieldInfos: seq<FieldInfo>
    var enumClass: Option<TypeRef>
    var packageInfo: PackageInfo?
    // Slots the builder sets that this revision of ClassInfo does not declare.
    var describedType: Option<TypeRef>
    var className: Option<string>
    var supertype: Option<TypeRef>
    var hasPublicEmptyConstructor: bool

    /** An empty ClassInfo: no FieldInfo, not transient, nothing set. */
    constructor ()
      ensures fieldInfos == [] && !isTransient && packageInfo == null
      ensures typeName.None? && typeProperties.None? && typeNamespace.None?
      ensures typeFactoryClass.None? && typeFactoryMethod.None?
      ensures rootElementName.None? && rootElementNamespace.None?
      ensures seeAlsoClasses.None? && xmlAccessType.None? && xmlAccessOrder.None?
      ensures clazz.None? && superClass.None? && interfaces.None? && enumClass.None?
      ensures describedType.None? && className.None? && supertype.None?
      ensures !hasPublicEmptyConstructor
      ensures Slots() == NoTypeSlots
    {
      typeName, typeProperties, typeNamespace := None, None, None;
      typeFactoryClass, typeFactoryMethod := None, None;
      rootElementName, rootElementNamespace := None, None;
      isTransient := false;
      seeAlsoClasses, xmlAccessType, xmlAccessOrder := None, None, None;
      clazz, superClass, interfaces := None, None, None;
      fieldInfos := [];
      enumClass := None;
      packageInfo := null;
      describedType, className, supertype := None, None, None;
      hasPublicEmptyConstructor := false;
    }

    /** The current values of the slots the class annotation processors
        write. */
    function Slots(): TypeSlots
      reads this`typeName, this`typeProperties, this`typeNamespace, this`typeFactoryClass,
        this`typeFactoryMethod, this`rootElementName, this`rootElementNamespace, this`isTransient,
        this`seeAlsoClasses, this`xmlAccessType, this`xmlAccessOrder, this`enumClass
    {
      TypeSlots(typeName, typeProperties, typeNamespace, typeFactoryClass, typeFactoryMethod,
                rootElementName, rootElementNamespace, isTransient, seeAlsoClasses,
                xmlAccessType, xmlAccessOrder, enumClass)
    }

    /** The records of the FieldInfos, in insertion order. */
    function Records(): seq<FieldRecord>
      reads this`fieldInfos, fieldInfos
    {
      RecordsOf(fieldInfos)
    }

    /** The property names of the FieldInfos, in insertion order. */
    function FieldNames(): seq<string>
      reads this`fieldInfos, fieldInfos
    {
      Names(Records())
    }

    /** No FieldInfo object is listed twice. */
    predicate DistinctEntries()
      reads this`fieldInfos
    {
      Distinct(fieldInfos)
    }

    /** `getFieldInfo`: scans the whole list and keeps the last FieldInfo
        whose name equals `name`; null when there is none. */
    method GetFieldInfo(name: string) returns (found: FieldInfo?)
      ensures found == null <==> name !in FieldNames()
      ensures found != null ==> found == fieldInfos[LastIndexOf(FieldNames(), name)]
      ensures found != null ==> found.fieldName == name
    {
      found := null;
      ghost var names := FieldNames();
      var i := 0;
      while i < |fieldInfos|
        invariant 0 <= i <= |fieldInfos|
        invariant found == null <==> LastIndexOf(names[..i], name) == -1
        invariant found != null ==> found == fieldInfos[LastIndexOf(names[..i], name)]
      {
        var fi := fieldInfos[i];
        LastIndexOfStep(names, i, name);
        assert names[i] == fi.fieldName;
        if fi.fieldName == name {
          found := fi;
        }
        i := i + 1;
      }
      assert names[..i] == names;
    }

    /** `addFieldInfo`: appends at the end. */
    method AddFieldInfo(fi: FieldInfo)
      modifies this`fieldInfos
      ensures fieldInfos == old(fieldInfos) + [fi]
    {
      fieldInfos := fieldInfos + [fi];
    }

    /** `getFieldInfos`: the list itself, in insertion order. */
    method GetFieldInfos() returns (fis: seq<FieldInfo>)
      ensures fis == fieldInfos
    {
      fis := fieldInfos;
    }

    // Setters: each changes its own slot and nothing else (the frames say
    // so); the matching getter is a read of that slot.

    method SetTypeName(v: Option<string>)
      modifies this`typeName
      ensures typeName == v
    {
      typeName := v;
    }

    method SetTypeProperties(v: Option<seq<string>>)
      modifies this`typeProperties
      ensures typeProperties == v
    {
      typeProperties := v;
    }

    method SetTypeNamespace(v: Option<string>)
      modifies this`typeNamespace
      ensures typeNamespace == v
    {
      typeNamespace := v;
    }

    method SetTypeFactoryClass(v: Option<TypeRef>)
      modifies this`typeFactoryClass
      ensures typeFactoryClass == v
    {
      typeFactoryClass := v;
    }

    method SetTypeFactoryMethod(v: Option<string>)
      modifies this`typeFactoryMethod
      ensures typeFactoryMethod == v
    {
      typeFactoryMethod := v;
    }

    method SetRootElementName(v: Option<string>)
      modifies this`rootElementName
      ensures rootElementName == v
    {
      rootElementName := v;
    }

    method SetRootElementNamespace(v: Option<string>)
      modifies this`rootElementNamespace
      ensures rootElementNamespace == v
    {
      rootElementNamespace := v;
    }

    method SetXmlAccessType(v: Option<XmlAccessType>)
      modifies this`xmlAccessType
      ensures xmlAccessType == v
    {
      xmlAccessType := v;
    }

    method SetXmlAccessOrder(v: Option<XmlAccessOrder>)
      modifies this`xmlAccessOrder
      ensures xmlAccessOrder == v
    {
      xmlAccessOrder := v;
    }

    method SetTransient(b: bool)
      modifies this`isTransient
      ensures isTransient == b
    {
      isTransient := b;
    }

    method SetSeeAlsoClasses(v: Option<seq<TypeRef>>)
      modifies this`seeAlsoClasses
      ensures seeAlsoClasses == v
    {
      seeAlsoClasses := v;
    }

    method SetClazz(v: Option<TypeRef>)
      modifies this`clazz
      ensures clazz == v
    {
      clazz := v;
    }

    method SetSuperClass(v: Option<TypeRef>)
      modifies this`superClass
      ensures superClass == v
    {
      superClass := v;
    }

    method SetInterfaces(v: Option<seq<TypeRef>>)
      modifies this`interfaces
      ensures interfaces == v
    {
      interfaces := v;
    }

    method SetEnumClass(v: Option<TypeRef>)
      modifies this`enumClass
      ensures enumClass == v
    {
      enumClass := v;
    }

    method SetPackageInfo(v: PackageInfo?)
      modifies this`packageInfo
      ensures packageInfo == v
    {
      packageInfo := v;
    }

    method SetType(v: Option<TypeRef>)
      modifies this`describedType
      ensures describedType == v
    {
      describedType := v;
    }

    method SetClassName(v: Option<string>)
      modifies this`className
      ensures className == v
    {
      className := v;
    }

    method SetSupertype(v: Option<TypeRef>)
      modifies this`supertype
      ensures supertype == v
    {
      supertype := v;
    }

    method SetHasPublicEmptyConstructor(b: bool)
      modifies this`hasPublicEmptyConstructor
      ensures hasPublicEmptyConstructor == b
    {
      hasPublicEmptyConstructor := b;
    }
  }

  /** The `ReflectionInfo` an annotation processor is handed: one of the
      three kinds of info record. */
  datatype ReflectionInfo =
    | PackageTarget(packageInfo: PackageInfo)
    | ClassTarget(classInfo: ClassInfo)
    | FieldTarget(fieldInfo: FieldInfo)
  {
    /** What a package-scope processor may change: the PackageInfo, if this
        is one, and nothing otherwise. */
    function PackageFrame(): set<object> {
      if PackageTarget? then {packageInfo} else {}
    }
  }
}
