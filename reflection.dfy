/** What the introspection reads from the host platform: classes, their
    declared fields and methods, packages, and the JAXB annotations found on
    them. Java reflection itself is not modelled; each declaration is a value
    that carries exactly the facts the builder asks for. */
module Reflection {
  import opened Wrappers

  /** A Java class. `acceptsCollection` is `t.isAssignableFrom(Collection.class)`
      (a `Collection` may be stored in a `t`: `Collection`, `Iterable`,
      `Object`); `isCollection` is `Collection.class.isAssignableFrom(t)`
      (`t` is a `Collection` type: `List`, `ArrayList`, ...). Two classes are
      the same class when the values are equal. */
  datatype TypeRef = TypeRef(
    name: string,
    isInterface: bool,
    isArray: bool,
    acceptsCollection: bool,
    isCollection: bool)

  /** A `java.lang.reflect.Type` as returned by `getGenericType` and friends. */
  type GenericType = string

  /** A declared field. `fieldType` is the field's own class; the builder as
      written never looks at it (it inspects `declaringClass` instead). */
  datatype FieldDecl = FieldDecl(
    name: string,
    declaringClass: TypeRef,
    isStatic: bool,
    isTransient: bool,
    isSynthetic: bool,
    fieldType: TypeRef,
    genericType: GenericType,
    annotations: seq<Annotation>)

  /** One formal parameter: its raw class and its generic type. */
  datatype Param = Param(paramType: TypeRef, genericType: GenericType)

  /** A declared method. `isTransient` is the bit that `Modifier.isTransient`
      tests in `getModifiers()`; for a method the JVM uses that bit to mark a
      varargs method. */
  datatype MethodDecl = MethodDecl(
    name: string,
    declaringClass: TypeRef,
    isStatic: bool,
    isTransient: bool,
    isSynthetic: bool,
    returnType: TypeRef,
    genericReturnType: GenericType,
    params: seq<Param>,
    annotations: seq<Annotation>)

  /** Outcome of `Class.getConstructor()` with no arguments. */
  datatype ConstructorLookup = PublicEmptyConstructor | NoSuchMethod | SecurityDenied

  /** `java.lang.Package` with the annotations of its package-info. */
  datatype PackageDecl = PackageDecl(name: string, annotations: seq<Annotation>)

  /** A class to introspect, with its annotations and its declared (not
      inherited) members in the order reflection returns them. `pkg` is
      `None` when `getPackage()` returns null. */
  datatype ClassDecl = ClassDecl(
    ref: TypeRef,
    superclass: Option<TypeRef>,
    interfaces: seq<TypeRef>,
    fields: seq<FieldDecl>,
    methods: seq<MethodDecl>,
    constructorLookup: ConstructorLookup,
    pkg: Option<PackageDecl>,
    annotations: seq<Annotation>)

  /** The JavaNaming service the builder consults. Its implementation is not
      part of this model, so every query is a function value supplied by the
      caller. */
  datatype JavaNaming = JavaNaming(
    isAddMethod: MethodDecl -> bool,
    isCreateMethod: MethodDecl -> bool,
    isGetMethod: MethodDecl -> bool,
    isSetMethod: MethodDecl -> bool,
    isIsMethod: MethodDecl -> bool,
    extractFieldNameFromField: FieldDecl -> string,
    extractFieldNameFromMethod: MethodDecl -> string,
    getClassName: TypeRef -> string)

  // ---------------------------------------------------------------------
  // JAXB annotations, as a tagged union

  datatype XmlNsForm = Unqualified | Qualified | Unset
  datatype XmlAccessType = AccessProperty | AccessField | AccessPublicMember | AccessNone
  datatype XmlAccessOrder = Undefined | Alphabetical

  /** One `@XmlNs(prefix, namespaceURI)` binding of `@XmlSchema.xmlns`. */
  datatype XmlNs = XmlNs(prefix: string, namespaceUri: string)

  /** The (name, namespace, type) triple of one `@XmlSchemaType`. */
  datatype SchemaTypeEntry = SchemaTypeEntry(name: string, namespace: string, typ: TypeRef)

  datatype Annotation =
    | XmlSchema(namespace: string, elementFormDefault: XmlNsForm,
                attributeFormDefault: XmlNsForm, xmlns: seq<XmlNs>)
    | XmlAccessorType(accessType: XmlAccessType)
    | XmlAccessorOrder(accessOrder: XmlAccessOrder)
    | XmlSchemaType(entry: SchemaTypeEntry)
    | XmlSchemaTypes(entries: seq<SchemaTypeEntry>)
    | XmlEnumValue(value: string)
    | OtherAnnotation(annotationType: string)

  /** The annotation classes, as `forAnnotationClass()` returns them. */
  datatype AnnotationKind =
    | XmlSchemaKind
    | XmlAccessorTypeKind
    | XmlAccessorOrderKind
    | XmlSchemaTypeKind
    | XmlSchemaTypesKind
    | XmlEnumValueKind
    | OtherKind(annotationType: string)

  /** `annotation.annotationType()`. */
  function KindOf(a: Annotation): AnnotationKind {
    match a
    case XmlSchema(_, _, _, _) => XmlSchemaKind
    case XmlAccessorType(_) => XmlAccessorTypeKind
    case XmlAccessorOrder(_) => XmlAccessorOrderKind
    case XmlSchemaType(_) => XmlSchemaTypeKind
    case XmlSchemaTypes(_) => XmlSchemaTypesKind
    case XmlEnumValue(_) => XmlEnumValueKind
    case OtherAnnotation(t) => OtherKind(t)
  }
}
