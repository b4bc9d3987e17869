# castor-jaxb introspection, modelled in Dafny

This project models the metadata-introspection layer of castor-jaxb. That layer reads a Java class, its declared fields and methods, and the annotations of its package. It builds the `ClassInfo`, `FieldInfo` and `PackageInfo` records that the descriptor builder later turns into Castor XML class descriptors.

The model has five parts, one module each, plus shared helpers:

- **`Naming`** (`naming.dfy`) models `NamingJava2Xml.toXMLName` and `createXMLName`.
  - `toXMLName` is the in-place `StringBuffer` rewrite. Its loop carries the `ucPrev` flag.
  - The method is proved against `XmlName`, a function of the input.
  - The documented behaviour is proved about `XmlName`: acronyms unchanged, first character lowered, a `-` before each upper-case letter that starts a run, `.` suppressing the next separator, the output length, and idempotence on names without capitals.
- **`Introspection`** (`class_info_builder.dfy`) models `ClassInfoBuilder`.
  - It covers the three `isDescribeable` filters, both `buildFieldInfo` overloads with their find-or-create lookup, `hasPublicEmptyConstructor`, `buildPackageInfo` and `buildClassInfo`.
  - Every method is proved against a pure fold: `Merge` is one `buildFieldInfo` call; `FoldMembers` and `Introspect` are the two loops.
  - The class and field annotation services are functions the caller supplies. The class service maps the class's annotation slots and annotations to new slot values. The field service does the same for a FieldInfo's element and attribute names. The builder runs them where `buildClassInfo` and both `buildFieldInfo` overloads call them.
  - The result is stated through `Describes`. The ClassInfo's annotation slots are what the class service computes from a new ClassInfo. Its FieldInfos hold exactly the records `Introspect` computes, and no FieldInfo object is listed twice.
- **`IntrospectionProperties`** (`builder_properties.dfy`) holds the properties of that fold:
  - the slot precedence add > create > get > set > is;
  - `multivalued` only ever going up;
  - property names staying distinct, and being exactly the names of the described members;
  - every described member leaving its mark on its property;
  - the element and attribute names coming from the field annotation service alone;
  - the class-with-two-plain-fields case from the test suite.
- **`Info`** (`info.dfy`) models `ClassInfo`:
  - the append-only FieldInfo list and the `getFieldInfo` scan, which keeps the last match;
  - the setters, each with a frame naming only its own field.
  - `FieldInfo` and `PackageInfo` are classes with the slots the builder and the package processors write, plus a FieldInfo's element and attribute names, which the field annotation service writes.
- **`PackageAnnotationProcessing`** (`package_annotations.dfy`) models `PackageAnnotationProcessingService`: its constructor registering five processors in order, and each processor's guarded `processAnnotation`.
- **`FieldNatureProcessing`** (`enum_value_processor.dfy`) models `XmlEnumValueProcessor` over a field nature's property map.
- **`Reflection`** (`reflection.dfy`) models what Java reflection supplies as plain values: `TypeRef`, `FieldDecl`, `MethodDecl`, `ClassDecl` and `PackageDecl`, and JAXB annotations as one tagged union.
  - The `JavaNaming` service is a record of function values the caller supplies. Its implementation is not part of this model.
  - Classes, fields and methods carry their annotations, which the builder hands to the class and field annotation services.
- **`Wrappers`** and **`Sequences`** (`common.dfy`): `Option` stands in for Java's null, plus `LastIndexOf` and `Distinct`.

Java's `null` and exceptions are explicit:

- `buildClassInfo` returns a `BuildOutcome`:
  - `IllegalArgument` for a null type;
  - `NotDescribeable` for `Object`, `Void` and `Class` (where the source returns null);
  - `NullPointer` for a class whose `getPackage()` is null (`buildPackageInfo` dereferences it);
  - otherwise `Built`.

### Behaviour of the code as written

- The plain-field multi-valued test inspects the field's *declaring class* (`field.getDeclaringClass()`), not the field's type. It also uses only `isAssignableFrom(Collection.class)`. `IntrospectionProperties.DescribedFieldNeverMultivalued` shows the consequence: for a described field of a describable class, the test never fires.
- A set method fills the setter slot before its parameter count is checked. Only the collection inference needs exactly one parameter.
- `buildPackageInfo` builds a new PackageInfo on every call. Nothing is cached.
- The `"hugoFranz"` expectation in `JAXBXmlNamingTest` belongs to `JAXBXmlNaming`, which is not part of this model. `NamingJava2Xml` gives `"hugo-franz"` for `"HugoFranz"` (`Naming.HugoFranzExample`).
- `ClassInfoBuilder` calls `setType`, `setClassName`, `setSupertype` and `setHasPublicEmptyConstructor`, which this revision of `ClassInfo.java` does not declare. The model adds them as four plain slots.

## Model

| member | source | states |
|---|---|---|
| Naming.ToXmlName | castor-jaxb-2.0/trunk/src/main/java/org/castor/jaxb/naming/NamingJava2Xml.java:52-93 | null gives null; otherwise the in-place buffer rewrite yields exactly `XmlName` of the input |
| Naming.ShortNames | castor-jaxb-2.0/trunk/src/main/java/org/castor/jaxb/naming/NamingJava2Xml.java:56-68 | "" stays "", a one-character name is lowered, "URLValue" is unchanged |
| Naming.AcronymUnchanged | castor-jaxb-2.0/trunk/src/main/java/org/castor/jaxb/naming/NamingJava2Xml.java:66-68 | a name whose first two characters are upper-case is returned as it is |
| Naming.FirstCharacterLowered | castor-jaxb-2.0/trunk/src/main/java/org/castor/jaxb/naming/NamingJava2Xml.java:59-72 | otherwise the first output character is the lowered first input character |
| Naming.XmlNameByPosition | castor-jaxb-2.0/trunk/src/main/java/org/castor/jaxb/naming/NamingJava2Xml.java:74-91 | the output is the lowered first character, then per position: `-` plus the lowered letter for an upper-case letter starting a run (previous input character neither upper-case nor `.`, position 1 always counting as a start), the character itself otherwise |
| Naming.HyphenateIsPieces | castor-jaxb-2.0/trunk/src/main/java/org/castor/jaxb/naming/NamingJava2Xml.java:74-91 | the loop's `ucPrev` flag at position k is "the previous input character was upper-case or `.`", so the scan equals the position-wise reading |
| Naming.XmlNameLength | castor-jaxb-2.0/trunk/src/main/java/org/castor/jaxb/naming/NamingJava2Xml.java:74-91 | output length = input length + number of run starts (inserted separators) |
| Naming.SeparatorsFollowedByLowerCase | castor-jaxb-2.0/trunk/src/main/java/org/castor/jaxb/naming/NamingJava2Xml.java:81-84 | in a name without its own `-`, every `-` of the output is followed by a lower-case letter |
| Naming.NoUpperCaseUnchanged | castor-jaxb-2.0/trunk/src/main/java/org/castor/jaxb/naming/NamingJava2Xml.java:71-91 | a name without upper-case letters is returned unchanged |
| Naming.IdempotentWithoutUpperCase | castor-jaxb-2.0/trunk/src/main/java/org/castor/jaxb/naming/NamingJava2Xml.java:71-91 | hence applying the transform twice to such a name equals applying it once |
| Naming.HugoExample | castor-jaxb-2.0/trunk/src/main/java/org/castor/jaxb/naming/NamingJava2Xml.java:71-91 | "Hugo" becomes "hugo" |
| Naming.HugoFranzExample | castor-jaxb-2.0/trunk/src/main/java/org/castor/jaxb/naming/NamingJava2Xml.java:74-84 | "HugoFranz" becomes "hugo-franz" |
| Naming.RunExamples | castor-jaxb-2.0/trunk/src/main/java/org/castor/jaxb/naming/NamingJava2Xml.java:77-87 | a run of capitals keeps its later letters ("aBC" to "a-bC"); a `.` suppresses the next separator ("a.Bc" unchanged) |
| Naming.CreateXmlNameUnqualified | castor-jaxb-2.0/trunk/src/main/java/org/castor/jaxb/naming/NamingJava2Xml.java:39-46 | with no `.` in the class name, `createXMLName` is `toXMLName` of the whole name |
| Naming.CreateXmlNameQualified | castor-jaxb-2.0/trunk/src/main/java/org/castor/jaxb/naming/NamingJava2Xml.java:39-46 | for "p.q" with no `.` in q, `createXMLName` is `toXMLName` of q |
| Naming.CreateXmlName | castor-jaxb-2.0/trunk/src/main/java/org/castor/jaxb/naming/NamingJava2Xml.java:39-46 | the XML name of the part after the last `.`; a class name ending in `.` gives the empty name |
| Sequences.LastIndexOf | castor-jaxb-2.0/trunk/src/main/java/org/castor/jaxb/naming/NamingJava2Xml.java:41 | -1 iff the element is absent; otherwise an index holding it with no occurrence after it |
| Info.ClassInfo.constructor | castor-jaxb-2.0/trunk/src/main/java/org/castor/jaxb/reflection/info/ClassInfo.java:69-72 | a new ClassInfo has no FieldInfo, is not transient and has every slot unset |
| Info.ClassInfo.GetFieldInfo | castor-jaxb-2.0/trunk/src/main/java/org/castor/jaxb/reflection/info/ClassInfo.java:234-242 | null iff no FieldInfo has the name; otherwise the one at the last position whose name matches; the list is not changed |
| Info.ClassInfo.AddFieldInfo | castor-jaxb-2.0/trunk/src/main/java/org/castor/jaxb/reflection/info/ClassInfo.java:246-248 | the list becomes the old list with the FieldInfo appended; nothing else changes |
| Info.ClassInfo.GetFieldInfos | castor-jaxb-2.0/trunk/src/main/java/org/castor/jaxb/reflection/info/ClassInfo.java:265-267 | returns the list, in insertion order, and changes nothing |
| Info.ClassInfo.SetTypeName | castor-jaxb-2.0/trunk/src/main/java/org/castor/jaxb/reflection/info/ClassInfo.java:77-85 | the type name becomes the argument; no other slot changes |
| Info.ClassInfo.SetTypeProperties | castor-jaxb-2.0/trunk/src/main/java/org/castor/jaxb/reflection/info/ClassInfo.java:89-97 | the type properties become the argument; no other slot changes |
| Info.ClassInfo.SetTypeNamespace | castor-jaxb-2.0/trunk/src/main/java/org/castor/jaxb/reflection/info/ClassInfo.java:101-109 | the type namespace becomes the argument; no other slot changes |
| Info.ClassInfo.SetTypeFactoryClass | castor-jaxb-2.0/trunk/src/main/java/org/castor/jaxb/reflection/info/ClassInfo.java:113-121 | the factory class becomes the argument; no other slot changes |
| Info.ClassInfo.SetTypeFactoryMethod | castor-jaxb-2.0/trunk/src/main/java/org/castor/jaxb/reflection/info/ClassInfo.java:125-133 | the factory method becomes the argument; no other slot changes |
| Info.ClassInfo.SetRootElementName | castor-jaxb-2.0/trunk/src/main/java/org/castor/jaxb/reflection/info/ClassInfo.java:137-145 | the root element name becomes the argument; no other slot changes |
| Info.ClassInfo.SetRootElementNamespace | castor-jaxb-2.0/trunk/src/main/java/org/castor/jaxb/reflection/info/ClassInfo.java:149-157 | the root element namespace becomes the argument; no other slot changes |
| Info.ClassInfo.SetXmlAccessType | castor-jaxb-2.0/trunk/src/main/java/org/castor/jaxb/reflection/info/ClassInfo.java:161-169 | the access type becomes the argument; no other slot changes |
| Info.ClassInfo.SetXmlAccessOrder | castor-jaxb-2.0/trunk/src/main/java/org/castor/jaxb/reflection/info/ClassInfo.java:173-181 | the access order becomes the argument; no other slot changes |
| Info.ClassInfo.SetTransient | castor-jaxb-2.0/trunk/src/main/java/org/castor/jaxb/reflection/info/ClassInfo.java:185-187 | `isTransient` then reads the argument; no other slot changes |
| Info.ClassInfo.SetSeeAlsoClasses | castor-jaxb-2.0/trunk/src/main/java/org/castor/jaxb/reflection/info/ClassInfo.java:191-193 | the see-also classes become the argument; no other slot changes |
| Info.ClassInfo.SetClazz | castor-jaxb-2.0/trunk/src/main/java/org/castor/jaxb/reflection/info/ClassInfo.java:197-205 | the class becomes the argument; no other slot changes |
| Info.ClassInfo.SetSuperClass | castor-jaxb-2.0/trunk/src/main/java/org/castor/jaxb/reflection/info/ClassInfo.java:209-217 | the superclass becomes the argument; no other slot changes |
| Info.ClassInfo.SetInterfaces | castor-jaxb-2.0/trunk/src/main/java/org/castor/jaxb/reflection/info/ClassInfo.java:221-229 | the interfaces become the argument; no other slot changes |
| Info.ClassInfo.SetEnumClass | castor-jaxb-2.0/trunk/src/main/java/org/castor/jaxb/reflection/info/ClassInfo.java:271-279 | the enum class becomes the argument; no other slot changes |
| Info.ClassInfo.SetPackageInfo | castor-jaxb-2.0/trunk/src/main/java/org/castor/jaxb/reflection/info/ClassInfo.java:283-291 | the package info becomes the argument; no other slot changes |
| Info.ClassInfo.SetType | castor-jaxb-2.0/trunk/src/main/java/org/castor/jaxb/reflection/ClassInfoBuilder.java:100 | the described type becomes the argument; no other slot changes |
| Info.ClassInfo.SetClassName | castor-jaxb-2.0/trunk/src/main/java/org/castor/jaxb/reflection/ClassInfoBuilder.java:101 | the class name becomes the argument; no other slot changes |
| Info.ClassInfo.SetSupertype | castor-jaxb-2.0/trunk/src/main/java/org/castor/jaxb/reflection/ClassInfoBuilder.java:102 | the supertype becomes the argument; no other slot changes |
| Info.ClassInfo.SetHasPublicEmptyConstructor | castor-jaxb-2.0/trunk/src/main/java/org/castor/jaxb/reflection/ClassInfoBuilder.java:104 | the constructor flag becomes the argument; no other slot changes |
| Info.FieldInfo.constructor | castor-jaxb-2.0/trunk/src/main/java/org/castor/jaxb/reflection/ClassInfoBuilder.java:258 | a new FieldInfo has no slot filled and is not multi-valued |
| Info.PackageInfo.constructor | castor-jaxb-2.0/trunk/src/main/java/org/castor/jaxb/reflection/ClassInfoBuilder.java:341 | a new PackageInfo has no slot set and empty xmlns and schema-type lists |
| PackageAnnotationProcessing.PackageAnnotationProcessingService.constructor | castor-jaxb-2.0/trunk/src/main/java/org/castor/jaxb/reflection/PackageAnnotationProcessingService.java:49-55 | exactly five processors are registered, in the order Schema, AccessorType, AccessorOrder, SchemaType, SchemaTypes |
| PackageAnnotationProcessing.PackageProcessor.ForAnnotationClass | castor-jaxb-2.0/trunk/src/main/java/org/castor/jaxb/reflection/PackageAnnotationProcessingService.java:88-229 | each package processor declares one of the five package annotation classes |
| PackageAnnotationProcessing.PackageAnnotationProcessingService.AddAnnotationProcessor | castor-jaxb-2.0/trunk/src/main/java/org/castor/jaxb/reflection/PackageAnnotationProcessingService.java:50-54 | a registration appends the processor to the registry |
| PackageAnnotationProcessing.PackageAnnotationProcessingService.ProcessAnnotations | castor-jaxb-2.0/trunk/src/main/java/org/castor/jaxb/reflection/ClassInfoBuilder.java:343 | the package ends as `Dispatch` of the registered processors over the annotations in order; a non-package target is not touched |
| PackageAnnotationProcessing.PackageProcessor.ProcessAnnotation | castor-jaxb-2.0/trunk/src/main/java/org/castor/jaxb/reflection/PackageAnnotationProcessingService.java:63-231 | on a PackageInfo target the slots become `Apply` of the processor; any other target is not touched (its frame is empty) |
| PackageAnnotationProcessing.Lookup | castor-jaxb-2.0/trunk/src/main/java/org/castor/jaxb/reflection/PackageAnnotationProcessingService.java:88-230 | a found processor is registered and declares the kind; none found means no registered processor declares it |
| PackageAnnotationProcessing.GuardMatchesForAnnotationClass | castor-jaxb-2.0/trunk/src/main/java/org/castor/jaxb/reflection/PackageAnnotationProcessingService.java:69-230 | a processor changes nothing for an annotation of a kind other than its `forAnnotationClass` |
| PackageAnnotationProcessing.XmlSchemaEffect | castor-jaxb-2.0/trunk/src/main/java/org/castor/jaxb/reflection/PackageAnnotationProcessingService.java:71-86 | `@XmlSchema` sets the namespace and both form defaults and appends its xmlns bindings after the existing ones; nothing else changes |
| PackageAnnotationProcessing.AccessorTypeLastWins | castor-jaxb-2.0/trunk/src/main/java/org/castor/jaxb/reflection/PackageAnnotationProcessingService.java:108-114 | `@XmlAccessorType` sets the access type to `Some` of its value and changes nothing else; a second one overrides the first |
| PackageAnnotationProcessing.AccessorOrderLastWins | castor-jaxb-2.0/trunk/src/main/java/org/castor/jaxb/reflection/PackageAnnotationProcessingService.java:143-149 | `@XmlAccessorOrder` sets the access order to `Some` of its value and changes nothing else; a second one overrides the first |
| PackageAnnotationProcessing.SchemaTypeAppendsEntry | castor-jaxb-2.0/trunk/src/main/java/org/castor/jaxb/reflection/PackageAnnotationProcessingService.java:176-188 | `@XmlSchemaType` appends exactly its one entry to the schema types and changes nothing else |
| PackageAnnotationProcessing.SchemaTypesIsSchemaTypeEach | castor-jaxb-2.0/trunk/src/main/java/org/castor/jaxb/reflection/PackageAnnotationProcessingService.java:208-220 | `@XmlSchemaTypes` appends its entries, in order, to the schema types and changes nothing else, the same as one `@XmlSchemaType` per entry |
| PackageAnnotationProcessing.ApplyAllIsLookup | castor-jaxb-2.0/trunk/src/main/java/org/castor/jaxb/reflection/PackageAnnotationProcessingService.java:49-90 | with no kind registered twice, offering an annotation to all processors is applying the one registered for its kind, or nothing |
| PackageAnnotationProcessing.DefaultRegistry | castor-jaxb-2.0/trunk/src/main/java/org/castor/jaxb/reflection/PackageAnnotationProcessingService.java:49-55 | the default registry has one processor per kind; each package annotation reaches its processor; other annotations change nothing |
| Introspection.ClassInfoBuilder.constructor | castor-jaxb-2.0/trunk/src/main/java/org/castor/jaxb/reflection/ClassInfoBuilder.java:70-76 | the builder gets a new package service holding the five default processors; the class and field annotation services and the naming service are the caller's |
| Introspection.ClassInfoBuilder.IsDescribeableClass | castor-jaxb-2.0/trunk/src/main/java/org/castor/jaxb/reflection/ClassInfoBuilder.java:173-178 | false exactly for Object, Void and Class |
| Introspection.ClassInfoBuilder.IsDescribeableField | castor-jaxb-2.0/trunk/src/main/java/org/castor/jaxb/reflection/ClassInfoBuilder.java:218-235 | true iff the declaring class is the type or an interface and the field is neither static, transient nor synthetic |
| Introspection.ClassInfoBuilder.IsDescribeableMethod | castor-jaxb-2.0/trunk/src/main/java/org/castor/jaxb/reflection/ClassInfoBuilder.java:187-209 | true iff the same declaring-class rule holds, the method is neither synthetic, static nor transient, and naming classifies it as add, create, get, is or set |
| Introspection.ClassInfoBuilder.HasPublicEmptyConstructor | castor-jaxb-2.0/trunk/src/main/java/org/castor/jaxb/reflection/ClassInfoBuilder.java:145-165 | true iff the lookup finds the constructor; both failures give false |
| Introspection.ClassInfoBuilder.FindOrCreate | castor-jaxb-2.0/trunk/src/main/java/org/castor/jaxb/reflection/ClassInfoBuilder.java:290-296 | an existing name leaves the list unchanged and yields the last FieldInfo so named; a new name appends a fresh FieldInfo with that name; entries stay distinct |
| Introspection.ClassInfoBuilder.AppendNew | castor-jaxb-2.0/trunk/src/main/java/org/castor/jaxb/reflection/ClassInfoBuilder.java:293-295 | a fresh, named, otherwise empty FieldInfo is appended |
| Introspection.ClassInfoBuilder.BuildFieldInfoFromField | castor-jaxb-2.0/trunk/src/main/java/org/castor/jaxb/reflection/ClassInfoBuilder.java:243-270 | returns the same ClassInfo, whose records become `Merge` of the old records with the field; earlier FieldInfos keep their positions |
| Introspection.ClassInfoBuilder.BuildFieldInfoFromMethod | castor-jaxb-2.0/trunk/src/main/java/org/castor/jaxb/reflection/ClassInfoBuilder.java:278-333 | returns the same ClassInfo, whose records become `Merge` of the old records with the method; earlier FieldInfos keep their positions |
| Introspection.ClassInfoBuilder.ReceiveField | castor-jaxb-2.0/trunk/src/main/java/org/castor/jaxb/reflection/ClassInfoBuilder.java:262-268 | the FieldInfo becomes `ApplyField` of its old value (the field slot, the declaring-class multi-valued test, the generic type), then the field service's XML names for the field's annotations |
| Introspection.ClassInfoBuilder.ReceiveMethod | castor-jaxb-2.0/trunk/src/main/java/org/castor/jaxb/reflection/ClassInfoBuilder.java:297-331 | the FieldInfo becomes `ApplyMethod` of its old value, following the add > create > get > set > is chain, then the field service's XML names for the method's annotations |
| Introspection.ClassInfoBuilder.ProcessFieldAnnotations | castor-jaxb-2.0/trunk/src/main/java/org/castor/jaxb/reflection/ClassInfoBuilder.java:268 | the FieldInfo's element and attribute names become the field service's answer for its old names and the annotations; no other slot changes |
| Introspection.ClassInfoBuilder.ProcessClassAnnotations | castor-jaxb-2.0/trunk/src/main/java/org/castor/jaxb/reflection/ClassInfoBuilder.java:105 | the ClassInfo's annotation slots become the class service's answer for their old values and the annotations; no other slot changes |
| Introspection.ClassInfoBuilder.UpdateEntry | castor-jaxb-2.0/trunk/src/main/java/org/castor/jaxb/reflection/ClassInfoBuilder.java:297-331 | only the record at the found position changes |
| Introspection.ClassInfoBuilder.BuildPackageInfo | castor-jaxb-2.0/trunk/src/main/java/org/castor/jaxb/reflection/ClassInfoBuilder.java:340-345 | a fresh PackageInfo for the package with its annotations dispatched; a null package gives the null-pointer outcome |
| Introspection.ClassInfoBuilder.VisitField | castor-jaxb-2.0/trunk/src/main/java/org/castor/jaxb/reflection/ClassInfoBuilder.java:106-118 | a described field is merged, any other is skipped |
| Introspection.ClassInfoBuilder.VisitMethod | castor-jaxb-2.0/trunk/src/main/java/org/castor/jaxb/reflection/ClassInfoBuilder.java:119-131 | a described method is merged, any other is skipped |
| Introspection.ClassInfoBuilder.FieldStep | castor-jaxb-2.0/trunk/src/main/java/org/castor/jaxb/reflection/ClassInfoBuilder.java:106-118 | one field-loop iteration advances the fold by one field |
| Introspection.ClassInfoBuilder.MethodStep | castor-jaxb-2.0/trunk/src/main/java/org/castor/jaxb/reflection/ClassInfoBuilder.java:119-131 | one method-loop iteration advances the fold by one method |
| Introspection.ClassInfoBuilder.DescribeFields | castor-jaxb-2.0/trunk/src/main/java/org/castor/jaxb/reflection/ClassInfoBuilder.java:106-118 | the field loop leaves the fold of all declared fields, in fresh distinct FieldInfos |
| Introspection.ClassInfoBuilder.DescribeMethods | castor-jaxb-2.0/trunk/src/main/java/org/castor/jaxb/reflection/ClassInfoBuilder.java:119-131 | the method loop continues the fold over all declared methods |
| Introspection.ClassInfoBuilder.DescribeMembers | castor-jaxb-2.0/trunk/src/main/java/org/castor/jaxb/reflection/ClassInfoBuilder.java:106-131 | from no FieldInfo, the two loops leave distinct FieldInfos whose records are `Introspect` of the class |
| Introspection.ClassInfoBuilder.NewClassInfo | castor-jaxb-2.0/trunk/src/main/java/org/castor/jaxb/reflection/ClassInfoBuilder.java:99-104 | a fresh ClassInfo with the type, class name, supertype, interfaces and constructor flag set, its annotation slots still unset, and no FieldInfo |
| Introspection.ClassInfoBuilder.AnnotatedClassInfo | castor-jaxb-2.0/trunk/src/main/java/org/castor/jaxb/reflection/ClassInfoBuilder.java:99-105 | the same ClassInfo after the class annotation service: the header slots as set, the annotation slots as the service computes them from a new ClassInfo and the class's annotations |
| Introspection.ClassInfoBuilder.DescribeClass | castor-jaxb-2.0/trunk/src/main/java/org/castor/jaxb/reflection/ClassInfoBuilder.java:99-131 | a fresh ClassInfo that `Describes` the class: header slots, annotation slots from the class service, distinct FieldInfos, records equal to `Introspect` |
| Introspection.ClassInfoBuilder.BuildClassInfo | castor-jaxb-2.0/trunk/src/main/java/org/castor/jaxb/reflection/ClassInfoBuilder.java:83-138 | null type gives the IllegalArgumentException outcome with its message; Object, Void and Class give no ClassInfo; a null package gives the null-pointer outcome; otherwise a fresh ClassInfo describing the class, with a fresh PackageInfo holding the dispatched package annotations |
| Introspection.ClassInfoBuilder.BuildDescribeable | castor-jaxb-2.0/trunk/src/main/java/org/castor/jaxb/reflection/ClassInfoBuilder.java:99-137 | the part after the two guards: the ClassInfo, then the PackageInfo |
| Introspection.ApplyMember | castor-jaxb-2.0/trunk/src/main/java/org/castor/jaxb/reflection/ClassInfoBuilder.java:262-331 | a member never changes the property name of its FieldInfo |
| IntrospectionProperties.ApplyMemberAnnotates | castor-jaxb-2.0/trunk/src/main/java/org/castor/jaxb/reflection/ClassInfoBuilder.java:262-331 | a member update is the builder's slot update followed by the field service: the XML names are the service's answer for the member's annotations, every other slot is the builder's |
| Introspection.MergeAt | castor-jaxb-2.0/trunk/src/main/java/org/castor/jaxb/reflection/ClassInfoBuilder.java:290-297 | `Merge` is the lookup (found, or appended) followed by an update at that position |
| Introspection.FoldConcat | castor-jaxb-2.0/trunk/src/main/java/org/castor/jaxb/reflection/ClassInfoBuilder.java:106-131 | running the loops over two lists in turn is one run over their concatenation |
| Introspection.IntrospectIsOneFold | castor-jaxb-2.0/trunk/src/main/java/org/castor/jaxb/reflection/ClassInfoBuilder.java:106-131 | fields first, then methods, is one fold over the fields followed by the methods |
| IntrospectionProperties.SlotOf | castor-jaxb-2.0/trunk/src/main/java/org/castor/jaxb/reflection/ClassInfoBuilder.java:297-324 | no slot is selected exactly when naming recognises none of the five kinds |
| IntrospectionProperties.ApplyMethodFillsOneSlot | castor-jaxb-2.0/trunk/src/main/java/org/castor/jaxb/reflection/ClassInfoBuilder.java:297-324 | exactly the slot chosen by add > create > get > set > is receives the method; the other slots, the field slot, the name and the XML names are unchanged; a described method always selects a slot |
| IntrospectionProperties.ApplyMethodMultivalued | castor-jaxb-2.0/trunk/src/main/java/org/castor/jaxb/reflection/ClassInfoBuilder.java:297-322 | after a method, `multivalued` holds iff it held before, or the method is an add method, or it is a getter whose return type, or a one-parameter setter whose parameter type, is an array or collection-assignable either way; the generic type changes only in those getter and setter cases, to the inspected type's generic type |
| IntrospectionProperties.SetterSlotBeforeArity | castor-jaxb-2.0/trunk/src/main/java/org/castor/jaxb/reflection/ClassInfoBuilder.java:311-322 | a set method without exactly one parameter still fills the setter slot and changes nothing else |
| IntrospectionProperties.ApplyFieldOverwritesGenericType | castor-jaxb-2.0/trunk/src/main/java/org/castor/jaxb/reflection/ClassInfoBuilder.java:262-267 | a field fills the field slot, always overwrites the generic type, never resets `multivalued`, and changes nothing else |
| IntrospectionProperties.DescribedFieldNeverMultivalued | castor-jaxb-2.0/trunk/src/main/java/org/castor/jaxb/reflection/ClassInfoBuilder.java:263-266 | with a well-formed field (arrays declare no fields, interface fields are static), the declaring-class test never sets `multivalued` for a described field of a describable class |
| IntrospectionProperties.ApplyMemberGrows | castor-jaxb-2.0/trunk/src/main/java/org/castor/jaxb/reflection/ClassInfoBuilder.java:262-331 | a member keeps the name, clears no slot the builder fills and never resets `multivalued` |
| IntrospectionProperties.MergeExtends | castor-jaxb-2.0/trunk/src/main/java/org/castor/jaxb/reflection/ClassInfoBuilder.java:255-329 | one `buildFieldInfo` keeps every FieldInfo at its position, only grown, and adds at most one at the end |
| IntrospectionProperties.FoldExtends | castor-jaxb-2.0/trunk/src/main/java/org/castor/jaxb/reflection/ClassInfoBuilder.java:106-131 | across both loops no FieldInfo is removed, renamed or reordered, no filled slot is cleared, and `multivalued` is never reset |
| IntrospectionProperties.MergeNames | castor-jaxb-2.0/trunk/src/main/java/org/castor/jaxb/reflection/ClassInfoBuilder.java:290-296 | find-or-create on names: a known name leaves the names as they were, a new one is appended |
| IntrospectionProperties.MergeKeepsNamesDistinct | castor-jaxb-2.0/trunk/src/main/java/org/castor/jaxb/reflection/ClassInfoBuilder.java:255-296 | find-or-create keeps the property names pairwise distinct |
| IntrospectionProperties.FoldKeepsNamesDistinct | castor-jaxb-2.0/trunk/src/main/java/org/castor/jaxb/reflection/ClassInfoBuilder.java:106-131 | the loops keep the property names pairwise distinct |
| IntrospectionProperties.FoldNames | castor-jaxb-2.0/trunk/src/main/java/org/castor/jaxb/reflection/ClassInfoBuilder.java:106-131 | after the loops a name is present iff it was present before or some described member carries it |
| IntrospectionProperties.IntrospectNames | castor-jaxb-2.0/trunk/src/main/java/org/castor/jaxb/reflection/ClassInfoBuilder.java:106-131 | the FieldInfos of a class have distinct names, and a name occurs iff a described field or method of the class carries it |
| IntrospectionProperties.ApplyMemberMarks | castor-jaxb-2.0/trunk/src/main/java/org/castor/jaxb/reflection/ClassInfoBuilder.java:262-324 | whatever the record held, a member leaves its mark: field slot and generic type for a field; its slot for a method; `multivalued` for an add method and for a collection-shaped getter or setter |
| IntrospectionProperties.MergeLands | castor-jaxb-2.0/trunk/src/main/java/org/castor/jaxb/reflection/ClassInfoBuilder.java:255-329 | after `buildFieldInfo`, a FieldInfo with the member's name carries its mark |
| IntrospectionProperties.DescribedMemberLands | castor-jaxb-2.0/trunk/src/main/java/org/castor/jaxb/reflection/ClassInfoBuilder.java:106-131 | every described member, wherever it comes, leaves its mark on the final FieldInfo of its name |
| IntrospectionProperties.AddMethodMakesPropertyMultivalued | castor-jaxb-2.0/trunk/src/main/java/org/castor/jaxb/reflection/ClassInfoBuilder.java:297-299 | the property of a described add method ends multi-valued, with an add method |
| IntrospectionProperties.DescribedFieldFillsItsProperty | castor-jaxb-2.0/trunk/src/main/java/org/castor/jaxb/reflection/ClassInfoBuilder.java:262-267 | the property of a described field ends with its field slot and generic type filled |
| IntrospectionProperties.FoldLeavesXmlNamesUnset | castor-jaxb-2.0/trunk/src/main/java/org/castor/jaxb/reflection/ClassInfoBuilder.java:106-131 | over members without annotations, with a field service that leaves the names alone for no annotations, the loops leave every record without an element or attribute name |
| IntrospectionProperties.IntrospectLeavesXmlNamesUnset | castor-jaxb-2.0/trunk/src/main/java/org/castor/jaxb/reflection/ClassInfoBuilder.java:106-131 | a class none of whose fields and methods carries an annotation gets no element or attribute name, under that field service |
| IntrospectionProperties.TwoPlainFieldsTwoInfos | src/test/java/org/castor/jaxb/reflection/ClassDescriptorBuilderTest.java:112-132 | two unannotated plain fields of different property names plus a synthetic outer reference give exactly two FieldInfos, in field order, with no element or attribute name |
| FieldNatureProcessing.PropertyHolder.SetProperty | src/main/java/org/castor/jaxb/reflection/processor/field/XmlEnumValueProcessor.java:30-31 | the key maps to the value; every other key is unchanged |
| FieldNatureProcessing.FieldProcessor.ProcessAnnotation | src/main/java/org/castor/jaxb/reflection/processor/field/XmlEnumValueProcessor.java:25-35 | returns true iff the annotation is an XmlEnumValue and the target a field nature, and then the properties become `Apply`; otherwise it returns false and the properties are unchanged |
| FieldNatureProcessing.FieldProcessor.ForAnnotationClass | src/main/java/org/castor/jaxb/reflection/processor/field/XmlEnumValueProcessor.java:43-45 | the declared class is that of exactly the `@XmlEnumValue` annotations |
| FieldNatureProcessing.GuardMatchesAnnotationClass | src/main/java/org/castor/jaxb/reflection/processor/field/XmlEnumValueProcessor.java:26-45 | the guard accepts exactly the annotation kind `forAnnotationClass` returns, on a field nature |
| FieldNatureProcessing.ApplyRecordsEnumValue | src/main/java/org/castor/jaxb/reflection/processor/field/XmlEnumValueProcessor.java:26-34 | after an XmlEnumValue, `HAS_XML_ENUM_VALUE` is true and `ENUM_VALUE` is the annotation's value, other keys unchanged; any other annotation changes nothing |
| FieldNatureProcessing.ApplyIdempotent | src/main/java/org/castor/jaxb/reflection/processor/field/XmlEnumValueProcessor.java:30-31 | applying the same annotation twice equals applying it once |
| FieldNatureProcessing.ApplyLastValueWins | src/main/java/org/castor/jaxb/reflection/processor/field/XmlEnumValueProcessor.java:30-31 | of two XmlEnumValue annotations, the later value wins |

## Left out

- Java reflection is replaced by values that carry exactly the facts the builder reads. `isAssignableFrom` in either direction, `isArray`, `isInterface`, the modifier bits and the constructor lookup are fields of those values.
- `declaringClass != null`: the model has no null declaring class, since every declared member has one.
- `JAXBJavaNaming` is not part of this model. Its predicates and `extractFieldNameFrom*` are caller-supplied functions with no properties assumed.
- The class- and field-level annotation services and their processors are not part of this model. The builder calls them (`ClassInfoBuilder.java` lines 105, 268 and 331) as caller-supplied functions. The class service may write only the ClassInfo's annotation slots (`TypeSlots`); the field service may write only a FieldInfo's element and attribute names.
- `AnnotationProcessingService.processAnnotations` (the base class) is not part of this model.
  - `ProcessAnnotations` takes it to offer every annotation, in order, to every registered processor, in order.
  - `AddAnnotationProcessor` takes registration to append.
- `JaxbFieldNature` and Castor's `BaseNature` are not part of this model.
  - `setXmlEnumValue` and `setEnumValue` are taken to write the `HAS_XML_ENUM_VALUE` and `ENUM_VALUE` properties of the nature.
  - Keys are the nature's own property names; the nature-id prefix a holder may add is not modelled.
  - The annotation-visit message is logging.
- Logging everywhere, and the log-level checks around it.
- Character classes are ASCII: `isUpperCase` is 'A'..'Z' and `toLowerCase` maps only those letters.
- `buildFieldInfo`'s own null-argument guards (lines 244-254 and 279-289) are not modelled. The builder never passes null, and the model's types exclude it.
- `ClassInfo.getFieldInfos` returns the list value. Java returns the live collection, so a caller's aliasing of it is not modelled.
- The builder's getters and setters for its services and naming (lines 350-404) are not modelled. The naming service is a constructor argument instead of the default `JAXBJavaNaming`.
- Introspection.ClassInfoBuilder.FindOrCreate, AppendNew, BuildFieldInfoFromField, BuildFieldInfoFromMethod, VisitField, VisitMethod, FieldStep and MethodStep require that no FieldInfo object occurs twice in the ClassInfo's list. This holds for every list the builder creates (`Describes`), and it keeps an update to one entry from showing up at another position.
- Introspection.ClassInfoBuilder.DescribeFields requires a ClassInfo with no FieldInfo yet, which is how `buildClassInfo` calls it (right after `new ClassInfo()`).
- Introspection.ClassInfoBuilder.BuildClassInfo does not state that the FieldInfo objects it creates are fresh; `DescribeFields` does, and the rest follows from the frames.
- IntrospectionProperties.DescribedFieldNeverMultivalued assumes a well-formed field (`WellFormedField`): Java guarantees these facts, but the value model does not enforce them.
- IntrospectionProperties.TwoPlainFieldsTwoInfos assumes the two plain fields have different property names, because the naming service is not modelled. It also assumes that the field annotation service adds no XML name when it is handed no annotations, because that service is not modelled.
- IntrospectionProperties.FoldLeavesXmlNamesUnset and IntrospectionProperties.IntrospectLeavesXmlNamesUnset make the same assumption about the field annotation service, and speak only of members without annotations.
- `ClassDescriptorBuilder` and the marshalling and context classes are not part of this model.
