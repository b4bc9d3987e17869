/** XmlEnumValueProcessor: the field-scope processor for `@XmlEnumValue`.
    It acts only when the annotation is an XmlEnumValue AND the target is a
    field nature; it then records that the field carries the annotation and
    the enum value the annotation names, and reports whether it acted. */
module FieldNatureProcessing {
  import opened Reflection

  /** The property keys of a field nature that the processor writes. */
  const ENUM_VALUE := "ENUM_VALUE"
  const HAS_XML_ENUM_VALUE := "HAS_XML_ENUM_VALUE"

  /** A property value: the processor stores a flag and a string. */
  datatype PropertyValue = BoolValue(b: bool) | StringValue(s: string)

  /** The object a nature views: a mutable property map, seen here through
      the nature, so keys are the nature's own property names. */
  class PropertyHolder {
    var properties: map<string, PropertyValue>

    /** `setProperty(key, value)`. */
    method SetProperty(key: string, value: PropertyValue)
      modifies this
      ensures properties == old(properties)[key := value]
    {
      properties := properties[key := value];
    }
  }

  /** The nature a field-scope processor is handed: a field nature or a
      nature of another kind, each over its holder. */
  datatype NatureTarget =
    | FieldNature(holder: PropertyHolder)
    | ClassNature(holder: PropertyHolder)
    | PackageNature(holder: PropertyHolder)

  datatype FieldProcessor = XmlEnumValueProcessor
  {
    /** `forAnnotationClass()`: the class of exactly the `@XmlEnumValue`
        annotations. */
    function ForAnnotationClass(): (k: AnnotationKind)
      ensures forall a :: KindOf(a) == k <==> a.XmlEnumValue?
    {
      XmlEnumValueKind
    }

    /** The guard of `processAnnotation`: an XmlEnumValue annotation and a
        field nature. */
    predicate Applies(info: NatureTarget, a: Annotation) {
      a.XmlEnumValue? && info.FieldNature?
    }

    /** What `processAnnotation` does to a field nature's properties. */
    function Apply(props: map<string, PropertyValue>, a: Annotation): map<string, PropertyValue> {
      if a.XmlEnumValue? then
        props[HAS_XML_ENUM_VALUE := BoolValue(true)][ENUM_VALUE := StringValue(a.value)]
      else props
    }

    /** `processAnnotation(info, annotation)`: when the guard holds, sets the
        presence flag and then the enum value, and returns true; otherwise
        changes nothing and returns false. */
    method ProcessAnnotation(info: NatureTarget, a: Annotation) returns (applied: bool)
      modifies info.holder
      ensures applied <==> Applies(info, a)
      ensures applied ==> info.holder.properties == Apply(old(info.holder.properties), a)
      ensures !applied ==> info.holder.properties == old(info.holder.properties)
    {
      if a.XmlEnumValue? && info.FieldNature? {
        info.holder.SetProperty(HAS_XML_ENUM_VALUE, BoolValue(true));
        info.holder.SetProperty(ENUM_VALUE, StringValue(a.value));
        return true;
      }
      return false;
    }
  }

  /** The guard tests exactly the annotation class `forAnnotationClass`
      names. */
  lemma GuardMatchesAnnotationClass(p: FieldProcessor, info: NatureTarget, a: Annotation)
    ensures p.Applies(info, a) <==> KindOf(a) == p.ForAnnotationClass() && info.FieldNature?
  {
  }

  /** After an XmlEnumValue annotation the flag is true and the enum value is
      the annotation's; every other property is as it was. An annotation of
      any other kind changes nothing. */
  lemma ApplyRecordsEnumValue(p: FieldProcessor, props: map<string, PropertyValue>, a: Annotation)
    ensures var r := p.Apply(props, a);
      && (a.XmlEnumValue? ==>
            && HAS_XML_ENUM_VALUE in r && r[HAS_XML_ENUM_VALUE] == BoolValue(true)
            && ENUM_VALUE in r && r[ENUM_VALUE] == StringValue(a.value)
            && r.Keys == props.Keys + {HAS_XML_ENUM_VALUE, ENUM_VALUE}
            && forall k :: k in props && k != HAS_XML_ENUM_VALUE && k != ENUM_VALUE ==> r[k] == props[k])
      && (!a.XmlEnumValue? ==> r == props)
  {
  }

  /** Applying the same annotation twice leaves what applying it once
      leaves. */
  lemma ApplyIdempotent(p: FieldProcessor, props: map<string, PropertyValue>, a: Annotation)
    ensures p.Apply(p.Apply(props, a), a) == p.Apply(props, a)
  {
  }

  /** Of two XmlEnumValue annotations applied in turn, the later value
      wins. */
  lemma ApplyLastValueWins(p: FieldProcessor, props: map<string, PropertyValue>, a: Annotation, b: Annotation)
    requires a.XmlEnumValue? && b.XmlEnumValue?
    ensures p.Apply(p.Apply(props, a), b) == p.Apply(props, b)
  {
  }
}
