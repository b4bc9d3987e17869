/** PackageAnnotationProcessingService: the five package-scope annotation
    processors and the service that registers them. Each processor acts only
    when the annotation is of its kind AND the target is a PackageInfo. */
module PackageAnnotationProcessing {
  import opened Wrappers
  import opened Reflection
  import opened Info

  /** The five package-level annotation classes. */
  const PackageAnnotationKinds: set<AnnotationKind> :=
    {XmlSchemaKind, XmlAccessorTypeKind, XmlAccessorOrderKind, XmlSchemaTypeKind, XmlSchemaTypesKind}

  datatype PackageProcessor =
    | XmlSchemaProcessor
    | XmlAccessorTypeProcessor
    | XmlAccessorOrderProcessor
    | XmlSchemaTypeProcessor
    | XmlSchemaTypesProcessor
  {
    /** `forAnnotationClass()`: each processor serves one of the package
        annotation classes. */
    function ForAnnotationClass(): (k: AnnotationKind)
      ensures k in PackageAnnotationKinds
    {
      match this
      case XmlSchemaProcessor => XmlSchemaKind
      case XmlAccessorTypeProcessor => XmlAccessorTypeKind
      case XmlAccessorOrderProcessor => XmlAccessorOrderKind
      case XmlSchemaTypeProcessor => XmlSchemaTypeKind
      case XmlSchemaTypesProcessor => XmlSchemaTypesKind
    }

    /** What `processAnnotation` does to a PackageInfo's slots. */
    function Apply(rec: PackageRecord, a: Annotation): PackageRecord {
      match this
      case XmlSchemaProcessor =>
        if a.XmlSchema? then
          rec.(schemaNs := rec.schemaNs + a.xmlns,
               schemaNamespace := Some(a.namespace),
               schemaElementForm := Some(a.elementFormDefault),
               schemaAttributeForm := Some(a.attributeFormDefault))
        else rec
      case XmlAccessorTypeProcessor =>
        if a.XmlAccessorType? then rec.(accessType := Some(a.accessType)) else rec
      case XmlAccessorOrderProcessor =>
        if a.XmlAccessorOrder? then rec.(accessOrder := Some(a.accessOrder)) else rec
      case XmlSchemaTypeProcessor =>
        if a.XmlSchemaType? then rec.(schemaTypes := rec.schemaTypes + [a.entry]) else rec
      case XmlSchemaTypesProcessor =>
        if a.XmlSchemaTypes? then rec.(schemaTypes := rec.schemaTypes + a.entries) else rec
    }

    /** `processAnnotation(info, annotation)`: the processor's guard, then its
        setters and appends on the PackageInfo. */
    method ProcessAnnotation(info: ReflectionInfo, a: Annotation)
      modifies info.PackageFrame()
      ensures info.PackageTarget? ==>
        info.packageInfo.Record() == Apply(old(info.packageInfo.Record()), a)
    {
      match this
      case XmlSchemaProcessor =>
        if a.XmlSchema? && info.PackageTarget? {
          var packageInfo := info.packageInfo;
          packageInfo.schemaNs := packageInfo.schemaNs + a.xmlns;
          packageInfo.schemaNamespace := Some(a.namespace);
          packageInfo.schemaElementForm := Some(a.elementFormDefault);
          packageInfo.schemaAttributeForm := Some(a.attributeFormDefault);
        }
      case XmlAccessorTypeProcessor =>
        if a.XmlAccessorType? && info.PackageTarget? {
          info.packageInfo.accessType := Some(a.accessType);
        }
      case XmlAccessorOrderProcessor =>
        if a.XmlAccessorOrder? && info.PackageTarget? {
          info.packageInfo.accessOrder := Some(a.accessOrder);
        }
      case XmlSchemaTypeProcessor =>
        if a.XmlSchemaType? && info.PackageTarget? {
          var packageInfo := info.packageInfo;
          packageInfo.schemaTypes := packageInfo.schemaTypes + [a.entry];
        }
      case XmlSchemaTypesProcessor =>
        if a.XmlSchemaTypes? && info.PackageTarget? {
          var packageInfo := info.packageInfo;
          packageInfo.schemaTypes := packageInfo.schemaTypes + a.entries;
        }
    }
  }

  /** The processors the service's constructor registers, in order. */
  const DefaultProcessors: seq<PackageProcessor> :=
    [XmlSchemaProcessor, XmlAccessorTypeProcessor, XmlAccessorOrderProcessor,
     XmlSchemaTypeProcessor, XmlSchemaTypesProcessor]

  /** One annotation offered to every processor in `procs`, in order. */
  function ApplyAll(procs: seq<PackageProcessor>, rec: PackageRecord, a: Annotation): PackageRecord
    decreases |procs|
  {
    if procs == [] then rec
    else procs[|procs| - 1].Apply(ApplyAll(procs[..|procs| - 1], rec, a), a)
  }

  /** Every annotation, in order, offered to every processor. */
  function Dispatch(procs: seq<PackageProcessor>, rec: PackageRecord, annotations: seq<Annotation>): PackageRecord
    decreases |annotations|
  {
    if annotations == [] then rec
    else ApplyAll(procs, Dispatch(procs, rec, annotations[..|annotations| - 1]), annotations[|annotations| - 1])
  }

  /** The first processor in `procs` registered for `kind`, if any. */
  function Lookup(procs: seq<PackageProcessor>, kind: AnnotationKind): (r: Option<PackageProcessor>)
    ensures r.Some? ==> r.value in procs && r.value.ForAnnotationClass() == kind
    ensures r.None? ==> forall p :: p in procs ==> p.ForAnnotationClass() != kind
  {
    if procs == [] then None
    else if procs[0].ForAnnotationClass() == kind then Some(procs[0])
    else Lookup(procs[1..], kind)
  }

  /** No two processors registered for the same annotation class. */
  predicate KindsDistinct(procs: seq<PackageProcessor>) {
    forall i, j :: 0 <= i < j < |procs| ==> procs[i].ForAnnotationClass() != procs[j].ForAnnotationClass()
  }

  class PackageAnnotationProcessingService {
    var processors: seq<PackageProcessor>

    /** Registers the five package processors. */
    constructor ()
      ensures processors == DefaultProcessors
    {
      processors := [];
      new;
      AddAnnotationProcessor(XmlSchemaProcessor);
      AddAnnotationProcessor(XmlAccessorTypeProcessor);
      AddAnnotationProcessor(XmlAccessorOrderProcessor);
      AddAnnotationProcessor(XmlSchemaTypeProcessor);
      AddAnnotationProcessor(XmlSchemaTypesProcessor);
    }

    /** `addAnnotationProcessor`, taken to append to the registry. */
    method AddAnnotationProcessor(p: PackageProcessor)
      modifies this`processors
      ensures processors == old(processors) + [p]
    {
      processors := processors + [p];
    }

    /** `processAnnotations(info, annotations)`, taken to offer each
        annotation, in order, to each registered processor, in order. */
    method ProcessAnnotations(info: ReflectionInfo, annotations: seq<Annotation>)
      modifies info.PackageFrame()
      ensures info.PackageTarget? ==>
        info.packageInfo.Record() == Dispatch(processors, old(info.packageInfo.Record()), annotations)
    {
      ghost var start := if info.PackageTarget? then info.packageInfo.Record() else EmptyPackageRecord;
      var i := 0;
      while i < |annotations|
        invariant 0 <= i <= |annotations|
        invariant info.PackageTarget? ==>
          info.packageInfo.Record() == Dispatch(processors, start, annotations[..i])
      {
        ghost var before := if info.PackageTarget? then info.packageInfo.Record() else EmptyPackageRecord;
        var j := 0;
        while j < |processors|
          invariant 0 <= j <= |processors|
          invariant info.PackageTarget? ==>
            info.packageInfo.Record() == ApplyAll(processors[..j], before, annotations[i])
        {
          assert processors[..j + 1][..j] == processors[..j];
          processors[j].ProcessAnnotation(info, annotations[i]);
          j := j + 1;
        }
        assert processors[..j] == processors;
        assert annotations[..i + 1][..i] == annotations[..i];
        i := i + 1;
      }
      assert annotations[..i] == annotations;
    }
  }

  // ---------------------------------------------------------------------
  // Properties of the processors

  /** A processor leaves the package untouched unless the annotation is of
      the kind its `forAnnotationClass` names. */
  lemma GuardMatchesForAnnotationClass(p: PackageProcessor, rec: PackageRecord, a: Annotation)
    requires KindOf(a) != p.ForAnnotationClass()
    ensures p.Apply(rec, a) == rec
  {
  }

  /** `@XmlSchema` sets the namespace and both form defaults and appends the
      xmlns bindings; nothing else changes. */
  lemma XmlSchemaEffect(rec: PackageRecord, a: Annotation)
    requires a.XmlSchema?
    ensures var r := XmlSchemaProcessor.Apply(rec, a);
      && r.schemaNamespace == Some(a.namespace)
      && r.schemaElementForm == Some(a.elementFormDefault)
      && r.schemaAttributeForm == Some(a.attributeFormDefault)
      && |r.schemaNs| == |rec.schemaNs| + |a.xmlns|
      && r.schemaNs[..|rec.schemaNs|] == rec.schemaNs
      && r.schemaNs[|rec.schemaNs|..] == a.xmlns
      && r.(schemaNamespace := rec.schemaNamespace, schemaElementForm := rec.schemaElementForm,
            schemaAttributeForm := rec.schemaAttributeForm, schemaNs := rec.schemaNs) == rec
  {
  }

  /** `@XmlAccessorType` sets the access type to its value and changes
      nothing else, and a second one overrides the first. */
  lemma AccessorTypeLastWins(rec: PackageRecord, a1: Annotation, a2: Annotation)
    requires a1.XmlAccessorType? && a2.XmlAccessorType?
    ensures XmlAccessorTypeProcessor.Apply(rec, a1).accessType == Some(a1.accessType)
    ensures XmlAccessorTypeProcessor.Apply(rec, a1).(accessType := rec.accessType) == rec
    ensures XmlAccessorTypeProcessor.Apply(XmlAccessorTypeProcessor.Apply(rec, a1), a2)
         == XmlAccessorTypeProcessor.Apply(rec, a2)
  {
  }

  /** `@XmlAccessorOrder` sets the access order to its value and changes
      nothing else, and a second one overrides the first. */
  lemma AccessorOrderLastWins(rec: PackageRecord, a1: Annotation, a2: Annotation)
    requires a1.XmlAccessorOrder? && a2.XmlAccessorOrder?
    ensures XmlAccessorOrderProcessor.Apply(rec, a1).accessOrder == Some(a1.accessOrder)
    ensures XmlAccessorOrderProcessor.Apply(rec, a1).(accessOrder := rec.accessOrder) == rec
    ensures XmlAccessorOrderProcessor.Apply(XmlAccessorOrderProcessor.Apply(rec, a1), a2)
         == XmlAccessorOrderProcessor.Apply(rec, a2)
  {
  }

  /** Applying `@XmlSchemaType` once per entry, in order. */
  function SchemaTypeEach(rec: PackageRecord, entries: seq<SchemaTypeEntry>): PackageRecord
    decreases |entries|
  {
    if entries == [] then rec
    else SchemaTypeEach(XmlSchemaTypeProcessor.Apply(rec, XmlSchemaType(entries[0])), entries[1..])
  }

  /** `@XmlSchemaType` appends its one entry to the schema types and
      changes nothing else. */
  lemma SchemaTypeAppendsEntry(rec: PackageRecord, a: Annotation)
    requires a.XmlSchemaType?
    ensures XmlSchemaTypeProcessor.Apply(rec, a) == rec.(schemaTypes := rec.schemaTypes + [a.entry])
  {
  }

  /** `@XmlSchemaTypes` appends the entries of its value array, in order,
      and changes nothing else: the effect of one `@XmlSchemaType` per
      entry. */
  lemma {:induction false} SchemaTypesIsSchemaTypeEach(rec: PackageRecord, entries: seq<SchemaTypeEntry>)
    ensures XmlSchemaTypesProcessor.Apply(rec, XmlSchemaTypes(entries)) == rec.(schemaTypes := rec.schemaTypes + entries)
    ensures XmlSchemaTypesProcessor.Apply(rec, XmlSchemaTypes(entries)) == SchemaTypeEach(rec, entries)
    decreases |entries|
  {
    if entries != [] {
      var next := XmlSchemaTypeProcessor.Apply(rec, XmlSchemaType(entries[0]));
      SchemaTypesIsSchemaTypeEach(next, entries[1..]);
      assert rec.schemaTypes + entries == next.schemaTypes + entries[1..];
    }
  }

  /** When no two processors share a kind, offering an annotation to all of
      them is the same as handing it to the one registered for its kind. */
  lemma {:induction false} ApplyAllIsLookup(procs: seq<PackageProcessor>, rec: PackageRecord, a: Annotation)
    requires KindsDistinct(procs)
    ensures ApplyAll(procs, rec, a) ==
      match Lookup(procs, KindOf(a))
      case None => rec
      case Some(p) => p.Apply(rec, a)
    decreases |procs|
  {
    if procs != [] {
      var init, last := procs[..|procs| - 1], procs[|procs| - 1];
      assert KindsDistinct(init);
      ApplyAllIsLookup(init, rec, a);
      LookupOfSnoc(init, last, KindOf(a));
      assert procs == init + [last];
      if last.ForAnnotationClass() == KindOf(a) {
        assert Lookup(init, KindOf(a)).None?;
      } else {
        GuardMatchesForAnnotationClass(last, ApplyAll(init, rec, a), a);
      }
    }
  }

  lemma {:induction false} LookupOfSnoc(init: seq<PackageProcessor>, last: PackageProcessor, kind: AnnotationKind)
    ensures Lookup(init + [last], kind) ==
      if Lookup(init, kind).Some? then Lookup(init, kind)
      else if last.ForAnnotationClass() == kind then Some(last) else None
    decreases |init|
  {
    if init != [] {
      assert (init + [last])[1..] == init[1..] + [last];
      LookupOfSnoc(init[1..], last, kind);
    }
  }

  /** The registered processors cover the five package annotations, one
      each; any other annotation is ignored by the package service. */
  lemma DefaultRegistry(rec: PackageRecord, a: Annotation)
    ensures KindsDistinct(DefaultProcessors)
    ensures ApplyAll(DefaultProcessors, rec, a) ==
      match a
      case XmlSchema(_, _, _, _) => XmlSchemaProcessor.Apply(rec, a)
      case XmlAccessorType(_) => XmlAccessorTypeProcessor.Apply(rec, a)
      case XmlAccessorOrder(_) => XmlAccessorOrderProcessor.Apply(rec, a)
      case XmlSchemaType(_) => XmlSchemaTypeProcessor.Apply(rec, a)
      case XmlSchemaTypes(_) => XmlSchemaTypesProcessor.Apply(rec, a)
      case _ => rec
  {
    ApplyAllIsLookup(DefaultProcessors, rec, a);
  }
}
