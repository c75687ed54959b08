/** PX1021, PX1023 and PX1095 (DacPropertyAttributesAnalyzer): the attributes of each
    declared DAC property are checked for several attributes calculated on the database
    side, for PXDBCalced/PXDBScalar without an unbound type attribute, for several type
    attributes, and for a data type that does not match the property's type. */
module DacPropertyAttributes {
  import opened Wrappers
  import opened Symbols
  import opened AttributeInfos
  import opened AttributeRelations
  import opened DacSemanticModels

  /** The PX1023 descriptors, all reported at attribute locations. */
  datatype AttributeRule =
    | MultipleTypeAttributesOnProperty
    | MultipleTypeAttributesOnAggregators
    | MultipleCalcedOnDbSideAttributesOnProperty
    | MultipleCalcedOnDbSideAttributesOnAggregators

  /** The PX1095 descriptors, reported at the property's identifier. */
  datatype PropertyRule = PXDBCalcedNeedsNonDbTypeAttribute | PXDBScalarNeedsNonDbTypeAttribute

  datatype Diagnostic =
    | PX1023(attributeRule: AttributeRule, location: Location)
    | PX1095(propertyRule: PropertyRule, location: Location)
    | PX1021(location: Location, additionalLocation: Option<Location>, registerCodeFix: bool)

  /** RegisterDiagnosticForAttributes: one diagnostic per attribute that has a location. */
  function AttributeDiagnostics(rule: AttributeRule, attributes: seq<DacFieldAttributeInfo>): (r: seq<Diagnostic>)
    ensures |r| <= |attributes|
    ensures forall d :: d in r <==> exists a :: a in attributes && a.location.Some? && d == PX1023(rule, a.location.value)
  {
    if attributes == [] then []
    else
      var rest := AttributeDiagnostics(rule, attributes[1..]);
      assert forall a :: a in attributes <==> a == attributes[0] || a in attributes[1..];
      if attributes[0].location.Some? then [PX1023(rule, attributes[0].location.value)] + rest else rest
  }

  // ---------------------------------------------------------------------------
  // Several attributes calculated on the database side
  // ---------------------------------------------------------------------------

  predicate IsCalcedItem(m: FieldTypeMetadata)
  {
    m.isCalculatedOnDbSide
  }

  /** How many metadata items are calculated on the database side. */
  function CalcedCount(items: seq<FieldTypeMetadata>): (r: nat)
    ensures r <= |items|
  {
    if items == [] then 0
    else CalcedCount(items[..|items| - 1]) + (if IsCalcedItem(items[|items| - 1]) then 1 else 0)
  }

  lemma {:induction false} CalcedCountOfPrefix(items: seq<FieldTypeMetadata>, j: nat)
    requires j <= |items|
    ensures CalcedCount(items[..j]) <= CalcedCount(items)
    decreases |items|
  {
    if j < |items| {
      CalcedCountOfPrefix(items[..|items| - 1], j);
      assert items[..|items| - 1][..j] == items[..j];
    } else {
      assert items[..j] == items;
    }
  }

  predicate IsCalcedOnDbSide(info: DacFieldAttributeInfo)
  {
    CalcedCount(info.aggregatedMetadata) > 0
  }

  predicate HasSeveralCalcedOnDbSide(info: DacFieldAttributeInfo)
  {
    CalcedCount(info.aggregatedMetadata) > 1
  }

  /** The calced-on-DB-side counter of FilterAttributeInfosCalcedOnDbSide, which stops
      counting at two. */
  method CountCalcedOnDbSide(info: DacFieldAttributeInfo) returns (counter: nat)
    ensures counter == if CalcedCount(info.aggregatedMetadata) > 1 then 2 else CalcedCount(info.aggregatedMetadata)
  {
    var items := info.aggregatedMetadata;
    counter := 0;
    var j := 0;
    while j < |items|
      invariant 0 <= j <= |items|
      invariant counter == CalcedCount(items[..j]) <= 1
    {
      assert items[..j + 1][..j] == items[..j];
      if IsCalcedItem(items[j]) {
        counter := counter + 1;
        if counter > 1 {
          CalcedCountOfPrefix(items, j + 1);
          return;
        }
      }
      j := j + 1;
    }
    assert items[..j] == items;
  }

  /** FilterAttributeInfosCalcedOnDbSide: the attributes with an item calculated on the
      database side, and those with several (a null list is an empty one). */
  method FilterAttributeInfosCalcedOnDbSide(attributes: seq<DacFieldAttributeInfo>)
    returns (onProperty: seq<DacFieldAttributeInfo>, invalidAggregators: seq<DacFieldAttributeInfo>)
    ensures onProperty == Filter(attributes, IsCalcedOnDbSide)
    ensures invalidAggregators == Filter(attributes, HasSeveralCalcedOnDbSide)
  {
    onProperty := [];
    invalidAggregators := [];
    for i := 0 to |attributes|
      invariant onProperty == Filter(attributes[..i], IsCalcedOnDbSide)
      invariant invalidAggregators == Filter(attributes[..i], HasSeveralCalcedOnDbSide)
    {
      assert attributes[..i + 1][..i] == attributes[..i];
      var counter := CountCalcedOnDbSide(attributes[i]);
      if counter > 0 {
        onProperty := onProperty + [attributes[i]];
      }
      if counter > 1 {
        invalidAggregators := invalidAggregators + [attributes[i]];
      }
    }
    assert attributes[..|attributes|] == attributes;
  }

  /** Where the aggregator PX1023 of CheckForMultipleAttributesCalcedOnDbSide goes: the
      analyzer registers it at every attribute calculated on the database side; its
      descriptor, like the type-attribute check, speaks of the aggregators that declare
      several such items. */
  datatype AggregatorPlacement = AtCalcedAttributes | AtConflictingAggregators

  /** CheckForMultipleAttributesCalcedOnDbSide: whether the later checks may run, and the
      PX1023 diagnostics, with the aggregator diagnostic placed as `placement` says. */
  function CalcedOnDbSideCheck(property: DacPropertyInfo, attributes: seq<DacFieldAttributeInfo>,
                               placement: AggregatorPlacement): (r: (bool, seq<Diagnostic>))
    ensures r.0 ==> r.1 == []
  {
    if property.effectiveBoundness in {DbBound, Unbound, NotDefined} then (true, [])
    else
      var onProperty := Filter(attributes, IsCalcedOnDbSide);
      var invalidAggregators := Filter(attributes, HasSeveralCalcedOnDbSide);
      if |onProperty| == 0 || (|onProperty| == 1 && |invalidAggregators| == 0) then (true, [])
      else
        var aggregatorTargets := if placement == AtCalcedAttributes then onProperty else invalidAggregators;
        (false,
         (if |onProperty| > 1 then AttributeDiagnostics(MultipleCalcedOnDbSideAttributesOnProperty, onProperty) else [])
         + (if |invalidAggregators| > 0 then AttributeDiagnostics(MultipleCalcedOnDbSideAttributesOnAggregators, aggregatorTargets) else []))
  }

  /** Boundness for which calced attributes are looked for at all. */
  predicate MayBeCalcedOnDbSide(property: DacPropertyInfo)
  {
    property.effectiveBoundness !in {DbBound, Unbound, NotDefined}
  }

  /** The calced-on-DB-side check stops the later checks exactly when the property's
      boundness allows calced attributes and either two attributes are calced on the
      database side or one declares several such items; the placement does not matter. */
  lemma CalcedOnDbSideVerdict(property: DacPropertyInfo, attributes: seq<DacFieldAttributeInfo>, placement: AggregatorPlacement)
    ensures !CalcedOnDbSideCheck(property, attributes, placement).0 <==>
      MayBeCalcedOnDbSide(property)
      && ((exists i, j :: 0 <= i < j < |attributes| && IsCalcedOnDbSide(attributes[i]) && IsCalcedOnDbSide(attributes[j]))
          || exists i :: 0 <= i < |attributes| && HasSeveralCalcedOnDbSide(attributes[i]))
  {
    var onProperty := Filter(attributes, IsCalcedOnDbSide);
    var invalidAggregators := Filter(attributes, HasSeveralCalcedOnDbSide);
    FilterTwoIffLonger(attributes, IsCalcedOnDbSide);
    if |invalidAggregators| > 0 {
      var x := invalidAggregators[0];
      FilterMembership(attributes, HasSeveralCalcedOnDbSide, x);
      var i :| 0 <= i < |attributes| && attributes[i] == x;
      assert HasSeveralCalcedOnDbSide(attributes[i]);
      FilterMembership(attributes, IsCalcedOnDbSide, x);
      assert |onProperty| > 0;
    }
    if exists i :: 0 <= i < |attributes| && HasSeveralCalcedOnDbSide(attributes[i]) {
      var i :| 0 <= i < |attributes| && HasSeveralCalcedOnDbSide(attributes[i]);
      FilterMembership(attributes, HasSeveralCalcedOnDbSide, attributes[i]);
      assert |invalidAggregators| > 0;
    }
  }

  /** Every diagnostic of the calced-on-DB-side check is one of its two PX1023 kinds, at
      the location of an attribute calculated on the database side. */
  lemma CalcedOnDbSideDiagnostics(property: DacPropertyInfo, attributes: seq<DacFieldAttributeInfo>, placement: AggregatorPlacement)
    ensures forall d :: d in CalcedOnDbSideCheck(property, attributes, placement).1 ==>
      d.PX1023? && d.attributeRule in {MultipleCalcedOnDbSideAttributesOnProperty, MultipleCalcedOnDbSideAttributesOnAggregators}
      && exists a :: a in attributes && IsCalcedOnDbSide(a) && a.location == Some(d.location)
  {
    var onProperty := Filter(attributes, IsCalcedOnDbSide);
    var invalidAggregators := Filter(attributes, HasSeveralCalcedOnDbSide);
    forall a | a in onProperty ensures a in attributes && IsCalcedOnDbSide(a) {
      FilterMembership(attributes, IsCalcedOnDbSide, a);
    }
    forall a | a in invalidAggregators ensures a in attributes && IsCalcedOnDbSide(a) {
      FilterMembership(attributes, HasSeveralCalcedOnDbSide, a);
    }
  }

  /** The diagnostics for the attributes `attributes` keeps by `p` are at the locations of
      exactly those attributes. */
  lemma FilteredDiagnosticAt(rule: AttributeRule, attributes: seq<DacFieldAttributeInfo>,
                             p: DacFieldAttributeInfo -> bool, l: Location)
    ensures PX1023(rule, l) in AttributeDiagnostics(rule, Filter(attributes, p)) <==>
      exists a :: a in attributes && p(a) && a.location == Some(l)
  {
    if exists a :: a in attributes && p(a) && a.location == Some(l) {
      var a :| a in attributes && p(a) && a.location == Some(l);
      FilterMembership(attributes, p, a);
    }
    if PX1023(rule, l) in AttributeDiagnostics(rule, Filter(attributes, p)) {
      var a :| a in Filter(attributes, p) && a.location.Some? && PX1023(rule, l) == PX1023(rule, a.location.value);
      FilterMembership(attributes, p, a);
    }
  }

  /** Where the property PX1023 of the calced check lands, for all inputs and either
      placement: at every located calced attribute, when two attributes are calced. */
  lemma CalcedPropertyDiagnosticAt(property: DacPropertyInfo, attributes: seq<DacFieldAttributeInfo>,
                                   placement: AggregatorPlacement, l: Location)
    ensures PX1023(MultipleCalcedOnDbSideAttributesOnProperty, l) in CalcedOnDbSideCheck(property, attributes, placement).1 <==>
      MayBeCalcedOnDbSide(property)
      && (exists i, j :: 0 <= i < j < |attributes| && IsCalcedOnDbSide(attributes[i]) && IsCalcedOnDbSide(attributes[j]))
      && exists a :: a in attributes && IsCalcedOnDbSide(a) && a.location == Some(l)
  {
    var d := PX1023(MultipleCalcedOnDbSideAttributesOnProperty, l);
    var onProperty := Filter(attributes, IsCalcedOnDbSide);
    var invalidAggregators := Filter(attributes, HasSeveralCalcedOnDbSide);
    var aggregatorTargets := if placement == AtCalcedAttributes then onProperty else invalidAggregators;
    FilterTwoIffLonger(attributes, IsCalcedOnDbSide);
    FilteredDiagnosticAt(MultipleCalcedOnDbSideAttributesOnProperty, attributes, IsCalcedOnDbSide, l);
    assert d !in AttributeDiagnostics(MultipleCalcedOnDbSideAttributesOnAggregators, aggregatorTargets);
  }

  /** Where the aggregator PX1023 lands when placed at the conflicting aggregators: exactly
      at every located attribute that declares several calced items. */
  lemma CalcedAggregatorDiagnosticAt(property: DacPropertyInfo, attributes: seq<DacFieldAttributeInfo>, l: Location)
    ensures PX1023(MultipleCalcedOnDbSideAttributesOnAggregators, l) in CalcedOnDbSideCheck(property, attributes, AtConflictingAggregators).1 <==>
      MayBeCalcedOnDbSide(property) && exists a :: a in attributes && HasSeveralCalcedOnDbSide(a) && a.location == Some(l)
  {
    var d := PX1023(MultipleCalcedOnDbSideAttributesOnAggregators, l);
    var onProperty := Filter(attributes, IsCalcedOnDbSide);
    var invalidAggregators := Filter(attributes, HasSeveralCalcedOnDbSide);
    FilteredDiagnosticAt(MultipleCalcedOnDbSideAttributesOnAggregators, attributes, HasSeveralCalcedOnDbSide, l);
    assert d !in AttributeDiagnostics(MultipleCalcedOnDbSideAttributesOnProperty, onProperty);
    if |invalidAggregators| > 0 {
      FilterMembership(attributes, HasSeveralCalcedOnDbSide, invalidAggregators[0]);
      FilterMembership(attributes, IsCalcedOnDbSide, invalidAggregators[0]);
      assert |onProperty| > 0;
    }
  }

  /** Where the aggregator PX1023 lands as the analyzer places it: when some attribute
      declares several calced items, at every located calced attribute, whether it
      aggregates anything or not. */
  lemma CalcedAggregatorDiagnosticAsPlaced(property: DacPropertyInfo, attributes: seq<DacFieldAttributeInfo>, l: Location)
    ensures PX1023(MultipleCalcedOnDbSideAttributesOnAggregators, l) in CalcedOnDbSideCheck(property, attributes, AtCalcedAttributes).1 <==>
      MayBeCalcedOnDbSide(property)
      && (exists a :: a in attributes && HasSeveralCalcedOnDbSide(a))
      && exists a :: a in attributes && IsCalcedOnDbSide(a) && a.location == Some(l)
  {
    var d := PX1023(MultipleCalcedOnDbSideAttributesOnAggregators, l);
    var onProperty := Filter(attributes, IsCalcedOnDbSide);
    var invalidAggregators := Filter(attributes, HasSeveralCalcedOnDbSide);
    FilteredDiagnosticAt(MultipleCalcedOnDbSideAttributesOnAggregators, attributes, IsCalcedOnDbSide, l);
    assert d !in AttributeDiagnostics(MultipleCalcedOnDbSideAttributesOnProperty, onProperty);
    if |invalidAggregators| > 0 {
      FilterMembership(attributes, HasSeveralCalcedOnDbSide, invalidAggregators[0]);
      FilterMembership(attributes, IsCalcedOnDbSide, invalidAggregators[0]);
      assert |onProperty| > 0;
    }
    if exists a :: a in attributes && HasSeveralCalcedOnDbSide(a) {
      var a :| a in attributes && HasSeveralCalcedOnDbSide(a);
      FilterMembership(attributes, HasSeveralCalcedOnDbSide, a);
    }
  }

  /** CheckForMultipleAttributesCalcedOnDbSide, as the analyzer places its diagnostics. */
  method CheckForMultipleAttributesCalcedOnDbSide(property: DacPropertyInfo, attributes: seq<DacFieldAttributeInfo>)
    returns (valid: bool, diagnostics: seq<Diagnostic>)
    ensures (valid, diagnostics) == CalcedOnDbSideCheck(property, attributes, AtCalcedAttributes)
  {
    if property.effectiveBoundness in {DbBound, Unbound, NotDefined} {
      return true, [];
    }
    var onProperty, invalidAggregators := FilterAttributeInfosCalcedOnDbSide(attributes);
    if |onProperty| == 0 || (|onProperty| == 1 && |invalidAggregators| == 0) {
      return true, [];
    }
    var onPropertyDiagnostics := [];
    if |onProperty| > 1 {
      onPropertyDiagnostics := AttributeDiagnostics(MultipleCalcedOnDbSideAttributesOnProperty, onProperty);
    }
    var aggregatorDiagnostics := [];
    if |invalidAggregators| > 0 {
      aggregatorDiagnostics := AttributeDiagnostics(MultipleCalcedOnDbSideAttributesOnAggregators, onProperty);
    }
    return false, onPropertyDiagnostics + aggregatorDiagnostics;
  }

  // ---------------------------------------------------------------------------
  // PXDBCalced and PXDBScalar without an unbound type attribute
  // ---------------------------------------------------------------------------

  predicate HasBoundness(attributes: seq<DacFieldAttributeInfo>, boundness: DbBoundness)
  {
    exists k :: 0 <= k < |attributes| && attributes[k].dbBoundness == boundness
  }

  /** The PX1095 diagnostics at the property's identifier. */
  function CalcedAndUnboundDiagnostics(property: DacPropertyInfo, attributes: seq<DacFieldAttributeInfo>): (r: seq<Diagnostic>)
    ensures forall l: Location :: PX1095(PXDBCalcedNeedsNonDbTypeAttribute, l) in r <==>
      property.effectiveBoundness !in {DbBound, Unbound, NotDefined}
      && HasBoundness(attributes, PXDBCalced) && !HasBoundness(attributes, Unbound)
      && property.identifierLocation == Some(l)
    ensures forall l: Location :: PX1095(PXDBScalarNeedsNonDbTypeAttribute, l) in r <==>
      property.effectiveBoundness !in {DbBound, Unbound, NotDefined}
      && HasBoundness(attributes, PXDBScalar) && !HasBoundness(attributes, Unbound)
      && property.identifierLocation == Some(l)
    ensures forall d :: d in r ==> d.PX1095?
    ensures |r| <= 2
  {
    if property.effectiveBoundness in {DbBound, Unbound, NotDefined} then []
    else if HasBoundness(attributes, Unbound)
         || (!HasBoundness(attributes, PXDBCalced) && !HasBoundness(attributes, PXDBScalar))
         || property.identifierLocation.None? then []
    else
      var location := property.identifierLocation.value;
      (if HasBoundness(attributes, PXDBCalced) then [PX1095(PXDBCalcedNeedsNonDbTypeAttribute, location)] else [])
      + (if HasBoundness(attributes, PXDBScalar) then [PX1095(PXDBScalarNeedsNonDbTypeAttribute, location)] else [])
  }

  /** CheckForCalcedOnDbSideAndUnboundTypeAttributes: three flags set in one pass. */
  method CheckForCalcedOnDbSideAndUnboundTypeAttributes(property: DacPropertyInfo, attributes: seq<DacFieldAttributeInfo>)
    returns (r: seq<Diagnostic>)
    ensures r == CalcedAndUnboundDiagnostics(property, attributes)
  {
    if property.effectiveBoundness in {DbBound, Unbound, NotDefined} {
      return [];
    }
    var hasPXDBCalcedAttribute, hasPXDBScalarAttribute, hasUnboundTypeAttribute := false, false, false;
    for i := 0 to |attributes|
      invariant hasUnboundTypeAttribute <==> HasBoundness(attributes[..i], Unbound)
      invariant hasPXDBScalarAttribute <==> HasBoundness(attributes[..i], PXDBScalar)
      invariant hasPXDBCalcedAttribute <==> HasBoundness(attributes[..i], PXDBCalced)
    {
      assert forall k :: 0 <= k < i ==> attributes[..i + 1][k] == attributes[..i][k];
      assert attributes[..i + 1][i] == attributes[i];
      match attributes[i].dbBoundness {
        case Unbound => hasUnboundTypeAttribute := true;
        case PXDBScalar => hasPXDBScalarAttribute := true;
        case PXDBCalced => hasPXDBCalcedAttribute := true;
        case _ =>
      }
    }
    assert attributes[..|attributes|] == attributes;
    if hasUnboundTypeAttribute || (!hasPXDBCalcedAttribute && !hasPXDBScalarAttribute) || property.identifierLocation.None? {
      return [];
    }
    var location := property.identifierLocation.value;
    r := [];
    if hasPXDBCalcedAttribute {
      r := r + [PX1095(PXDBCalcedNeedsNonDbTypeAttribute, location)];
    }
    if hasPXDBScalarAttribute {
      r := r + [PX1095(PXDBScalarNeedsNonDbTypeAttribute, location)];
    }
  }

  // ---------------------------------------------------------------------------
  // Field-type attributes
  // ---------------------------------------------------------------------------

  /** ReportIncompatibleTypesDiagnostics: PX1021 at the property type and at the attribute,
      each pointing at the other. */
  function IncompatibleTypesDiagnostics(property: DacPropertyInfo, fieldAttribute: DacFieldAttributeInfo, registerCodeFix: bool)
    : (r: seq<Diagnostic>)
    ensures |r| <= 2
    ensures forall d :: d in r ==> d.PX1021? && d.registerCodeFix == registerCodeFix
    ensures forall d :: d in r ==>
      (property.typeLocation.Some? && d.location == property.typeLocation.value && d.additionalLocation == fieldAttribute.location)
      || (fieldAttribute.location.Some? && d.location == fieldAttribute.location.value && d.additionalLocation == property.typeLocation)
    ensures property.typeLocation.Some? ==> PX1021(property.typeLocation.value, fieldAttribute.location, registerCodeFix) in r
    ensures fieldAttribute.location.Some? ==> PX1021(fieldAttribute.location.value, property.typeLocation, registerCodeFix) in r
  {
    (if property.typeLocation.Some? then [PX1021(property.typeLocation.value, fieldAttribute.location, registerCodeFix)] else [])
    + (if fieldAttribute.location.Some? then [PX1021(fieldAttribute.location.value, property.typeLocation, registerCodeFix)] else [])
  }

  /** CheckAttributeAndPropertyTypesForCompatibility: a missing annotation is reported
      without a code fix, incompatible types with one, compatible types not at all. */
  function CompatibilityDiagnostics(property: DacPropertyInfo, dataTypeAttribute: DacFieldAttributeInfo,
                                    compatibility: TypesCompatibility): (r: seq<Diagnostic>)
    ensures compatibility == CompatibleTypes ==> r == []
    ensures compatibility != CompatibleTypes ==>
      r == IncompatibleTypesDiagnostics(property, dataTypeAttribute, compatibility == IncompatibleTypes)
    ensures forall d :: d in r ==> d.PX1021? && (d.registerCodeFix <==> compatibility == IncompatibleTypes)
  {
    match compatibility
    case MissingTypeAnnotation => IncompatibleTypesDiagnostics(property, dataTypeAttribute, false)
    case IncompatibleTypes => IncompatibleTypesDiagnostics(property, dataTypeAttribute, true)
    case CompatibleTypes => []
  }

  /** CheckForFieldTypeAttributes. */
  function FieldTypeDiagnostics(property: DacPropertyInfo, attributes: seq<DacFieldAttributeInfo>): (r: seq<Diagnostic>)
    ensures forall d :: d in r ==>
      d.PX1021? || (d.PX1023? && d.attributeRule in {MultipleTypeAttributesOnProperty, MultipleTypeAttributesOnAggregators})
  {
    if property.effectiveBoundness == NotDefined then []
    else
      var categorized := Categorize(attributes);
      var typeAttributes := categorized.typeAttributesOnDacProperty;
      var conflicts := categorized.typeAttributesWithDifferentDataTypesOnAggregator;
      if |typeAttributes| == 0 || !categorized.hasNonNullDataType then []
      else
        (if |conflicts| > 0 then AttributeDiagnostics(MultipleTypeAttributesOnAggregators, conflicts) else [])
        + (if |typeAttributes| > 1 then AttributeDiagnostics(MultipleTypeAttributesOnProperty, typeAttributes)
           else if |conflicts| == 0 then CompatibilityDiagnostics(property, typeAttributes[0], CheckCompatibility(property, typeAttributes[0]))
           else [])
  }

  /** The field-type checks run for a property of a bound or unbound DAC field some of whose
      attributes declares a data type. */
  predicate FieldTypeChecked(property: DacPropertyInfo, attributes: seq<DacFieldAttributeInfo>)
  {
    property.effectiveBoundness != NotDefined && exists i :: 0 <= i < |attributes| && HasNonNullDataType(attributes[i])
  }

  /** Some attribute declares a data type exactly when some type attribute does. */
  lemma HasNonNullDataTypeIsTypeAttribute(attributes: seq<DacFieldAttributeInfo>)
    ensures Categorize(attributes).hasNonNullDataType ==> |Categorize(attributes).typeAttributesOnDacProperty| > 0
  {
    if Categorize(attributes).hasNonNullDataType {
      var i :| 0 <= i < |attributes| && HasNonNullDataType(attributes[i]);
      var m :| m in attributes[i].aggregatedMetadata && m.isFieldAttribute && m.dataType.Some?;
      CategorizeMembership(attributes, attributes[i]);
    }
  }

  /** Where the aggregator type-attribute PX1023 lands, for all inputs: at every located
      aggregator whose items declare different data types. */
  lemma TypeAggregatorDiagnosticAt(property: DacPropertyInfo, attributes: seq<DacFieldAttributeInfo>, l: Location)
    ensures PX1023(MultipleTypeAttributesOnAggregators, l) in FieldTypeDiagnostics(property, attributes) <==>
      FieldTypeChecked(property, attributes)
      && exists a :: a in attributes && HasConflictingDataTypes(a) && a.location == Some(l)
  {
    var categorized := Categorize(attributes);
    var typeAttributes := categorized.typeAttributesOnDacProperty;
    HasNonNullDataTypeIsTypeAttribute(attributes);
    FilteredDiagnosticAt(MultipleTypeAttributesOnAggregators, attributes, HasConflictingDataTypes, l);
    if |typeAttributes| == 1 && categorized.hasNonNullDataType {
      var c := CheckCompatibility(property, typeAttributes[0]);
      assert forall d :: d in CompatibilityDiagnostics(property, typeAttributes[0], c) ==> d.PX1021?;
    }
  }

  /** Where the property type-attribute PX1023 lands, for all inputs: when two attributes
      are type attributes, at every located type attribute. */
  lemma TypePropertyDiagnosticAt(property: DacPropertyInfo, attributes: seq<DacFieldAttributeInfo>, l: Location)
    ensures PX1023(MultipleTypeAttributesOnProperty, l) in FieldTypeDiagnostics(property, attributes) <==>
      FieldTypeChecked(property, attributes)
      && (exists i, j :: 0 <= i < j < |attributes| && IsTypeAttribute(attributes[i]) && IsTypeAttribute(attributes[j]))
      && exists a :: a in attributes && IsTypeAttribute(a) && a.location == Some(l)
  {
    var categorized := Categorize(attributes);
    var typeAttributes := categorized.typeAttributesOnDacProperty;
    var conflicts := categorized.typeAttributesWithDifferentDataTypesOnAggregator;
    HasNonNullDataTypeIsTypeAttribute(attributes);
    FilterTwoIffLonger(attributes, IsTypeAttribute);
    FilteredDiagnosticAt(MultipleTypeAttributesOnProperty, attributes, IsTypeAttribute, l);
    assert PX1023(MultipleTypeAttributesOnProperty, l) !in AttributeDiagnostics(MultipleTypeAttributesOnAggregators, conflicts);
    if |typeAttributes| == 1 && |conflicts| == 0 && categorized.hasNonNullDataType {
      var c := CheckCompatibility(property, typeAttributes[0]);
      assert forall d :: d in CompatibilityDiagnostics(property, typeAttributes[0], c) ==> d.PX1021?;
    }
  }

  /** A single type attribute that declares a data type, with no conflicting aggregator:
      the field-type check reports exactly the compatibility of that attribute's data type
      with the property's type. */
  lemma TypeMismatchReported(property: DacPropertyInfo, attributes: seq<DacFieldAttributeInfo>, i: nat)
    requires property.effectiveBoundness != NotDefined
    requires i < |attributes| && HasNonNullDataType(attributes[i])
    requires forall k :: 0 <= k < |attributes| && IsTypeAttribute(attributes[k]) ==> k == i
    requires forall a :: a in attributes ==> !HasConflictingDataTypes(a)
    ensures FieldTypeDiagnostics(property, attributes) ==
      CompatibilityDiagnostics(property, attributes[i], CheckCompatibility(property, attributes[i]))
  {
    var categorized := Categorize(attributes);
    var typeAttributes := categorized.typeAttributesOnDacProperty;
    var conflicts := categorized.typeAttributesWithDifferentDataTypesOnAggregator;
    var m :| m in attributes[i].aggregatedMetadata && m.isFieldAttribute && m.dataType.Some?;
    FilterTwoIffLonger(attributes, IsTypeAttribute);
    CategorizeMembership(attributes, attributes[i]);
    assert attributes[i] in typeAttributes;
    assert |typeAttributes| == 1;
    CategorizeMembership(attributes, typeAttributes[0]);
    var k :| 0 <= k < |attributes| && attributes[k] == typeAttributes[0];
    if conflicts != [] {
      CategorizeMembership(attributes, conflicts[0]);
      assert false;
    }
  }

  /** PX1021 is reported only for a property of a bound or unbound DAC field with exactly
      one type attribute, no aggregator conflict and some declared data type, and it is
      reported with a code fix exactly when that type differs from the property's. */
  lemma TypeMismatchConditions(property: DacPropertyInfo, attributes: seq<DacFieldAttributeInfo>, d: Diagnostic)
    requires d in FieldTypeDiagnostics(property, attributes) && d.PX1021?
    ensures property.effectiveBoundness != NotDefined
    ensures exists a ::
      (a in attributes && IsTypeAttribute(a) && FieldDataTypes(a) != {property.propertyTypeUnwrappedNullable}
       && (d.registerCodeFix <==> FieldDataTypes(a) != {})
       && forall b :: b in attributes && IsTypeAttribute(b) ==> b == a)
    ensures forall a :: a in attributes ==> |FieldDataTypes(a)| <= 1
  {
    var categorized := Categorize(attributes);
    var typeAttributes := categorized.typeAttributesOnDacProperty;
    var conflicts := categorized.typeAttributesWithDifferentDataTypesOnAggregator;
    forall a ensures a in typeAttributes <==> a in attributes && IsTypeAttribute(a) {
      CategorizeMembership(attributes, a);
    }
    forall a ensures a in conflicts <==> a in attributes && |FieldDataTypes(a)| > 1 {
      CategorizeMembership(attributes, a);
    }
    assert |typeAttributes| > 0 && categorized.hasNonNullDataType;
    if |conflicts| > 0 || |typeAttributes| > 1 {
      assert false;
    }
    var a := typeAttributes[0];
    assert d in CompatibilityDiagnostics(property, a, CheckCompatibility(property, a));
    assert a in typeAttributes;
    assert forall b :: b in typeAttributes ==> b == a;
  }

  // ---------------------------------------------------------------------------
  // One property, and the whole DAC
  // ---------------------------------------------------------------------------

  /** CheckDacProperty: the checks run on the attributes that carry field-type metadata,
      and several calced-on-DB-side attributes stop the later checks. A property none of
      whose attributes carries field-type metadata gets no diagnostic. */
  function Diagnostics(property: DacPropertyInfo, placement: AggregatorPlacement): (r: seq<Diagnostic>)
    ensures (forall a :: a in property.attributes ==> !HasAggregatedMetadata(a)) ==> r == []
  {
    if |property.attributes| == 0 then []
    else
      var attributes := Filter(property.attributes, HasAggregatedMetadata);
      if |attributes| == 0 then []
      else
        assert attributes[0] in attributes;
        FilterMembership(property.attributes, HasAggregatedMetadata, attributes[0]);
        var calced := CalcedOnDbSideCheck(property, attributes, placement);
        if !calced.0 then calced.1
        else CalcedAndUnboundDiagnostics(property, attributes) + FieldTypeDiagnostics(property, attributes)
  }

  /** The placement of the aggregator PX1023 changes no other diagnostic of a property. */
  lemma PlacementAffectsOnlyAggregatorDiagnostics(property: DacPropertyInfo, d: Diagnostic)
    requires !(d.PX1023? && d.attributeRule == MultipleCalcedOnDbSideAttributesOnAggregators)
    ensures d in Diagnostics(property, AtCalcedAttributes) <==> d in Diagnostics(property, AtConflictingAggregators)
  {
    if |property.attributes| > 0 {
      var attributes := Filter(property.attributes, HasAggregatedMetadata);
      CalcedOnDbSideVerdict(property, attributes, AtCalcedAttributes);
      CalcedOnDbSideVerdict(property, attributes, AtConflictingAggregators);
      if d.PX1023? && d.attributeRule == MultipleCalcedOnDbSideAttributesOnProperty {
        CalcedPropertyDiagnosticAt(property, attributes, AtCalcedAttributes, d.location);
        CalcedPropertyDiagnosticAt(property, attributes, AtConflictingAggregators, d.location);
      } else {
        CalcedOnDbSideDiagnostics(property, attributes, AtCalcedAttributes);
        CalcedOnDbSideDiagnostics(property, attributes, AtConflictingAggregators);
      }
    }
  }

  /** For DbBound, Unbound and NotDefined properties the calced-on-DB-side checks report
      nothing: every diagnostic comes from the field-type check. */
  lemma BoundnessSkipsCalcedChecks(property: DacPropertyInfo, placement: AggregatorPlacement)
    requires property.effectiveBoundness in {DbBound, Unbound, NotDefined}
    ensures forall d :: d in Diagnostics(property, placement) ==>
      d.PX1021? || (d.PX1023? && d.attributeRule in {MultipleTypeAttributesOnProperty, MultipleTypeAttributesOnAggregators})
  {
    if |property.attributes| > 0 {
      var attributes := Filter(property.attributes, HasAggregatedMetadata);
      assert CalcedAndUnboundDiagnostics(property, attributes) == [];
    }
  }

  /** A failing calced-on-DB-side check suppresses every later check: the property then
      gets only calced PX1023 diagnostics. */
  lemma CalcedConflictSuppressesLaterChecks(property: DacPropertyInfo, placement: AggregatorPlacement)
    requires |property.attributes| > 0
    requires !CalcedOnDbSideCheck(property, Filter(property.attributes, HasAggregatedMetadata), placement).0
    ensures forall d :: d in Diagnostics(property, placement) ==>
      d.PX1023? && d.attributeRule in {MultipleCalcedOnDbSideAttributesOnProperty, MultipleCalcedOnDbSideAttributesOnAggregators}
  {
    var attributes := Filter(property.attributes, HasAggregatedMetadata);
    CalcedOnDbSideDiagnostics(property, attributes, placement);
  }

  /** PX1095 for PXDBCalced fires only when such an attribute with field-type metadata
      exists and none of them is unbound. */
  lemma PXDBCalcedNeedsNoUnbound(property: DacPropertyInfo, placement: AggregatorPlacement, l: Location)
    requires PX1095(PXDBCalcedNeedsNonDbTypeAttribute, l) in Diagnostics(property, placement)
    ensures var attributes := Filter(property.attributes, HasAggregatedMetadata);
      HasBoundness(attributes, PXDBCalced) && !HasBoundness(attributes, Unbound)
      && property.identifierLocation == Some(l)
  {
    var attributes := Filter(property.attributes, HasAggregatedMetadata);
    var calced := CalcedOnDbSideCheck(property, attributes, placement);
    if !calced.0 {
      CalcedOnDbSideDiagnostics(property, attributes, placement);
      assert false;
    }
    assert PX1095(PXDBCalcedNeedsNonDbTypeAttribute, l) !in FieldTypeDiagnostics(property, attributes);
  }

  /** CheckDacProperty. */
  method CheckDacProperty(property: DacPropertyInfo) returns (r: seq<Diagnostic>)
    ensures r == Diagnostics(property, AtCalcedAttributes)
  {
    if |property.attributes| == 0 {
      return [];
    }
    var attributesWithFieldTypeMetadata := [];
    for i := 0 to |property.attributes|
      invariant attributesWithFieldTypeMetadata == Filter(property.attributes[..i], HasAggregatedMetadata)
    {
      assert property.attributes[..i + 1][..i] == property.attributes[..i];
      if HasAggregatedMetadata(property.attributes[i]) {
        attributesWithFieldTypeMetadata := attributesWithFieldTypeMetadata + [property.attributes[i]];
      }
    }
    assert property.attributes[..|property.attributes|] == property.attributes;
    if |attributesWithFieldTypeMetadata| == 0 {
      return [];
    }
    var validAttributesCalcedOnDbSide, calcedDiagnostics :=
      CheckForMultipleAttributesCalcedOnDbSide(property, attributesWithFieldTypeMetadata);
    if !validAttributesCalcedOnDbSide {
      return calcedDiagnostics;
    }
    var unboundDiagnostics := CheckForCalcedOnDbSideAndUnboundTypeAttributes(property, attributesWithFieldTypeMetadata);
    r := unboundDiagnostics + FieldTypeDiagnostics(property, attributesWithFieldTypeMetadata);
  }

  /** Analyze: the diagnostics of every property the DAC declares, placed as the analyzer
      places them. */
  method Analyze(dac: DacSemanticModel) returns (r: seq<Diagnostic>)
    ensures forall d :: d in r <==> exists p :: p in dac.AllDeclaredProperties() && d in Diagnostics(p, AtCalcedAttributes)
  {
    var remaining := dac.AllDeclaredProperties();
    ghost var visited: set<DacPropertyInfo> := {};
    r := [];
    while remaining != {}
      invariant visited + remaining == dac.AllDeclaredProperties()
      invariant forall d :: d in r <==> exists p :: p in visited && d in Diagnostics(p, AtCalcedAttributes)
      decreases remaining
    {
      var property :| property in remaining;
      var diagnostics := CheckDacProperty(property);
      forall d | d in r + diagnostics ensures exists p :: p in visited + {property} && d in Diagnostics(p, AtCalcedAttributes) {
        if d in r {
          var p :| p in visited && d in Diagnostics(p, AtCalcedAttributes);
          assert p in visited + {property};
        } else {
          assert property in visited + {property};
        }
      }
      forall d | exists p :: p in visited + {property} && d in Diagnostics(p, AtCalcedAttributes) ensures d in r + diagnostics {
        var p :| p in visited + {property} && d in Diagnostics(p, AtCalcedAttributes);
        if p != property {
          assert p in visited;
        }
      }
      r := r + diagnostics;
      visited := visited + {property};
      remaining := remaining - {property};
    }
  }

  // ---------------------------------------------------------------------------
  // The aggregator PX1023 location
  // ---------------------------------------------------------------------------

  const NotAggregator := DacFieldAttributeInfo(Application(1, Some(20), Some([]), []),
    [FieldTypeMetadata(true, Some(7), true)], PXDBCalced, [], Some(101))
  const CalcedAggregator := DacFieldAttributeInfo(Application(2, Some(21), Some([]), []),
    [FieldTypeMetadata(true, Some(7), true), FieldTypeMetadata(true, Some(7), true)], PXDBCalced, [], Some(102))

  /** A PXDBCalced attribute next to an aggregator with two calced items: as the analyzer
      places it, the aggregator PX1023 is reported at both attributes, including the
      PXDBCalced attribute, which aggregates nothing; placed at the conflicting aggregators it is reported only at the
      aggregator. */
  lemma AggregatorDiagnosticAtNonAggregator(property: DacPropertyInfo)
    requires property.effectiveBoundness == PXDBCalced
    ensures PX1023(MultipleCalcedOnDbSideAttributesOnAggregators, 101)
      in CalcedOnDbSideCheck(property, [NotAggregator, CalcedAggregator], AtCalcedAttributes).1
    ensures PX1023(MultipleCalcedOnDbSideAttributesOnAggregators, 102)
      in CalcedOnDbSideCheck(property, [NotAggregator, CalcedAggregator], AtCalcedAttributes).1
    ensures PX1023(MultipleCalcedOnDbSideAttributesOnAggregators, 101)
      !in CalcedOnDbSideCheck(property, [NotAggregator, CalcedAggregator], AtConflictingAggregators).1
    ensures PX1023(MultipleCalcedOnDbSideAttributesOnAggregators, 102)
      in CalcedOnDbSideCheck(property, [NotAggregator, CalcedAggregator], AtConflictingAggregators).1
  {
    var attributes := [NotAggregator, CalcedAggregator];
    var one := NotAggregator.aggregatedMetadata;
    var two := CalcedAggregator.aggregatedMetadata;
    assert one[..0] == [] && two[..1] == one;
    assert CalcedCount(one) == 1 && CalcedCount(two) == 2;
    assert attributes[..1] == [NotAggregator] && attributes[..1][..0] == [];
    assert Filter(attributes[..1], IsCalcedOnDbSide) == [NotAggregator];
    assert Filter(attributes, IsCalcedOnDbSide) == attributes;
    assert Filter(attributes[..1], HasSeveralCalcedOnDbSide) == [];
    assert Filter(attributes, HasSeveralCalcedOnDbSide) == [CalcedAggregator];
    assert NotAggregator in attributes;
    assert AttributeDiagnostics(MultipleCalcedOnDbSideAttributesOnAggregators, [CalcedAggregator])
      == [PX1023(MultipleCalcedOnDbSideAttributesOnAggregators, 102)];
    assert AttributeDiagnostics(MultipleCalcedOnDbSideAttributesOnProperty, attributes)
      == [PX1023(MultipleCalcedOnDbSideAttributesOnProperty, 101), PX1023(MultipleCalcedOnDbSideAttributesOnProperty, 102)];
  }
}
