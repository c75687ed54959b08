/** The records the DAC analyzers work on: what is known about one attribute application
    on a DAC property, about the property itself, and the verdicts computed from them. */
module AttributeInfos {
  import opened Wrappers
  import opened Symbols

  /** A source location; absent when Roslyn has none. */
  type Location = nat

  /** How a DAC field is bound to the database. */
  datatype DbBoundness = NotDefined | Unbound | DbBound | PXDBCalced | PXDBScalar

  /** One item of an attribute's aggregated field-type metadata. */
  datatype FieldTypeMetadata = FieldTypeMetadata(
    isFieldAttribute: bool,
    dataType: Option<TypeId>,
    isCalculatedOnDbSide: bool)

  /** An attribute type paired with the application it comes from. */
  datatype AttributeWithApplication = AttributeWithApplication(application: Application, attributeType: TypeId)

  /** DacFieldAttributeInfo: one attribute application on a DAC property, with the
      metadata aggregated over it and the flattened Acumatica attributes it stands for. */
  datatype DacFieldAttributeInfo = DacFieldAttributeInfo(
    application: Application,
    aggregatedMetadata: seq<FieldTypeMetadata>,
    dbBoundness: DbBoundness,
    flattened: seq<AttributeWithApplication>,
    location: Option<Location>)

  /** An attribute whose aggregated field-type metadata is neither default nor empty. */
  predicate HasAggregatedMetadata(info: DacFieldAttributeInfo)
  {
    |info.aggregatedMetadata| > 0
  }

  /** DacPropertyInfo: a property of a DAC or DAC extension. */
  datatype DacPropertyInfo = DacPropertyInfo(
    name: string,
    containingType: TypeId,
    isDacProperty: bool,
    effectiveBoundness: DbBoundness,
    isKey: bool,
    propertyType: TypeId,
    propertyTypeUnwrappedNullable: TypeId,
    attributes: seq<DacFieldAttributeInfo>,
    typeLocation: Option<Location>,
    identifierLocation: Option<Location>)

  datatype TypesCompatibility = MissingTypeAnnotation | IncompatibleTypes | CompatibleTypes

  /** The result of sorting a property's attributes; an empty sequence stands for the
      source's null list. */
  datatype CategorizedAttributes = CategorizedAttributes(
    typeAttributesOnDacProperty: seq<DacFieldAttributeInfo>,
    typeAttributesWithDifferentDataTypesOnAggregator: seq<DacFieldAttributeInfo>,
    hasNonNullDataType: bool)
}
