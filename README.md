# Acuminator attribute-metadata engine and utilities, in Dafny

Acuminator is a set of Roslyn analyzers and code fixes for Acumatica customisation code.
Most of its DAC (data access class) analyzers share an attribute-metadata engine. This
project models that engine and the analyzers and fixes built on it. It also models a set
of standalone utilities. Each source file becomes one Dafny module.

- `AttributeRelations` models `AcumaticaAttributesRelationsInfoProvider`:
  - it decides whether an attribute class is an Acumatica attribute, meaning it is, or
    derives from, `PXEventSubscriberAttribute`;
  - it decides whether an attribute derives from another one or aggregates it, through
    aggregator attributes and up to 50 levels;
  - it expands aggregators into their aggregated attributes;
  - it sorts a property's attributes into type attributes and conflicting aggregators;
  - it maps the resolved data types to `MissingTypeAnnotation`, `IncompatibleTypes` or
    `CompatibleTypes`.
- `AttributeInformation` models the older aggregator recursion of `AttributeInformation`,
  with its depth counter of 1 to 100 that is decremented once per sibling.
- `DacPropertyAttributes` models the PX1021/PX1023/PX1095 rules of
  `DacPropertyAttributesAnalyzer`. The rules are a function from a property to the
  diagnostics it gets.
- `ReferencedFieldMismatch` models PX1078 (`DacFieldAndReferencedFieldMismatchAnalyzer`). A
  property with a selector is compared with the field the selector references, by CLR
  type and by declared length. The analyzer's model cache is a class field.
- `DacSemanticModels` models `DacSemanticModel`:
  - classification as a DAC or a DAC extension;
  - the case-insensitive property and field maps;
  - the declared, fully-unbound and projection views.
- `DacPrimaryKeyDeclaration` models the PX1033/PX1035/PX1036 primary-key analyzer.
- `ArrayExtensions` models the copy-on-write array helpers, the in-place reverse and the
  two binary searches, as methods over Dafny arrays.
- `InternalApi` models the PX1076 walker's memoised internal-API resolution. The resolution
  follows base types, containing types and override chains.
- `ChangesClassifier` models the span arithmetic of `DocumentChangesClassifier`.
- `SuppressMessages`, `GraphEventInfo`, `PairOfViewsRule`, `BqlFieldRedeclarationFix` and
  `CodeGeneration` model `SuppressMessage`, `GraphEventInfoBase.DacName`,
  `PairOfViewsWithSpecialNamesGraphRule`, the PX1067 code fix and the syntax generators.

The supporting modules are:

- `Wrappers`: `Option`, `Result`, `Filter` and the thrown exceptions.
- `Text`: ordinal and ASCII case-insensitive string helpers.
- `Symbols`: the Roslyn symbol table as finite maps.
- `AttributeInfos`: `DacPropertyInfo`, `DacFieldAttributeInfo`, `TypesCompatibility` and
  `CategorizedAttributes` as datatypes.

Each operation is modelled in the source's own form:

- A throwing operation returns a `Result`.
- A reported diagnostic is an element of a returned sequence.
- A loop becomes a method, proved equal to a specification function.
- A mutable dictionary field becomes a `map` field of a class.

## Model

| member | source | states |
|---|---|---|
| ArrayExtensions.ArrayCopy | src/Acuminator/Acuminator.Utilities/Common/ArrayExtensions.cs:21 | Array.Copy: the target range holds the source range, and every other cell of the target keeps its value |
| ArrayExtensions.Copy | src/Acuminator/Acuminator.Utilities/Common/ArrayExtensions.cs:8-23 | a fresh array of `min(length, Length - start)` elements equal to `a[start..]` |
| ArrayExtensions.ValueEquals | src/Acuminator/Acuminator.Utilities/Common/ArrayExtensions.cs:25-46 | true iff both are the same reference, or both are non-null with equal contents |
| ArrayExtensions.InsertedAt | src/Acuminator/Acuminator.Utilities/Common/ArrayExtensions.cs:48-84 | the specification of insertion: the prefix, then the items, then the shifted suffix, with length `|s| + |items|` |
| ArrayExtensions.InsertAt | src/Acuminator/Acuminator.Utilities/Common/ArrayExtensions.cs:48-64 | a fresh array equal to `a[..p] + [item] + a[p..]` |
| ArrayExtensions.Append | src/Acuminator/Acuminator.Utilities/Common/ArrayExtensions.cs:66 | a fresh array equal to `a[..] + [item]` |
| ArrayExtensions.InsertItemsAt | src/Acuminator/Acuminator.Utilities/Common/ArrayExtensions.cs:68-84 | a fresh array equal to `a[..p] + items + a[p..]` |
| ArrayExtensions.AppendItems | src/Acuminator/Acuminator.Utilities/Common/ArrayExtensions.cs:86 | a fresh array equal to `a[..] + items[..]` |
| ArrayExtensions.ClampedLength | src/Acuminator/Acuminator.Utilities/Common/ArrayExtensions.cs:92-95 | the removed length is the requested length, clamped to the tail after the position |
| ArrayExtensions.RemovedRange | src/Acuminator/Acuminator.Utilities/Common/ArrayExtensions.cs:90-110 | the specification of removal: the prefix is kept and the rest is shifted down by the clamped length |
| ArrayExtensions.RemoveRange | src/Acuminator/Acuminator.Utilities/Common/ArrayExtensions.cs:90-110 | a fresh array equal to the input with the clamped range removed; the input is not modified |
| ArrayExtensions.RemoveAt | src/Acuminator/Acuminator.Utilities/Common/ArrayExtensions.cs:88 | removal of the one element at the position |
| ArrayExtensions.RemoveUndoesInsert | src/Acuminator/Acuminator.Utilities/Common/ArrayExtensions.cs:48-110 | removing the element just inserted at `p` gives back the original sequence |
| ArrayExtensions.ReplaceAt | src/Acuminator/Acuminator.Utilities/Common/ArrayExtensions.cs:112-118 | a fresh array that differs from the input only at the position, which holds the item |
| ArrayExtensions.ReplaceRange | src/Acuminator/Acuminator.Utilities/Common/ArrayExtensions.cs:120-121 | a fresh array equal to remove-then-insert at the position |
| ArrayExtensions.ReplaceIsRemoveThenInsert | src/Acuminator/Acuminator.Utilities/Common/ArrayExtensions.cs:112-121 | replacing one element equals removing it and inserting the item at the same place |
| ArrayExtensions.ReverseRange | src/Acuminator/Acuminator.Utilities/Common/ArrayExtensions.cs:125-133 | with count at least 2, the range is reversed in place and every other cell is unchanged; otherwise nothing changes |
| ArrayExtensions.ReverseContents | src/Acuminator/Acuminator.Utilities/Common/ArrayExtensions.cs:123 | the whole array is reversed in place |
| ArrayExtensions.ReversedIndex | src/Acuminator/Acuminator.Utilities/Common/ArrayExtensions.cs:125-133 | element `k` of the reversed sequence is element `|s| - 1 - k` of the original |
| ArrayExtensions.ReversedLength | src/Acuminator/Acuminator.Utilities/Common/ArrayExtensions.cs:125-133 | reversing keeps the length |
| ArrayExtensions.ReversedTwice | src/Acuminator/Acuminator.Utilities/Common/ArrayExtensions.cs:123-133 | reversing twice gives back the original |
| ArrayExtensions.BinarySearch | src/Acuminator/Acuminator.Utilities/Common/ArrayExtensions.cs:136-161 | on a sorted array: a non-negative result indexes the value; a negative result `~low` means the value is absent and `low` is its insertion point |
| ArrayExtensions.BinarySearchUpperBound | src/Acuminator/Acuminator.Utilities/Common/ArrayExtensions.cs:172-192 | on a sorted array: the first index whose element is greater than the value |
| AttributeInformation.AttributeInformation.constructor | src/Acuminator/Acuminator.Utils/RoslynExtensions/PXFieldAttributes/AttributeInformation.cs:20-25 | keeps the symbol table and the PX context |
| AttributeInformation.ContainsBaseType | src/Acuminator/Acuminator.Utils/RoslynExtensions/PXFieldAttributes/AttributeInformation.cs:27-36 | true iff the type is the attribute type itself or one of its base types |
| AttributeInformation.AttributeInformation.AttributeDerivedFromClass | src/Acuminator/Acuminator.Utils/RoslynExtensions/PXFieldAttributes/AttributeInformation.cs:38-66 | false for a depth outside 1..100; true when the type is in the attribute's base-types-and-self chain; otherwise the recursion over aggregated attributes with `--depth` per sibling |
| AttributeInformation.DerivedFromClassIsSound | src/Acuminator/Acuminator.Utils/RoslynExtensions/PXFieldAttributes/AttributeInformation.cs:38-66 | a true answer means the depth was valid and the type is reachable through at most `depth - 1` aggregation steps |
| AttributeInformation.SiblingsAreSound | src/Acuminator/Acuminator.Utils/RoslynExtensions/PXFieldAttributes/AttributeInformation.cs:54-64 | a true answer from the sibling loop comes from some sibling from which the type is reachable with two levels fewer |
| AttributeInformation.ReachableWithinMonotone | src/Acuminator/Acuminator.Utils/RoslynExtensions/PXFieldAttributes/AttributeInformation.cs:38-66 | reachability within `m` steps implies reachability within any larger bound |
| AttributeInformation.DepthOneSeesOnlyTheHierarchy | src/Acuminator/Acuminator.Utils/RoslynExtensions/PXFieldAttributes/AttributeInformation.cs:38-63 | at depth 1 the answer is exactly ContainsBaseType, because the first decrement ends the loop |
| AttributeInformation.AttributeInformation.IsBoundAttribute | src/Acuminator/Acuminator.Utils/RoslynExtensions/PXFieldAttributes/AttributeInformation.cs:68-74 | AttributeDerivedFromClass against PXDBFieldAttribute with the default depth 10; true whenever PXDBFieldAttribute is in the chain |
| AttributeInformation.AttributeInformation.AreBoundAttributes | src/Acuminator/Acuminator.Utils/RoslynExtensions/PXFieldAttributes/AttributeInformation.cs:86-94 | true iff some attribute of the sequence is bound |
| AttributeRelations.IsAcumaticaAttribute | src/Acuminator/Acuminator.Utilities/Roslyn/PXFieldAttributes/AcumaticaAttributesRelationsInfoProvider.cs:37-50 | true iff PXEventSubscriberAttribute is the type itself or one of its base types |
| AttributeRelations.IsAggregatorAttribute | src/Acuminator/Acuminator.Utilities/Roslyn/PXFieldAttributes/AcumaticaAttributesRelationsInfoProvider.cs:60-61 | true iff PXAggregateAttribute is the type itself or one of its base types |
| AttributeRelations.IsDerivedFromAttribute | src/Acuminator/Acuminator.Utilities/Roslyn/PXFieldAttributes/AcumaticaAttributesRelationsInfoProvider.cs:109-129 | true whenever the type is or inherits from the target; any other true answer comes from an aggregator within the depth limit (DerivedIffAggregationChain gives the exact condition) |
| AttributeRelations.EqualsOrAggregatesAttributeDirectly | src/Acuminator/Acuminator.Utilities/Roslyn/PXFieldAttributes/AcumaticaAttributesRelationsInfoProvider.cs:330-350 | true whenever the type is the target; any other true answer comes from an aggregator within the depth limit (DirectIffAggregationChain gives the exact condition) |
| AttributeRelations.DeclaredAreDerived | src/Acuminator/Acuminator.Utilities/Roslyn/PXFieldAttributes/AcumaticaAttributesRelationsInfoProvider.cs:352-354 | every attribute declared on the class hierarchy that is collected derives from PXEventSubscriberAttribute |
| AttributeRelations.AnyDerivedIffSome | src/Acuminator/Acuminator.Utilities/Roslyn/PXFieldAttributes/AcumaticaAttributesRelationsInfoProvider.cs:117-125 | the `Any` over aggregated attributes holds iff some element derives from the target |
| AttributeRelations.AnyDirectIffSome | src/Acuminator/Acuminator.Utilities/Roslyn/PXFieldAttributes/AcumaticaAttributesRelationsInfoProvider.cs:337-346 | the `Any` over aggregated attributes holds iff some element equals or aggregates the target |
| AttributeRelations.DerivedGivesChain | src/Acuminator/Acuminator.Utilities/Roslyn/PXFieldAttributes/AcumaticaAttributesRelationsInfoProvider.cs:109-129 | a true IsDerivedFromAttribute yields a chain of direct aggregations, within the depth budget, whose last element inherits from the target |
| AttributeRelations.ChainGivesDerived | src/Acuminator/Acuminator.Utilities/Roslyn/PXFieldAttributes/AcumaticaAttributesRelationsInfoProvider.cs:109-129 | such a chain makes IsDerivedFromAttribute true |
| AttributeRelations.DerivedIffAggregationChain | src/Acuminator/Acuminator.Utilities/Roslyn/PXFieldAttributes/AcumaticaAttributesRelationsInfoProvider.cs:109-129 | IsDerivedFromAttribute holds iff the target is reached through a chain of aggregations no longer than the depth limit 50 allows |
| AttributeRelations.DerivedThroughAggregated | src/Acuminator/Acuminator.Utilities/Roslyn/PXFieldAttributes/AcumaticaAttributesRelationsInfoProvider.cs:120-128 | deriving from the target through a directly aggregated attribute, one level deeper, counts for the aggregator |
| AttributeRelations.DirectGivesChain | src/Acuminator/Acuminator.Utilities/Roslyn/PXFieldAttributes/AcumaticaAttributesRelationsInfoProvider.cs:325-350 | a true EqualsOrAggregatesAttributeDirectly yields a chain of aggregations ending exactly at the target |
| AttributeRelations.ChainGivesDirect | src/Acuminator/Acuminator.Utilities/Roslyn/PXFieldAttributes/AcumaticaAttributesRelationsInfoProvider.cs:325-350 | such a chain makes EqualsOrAggregatesAttributeDirectly true |
| AttributeRelations.DirectIffAggregationChain | src/Acuminator/Acuminator.Utilities/Roslyn/PXFieldAttributes/AcumaticaAttributesRelationsInfoProvider.cs:325-350 | EqualsOrAggregatesAttributeDirectly holds iff an aggregation chain within the depth limit ends at the target |
| AttributeRelations.DirectThroughAggregated | src/Acuminator/Acuminator.Utilities/Roslyn/PXFieldAttributes/AcumaticaAttributesRelationsInfoProvider.cs:340-349 | equality reached through a directly aggregated attribute, one level deeper, counts for the aggregator |
| AttributeRelations.DirectAggregationImpliesDerivation | src/Acuminator/Acuminator.Utilities/Roslyn/PXFieldAttributes/AcumaticaAttributesRelationsInfoProvider.cs:109-350 | equal-or-aggregates implies derived-or-aggregates at the same depth |
| AttributeRelations.IsDerivedFromOrAggregatesAttribute | src/Acuminator/Acuminator.Utilities/Roslyn/PXFieldAttributes/AcumaticaAttributesRelationsInfoProvider.cs:80-86 | false when either argument is not an Acumatica attribute; otherwise true iff an aggregation chain within 52 reaches a type inheriting from the target |
| AttributeRelations.IsDerivedFromOrAggregatesAttributeUnsafe | src/Acuminator/Acuminator.Utilities/Roslyn/PXFieldAttributes/AcumaticaAttributesRelationsInfoProvider.cs:105-107 | the same decision without the Acumatica-attribute checks |
| AttributeRelations.EqualsOrAggregatesAttribute | src/Acuminator/Acuminator.Utilities/Roslyn/PXFieldAttributes/AcumaticaAttributesRelationsInfoProvider.cs:325-328 | true iff an aggregation chain within the depth limit ends exactly at the target |
| AttributeRelations.ClosureOfAllCovers | src/Acuminator/Acuminator.Utilities/Roslyn/PXFieldAttributes/AcumaticaAttributesRelationsInfoProvider.cs:184-211 | what one declared attribute can reach is part of what the whole declared list can reach |
| AttributeRelations.ClosureOfDeclared | src/Acuminator/Acuminator.Utilities/Roslyn/PXFieldAttributes/AcumaticaAttributesRelationsInfoProvider.cs:200-210 | what an aggregator's declared attribute reaches with fuel `n` is part of what the aggregator reaches with fuel `n + 1` |
| AttributeRelations.RootNotInClosure | src/Acuminator/Acuminator.Utilities/Roslyn/PXFieldAttributes/AcumaticaAttributesRelationsInfoProvider.cs:191-197 | PXEventSubscriberAttribute is never collected from an attribute derived from it |
| AttributeRelations.RootNotInClosureOfAll | src/Acuminator/Acuminator.Utilities/Roslyn/PXFieldAttributes/AcumaticaAttributesRelationsInfoProvider.cs:191-197 | PXEventSubscriberAttribute is never collected from a list of attributes derived from it |
| AttributeRelations.CollectAggregatedAttributes | src/Acuminator/Acuminator.Utilities/Roslyn/PXFieldAttributes/AcumaticaAttributesRelationsInfoProvider.cs:184-211 | the recursive local function: the result contains the input set and the attribute; an attribute already present changes nothing; everything added is within the attribute's closure for the remaining depth |
| AttributeRelations.GetThisAndAllAggregatedAttributes | src/Acuminator/Acuminator.Utilities/Roslyn/PXFieldAttributes/AcumaticaAttributesRelationsInfoProvider.cs:145-212 | empty for null, for PXEventSubscriberAttribute and for non-Acumatica types; a plain attribute gives `{itself}`, or its base chain below the root; an aggregator gives its start set and every declared attribute, and nothing outside their 51-level closure; the root never appears |
| AttributeRelations.AcumaticaApplicationsMembership | src/Acuminator/Acuminator.Utilities/Roslyn/PXFieldAttributes/AcumaticaAttributesRelationsInfoProvider.cs:280-312 | an application is collected iff it is on the type, its class resolves, and that class inherits from PXEventSubscriberAttribute |
| AttributeRelations.ClosureWithApplicationsOfAllCovers | src/Acuminator/Acuminator.Utilities/Roslyn/PXFieldAttributes/AcumaticaAttributesRelationsInfoProvider.cs:280-312 | the applications variant of ClosureOfAllCovers |
| AttributeRelations.ClosureWithApplicationsOfDeclared | src/Acuminator/Acuminator.Utilities/Roslyn/PXFieldAttributes/AcumaticaAttributesRelationsInfoProvider.cs:280-312 | the applications variant of ClosureOfDeclared |
| AttributeRelations.RootNotInClosureWithApplications | src/Acuminator/Acuminator.Utilities/Roslyn/PXFieldAttributes/AcumaticaAttributesRelationsInfoProvider.cs:292-297 | no collected entry has PXEventSubscriberAttribute as its type |
| AttributeRelations.RootNotInClosureWithApplicationsOfAll | src/Acuminator/Acuminator.Utilities/Roslyn/PXFieldAttributes/AcumaticaAttributesRelationsInfoProvider.cs:292-297 | the same for a list of declared applications |
| AttributeRelations.CollectAggregatedAttributeWithApplications | src/Acuminator/Acuminator.Utilities/Roslyn/PXFieldAttributes/AcumaticaAttributesRelationsInfoProvider.cs:280-312 | the applications variant of CollectAggregatedAttributes |
| AttributeRelations.GetThisAndAllAggregatedAttributesWithApplications | src/Acuminator/Acuminator.Utilities/Roslyn/PXFieldAttributes/AcumaticaAttributesRelationsInfoProvider.cs:229-313 | empty for null, an unresolved class, the root or a non-Acumatica class; a plain attribute gives its own entry or its base chain, all with its application; an aggregator gives its start set and every Acumatica application on its hierarchy, within their closure; no entry has the root as its type |
| AttributeRelations.FieldTypeItemsFacts | src/Acuminator/Acuminator.Utilities/Roslyn/PXFieldAttributes/AcumaticaAttributesRelationsInfoProvider.cs:356-393 | an attribute is a type attribute iff it has a field-type metadata item; its data types are the non-null types of those items; the one-item shortcut agrees with the general case |
| AttributeRelations.FilterTypeAttributes | src/Acuminator/Acuminator.Utilities/Roslyn/PXFieldAttributes/AcumaticaAttributesRelationsInfoProvider.cs:356-393 | the loop's two lists and its flag equal the categorisation defined by filters |
| AttributeRelations.CategorizeMembership | src/Acuminator/Acuminator.Utilities/Roslyn/PXFieldAttributes/AcumaticaAttributesRelationsInfoProvider.cs:356-393 | an attribute is listed iff it has field-type metadata; it is a conflicting aggregator iff it has more than one data type; HasNonNullDataType iff a listed attribute has a data type |
| AttributeRelations.ConflictsAreTypeAttributes | src/Acuminator/Acuminator.Utilities/Roslyn/PXFieldAttributes/AcumaticaAttributesRelationsInfoProvider.cs:356-393 | the conflicting aggregators are a sub-list of the type attributes |
| AttributeRelations.CheckCompatibility | src/Acuminator/Acuminator.Utilities/Roslyn/PXFieldAttributes/AcumaticaAttributesRelationsInfoProvider.cs:395-421 | MissingTypeAnnotation iff no data type; CompatibleTypes iff the only data type is the unwrapped property type; IncompatibleTypes otherwise |
| DacPropertyAttributes.AttributeDiagnostics | src/Acuminator/Acuminator.Analyzers/StaticAnalysis/DacPropertyAttributes/DacPropertyAttributesAnalyzer.cs:259-271 | one PX1023 per attribute that has a location, and nothing else |
| DacPropertyAttributes.CountCalcedOnDbSide | src/Acuminator/Acuminator.Analyzers/StaticAnalysis/DacPropertyAttributes/DacPropertyAttributesAnalyzer.cs:107-116 | the per-attribute counter stops at 2 and is otherwise the number of calced-on-DB-side metadata items |
| DacPropertyAttributes.FilterAttributeInfosCalcedOnDbSide | src/Acuminator/Acuminator.Analyzers/StaticAnalysis/DacPropertyAttributes/DacPropertyAttributesAnalyzer.cs:100-132 | the two lists are the calced-on-DB-side attributes and those with several such items |
| DacPropertyAttributes.CalcedOnDbSideCheck | src/Acuminator/Acuminator.Analyzers/StaticAnalysis/DacPropertyAttributes/DacPropertyAttributesAnalyzer.cs:67-98 | a passing check reports nothing; `placement` picks the list the aggregator PX1023 is registered for: the calced attributes, as the code is written, or the conflicting aggregators, as intended |
| DacPropertyAttributes.CalcedOnDbSideVerdict | src/Acuminator/Acuminator.Analyzers/StaticAnalysis/DacPropertyAttributes/DacPropertyAttributesAnalyzer.cs:67-98 | the check fails iff boundness is not DbBound, Unbound or NotDefined, and either two attributes are calced on the DB side or one has several calced items |
| DacPropertyAttributes.CalcedOnDbSideDiagnostics | src/Acuminator/Acuminator.Analyzers/StaticAnalysis/DacPropertyAttributes/DacPropertyAttributesAnalyzer.cs:85-95 | every diagnostic is one of the two calced-on-DB-side PX1023s, located at a calced-on-DB-side attribute |
| DacPropertyAttributes.CalcedPropertyDiagnosticAt | src/Acuminator/Acuminator.Analyzers/StaticAnalysis/DacPropertyAttributes/DacPropertyAttributesAnalyzer.cs:85-89 | the property PX1023 is at a location iff the boundness allows calced attributes, two attributes are calced on the DB side, and a calced attribute is located there |
| DacPropertyAttributes.CalcedAggregatorDiagnosticAsPlaced | src/Acuminator/Acuminator.Analyzers/StaticAnalysis/DacPropertyAttributes/DacPropertyAttributesAnalyzer.cs:91-95 | as written, the aggregator PX1023 is at a location iff the boundness allows calced attributes, some attribute has several calced items, and a calced attribute, aggregator or not, is located there |
| DacPropertyAttributes.CalcedAggregatorDiagnosticAt | src/Acuminator/Acuminator.Analyzers/StaticAnalysis/DacPropertyAttributes/DacPropertyAttributesAnalyzer.cs:91-95 | as intended, the aggregator PX1023 is at a location iff the boundness allows calced attributes and an attribute with several calced items is located there |
| DacPropertyAttributes.CheckForMultipleAttributesCalcedOnDbSide | src/Acuminator/Acuminator.Analyzers/StaticAnalysis/DacPropertyAttributes/DacPropertyAttributesAnalyzer.cs:67-133 | the loop method returns the verdict and diagnostics of CalcedOnDbSideCheck |
| DacPropertyAttributes.CalcedAndUnboundDiagnostics | src/Acuminator/Acuminator.Analyzers/StaticAnalysis/DacPropertyAttributes/DacPropertyAttributesAnalyzer.cs:135-181 | PX1095 for PXDBCalced (or PXDBScalar) at the property identifier iff the boundness is not DbBound, Unbound or NotDefined, such an attribute exists and no attribute is Unbound; at most two diagnostics |
| DacPropertyAttributes.CheckForCalcedOnDbSideAndUnboundTypeAttributes | src/Acuminator/Acuminator.Analyzers/StaticAnalysis/DacPropertyAttributes/DacPropertyAttributesAnalyzer.cs:135-181 | the flag loop computes CalcedAndUnboundDiagnostics |
| DacPropertyAttributes.IncompatibleTypesDiagnostics | src/Acuminator/Acuminator.Analyzers/StaticAnalysis/DacPropertyAttributes/DacPropertyAttributesAnalyzer.cs:231-257 | at most two PX1021s, one at the property type and one at the attribute, each with the other as its additional location |
| DacPropertyAttributes.CompatibilityDiagnostics | src/Acuminator/Acuminator.Analyzers/StaticAnalysis/DacPropertyAttributes/DacPropertyAttributesAnalyzer.cs:215-229 | nothing for CompatibleTypes; otherwise exactly the two-location PX1021 pair, with a code fix iff the types are IncompatibleTypes (MissingTypeAnnotation gets none) |
| DacPropertyAttributes.FieldTypeDiagnostics | src/Acuminator/Acuminator.Analyzers/StaticAnalysis/DacPropertyAttributes/DacPropertyAttributesAnalyzer.cs:183-213 | the field-type check reports only PX1021 or the type-attribute PX1023s; partners TypeAggregatorDiagnosticAt, TypePropertyDiagnosticAt, TypeMismatchReported and TypeMismatchConditions state where each is reported |
| DacPropertyAttributes.HasNonNullDataTypeIsTypeAttribute | src/Acuminator/Acuminator.Utilities/Roslyn/PXFieldAttributes/AcumaticaAttributesRelationsInfoProvider.cs:356-393 | a property with a non-null data type has a type attribute |
| DacPropertyAttributes.TypeAggregatorDiagnosticAt | src/Acuminator/Acuminator.Analyzers/StaticAnalysis/DacPropertyAttributes/DacPropertyAttributesAnalyzer.cs:186-201 | the aggregator PX1023 is at a location iff the boundness is not NotDefined, some type attribute has a data type, and an attribute with conflicting data types is located there |
| DacPropertyAttributes.TypePropertyDiagnosticAt | src/Acuminator/Acuminator.Analyzers/StaticAnalysis/DacPropertyAttributes/DacPropertyAttributesAnalyzer.cs:186-206 | the property PX1023 is at a location iff the field-type check runs, two attributes are type attributes, and a type attribute is located there |
| DacPropertyAttributes.TypeMismatchReported | src/Acuminator/Acuminator.Analyzers/StaticAnalysis/DacPropertyAttributes/DacPropertyAttributesAnalyzer.cs:186-212 | with a single type attribute that has a data type and no aggregator conflict, the diagnostics are exactly those of the compatibility check of that attribute |
| DacPropertyAttributes.TypeMismatchConditions | src/Acuminator/Acuminator.Analyzers/StaticAnalysis/DacPropertyAttributes/DacPropertyAttributesAnalyzer.cs:183-229 | a PX1021 needs boundness other than NotDefined, a single type attribute whose data type is not the property type (a code fix iff it has a data type), and no aggregator conflict |
| DacPropertyAttributes.Diagnostics | src/Acuminator/Acuminator.Analyzers/StaticAnalysis/DacPropertyAttributes/DacPropertyAttributesAnalyzer.cs:43-65 | a property without attributes carrying aggregated metadata gets no diagnostic |
| DacPropertyAttributes.PlacementAffectsOnlyAggregatorDiagnostics | src/Acuminator/Acuminator.Analyzers/StaticAnalysis/DacPropertyAttributes/DacPropertyAttributesAnalyzer.cs:43-98 | the as-written and the intended pipelines agree on every diagnostic except the calced aggregator PX1023 |
| DacPropertyAttributes.BoundnessSkipsCalcedChecks | src/Acuminator/Acuminator.Analyzers/StaticAnalysis/DacPropertyAttributes/DacPropertyAttributesAnalyzer.cs:67-142 | for DbBound, Unbound or NotDefined boundness no calced-on-DB-side diagnostic is reported |
| DacPropertyAttributes.CalcedConflictSuppressesLaterChecks | src/Acuminator/Acuminator.Analyzers/StaticAnalysis/DacPropertyAttributes/DacPropertyAttributesAnalyzer.cs:56-64 | once the calced-on-DB-side check fails, only its PX1023s are reported |
| DacPropertyAttributes.PXDBCalcedNeedsNoUnbound | src/Acuminator/Acuminator.Analyzers/StaticAnalysis/DacPropertyAttributes/DacPropertyAttributesAnalyzer.cs:144-180 | a PX1095 for PXDBCalced means a PXDBCalced attribute exists, no attribute is Unbound, and the location is the property identifier |
| DacPropertyAttributes.CheckDacProperty | src/Acuminator/Acuminator.Analyzers/StaticAnalysis/DacPropertyAttributes/DacPropertyAttributesAnalyzer.cs:43-65 | the method computes the property's diagnostics as the code is written, with the aggregator PX1023 at the calced attributes, in the source's order of checks |
| DacPropertyAttributes.Analyze | src/Acuminator/Acuminator.Analyzers/StaticAnalysis/DacPropertyAttributes/DacPropertyAttributesAnalyzer.cs:35-41 | as written: a diagnostic is reported iff some declared property of the DAC gets it from CheckDacProperty |
| DacPropertyAttributes.AggregatorDiagnosticAtNonAggregator | src/Acuminator/Acuminator.Analyzers/StaticAnalysis/DacPropertyAttributes/DacPropertyAttributesAnalyzer.cs:91-95 | for a PXDBCalced property with a plain calced attribute at 101 and a conflicting aggregator at 102, the code as written reports the aggregator PX1023 at both 101 and 102; the intended check reports it at 102 only |
| DacSemanticModels.DacSemanticModel.DeclaredDacProperties | src/Acuminator/Acuminator.Utilities/Roslyn/Semantic/SemanticModel/Dac/DacSemanticModel.cs:55 | the declared properties that are also DAC properties |
| DacSemanticModels.DacSemanticModel.PropertyByName | src/Acuminator/Acuminator.Analyzers/StaticAnalysis/DacFieldAndReferencedFieldMismatch/DacFieldAndReferencedFieldMismatchAnalyzer.cs:68 | a found property is one of the model's properties |
| DacSemanticModels.CaseInsensitiveMapOk | src/Acuminator/Acuminator.Utilities/Roslyn/Semantic/SemanticModel/Dac/DacSemanticModel.cs:169-178 | building the OrdinalIgnoreCase dictionary succeeds iff no two entries have names equal up to case with different values |
| DacSemanticModels.CaseInsensitiveMapFinds | src/Acuminator/Acuminator.Utilities/Roslyn/Semantic/SemanticModel/Dac/DacSemanticModel.cs:169-178 | every entry can be found under its name, whatever the case |
| DacSemanticModels.CaseInsensitiveMapKey | src/Acuminator/Acuminator.Utilities/Roslyn/Semantic/SemanticModel/Dac/DacSemanticModel.cs:169-178 | every key comes from some entry |
| DacSemanticModels.DacAttributes | src/Acuminator/Acuminator.Utilities/Roslyn/Semantic/SemanticModel/Dac/DacSemanticModel.cs:147-159 | one info per class attribute, numbered by its position |
| DacSemanticModels.CheckIfDacIsProjection | src/Acuminator/Acuminator.Utilities/Roslyn/Semantic/SemanticModel/Dac/DacSemanticModel.cs:189-195 | never for an extension or an empty attribute list; otherwise iff some attribute is PXProjection |
| DacSemanticModels.NewModel | src/Acuminator/Acuminator.Utilities/Roslyn/Semantic/SemanticModel/Dac/DacSemanticModel.cs:76-98 | DacSymbol is the symbol for a DAC and the base DAC for an extension; IsActive is null for DACs; IsFullyUnbound iff every DAC property is Unbound or NotDefined; IsProjectionDac iff a DAC has a PXProjection attribute |
| DacSemanticModels.InferModel | src/Acuminator/Acuminator.Utilities/Roslyn/Semantic/SemanticModel/Dac/DacSemanticModel.cs:108-127 | null unless the type is a DAC or a DAC extension with a class declaration; DAC classification wins over extension |
| DacSemanticModels.InferModelFails | src/Acuminator/Acuminator.Utilities/Roslyn/Semantic/SemanticModel/Dac/DacSemanticModel.cs:108-178 | inference throws iff a model would be built and two field or property names collide up to case |
| DacSemanticModels.InferredPropertiesByName | src/Acuminator/Acuminator.Utilities/Roslyn/Semantic/SemanticModel/Dac/DacSemanticModel.cs:169-178 | a collected property is found by any spelling of its name that differs only in case |
| DacSemanticModels.InferredPropertiesAreCollected | src/Acuminator/Acuminator.Utilities/Roslyn/Semantic/SemanticModel/Dac/DacSemanticModel.cs:161-178 | the model's properties are exactly the collected ones |
| DacSemanticModels.InferredFieldsAreCollected | src/Acuminator/Acuminator.Utilities/Roslyn/Semantic/SemanticModel/Dac/DacSemanticModel.cs:161-178 | the model's fields are exactly the collected ones |
| DacSemanticModels.InferredPropertyByNameIsCollected | src/Acuminator/Acuminator.Utilities/Roslyn/Semantic/SemanticModel/Dac/DacSemanticModel.cs:169-178 | a lookup by name answers with a collected property whose name equals it up to case, and fails only when no collected property has such a name |
| DacSemanticModels.InferredPropertyViews | src/Acuminator/Acuminator.Utilities/Roslyn/Semantic/SemanticModel/Dac/DacSemanticModel.cs:51-55 | the DAC properties are the collected DAC properties; the declared ones are the collected ones whose containing type is the model's type; the declared DAC properties are both |
| DacSemanticModels.InferredDeclaredFields | src/Acuminator/Acuminator.Utilities/Roslyn/Semantic/SemanticModel/Dac/DacSemanticModel.cs:60 | the declared fields are the collected fields whose containing type is the model's type |
| DacSemanticModels.InferredProjection | src/Acuminator/Acuminator.Utilities/Roslyn/Semantic/SemanticModel/Dac/DacSemanticModel.cs:97 | a built model is a projection iff the type is a DAC carrying a PXProjection attribute |
| ReferencedFieldMismatch.TryGetForeignReferenceAttribute | src/Acuminator/Acuminator.Analyzers/StaticAnalysis/DacFieldAndReferencedFieldMismatch/DacFieldAndReferencedFieldMismatchAnalyzer.cs:53-54 | the first attribute that flattens to PXSelectorAttribute; none iff no attribute does |
| ReferencedFieldMismatch.PropertiesToCheck | src/Acuminator/Acuminator.Analyzers/StaticAnalysis/DacFieldAndReferencedFieldMismatch/DacFieldAndReferencedFieldMismatchAnalyzer.cs:38-41 | exactly the properties whose unwrapped type is not excluded and that carry a selector, each paired with that selector |
| ReferencedFieldMismatch.BelowObject | src/Acuminator/Acuminator.Analyzers/StaticAnalysis/DacFieldAndReferencedFieldMismatch/DacFieldAndReferencedFieldMismatchAnalyzer.cs:157 | TakeWhile: the longest prefix of the chain without System.Object; the element after it, if any, is System.Object |
| ReferencedFieldMismatch.FirstBqlFieldArgument | src/Acuminator/Acuminator.Analyzers/StaticAnalysis/DacFieldAndReferencedFieldMismatch/DacFieldAndReferencedFieldMismatchAnalyzer.cs:161 | the first type argument that is a DAC BQL field (every earlier one is not), or none when no argument is |
| ReferencedFieldMismatch.FieldFromSearchChain | src/Acuminator/Acuminator.Analyzers/StaticAnalysis/DacFieldAndReferencedFieldMismatch/DacFieldAndReferencedFieldMismatchAnalyzer.cs:159-163 | the BQL field argument of the first Search type in the given order that has one; none iff no type of the chain has one |
| ReferencedFieldMismatch.Reverse | src/Acuminator/Acuminator.Analyzers/StaticAnalysis/DacFieldAndReferencedFieldMismatch/DacFieldAndReferencedFieldMismatchAnalyzer.cs:159 | element `i` of the result is element `|s| - 1 - i` of the input |
| ReferencedFieldMismatch.FarthestSearchType | src/Acuminator/Acuminator.Analyzers/StaticAnalysis/DacFieldAndReferencedFieldMismatch/DacFieldAndReferencedFieldMismatchAnalyzer.cs:154-164 | walking the reversed chain picks the Search type farthest down the inheritance chain that has a BQL field argument; none iff no type has one |
| ReferencedFieldMismatch.ExtractForeignFieldSymbolFromBqlSearch | src/Acuminator/Acuminator.Analyzers/StaticAnalysis/DacFieldAndReferencedFieldMismatch/DacFieldAndReferencedFieldMismatchAnalyzer.cs:154-164 | the BQL field argument of the farthest Search type in the base chain below System.Object; none iff no type of the chain has one |
| ReferencedFieldMismatch.ExtractForeignFieldSymbol | src/Acuminator/Acuminator.Analyzers/StaticAnalysis/DacFieldAndReferencedFieldMismatch/DacFieldAndReferencedFieldMismatchAnalyzer.cs:141-152 | no type argument gives none; a non-generic type is the field itself when it has a containing type; a generic type gives the Search extraction, when that field has a containing type |
| ReferencedFieldMismatch.LengthParameterIndex | src/Acuminator/Acuminator.Analyzers/StaticAnalysis/DacFieldAndReferencedFieldMismatch/DacFieldAndReferencedFieldMismatchAnalyzer.cs:200-204 | the index of the first `int` parameter named `length` or `size` ignoring case, or -1 when none is |
| ReferencedFieldMismatch.GetLengthConstructorArgument | src/Acuminator/Acuminator.Analyzers/StaticAnalysis/DacFieldAndReferencedFieldMismatch/DacFieldAndReferencedFieldMismatchAnalyzer.cs:185-209 | null for an unresolved class; the hard-coded length wins; otherwise a length-bearing class with a matching parameter whose argument is an `int` |
| ReferencedFieldMismatch.DeclaredLengthsMembership | src/Acuminator/Acuminator.Analyzers/StaticAnalysis/DacFieldAndReferencedFieldMismatch/DacFieldAndReferencedFieldMismatchAnalyzer.cs:168-171 | a length is collected iff some flattened application declares it |
| ReferencedFieldMismatch.Distinct | src/Acuminator/Acuminator.Analyzers/StaticAnalysis/DacFieldAndReferencedFieldMismatch/DacFieldAndReferencedFieldMismatchAnalyzer.cs:172 | the same values without repetition |
| ReferencedFieldMismatch.GetFieldSize | src/Acuminator/Acuminator.Analyzers/StaticAnalysis/DacFieldAndReferencedFieldMismatch/DacFieldAndReferencedFieldMismatchAnalyzer.cs:166-183 | -1 when no length is declared; a size equal to every declared length; null only when two declared lengths differ |
| ReferencedFieldMismatch.DistinctCardinality | src/Acuminator/Acuminator.Analyzers/StaticAnalysis/DacFieldAndReferencedFieldMismatch/DacFieldAndReferencedFieldMismatchAnalyzer.cs:172-177 | a list without repetition is as long as its set of values |
| ReferencedFieldMismatch.LengthsOfDistinct | src/Acuminator/Acuminator.Analyzers/StaticAnalysis/DacFieldAndReferencedFieldMismatch/DacFieldAndReferencedFieldMismatchAnalyzer.cs:168-173 | the distinct declared lengths are the set of lengths the applications declare |
| ReferencedFieldMismatch.GetFieldSizeSpec | src/Acuminator/Acuminator.Analyzers/StaticAnalysis/DacFieldAndReferencedFieldMismatch/DacFieldAndReferencedFieldMismatchAnalyzer.cs:166-183 | -1 when no length is declared; the length when exactly one distinct length is; null iff there are two or more |
| ReferencedFieldMismatch.PropertyTypesAreIncompatibleAsWritten | src/Acuminator/Acuminator.Analyzers/StaticAnalysis/DacFieldAndReferencedFieldMismatch/DacFieldAndReferencedFieldMismatchAnalyzer.cs:115-129 | throws NullReferenceException iff the property has no field-type attribute and no conflicting aggregator |
| ReferencedFieldMismatch.PropertyTypesAreIncompatible | src/Acuminator/Acuminator.Analyzers/StaticAnalysis/DacFieldAndReferencedFieldMismatch/DacFieldAndReferencedFieldMismatchAnalyzer.cs:115-129 | the corrected check agrees with the code wherever the code does not throw |
| ReferencedFieldMismatch.NoMetadataThrows | src/Acuminator/Acuminator.Analyzers/StaticAnalysis/DacFieldAndReferencedFieldMismatch/DacFieldAndReferencedFieldMismatchAnalyzer.cs:117-126 | a property whose attributes have no aggregated metadata makes the code throw; the corrected check treats it as incompatible |
| ReferencedFieldMismatch.PropertyTypesAreIncompatibleSpec | src/Acuminator/Acuminator.Analyzers/StaticAnalysis/DacFieldAndReferencedFieldMismatch/DacFieldAndReferencedFieldMismatchAnalyzer.cs:115-129 | incompatible iff no attribute has conflicting data types, and either there is no type attribute or the first one's data types are not the unwrapped property type |
| ReferencedFieldMismatch.ForeignFieldSizes | src/Acuminator/Acuminator.Analyzers/StaticAnalysis/DacFieldAndReferencedFieldMismatch/DacFieldAndReferencedFieldMismatchAnalyzer.cs:89-95 | a size is listed iff some type-attribute candidate of the foreign property has that known size; at most one per attribute |
| ReferencedFieldMismatch.TypeAttributeCandidates | src/Acuminator/Acuminator.Analyzers/StaticAnalysis/DacFieldAndReferencedFieldMismatch/DacFieldAndReferencedFieldMismatchAnalyzer.cs:89-92 | exactly the attributes that are type-attribute candidates, in order |
| ReferencedFieldMismatch.KnownValuesMembership | src/Acuminator/Acuminator.Analyzers/StaticAnalysis/DacFieldAndReferencedFieldMismatch/DacFieldAndReferencedFieldMismatchAnalyzer.cs:93-95 | a value is collected iff some element has it as its known size |
| ReferencedFieldMismatch.NoKnownValue | src/Acuminator/Acuminator.Analyzers/StaticAnalysis/DacFieldAndReferencedFieldMismatch/DacFieldAndReferencedFieldMismatchAnalyzer.cs:93-99 | nothing is collected iff no element has a known size |
| ReferencedFieldMismatch.OneKnownValue | src/Acuminator/Acuminator.Analyzers/StaticAnalysis/DacFieldAndReferencedFieldMismatch/DacFieldAndReferencedFieldMismatchAnalyzer.cs:93-99 | exactly one value is collected iff exactly one element has a known size |
| ReferencedFieldMismatch.OneForeignFieldSize | src/Acuminator/Acuminator.Analyzers/StaticAnalysis/DacFieldAndReferencedFieldMismatch/DacFieldAndReferencedFieldMismatchAnalyzer.cs:89-99 | the foreign property has exactly one size iff exactly one of its type-attribute candidates has a known size |
| ReferencedFieldMismatch.SizeFindings | src/Acuminator/Acuminator.Analyzers/StaticAnalysis/DacFieldAndReferencedFieldMismatch/DacFieldAndReferencedFieldMismatchAnalyzer.cs:103-111 | a finding, expecting the foreign size, is listed iff some local type attribute has a known size different from it; at most one per attribute |
| ReferencedFieldMismatch.CompareSizes | src/Acuminator/Acuminator.Analyzers/StaticAnalysis/DacFieldAndReferencedFieldMismatch/DacFieldAndReferencedFieldMismatchAnalyzer.cs:93-111 | nothing unless the foreign property has exactly one size; otherwise the size findings against that size |
| ReferencedFieldMismatch.CompareWithForeign | src/Acuminator/Acuminator.Analyzers/StaticAnalysis/DacFieldAndReferencedFieldMismatch/DacFieldAndReferencedFieldMismatchAnalyzer.cs:71-112 | as written: differing CLR types give exactly one type mismatch; no local type attribute gives nothing; otherwise it throws iff the local property, or the foreign one when the local one is compatible, has no type item; when it does not throw it agrees with CompareWithForeignCorrected |
| ReferencedFieldMismatch.CompareWithForeignCorrected | src/Acuminator/Acuminator.Analyzers/StaticAnalysis/DacFieldAndReferencedFieldMismatch/DacFieldAndReferencedFieldMismatchAnalyzer.cs:71-112 | the intended comparison: differing CLR types give exactly one type mismatch; equal types give only size findings |
| ReferencedFieldMismatch.SizeMismatchReported | src/Acuminator/Acuminator.Analyzers/StaticAnalysis/DacFieldAndReferencedFieldMismatch/DacFieldAndReferencedFieldMismatchAnalyzer.cs:85-111 | with equal types, a finding is reported iff both properties are compatible, the foreign one has exactly one size, and a local type attribute has a different known size, the finding naming it |
| ReferencedFieldMismatch.ForeignWithoutTypeAttributeThrows | src/Acuminator/Acuminator.Analyzers/StaticAnalysis/DacFieldAndReferencedFieldMismatch/DacFieldAndReferencedFieldMismatchAnalyzer.cs:85-87 | a compatible local property compared with a foreign property that has no type item makes the code throw NullReferenceException; the intended comparison reports nothing |
| ReferencedFieldMismatch.CheckPropertySpec | src/Acuminator/Acuminator.Analyzers/StaticAnalysis/DacFieldAndReferencedFieldMismatch/DacFieldAndReferencedFieldMismatchAnalyzer.cs:56-113 | as written: nothing when the selector names no field or the field's DAC has no property of that name; the inference error when inferring the DAC throws; otherwise CompareWithForeign with the foreign property |
| ReferencedFieldMismatch.AnalyzeSpec | src/Acuminator/Acuminator.Analyzers/StaticAnalysis/DacFieldAndReferencedFieldMismatch/DacFieldAndReferencedFieldMismatchAnalyzer.cs:34-51 | the analysis throws iff some checked property throws, with that property's error; otherwise a finding is reported iff some checked property reports it |
| ReferencedFieldMismatch.ThenNothing | src/Acuminator/Acuminator.Analyzers/StaticAnalysis/DacFieldAndReferencedFieldMismatch/DacFieldAndReferencedFieldMismatchAnalyzer.cs:34-51 | no findings so far leave the rest unchanged, and nothing more keeps the findings so far |
| ReferencedFieldMismatch.ThenAssociates | src/Acuminator/Acuminator.Analyzers/StaticAnalysis/DacFieldAndReferencedFieldMismatch/DacFieldAndReferencedFieldMismatchAnalyzer.cs:34-51 | gathering findings in two steps or in one gives the same outcome |
| ReferencedFieldMismatch.StringLength | src/Acuminator/Acuminator.Analyzers/StaticAnalysis/DacFieldAndReferencedFieldMismatch/DacFieldAndReferencedFieldMismatchAnalyzer.cs:185-209 | a length-bearing attribute with an `int length` argument declares that length |
| ReferencedFieldMismatch.SingleLengthIsTheSize | src/Acuminator/Acuminator.Tests/Tests/StaticAnalysis/DacFieldAndReferencedFieldMismatch/DacFieldAndReferencedFieldMismatchTests.cs:24-36 | PXDBString(25) has size 25, and an aggregator of two PXDBString(16) has size 16 |
| ReferencedFieldMismatch.ConflictingLengthsHaveNoSize | src/Acuminator/Acuminator.Tests/Tests/StaticAnalysis/DacFieldAndReferencedFieldMismatch/DacFieldAndReferencedFieldMismatchTests.cs:24-36 | an aggregator of PXDBString(25) and PXDBString(12) has no size, so it is not reported |
| ReferencedFieldMismatch.NoLengthIsMinusOne | src/Acuminator/Acuminator.Analyzers/StaticAnalysis/DacFieldAndReferencedFieldMismatch/DacFieldAndReferencedFieldMismatchAnalyzer.cs:177-182 | an attribute without a declared length has size -1 |
| ReferencedFieldMismatch.DbStringFacts | src/Acuminator/Acuminator.Tests/Tests/StaticAnalysis/DacFieldAndReferencedFieldMismatch/Sources/MismatchedLengthDac.cs:46 | PXDBString(n) is a type-attribute candidate of size n |
| ReferencedFieldMismatch.AggregatedStringLengths | src/Acuminator/Acuminator.Tests/Tests/StaticAnalysis/DacFieldAndReferencedFieldMismatch/Sources/MismatchedLengthDac.cs:14-33 | an aggregator of PXDBString(a) and PXString(b) declares the lengths a, a and b |
| ReferencedFieldMismatch.AggregatedStringFacts | src/Acuminator/Acuminator.Tests/Tests/StaticAnalysis/DacFieldAndReferencedFieldMismatch/Sources/MismatchedLengthDac.cs:14-33 | such an aggregator is a type-attribute candidate; its size is the length when both agree and null otherwise |
| ReferencedFieldMismatch.StringPropertyConfirmed | src/Acuminator/Acuminator.Tests/Tests/StaticAnalysis/DacFieldAndReferencedFieldMismatch/Sources/MismatchedLengthDac.cs:46-52 | a string property whose attribute has only string type items is compatible |
| ReferencedFieldMismatch.SubstitutionSize | src/Acuminator/Acuminator.Tests/Tests/StaticAnalysis/DacFieldAndReferencedFieldMismatch/DacFieldAndReferencedFieldMismatchTests.cs:24-29 | the referenced SubstitutionID field has the one size 25 |
| ReferencedFieldMismatch.FixtureComparison | src/Acuminator/Acuminator.Tests/Tests/StaticAnalysis/DacFieldAndReferencedFieldMismatch/DacFieldAndReferencedFieldMismatchTests.cs:24-29 | a string property with one string type attribute gets a size finding expecting 25 iff its size is known and not 25 |
| ReferencedFieldMismatch.PaymentTermsListIDFixture | src/Acuminator/Acuminator.Tests/Tests/StaticAnalysis/DacFieldAndReferencedFieldMismatch/DacFieldAndReferencedFieldMismatchTests.cs:25 | PaymentTermsListID with PXDBString(16) gets the size finding expecting 25 |
| ReferencedFieldMismatch.Aggregated16Fixture | src/Acuminator/Acuminator.Tests/Tests/StaticAnalysis/DacFieldAndReferencedFieldMismatch/DacFieldAndReferencedFieldMismatchTests.cs:29 | Aggregated16 gets the size finding expecting 25 |
| ReferencedFieldMismatch.AggregatedOkFixture | src/Acuminator/Acuminator.Tests/Tests/StaticAnalysis/DacFieldAndReferencedFieldMismatch/Sources/MismatchedLengthDac.cs:114-120 | AggregatedOk, of size 25, gets no finding |
| ReferencedFieldMismatch.AggregatedInconsistentFixture | src/Acuminator/Acuminator.Tests/Tests/StaticAnalysis/DacFieldAndReferencedFieldMismatch/Sources/MismatchedLengthDac.cs:90-96 | AggregatedInconsistent, with lengths 25 and 12, has no size and gets no finding |
| ReferencedFieldMismatch.MismatchAnalyzer.constructor | src/Acuminator/Acuminator.Analyzers/StaticAnalysis/DacFieldAndReferencedFieldMismatch/DacFieldAndReferencedFieldMismatchAnalyzer.cs:22 | the model cache starts empty |
| ReferencedFieldMismatch.MismatchAnalyzer.GetOrInferModel | src/Acuminator/Acuminator.Analyzers/StaticAnalysis/DacFieldAndReferencedFieldMismatch/DacFieldAndReferencedFieldMismatchAnalyzer.cs:131-136 | returns the inferred model; an uncached type is added to the cache and nothing else changes; every cached model is the inferred one |
| ReferencedFieldMismatch.MismatchAnalyzer.CheckProperty | src/Acuminator/Acuminator.Analyzers/StaticAnalysis/DacFieldAndReferencedFieldMismatch/DacFieldAndReferencedFieldMismatchAnalyzer.cs:56-113 | as written: the outcome of CheckPropertySpec, with the cache kept valid |
| ReferencedFieldMismatch.MismatchAnalyzer.Analyze | src/Acuminator/Acuminator.Analyzers/StaticAnalysis/DacFieldAndReferencedFieldMismatch/DacFieldAndReferencedFieldMismatchAnalyzer.cs:34-51 | as written: the outcome of AnalyzeSpec for the properties it is given, with the cache kept valid; which declared properties it is given is an input (see Left out) |
| DacPrimaryKeyDeclaration.ShouldAnalyzeDac | src/Acuminator/Acuminator.Analyzers/StaticAnalysis/DacReferentialIntegrity/DacPrimaryKeyDeclaration/DacPrimaryKeyDeclarationAnalyzer.cs:33-34 | true iff the base conditions hold and some DAC property is a key |
| DacPrimaryKeyDeclaration.GetPrimaryKeyDeclarations | src/Acuminator/Acuminator.Analyzers/StaticAnalysis/DacReferentialIntegrity/DacPrimaryKeyDeclaration/DacPrimaryKeyDeclarationAnalyzer.cs:56-62 | empty when the DAC has no nested types |
| DacPrimaryKeyDeclaration.PrimaryKeyDeclarationsAreKeys | src/Acuminator/Acuminator.Analyzers/StaticAnalysis/DacReferentialIntegrity/DacPrimaryKeyDeclaration/DacPrimaryKeyDeclarationAnalyzer.cs:56-62 | a type is a declaration iff it is a nested type implementing IPrimaryKey |
| DacPrimaryKeyDeclaration.DeclarationLocation | src/Acuminator/Acuminator.Analyzers/StaticAnalysis/DacReferentialIntegrity/DacPrimaryKeyDeclaration/DacPrimaryKeyDeclarationAnalyzer.cs:100 | a location exists iff the declaration has syntax |
| DacPrimaryKeyDeclaration.AnalyzePrimaryKeyDeclaration | src/Acuminator/Acuminator.Analyzers/StaticAnalysis/DacReferentialIntegrity/DacPrimaryKeyDeclaration/DacPrimaryKeyDeclarationAnalyzer.cs:94-108 | at most one PX1036; one iff the name is not PK and there is syntax, at the declaration's location |
| DacPrimaryKeyDeclaration.ClassDeclarationLocations | src/Acuminator/Acuminator.Analyzers/StaticAnalysis/DacReferentialIntegrity/DacPrimaryKeyDeclaration/DacPrimaryKeyDeclarationAnalyzer.cs:80-84 | at most one location per declaration |
| DacPrimaryKeyDeclaration.ClassDeclarationLocationsMembership | src/Acuminator/Acuminator.Analyzers/StaticAnalysis/DacReferentialIntegrity/DacPrimaryKeyDeclaration/DacPrimaryKeyDeclarationAnalyzer.cs:80-84 | a location is collected iff some declaration is a class declaration with that identifier location |
| DacPrimaryKeyDeclaration.ReportMultiplePrimaryKeyDeclarations | src/Acuminator/Acuminator.Analyzers/StaticAnalysis/DacReferentialIntegrity/DacPrimaryKeyDeclaration/DacPrimaryKeyDeclarationAnalyzer.cs:76-92 | one PX1035 per collected location, in order |
| DacPrimaryKeyDeclaration.AnalyzeVerdict | src/Acuminator/Acuminator.Analyzers/StaticAnalysis/DacReferentialIntegrity/DacPrimaryKeyDeclaration/DacPrimaryKeyDeclarationAnalyzer.cs:36-108 | no declaration gives exactly one PX1033 at the DAC identifier; one gives PX1036 iff it has syntax and is not named PK; several give PX1035 exactly at the class declarations' identifiers |
| DacPrimaryKeyDeclaration.TwoKeysOneReport | src/Acuminator/Acuminator.Analyzers/StaticAnalysis/DacReferentialIntegrity/DacPrimaryKeyDeclaration/DacPrimaryKeyDeclarationAnalyzer.cs:36-108 | two keys, one a class declaration, give one PX1035; a lone PK gives nothing |
| DacPrimaryKeyDeclaration.Analyze | src/Acuminator/Acuminator.Analyzers/StaticAnalysis/DacReferentialIntegrity/DacPrimaryKeyDeclaration/DacPrimaryKeyDeclarationAnalyzer.cs:36-55 | only PX1033 without a declaration, only PX1036 with one, only PX1035 with several; never more reports than one or the number of declarations |
| InternalApi.CheckSpecialType | src/Acuminator/Acuminator.Analyzers/StaticAnalysis/CallsToInternalAPI/InternalApiCallsWalker.cs:164-187 | false exactly for the 19 listed special types |
| InternalApi.CheckMethodKind | src/Acuminator/Acuminator.Analyzers/StaticAnalysis/CallsToInternalAPI/InternalApiCallsWalker.cs:304-319 | false exactly for the 11 listed method kinds |
| InternalApi.MarkedThrough | src/Acuminator/Acuminator.Analyzers/StaticAnalysis/CallsToInternalAPI/InternalApiCallsWalker.cs:129-160 | a symbol whose base type, containing type or overridden member is marked is marked too |
| InternalApi.MarkedWithinMonotone | src/Acuminator/Acuminator.Analyzers/StaticAnalysis/CallsToInternalAPI/InternalApiCallsWalker.cs:129-160 | marking within `m` steps implies marking within any larger bound |
| InternalApi.IsolatedSymbolIsNotMarked | src/Acuminator/Acuminator.Analyzers/StaticAnalysis/CallsToInternalAPI/InternalApiCallsWalker.cs:129-160 | a symbol without PXInternalUseOnly and without dependencies is not marked |
| InternalApi.UnmarkedEventIsNotInternal | src/Acuminator/Acuminator.Analyzers/StaticAnalysis/CallsToInternalAPI/InternalApiCallsWalker.cs:97-106 | an accessible event without the attribute and without dependencies is not internal |
| InternalApi.InternalApiCache.constructor | src/Acuminator/Acuminator.Analyzers/StaticAnalysis/CallsToInternalAPI/InternalApiCallsWalker.cs:27 | the cache starts empty |
| InternalApi.InternalApiCallsWalker.constructor | src/Acuminator/Acuminator.Analyzers/StaticAnalysis/CallsToInternalAPI/InternalApiCallsWalker.cs:36-42 | the walker shares the given sound cache |
| InternalApi.InternalApiCallsWalker.CheckAttributesAndCacheForInternal | src/Acuminator/Acuminator.Analyzers/StaticAnalysis/CallsToInternalAPI/InternalApiCallsWalker.cs:321-335 | a cached answer is returned with the cache unchanged; otherwise the attribute gives true, which is cached, and its absence gives null |
| InternalApi.InternalApiCallsWalker.IsInternalApiImpl | src/Acuminator/Acuminator.Analyzers/StaticAnalysis/CallsToInternalAPI/InternalApiCallsWalker.cs:129-160 | false beyond depth 100; a cached answer is returned unchanged; otherwise the answer is cached; an attributed type is internal, and so is an uncached type whose followed base type or containing type is marked (below the depth limit); true only for marked symbols; existing entries stay |
| InternalApi.InternalApiCallsWalker.IsInternalApiType | src/Acuminator/Acuminator.Analyzers/StaticAnalysis/CallsToInternalAPI/InternalApiCallsWalker.cs:113-161 | namespaces, tuples, anonymous, inaccessible and special types are never internal; otherwise the answer is cached, an attributed type or an uncached type with a marked base or containing type is internal, and true only for marked types |
| InternalApi.InternalApiCallsWalker.IsInternalApiOverridable | src/Acuminator/Acuminator.Analyzers/StaticAnalysis/CallsToInternalAPI/InternalApiCallsWalker.cs:189-219 | the shared override-chain walk: a cached answer is returned unchanged; an attributed member, a member whose override chain reaches an attributed member, and an uncached member of a marked containing type are internal; true only for marked members |
| InternalApi.InternalApiCallsWalker.IsInternalApiProperty | src/Acuminator/Acuminator.Analyzers/StaticAnalysis/CallsToInternalAPI/InternalApiCallsWalker.cs:189-219 | inaccessible properties are not internal; an accessible property is internal when it is attributed, when its override chain reaches an attributed member, or when it is uncached and its containing type is marked; true only for marked properties |
| InternalApi.InternalApiCallsWalker.IsInternalApiEvent | src/Acuminator/Acuminator.Analyzers/StaticAnalysis/CallsToInternalAPI/InternalApiCallsWalker.cs:239-269 | inaccessible events are not internal; an accessible event is internal when it is attributed, when its override chain reaches an attributed member, or when it is uncached and its containing type is marked; true only for marked events |
| InternalApi.InternalApiCallsWalker.IsInternalApiMethod | src/Acuminator/Acuminator.Analyzers/StaticAnalysis/CallsToInternalAPI/InternalApiCallsWalker.cs:271-301 | excluded method kinds and inaccessible methods are not internal; otherwise a method is internal when it is attributed, when its override chain reaches an attributed member, or when it is uncached and its containing type is marked; true only for marked methods |
| InternalApi.InternalApiCallsWalker.IsInternalApiField | src/Acuminator/Acuminator.Analyzers/StaticAnalysis/CallsToInternalAPI/InternalApiCallsWalker.cs:221-237 | fields that cannot be referenced by name or are inaccessible are not internal; otherwise the answer is cached, an uncached field of a marked containing type is internal, and true only for marked fields |
| InternalApi.InternalApiCallsWalker.AnalyzeTypeName | src/Acuminator/Acuminator.Analyzers/StaticAnalysis/CallsToInternalAPI/InternalApiCallsWalker.cs:44-73 | a name is reported only for a marked type, and always for an attributed type that passes the filters |
| InternalApi.InternalApiCallsWalker.AnalyzeNonTypeSymbolAsWritten | src/Acuminator/Acuminator.Analyzers/StaticAnalysis/CallsToInternalAPI/InternalApiCallsWalker.cs:95-111 | as written, every event access is reported |
| InternalApi.InternalApiCallsWalker.AnalyzeNonTypeSymbol | src/Acuminator/Acuminator.Analyzers/StaticAnalysis/CallsToInternalAPI/InternalApiCallsWalker.cs:95-111 | the corrected dispatch reports only marked members, and always reports an accessible attributed property or event |
| ChangesClassifier.ContainmentMode | src/Acuminator/Acuminator.Vsix/Utils/ChangesClassification/DocumentChangesClassifier.cs:214-223 | NotContaining iff the new text is longer than the distance from the change start to the span end |
| ChangesClassifier.CountOf | src/Acuminator/Acuminator.Vsix/Utils/ChangesClassification/DocumentChangesClassifier.cs:101-118 | the count is the character's multiplicity in the text, so zero iff the character is absent |
| ChangesClassifier.BlockScope | src/Acuminator/Acuminator.Vsix/Utils/ChangesClassification/DocumentChangesClassifier.cs:101-118 | Class iff the block is directly under a member and the change covers a brace without exactly one matching brace in the new text; otherwise StatementsBlock |
| ChangesClassifier.NodeTriviaScope | src/Acuminator/Acuminator.Vsix/Utils/ChangesClassification/DocumentChangesClassifier.cs:225-245 | Trivia iff the change is a newline or whitespace change starting inside the node's leading or trailing trivia |
| ChangesClassifier.BodyFirstScopeOrder | src/Acuminator/Acuminator.Vsix/Utils/ChangesClassification/DocumentChangesClassifier.cs:145-212 | no body gives Class; a body containing the new text gives StatementsBlock; then trivia; then attribute lists give Attributes; otherwise Class |
| ChangesClassifier.AncestryScopeIsSingleFlag | src/Acuminator/Acuminator.Vsix/Utils/ChangesClassification/DocumentChangesClassifier.cs:66-99 | the walk up the ancestors always yields exactly one scope flag |
| ChangesClassifier.FirstDecidingNodeDecides | src/Acuminator/Acuminator.Vsix/Utils/ChangesClassification/DocumentChangesClassifier.cs:80-98 | the first ancestor that decides gives the result; the nodes before it only pass the walk on |
| ChangesClassifier.ChangesScopeMembership | src/Acuminator/Acuminator.Vsix/Utils/ChangesClassification/DocumentChangesClassifier.cs:43-64 | a flag is in the combined scope iff some text change's scope has it |
| ChangesClassifier.GetTextChangeInfluenceScope | src/Acuminator/Acuminator.Vsix/Utils/ChangesClassification/DocumentChangesClassifier.cs:66-99 | a change outside the root's full span gives Namespace; no containing node gives no scope; otherwise the parent walk gives exactly one flag |
| ChangesClassifier.TextChangeInfluenceScope | src/Acuminator/Acuminator.Vsix/Utils/ChangesClassification/DocumentChangesClassifier.cs:66-99 | a change outside the root's full span is a namespace change; the scope is empty iff the change is inside the span and no node contains it; any other scope is a single flag |
| ChangesClassifier.GetChangesScopeImpl | src/Acuminator/Acuminator.Vsix/Utils/ChangesClassification/DocumentChangesClassifier.cs:49-64 | the loop's accumulator is the union of the per-change scopes |
| ChangesClassifier.GetChangesScope | src/Acuminator/Acuminator.Vsix/Utils/ChangesClassification/DocumentChangesClassifier.cs:43-64 | no text change gives None; otherwise a flag is set iff some change's scope has it |
| SuppressMessages.NewSuppressMessage | src/Acuminator/Acuminator.Utilities/DiagnosticSuppression/SuppressMessage.cs:26-35 | null id, target or syntax node throw ArgumentNullException naming it, in that order |
| SuppressMessages.SuppressMessage.Equals | src/Acuminator/Acuminator.Utilities/DiagnosticSuppression/SuppressMessage.cs:51-69 | true iff the three strings are equal |
| SuppressMessages.SuppressMessage.EqualsObject | src/Acuminator/Acuminator.Utilities/DiagnosticSuppression/SuppressMessage.cs:71-79 | true iff the object is a boxed SuppressMessage equal to this one |
| SuppressMessages.SuppressMessage.GetHashCode | src/Acuminator/Acuminator.Utilities/DiagnosticSuppression/SuppressMessage.cs:37-49 | `((17*23 + h(Id))*23 + h(Target))*23 + h(SyntaxNode)`, wrapped to 32 bits once at the end |
| SuppressMessages.EqualsIsAnEquivalence | src/Acuminator/Acuminator.Utilities/DiagnosticSuppression/SuppressMessage.cs:37-79 | Equals is reflexive, symmetric and transitive; equal messages have equal hashes; Equals(object) on a boxed message agrees with Equals |
| GraphEventInfo.DefaultSignatureDacName | src/Acuminator/Acuminator.Utilities/Roslyn/Semantic/PXGraph/Infos/Events/GraphEventInfoBase.cs:32-36 | the name contains no underscore and is followed by one in the handler name; it is empty iff the handler name has no underscore or starts with one |
| GraphEventInfo.DacName | src/Acuminator/Acuminator.Utilities/Roslyn/Semantic/PXGraph/Infos/Events/GraphEventInfoBase.cs:28-45 | the None signature gives the empty name; a non-empty default-signature name is a proper prefix of the handler name followed by an underscore; a non-empty generic-signature name is the name of a DAC type argument of the first parameter, and the generic signature gives exactly what DacNameFromGenericEvent gives |
| GraphEventInfo.DacNameFromGenericEvent | src/Acuminator/Acuminator.Utilities/Roslyn/Semantic/PXGraph/Infos/Events/GraphEventInfoBase.cs:47-58 | a non-empty name is that of the first type argument, a DAC, of a named first parameter; a named first parameter whose first type argument is a DAC gives that argument's name |
| PairOfViewsRule.NewRule | src/Acuminator/Acuminator.Utilities/Roslyn/PrimaryDacFinder/PrimaryDacRules/GraphRules/PairOfViewsWithSpecialNamesGraphRule.cs:20-29 | a null or whitespace first name, then second name, throws ArgumentNullException naming it; otherwise the rule keeps both names |
| PairOfViewsRule.ChooseDacCandidate | src/Acuminator/Acuminator.Utilities/Roslyn/PrimaryDacFinder/PrimaryDacRules/GraphRules/PairOfViewsWithSpecialNamesGraphRule.cs:66-82 | a result is one of the candidates; there is one iff some candidate exists and any two agree |
| PairOfViewsRule.ScanFindsFirstName | src/Acuminator/Acuminator.Utilities/Roslyn/PrimaryDacFinder/PrimaryDacRules/GraphRules/PairOfViewsWithSpecialNamesGraphRule.cs:39-60 | the first name is found iff some view has it, and its candidate is the DAC of such a view |
| PairOfViewsRule.ScanFindsSecondName | src/Acuminator/Acuminator.Utilities/Roslyn/PrimaryDacFinder/PrimaryDacRules/GraphRules/PairOfViewsWithSpecialNamesGraphRule.cs:39-60 | the second name is found iff some view has it and it differs from the first name; the second candidate is the DAC of such a view, or unchanged |
| PairOfViewsRule.CandidatesAreFew | src/Acuminator/Acuminator.Utilities/Roslyn/PrimaryDacFinder/PrimaryDacRules/GraphRules/PairOfViewsWithSpecialNamesGraphRule.cs:31-64 | at most one candidate, and only a DAC some view carries |
| PairOfViewsRule.GetCandidatesFromGraphRule | src/Acuminator/Acuminator.Utilities/Roslyn/PrimaryDacFinder/PrimaryDacRules/GraphRules/PairOfViewsWithSpecialNamesGraphRule.cs:31-64 | the loop computes the specified candidates: at most one, none without a graph, on cancellation or without views |
| PairOfViewsRule.ScanStopsAt | src/Acuminator/Acuminator.Utilities/Roslyn/PrimaryDacFinder/PrimaryDacRules/GraphRules/PairOfViewsWithSpecialNamesGraphRule.cs:39-60 | for all view lists: once both names were seen, a view with neither name ends the loop, and no view from there on changes its outcome |
| PairOfViewsRule.ScanWithoutStop | src/Acuminator/Acuminator.Utilities/Roslyn/PrimaryDacFinder/PrimaryDacRules/GraphRules/PairOfViewsWithSpecialNamesGraphRule.cs:39-60 | for all view lists the loop runs through: each candidate is the DAC of the last view with its name, or the starting value when there is none |
| PairOfViewsRule.ViewsAfterStopAreIgnored | src/Acuminator/Acuminator.Utilities/Roslyn/PrimaryDacFinder/PrimaryDacRules/GraphRules/PairOfViewsWithSpecialNamesGraphRule.cs:31-64 | the rule's answer is that of the views before the stopping view, whatever views follow it |
| PairOfViewsRule.LaterFirstViewOverwrites | src/Acuminator/Acuminator.Utilities/Roslyn/PrimaryDacFinder/PrimaryDacRules/GraphRules/PairOfViewsWithSpecialNamesGraphRule.cs:44-48 | an example of ScanWithoutStop: with views Document(1), Document(2), CurrentDocument(2), the later Document view's DAC 2 is proposed |
| PairOfViewsRule.OtherViewStopsTheLoop | src/Acuminator/Acuminator.Utilities/Roslyn/PrimaryDacFinder/PrimaryDacRules/GraphRules/PairOfViewsWithSpecialNamesGraphRule.cs:51-59 | an example of ViewsAfterStopAreIgnored: the view after Document(1) and CurrentDocument(2) stops the loop before a later Document(2), so the candidates disagree and nothing is proposed |
| BqlFieldRedeclarationFix.NullIfWhiteSpace | src/Acuminator/Acuminator.Analyzers/StaticAnalysis/MissingBqlFieldRedeclarationInDerivedDac/MissingBqlFieldRedeclarationInDerivedDacFix.cs:44 | none iff the text is null or whitespace, otherwise the text itself |
| BqlFieldRedeclarationFix.RegisterCodeFix | src/Acuminator/Acuminator.Analyzers/StaticAnalysis/MissingBqlFieldRedeclarationInDerivedDac/MissingBqlFieldRedeclarationInDerivedDacFix.cs:30-55 | a fix is registered iff the DAC and field names are present and not blank and the BQL field type property exists; a blank type is dropped |
| BqlFieldRedeclarationFix.CreateBqlFieldRequest | src/Acuminator/Acuminator.Analyzers/StaticAnalysis/MissingBqlFieldRedeclarationInDerivedDac/MissingBqlFieldRedeclarationInDerivedDacFix.cs:130-145 | weakly typed iff the type name is null or whitespace, otherwise strongly typed with that name |
| BqlFieldRedeclarationFix.IndexOfMember | src/Acuminator/Acuminator.Analyzers/StaticAnalysis/MissingBqlFieldRedeclarationInDerivedDac/MissingBqlFieldRedeclarationInDerivedDacFix.cs:157 | -1 iff the member is absent; otherwise its first index |
| BqlFieldRedeclarationFix.IndexToInsert | src/Acuminator/Acuminator.Analyzers/StaticAnalysis/MissingBqlFieldRedeclarationInDerivedDac/MissingBqlFieldRedeclarationInDerivedDacFix.cs:147-167 | the property's index if found, 0 if not, the member count when there is no property |
| BqlFieldRedeclarationFix.ReplaceMember | src/Acuminator/Acuminator.Analyzers/StaticAnalysis/MissingBqlFieldRedeclarationInDerivedDac/MissingBqlFieldRedeclarationInDerivedDacFix.cs:120-124 | the node is replaced at its index; a node not in the list throws ArgumentException |
| BqlFieldRedeclarationFix.InsertMember | src/Acuminator/Acuminator.Analyzers/StaticAnalysis/MissingBqlFieldRedeclarationInDerivedDac/MissingBqlFieldRedeclarationInDerivedDacFix.cs:126 | one element more, the node at the index, and both sides kept |
| BqlFieldRedeclarationFix.CreateMembersListShape | src/Acuminator/Acuminator.Analyzers/StaticAnalysis/MissingBqlFieldRedeclarationInDerivedDac/MissingBqlFieldRedeclarationInDerivedDacFix.cs:93-128 | a failed generation changes nothing; an empty class gets just the field; otherwise the field goes in front of the property, which loses its regions, or at the end |
| BqlFieldRedeclarationFix.CreateMembersListWithBqlField | src/Acuminator/Acuminator.Analyzers/StaticAnalysis/MissingBqlFieldRedeclarationInDerivedDac/MissingBqlFieldRedeclarationInDerivedDacFix.cs:93-128 | throws only when the property is not a direct member of a non-empty class; a new list has exactly one member more |
| CodeGeneration.AddMissingUsingDirectiveForNamespace | src/Acuminator/Acuminator.Utilities/Roslyn/CodeGeneration/CodeGeneration.cs:31-44 | a null root or a blank namespace throws; an existing using leaves the root as it is; otherwise one using for the parsed name is appended |
| CodeGeneration.AddMissingUsingIsIdempotent | src/Acuminator/Acuminator.Utilities/Roslyn/CodeGeneration/CodeGeneration.cs:36-43 | after the call the namespace has a using and the old ones are kept, and a second call changes nothing |
| CodeGeneration.BaseTypeForBqlField | src/Acuminator/Acuminator.Utilities/Roslyn/CodeGeneration/CodeGeneration.cs:78-109 | null iff either name or the mapped BQL type is blank; otherwise the base type prints as `PX.Data.BQL.<BqlType>.Field<name>` |
| CodeGeneration.CopyRegionsFromProperty | src/Acuminator/Acuminator.Utilities/Roslyn/CodeGeneration/CodeGeneration.cs:111-128 | only the class's leading trivia changes: the property's region lines are appended, and nothing changes without them |
| CodeGeneration.GenerateBqlField | src/Acuminator/Acuminator.Utilities/Roslyn/CodeGeneration/CodeGeneration.cs:46-76 | null iff the base type is null; otherwise a public abstract class with the field's name and that base type, a space before the closing brace, and two line breaks after it for the first field or one otherwise |

## Left out

- Roslyn's symbols and syntax are finite maps and small datatypes. These inputs are
  modelled only by what they return:
  - inheritance;
  - the declared attributes of a type;
  - `IsDAC`;
  - `ImplementsInterface`;
  - `GetSyntax`;
  - `FindNode`.
- Diagnostic creation, suppression and locations are left out. `ReportDiagnosticWithSuppressionCheck`
  becomes an element of a returned list. A location is a number.
- Cancellation tokens are left out. Where the loop tests them, cancellation is a fixed
  flag of the run.
- Concurrency is left out: the parallel analyzer run and concurrent access to the static
  `_markedInternalApi` dictionary. The dictionary is one cache object shared by walkers.
- `ArrayExtensions.Copy`, `ArrayExtensions.InsertAt`, `ArrayExtensions.InsertItemsAt`,
  `ArrayExtensions.RemoveRange`, `ArrayExtensions.RemoveAt`, `ArrayExtensions.ReplaceAt`,
  `ArrayExtensions.ReplaceRange` and `ArrayExtensions.ReverseRange` require positions in
  range.
  - Out of range, .NET throws ArgumentOutOfRangeException or ArgumentException. The model
    does not have that error path.
  - A 32-bit overflow of position plus length is not modelled either.
- ArrayExtensions.BinarySearch and ArrayExtensions.BinarySearchUpperBound are stated for
  `int` elements with the default comparer. The custom-comparer overloads are not modelled.
- ArrayExtensions.ValueEquals is stated for `uint32` elements, which have value equality.
- AttributeRelations.GetThisAndAllAggregatedAttributes and
  AttributeRelations.GetThisAndAllAggregatedAttributesWithApplications are bounded from
  below and from above, not stated exactly. For an aggregator with cycles, the exact set
  depends on the order in which the hash set is filled.
- `IsBoundField` in `AttributeInformation` only throws NotImplementedException. It is not
  modelled.
- `GetMemberNodes` in `DacSemanticModel` is not modelled. It is a syntax query whose result
  no modelled view uses.
- `GetPropertiesFromDacExtensionAndBaseDac`, `IsDAC` and `IsDacExtension` are inputs to
  DacSemanticModels.InferModel, through `TypeFacts`. Their helpers are not part of this model.
- DacSemanticModels.InferModel throws, as `Err`, when two names differ only in case and
  have different values. This is the behaviour of `ToImmutableDictionary` with the
  OrdinalIgnoreCase comparer. Case folding is ASCII only.
- InternalApi.InternalApiCallsWalker.IsInternalApiField never reads the field's own
  attributes, as written. Its contract therefore gives no "attributed implies internal"
  clause.
- InternalApi.InternalApiCallsWalker.IsInternalApiOverridable assumes override chains are
  finite (`WellFormed`). The compiler guarantees this for real code.
- `ChangeInfluenceScope` is a set of flags, because its enum is not part of this model.
  Bitwise OR is union. `Environment.NewLine` is `"\r\n"`. Whitespace is ASCII and Latin-1
  whitespace.
- The `customWeight` of the pair-of-views rule is left out. Only its candidate list is
  modelled.
- The following are inputs:
  - `BqlFieldGeneration`;
  - `RemoveRegionsFromLeadingTrivia`;
  - `ParseName`;
  - `PropertyTypeToBqlFieldTypeMapping`;
  - `GetRegionDirectiveLinesFromTrivia`.
- The Document and syntax-root plumbing of `RedeclareBqlFieldAsync` is left out.
- The `DacFieldName` and `BqlFieldType` diagnostic property names follow the source's
  `nameof` convention, because `DiagnosticProperty` defines only `DacName`.
- Elastic trivia markers are left out.
- CodeGeneration.BaseTypeForBqlField does not carry the trailing space trivia of the `>`
  token of `Field<name>`. In the generated code this space separates the base type from the
  class body. Name syntax in this model has no trivia.
- CodeGeneration.AddMissingUsingIsIdempotent holds only for namespace names that print
  back unchanged after parsing. A name padded with spaces would get a second using.
- CodeGeneration.AddMissingUsingDirectiveForNamespace states when the argument checks throw,
  not which exception they throw. `ThrowOnNull` and `ThrowOnNullOrWhiteSpace` come from
  `Acuminator.Utilities.Common`, which is not part of this model.
- ReferencedFieldMismatch.IsLengthParameter matches "length" and "size" with ASCII-only
  case folding. The source's OrdinalIgnoreCase also folds non-ASCII letters, which this
  model does not capture.
- `PrimaryKeyClassName` is `"PK"`, because `TypeNames` is not part of this model.
- The base analyzer's `ShouldAnalyzeDac` and `IsKeySymbolDefined` are inputs.
- SuppressMessages.SuppressMessage.GetHashCode takes `string.GetHashCode` as a parameter.
  The hash of a string is randomised per process in .NET.
- ReferencedFieldMismatch.MismatchAnalyzer.Analyze takes its property list as an input. The source
  selects `dac.DeclaredDacFieldPropertiesWithAcumaticaAttributes`, and that member is not part of
  the modelled `DacSemanticModel`. The contract therefore holds for any list of properties,
  not only for the declared DAC-field properties with Acumatica attributes.
- ReferencedFieldMismatch.MismatchAnalyzer.Analyze is proved equal to a specification
  function over the properties to check. The order of `Where`/`Select` laziness is not
  observable and is not modelled.

## Findings

| source | as written | input that shows it | evidently intended | confidence | as-written member | corrected member |
|---|---|---|---|---|---|---|
| src/Acuminator/Acuminator.Analyzers/StaticAnalysis/CallsToInternalAPI/InternalApiCallsWalker.cs:102 | `case IEventSymbol eventSymbol:` has no `when IsInternalApiEvent(eventSymbol)` guard, unlike the property and method cases, so IsInternalApiEvent is never called | any access to a public event of a type without PXInternalUseOnly is reported as internal API | report an event only when IsInternalApiEvent holds | high, not executed | InternalApi.InternalApiCallsWalker.AnalyzeNonTypeSymbolAsWritten | InternalApi.InternalApiCallsWalker.AnalyzeNonTypeSymbol |
| src/Acuminator/Acuminator.Analyzers/StaticAnalysis/DacFieldAndReferencedFieldMismatch/DacFieldAndReferencedFieldMismatchAnalyzer.cs:126 | `typeAttributesOnDacProperty![0]` is indexed after only the conflict list has been checked | a foreign property whose attributes carry no field-type metadata: FilterTypeAttributes returns a null list and the analyzer throws NullReferenceException | treat a property without a type attribute as incompatible, which skips the size comparison | medium, not executed | ReferencedFieldMismatch.ForeignWithoutTypeAttributeThrows | ReferencedFieldMismatch.CompareWithForeignCorrected |
| src/Acuminator/Acuminator.Analyzers/StaticAnalysis/DacPropertyAttributes/DacPropertyAttributesAnalyzer.cs:93 | the aggregator PX1023 is registered for `attributesCalcedOnDbSideDeclaredOnProperty` | a PXDBCalced property with a plain calced attribute at 101 and an aggregator of two calced attributes at 102: the aggregator diagnostic is reported at both 101 and 102, where only 102 aggregates anything | register it for `attributesCalcedOnDbSideWithConflictingAggregatorDeclarations` | medium, not executed | DacPropertyAttributes.AggregatorDiagnosticAtNonAggregator | DacPropertyAttributes.CalcedAggregatorDiagnosticAt |
