/** PX1078 (DacFieldAndReferencedFieldMismatchAnalyzer): a DAC property with a selector is
    compared with the foreign property the selector references; differing CLR types give a
    type mismatch, and otherwise every local type attribute whose field size differs from
    the foreign one gives a size mismatch. The foreign DAC models are inferred on demand and
    kept in a per-analyzer cache. */
module ReferencedFieldMismatch {
  import opened Wrappers
  import opened Symbols
  import opened AttributeInfos
  import opened AttributeRelations
  import opened DacSemanticModels
  import opened Text

  /** What the symbol helpers report about BQL types: which are generic, which implement
      IBqlSearch, which are DAC BQL fields, the type arguments and containing type of each,
      and its name; plus the facts that DAC inference reads for each type. */
  datatype Compilation = Compilation(
    st: SymbolTable,
    ctx: Context,
    genericTypes: set<TypeId>,
    bqlSearchTypes: set<TypeId>,
    dacBqlFields: set<TypeId>,
    typeArguments: map<TypeId, seq<TypeId>>,
    containingTypes: map<TypeId, TypeId>,
    names: map<TypeId, string>,
    dacs: map<TypeId, TypeFacts>)

  const NotADac := TypeFacts(false, false, false, 0, false, [], [], [], [], [], None)

  function FactsOf(env: Compilation, t: TypeId): TypeFacts
  {
    if t in env.dacs then env.dacs[t] else NotADac
  }

  function NameOf(env: Compilation, t: TypeId): string
  {
    if t in env.names then env.names[t] else ""
  }

  /** A reported PX1078: the property, the referenced property and its CLR type, or the
      attribute application and the expected length. */
  datatype Finding =
    | TypeMismatch(propertyName: string, referencedName: string, referencedType: TypeId)
    | SizeMismatch(attribute: Application, propertyName: string, referencedName: string, expectedLength: int)

  // ---------------------------------------------------------------------------
  // Choosing the properties
  // ---------------------------------------------------------------------------

  /** TypesToExcludeFromAnalysis. */
  predicate IsExcludedType(st: SymbolTable, t: TypeId)
  {
    SpecialTypeOf(st, t) in {SystemBoolean, SystemDecimal, SystemDateTime, SystemDouble, SystemSingle, SystemArray, SystemObject}
  }

  predicate ContainsAttributeMatching(info: DacFieldAttributeInfo, expected: TypeId)
  {
    exists x :: x in info.flattened && x.attributeType == expected
  }

  predicate ContainsAttributeMatchingOneOf(info: DacFieldAttributeInfo, types: set<TypeId>)
  {
    exists x :: x in info.flattened && x.attributeType in types
  }

  /** A PXDBField-derived or unbound field-type attribute. */
  predicate IsTypeAttributeCandidate(ctx: Context, info: DacFieldAttributeInfo)
  {
    ContainsAttributeMatching(info, ctx.dbField) || ContainsAttributeMatchingOneOf(info, ctx.unboundFieldTypeAttributes)
  }

  /** TryGetForeignReferenceAttribute: the first attribute that flattens to the selector. */
  function TryGetForeignReferenceAttribute(ctx: Context, attributes: seq<DacFieldAttributeInfo>): (r: Option<DacFieldAttributeInfo>)
    ensures r.None? <==> forall i :: 0 <= i < |attributes| ==> !ContainsAttributeMatching(attributes[i], ctx.selector)
    ensures r.Some? ==>
      exists i :: (0 <= i < |attributes| && attributes[i] == r.value
                   && ContainsAttributeMatching(r.value, ctx.selector)
                   && forall k :: 0 <= k < i ==> !ContainsAttributeMatching(attributes[k], ctx.selector))
  {
    if attributes == [] then None
    else if ContainsAttributeMatching(attributes[0], ctx.selector) then Some(attributes[0])
    else
      var r := TryGetForeignReferenceAttribute(ctx, attributes[1..]);
      assert forall i :: 1 <= i < |attributes| ==> attributes[i] == attributes[1..][i - 1];
      r
  }

  /** The properties Analyze checks, each with its reference attribute. */
  function PropertiesToCheck(st: SymbolTable, ctx: Context, properties: seq<DacPropertyInfo>)
    : (r: seq<(DacPropertyInfo, DacFieldAttributeInfo)>)
    ensures forall i :: 0 <= i < |r| ==>
      r[i].0 in properties && !IsExcludedType(st, r[i].0.propertyTypeUnwrappedNullable)
      && TryGetForeignReferenceAttribute(ctx, r[i].0.attributes) == Some(r[i].1)
    ensures forall p ::
      (p in properties && !IsExcludedType(st, p.propertyTypeUnwrappedNullable)
       && TryGetForeignReferenceAttribute(ctx, p.attributes).Some?)
      ==> (p, TryGetForeignReferenceAttribute(ctx, p.attributes).value) in r
  {
    if properties == [] then []
    else
      var p := properties[0];
      var rest := PropertiesToCheck(st, ctx, properties[1..]);
      assert forall x :: x in properties <==> x == p || x in properties[1..];
      if !IsExcludedType(st, p.propertyTypeUnwrappedNullable) && TryGetForeignReferenceAttribute(ctx, p.attributes).Some?
      then [(p, TryGetForeignReferenceAttribute(ctx, p.attributes).value)] + rest
      else rest
  }

  // ---------------------------------------------------------------------------
  // The referenced field
  // ---------------------------------------------------------------------------

  /** The chain from `t` upwards, stopping before System.Object (TakeWhile): a prefix of
      the chain, without System.Object, that ends at the chain's end or at System.Object. */
  function BelowObject(st: SymbolTable, chain: seq<TypeId>): (r: seq<TypeId>)
    ensures |r| <= |chain| && r == chain[..|r|]
    ensures forall x :: x in r ==> SpecialTypeOf(st, x) != SystemObject
    ensures |r| < |chain| ==> SpecialTypeOf(st, chain[|r|]) == SystemObject
  {
    if chain == [] || SpecialTypeOf(st, chain[0]) == SystemObject then []
    else [chain[0]] + BelowObject(st, chain[1..])
  }

  /** The first type argument that is a DAC BQL field. */
  function FirstBqlFieldArgument(env: Compilation, args: seq<TypeId>): (r: Option<TypeId>)
    ensures r.Some? ==>
      exists i :: 0 <= i < |args| && args[i] == r.value && r.value in env.dacBqlFields
                  && forall k :: 0 <= k < i ==> args[k] !in env.dacBqlFields
    ensures r.None? ==> forall a :: a in args ==> a !in env.dacBqlFields
  {
    if args == [] then None
    else if args[0] in env.dacBqlFields then Some(args[0])
    else
      var r := FirstBqlFieldArgument(env, args[1..]);
      assert forall i :: 1 <= i < |args| ==> args[i] == args[1..][i - 1];
      r
  }

  function TypeArgumentsOf(env: Compilation, t: TypeId): seq<TypeId>
  {
    if t in env.typeArguments then env.typeArguments[t] else []
  }

  /** A generic IBqlSearch type one of whose type arguments is a DAC BQL field. */
  predicate IsSearchWithField(env: Compilation, t: TypeId)
  {
    t in env.genericTypes && t in env.bqlSearchTypes && FirstBqlFieldArgument(env, TypeArgumentsOf(env, t)).Some?
  }

  /** Scans the search type's hierarchy from the farthest base down: the first generic
      IBqlSearch type that has a BQL-field type argument gives its first such argument, and
      there is no field when no type in the chain is one. */
  function FieldFromSearchChain(env: Compilation, fromFarthest: seq<TypeId>): (r: Option<TypeId>)
    ensures r.Some? ==>
      exists i :: 0 <= i < |fromFarthest| && IsSearchWithField(env, fromFarthest[i])
                  && r == FirstBqlFieldArgument(env, TypeArgumentsOf(env, fromFarthest[i]))
                  && forall k :: 0 <= k < i ==> !IsSearchWithField(env, fromFarthest[k])
    ensures r.None? <==> forall i :: 0 <= i < |fromFarthest| ==> !IsSearchWithField(env, fromFarthest[i])
  {
    if fromFarthest == [] then None
    else if IsSearchWithField(env, fromFarthest[0]) then FirstBqlFieldArgument(env, TypeArgumentsOf(env, fromFarthest[0]))
    else
      var r := FieldFromSearchChain(env, fromFarthest[1..]);
      assert forall i :: 1 <= i < |fromFarthest| ==> fromFarthest[i] == fromFarthest[1..][i - 1];
      r
  }

  function Reverse(s: seq<TypeId>): (r: seq<TypeId>)
    ensures |r| == |s| && forall i :: 0 <= i < |s| ==> r[i] == s[|s| - 1 - i]
  {
    if s == [] then [] else Reverse(s[1..]) + [s[0]]
  }

  /** The search type and its bases, nearest first, up to System.Object. */
  function SearchChain(env: Compilation, searchType: TypeId): seq<TypeId>
  {
    BelowObject(env.st, BaseTypesAndThis(env.st, searchType))
  }

  /** Scanning the reversed chain finds the farthest search type of the chain. */
  lemma FarthestSearchType(env: Compilation, chain: seq<TypeId>)
    ensures var r := FieldFromSearchChain(env, Reverse(chain));
      r.Some? ==>
        exists i :: 0 <= i < |chain| && IsSearchWithField(env, chain[i])
                    && r == FirstBqlFieldArgument(env, TypeArgumentsOf(env, chain[i]))
                    && forall k :: i < k < |chain| ==> !IsSearchWithField(env, chain[k])
    ensures FieldFromSearchChain(env, Reverse(chain)).None? <==> forall i :: 0 <= i < |chain| ==> !IsSearchWithField(env, chain[i])
  {
    var fromFarthest := Reverse(chain);
    var r := FieldFromSearchChain(env, fromFarthest);
    assert forall i :: 0 <= i < |chain| ==> chain[i] == fromFarthest[|chain| - 1 - i];
    if r.Some? {
      var j :| 0 <= j < |fromFarthest| && IsSearchWithField(env, fromFarthest[j])
               && r == FirstBqlFieldArgument(env, TypeArgumentsOf(env, fromFarthest[j]))
               && forall k :: 0 <= k < j ==> !IsSearchWithField(env, fromFarthest[k]);
      var i := |chain| - 1 - j;
      assert chain[i] == fromFarthest[j];
      forall k | i < k < |chain| ensures !IsSearchWithField(env, chain[k]) {
        assert chain[k] == fromFarthest[|chain| - 1 - k];
      }
    }
  }

  /** ExtractForeignFieldSymbolFromBqlSearch: the farthest type of the search chain that is
      a generic IBqlSearch with a BQL-field type argument gives its first such argument;
      nothing when the chain has no such type. */
  function ExtractForeignFieldSymbolFromBqlSearch(env: Compilation, searchType: TypeId): (r: Option<TypeId>)
    ensures var chain := SearchChain(env, searchType);
      r.Some? ==>
        exists i :: 0 <= i < |chain| && IsSearchWithField(env, chain[i])
                    && r == FirstBqlFieldArgument(env, TypeArgumentsOf(env, chain[i]))
                    && forall k :: i < k < |chain| ==> !IsSearchWithField(env, chain[k])
    ensures var chain := SearchChain(env, searchType);
      r.None? <==> forall i :: 0 <= i < |chain| ==> !IsSearchWithField(env, chain[i])
  {
    FarthestSearchType(env, SearchChain(env, searchType));
    FieldFromSearchChain(env, Reverse(SearchChain(env, searchType)))
  }

  /** ExtractForeignFieldSymbol: the selector's first constructor argument when it is a
      type, read through a BQL search when that type is generic; the field must be nested
      in a type. */
  function ExtractForeignFieldSymbol(env: Compilation, referenceAttribute: DacFieldAttributeInfo): (r: Option<TypeId>)
    ensures r.Some? ==> r.value in env.containingTypes
    ensures var args := referenceAttribute.application.constructorArguments;
      (|args| == 0 || !args[0].TypeValue?) ==> r.None?
    ensures var args := referenceAttribute.application.constructorArguments;
      (|args| > 0 && args[0].TypeValue? && args[0].t !in env.genericTypes) ==>
        r == (if args[0].t in env.containingTypes then Some(args[0].t) else None)
    ensures var args := referenceAttribute.application.constructorArguments;
      (|args| > 0 && args[0].TypeValue? && args[0].t in env.genericTypes) ==>
        var found := ExtractForeignFieldSymbolFromBqlSearch(env, args[0].t);
        r == (if found.Some? && found.value in env.containingTypes then found else None)
  {
    var args := referenceAttribute.application.constructorArguments;
    var result :=
      if |args| == 0 || !args[0].TypeValue? then None
      else if args[0].t in env.genericTypes then ExtractForeignFieldSymbolFromBqlSearch(env, args[0].t)
      else Some(args[0].t);
    if result.Some? && result.value in env.containingTypes then result else None
  }

  // ---------------------------------------------------------------------------
  // Field sizes
  // ---------------------------------------------------------------------------

  /** FindIndex over the constructor parameters: the first `int` parameter named `length`
      or `size`, ignoring case; -1 when there is none. */
  function LengthParameterIndex(parameters: seq<Parameter>): (r: int)
    ensures -1 <= r < |parameters|
    ensures r >= 0 ==> IsLengthParameter(parameters[r])
    ensures forall k :: 0 <= k < |parameters| && (r == -1 || k < r) ==> !IsLengthParameter(parameters[k])
  {
    if parameters == [] then -1
    else if IsLengthParameter(parameters[0]) then 0
    else
      var k := LengthParameterIndex(parameters[1..]);
      assert forall i :: 1 <= i < |parameters| ==> parameters[i] == parameters[1..][i - 1];
      if k == -1 then -1 else k + 1
  }

  predicate IsLengthParameter(p: Parameter)
  {
    p.parameterType == SystemInt32 && (EqualsIgnoreCase(p.name, "length") || EqualsIgnoreCase(p.name, "size"))
  }

  /** GetLengthConstructorArgument. */
  function GetLengthConstructorArgument(ctx: Context, app: Application): (r: Option<int>)
    ensures app.attributeClass.None? ==> r.None?
    ensures app.attributeClass.Some? && app.attributeClass.value in ctx.hardcodedLength ==>
      r == Some(ctx.hardcodedLength[app.attributeClass.value])
    ensures app.attributeClass.Some? && app.attributeClass.value !in ctx.hardcodedLength ==>
      (r.Some? <==>
         && app.attributeClass.value in ctx.attributesWithLength
         && app.constructorParameters.Some?
         && var k := LengthParameterIndex(app.constructorParameters.value);
            0 <= k < |app.constructorArguments| && app.constructorArguments[k].IntValue?
            && r == Some(app.constructorArguments[k].i))
  {
    if app.attributeClass.None? then None
    else if app.attributeClass.value in ctx.hardcodedLength then Some(ctx.hardcodedLength[app.attributeClass.value])
    else if app.attributeClass.value !in ctx.attributesWithLength then None
    else if app.constructorParameters.None? || |app.constructorParameters.value| == 0 then None
    else
      var index := LengthParameterIndex(app.constructorParameters.value);
      if index == -1 || |app.constructorArguments| <= index then None
      else if app.constructorArguments[index].IntValue? then Some(app.constructorArguments[index].i)
      else None
  }

  /** The lengths the flattened applications declare, in order. */
  function DeclaredLengths(ctx: Context, flattened: seq<AttributeWithApplication>): seq<int>
  {
    if flattened == [] then []
    else
      var rest := DeclaredLengths(ctx, flattened[1..]);
      match GetLengthConstructorArgument(ctx, flattened[0].application)
      case Some(v) => [v] + rest
      case None => rest
  }

  lemma {:induction false} DeclaredLengthsMembership(ctx: Context, flattened: seq<AttributeWithApplication>, v: int)
    ensures v in DeclaredLengths(ctx, flattened) <==>
      exists x :: x in flattened && GetLengthConstructorArgument(ctx, x.application) == Some(v)
  {
    if flattened != [] {
      DeclaredLengthsMembership(ctx, flattened[1..], v);
      assert forall x :: x in flattened <==> x == flattened[0] || x in flattened[1..];
    }
  }

  /** Distinct: the first occurrence of each value, in order. */
  function Distinct(s: seq<int>): (r: seq<int>)
    ensures forall v :: v in r <==> v in s
    ensures forall i, j :: 0 <= i < j < |r| ==> r[i] != r[j]
  {
    if s == [] then []
    else
      var d := Distinct(s[..|s| - 1]);
      assert forall v :: v in s <==> v in s[..|s| - 1] || v == s[|s| - 1];
      if s[|s| - 1] in d then d else d + [s[|s| - 1]]
  }

  /** A sequence without repetitions is as long as the set of its elements. */
  lemma {:induction false} DistinctCardinality(r: seq<int>)
    requires forall i, j :: 0 <= i < j < |r| ==> r[i] != r[j]
    ensures |set v | v in r| == |r|
  {
    if r != [] {
      var rest := r[1..];
      DistinctCardinality(rest);
      assert (set v | v in r) == (set v | v in rest) + {r[0]};
      assert r[0] !in rest by {
        forall k | 0 <= k < |rest| ensures rest[k] != r[0] {
          assert rest[k] == r[k + 1];
        }
      }
    }
  }

  /** GetFieldSize: -1 when no flattened attribute declares a length, the length when
      exactly one distinct length is declared, and null when several are. */
  function GetFieldSize(ctx: Context, info: DacFieldAttributeInfo): (r: Option<int>)
    ensures DeclaredLengths(ctx, info.flattened) == [] ==> r == Some(-1)
    ensures r.Some? && DeclaredLengths(ctx, info.flattened) != [] ==>
      forall v :: v in DeclaredLengths(ctx, info.flattened) ==> v == r.value
    ensures r.None? ==> exists v, w :: v in DeclaredLengths(ctx, info.flattened) && w in DeclaredLengths(ctx, info.flattened) && v != w
  {
    var lengthCtorArguments := Distinct(DeclaredLengths(ctx, info.flattened));
    if |lengthCtorArguments| == 0 then Some(-1)
    else if |lengthCtorArguments| == 1 then Some(lengthCtorArguments[0])
    else
      assert lengthCtorArguments[0] in lengthCtorArguments && lengthCtorArguments[1] in lengthCtorArguments;
      None
  }

  /** The distinct lengths an attribute's flattened applications declare. */
  ghost function LengthsOf(ctx: Context, info: DacFieldAttributeInfo): set<int>
  {
    set x | x in info.flattened && GetLengthConstructorArgument(ctx, x.application).Some?
      :: GetLengthConstructorArgument(ctx, x.application).value
  }

  lemma LengthsOfDistinct(ctx: Context, info: DacFieldAttributeInfo)
    ensures LengthsOf(ctx, info) == set v | v in Distinct(DeclaredLengths(ctx, info.flattened))
  {
    var d := Distinct(DeclaredLengths(ctx, info.flattened));
    forall v ensures v in LengthsOf(ctx, info) <==> v in d {
      DeclaredLengthsMembership(ctx, info.flattened, v);
    }
  }

  /** GetFieldSize decides by the number of distinct declared lengths. */
  lemma GetFieldSizeSpec(ctx: Context, info: DacFieldAttributeInfo)
    ensures LengthsOf(ctx, info) == {} ==> GetFieldSize(ctx, info) == Some(-1)
    ensures |LengthsOf(ctx, info)| == 1 ==> GetFieldSize(ctx, info).Some? && LengthsOf(ctx, info) == {GetFieldSize(ctx, info).value}
    ensures GetFieldSize(ctx, info).None? <==> |LengthsOf(ctx, info)| >= 2
  {
    var d := Distinct(DeclaredLengths(ctx, info.flattened));
    LengthsOfDistinct(ctx, info);
    DistinctCardinality(d);
    if |d| == 1 {
      assert (set v | v in d) == {d[0]};
    }
  }

  // ---------------------------------------------------------------------------
  // Type compatibility of one property
  // ---------------------------------------------------------------------------

  /** PropertyTypesAreIncompatible as written: a property without any field-type
      attribute leaves the type-attribute list null, and indexing it throws. */
  function PropertyTypesAreIncompatibleAsWritten(property: DacPropertyInfo): (r: Result<bool>)
    ensures r.Err? <==>
      |Categorize(Filter(property.attributes, HasAggregatedMetadata)).typeAttributesWithDifferentDataTypesOnAggregator| == 0
      && |Categorize(Filter(property.attributes, HasAggregatedMetadata)).typeAttributesOnDacProperty| == 0
  {
    var categorized := Categorize(Filter(property.attributes, HasAggregatedMetadata));
    if |categorized.typeAttributesWithDifferentDataTypesOnAggregator| > 0 then Ok(false)
    else if |categorized.typeAttributesOnDacProperty| == 0 then Err(NullReference)
    else Ok(CheckCompatibility(property, categorized.typeAttributesOnDacProperty[0]) != CompatibleTypes)
  }

  /** PropertyTypesAreIncompatible, with a property that has no field-type attribute taken
      as one whose type cannot be confirmed, so that its sizes are not compared. */
  function PropertyTypesAreIncompatible(property: DacPropertyInfo): (r: bool)
    ensures PropertyTypesAreIncompatibleAsWritten(property).Ok? ==> r == PropertyTypesAreIncompatibleAsWritten(property).value
  {
    var categorized := Categorize(Filter(property.attributes, HasAggregatedMetadata));
    if |categorized.typeAttributesWithDifferentDataTypesOnAggregator| > 0 then false
    else if |categorized.typeAttributesOnDacProperty| == 0 then true
    else CheckCompatibility(property, categorized.typeAttributesOnDacProperty[0]) != CompatibleTypes
  }

  /** A property none of whose attributes carries field-type metadata (one with only
      PXUIField, say) makes PropertyTypesAreIncompatible as written throw, while the
      corrected version reports the types as not confirmed. */
  lemma NoMetadataThrows(property: DacPropertyInfo)
    requires forall a :: a in property.attributes ==> !HasAggregatedMetadata(a)
    ensures PropertyTypesAreIncompatibleAsWritten(property) == Err(NullReference)
    ensures PropertyTypesAreIncompatible(property)
  {
    FilterNone(property.attributes, HasAggregatedMetadata);
  }

  /** `i` is the position of the first field-type attribute. */
  predicate FirstTypeAttributeAt(attrs: seq<DacFieldAttributeInfo>, i: int)
  {
    0 <= i < |attrs| && IsTypeAttribute(attrs[i]) && forall k :: 0 <= k < i ==> !IsTypeAttribute(attrs[k])
  }

  /** What PropertyTypesAreIncompatible decides, stated on the property's attributes: no
      attribute with metadata may aggregate several data types, and either none is a
      field-type attribute or the first one does not declare exactly the property's type. */
  lemma PropertyTypesAreIncompatibleSpec(property: DacPropertyInfo)
    ensures var attrs := Filter(property.attributes, HasAggregatedMetadata);
      PropertyTypesAreIncompatible(property) <==>
        && (forall a :: a in attrs ==> |FieldDataTypes(a)| <= 1)
        && ((forall a :: a in attrs ==> !IsTypeAttribute(a))
            || exists i :: FirstTypeAttributeAt(attrs, i) && FieldDataTypes(attrs[i]) != {property.propertyTypeUnwrappedNullable})
  {
    var attrs := Filter(property.attributes, HasAggregatedMetadata);
    var categorized := Categorize(attrs);
    forall a ensures a in categorized.typeAttributesWithDifferentDataTypesOnAggregator <==> a in attrs && |FieldDataTypes(a)| > 1 {
      CategorizeMembership(attrs, a);
    }
    forall a ensures a in categorized.typeAttributesOnDacProperty <==> a in attrs && IsTypeAttribute(a) {
      CategorizeMembership(attrs, a);
    }
    var conflicts := categorized.typeAttributesWithDifferentDataTypesOnAggregator;
    var typeAttributes := categorized.typeAttributesOnDacProperty;
    if |conflicts| > 0 {
      assert conflicts[0] in conflicts;
    } else if |typeAttributes| == 0 {
      assert forall a :: a in attrs ==> |FieldDataTypes(a)| <= 1;
      assert forall a :: a in attrs ==> !IsTypeAttribute(a);
    } else {
      assert forall a :: a in attrs ==> |FieldDataTypes(a)| <= 1;
      var i0 := FirstOfFilter(attrs, IsTypeAttribute);
      assert FirstTypeAttributeAt(attrs, i0);
      assert attrs[i0] in attrs;
      forall j | FirstTypeAttributeAt(attrs, j) ensures j == i0 {
      }
      assert PropertyTypesAreIncompatible(property) <==> FieldDataTypes(attrs[i0]) != {property.propertyTypeUnwrappedNullable};
    }
  }

  /** The first element Filter keeps is the first element satisfying the predicate. */
  lemma {:induction false} FirstOfFilter<T>(s: seq<T>, p: T -> bool) returns (i: int)
    requires |Filter(s, p)| > 0
    ensures 0 <= i < |s| && s[i] == Filter(s, p)[0] && p(s[i]) && forall k :: 0 <= k < i ==> !p(s[k])
  {
    var prefix := s[..|s| - 1];
    if |Filter(prefix, p)| > 0 {
      i := FirstOfFilter(prefix, p);
      assert s[i] == prefix[i];
      assert forall k :: 0 <= k < i ==> s[k] == prefix[k];
    } else {
      forall k | 0 <= k < |prefix| ensures !p(prefix[k]) {
        FilterMembership(prefix, p, prefix[k]);
      }
      assert forall k :: 0 <= k < |s| - 1 ==> s[k] == prefix[k];
      i := |s| - 1;
    }
  }

  // ---------------------------------------------------------------------------
  // Checking one property
  // ---------------------------------------------------------------------------

  /** The attributes that derive from PXDBField or are unbound field-type attributes, in order. */
  function TypeAttributeCandidates(ctx: Context, attributes: seq<DacFieldAttributeInfo>): (r: seq<DacFieldAttributeInfo>)
    ensures forall a :: a in r <==> a in attributes && IsTypeAttributeCandidate(ctx, a)
  {
    var r := Filter(attributes, a => IsTypeAttributeCandidate(ctx, a));
    assert forall a :: a in r <==> a in attributes && IsTypeAttributeCandidate(ctx, a) by {
      forall a ensures a in r <==> a in attributes && IsTypeAttributeCandidate(ctx, a) {
        FilterMembership(attributes, a => IsTypeAttributeCandidate(ctx, a), a);
      }
    }
    r
  }

  /** The values that are present, in order (OfType<int> after a Select). */
  function KnownValues<T>(s: seq<T>, size: T -> Option<int>): (r: seq<int>)
    ensures |r| <= |s|
  {
    if s == [] then []
    else KnownValues(s[..|s| - 1], size) + (if size(s[|s| - 1]).Some? then [size(s[|s| - 1]).value] else [])
  }

  lemma {:induction false} KnownValuesMembership<T>(s: seq<T>, size: T -> Option<int>, v: int)
    ensures v in KnownValues(s, size) <==> exists x :: x in s && size(x) == Some(v)
  {
    if s != [] {
      KnownValuesMembership(s[..|s| - 1], size, v);
      assert forall x :: x in s <==> x in s[..|s| - 1] || x == s[|s| - 1];
    }
  }

  /** KnownValues is empty exactly when no value is present. */
  lemma {:induction false} NoKnownValue<T>(s: seq<T>, size: T -> Option<int>)
    ensures |KnownValues(s, size)| == 0 <==> forall k :: 0 <= k < |s| ==> size(s[k]).None?
  {
    if s != [] {
      var prefix := s[..|s| - 1];
      NoKnownValue(prefix, size);
      assert forall k :: 0 <= k < |prefix| ==> s[k] == prefix[k];
    }
  }

  /** KnownValues has exactly one element exactly when exactly one value is present. */
  lemma {:induction false} OneKnownValue<T>(s: seq<T>, size: T -> Option<int>)
    ensures |KnownValues(s, size)| == 1 <==>
      exists i :: 0 <= i < |s| && size(s[i]).Some? && forall k :: 0 <= k < |s| && k != i ==> size(s[k]).None?
  {
    if s != [] {
      var prefix := s[..|s| - 1];
      var n := |s| - 1;
      OneKnownValue(prefix, size);
      NoKnownValue(prefix, size);
      assert forall k :: 0 <= k < n ==> s[k] == prefix[k];
      if size(s[n]).Some? {
        if |KnownValues(prefix, size)| > 0 {
          var j :| 0 <= j < n && size(prefix[j]).Some?;
          assert size(s[j]).Some?;
        }
      } else if |KnownValues(prefix, size)| == 1 {
        var i :| 0 <= i < n && size(prefix[i]).Some? && forall k :: 0 <= k < n && k != i ==> size(prefix[k]).None?;
        assert size(s[i]).Some?;
      }
    }
  }

  /** GetFieldSize as a function value. */
  function FieldSizeOf(ctx: Context): DacFieldAttributeInfo -> Option<int>
  {
    a => GetFieldSize(ctx, a)
  }

  /** The non-null field sizes of the foreign property's type attributes, in order: the
      sizes of its PXDBField-derived and unbound field-type attributes that have one. */
  function ForeignFieldSizes(ctx: Context, attributes: seq<DacFieldAttributeInfo>): (r: seq<int>)
    ensures |r| <= |attributes|
    ensures forall v :: v in r <==> exists a :: a in attributes && IsTypeAttributeCandidate(ctx, a) && GetFieldSize(ctx, a) == Some(v)
  {
    var candidates := TypeAttributeCandidates(ctx, attributes);
    assert forall v :: v in KnownValues(candidates, FieldSizeOf(ctx)) <==>
                       exists a :: a in candidates && GetFieldSize(ctx, a) == Some(v) by {
      forall v ensures v in KnownValues(candidates, FieldSizeOf(ctx)) <==> exists a :: a in candidates && GetFieldSize(ctx, a) == Some(v) {
        KnownValuesMembership(candidates, FieldSizeOf(ctx), v);
      }
    }
    KnownValues(candidates, FieldSizeOf(ctx))
  }

  /** Exactly one foreign size is known exactly when exactly one of the foreign
      property's PXDBField-derived or unbound field-type attributes has a size. */
  lemma OneForeignFieldSize(ctx: Context, attributes: seq<DacFieldAttributeInfo>)
    ensures |ForeignFieldSizes(ctx, attributes)| == 1 <==>
      var candidates := TypeAttributeCandidates(ctx, attributes);
      exists i :: 0 <= i < |candidates| && GetFieldSize(ctx, candidates[i]).Some?
                  && forall k :: 0 <= k < |candidates| && k != i ==> GetFieldSize(ctx, candidates[k]).None?
  {
    OneKnownValue(TypeAttributeCandidates(ctx, attributes), FieldSizeOf(ctx));
  }

  /** One size finding per local type attribute whose non-null size differs, and no other. */
  function SizeFindings(ctx: Context, localTypeAttributes: seq<DacFieldAttributeInfo>, propertyName: string,
                        foreignName: string, foreignFieldSize: int): (r: seq<Finding>)
    ensures |r| <= |localTypeAttributes|
    ensures forall f :: f in r <==>
      exists a :: a in localTypeAttributes && GetFieldSize(ctx, a).Some? && GetFieldSize(ctx, a).value != foreignFieldSize
                  && f == SizeMismatch(a.application, propertyName, foreignName, foreignFieldSize)
  {
    if localTypeAttributes == [] then []
    else
      var a := localTypeAttributes[0];
      var rest := SizeFindings(ctx, localTypeAttributes[1..], propertyName, foreignName, foreignFieldSize);
      assert forall x :: x in localTypeAttributes <==> x == a || x in localTypeAttributes[1..];
      if GetFieldSize(ctx, a).Some? && GetFieldSize(ctx, a).value != foreignFieldSize
      then [SizeMismatch(a.application, propertyName, foreignName, foreignFieldSize)] + rest
      else rest
  }

  /** The size comparison once both properties' types are confirmed: nothing unless exactly
      one foreign type attribute has a known size, and then a finding per local type
      attribute whose known size differs from it. */
  function CompareSizes(ctx: Context, localTypeAttributes: seq<DacFieldAttributeInfo>, propertyName: string,
                        foreignProperty: DacPropertyInfo): (r: seq<Finding>)
    ensures |ForeignFieldSizes(ctx, foreignProperty.attributes)| != 1 ==> r == []
    ensures |ForeignFieldSizes(ctx, foreignProperty.attributes)| == 1 ==>
      r == SizeFindings(ctx, localTypeAttributes, propertyName, foreignProperty.name, ForeignFieldSizes(ctx, foreignProperty.attributes)[0])
  {
    var foreignFieldSizes := ForeignFieldSizes(ctx, foreignProperty.attributes);
    if |foreignFieldSizes| != 1 then []
    else SizeFindings(ctx, localTypeAttributes, propertyName, foreignProperty.name, foreignFieldSizes[0])
  }

  /** CheckProperty once the foreign property is known, as written: with equal types, the
      local property's compatibility is checked first, and the foreign one's only when the
      local types are confirmed (C#'s short-circuit `||`); either check throws for a
      property without a field-type attribute. Whenever it does not throw, it agrees with
      the corrected comparison. */
  function CompareWithForeign(env: Compilation, property: DacPropertyInfo, foreignProperty: DacPropertyInfo)
    : (r: Result<seq<Finding>>)
    ensures property.propertyType != foreignProperty.propertyType ==>
      r == Ok([TypeMismatch(property.name, foreignProperty.name, foreignProperty.propertyType)])
    ensures property.propertyType == foreignProperty.propertyType && TypeAttributeCandidates(env.ctx, property.attributes) == [] ==>
      r == Ok([])
    ensures property.propertyType == foreignProperty.propertyType && TypeAttributeCandidates(env.ctx, property.attributes) != [] ==>
      (r.Err? <==> PropertyTypesAreIncompatibleAsWritten(property).Err?
                   || (PropertyTypesAreIncompatibleAsWritten(property) == Ok(false)
                       && PropertyTypesAreIncompatibleAsWritten(foreignProperty).Err?))
    ensures r.Ok? ==> r.value == CompareWithForeignCorrected(env, property, foreignProperty)
  {
    if property.propertyType != foreignProperty.propertyType then
      Ok([TypeMismatch(property.name, foreignProperty.name, foreignProperty.propertyType)])
    else
      var localTypeAttributes := TypeAttributeCandidates(env.ctx, property.attributes);
      if |localTypeAttributes| == 0 then Ok([])
      else
        var localIncompatible := PropertyTypesAreIncompatibleAsWritten(property);
        if localIncompatible.Err? then Err(localIncompatible.error)
        else if localIncompatible.value then Ok([])
        else
          var foreignIncompatible := PropertyTypesAreIncompatibleAsWritten(foreignProperty);
          if foreignIncompatible.Err? then Err(foreignIncompatible.error)
          else if foreignIncompatible.value then Ok([])
          else Ok(CompareSizes(env.ctx, localTypeAttributes, property.name, foreignProperty))
  }

  /** CheckProperty once the foreign property is known, with a property that has no
      field-type attribute taken as one whose type is not confirmed. */
  function CompareWithForeignCorrected(env: Compilation, property: DacPropertyInfo, foreignProperty: DacPropertyInfo)
    : (r: seq<Finding>)
    ensures property.propertyType != foreignProperty.propertyType ==>
      r == [TypeMismatch(property.name, foreignProperty.name, foreignProperty.propertyType)]
    ensures property.propertyType == foreignProperty.propertyType ==> forall f :: f in r ==> f.SizeMismatch?
  {
    if property.propertyType != foreignProperty.propertyType then
      [TypeMismatch(property.name, foreignProperty.name, foreignProperty.propertyType)]
    else
      var localTypeAttributes := TypeAttributeCandidates(env.ctx, property.attributes);
      if |localTypeAttributes| == 0 || PropertyTypesAreIncompatible(property) || PropertyTypesAreIncompatible(foreignProperty) then []
      else CompareSizes(env.ctx, localTypeAttributes, property.name, foreignProperty)
  }

  /** What the corrected comparison reports for properties of the same type, for all
      inputs: a size mismatch exactly for each local PXDBField-derived or unbound
      field-type attribute whose known size differs from the one known foreign size, when
      both properties' types are confirmed. */
  lemma SizeMismatchReported(env: Compilation, property: DacPropertyInfo, foreignProperty: DacPropertyInfo, f: Finding)
    requires property.propertyType == foreignProperty.propertyType
    ensures f in CompareWithForeignCorrected(env, property, foreignProperty) <==>
      !PropertyTypesAreIncompatible(property) && !PropertyTypesAreIncompatible(foreignProperty)
      && |ForeignFieldSizes(env.ctx, foreignProperty.attributes)| == 1
      && exists a :: a in property.attributes && IsTypeAttributeCandidate(env.ctx, a)
                     && GetFieldSize(env.ctx, a).Some?
                     && GetFieldSize(env.ctx, a).value != ForeignFieldSizes(env.ctx, foreignProperty.attributes)[0]
                     && f == SizeMismatch(a.application, property.name, foreignProperty.name,
                                          ForeignFieldSizes(env.ctx, foreignProperty.attributes)[0])
  {
    var localTypeAttributes := TypeAttributeCandidates(env.ctx, property.attributes);
    var sizes := ForeignFieldSizes(env.ctx, foreignProperty.attributes);
    if exists a :: a in property.attributes && IsTypeAttributeCandidate(env.ctx, a) {
      var a :| a in property.attributes && IsTypeAttributeCandidate(env.ctx, a);
      assert a in localTypeAttributes;
    }
  }

  /** A foreign property of the same type without any field-type attribute makes the
      comparison as written throw once the local property's types are confirmed; the
      corrected comparison reports nothing for it. */
  lemma ForeignWithoutTypeAttributeThrows(env: Compilation, property: DacPropertyInfo, foreignProperty: DacPropertyInfo)
    requires property.propertyType == foreignProperty.propertyType
    requires exists a :: a in property.attributes && IsTypeAttributeCandidate(env.ctx, a)
    requires PropertyTypesAreIncompatibleAsWritten(property) == Ok(false)
    requires forall a :: a in foreignProperty.attributes ==> !HasAggregatedMetadata(a)
    ensures CompareWithForeign(env, property, foreignProperty) == Err(NullReference)
    ensures CompareWithForeignCorrected(env, property, foreignProperty) == []
  {
    var a :| a in property.attributes && IsTypeAttributeCandidate(env.ctx, a);
    assert a in TypeAttributeCandidates(env.ctx, property.attributes);
    NoMetadataThrows(foreignProperty);
  }

  /** CheckProperty, with the foreign model inferred directly: nothing when the selector
      names no nested field or the field's DAC has no property of that name, the inference
      error when inferring the DAC throws, and otherwise the comparison with the foreign
      property. */
  function CheckPropertySpec(env: Compilation, property: DacPropertyInfo, foreignReferenceAttribute: DacFieldAttributeInfo)
    : (r: Result<seq<Finding>>)
    ensures ExtractForeignFieldSymbol(env, foreignReferenceAttribute).None? ==> r == Ok([])
    ensures var field := ExtractForeignFieldSymbol(env, foreignReferenceAttribute);
      field.Some? ==>
        var parentType := env.containingTypes[field.value];
        var foreignDac := InferModel(parentType, FactsOf(env, parentType));
        && (foreignDac.Err? ==> r == Err(foreignDac.error))
        && (foreignDac.Ok? && (foreignDac.value.None? || foreignDac.value.value.PropertyByName(NameOf(env, field.value)).None?)
            ==> r == Ok([]))
        && (foreignDac.Ok? && foreignDac.value.Some? && foreignDac.value.value.PropertyByName(NameOf(env, field.value)).Some?
            ==> r == CompareWithForeign(env, property, foreignDac.value.value.PropertyByName(NameOf(env, field.value)).value))
  {
    var foreignField := ExtractForeignFieldSymbol(env, foreignReferenceAttribute);
    if foreignField.None? then Ok([])
    else
      var parentType := env.containingTypes[foreignField.value];
      var foreignDac := InferModel(parentType, FactsOf(env, parentType));
      if foreignDac.Err? then Err(foreignDac.error)
      else if foreignDac.value.None? || foreignDac.value.value.PropertyByName(NameOf(env, foreignField.value)).None? then Ok([])
      else CompareWithForeign(env, property, foreignDac.value.value.PropertyByName(NameOf(env, foreignField.value)).value)
  }

  /** Findings gathered so far, followed by the outcome of the rest. */
  function Then(findings: seq<Finding>, rest: Result<seq<Finding>>): Result<seq<Finding>>
  {
    if rest.Err? then rest else Ok(findings + rest.value)
  }

  /** Analyze, with the foreign models inferred directly: the findings of every checked
      property in order; a failing inference aborts the analysis. */
  function AnalyzeSpec(env: Compilation, toCheck: seq<(DacPropertyInfo, DacFieldAttributeInfo)>): (r: Result<seq<Finding>>)
    ensures r.Err? <==> exists i :: 0 <= i < |toCheck| && CheckPropertySpec(env, toCheck[i].0, toCheck[i].1).Err?
    ensures r.Err? ==> exists i :: 0 <= i < |toCheck| && CheckPropertySpec(env, toCheck[i].0, toCheck[i].1) == Err(r.error)
    ensures r.Ok? ==> forall f :: f in r.value <==>
      exists i :: 0 <= i < |toCheck| && CheckPropertySpec(env, toCheck[i].0, toCheck[i].1).Ok?
                  && f in CheckPropertySpec(env, toCheck[i].0, toCheck[i].1).value
  {
    if toCheck == [] then Ok([])
    else
      var first := CheckPropertySpec(env, toCheck[0].0, toCheck[0].1);
      if first.Err? then Err(first.error)
      else
        var rest := AnalyzeSpec(env, toCheck[1..]);
        assert forall i :: 1 <= i < |toCheck| ==> toCheck[i] == toCheck[1..][i - 1];
        Then(first.value, rest)
  }

  lemma ThenNothing(findings: seq<Finding>, rest: Result<seq<Finding>>)
    ensures findings == [] ==> Then(findings, rest) == rest
    ensures rest == Ok([]) ==> Then(findings, rest) == Ok(findings)
  {
    if rest.Ok? {
      assert [] + rest.value == rest.value;
      assert findings + [] == findings;
    }
  }

  lemma ThenAssociates(a: seq<Finding>, b: seq<Finding>, rest: Result<seq<Finding>>)
    ensures Then(a, Then(b, rest)) == Then(a + b, rest)
  {
    if rest.Ok? {
      assert a + (b + rest.value) == (a + b) + rest.value;
    }
  }

  // ---------------------------------------------------------------------------
  // Field sizes of the shapes the PX1078 test DACs use
  // ---------------------------------------------------------------------------

  const PXDBString: TypeId := 10
  const PXDBInt: TypeId := 11
  const PXString: TypeId := 12
  const SystemStringType: TypeId := 20
  const NullableInt32Type: TypeId := 21

  const FixtureContext := Context(1, 2, 3, 4, 5, {PXString}, map[], {PXDBString, PXString})

  /** An application of a string attribute class with a `length` constructor argument. */
  function ColumnOfLength(attributeClass: TypeId, id: nat, length: int): AttributeWithApplication
  {
    AttributeWithApplication(
      Application(id, Some(attributeClass), Some([Parameter("length", SystemInt32)]), [IntValue(length)]),
      attributeClass)
  }

  function StringOfLength(id: nat, length: int): AttributeWithApplication
  {
    ColumnOfLength(PXDBString, id, length)
  }

  const IntColumn := AttributeWithApplication(Application(3, Some(PXDBInt), Some([]), []), PXDBInt)

  function Attribute(flattened: seq<AttributeWithApplication>): DacFieldAttributeInfo
  {
    DacFieldAttributeInfo(Application(0, Some(2), Some([]), []), [], DbBound, flattened, None)
  }

  lemma StringLength(id: nat, length: int)
    ensures GetLengthConstructorArgument(FixtureContext, StringOfLength(id, length).application) == Some(length)
    ensures GetLengthConstructorArgument(FixtureContext, ColumnOfLength(PXString, id, length).application) == Some(length)
  {
    var parameters := [Parameter("length", SystemInt32)];
    assert ToUpper("length") == "LENGTH";
    assert IsLengthParameter(parameters[0]);
    assert LengthParameterIndex(parameters) == 0;
  }

  /** [PXDBString(25)] has size 25, and an aggregator of PXDBString(16) twice has size 16. */
  lemma SingleLengthIsTheSize()
    ensures GetFieldSize(FixtureContext, Attribute([StringOfLength(1, 25)])) == Some(25)
    ensures GetFieldSize(FixtureContext, Attribute([StringOfLength(1, 16), StringOfLength(2, 16)])) == Some(16)
  {
    StringLength(1, 25);
    StringLength(1, 16);
    StringLength(2, 16);
    var one := [StringOfLength(1, 25)];
    assert DeclaredLengths(FixtureContext, one[1..]) == [];
    assert DeclaredLengths(FixtureContext, one) == [25];
    assert Distinct([25]) == [25];
    var two := [StringOfLength(1, 16), StringOfLength(2, 16)];
    assert two[1..][1..] == [];
    assert DeclaredLengths(FixtureContext, two[1..]) == [16];
    assert DeclaredLengths(FixtureContext, two) == [16, 16];
    assert [16, 16][..1] == [16];
    assert Distinct([16]) == [16];
    assert Distinct([16, 16]) == [16];
  }

  /** An aggregator of PXDBString(25) and PXDBString(12) has no size. */
  lemma ConflictingLengthsHaveNoSize()
    ensures GetFieldSize(FixtureContext, Attribute([StringOfLength(1, 25), StringOfLength(2, 12)])).None?
  {
    StringLength(1, 25);
    StringLength(2, 12);
    var two := [StringOfLength(1, 25), StringOfLength(2, 12)];
    assert two[1..][1..] == [];
    assert DeclaredLengths(FixtureContext, two[1..]) == [12];
    assert DeclaredLengths(FixtureContext, two) == [25, 12];
    assert [25, 12][..1] == [25];
    assert Distinct([25]) == [25];
    assert Distinct([25, 12]) == [25, 12];
  }

  /** A PXDBInt column declares no length, so its size is -1. */
  lemma NoLengthIsMinusOne()
    ensures GetFieldSize(FixtureContext, Attribute([IntColumn])) == Some(-1)
  {
    var one := [IntColumn];
    assert GetLengthConstructorArgument(FixtureContext, IntColumn.application).None?;
    assert DeclaredLengths(FixtureContext, one[1..]) == [];
    assert DeclaredLengths(FixtureContext, one) == [];
  }

  // ---------------------------------------------------------------------------
  // The PX1078 test DACs, compared with SYSubstitution.SubstitutionID
  // ---------------------------------------------------------------------------

  const StringItem := FieldTypeMetadata(true, Some(SystemStringType), false)

  /** [PXDBString(length)]: flattened to PXDBString and its base PXDBField. */
  function DbString(id: nat, length: int): DacFieldAttributeInfo
  {
    var column := StringOfLength(id, length);
    DacFieldAttributeInfo(column.application, [StringItem], DbBound,
      [column, AttributeWithApplication(column.application, FixtureContext.dbField)], None)
  }

  /** An aggregate attribute declaring [PXDBString(dbLength)] and [PXString(length)]. */
  function AggregatedString(id: nat, dbLength: int, length: int): DacFieldAttributeInfo
  {
    var aggregate := AttributeWithApplication(Application(id, Some(FixtureContext.aggregate), Some([]), []), FixtureContext.aggregate);
    var column := StringOfLength(id + 1, dbLength);
    DacFieldAttributeInfo(aggregate.application, [StringItem, StringItem], DbBound,
      [aggregate, column, AttributeWithApplication(column.application, FixtureContext.dbField),
       ColumnOfLength(PXString, id + 2, length)], None)
  }

  function FixtureProperty(name: string, propertyType: TypeId, attributes: seq<DacFieldAttributeInfo>): DacPropertyInfo
  {
    DacPropertyInfo(name, 30, true, DbBound, false, propertyType, propertyType, attributes, None, None)
  }

  const SubstitutionID := FixtureProperty("SubstitutionID", SystemStringType, [DbString(50, 25)])

  const FixtureCompilation := Compilation(SymbolTable(map[], map[], map[]), FixtureContext,
    {}, {}, {}, map[], map[], map[], map[])

  lemma DbStringFacts(id: nat, length: int)
    ensures IsTypeAttributeCandidate(FixtureContext, DbString(id, length))
    ensures GetFieldSize(FixtureContext, DbString(id, length)) == Some(length)
  {
    var a := DbString(id, length);
    StringLength(id, length);
    assert a.flattened[1] in a.flattened;
    assert a.flattened[1..][1..] == [];
    assert DeclaredLengths(FixtureContext, a.flattened[1..]) == [length];
    assert DeclaredLengths(FixtureContext, a.flattened) == [length, length];
  }

  /** The lengths an aggregator of PXDBString(dbLength) and PXString(length) declares. */
  lemma AggregatedStringLengths(id: nat, dbLength: int, length: int)
    ensures DeclaredLengths(FixtureContext, AggregatedString(id, dbLength, length).flattened) == [dbLength, dbLength, length]
  {
    var f := AggregatedString(id, dbLength, length).flattened;
    StringLength(id + 1, dbLength);
    StringLength(id + 2, length);
    var f3 := f[3..];
    assert f3 == [ColumnOfLength(PXString, id + 2, length)] && f3[1..] == [];
    assert DeclaredLengths(FixtureContext, f3) == [length];
    assert f[2..][1..] == f3;
    assert DeclaredLengths(FixtureContext, f[2..]) == [dbLength, length];
    assert f[1..][1..] == f[2..];
    assert DeclaredLengths(FixtureContext, f[1..]) == [dbLength, dbLength, length];
    assert f[0].application.attributeClass == Some(FixtureContext.aggregate);
    assert GetLengthConstructorArgument(FixtureContext, f[0].application).None?;
  }

  lemma AggregatedStringFacts(id: nat, dbLength: int, length: int)
    ensures IsTypeAttributeCandidate(FixtureContext, AggregatedString(id, dbLength, length))
    ensures dbLength == length ==> GetFieldSize(FixtureContext, AggregatedString(id, dbLength, length)) == Some(length)
    ensures dbLength != length ==> GetFieldSize(FixtureContext, AggregatedString(id, dbLength, length)).None?
  {
    var a := AggregatedString(id, dbLength, length);
    assert a.flattened[2] in a.flattened;
    AggregatedStringLengths(id, dbLength, length);
    var lengths := [dbLength, dbLength, length];
    assert lengths[..2] == [dbLength, dbLength] && lengths[..2][..1] == [dbLength];
    assert [dbLength][..0] == [];
    assert Distinct([dbLength]) == [dbLength];
    assert Distinct([dbLength, dbLength]) == [dbLength];
    if dbLength == length {
      assert Distinct(lengths) == [dbLength];
    } else {
      assert Distinct(lengths) == [dbLength, length];
    }
  }

  /** A string property whose attributes with metadata declare only strings has its types
      confirmed. */
  lemma StringPropertyConfirmed(name: string, attribute: DacFieldAttributeInfo)
    requires |attribute.aggregatedMetadata| > 0 && forall m :: m in attribute.aggregatedMetadata ==> m == StringItem
    ensures PropertyTypesAreIncompatibleAsWritten(FixtureProperty(name, SystemStringType, [attribute])) == Ok(false)
  {
    var attrs := [attribute];
    assert attrs[..0] == [];
    assert Filter(attrs, HasAggregatedMetadata) == attrs;
    assert attribute.aggregatedMetadata[0] in attribute.aggregatedMetadata;
    assert FieldDataTypes(attribute) == {SystemStringType};
    assert Filter(attrs, IsTypeAttribute) == attrs;
    assert Filter(attrs, HasConflictingDataTypes) == [];
  }

  /** Properties of the test DAC whose one attribute is `attribute`, compared with
      SubstitutionID ([PXDBString(25)]). */
  lemma FixtureComparison(name: string, attribute: DacFieldAttributeInfo, size: Option<int>)
    requires |attribute.aggregatedMetadata| > 0 && forall m :: m in attribute.aggregatedMetadata ==> m == StringItem
    requires IsTypeAttributeCandidate(FixtureContext, attribute) && GetFieldSize(FixtureContext, attribute) == size
    ensures CompareWithForeign(FixtureCompilation, FixtureProperty(name, SystemStringType, [attribute]), SubstitutionID) ==
      Ok(if size.Some? && size.value != 25 then [SizeMismatch(attribute.application, name, "SubstitutionID", 25)] else [])
  {
    var property := FixtureProperty(name, SystemStringType, [attribute]);
    StringPropertyConfirmed(name, attribute);
    StringPropertyConfirmed("SubstitutionID", DbString(50, 25));
    SubstitutionSize();
    assert [attribute][..0] == [];
    assert TypeAttributeCandidates(FixtureContext, property.attributes) == [attribute];
    OneAttributeSizeFindings(name, attribute, size);
  }

  /** The size findings of one local attribute against SubstitutionID's size 25. */
  lemma OneAttributeSizeFindings(name: string, attribute: DacFieldAttributeInfo, size: Option<int>)
    requires GetFieldSize(FixtureContext, attribute) == size
    ensures ForeignFieldSizes(FixtureContext, SubstitutionID.attributes) == [25]
    ensures CompareSizes(FixtureContext, [attribute], name, SubstitutionID) ==
      if size.Some? && size.value != 25 then [SizeMismatch(attribute.application, name, "SubstitutionID", 25)] else []
  {
    SubstitutionSize();
    assert [attribute][1..] == [];
  }

  /** SubstitutionID's one type attribute has size 25. */
  lemma SubstitutionSize()
    ensures ForeignFieldSizes(FixtureContext, SubstitutionID.attributes) == [25]
  {
    DbStringFacts(50, 25);
    var attrs := [DbString(50, 25)];
    assert attrs[..0] == [];
    assert TypeAttributeCandidates(FixtureContext, attrs) == attrs;
    assert KnownValues(attrs[..0], FieldSizeOf(FixtureContext)) == [];
    assert FieldSizeOf(FixtureContext)(attrs[0]) == Some(25);
  }

  /** PaymentTermsListID ([PXDBString(16)]) gets a size mismatch against 25. */
  lemma PaymentTermsListIDFixture()
    ensures CompareWithForeign(FixtureCompilation, FixtureProperty("PaymentTermsListID", SystemStringType, [DbString(1, 16)]), SubstitutionID)
      == Ok([SizeMismatch(DbString(1, 16).application, "PaymentTermsListID", "SubstitutionID", 25)])
  {
    DbStringFacts(1, 16);
    FixtureComparison("PaymentTermsListID", DbString(1, 16), Some(16));
  }

  /** Aggregated16 (PXDBString(16) with PXString(16)) gets a size mismatch against 25. */
  lemma Aggregated16Fixture()
    ensures CompareWithForeign(FixtureCompilation, FixtureProperty("Aggregated16", SystemStringType, [AggregatedString(2, 16, 16)]), SubstitutionID)
      == Ok([SizeMismatch(AggregatedString(2, 16, 16).application, "Aggregated16", "SubstitutionID", 25)])
  {
    AggregatedStringFacts(2, 16, 16);
    FixtureComparison("Aggregated16", AggregatedString(2, 16, 16), Some(16));
  }

  /** AggregatedOk (PXDBString(25) with PXString(25)) matches the foreign size. */
  lemma AggregatedOkFixture()
    ensures CompareWithForeign(FixtureCompilation, FixtureProperty("AggregatedOk", SystemStringType, [AggregatedString(5, 25, 25)]), SubstitutionID)
      == Ok([])
  {
    AggregatedStringFacts(5, 25, 25);
    FixtureComparison("AggregatedOk", AggregatedString(5, 25, 25), Some(25));
  }

  /** AggregatedInconsistent (PXDBString(25) with PXString(12)) has no size and is skipped. */
  lemma AggregatedInconsistentFixture()
    ensures CompareWithForeign(FixtureCompilation, FixtureProperty("AggregatedInconsistent", SystemStringType, [AggregatedString(8, 25, 12)]), SubstitutionID)
      == Ok([])
  {
    AggregatedStringFacts(8, 25, 12);
    FixtureComparison("AggregatedInconsistent", AggregatedString(8, 25, 12), None);
  }

  // ---------------------------------------------------------------------------
  // The analyzer and its cache of DAC models
  // ---------------------------------------------------------------------------

  class MismatchAnalyzer {
    var modelsCache: map<TypeId, Option<DacSemanticModel>>

    /** Every cached model is the one inference gives. */
    ghost predicate CacheValid(env: Compilation)
      reads this
    {
      forall t :: t in modelsCache ==> InferModel(t, FactsOf(env, t)) == Ok(modelsCache[t])
    }

    constructor ()
      ensures modelsCache == map[]
    {
      modelsCache := map[];
    }

    /** GetOrInferModel: the cached model, or a new one that is then cached. */
    method GetOrInferModel(env: Compilation, t: TypeId) returns (r: Result<Option<DacSemanticModel>>)
      requires CacheValid(env)
      modifies this
      ensures CacheValid(env)
      ensures r == InferModel(t, FactsOf(env, t))
      ensures t in old(modelsCache) || r.Err? ==> modelsCache == old(modelsCache)
      ensures t !in old(modelsCache) && r.Ok? ==> modelsCache == old(modelsCache)[t := r.value]
    {
      if t in modelsCache {
        return Ok(modelsCache[t]);
      }
      r := InferModel(t, FactsOf(env, t));
      if r.Ok? {
        modelsCache := modelsCache[t := r.value];
      }
    }

    /** CheckProperty. */
    method CheckProperty(env: Compilation, property: DacPropertyInfo, foreignReferenceAttribute: DacFieldAttributeInfo)
      returns (r: Result<seq<Finding>>)
      requires CacheValid(env)
      modifies this
      ensures CacheValid(env)
      ensures r == CheckPropertySpec(env, property, foreignReferenceAttribute)
    {
      var foreignField := ExtractForeignFieldSymbol(env, foreignReferenceAttribute);
      if foreignField.None? {
        return Ok([]);
      }
      var parentType := env.containingTypes[foreignField.value];
      var foreignDac := GetOrInferModel(env, parentType);
      if foreignDac.Err? {
        return Err(foreignDac.error);
      }
      if foreignDac.value.None? || foreignDac.value.value.PropertyByName(NameOf(env, foreignField.value)).None? {
        return Ok([]);
      }
      var foreignProperty := foreignDac.value.value.PropertyByName(NameOf(env, foreignField.value)).value;
      r := CompareWithForeign(env, property, foreignProperty);
    }

    /** Analyze: checks every chosen property in turn and collects the findings. */
    method Analyze(env: Compilation, dacProperties: seq<DacPropertyInfo>) returns (r: Result<seq<Finding>>)
      requires CacheValid(env)
      modifies this
      ensures CacheValid(env)
      ensures r == AnalyzeSpec(env, PropertiesToCheck(env.st, env.ctx, dacProperties))
    {
      var propertiesToCheck := PropertiesToCheck(env.st, env.ctx, dacProperties);
      var findings: seq<Finding> := [];
      assert propertiesToCheck[0..] == propertiesToCheck;
      ThenNothing([], AnalyzeSpec(env, propertiesToCheck));
      var i := 0;
      while i < |propertiesToCheck|
        invariant 0 <= i <= |propertiesToCheck|
        invariant CacheValid(env)
        invariant AnalyzeSpec(env, propertiesToCheck) == Then(findings, AnalyzeSpec(env, propertiesToCheck[i..]))
      {
        var found := CheckProperty(env, propertiesToCheck[i].0, propertiesToCheck[i].1);
        assert propertiesToCheck[i..][1..] == propertiesToCheck[i + 1..];
        if found.Err? {
          return Err(found.error);
        }
        ThenAssociates(findings, found.value, AnalyzeSpec(env, propertiesToCheck[i + 1..]));
        findings := findings + found.value;
        i := i + 1;
      }
      assert propertiesToCheck[i..] == [];
      ThenNothing(findings, Ok([]));
      return Ok(findings);
    }
  }
}
