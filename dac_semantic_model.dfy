/** The semantic model of a DAC or DAC extension (DacSemanticModel): its kind, its
    attributes in declaration order, its fields and properties keyed case-insensitively,
    and the views derived from them. What Roslyn reports about the type is an input. */
module DacSemanticModels {
  import opened Wrappers
  import opened Symbols
  import opened AttributeInfos
  import opened Text

  datatype DacType = Dac | DacExtension

  /** A DAC field (the nested BQL field class). */
  datatype DacFieldInfo = DacFieldInfo(name: string, containingType: TypeId)

  /** An attribute written on the DAC class, numbered by its position. */
  datatype DacAttributeInfo = DacAttributeInfo(application: Application, relativeOrder: nat, isPXProjection: bool)

  /** An attribute application on the class together with whether it is PXProjection. */
  datatype ClassAttribute = ClassAttribute(application: Application, isPXProjection: bool)

  /** What the symbol helpers report about one type: its classification, its declaration,
      its attributes, and the fields and properties collected for it (the collections the
      DAC and the DAC-extension-with-base-DAC helpers return). */
  datatype TypeFacts = TypeFacts(
    isDac: bool,
    isDacExtension: bool,
    hasClassDeclaration: bool,
    dacOfExtension: TypeId,
    inheritsMappedCacheExtension: bool,
    attributes: seq<ClassAttribute>,
    fieldsOfDac: seq<DacFieldInfo>,
    fieldsOfExtensionAndBaseDac: seq<DacFieldInfo>,
    propertiesOfDac: seq<DacPropertyInfo>,
    propertiesOfExtensionAndBaseDac: seq<DacPropertyInfo>,
    isActiveMethod: Option<Location>)

  datatype DacSemanticModel = DacSemanticModel(
    dacType: DacType,
    symbol: TypeId,
    dacSymbol: TypeId,
    isMappedCacheExtension: bool,
    attributes: seq<DacAttributeInfo>,
    fieldsByNames: map<string, DacFieldInfo>,
    propertiesByNames: map<string, DacPropertyInfo>,
    isActiveMethodInfo: Option<Location>,
    isFullyUnbound: bool,
    isProjectionDac: bool)
  {
    function Properties(): set<DacPropertyInfo>
    {
      propertiesByNames.Values
    }

    function DacProperties(): set<DacPropertyInfo>
    {
      set p | p in Properties() && p.isDacProperty
    }

    function AllDeclaredProperties(): set<DacPropertyInfo>
    {
      set p | p in Properties() && p.containingType == symbol
    }

    function DeclaredDacProperties(): (r: set<DacPropertyInfo>)
      ensures r == AllDeclaredProperties() * DacProperties()
    {
      set p | p in Properties() && p.isDacProperty && p.containingType == symbol
    }

    function Fields(): set<DacFieldInfo>
    {
      fieldsByNames.Values
    }

    function DeclaredFields(): set<DacFieldInfo>
    {
      set f | f in Fields() && f.containingType == symbol
    }

    /** PropertiesByNames.TryGetValue: a lookup that ignores the case of the name. */
    function PropertyByName(name: string): (r: Option<DacPropertyInfo>)
      ensures r.Some? ==> r.value in Properties()
    {
      if ToUpper(name) in propertiesByNames then Some(propertiesByNames[ToUpper(name)]) else None
    }
  }

  // ---------------------------------------------------------------------------
  // Case-insensitive dictionaries
  // ---------------------------------------------------------------------------

  /** Two entries whose names differ only in case but whose values differ. */
  ghost predicate HasCaseConflict<V>(entries: seq<(string, V)>)
  {
    exists i, j :: 0 <= i < j < |entries| && ToUpper(entries[i].0) == ToUpper(entries[j].0) && entries[i].1 != entries[j].1
  }

  /** ToImmutableDictionary with the OrdinalIgnoreCase comparer: keys are the upper-cased
      names; an entry whose key is already present with another value throws. */
  function CaseInsensitiveMap<V(==)>(entries: seq<(string, V)>): Result<map<string, V>>
  {
    if entries == [] then Ok(map[])
    else
      match CaseInsensitiveMap(entries[..|entries| - 1])
      case Err(e) => Err(e)
      case Ok(m) =>
        var (name, value) := entries[|entries| - 1];
        if ToUpper(name) in m && m[ToUpper(name)] != value then Err(ArgumentException("key"))
        else Ok(m[ToUpper(name) := value])
  }

  /** The dictionary is built exactly when no two names collide with different values. */
  lemma {:induction false} CaseInsensitiveMapOk<V>(entries: seq<(string, V)>)
    ensures CaseInsensitiveMap(entries).Ok? <==> !HasCaseConflict(entries)
  {
    if entries != [] {
      var n := |entries| - 1;
      var prefix := entries[..n];
      CaseInsensitiveMapOk(prefix);
      if HasCaseConflict(prefix) {
        var i, j :| 0 <= i < j < |prefix| && ToUpper(prefix[i].0) == ToUpper(prefix[j].0) && prefix[i].1 != prefix[j].1;
        assert entries[i] == prefix[i] && entries[j] == prefix[j];
      } else {
        var m := CaseInsensitiveMap(prefix).value;
        var (name, value) := entries[n];
        if ToUpper(name) in m && m[ToUpper(name)] != value {
          var i := CaseInsensitiveMapKey(prefix, ToUpper(name));
          CaseInsensitiveMapFinds(prefix, i);
          assert entries[i] == prefix[i];
        } else {
          forall i, j | 0 <= i < j < |entries| && ToUpper(entries[i].0) == ToUpper(entries[j].0)
            ensures entries[i].1 == entries[j].1
          {
            assert entries[i] == prefix[i];
            if j < n {
              assert entries[j] == prefix[j];
            } else {
              CaseInsensitiveMapFinds(prefix, i);
            }
          }
        }
      }
    }
  }

  /** A built dictionary finds every entry under its upper-cased name. */
  lemma {:induction false} CaseInsensitiveMapFinds<V>(entries: seq<(string, V)>, i: nat)
    requires CaseInsensitiveMap(entries).Ok? && i < |entries|
    ensures ToUpper(entries[i].0) in CaseInsensitiveMap(entries).value
    ensures CaseInsensitiveMap(entries).value[ToUpper(entries[i].0)] == entries[i].1
  {
    var n := |entries| - 1;
    if i < n {
      CaseInsensitiveMapFinds(entries[..n], i);
      assert entries[i] == entries[..n][i];
    }
  }

  /** Every key of a built dictionary comes from an entry. */
  lemma {:induction false} CaseInsensitiveMapKey<V>(entries: seq<(string, V)>, k: string) returns (i: nat)
    requires CaseInsensitiveMap(entries).Ok? && k in CaseInsensitiveMap(entries).value
    ensures i < |entries| && k == ToUpper(entries[i].0)
  {
    var n := |entries| - 1;
    if k == ToUpper(entries[n].0) {
      i := n;
    } else {
      i := CaseInsensitiveMapKey(entries[..n], k);
      assert entries[i] == entries[..n][i];
    }
  }

  function PropertyName(p: DacPropertyInfo): string { p.name }

  function FieldName(f: DacFieldInfo): string { f.name }

  /** The (name, value) entries ToImmutableDictionary is given: each item keyed by its name,
      in order. */
  function KeyedByName<T>(items: seq<T>, name: T -> string): seq<(string, T)>
  {
    seq(|items|, i requires 0 <= i < |items| => (name(items[i]), items[i]))
  }

  // ---------------------------------------------------------------------------
  // Building the model
  // ---------------------------------------------------------------------------

  /** GetDacAttributes: each attribute numbered by its position. */
  function DacAttributes(attributes: seq<ClassAttribute>): (r: seq<DacAttributeInfo>)
    ensures |r| == |attributes|
    ensures forall i :: 0 <= i < |r| ==>
      r[i] == DacAttributeInfo(attributes[i].application, i, attributes[i].isPXProjection)
  {
    seq(|attributes|, i requires 0 <= i < |attributes| =>
      DacAttributeInfo(attributes[i].application, i, attributes[i].isPXProjection))
  }

  /** The IsFullyUnbound test over a set of properties. */
  predicate AllUnboundOrNotDefined(props: set<DacPropertyInfo>)
  {
    forall p :: p in props ==> p.effectiveBoundness == Unbound || p.effectiveBoundness == NotDefined
  }

  /** CheckIfDacIsProjection: only a DAC, never an extension, is a projection, and only
      when one of its attributes is PXProjection. */
  function CheckIfDacIsProjection(dacType: DacType, attributes: seq<DacAttributeInfo>): (r: bool)
    ensures r ==> dacType == Dac && |attributes| > 0
    ensures r <==> dacType == Dac && exists a :: a in attributes && a.isPXProjection
  {
    if dacType != Dac || |attributes| == 0 then false
    else exists i :: 0 <= i < |attributes| && attributes[i].isPXProjection
  }

  /** The constructor, from the maps it builds on. */
  function NewModel(dacType: DacType, t: TypeId, facts: TypeFacts,
                    fields: map<string, DacFieldInfo>, properties: map<string, DacPropertyInfo>): (r: DacSemanticModel)
    ensures r.dacType == dacType && r.symbol == t
    ensures r.dacSymbol == (if dacType == Dac then t else facts.dacOfExtension)
    ensures r.isActiveMethodInfo == (if dacType == Dac then None else facts.isActiveMethod)
    ensures r.isFullyUnbound <==> forall p :: p in r.DacProperties() ==> p.effectiveBoundness in {Unbound, NotDefined}
    ensures r.isProjectionDac <==> dacType == Dac && exists i :: 0 <= i < |facts.attributes| && facts.attributes[i].isPXProjection
  {
    var attributes := DacAttributes(facts.attributes);
    var model := DacSemanticModel(dacType, t, if dacType == Dac then t else facts.dacOfExtension,
                                  facts.inheritsMappedCacheExtension, attributes, fields, properties,
                                  if dacType == DacExtension then facts.isActiveMethod else None, false, false);
    model.(isFullyUnbound := AllUnboundOrNotDefined(model.DacProperties()),
           isProjectionDac := CheckIfDacIsProjection(dacType, attributes))
  }

  /** InferModel: None unless the type is a DAC or a DAC extension with a class
      declaration (a DAC wins over an extension); the dictionaries throw on names that
      differ only in case. */
  function InferModel(t: TypeId, facts: TypeFacts): (r: Result<Option<DacSemanticModel>>)
    ensures !(facts.isDac || facts.isDacExtension) || !facts.hasClassDeclaration ==> r == Ok(None)
    ensures r.Ok? && r.value.Some? ==>
      && r.value.value.symbol == t
      && r.value.value.dacType == (if facts.isDac then Dac else DacExtension)
      && r.value.value.dacSymbol == (if facts.isDac then t else facts.dacOfExtension)
      && r.value.value.isActiveMethodInfo == (if facts.isDac then None else facts.isActiveMethod)
  {
    if !(facts.isDac || facts.isDacExtension) || !facts.hasClassDeclaration then Ok(None)
    else
      var dacType := if facts.isDac then Dac else DacExtension;
      var fields := CaseInsensitiveMap(KeyedByName(if dacType == Dac then facts.fieldsOfDac else facts.fieldsOfExtensionAndBaseDac, FieldName));
      if fields.Err? then Err(fields.error)
      else
        var properties := CaseInsensitiveMap(KeyedByName(
          if dacType == Dac then facts.propertiesOfDac else facts.propertiesOfExtensionAndBaseDac, PropertyName));
        if properties.Err? then Err(properties.error)
        else Ok(Some(NewModel(dacType, t, facts, fields.value, properties.value)))
  }

  /** The collected properties the model is built from. */
  function CollectedProperties(facts: TypeFacts): seq<DacPropertyInfo>
  {
    if facts.isDac then facts.propertiesOfDac else facts.propertiesOfExtensionAndBaseDac
  }

  /** A built model finds every collected property under its name in any case, and holds
      no other property. */
  lemma InferredPropertiesByName(t: TypeId, facts: TypeFacts, i: nat, name: string)
    requires InferModel(t, facts).Ok? && InferModel(t, facts).value.Some?
    requires i < |CollectedProperties(facts)| && EqualsIgnoreCase(name, CollectedProperties(facts)[i].name)
    ensures InferModel(t, facts).value.value.PropertyByName(name) == Some(CollectedProperties(facts)[i])
  {
    var entries := KeyedByName(CollectedProperties(facts), PropertyName);
    CaseInsensitiveMapFinds(entries, i);
  }

  function CollectedFields(facts: TypeFacts): seq<DacFieldInfo>
  {
    if facts.isDac then facts.fieldsOfDac else facts.fieldsOfExtensionAndBaseDac
  }

  /** InferModel throws exactly when a DAC or extension has two fields, or two properties,
      whose names differ only in case and which are different members. */
  lemma InferModelFails(t: TypeId, facts: TypeFacts)
    ensures InferModel(t, facts).Err? <==>
      (facts.isDac || facts.isDacExtension) && facts.hasClassDeclaration
      && (HasCaseConflict(KeyedByName(CollectedFields(facts), FieldName)) || HasCaseConflict(KeyedByName(CollectedProperties(facts), PropertyName)))
  {
    CaseInsensitiveMapOk(KeyedByName(CollectedFields(facts), FieldName));
    CaseInsensitiveMapOk(KeyedByName(CollectedProperties(facts), PropertyName));
  }

  /** The properties of a built model are exactly the collected ones. */
  lemma InferredPropertiesAreCollected(t: TypeId, facts: TypeFacts, p: DacPropertyInfo)
    requires InferModel(t, facts).Ok? && InferModel(t, facts).value.Some?
    ensures p in InferModel(t, facts).value.value.Properties() <==> p in CollectedProperties(facts)
  {
    var entries := KeyedByName(CollectedProperties(facts), PropertyName);
    var m := InferModel(t, facts).value.value.propertiesByNames;
    assert m == CaseInsensitiveMap(entries).value;
    if p in m.Values {
      var k :| k in m && m[k] == p;
      var i := CaseInsensitiveMapKey(entries, k);
      CaseInsensitiveMapFinds(entries, i);
    }
    if p in CollectedProperties(facts) {
      var i :| 0 <= i < |CollectedProperties(facts)| && CollectedProperties(facts)[i] == p;
      CaseInsensitiveMapFinds(entries, i);
    }
  }

  /** The fields of a built model are exactly the collected ones. */
  lemma InferredFieldsAreCollected(t: TypeId, facts: TypeFacts, f: DacFieldInfo)
    requires InferModel(t, facts).Ok? && InferModel(t, facts).value.Some?
    ensures f in InferModel(t, facts).value.value.Fields() <==> f in CollectedFields(facts)
  {
    var entries := KeyedByName(CollectedFields(facts), FieldName);
    var m := InferModel(t, facts).value.value.fieldsByNames;
    assert m == CaseInsensitiveMap(entries).value;
    if f in m.Values {
      var k :| k in m && m[k] == f;
      var i := CaseInsensitiveMapKey(entries, k);
      CaseInsensitiveMapFinds(entries, i);
    }
    if f in CollectedFields(facts) {
      var i :| 0 <= i < |CollectedFields(facts)| && CollectedFields(facts)[i] == f;
      CaseInsensitiveMapFinds(entries, i);
    }
  }

  /** A lookup by name in a built model answers with a collected property whose name
      equals the one asked for up to case, and fails only when no collected property
      has such a name. */
  lemma InferredPropertyByNameIsCollected(t: TypeId, facts: TypeFacts, name: string)
    requires InferModel(t, facts).Ok? && InferModel(t, facts).value.Some?
    ensures InferModel(t, facts).value.value.PropertyByName(name).Some? ==>
      exists i :: 0 <= i < |CollectedProperties(facts)|
        && CollectedProperties(facts)[i] == InferModel(t, facts).value.value.PropertyByName(name).value
        && EqualsIgnoreCase(name, CollectedProperties(facts)[i].name)
    ensures InferModel(t, facts).value.value.PropertyByName(name).None? ==>
      forall i :: 0 <= i < |CollectedProperties(facts)| ==> !EqualsIgnoreCase(name, CollectedProperties(facts)[i].name)
  {
    var entries := KeyedByName(CollectedProperties(facts), PropertyName);
    var model := InferModel(t, facts).value.value;
    assert model.propertiesByNames == CaseInsensitiveMap(entries).value;
    if model.PropertyByName(name).Some? {
      var i := CaseInsensitiveMapKey(entries, ToUpper(name));
      CaseInsensitiveMapFinds(entries, i);
      assert entries[i] == (PropertyName(CollectedProperties(facts)[i]), CollectedProperties(facts)[i]);
    } else {
      forall i | 0 <= i < |CollectedProperties(facts)|
        ensures !EqualsIgnoreCase(name, CollectedProperties(facts)[i].name)
      {
        CaseInsensitiveMapFinds(entries, i);
        assert entries[i].0 == PropertyName(CollectedProperties(facts)[i]);
      }
    }
  }

  /** The DAC properties of a built model are the collected properties that are DAC
      properties, and its declared properties the collected ones the type itself declares. */
  lemma InferredPropertyViews(t: TypeId, facts: TypeFacts, p: DacPropertyInfo)
    requires InferModel(t, facts).Ok? && InferModel(t, facts).value.Some?
    ensures p in InferModel(t, facts).value.value.DacProperties() <==> p in CollectedProperties(facts) && p.isDacProperty
    ensures p in InferModel(t, facts).value.value.AllDeclaredProperties() <==> p in CollectedProperties(facts) && p.containingType == t
    ensures p in InferModel(t, facts).value.value.DeclaredDacProperties() <==>
      p in CollectedProperties(facts) && p.isDacProperty && p.containingType == t
  {
    InferredPropertiesAreCollected(t, facts, p);
  }

  /** The declared fields of a built model are the collected fields the type itself declares. */
  lemma InferredDeclaredFields(t: TypeId, facts: TypeFacts, f: DacFieldInfo)
    requires InferModel(t, facts).Ok? && InferModel(t, facts).value.Some?
    ensures f in InferModel(t, facts).value.value.DeclaredFields() <==> f in CollectedFields(facts) && f.containingType == t
  {
    InferredFieldsAreCollected(t, facts, f);
  }

  /** A built model is a projection exactly when the type is a DAC carrying PXProjection. */
  lemma InferredProjection(t: TypeId, facts: TypeFacts)
    requires InferModel(t, facts).Ok? && InferModel(t, facts).value.Some?
    ensures InferModel(t, facts).value.value.isProjectionDac <==>
      facts.isDac && exists a :: a in facts.attributes && a.isPXProjection
  {
    var attrs := facts.attributes;
    if exists a :: a in attrs && a.isPXProjection {
      var a :| a in attrs && a.isPXProjection;
      var i :| 0 <= i < |attrs| && attrs[i] == a;
    }
  }
}
