/** The part of the Roslyn symbol table that the attribute analyzers query, as plain
    relations over type identities: a base-type chain per type, the attribute applications
    declared on each type, and the special type of each type. */
module Symbols {
  import opened Wrappers

  /** A type symbol, compared by identity (SymbolEqualityComparer.Default). */
  type TypeId = nat

  /** Roslyn's SpecialType, restricted to the values the analyzers distinguish. */
  datatype SpecialType =
    | NotSpecial
    | SystemObject | SystemVoid | SystemBoolean | SystemChar
    | SystemSByte | SystemByte | SystemInt16 | SystemUInt16 | SystemInt32 | SystemUInt32
    | SystemInt64 | SystemUInt64 | SystemDecimal | SystemSingle | SystemDouble
    | SystemString | SystemIntPtr | SystemUIntPtr | SystemDateTime | SystemArray
    | OtherSpecial

  /** A constant passed to an attribute constructor. */
  datatype ArgValue = IntValue(i: int) | TypeValue(t: TypeId) | OtherValue

  /** A constructor parameter: its name and the special type of its type. */
  datatype Parameter = Parameter(name: string, parameterType: SpecialType)

  /** One attribute application (Roslyn's AttributeData). `id` tells two applications of
      the same class apart; the class is absent when it does not resolve; the constructor
      is absent when overload resolution failed. */
  datatype Application = Application(
    id: nat,
    attributeClass: Option<TypeId>,
    constructorParameters: Option<seq<Parameter>>,
    constructorArguments: seq<ArgValue>)

  datatype SymbolTable = SymbolTable(
    bases: map<TypeId, seq<TypeId>>,                  // strict base types, nearest first
    declaredAttributes: map<TypeId, seq<Application>>, // attributes written on the type itself
    specialTypes: map<TypeId, SpecialType>)

  /** The well-known Acumatica types the analyzers look up (PXContext). */
  datatype Context = Context(
    eventSubscriber: TypeId,       // PXEventSubscriberAttribute
    aggregate: TypeId,             // PXAggregateAttribute
    dynamicAggregate: TypeId,      // PXDynamicAggregateAttribute
    dbField: TypeId,               // PXDBFieldAttribute
    selector: TypeId,              // PXSelectorAttribute
    unboundFieldTypeAttributes: set<TypeId>,      // PXStringAttribute, PXIntAttribute, ...
    hardcodedLength: map<TypeId, int>,            // DataAttributesWithHardcodedLength
    attributesWithLength: set<TypeId>)            // DataAttributesWithLength

  function BaseTypes(st: SymbolTable, t: TypeId): seq<TypeId>
  {
    if t in st.bases then st.bases[t] else []
  }

  function BaseTypesAndThis(st: SymbolTable, t: TypeId): seq<TypeId>
  {
    [t] + BaseTypes(st, t)
  }

  predicate InheritsFrom(st: SymbolTable, t: TypeId, b: TypeId)
  {
    b in BaseTypes(st, t)
  }

  predicate InheritsFromOrEquals(st: SymbolTable, t: TypeId, b: TypeId)
  {
    t == b || InheritsFrom(st, t, b)
  }

  function SpecialTypeOf(st: SymbolTable, t: TypeId): SpecialType
  {
    if t in st.specialTypes then st.specialTypes[t] else NotSpecial
  }

  function DeclaredAttributes(st: SymbolTable, t: TypeId): seq<Application>
  {
    if t in st.declaredAttributes then st.declaredAttributes[t] else []
  }

  /** The applications declared on each type of `chain`, in chain order. */
  function ApplicationsOn(st: SymbolTable, chain: seq<TypeId>): seq<Application>
  {
    if chain == [] then []
    else DeclaredAttributes(st, chain[0]) + ApplicationsOn(st, chain[1..])
  }

  /** An application is collected exactly when some type of the chain declares it. */
  lemma {:induction false} ApplicationsOnMembership(st: SymbolTable, chain: seq<TypeId>, a: Application)
    ensures a in ApplicationsOn(st, chain) <==> exists t :: t in chain && a in DeclaredAttributes(st, t)
  {
    if chain != [] {
      ApplicationsOnMembership(st, chain[1..], a);
      assert forall t :: t in chain <==> t == chain[0] || t in chain[1..];
    }
  }

  /** GetAllAttributesApplicationsDefinedOnThisAndBaseTypes: the type's own applications
      first, then those of its base types from nearest to farthest. */
  function ApplicationsOnHierarchy(st: SymbolTable, t: TypeId): seq<Application>
  {
    ApplicationsOn(st, BaseTypesAndThis(st, t))
  }

  /** The resolved attribute classes of a sequence of applications, in order. */
  function ClassesOf(apps: seq<Application>): seq<TypeId>
  {
    if apps == [] then []
    else (if apps[0].attributeClass.Some? then [apps[0].attributeClass.value] else [])
         + ClassesOf(apps[1..])
  }

  /** A class is listed exactly when some application resolves to it. */
  lemma {:induction false} ClassesOfMembership(apps: seq<Application>, c: TypeId)
    ensures c in ClassesOf(apps) <==> exists a :: a in apps && a.attributeClass == Some(c)
  {
    if apps != [] {
      ClassesOfMembership(apps[1..], c);
      assert forall a :: a in apps <==> a == apps[0] || a in apps[1..];
    }
  }

  /** GetAllAttributesDefinedOnThisAndBaseTypes: the classes of the applications above. */
  function AttributesOnHierarchy(st: SymbolTable, t: TypeId): seq<TypeId>
  {
    ClassesOf(ApplicationsOnHierarchy(st, t))
  }

  /** The longest prefix of `s` that avoids every type in `stops` (LINQ's TakeWhile). */
  function TakeWhileNotIn(s: seq<TypeId>, stops: set<TypeId>): (r: seq<TypeId>)
    ensures |r| <= |s| && r == s[..|r|]
    ensures forall x :: x in r ==> x !in stops
    ensures |r| < |s| ==> s[|r|] in stops
  {
    if s == [] || s[0] in stops then [] else [s[0]] + TakeWhileNotIn(s[1..], stops)
  }
}
