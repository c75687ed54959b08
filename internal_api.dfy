/** The PX1076 walker's resolution of "internal API": a symbol is internal when it carries
    PXInternalUseOnly, or when a type it depends on (a non-object base type, the containing
    type, the member it overrides) is internal. Answers are memoised in a dictionary shared
    by every walker. */
module InternalApi {
  import opened Wrappers
  import opened Symbols

  type SymbolId = nat

  const MaxRecursionDepth := 100

  /** Roslyn's MethodKind. */
  datatype MethodKind =
    | Ordinary | LambdaMethod | Constructor | Conversion | DelegateInvoke | Destructor
    | EventAdd | EventRaise | EventRemove | ExplicitInterfaceImplementation
    | UserDefinedOperator | PropertyGet | PropertySet | ReducedExtension
    | StaticConstructor | BuiltinOperator | DeclareMethod | LocalFunction
    | FunctionPointerSignature

  datatype MemberKind = Method(methodKind: MethodKind) | Property | Field(canBeReferencedByName: bool) | Event

  /** What the walker reads from an ITypeSymbol. */
  datatype TypeInfo = TypeInfo(
    isNamespace: bool,
    isTupleType: bool,
    isAnonymousType: bool,
    isReferenceType: bool,
    specialType: SpecialType,
    baseType: Option<SymbolId>,
    containingType: Option<SymbolId>)

  /** A symbol the walker meets: a type, a member (whose `overridden` is present only when
      the member is an override), or anything else (locals, parameters, namespaces). */
  datatype SymbolInfo =
    | TypeSymbol(typeInfo: TypeInfo)
    | MemberSymbol(kind: MemberKind, memberContainingType: Option<SymbolId>, overridden: Option<SymbolId>)
    | OtherSymbol

  /** The compilation as the walker sees it: the symbols, which of them are accessible
      outside their assembly, the attribute classes applied to each (absent when the class
      does not resolve) and the PXInternalUseOnlyAttribute type of the PX context. */
  datatype Compilation = Compilation(
    symbols: map<SymbolId, SymbolInfo>,
    accessibleOutsideOfAssembly: set<SymbolId>,
    attributeClasses: map<SymbolId, seq<Option<SymbolId>>>,
    pxInternalUseOnly: Option<SymbolId>)

  function Info(comp: Compilation, s: SymbolId): SymbolInfo
  {
    if s in comp.symbols then comp.symbols[s] else OtherSymbol
  }

  const NoTypeInfo := TypeInfo(false, false, false, false, NotSpecial, None, None)

  function TypeInfoOf(comp: Compilation, s: SymbolId): TypeInfo
  {
    match Info(comp, s)
    case TypeSymbol(info) => info
    case _ => NoTypeInfo
  }

  function SpecialTypeOfSymbol(comp: Compilation, s: SymbolId): SpecialType
  {
    TypeInfoOf(comp, s).specialType
  }

  function ContainingTypeOf(comp: Compilation, s: SymbolId): Option<SymbolId>
  {
    match Info(comp, s)
    case TypeSymbol(info) => info.containingType
    case MemberSymbol(_, c, _) => c
    case OtherSymbol => None
  }

  /** `IsOverride ? Overridden… : null`. */
  function OverriddenOf(comp: Compilation, s: SymbolId): Option<SymbolId>
  {
    match Info(comp, s)
    case MemberSymbol(_, _, o) => o
    case _ => None
  }

  predicate IsFieldSymbol(comp: Compilation, s: SymbolId)
  {
    Info(comp, s).MemberSymbol? && Info(comp, s).kind.Field?
  }

  predicate IsEventSymbol(comp: Compilation, s: SymbolId)
  {
    Info(comp, s).MemberSymbol? && Info(comp, s).kind.Event?
  }

  predicate IsMethodSymbol(comp: Compilation, s: SymbolId)
  {
    Info(comp, s).MemberSymbol? && Info(comp, s).kind.Method?
  }

  function MethodKindOf(comp: Compilation, m: SymbolId): MethodKind
    requires IsMethodSymbol(comp, m)
  {
    Info(comp, m).kind.methodKind
  }

  predicate CanBeReferencedByName(comp: Compilation, f: SymbolId)
    requires IsFieldSymbol(comp, f)
  {
    Info(comp, f).kind.canBeReferencedByName
  }

  /** `GetAttributes().Any(a => a.AttributeClass == PXInternalUseOnlyAttribute)`; when the
      attribute type is missing from the compilation, an unresolved attribute matches. */
  predicate HasInternalUseOnly(comp: Compilation, s: SymbolId)
  {
    s in comp.attributeClasses && comp.pxInternalUseOnly in comp.attributeClasses[s]
  }

  /** Override chains are finite: an overridden member precedes its override; and base
      and containing types, being named types, are never members. */
  predicate WellFormed(comp: Compilation)
  {
    (forall s :: s in comp.symbols && OverriddenOf(comp, s).Some? ==> OverriddenOf(comp, s).value < s)
    && (forall s :: s in comp.symbols && ContainingTypeOf(comp, s).Some? ==> !Info(comp, ContainingTypeOf(comp, s).value).MemberSymbol?)
    && (forall s :: s in comp.symbols && TypeInfoOf(comp, s).baseType.Some? ==> !Info(comp, TypeInfoOf(comp, s).baseType.value).MemberSymbol?)
  }

  function OptionSet(o: Option<SymbolId>): set<SymbolId>
  {
    if o.Some? then {o.value} else {}
  }

  /** The base type the type resolver follows: only for a reference type, and never
      System.Object. */
  function FollowedBaseType(comp: Compilation, info: TypeInfo): set<SymbolId>
  {
    if info.isReferenceType && info.baseType.Some? && SpecialTypeOfSymbol(comp, info.baseType.value) != SystemObject
    then {info.baseType.value}
    else {}
  }

  /** The symbols whose internality makes `s` internal. */
  function Dependencies(comp: Compilation, s: SymbolId): set<SymbolId>
  {
    match Info(comp, s)
    case TypeSymbol(info) => FollowedBaseType(comp, info) + OptionSet(info.containingType)
    case MemberSymbol(_, c, o) => OptionSet(c) + OptionSet(o)
    case OtherSymbol => {}
  }

  /** `s` reaches a symbol marked PXInternalUseOnly in at most `n` dependency steps. */
  ghost predicate MarkedWithin(comp: Compilation, s: SymbolId, n: nat)
    decreases n
  {
    HasInternalUseOnly(comp, s)
    || (n > 0 && exists d :: d in Dependencies(comp, s) && MarkedWithin(comp, d, n - 1))
  }

  /** The reference meaning of "internal API". */
  ghost predicate Marked(comp: Compilation, s: SymbolId)
  {
    exists n: nat :: MarkedWithin(comp, s, n)
  }

  lemma MarkedThrough(comp: Compilation, s: SymbolId, d: SymbolId)
    requires d in Dependencies(comp, s) && Marked(comp, d)
    ensures Marked(comp, s)
  {
    var n: nat :| MarkedWithin(comp, d, n);
    assert MarkedWithin(comp, s, n + 1);
  }

  /** More steps reach at least as much. */
  lemma {:induction false} MarkedWithinMonotone(comp: Compilation, s: SymbolId, m: nat, n: nat)
    requires m <= n && MarkedWithin(comp, s, m)
    ensures MarkedWithin(comp, s, n)
    decreases m
  {
    if !HasInternalUseOnly(comp, s) {
      var d :| d in Dependencies(comp, s) && MarkedWithin(comp, d, m - 1);
      MarkedWithinMonotone(comp, d, m - 1, n - 1);
    }
  }

  /** A symbol without the attribute and without dependencies is not internal API, however
      deep the search. */
  lemma {:induction false} IsolatedSymbolIsNotMarked(comp: Compilation, s: SymbolId)
    requires !HasInternalUseOnly(comp, s) && Dependencies(comp, s) == {}
    ensures !Marked(comp, s)
  {
    forall n: nat
      ensures !MarkedWithin(comp, s, n)
    {
    }
  }

  /** An accessible event that carries no attribute and has neither a containing type nor
      an overridden event. */
  const UnmarkedEvent: SymbolId := 1
  const EventOnlyCompilation := Compilation(
    map[UnmarkedEvent := MemberSymbol(Event, None, None)], {UnmarkedEvent}, map[], Some(2))

  /** The event of EventOnlyCompilation is not internal API, yet the dispatch as written
      reports every event access. */
  lemma UnmarkedEventIsNotInternal()
    ensures IsEventSymbol(EventOnlyCompilation, UnmarkedEvent)
    ensures UnmarkedEvent in EventOnlyCompilation.accessibleOutsideOfAssembly
    ensures !Marked(EventOnlyCompilation, UnmarkedEvent)
  {
    assert Dependencies(EventOnlyCompilation, UnmarkedEvent) == {};
    IsolatedSymbolIsNotMarked(EventOnlyCompilation, UnmarkedEvent);
  }

  /** Walking the override chain from `s` (a member, then the member it overrides, ...)
      meets a symbol with the attribute before it meets a field. */
  ghost predicate ChainReachesAttribute(comp: Compilation, s: SymbolId)
    decreases s
  {
    !IsFieldSymbol(comp, s)
    && (HasInternalUseOnly(comp, s)
        || (OverriddenOf(comp, s).Some? && OverriddenOf(comp, s).value < s
            && ChainReachesAttribute(comp, OverriddenOf(comp, s).value)))
  }

  /** A positive cache entry is a marked symbol; a negative one, except for a field (whose
      own attributes the walker never reads), is a symbol whose override chain meets no
      attribute; in particular it carries none itself. */
  ghost predicate CacheSound(comp: Compilation, markedInternalApi: map<SymbolId, bool>)
  {
    forall s :: s in markedInternalApi ==>
      (markedInternalApi[s] ==> Marked(comp, s))
      && (!markedInternalApi[s] && !IsFieldSymbol(comp, s) ==> !ChainReachesAttribute(comp, s))
  }

  /** A type's own dependencies: the followed base type and the containing type. */
  function TypeDependencies(comp: Compilation, t: SymbolId): set<SymbolId>
  {
    FollowedBaseType(comp, TypeInfoOf(comp, t)) + OptionSet(TypeInfoOf(comp, t).containingType)
  }

  /** A dependency that carries the attribute and is not a field. */
  ghost predicate HasMarkedTypeDependency(comp: Compilation, t: SymbolId)
  {
    exists d :: d in TypeDependencies(comp, t) && HasInternalUseOnly(comp, d) && !IsFieldSymbol(comp, d)
  }

  /** A containing type that passes the type guards and carries the attribute. */
  predicate HasMarkedContainingType(comp: Compilation, s: SymbolId)
  {
    ContainingTypeOf(comp, s).Some? && PassesTypeFilters(comp, ContainingTypeOf(comp, s).value)
    && HasInternalUseOnly(comp, ContainingTypeOf(comp, s).value) && !IsFieldSymbol(comp, ContainingTypeOf(comp, s).value)
  }

  /** The special types that are never internal API. */
  const NeverInternalSpecialTypes: set<SpecialType> := {
    SystemObject, SystemVoid, SystemBoolean, SystemChar, SystemSByte, SystemByte,
    SystemInt16, SystemUInt16, SystemInt32, SystemUInt32, SystemInt64, SystemUInt64,
    SystemDecimal, SystemSingle, SystemDouble, SystemString, SystemIntPtr, SystemUIntPtr,
    SystemDateTime }

  /** CheckSpecialType: false exactly for the nineteen listed special types. */
  function CheckSpecialType(specialType: SpecialType): (r: bool)
    ensures r <==> specialType !in NeverInternalSpecialTypes
  {
    match specialType
    case SystemObject => false
    case SystemVoid => false
    case SystemBoolean => false
    case SystemChar => false
    case SystemSByte => false
    case SystemByte => false
    case SystemInt16 => false
    case SystemUInt16 => false
    case SystemInt32 => false
    case SystemUInt32 => false
    case SystemInt64 => false
    case SystemUInt64 => false
    case SystemDecimal => false
    case SystemSingle => false
    case SystemDouble => false
    case SystemString => false
    case SystemIntPtr => false
    case SystemUIntPtr => false
    case SystemDateTime => false
    case _ => true
  }

  /** The method kinds that are never internal API. */
  const NeverInternalMethodKinds: set<MethodKind> := {
    LambdaMethod, Constructor, Conversion, Destructor, EventAdd, EventRaise, EventRemove,
    StaticConstructor, BuiltinOperator, DeclareMethod, LocalFunction }

  /** CheckMethodKind: false exactly for the eleven listed method kinds. */
  function CheckMethodKind(methodKind: MethodKind): (r: bool)
    ensures r <==> methodKind !in NeverInternalMethodKinds
  {
    match methodKind
    case LambdaMethod => false
    case Constructor => false
    case Conversion => false
    case Destructor => false
    case EventAdd => false
    case EventRaise => false
    case EventRemove => false
    case StaticConstructor => false
    case BuiltinOperator => false
    case DeclareMethod => false
    case LocalFunction => false
    case _ => true
  }

  /** The guards before a type is looked up: namespaces, tuples, anonymous types, types
      not accessible outside their assembly and the listed special types are never
      internal. */
  predicate PassesTypeFilters(comp: Compilation, t: SymbolId)
  {
    var info := TypeInfoOf(comp, t);
    !info.isNamespace && !info.isTupleType && !info.isAnonymousType
    && t in comp.accessibleOutsideOfAssembly && CheckSpecialType(info.specialType)
  }

  /** The static `_markedInternalApi` dictionary, one object shared by all walkers. */
  class InternalApiCache {
    var markedInternalApi: map<SymbolId, bool>

    constructor ()
      ensures markedInternalApi == map[]
    {
      markedInternalApi := map[];
    }
  }

  class InternalApiCallsWalker {
    const cache: InternalApiCache
    const compilation: Compilation

    ghost predicate Valid()
      reads this, cache
    {
      WellFormed(compilation) && CacheSound(compilation, cache.markedInternalApi)
    }

    constructor (cache: InternalApiCache, compilation: Compilation)
      requires WellFormed(compilation) && CacheSound(compilation, cache.markedInternalApi)
      ensures this.cache == cache && this.compilation == compilation && Valid()
    {
      this.cache := cache;
      this.compilation := compilation;
    }

    /** CheckAttributesAndCacheForInternal: the cached answer if there is one; otherwise
        true, now cached, when the symbol carries the attribute; otherwise no answer. */
    method CheckAttributesAndCacheForInternal(s: SymbolId) returns (r: Option<bool>)
      requires Valid()
      modifies cache
      ensures Valid()
      ensures s in old(cache.markedInternalApi) ==>
                r == Some(old(cache.markedInternalApi)[s]) && cache.markedInternalApi == old(cache.markedInternalApi)
      ensures s !in old(cache.markedInternalApi) && HasInternalUseOnly(compilation, s) ==>
                r == Some(true) && cache.markedInternalApi == old(cache.markedInternalApi)[s := true]
      ensures s !in old(cache.markedInternalApi) && !HasInternalUseOnly(compilation, s) ==>
                r == None && cache.markedInternalApi == old(cache.markedInternalApi)
      ensures r == Some(true) ==> Marked(compilation, s)
      ensures r == Some(false) && !IsFieldSymbol(compilation, s) ==> !HasInternalUseOnly(compilation, s)
    {
      if s in cache.markedInternalApi {
        return Some(cache.markedInternalApi[s]);
      }
      if HasInternalUseOnly(compilation, s) {
        assert MarkedWithin(compilation, s, 0);
        cache.markedInternalApi := cache.markedInternalApi[s := true];
        return Some(true);
      }
      return None;
    }

    /** IsInternalApiImpl: the attribute or the cache decides; otherwise the followed base
        type, then the containing type, one level deeper; beyond depth 100 the answer is
        false and nothing is cached. */
    method IsInternalApiImpl(t: SymbolId, recursionDepth: nat) returns (r: bool)
      requires Valid() && !Info(compilation, t).MemberSymbol?
      modifies cache
      ensures Valid()
      ensures recursionDepth > MaxRecursionDepth ==> !r && cache.markedInternalApi == old(cache.markedInternalApi)
      ensures recursionDepth <= MaxRecursionDepth && t in old(cache.markedInternalApi) ==>
                r == old(cache.markedInternalApi)[t] && cache.markedInternalApi == old(cache.markedInternalApi)
      ensures recursionDepth <= MaxRecursionDepth ==> t in cache.markedInternalApi && cache.markedInternalApi[t] == r
      ensures recursionDepth <= MaxRecursionDepth && HasInternalUseOnly(compilation, t) && !IsFieldSymbol(compilation, t) ==> r
      ensures recursionDepth < MaxRecursionDepth && t !in old(cache.markedInternalApi) && HasMarkedTypeDependency(compilation, t) ==> r
      ensures r ==> Marked(compilation, t)
      ensures old(cache.markedInternalApi).Keys <= cache.markedInternalApi.Keys
      decreases if recursionDepth > MaxRecursionDepth then 0 else MaxRecursionDepth + 1 - recursionDepth
    {
      if recursionDepth > MaxRecursionDepth {
        return false;
      }
      var isInternalApiType := CheckAttributesAndCacheForInternal(t);
      if isInternalApiType.Some? {
        return isInternalApiType.value;
      }
      var info := TypeInfoOf(compilation, t);
      if info.isReferenceType && info.baseType.Some? && SpecialTypeOfSymbol(compilation, info.baseType.value) != SystemObject {
        var baseIsInternal := IsInternalApiImpl(info.baseType.value, recursionDepth + 1);
        if baseIsInternal {
          MarkedThrough(compilation, t, info.baseType.value);
          cache.markedInternalApi := cache.markedInternalApi[t := true];
          return true;
        }
      }
      if info.containingType.Some? {
        var containingIsInternal := IsInternalApiImpl(info.containingType.value, recursionDepth + 1);
        if containingIsInternal {
          MarkedThrough(compilation, t, info.containingType.value);
          cache.markedInternalApi := cache.markedInternalApi[t := true];
          return true;
        }
      }
      cache.markedInternalApi := cache.markedInternalApi[t := false];
      return false;
    }

    /** IsInternalApiType: after the guards, the cache or the attribute decide, and
        otherwise the recursive resolution from depth zero; the answer is then cached. */
    method IsInternalApiType(t: SymbolId) returns (r: bool)
      requires Valid() && !Info(compilation, t).MemberSymbol?
      modifies cache
      ensures Valid()
      ensures !PassesTypeFilters(compilation, t) ==> !r && cache.markedInternalApi == old(cache.markedInternalApi)
      ensures PassesTypeFilters(compilation, t) && t in old(cache.markedInternalApi) ==>
                r == old(cache.markedInternalApi)[t] && cache.markedInternalApi == old(cache.markedInternalApi)
      ensures PassesTypeFilters(compilation, t) ==> t in cache.markedInternalApi && cache.markedInternalApi[t] == r
      ensures PassesTypeFilters(compilation, t) && HasInternalUseOnly(compilation, t) && !IsFieldSymbol(compilation, t) ==> r
      ensures PassesTypeFilters(compilation, t) && t !in old(cache.markedInternalApi) && HasMarkedTypeDependency(compilation, t) ==> r
      ensures r ==> Marked(compilation, t)
      ensures old(cache.markedInternalApi).Keys <= cache.markedInternalApi.Keys
    {
      if !PassesTypeFilters(compilation, t) {
        return false;
      }
      var isInternal := CheckAttributesAndCacheForInternal(t);
      if isInternal.Some? {
        return isInternal.value;
      }
      r := IsInternalApiImpl(t, 0);
    }

    /** The resolution shared by properties, methods and events once their guards pass:
        the cache, then the containing type (cached as true), then the first cache or
        attribute hit along the override chain, returned as it is; when the chain gives no
        answer the member is cached as false. */
    method IsInternalApiOverridable(m: SymbolId) returns (r: bool)
      requires Valid()
      modifies cache
      ensures Valid()
      ensures m in old(cache.markedInternalApi) ==>
                r == old(cache.markedInternalApi)[m] && cache.markedInternalApi == old(cache.markedInternalApi)
      ensures m in cache.markedInternalApi ==> cache.markedInternalApi[m] == r
      ensures HasInternalUseOnly(compilation, m) && !IsFieldSymbol(compilation, m) ==> r
      ensures ChainReachesAttribute(compilation, m) ==> r
      ensures m !in old(cache.markedInternalApi) && HasMarkedContainingType(compilation, m) ==> r
      ensures r ==> Marked(compilation, m)
      ensures old(cache.markedInternalApi).Keys <= cache.markedInternalApi.Keys
    {
      if m in cache.markedInternalApi {
        return cache.markedInternalApi[m];
      }
      var containingType := ContainingTypeOf(compilation, m);
      if containingType.Some? {
        var containingIsInternal := IsInternalApiType(containingType.value);
        if containingIsInternal {
          MarkedThrough(compilation, m, containingType.value);
          cache.markedInternalApi := cache.markedInternalApi[m := true];
          return true;
        }
      }
      var current: Option<SymbolId> := Some(m);
      ghost var first := true;
      while current.Some?
        invariant Valid()
        invariant old(cache.markedInternalApi).Keys <= cache.markedInternalApi.Keys
        invariant first ==> current == Some(m)
        invariant !first ==> m !in cache.markedInternalApi && !HasInternalUseOnly(compilation, m)
        invariant !first && current.Some? ==> current.value < m
        invariant ChainReachesAttribute(compilation, m) ==> current.Some? && ChainReachesAttribute(compilation, current.value)
        invariant current.Some? && Marked(compilation, current.value) ==> Marked(compilation, m)
        decreases if current.Some? then current.value + 1 else 0
      {
        var isInternal := CheckAttributesAndCacheForInternal(current.value);
        if isInternal.Some? {
          return isInternal.value;
        }
        var next := OverriddenOf(compilation, current.value);
        if next.Some? && Marked(compilation, next.value) {
          MarkedThrough(compilation, current.value, next.value);
        }
        current := next;
        first := false;
      }
      cache.markedInternalApi := cache.markedInternalApi[m := false];
      return false;
    }

    /** IsInternalApiProperty: an inaccessible property is never internal. */
    method IsInternalApiProperty(p: SymbolId) returns (r: bool)
      requires Valid()
      modifies cache
      ensures Valid()
      ensures p !in compilation.accessibleOutsideOfAssembly ==> !r && cache.markedInternalApi == old(cache.markedInternalApi)
      ensures p in compilation.accessibleOutsideOfAssembly && p in old(cache.markedInternalApi) ==>
                r == old(cache.markedInternalApi)[p] && cache.markedInternalApi == old(cache.markedInternalApi)
      ensures p in compilation.accessibleOutsideOfAssembly && HasInternalUseOnly(compilation, p) && !IsFieldSymbol(compilation, p) ==> r
      ensures p in compilation.accessibleOutsideOfAssembly && ChainReachesAttribute(compilation, p) ==> r
      ensures (p in compilation.accessibleOutsideOfAssembly && p !in old(cache.markedInternalApi)
               && HasMarkedContainingType(compilation, p)) ==> r
      ensures r ==> Marked(compilation, p)
    {
      if p !in compilation.accessibleOutsideOfAssembly {
        return false;
      }
      r := IsInternalApiOverridable(p);
    }

    /** IsInternalApiEvent: the same resolution as for a property. */
    method IsInternalApiEvent(e: SymbolId) returns (r: bool)
      requires Valid()
      modifies cache
      ensures Valid()
      ensures e !in compilation.accessibleOutsideOfAssembly ==> !r && cache.markedInternalApi == old(cache.markedInternalApi)
      ensures e in compilation.accessibleOutsideOfAssembly && e in old(cache.markedInternalApi) ==>
                r == old(cache.markedInternalApi)[e] && cache.markedInternalApi == old(cache.markedInternalApi)
      ensures e in compilation.accessibleOutsideOfAssembly && HasInternalUseOnly(compilation, e) && !IsFieldSymbol(compilation, e) ==> r
      ensures e in compilation.accessibleOutsideOfAssembly && ChainReachesAttribute(compilation, e) ==> r
      ensures (e in compilation.accessibleOutsideOfAssembly && e !in old(cache.markedInternalApi)
               && HasMarkedContainingType(compilation, e)) ==> r
      ensures r ==> Marked(compilation, e)
    {
      if e !in compilation.accessibleOutsideOfAssembly {
        return false;
      }
      r := IsInternalApiOverridable(e);
    }

    /** IsInternalApiMethod: lambdas, constructors, event accessors and the other listed
        kinds, and inaccessible methods, are never internal. */
    method IsInternalApiMethod(m: SymbolId) returns (r: bool)
      requires Valid() && IsMethodSymbol(compilation, m)
      modifies cache
      ensures Valid()
      ensures !CheckMethodKind(MethodKindOf(compilation, m)) || m !in compilation.accessibleOutsideOfAssembly ==>
                !r && cache.markedInternalApi == old(cache.markedInternalApi)
      ensures (CheckMethodKind(MethodKindOf(compilation, m)) && m in compilation.accessibleOutsideOfAssembly
               && m in old(cache.markedInternalApi)) ==>
                r == old(cache.markedInternalApi)[m] && cache.markedInternalApi == old(cache.markedInternalApi)
      ensures (CheckMethodKind(MethodKindOf(compilation, m)) && m in compilation.accessibleOutsideOfAssembly
               && HasInternalUseOnly(compilation, m)) ==> r
      ensures (CheckMethodKind(MethodKindOf(compilation, m)) && m in compilation.accessibleOutsideOfAssembly
               && ChainReachesAttribute(compilation, m)) ==> r
      ensures (CheckMethodKind(MethodKindOf(compilation, m)) && m in compilation.accessibleOutsideOfAssembly
               && m !in old(cache.markedInternalApi) && HasMarkedContainingType(compilation, m)) ==> r
      ensures r ==> Marked(compilation, m)
    {
      if !CheckMethodKind(MethodKindOf(compilation, m)) || m !in compilation.accessibleOutsideOfAssembly {
        return false;
      }
      r := IsInternalApiOverridable(m);
    }

    /** IsInternalApiField: only the containing type can make a field internal; the
        field's own attributes are not read, and every other answer is cached as false. */
    method IsInternalApiField(f: SymbolId) returns (r: bool)
      requires Valid() && IsFieldSymbol(compilation, f)
      modifies cache
      ensures Valid()
      ensures !CanBeReferencedByName(compilation, f) || f !in compilation.accessibleOutsideOfAssembly ==>
                !r && cache.markedInternalApi == old(cache.markedInternalApi)
      ensures (CanBeReferencedByName(compilation, f) && f in compilation.accessibleOutsideOfAssembly
               && f in old(cache.markedInternalApi)) ==>
                r == old(cache.markedInternalApi)[f] && cache.markedInternalApi == old(cache.markedInternalApi)
      ensures CanBeReferencedByName(compilation, f) && f in compilation.accessibleOutsideOfAssembly ==>
                f in cache.markedInternalApi && cache.markedInternalApi[f] == r
      ensures (CanBeReferencedByName(compilation, f) && f in compilation.accessibleOutsideOfAssembly
               && f !in old(cache.markedInternalApi) && HasMarkedContainingType(compilation, f)) ==> r
      ensures r ==> Marked(compilation, f)
    {
      if !CanBeReferencedByName(compilation, f) || f !in compilation.accessibleOutsideOfAssembly {
        return false;
      }
      if f in cache.markedInternalApi {
        return cache.markedInternalApi[f];
      }
      var containingType := ContainingTypeOf(compilation, f);
      if containingType.Some? {
        var containingIsInternal := IsInternalApiType(containingType.value);
        if containingIsInternal {
          MarkedThrough(compilation, f, containingType.value);
          cache.markedInternalApi := cache.markedInternalApi[f := true];
          return true;
        }
      }
      cache.markedInternalApi := cache.markedInternalApi[f := false];
      return false;
    }

    /** VisitGenericName and VisitIdentifierName: a name bound to a type is reported when
        the type is internal API. */
    method AnalyzeTypeName(symbol: Option<SymbolId>) returns (report: bool)
      requires Valid()
      modifies cache
      ensures Valid()
      ensures report ==> symbol.Some? && Marked(compilation, symbol.value)
      ensures (symbol.Some? && Info(compilation, symbol.value).TypeSymbol? && PassesTypeFilters(compilation, symbol.value)
               && HasInternalUseOnly(compilation, symbol.value)) ==> report
      ensures symbol.None? || !Info(compilation, symbol.value).TypeSymbol? ==>
                !report && cache.markedInternalApi == old(cache.markedInternalApi)
    {
      if symbol.None? || !Info(compilation, symbol.value).TypeSymbol? {
        return false;
      }
      report := IsInternalApiType(symbol.value);
    }

    /** AnalyzeNonTypeSymbol as written: methods, properties and fields are reported when
        they are internal API, but the event case has no guard, so every event access is
        reported. */
    method AnalyzeNonTypeSymbolAsWritten(symbol: Option<SymbolId>) returns (report: bool)
      requires Valid()
      modifies cache
      ensures Valid()
      ensures symbol.Some? && IsEventSymbol(compilation, symbol.value) ==> report
      ensures report ==> symbol.Some? && (IsEventSymbol(compilation, symbol.value) || Marked(compilation, symbol.value))
      ensures symbol.None? || !Info(compilation, symbol.value).MemberSymbol? ==>
                !report && cache.markedInternalApi == old(cache.markedInternalApi)
    {
      if symbol.None? {
        return false;
      }
      var s := symbol.value;
      match Info(compilation, s)
      case MemberSymbol(Method(_), _, _) =>
        report := IsInternalApiMethod(s);
      case MemberSymbol(Property, _, _) =>
        report := IsInternalApiProperty(s);
      case MemberSymbol(Field(_), _, _) =>
        report := IsInternalApiField(s);
      case MemberSymbol(Event, _, _) =>
        report := true;
      case _ =>
        report := false;
    }

    /** AnalyzeNonTypeSymbol with the event case guarded by IsInternalApiEvent like the
        other members: only internal API is reported. */
    method AnalyzeNonTypeSymbol(symbol: Option<SymbolId>) returns (report: bool)
      requires Valid()
      modifies cache
      ensures Valid()
      ensures report ==> symbol.Some? && Marked(compilation, symbol.value)
      ensures (symbol.Some? && Info(compilation, symbol.value).MemberSymbol?
               && (Info(compilation, symbol.value).kind.Property? || Info(compilation, symbol.value).kind.Event?)
               && symbol.value in compilation.accessibleOutsideOfAssembly
               && HasInternalUseOnly(compilation, symbol.value)) ==> report
      ensures symbol.None? || !Info(compilation, symbol.value).MemberSymbol? ==>
                !report && cache.markedInternalApi == old(cache.markedInternalApi)
    {
      if symbol.None? {
        return false;
      }
      var s := symbol.value;
      match Info(compilation, s)
      case MemberSymbol(Method(_), _, _) =>
        report := IsInternalApiMethod(s);
      case MemberSymbol(Property, _, _) =>
        report := IsInternalApiProperty(s);
      case MemberSymbol(Field(_), _, _) =>
        report := IsInternalApiField(s);
      case MemberSymbol(Event, _, _) =>
        report := IsInternalApiEvent(s);
      case _ =>
        report := false;
    }
  }
}
