/** Relations between Acumatica attributes: which attribute classes are Acumatica
    attributes, which derive from or aggregate others, the flattened set an aggregator
    stands for, and the sorting of a property's attributes by their data types
    (AcumaticaAttributesRelationsInfoProvider). */
module AttributeRelations {
  import opened Wrappers
  import opened Symbols
  import opened AttributeInfos

  /** The depth at which the aggregation recursion gives up. */
  const MaxRecursionDepth: nat := 50

  predicate IsDerivedFromPXEventSubscriberAttribute(st: SymbolTable, ctx: Context, t: TypeId)
  {
    InheritsFrom(st, t, ctx.eventSubscriber)
  }

  /** The root event-subscriber attribute and everything derived from it. */
  predicate IsAcumaticaAttribute(st: SymbolTable, ctx: Context, t: TypeId): (r: bool)
    ensures r <==> ctx.eventSubscriber in BaseTypesAndThis(st, t)
  {
    ctx.eventSubscriber == t || IsDerivedFromPXEventSubscriberAttribute(st, ctx, t)
  }

  /** PXAggregateAttribute itself and everything derived from it. */
  predicate IsAggregatorAttribute(st: SymbolTable, ctx: Context, t: TypeId): (r: bool)
    ensures r <==> ctx.aggregate in BaseTypesAndThis(st, t)
  {
    InheritsFromOrEquals(st, t, ctx.aggregate)
  }

  /** GetAllDeclaredAcumaticaAttributesOnClassHierarchy: the attribute classes written on
      `t` or its base types that strictly derive from the root attribute. */
  function DeclaredAcumaticaAttributes(st: SymbolTable, ctx: Context, t: TypeId): seq<TypeId>
  {
    Filter(AttributesOnHierarchy(st, t), c => IsDerivedFromPXEventSubscriberAttribute(st, ctx, c))
  }

  /** Every declared Acumatica attribute strictly derives from the root attribute. */
  lemma DeclaredAreDerived(st: SymbolTable, ctx: Context, t: TypeId, c: TypeId)
    requires c in DeclaredAcumaticaAttributes(st, ctx, t)
    ensures IsDerivedFromPXEventSubscriberAttribute(st, ctx, c)
  {
    FilterMembership(AttributesOnHierarchy(st, t), c => IsDerivedFromPXEventSubscriberAttribute(st, ctx, c), c);
  }

  // ---------------------------------------------------------------------------
  // Derivation through aggregation
  // ---------------------------------------------------------------------------

  /** IsDerivedFromAttribute: inheritance answers at once; past the
      depth limit the answer is false; an aggregator asks its declared attributes. */
  function IsDerivedFromAttribute(st: SymbolTable, ctx: Context, t: TypeId, b: TypeId, depth: nat): (r: bool)
    ensures InheritsFromOrEquals(st, t, b) ==> r
    ensures r && !InheritsFromOrEquals(st, t, b) ==> depth <= MaxRecursionDepth && IsAggregatorAttribute(st, ctx, t)
    decreases 52 - depth, 0
  {
    if InheritsFromOrEquals(st, t, b) then true
    else if depth > MaxRecursionDepth then false
    else if IsAggregatorAttribute(st, ctx, t) then
      AnyDerivedFromAttribute(st, ctx, DeclaredAcumaticaAttributes(st, ctx, t), b, depth + 1)
    else false
  }

  /** The foreach over aggregated attributes with its early return. */
  function AnyDerivedFromAttribute(st: SymbolTable, ctx: Context, s: seq<TypeId>, b: TypeId, depth: nat): bool
    decreases 52 - depth, |s| + 1
  {
    if s == [] then false
    else if IsDerivedFromAttribute(st, ctx, s[0], b, depth) then true
    else AnyDerivedFromAttribute(st, ctx, s[1..], b, depth)
  }

  /** EqualsOrAggregatesAttributeDirectly: equality answers at once; past the
      depth limit the answer is false; an aggregator asks its declared attributes. */
  function EqualsOrAggregatesAttributeDirectly(st: SymbolTable, ctx: Context, t: TypeId, b: TypeId, depth: nat): (r: bool)
    ensures t == b ==> r
    ensures r && t != b ==> depth <= MaxRecursionDepth && IsAggregatorAttribute(st, ctx, t)
    decreases 52 - depth, 0
  {
    if t == b then true
    else if depth > MaxRecursionDepth then false
    else if IsAggregatorAttribute(st, ctx, t) then
      AnyEqualsOrAggregatesAttribute(st, ctx, DeclaredAcumaticaAttributes(st, ctx, t), b, depth + 1)
    else false
  }

  function AnyEqualsOrAggregatesAttribute(st: SymbolTable, ctx: Context, s: seq<TypeId>, b: TypeId, depth: nat): bool
    decreases 52 - depth, |s| + 1
  {
    if s == [] then false
    else if EqualsOrAggregatesAttributeDirectly(st, ctx, s[0], b, depth) then true
    else AnyEqualsOrAggregatesAttribute(st, ctx, s[1..], b, depth)
  }

  lemma {:induction false} AnyDerivedIffSome(st: SymbolTable, ctx: Context, s: seq<TypeId>, b: TypeId, depth: nat)
    ensures AnyDerivedFromAttribute(st, ctx, s, b, depth) <==>
      exists i :: 0 <= i < |s| && IsDerivedFromAttribute(st, ctx, s[i], b, depth)
  {
    if s != [] {
      AnyDerivedIffSome(st, ctx, s[1..], b, depth);
      if exists i :: 0 <= i < |s| && IsDerivedFromAttribute(st, ctx, s[i], b, depth) {
        var i :| 0 <= i < |s| && IsDerivedFromAttribute(st, ctx, s[i], b, depth);
        if i > 0 {
          assert s[1..][i - 1] == s[i];
        }
      }
    }
  }

  lemma {:induction false} AnyDirectIffSome(st: SymbolTable, ctx: Context, s: seq<TypeId>, b: TypeId, depth: nat)
    ensures AnyEqualsOrAggregatesAttribute(st, ctx, s, b, depth) <==>
      exists i :: 0 <= i < |s| && EqualsOrAggregatesAttributeDirectly(st, ctx, s[i], b, depth)
  {
    if s != [] {
      AnyDirectIffSome(st, ctx, s[1..], b, depth);
      if exists i :: 0 <= i < |s| && EqualsOrAggregatesAttributeDirectly(st, ctx, s[i], b, depth) {
        var i :| 0 <= i < |s| && EqualsOrAggregatesAttributeDirectly(st, ctx, s[i], b, depth);
        if i > 0 {
          assert s[1..][i - 1] == s[i];
        }
      }
    }
  }

  /** `a` is an aggregator that declares the Acumatica attribute `c` on its hierarchy. */
  predicate AggregatesDirectly(st: SymbolTable, ctx: Context, a: TypeId, c: TypeId)
  {
    IsAggregatorAttribute(st, ctx, a) && c in DeclaredAcumaticaAttributes(st, ctx, a)
  }

  /** A non-empty chain of attributes, each aggregating the next. */
  ghost predicate IsAggregationChain(st: SymbolTable, ctx: Context, p: seq<TypeId>)
  {
    |p| >= 1 && (|p| == 1 || (AggregatesDirectly(st, ctx, p[0], p[1]) && IsAggregationChain(st, ctx, p[1..])))
  }

  /** The longest chain the recursion explores when started at `depth`. */
  function ChainBound(depth: nat): nat
  {
    if depth > MaxRecursionDepth then 1 else MaxRecursionDepth + 2 - depth
  }

  /** `p` is a chain of at most `bound` attributes from `t` to an attribute that is or
      derives from `b`. */
  ghost predicate DerivedChain(st: SymbolTable, ctx: Context, t: TypeId, b: TypeId, bound: nat, p: seq<TypeId>)
  {
    IsAggregationChain(st, ctx, p) && p[0] == t && |p| <= bound && InheritsFromOrEquals(st, p[|p| - 1], b)
  }

  /** `p` is a chain of at most `bound` attributes from `t` to `b` itself. */
  ghost predicate ExactChain(st: SymbolTable, ctx: Context, t: TypeId, b: TypeId, bound: nat, p: seq<TypeId>)
  {
    IsAggregationChain(st, ctx, p) && p[0] == t && |p| <= bound && p[|p| - 1] == b
  }

  ghost predicate AggregatesDerivedWithin(st: SymbolTable, ctx: Context, t: TypeId, b: TypeId, bound: nat)
  {
    exists p :: DerivedChain(st, ctx, t, b, bound, p)
  }

  ghost predicate AggregatesExactlyWithin(st: SymbolTable, ctx: Context, t: TypeId, b: TypeId, bound: nat)
  {
    exists p :: ExactChain(st, ctx, t, b, bound, p)
  }

  lemma DerivedChainCons(st: SymbolTable, ctx: Context, t: TypeId, b: TypeId, depth: nat, q: seq<TypeId>)
    requires depth <= MaxRecursionDepth && |q| >= 1 && AggregatesDirectly(st, ctx, t, q[0])
    requires DerivedChain(st, ctx, q[0], b, ChainBound(depth + 1), q)
    ensures DerivedChain(st, ctx, t, b, ChainBound(depth), [t] + q)
  {
    assert ([t] + q)[1..] == q;
    assert ([t] + q)[|q|] == q[|q| - 1];
  }

  lemma ExactChainCons(st: SymbolTable, ctx: Context, t: TypeId, b: TypeId, depth: nat, q: seq<TypeId>)
    requires depth <= MaxRecursionDepth && |q| >= 1 && AggregatesDirectly(st, ctx, t, q[0])
    requires ExactChain(st, ctx, q[0], b, ChainBound(depth + 1), q)
    ensures ExactChain(st, ctx, t, b, ChainBound(depth), [t] + q)
  {
    assert ([t] + q)[1..] == q;
    assert ([t] + q)[|q|] == q[|q| - 1];
  }

  lemma {:induction false} DerivedGivesChain(st: SymbolTable, ctx: Context, t: TypeId, b: TypeId, depth: nat)
    requires IsDerivedFromAttribute(st, ctx, t, b, depth)
    ensures AggregatesDerivedWithin(st, ctx, t, b, ChainBound(depth))
    decreases 51 - depth
  {
    if InheritsFromOrEquals(st, t, b) {
      assert DerivedChain(st, ctx, t, b, ChainBound(depth), [t]);
    } else {
      assert depth <= MaxRecursionDepth && IsAggregatorAttribute(st, ctx, t);
      var aggregated := DeclaredAcumaticaAttributes(st, ctx, t);
      assert AnyDerivedFromAttribute(st, ctx, aggregated, b, depth + 1);
      AnyDerivedIffSome(st, ctx, aggregated, b, depth + 1);
      var i :| 0 <= i < |aggregated| && IsDerivedFromAttribute(st, ctx, aggregated[i], b, depth + 1);
      DerivedGivesChain(st, ctx, aggregated[i], b, depth + 1);
      var q :| DerivedChain(st, ctx, aggregated[i], b, ChainBound(depth + 1), q);
      DerivedChainCons(st, ctx, t, b, depth, q);
    }
  }

  /** One aggregation step that the recursion takes. */
  lemma DerivedThroughAggregated(st: SymbolTable, ctx: Context, t: TypeId, c: TypeId, b: TypeId, depth: nat)
    requires depth <= MaxRecursionDepth && AggregatesDirectly(st, ctx, t, c)
    requires IsDerivedFromAttribute(st, ctx, c, b, depth + 1)
    ensures IsDerivedFromAttribute(st, ctx, t, b, depth)
  {
    var aggregated := DeclaredAcumaticaAttributes(st, ctx, t);
    var i :| 0 <= i < |aggregated| && aggregated[i] == c;
    AnyDerivedIffSome(st, ctx, aggregated, b, depth + 1);
  }

  lemma DerivedChainTail(st: SymbolTable, ctx: Context, t: TypeId, b: TypeId, depth: nat, p: seq<TypeId>)
    requires DerivedChain(st, ctx, t, b, ChainBound(depth), p) && |p| >= 2
    ensures depth <= MaxRecursionDepth && AggregatesDirectly(st, ctx, t, p[1])
    ensures DerivedChain(st, ctx, p[1], b, ChainBound(depth + 1), p[1..])
  {
    assert p[1..][|p| - 2] == p[|p| - 1];
  }

  lemma {:induction false} ChainGivesDerived(st: SymbolTable, ctx: Context, t: TypeId, b: TypeId, depth: nat, p: seq<TypeId>)
    requires DerivedChain(st, ctx, t, b, ChainBound(depth), p)
    ensures IsDerivedFromAttribute(st, ctx, t, b, depth)
    decreases |p|
  {
    if |p| >= 2 && !InheritsFromOrEquals(st, t, b) {
      DerivedChainTail(st, ctx, t, b, depth, p);
      ChainGivesDerived(st, ctx, p[1], b, depth + 1, p[1..]);
      DerivedThroughAggregated(st, ctx, t, p[1], b, depth);
    }
  }

  /** The recursion finds exactly the aggregation chains that fit in its depth budget. */
  lemma DerivedIffAggregationChain(st: SymbolTable, ctx: Context, t: TypeId, b: TypeId, depth: nat)
    ensures IsDerivedFromAttribute(st, ctx, t, b, depth) <==> AggregatesDerivedWithin(st, ctx, t, b, ChainBound(depth))
  {
    if IsDerivedFromAttribute(st, ctx, t, b, depth) {
      DerivedGivesChain(st, ctx, t, b, depth);
    }
    if AggregatesDerivedWithin(st, ctx, t, b, ChainBound(depth)) {
      var p :| DerivedChain(st, ctx, t, b, ChainBound(depth), p);
      ChainGivesDerived(st, ctx, t, b, depth, p);
    }
  }

  lemma {:induction false} DirectGivesChain(st: SymbolTable, ctx: Context, t: TypeId, b: TypeId, depth: nat)
    requires EqualsOrAggregatesAttributeDirectly(st, ctx, t, b, depth)
    ensures AggregatesExactlyWithin(st, ctx, t, b, ChainBound(depth))
    decreases 51 - depth
  {
    if t == b {
      assert ExactChain(st, ctx, t, b, ChainBound(depth), [t]);
    } else {
      var aggregated := DeclaredAcumaticaAttributes(st, ctx, t);
      AnyDirectIffSome(st, ctx, aggregated, b, depth + 1);
      var i :| 0 <= i < |aggregated| && EqualsOrAggregatesAttributeDirectly(st, ctx, aggregated[i], b, depth + 1);
      DirectGivesChain(st, ctx, aggregated[i], b, depth + 1);
      var q :| ExactChain(st, ctx, aggregated[i], b, ChainBound(depth + 1), q);
      ExactChainCons(st, ctx, t, b, depth, q);
    }
  }

  lemma DirectThroughAggregated(st: SymbolTable, ctx: Context, t: TypeId, c: TypeId, b: TypeId, depth: nat)
    requires depth <= MaxRecursionDepth && AggregatesDirectly(st, ctx, t, c)
    requires EqualsOrAggregatesAttributeDirectly(st, ctx, c, b, depth + 1)
    ensures EqualsOrAggregatesAttributeDirectly(st, ctx, t, b, depth)
  {
    var aggregated := DeclaredAcumaticaAttributes(st, ctx, t);
    var i :| 0 <= i < |aggregated| && aggregated[i] == c;
    AnyDirectIffSome(st, ctx, aggregated, b, depth + 1);
  }

  lemma ExactChainTail(st: SymbolTable, ctx: Context, t: TypeId, b: TypeId, depth: nat, p: seq<TypeId>)
    requires ExactChain(st, ctx, t, b, ChainBound(depth), p) && |p| >= 2
    ensures depth <= MaxRecursionDepth && AggregatesDirectly(st, ctx, t, p[1])
    ensures ExactChain(st, ctx, p[1], b, ChainBound(depth + 1), p[1..])
  {
    assert p[1..][|p| - 2] == p[|p| - 1];
  }

  lemma {:induction false} ChainGivesDirect(st: SymbolTable, ctx: Context, t: TypeId, b: TypeId, depth: nat, p: seq<TypeId>)
    requires ExactChain(st, ctx, t, b, ChainBound(depth), p)
    ensures EqualsOrAggregatesAttributeDirectly(st, ctx, t, b, depth)
    decreases |p|
  {
    if |p| >= 2 && t != b {
      ExactChainTail(st, ctx, t, b, depth, p);
      ChainGivesDirect(st, ctx, p[1], b, depth + 1, p[1..]);
      DirectThroughAggregated(st, ctx, t, p[1], b, depth);
    }
  }

  /** The direct variant finds exactly the chains that end at the checked attribute. */
  lemma DirectIffAggregationChain(st: SymbolTable, ctx: Context, t: TypeId, b: TypeId, depth: nat)
    ensures EqualsOrAggregatesAttributeDirectly(st, ctx, t, b, depth) <==> AggregatesExactlyWithin(st, ctx, t, b, ChainBound(depth))
  {
    if EqualsOrAggregatesAttributeDirectly(st, ctx, t, b, depth) {
      DirectGivesChain(st, ctx, t, b, depth);
    }
    if AggregatesExactlyWithin(st, ctx, t, b, ChainBound(depth)) {
      var p :| ExactChain(st, ctx, t, b, ChainBound(depth), p);
      ChainGivesDirect(st, ctx, t, b, depth, p);
    }
  }

  /** Direct aggregation of an attribute is a special case of derivation through
      aggregation. */
  lemma DirectAggregationImpliesDerivation(st: SymbolTable, ctx: Context, t: TypeId, b: TypeId, depth: nat)
    requires EqualsOrAggregatesAttributeDirectly(st, ctx, t, b, depth)
    ensures IsDerivedFromAttribute(st, ctx, t, b, depth)
  {
    DirectIffAggregationChain(st, ctx, t, b, depth);
    DerivedIffAggregationChain(st, ctx, t, b, depth);
    var p :| ExactChain(st, ctx, t, b, ChainBound(depth), p);
    assert DerivedChain(st, ctx, t, b, ChainBound(depth), p);
  }

  /** IsDerivedFromOrAggregatesAttribute: false unless both are Acumatica attributes;
      otherwise true exactly when an aggregation chain of at most 52 attributes leads
      from `t` to something that is or derives from `b`. */
  function IsDerivedFromOrAggregatesAttribute(st: SymbolTable, ctx: Context, t: TypeId, b: TypeId): (r: bool)
    ensures !IsAcumaticaAttribute(st, ctx, t) || !IsAcumaticaAttribute(st, ctx, b) ==> !r
    ensures IsAcumaticaAttribute(st, ctx, t) && IsAcumaticaAttribute(st, ctx, b) ==>
      (r <==> AggregatesDerivedWithin(st, ctx, t, b, MaxRecursionDepth + 2))
  {
    if !IsAcumaticaAttribute(st, ctx, t) || !IsAcumaticaAttribute(st, ctx, b) then false
    else
      DerivedIffAggregationChain(st, ctx, t, b, 0);
      IsDerivedFromAttribute(st, ctx, t, b, 0)
  }

  /** The unchecked variant skips the Acumatica-attribute test. */
  function IsDerivedFromOrAggregatesAttributeUnsafe(st: SymbolTable, ctx: Context, t: TypeId, b: TypeId): (r: bool)
    ensures r <==> AggregatesDerivedWithin(st, ctx, t, b, MaxRecursionDepth + 2)
  {
    DerivedIffAggregationChain(st, ctx, t, b, 0);
    IsDerivedFromAttribute(st, ctx, t, b, 0)
  }

  /** EqualsOrAggregatesAttributeDirectly from depth 0: equality, or a chain of at most 52
      attributes ending at `b`. */
  function EqualsOrAggregatesAttribute(st: SymbolTable, ctx: Context, t: TypeId, b: TypeId): (r: bool)
    ensures r <==> AggregatesExactlyWithin(st, ctx, t, b, MaxRecursionDepth + 2)
  {
    DirectIffAggregationChain(st, ctx, t, b, 0);
    EqualsOrAggregatesAttributeDirectly(st, ctx, t, b, 0)
  }

  // ---------------------------------------------------------------------------
  // Flattening an attribute into the attributes it aggregates
  // ---------------------------------------------------------------------------

  /** The base types of `a` that the collection adds: those before the first occurrence of
      the root attribute or the aggregate root. */
  function AggregatedBaseEntries(st: SymbolTable, ctx: Context, a: TypeId): set<TypeId>
  {
    SetOf(TakeWhileNotIn(BaseTypes(st, a), {ctx.eventSubscriber, ctx.aggregate}))
  }

  /** Everything the collection may add when it meets `a` with `fuel` levels left. */
  ghost function Closure(st: SymbolTable, ctx: Context, a: TypeId, fuel: nat, includeBaseTypes: bool): set<TypeId>
    decreases fuel, 0
  {
    {a} +
    (if fuel == 0 then {}
     else
       (if includeBaseTypes then AggregatedBaseEntries(st, ctx, a) else {}) +
       (if ctx.aggregate in BaseTypes(st, a)
        then ClosureOfAll(st, ctx, DeclaredAcumaticaAttributes(st, ctx, a), fuel - 1, includeBaseTypes)
        else {}))
  }

  ghost function ClosureOfAll(st: SymbolTable, ctx: Context, s: seq<TypeId>, fuel: nat, includeBaseTypes: bool): set<TypeId>
    decreases fuel, |s| + 1
  {
    if s == [] then {}
    else Closure(st, ctx, s[0], fuel, includeBaseTypes) + ClosureOfAll(st, ctx, s[1..], fuel, includeBaseTypes)
  }

  lemma {:induction false} ClosureOfAllCovers(st: SymbolTable, ctx: Context, s: seq<TypeId>, fuel: nat, includeBaseTypes: bool, i: nat)
    requires i < |s|
    ensures Closure(st, ctx, s[i], fuel, includeBaseTypes) <= ClosureOfAll(st, ctx, s, fuel, includeBaseTypes)
    decreases i
  {
    if i > 0 {
      ClosureOfAllCovers(st, ctx, s[1..], fuel, includeBaseTypes, i - 1);
      assert s[1..][i - 1] == s[i];
    }
  }

  /** The root attribute is never reached from an attribute derived from it, provided the
      root does not inherit from itself. */
  lemma {:induction false} RootNotInClosure(st: SymbolTable, ctx: Context, a: TypeId, fuel: nat, includeBaseTypes: bool)
    requires ctx.eventSubscriber !in BaseTypes(st, ctx.eventSubscriber)
    requires IsDerivedFromPXEventSubscriberAttribute(st, ctx, a)
    ensures ctx.eventSubscriber !in Closure(st, ctx, a, fuel, includeBaseTypes)
    decreases fuel, 0
  {
    assert ctx.eventSubscriber != a;
    var entries := TakeWhileNotIn(BaseTypes(st, a), {ctx.eventSubscriber, ctx.aggregate});
    assert ctx.eventSubscriber !in entries;
    if fuel > 0 && ctx.aggregate in BaseTypes(st, a) {
      forall c | c in DeclaredAcumaticaAttributes(st, ctx, a)
        ensures IsDerivedFromPXEventSubscriberAttribute(st, ctx, c)
      {
        DeclaredAreDerived(st, ctx, a, c);
      }
      RootNotInClosureOfAll(st, ctx, DeclaredAcumaticaAttributes(st, ctx, a), fuel - 1, includeBaseTypes);
    }
  }

  lemma {:induction false} RootNotInClosureOfAll(st: SymbolTable, ctx: Context, s: seq<TypeId>, fuel: nat, includeBaseTypes: bool)
    requires ctx.eventSubscriber !in BaseTypes(st, ctx.eventSubscriber)
    requires forall c :: c in s ==> IsDerivedFromPXEventSubscriberAttribute(st, ctx, c)
    ensures ctx.eventSubscriber !in ClosureOfAll(st, ctx, s, fuel, includeBaseTypes)
    decreases fuel, |s| + 1
  {
    if s != [] {
      RootNotInClosure(st, ctx, s[0], fuel, includeBaseTypes);
      RootNotInClosureOfAll(st, ctx, s[1..], fuel, includeBaseTypes);
    }
  }

  /** What a declared attribute of an aggregate reaches, the aggregate reaches too. */
  lemma ClosureOfDeclared(st: SymbolTable, ctx: Context, a: TypeId, fuel: nat, includeBaseTypes: bool, i: nat)
    requires ctx.aggregate in BaseTypes(st, a) && i < |DeclaredAcumaticaAttributes(st, ctx, a)|
    ensures Closure(st, ctx, DeclaredAcumaticaAttributes(st, ctx, a)[i], fuel, includeBaseTypes)
            <= Closure(st, ctx, a, fuel + 1, includeBaseTypes)
  {
    ClosureOfAllCovers(st, ctx, DeclaredAcumaticaAttributes(st, ctx, a), fuel, includeBaseTypes, i);
  }

  /** One step of a collection that stays inside its bound. */
  lemma GrowsWithin(before: set<TypeId>, after: set<TypeId>, start: set<TypeId>, added: set<TypeId>, bound: set<TypeId>)
    requires before <= start + bound && after - before <= added && added <= bound
    ensures after <= start + bound
  {
  }

  /** The local function CollectAggregatedAttributes: adds `a`; unless `a` was already
      there or the depth limit is passed, also adds its base entries and, for an aggregate,
      recurses into the attributes it declares. */
  method CollectAggregatedAttributes(st: SymbolTable, ctx: Context, a: TypeId, depth: nat, includeBaseTypes: bool,
                                     results: set<TypeId>) returns (r: set<TypeId>)
    requires depth <= MaxRecursionDepth + 1
    ensures results <= r && a in r
    ensures a in results ==> r == results
    ensures r - results <= Closure(st, ctx, a, MaxRecursionDepth + 1 - depth, includeBaseTypes)
    decreases MaxRecursionDepth + 1 - depth
  {
    if a in results || depth > MaxRecursionDepth {
      return results + {a};
    }
    r := results + {a};
    var baseTypes := BaseTypes(st, a);
    if includeBaseTypes {
      r := r + AggregatedBaseEntries(st, ctx, a);
    }
    if ctx.aggregate in baseTypes {
      var aggregated := DeclaredAcumaticaAttributes(st, ctx, a);
      ghost var fuel := MaxRecursionDepth - depth;
      var i := 0;
      ghost var bound := Closure(st, ctx, a, fuel + 1, includeBaseTypes);
      assert r <= results + bound;
      while i < |aggregated|
        invariant 0 <= i <= |aggregated|
        invariant results + {a} <= r
        invariant r <= results + bound
      {
        ghost var before := r;
        r := CollectAggregatedAttributes(st, ctx, aggregated[i], depth + 1, includeBaseTypes, r);
        ghost var added := Closure(st, ctx, aggregated[i], fuel, includeBaseTypes);
        assert r - before <= added;
        ClosureOfDeclared(st, ctx, a, fuel, includeBaseTypes, i);
        assert added <= bound;
        GrowsWithin(before, r, results, added, bound);
        i := i + 1;
      }
    }
  }

  /** The attributes an aggregate starts its result with. */
  function InitialResults(st: SymbolTable, ctx: Context, t: TypeId, includeBaseTypes: bool): set<TypeId>
  {
    if includeBaseTypes
    then SetOf(TakeWhileNotIn(BaseTypesAndThis(st, t), {ctx.eventSubscriber, ctx.aggregate}))
    else {t}
  }

  /** GetThisAndAllAggregatedAttributes. */
  method GetThisAndAllAggregatedAttributes(st: SymbolTable, ctx: Context, attributeType: Option<TypeId>, includeBaseTypes: bool)
    returns (r: set<TypeId>)
    // null, the root itself and non-Acumatica types give nothing
    ensures (attributeType.None? || attributeType.value == ctx.eventSubscriber
             || ctx.eventSubscriber !in BaseTypes(st, attributeType.value)) ==> r == {}
    // a plain attribute gives itself, or its chain up to the root
    ensures attributeType.Some? && attributeType.value != ctx.eventSubscriber
            && IsDerivedFromPXEventSubscriberAttribute(st, ctx, attributeType.value)
            && !IsAggregatorAttribute(st, ctx, attributeType.value) ==>
      r == if includeBaseTypes
           then SetOf(TakeWhileNotIn(BaseTypesAndThis(st, attributeType.value), {ctx.eventSubscriber}))
           else {attributeType.value}
    // an aggregate gives its start set, every attribute it declares, and nothing outside
    // what the declared attributes can reach in 51 levels
    ensures attributeType.Some? && attributeType.value != ctx.eventSubscriber
            && IsDerivedFromPXEventSubscriberAttribute(st, ctx, attributeType.value)
            && IsAggregatorAttribute(st, ctx, attributeType.value) ==>
      var t := attributeType.value;
      && InitialResults(st, ctx, t, includeBaseTypes) <= r
      && (forall c :: c in DeclaredAcumaticaAttributes(st, ctx, t) ==> c in r)
      && r <= InitialResults(st, ctx, t, includeBaseTypes)
              + ClosureOfAll(st, ctx, DeclaredAcumaticaAttributes(st, ctx, t), MaxRecursionDepth + 1, includeBaseTypes)
    // the root attribute itself never appears
    ensures ctx.eventSubscriber !in BaseTypes(st, ctx.eventSubscriber) ==> ctx.eventSubscriber !in r
  {
    var es := ctx.eventSubscriber;
    if attributeType.None? || attributeType.value == es {
      return {};
    }
    var t := attributeType.value;
    var baseAcumaticaAttributeTypes := BaseTypesAndThis(st, t);
    if es !in baseAcumaticaAttributeTypes {
      assert es !in BaseTypes(st, t);
      assert !IsDerivedFromPXEventSubscriberAttribute(st, ctx, t);
      return {};
    }
    var isAggregateAttribute := ctx.aggregate in baseAcumaticaAttributeTypes;
    if !isAggregateAttribute {
      if includeBaseTypes {
        return SetOf(TakeWhileNotIn(baseAcumaticaAttributeTypes, {es}));
      } else {
        return {t};
      }
    }
    r := InitialResults(st, ctx, t, includeBaseTypes);
    var aggregated := DeclaredAcumaticaAttributes(st, ctx, t);
    ghost var reach := ClosureOfAll(st, ctx, aggregated, MaxRecursionDepth + 1, includeBaseTypes);
    var i := 0;
    ghost var initial := r;
    while i < |aggregated|
      invariant 0 <= i <= |aggregated|
      invariant initial <= r
      invariant r <= initial + reach
      invariant forall k :: 0 <= k < i ==> aggregated[k] in r
    {
      ghost var before := r;
      r := CollectAggregatedAttributes(st, ctx, aggregated[i], 0, includeBaseTypes, r);
      ClosureOfAllCovers(st, ctx, aggregated, MaxRecursionDepth + 1, includeBaseTypes, i);
      GrowsWithin(before, r, initial, Closure(st, ctx, aggregated[i], MaxRecursionDepth + 1, includeBaseTypes), reach);
      i := i + 1;
    }
    if es !in BaseTypes(st, es) {
      forall c | c in aggregated
        ensures IsDerivedFromPXEventSubscriberAttribute(st, ctx, c)
      {
        DeclaredAreDerived(st, ctx, t, c);
      }
      RootNotInClosureOfAll(st, ctx, aggregated, MaxRecursionDepth + 1, includeBaseTypes);
    }
    assert forall c :: c in aggregated ==> c in r by {
      forall c | c in aggregated ensures c in r {
        var k :| 0 <= k < |aggregated| && aggregated[k] == c;
      }
    }
  }

  // ---------------------------------------------------------------------------
  // Flattening with the applications the attributes come from
  // ---------------------------------------------------------------------------

  /** The applications among `apps` whose class strictly derives from the root attribute,
      each paired with that class. */
  function AcumaticaApplications(st: SymbolTable, ctx: Context, apps: seq<Application>): seq<AttributeWithApplication>
  {
    if apps == [] then []
    else
      (if apps[0].attributeClass.Some? && InheritsFrom(st, apps[0].attributeClass.value, ctx.eventSubscriber)
       then [AttributeWithApplication(apps[0], apps[0].attributeClass.value)]
       else [])
      + AcumaticaApplications(st, ctx, apps[1..])
  }

  lemma {:induction false} AcumaticaApplicationsMembership(st: SymbolTable, ctx: Context, apps: seq<Application>, x: AttributeWithApplication)
    ensures x in AcumaticaApplications(st, ctx, apps) <==>
      x.application in apps && x.application.attributeClass == Some(x.attributeType)
      && InheritsFrom(st, x.attributeType, ctx.eventSubscriber)
  {
    if apps != [] {
      AcumaticaApplicationsMembership(st, ctx, apps[1..], x);
      assert apps == [apps[0]] + apps[1..];
    }
  }

  /** The Acumatica attribute applications written on `t` or its base types. */
  function DeclaredAcumaticaApplications(st: SymbolTable, ctx: Context, t: TypeId): seq<AttributeWithApplication>
  {
    AcumaticaApplications(st, ctx, ApplicationsOnHierarchy(st, t))
  }

  /** `types`, each paired with the application `app`. */
  function WithApplication(app: Application, types: seq<TypeId>): set<AttributeWithApplication>
  {
    set b | b in types :: AttributeWithApplication(app, b)
  }

  /** Everything the collection with applications may add when it meets `x` with `fuel`
      levels left. */
  ghost function ClosureWithApplications(st: SymbolTable, ctx: Context, x: AttributeWithApplication, fuel: nat, includeBaseTypes: bool)
    : set<AttributeWithApplication>
    decreases fuel, 0
  {
    {x} +
    (if fuel == 0 then {}
     else
       (if includeBaseTypes
        then WithApplication(x.application, TakeWhileNotIn(BaseTypes(st, x.attributeType), {ctx.eventSubscriber, ctx.aggregate}))
        else {}) +
       (if ctx.aggregate in BaseTypes(st, x.attributeType)
        then ClosureWithApplicationsOfAll(st, ctx, DeclaredAcumaticaApplications(st, ctx, x.attributeType), fuel - 1, includeBaseTypes)
        else {}))
  }

  ghost function ClosureWithApplicationsOfAll(st: SymbolTable, ctx: Context, s: seq<AttributeWithApplication>, fuel: nat, includeBaseTypes: bool)
    : set<AttributeWithApplication>
    decreases fuel, |s| + 1
  {
    if s == [] then {}
    else ClosureWithApplications(st, ctx, s[0], fuel, includeBaseTypes)
         + ClosureWithApplicationsOfAll(st, ctx, s[1..], fuel, includeBaseTypes)
  }

  lemma {:induction false} ClosureWithApplicationsOfAllCovers(st: SymbolTable, ctx: Context, s: seq<AttributeWithApplication>, fuel: nat,
                                                              includeBaseTypes: bool, i: nat)
    requires i < |s|
    ensures ClosureWithApplications(st, ctx, s[i], fuel, includeBaseTypes) <= ClosureWithApplicationsOfAll(st, ctx, s, fuel, includeBaseTypes)
    decreases i
  {
    if i > 0 {
      ClosureWithApplicationsOfAllCovers(st, ctx, s[1..], fuel, includeBaseTypes, i - 1);
      assert s[1..][i - 1] == s[i];
    }
  }

  lemma ClosureWithApplicationsOfDeclared(st: SymbolTable, ctx: Context, x: AttributeWithApplication, fuel: nat,
                                          includeBaseTypes: bool, i: nat)
    requires ctx.aggregate in BaseTypes(st, x.attributeType) && i < |DeclaredAcumaticaApplications(st, ctx, x.attributeType)|
    ensures ClosureWithApplications(st, ctx, DeclaredAcumaticaApplications(st, ctx, x.attributeType)[i], fuel, includeBaseTypes)
            <= ClosureWithApplications(st, ctx, x, fuel + 1, includeBaseTypes)
  {
    ClosureWithApplicationsOfAllCovers(st, ctx, DeclaredAcumaticaApplications(st, ctx, x.attributeType), fuel, includeBaseTypes, i);
  }

  /** No entry reached from an attribute derived from the root has the root as its type,
      provided the root does not inherit from itself. */
  lemma {:induction false} RootNotInClosureWithApplications(st: SymbolTable, ctx: Context, x: AttributeWithApplication, fuel: nat,
                                                            includeBaseTypes: bool, y: AttributeWithApplication)
    requires ctx.eventSubscriber !in BaseTypes(st, ctx.eventSubscriber)
    requires IsDerivedFromPXEventSubscriberAttribute(st, ctx, x.attributeType)
    requires y in ClosureWithApplications(st, ctx, x, fuel, includeBaseTypes)
    ensures y.attributeType != ctx.eventSubscriber
    decreases fuel, 0
  {
    if y != x && fuel > 0 && !(includeBaseTypes && y in WithApplication(x.application,
         TakeWhileNotIn(BaseTypes(st, x.attributeType), {ctx.eventSubscriber, ctx.aggregate}))) {
      forall c | c in DeclaredAcumaticaApplications(st, ctx, x.attributeType)
        ensures IsDerivedFromPXEventSubscriberAttribute(st, ctx, c.attributeType)
      {
        AcumaticaApplicationsMembership(st, ctx, ApplicationsOnHierarchy(st, x.attributeType), c);
      }
      RootNotInClosureWithApplicationsOfAll(st, ctx, DeclaredAcumaticaApplications(st, ctx, x.attributeType), fuel - 1,
                                            includeBaseTypes, y);
    }
  }

  lemma {:induction false} RootNotInClosureWithApplicationsOfAll(st: SymbolTable, ctx: Context, s: seq<AttributeWithApplication>, fuel: nat,
                                                                 includeBaseTypes: bool, y: AttributeWithApplication)
    requires ctx.eventSubscriber !in BaseTypes(st, ctx.eventSubscriber)
    requires forall c :: c in s ==> IsDerivedFromPXEventSubscriberAttribute(st, ctx, c.attributeType)
    requires y in ClosureWithApplicationsOfAll(st, ctx, s, fuel, includeBaseTypes)
    ensures y.attributeType != ctx.eventSubscriber
    decreases fuel, |s| + 1
  {
    if y in ClosureWithApplications(st, ctx, s[0], fuel, includeBaseTypes) {
      RootNotInClosureWithApplications(st, ctx, s[0], fuel, includeBaseTypes, y);
    } else {
      RootNotInClosureWithApplicationsOfAll(st, ctx, s[1..], fuel, includeBaseTypes, y);
    }
  }

  /** The local function CollectAggregatedAttributeWithApplications: as
      CollectAggregatedAttributes, over attribute types paired with their applications. */
  method CollectAggregatedAttributeWithApplications(st: SymbolTable, ctx: Context, x: AttributeWithApplication, depth: nat,
                                                    includeBaseTypes: bool, results: set<AttributeWithApplication>)
    returns (r: set<AttributeWithApplication>)
    requires depth <= MaxRecursionDepth + 1
    ensures results <= r && x in r
    ensures x in results ==> r == results
    ensures r - results <= ClosureWithApplications(st, ctx, x, MaxRecursionDepth + 1 - depth, includeBaseTypes)
    decreases MaxRecursionDepth + 1 - depth
  {
    if x in results || depth > MaxRecursionDepth {
      return results + {x};
    }
    r := results + {x};
    var baseTypes := BaseTypes(st, x.attributeType);
    if includeBaseTypes {
      r := r + WithApplication(x.application, TakeWhileNotIn(baseTypes, {ctx.eventSubscriber, ctx.aggregate}));
    }
    if ctx.aggregate in baseTypes {
      var aggregated := DeclaredAcumaticaApplications(st, ctx, x.attributeType);
      ghost var fuel := MaxRecursionDepth - depth;
      ghost var bound := ClosureWithApplications(st, ctx, x, fuel + 1, includeBaseTypes);
      assert r <= results + bound;
      var i := 0;
      while i < |aggregated|
        invariant 0 <= i <= |aggregated|
        invariant results + {x} <= r
        invariant r <= results + bound
      {
        ghost var before := r;
        r := CollectAggregatedAttributeWithApplications(st, ctx, aggregated[i], depth + 1, includeBaseTypes, r);
        ghost var added := ClosureWithApplications(st, ctx, aggregated[i], fuel, includeBaseTypes);
        assert r - before <= added;
        ClosureWithApplicationsOfDeclared(st, ctx, x, fuel, includeBaseTypes, i);
        assert added <= bound;
        GrowsWithinApplications(before, r, results, added, bound);
        i := i + 1;
      }
    }
  }

  lemma GrowsWithinApplications(before: set<AttributeWithApplication>, after: set<AttributeWithApplication>,
                                start: set<AttributeWithApplication>, added: set<AttributeWithApplication>,
                                bound: set<AttributeWithApplication>)
    requires before <= start + bound && after - before <= added && added <= bound
    ensures after <= start + bound
  {
  }

  /** The entries an aggregate application starts its result with. */
  function InitialResultsWithApplications(st: SymbolTable, ctx: Context, app: Application, t: TypeId, includeBaseTypes: bool)
    : set<AttributeWithApplication>
  {
    if includeBaseTypes
    then WithApplication(app, TakeWhileNotIn(BaseTypesAndThis(st, t), {ctx.eventSubscriber, ctx.aggregate}))
    else {AttributeWithApplication(app, t)}
  }

  /** GetThisAndAllAggregatedAttributesWithApplications. */
  method GetThisAndAllAggregatedAttributesWithApplications(st: SymbolTable, ctx: Context, application: Option<Application>,
                                                           includeBaseTypes: bool)
    returns (r: set<AttributeWithApplication>)
    // null, an unresolved class, the root itself and non-Acumatica classes give nothing
    ensures (application.None? || application.value.attributeClass.None?
             || application.value.attributeClass.value == ctx.eventSubscriber
             || ctx.eventSubscriber !in BaseTypes(st, application.value.attributeClass.value)) ==> r == {}
    // a plain attribute gives its own entry, or its chain up to the root, all with its application
    ensures application.Some? && application.value.attributeClass.Some?
            && application.value.attributeClass.value != ctx.eventSubscriber
            && IsDerivedFromPXEventSubscriberAttribute(st, ctx, application.value.attributeClass.value)
            && !IsAggregatorAttribute(st, ctx, application.value.attributeClass.value) ==>
      r == if includeBaseTypes
           then WithApplication(application.value,
                                TakeWhileNotIn(BaseTypesAndThis(st, application.value.attributeClass.value), {ctx.eventSubscriber}))
           else {AttributeWithApplication(application.value, application.value.attributeClass.value)}
    // an aggregate gives its start set, every Acumatica application on its hierarchy, and
    // nothing outside what those can reach in 51 levels
    ensures application.Some? && application.value.attributeClass.Some?
            && application.value.attributeClass.value != ctx.eventSubscriber
            && IsDerivedFromPXEventSubscriberAttribute(st, ctx, application.value.attributeClass.value)
            && IsAggregatorAttribute(st, ctx, application.value.attributeClass.value) ==>
      var t := application.value.attributeClass.value;
      && InitialResultsWithApplications(st, ctx, application.value, t, includeBaseTypes) <= r
      && (forall c :: c in DeclaredAcumaticaApplications(st, ctx, t) ==> c in r)
      && r <= InitialResultsWithApplications(st, ctx, application.value, t, includeBaseTypes)
              + ClosureWithApplicationsOfAll(st, ctx, DeclaredAcumaticaApplications(st, ctx, t), MaxRecursionDepth + 1, includeBaseTypes)
    // no entry has the root attribute as its type
    ensures ctx.eventSubscriber !in BaseTypes(st, ctx.eventSubscriber) ==>
      forall y :: y in r ==> y.attributeType != ctx.eventSubscriber
  {
    var es := ctx.eventSubscriber;
    if application.None? || application.value.attributeClass.None? || application.value.attributeClass.value == es {
      return {};
    }
    var app := application.value;
    var t := app.attributeClass.value;
    var baseAcumaticaAttributeTypes := BaseTypesAndThis(st, t);
    if es !in baseAcumaticaAttributeTypes {
      assert es !in BaseTypes(st, t);
      assert !IsDerivedFromPXEventSubscriberAttribute(st, ctx, t);
      return {};
    }
    var isAggregateAttribute := ctx.aggregate in baseAcumaticaAttributeTypes;
    if !isAggregateAttribute {
      if includeBaseTypes {
        return WithApplication(app, TakeWhileNotIn(baseAcumaticaAttributeTypes, {es}));
      } else {
        return {AttributeWithApplication(app, t)};
      }
    }
    r := InitialResultsWithApplications(st, ctx, app, t, includeBaseTypes);
    var aggregated := DeclaredAcumaticaApplications(st, ctx, t);
    ghost var reach := ClosureWithApplicationsOfAll(st, ctx, aggregated, MaxRecursionDepth + 1, includeBaseTypes);
    var i := 0;
    ghost var initial := r;
    while i < |aggregated|
      invariant 0 <= i <= |aggregated|
      invariant initial <= r
      invariant r <= initial + reach
      invariant forall k :: 0 <= k < i ==> aggregated[k] in r
    {
      ghost var before := r;
      r := CollectAggregatedAttributeWithApplications(st, ctx, aggregated[i], 0, includeBaseTypes, r);
      ClosureWithApplicationsOfAllCovers(st, ctx, aggregated, MaxRecursionDepth + 1, includeBaseTypes, i);
      GrowsWithinApplications(before, r, initial,
                              ClosureWithApplications(st, ctx, aggregated[i], MaxRecursionDepth + 1, includeBaseTypes), reach);
      i := i + 1;
    }
    assert forall c :: c in aggregated ==> c in r by {
      forall c | c in aggregated ensures c in r {
        var k :| 0 <= k < |aggregated| && aggregated[k] == c;
      }
    }
    if es !in BaseTypes(st, es) {
      forall y | y in r ensures y.attributeType != es {
        if y !in initial {
          forall c | c in aggregated
            ensures IsDerivedFromPXEventSubscriberAttribute(st, ctx, c.attributeType)
          {
            AcumaticaApplicationsMembership(st, ctx, ApplicationsOnHierarchy(st, t), c);
          }
          RootNotInClosureWithApplicationsOfAll(st, ctx, aggregated, MaxRecursionDepth + 1, includeBaseTypes, y);
        }
      }
    }
  }

  // ---------------------------------------------------------------------------
  // Sorting a property's attributes by their data types
  // ---------------------------------------------------------------------------

  predicate IsFieldTypeItem(m: FieldTypeMetadata)
  {
    m.isFieldAttribute
  }

  /** The field-type items of an attribute's aggregated metadata. */
  function FieldTypeItems(info: DacFieldAttributeInfo): seq<FieldTypeMetadata>
  {
    Filter(info.aggregatedMetadata, IsFieldTypeItem)
  }

  /** The distinct non-null data types its field-type items declare. */
  function FieldDataTypes(info: DacFieldAttributeInfo): set<TypeId>
  {
    set m | m in info.aggregatedMetadata && m.isFieldAttribute && m.dataType.Some? :: m.dataType.value
  }

  /** An attribute that carries at least one field-type item. */
  predicate IsTypeAttribute(info: DacFieldAttributeInfo)
  {
    exists m :: m in info.aggregatedMetadata && m.isFieldAttribute
  }

  /** An aggregator whose field-type items declare more than one data type. */
  predicate HasConflictingDataTypes(info: DacFieldAttributeInfo)
  {
    |FieldDataTypes(info)| > 1
  }

  predicate HasNonNullDataType(info: DacFieldAttributeInfo)
  {
    FieldDataTypes(info) != {}
  }

  /** What FilterTypeAttributes computes, stated on the whole sequence. */
  function Categorize(attrs: seq<DacFieldAttributeInfo>): CategorizedAttributes
  {
    CategorizedAttributes(
      Filter(attrs, IsTypeAttribute),
      Filter(attrs, HasConflictingDataTypes),
      exists i :: 0 <= i < |attrs| && HasNonNullDataType(attrs[i]))
  }

  /** The distinct elements of a sequence are no more than its length. */
  lemma {:induction false} SetOfDataTypesBound(items: seq<FieldTypeMetadata>)
    ensures |set m | m in items && m.dataType.Some? :: m.dataType.value| <= |items|
  {
    if items != [] {
      var rest := items[1..];
      SetOfDataTypesBound(rest);
      var all := set m | m in items && m.dataType.Some? :: m.dataType.value;
      var tail := set m | m in rest && m.dataType.Some? :: m.dataType.value;
      assert items == [items[0]] + rest;
      if items[0].dataType.Some? {
        assert all == tail + {items[0].dataType.value};
      } else {
        assert all == tail;
      }
    }
  }

  /** What the loop reads off the field-type items agrees with the definitions above. */
  lemma FieldTypeItemsFacts(info: DacFieldAttributeInfo)
    ensures |FieldTypeItems(info)| == 0 <==> !IsTypeAttribute(info)
    ensures (set m | m in FieldTypeItems(info) && m.dataType.Some? :: m.dataType.value) == FieldDataTypes(info)
    ensures |FieldDataTypes(info)| <= |FieldTypeItems(info)|
    ensures |FieldTypeItems(info)| == 1 ==>
      FieldDataTypes(info) == if FieldTypeItems(info)[0].dataType.Some? then {FieldTypeItems(info)[0].dataType.value} else {}
  {
    var items := FieldTypeItems(info);
    forall m ensures m in items <==> m in info.aggregatedMetadata && m.isFieldAttribute {
      FilterMembership(info.aggregatedMetadata, IsFieldTypeItem, m);
    }
    if |items| != 0 {
      assert items[0] in items;
    }
    SetOfDataTypesBound(items);
    if |items| == 1 {
      assert forall m :: m in items <==> m == items[0];
    }
  }

  /** FilterTypeAttributes. Empty sequences stand for the lists the source leaves null. */
  method FilterTypeAttributes(attrs: seq<DacFieldAttributeInfo>) returns (r: CategorizedAttributes)
    ensures r == Categorize(attrs)
  {
    var typeAttributesOnDacProperty: seq<DacFieldAttributeInfo> := [];
    var typeAttributesWithDifferentDataTypesOnAggregator: seq<DacFieldAttributeInfo> := [];
    var hasNonNullDataType := false;
    var i := 0;
    while i < |attrs|
      invariant 0 <= i <= |attrs|
      invariant typeAttributesOnDacProperty == Filter(attrs[..i], IsTypeAttribute)
      invariant typeAttributesWithDifferentDataTypesOnAggregator == Filter(attrs[..i], HasConflictingDataTypes)
      invariant hasNonNullDataType <==> exists k :: 0 <= k < i && HasNonNullDataType(attrs[k])
    {
      var attribute := attrs[i];
      assert attrs[..i + 1][..i] == attrs[..i];
      var dataTypeAttributes := Filter(attribute.aggregatedMetadata, IsFieldTypeItem);
      FieldTypeItemsFacts(attribute);
      if |dataTypeAttributes| != 0 {
        typeAttributesOnDacProperty := typeAttributesOnDacProperty + [attribute];
        if |dataTypeAttributes| == 1 {
          hasNonNullDataType := hasNonNullDataType || dataTypeAttributes[0].dataType.Some?;
        } else {
          var countOfDeclaredNonNullDataTypes := |set m | m in dataTypeAttributes && m.dataType.Some? :: m.dataType.value|;
          hasNonNullDataType := hasNonNullDataType || countOfDeclaredNonNullDataTypes > 0;
          if countOfDeclaredNonNullDataTypes > 1 {
            typeAttributesWithDifferentDataTypesOnAggregator := typeAttributesWithDifferentDataTypesOnAggregator + [attribute];
          }
        }
      }
      i := i + 1;
    }
    assert attrs[..i] == attrs;
    r := CategorizedAttributes(typeAttributesOnDacProperty, typeAttributesWithDifferentDataTypesOnAggregator, hasNonNullDataType);
  }

  /** Sorting the attributes: which attributes land in which list, and when a non-null
      data type is reported. */
  lemma CategorizeMembership(attrs: seq<DacFieldAttributeInfo>, a: DacFieldAttributeInfo)
    ensures a in Categorize(attrs).typeAttributesOnDacProperty <==> a in attrs && IsTypeAttribute(a)
    ensures a in Categorize(attrs).typeAttributesWithDifferentDataTypesOnAggregator <==> a in attrs && |FieldDataTypes(a)| > 1
    ensures Categorize(attrs).hasNonNullDataType <==>
      exists b :: b in Categorize(attrs).typeAttributesOnDacProperty && FieldDataTypes(b) != {}
  {
    FilterMembership(attrs, IsTypeAttribute, a);
    FilterMembership(attrs, HasConflictingDataTypes, a);
    forall b | b in attrs && FieldDataTypes(b) != {}
      ensures b in Categorize(attrs).typeAttributesOnDacProperty
    {
      var m :| m in b.aggregatedMetadata && m.isFieldAttribute && m.dataType.Some?;
      FilterMembership(attrs, IsTypeAttribute, b);
    }
    forall b | b in Categorize(attrs).typeAttributesOnDacProperty
      ensures b in attrs
    {
      FilterMembership(attrs, IsTypeAttribute, b);
    }
  }

  /** Every conflicting aggregator is also a type attribute, in the same relative order:
      the conflict list is the type-attribute list filtered again. */
  lemma {:induction false} ConflictsAreTypeAttributes(attrs: seq<DacFieldAttributeInfo>)
    ensures Filter(Filter(attrs, IsTypeAttribute), HasConflictingDataTypes) == Filter(attrs, HasConflictingDataTypes)
  {
    if attrs != [] {
      var last := attrs[|attrs| - 1];
      ConflictsAreTypeAttributes(attrs[..|attrs| - 1]);
      if HasConflictingDataTypes(last) {
        var v :| v in FieldDataTypes(last);
        var m :| m in last.aggregatedMetadata && m.isFieldAttribute && m.dataType.Some? && m.dataType.value == v;
        assert IsTypeAttribute(last);
        var typeAttrs := Filter(attrs, IsTypeAttribute);
        assert typeAttrs[..|typeAttrs| - 1] == Filter(attrs[..|attrs| - 1], IsTypeAttribute);
      } else if IsTypeAttribute(last) {
        var typeAttrs := Filter(attrs, IsTypeAttribute);
        assert typeAttrs == Filter(attrs[..|attrs| - 1], IsTypeAttribute) + [last];
        assert typeAttrs[..|typeAttrs| - 1] == Filter(attrs[..|attrs| - 1], IsTypeAttribute);
        assert typeAttrs[|typeAttrs| - 1] == last;
        calc {
          Filter(typeAttrs, HasConflictingDataTypes);
          Filter(Filter(attrs[..|attrs| - 1], IsTypeAttribute), HasConflictingDataTypes);
          Filter(attrs[..|attrs| - 1], HasConflictingDataTypes);
          Filter(attrs, HasConflictingDataTypes);
        }
      } else {
        assert Filter(attrs, IsTypeAttribute) == Filter(attrs[..|attrs| - 1], IsTypeAttribute);
        assert Filter(attrs, HasConflictingDataTypes) == Filter(attrs[..|attrs| - 1], HasConflictingDataTypes);
      }
    }
  }

  /** CheckCompatibility: the distinct non-null field data types decide the verdict. */
  function CheckCompatibility(property: DacPropertyInfo, dataTypeAttribute: DacFieldAttributeInfo): (r: TypesCompatibility)
    ensures r == MissingTypeAnnotation <==> FieldDataTypes(dataTypeAttribute) == {}
    ensures r == CompatibleTypes <==> FieldDataTypes(dataTypeAttribute) == {property.propertyTypeUnwrappedNullable}
    ensures r == IncompatibleTypes <==>
      FieldDataTypes(dataTypeAttribute) != {} && FieldDataTypes(dataTypeAttribute) != {property.propertyTypeUnwrappedNullable}
  {
    var distinctClrTypesFromDataTypeAttributes := FieldDataTypes(dataTypeAttribute);
    if |distinctClrTypesFromDataTypeAttributes| == 0 then MissingTypeAnnotation
    else if |distinctClrTypesFromDataTypeAttributes| == 1 then
      SingletonIsItsElement(distinctClrTypesFromDataTypeAttributes, property.propertyTypeUnwrappedNullable);
      if property.propertyTypeUnwrappedNullable in distinctClrTypesFromDataTypeAttributes then CompatibleTypes
      else IncompatibleTypes
    else IncompatibleTypes
  }

  lemma SingletonIsItsElement(s: set<TypeId>, x: TypeId)
    requires |s| == 1
    ensures x in s <==> s == {x}
  {
    if x in s {
      assert |s - {x}| == 0;
    }
  }
}
