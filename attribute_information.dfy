/** The legacy AttributeInformation helper: whether an attribute derives from a class,
    directly or through the attributes aggregator attributes carry, with a depth budget
    that every visited sibling uses up. */
module AttributeInformation {
  import opened Symbols

  const DefaultDepth := 10
  const MaxDepth := 100

  /** ContainsBaseType: `t` is the attribute type or one of its base types. */
  predicate ContainsBaseType(st: SymbolTable, attributeSymbol: TypeId, t: TypeId): (r: bool)
    ensures r <==> InheritsFromOrEquals(st, attributeSymbol, t)
  {
    t in BaseTypesAndThis(st, attributeSymbol)
  }

  predicate IsAggregate(st: SymbolTable, ctx: Context, attributeSymbol: TypeId)
  {
    ContainsBaseType(st, attributeSymbol, ctx.aggregate) || ContainsBaseType(st, attributeSymbol, ctx.dynamicAggregate)
  }

  /** What AttributeDerivedFromClass computes: the depth must be in 1..100; a match of the
      hierarchy wins; an aggregator looks at the attributes on its hierarchy in turn. */
  function DerivedFromClass(st: SymbolTable, ctx: Context, attributeSymbol: TypeId, t: TypeId, depth: int): bool
    decreases if depth < 0 then 0 else depth, 1
  {
    if depth <= 0 || depth > MaxDepth then false
    else if ContainsBaseType(st, attributeSymbol, t) then true
    else if IsAggregate(st, ctx, attributeSymbol) then SiblingsDerivedFromClass(st, ctx, AttributesOnHierarchy(st, attributeSymbol), t, depth)
    else false
  }

  /** The loop over the aggregated attributes: each sibling is visited with the depth
      decremented once more, and a depth out of range ends the loop with false. */
  function SiblingsDerivedFromClass(st: SymbolTable, ctx: Context, siblings: seq<TypeId>, t: TypeId, depth: int): bool
    requires depth >= 1
    decreases depth, 0
  {
    if siblings == [] then false
    else
      var next := depth - 1;
      var result := DerivedFromClass(st, ctx, siblings[0], t, next);
      if next <= 0 || next > MaxDepth then false
      else if result then true
      else SiblingsDerivedFromClass(st, ctx, siblings[1..], t, next)
  }

  /** `t` can be reached from the attribute through at most `n` aggregation steps. */
  ghost predicate ReachableWithin(st: SymbolTable, ctx: Context, attributeSymbol: TypeId, t: TypeId, n: nat)
    decreases n
  {
    ContainsBaseType(st, attributeSymbol, t)
    || (n > 0 && IsAggregate(st, ctx, attributeSymbol)
        && exists s :: s in AttributesOnHierarchy(st, attributeSymbol) && ReachableWithin(st, ctx, s, t, n - 1))
  }

  /** A positive answer is sound: the class is reached in fewer aggregation steps than the
      depth budget. */
  lemma {:induction false} DerivedFromClassIsSound(st: SymbolTable, ctx: Context, attributeSymbol: TypeId, t: TypeId, depth: int)
    requires DerivedFromClass(st, ctx, attributeSymbol, t, depth)
    ensures 1 <= depth <= MaxDepth
    ensures ReachableWithin(st, ctx, attributeSymbol, t, depth - 1)
    decreases if depth < 0 then 0 else depth, 1
  {
    if !ContainsBaseType(st, attributeSymbol, t) {
      var s := SiblingsAreSound(st, ctx, AttributesOnHierarchy(st, attributeSymbol), t, depth);
      assert ReachableWithin(st, ctx, s, t, depth - 2);
    }
  }

  lemma {:induction false} SiblingsAreSound(st: SymbolTable, ctx: Context, siblings: seq<TypeId>, t: TypeId, depth: int)
    returns (s: TypeId)
    requires depth >= 1
    requires SiblingsDerivedFromClass(st, ctx, siblings, t, depth)
    ensures depth >= 2 && s in siblings && ReachableWithin(st, ctx, s, t, depth - 2)
    decreases depth, 0
  {
    var next := depth - 1;
    if DerivedFromClass(st, ctx, siblings[0], t, next) {
      DerivedFromClassIsSound(st, ctx, siblings[0], t, next);
      s := siblings[0];
    } else {
      s := SiblingsAreSound(st, ctx, siblings[1..], t, next);
      ReachableWithinMonotone(st, ctx, s, t, next - 2, depth - 2);
    }
  }

  /** More steps reach at least as much. */
  lemma {:induction false} ReachableWithinMonotone(st: SymbolTable, ctx: Context, attributeSymbol: TypeId, t: TypeId, m: nat, n: nat)
    requires m <= n && ReachableWithin(st, ctx, attributeSymbol, t, m)
    ensures ReachableWithin(st, ctx, attributeSymbol, t, n)
    decreases m
  {
    if !ContainsBaseType(st, attributeSymbol, t) {
      var siblings := AttributesOnHierarchy(st, attributeSymbol);
      assert m > 0 && IsAggregate(st, ctx, attributeSymbol);
      var s :| s in siblings && ReachableWithin(st, ctx, s, t, m - 1);
      var m', n' := m - 1, n - 1;
      ReachableWithinMonotone(st, ctx, s, t, m', n');
    }
  }

  /** With a budget of one, only the attribute's own hierarchy is consulted: the first
      sibling is visited at depth zero and the loop then stops, even when a sibling derives
      from the class. */
  lemma DepthOneSeesOnlyTheHierarchy(st: SymbolTable, ctx: Context, attributeSymbol: TypeId, t: TypeId)
    ensures DerivedFromClass(st, ctx, attributeSymbol, t, 1) <==> ContainsBaseType(st, attributeSymbol, t)
  {
    var siblings := AttributesOnHierarchy(st, attributeSymbol);
    if siblings != [] {
      assert !DerivedFromClass(st, ctx, siblings[0], t, 0);
    }
  }

  class AttributeInformation {
    const st: SymbolTable
    const context: Context

    constructor (st: SymbolTable, pxContext: Context)
      ensures this.st == st && context == pxContext
    {
      this.st := st;
      context := pxContext;
    }

    /** AttributeDerivedFromClass: the depth parameter is decremented before each
        recursive call on a sibling. */
    method AttributeDerivedFromClass(attributeSymbol: TypeId, t: TypeId, depth: int) returns (r: bool)
      ensures r == DerivedFromClass(st, context, attributeSymbol, t, depth)
      ensures depth <= 0 || depth > MaxDepth ==> !r
      ensures 1 <= depth <= MaxDepth && ContainsBaseType(st, attributeSymbol, t) ==> r
      decreases if depth < 0 then 0 else depth
    {
      if depth <= 0 || depth > MaxDepth {
        return false;
      }
      if ContainsBaseType(st, attributeSymbol, t) {
        return true;
      }
      if IsAggregate(st, context, attributeSymbol) {
        var allAttributes := AttributesOnHierarchy(st, attributeSymbol);
        var d := depth;
        var i := 0;
        while i < |allAttributes|
          invariant 0 <= i <= |allAttributes|
          invariant 1 <= d <= depth
          invariant SiblingsDerivedFromClass(st, context, allAttributes, t, depth)
                    == SiblingsDerivedFromClass(st, context, allAttributes[i..], t, d)
        {
          d := d - 1;
          var result := AttributeDerivedFromClass(allAttributes[i], t, d);
          if d <= 0 || d > MaxDepth {
            return false;
          }
          if result {
            return result;
          }
          assert allAttributes[i..][1..] == allAttributes[i + 1..];
          i := i + 1;
        }
      }
      return false;
    }

    /** IsBoundAttribute: derivation from PXDBFieldAttribute with the default depth. */
    method IsBoundAttribute(attributeSymbol: TypeId) returns (r: bool)
      ensures r == DerivedFromClass(st, context, attributeSymbol, context.dbField, DefaultDepth)
      ensures ContainsBaseType(st, attributeSymbol, context.dbField) ==> r
    {
      r := AttributeDerivedFromClass(attributeSymbol, context.dbField, DefaultDepth);
    }

    /** AreBoundAttributes: some attribute of the sequence is bound. */
    method AreBoundAttributes(attributesSymbols: seq<TypeId>) returns (r: bool)
      ensures r <==> exists i :: 0 <= i < |attributesSymbols|
                       && DerivedFromClass(st, context, attributesSymbols[i], context.dbField, DefaultDepth)
    {
      for i := 0 to |attributesSymbols|
        invariant forall k :: 0 <= k < i ==> !DerivedFromClass(st, context, attributesSymbols[k], context.dbField, DefaultDepth)
      {
        var bound := IsBoundAttribute(attributesSymbols[i]);
        if bound {
          return true;
        }
      }
      return false;
    }
  }
}
