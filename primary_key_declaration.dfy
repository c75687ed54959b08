/** DacPrimaryKeyDeclarationAnalyzer: a DAC with key properties must declare exactly one
    primary key, a nested type implementing IPrimaryKey, and that type must be named `PK`.
    PX1033 reports a missing declaration, PX1035 several declarations and PX1036 a
    declaration with another name. Reporting is modelled as the returned diagnostics. */
module DacPrimaryKeyDeclaration {
  import opened Wrappers
  import opened AttributeInfos
  import opened DacSemanticModels

  /** TypeNames.PrimaryKeyClassName. */
  const PrimaryKeyClassName := "PK"

  datatype DiagnosticId =
    | PX1033_MissingDacPrimaryKeyDeclaration
    | PX1035_MultiplePrimaryKeyDeclarationsInDac
    | PX1036_WrongDacPrimaryKeyName

  datatype Diagnostic = Diagnostic(descriptor: DiagnosticId, location: Location)

  /** The syntax GetSyntax returns for a declaration: a class declaration, whose identifier
      is located, or another declaration, located as a whole. */
  datatype DeclarationSyntax = ClassDeclarationSyntax(identifierLocation: Location)
                             | OtherDeclarationSyntax(location: Location)

  /** A type nested in the DAC; whether it implements IPrimaryKey is a fact of the
      compilation, and it has no syntax when it is declared in metadata. */
  datatype NestedType = NestedType(name: string, implementsIPrimaryKey: bool, syntax: Option<DeclarationSyntax>)

  /** The DAC being analysed: its semantic model, the location of its identifier and its
      nested types (GetTypeMembers), None standing for a default array. */
  datatype DacDeclaration = DacDeclaration(model: DacSemanticModel, identifierLocation: Location,
                                           nestedTypes: Option<seq<NestedType>>)

  /** ShouldAnalyzeDac: the base analyzer's conditions (`baseShouldAnalyzeDac`, an input)
      and a positive count of key DAC properties. */
  function ShouldAnalyzeDac(baseShouldAnalyzeDac: bool, dac: DacSemanticModel): (r: bool)
    ensures r <==> baseShouldAnalyzeDac && exists p :: p in dac.DacProperties() && p.isKey
  {
    var keyProperties := set p | p in dac.DacProperties() && p.isKey;
    if |keyProperties| > 0 then baseShouldAnalyzeDac
    else
      assert forall p :: p in dac.DacProperties() && p.isKey ==> p in keyProperties;
      false
  }

  predicate ImplementsIPrimaryKey(t: NestedType)
  {
    t.implementsIPrimaryKey
  }

  /** GetPrimaryKeyDeclarations: the nested types implementing IPrimaryKey, none when the
      DAC has no nested types. */
  function GetPrimaryKeyDeclarations(nestedTypes: Option<seq<NestedType>>): (r: seq<NestedType>)
    ensures nestedTypes.None? || nestedTypes.value == [] ==> r == []
    ensures nestedTypes.Some? ==> |r| <= |nestedTypes.value|
  {
    if nestedTypes.None? || |nestedTypes.value| == 0 then []
    else Filter(nestedTypes.value, ImplementsIPrimaryKey)
  }

  /** A type is a primary-key declaration exactly when it is a nested type of the DAC that
      implements IPrimaryKey. */
  lemma PrimaryKeyDeclarationsAreKeys(nestedTypes: Option<seq<NestedType>>, t: NestedType)
    ensures t in GetPrimaryKeyDeclarations(nestedTypes) <==>
              nestedTypes.Some? && t in nestedTypes.value && t.implementsIPrimaryKey
  {
    if nestedTypes.Some? {
      FilterMembership(nestedTypes.value, ImplementsIPrimaryKey, t);
    }
  }

  /** The location of a declaration: its identifier for a class declaration, the whole
      node otherwise, and null without syntax. */
  function DeclarationLocation(syntax: Option<DeclarationSyntax>): (r: Option<Location>)
    ensures r.None? <==> syntax.None?
  {
    match syntax
    case Some(ClassDeclarationSyntax(identifierLocation)) => Some(identifierLocation)
    case Some(OtherDeclarationSyntax(location)) => Some(location)
    case None => None
  }

  /** AnalyzePrimaryKeyDeclaration: a single declaration named PK is fine; another name is
      reported with PX1036 where the declaration is, if it has syntax. */
  function AnalyzePrimaryKeyDeclaration(keyDeclaration: NestedType): (r: seq<Diagnostic>)
    ensures |r| <= 1
    ensures r != [] <==> keyDeclaration.name != PrimaryKeyClassName && keyDeclaration.syntax.Some?
    ensures r != [] ==> r[0].descriptor == PX1036_WrongDacPrimaryKeyName
                        && Some(r[0].location) == DeclarationLocation(keyDeclaration.syntax)
  {
    if keyDeclaration.name == PrimaryKeyClassName then []
    else
      var location := DeclarationLocation(keyDeclaration.syntax);
      if location.None? then []
      else [Diagnostic(PX1036_WrongDacPrimaryKeyName, location.value)]
  }

  /** The identifier locations of the declarations whose syntax is a class declaration, in
      order (the Select/OfType/Select/Where chain). */
  function ClassDeclarationLocations(keyDeclarations: seq<NestedType>): (r: seq<Location>)
    ensures |r| <= |keyDeclarations|
  {
    if keyDeclarations == [] then []
    else
      var first := match keyDeclarations[0].syntax
                   case Some(ClassDeclarationSyntax(identifierLocation)) => [identifierLocation]
                   case _ => [];
      first + ClassDeclarationLocations(keyDeclarations[1..])
  }

  /** A location is collected exactly when some declaration is a class declaration whose
      identifier is there. */
  lemma {:induction false} ClassDeclarationLocationsMembership(keyDeclarations: seq<NestedType>, location: Location)
    ensures location in ClassDeclarationLocations(keyDeclarations) <==>
              exists t :: t in keyDeclarations && t.syntax == Some(ClassDeclarationSyntax(location))
  {
    if keyDeclarations != [] {
      ClassDeclarationLocationsMembership(keyDeclarations[1..], location);
      assert forall t :: t in keyDeclarations <==> t == keyDeclarations[0] || t in keyDeclarations[1..];
    }
  }

  /** ReportMultiplePrimaryKeyDeclarationsInDac: PX1035 at each collected location. */
  function ReportMultiplePrimaryKeyDeclarations(keyDeclarations: seq<NestedType>): (r: seq<Diagnostic>)
    ensures |r| == |ClassDeclarationLocations(keyDeclarations)|
    ensures forall i :: 0 <= i < |r| ==>
              r[i] == Diagnostic(PX1035_MultiplePrimaryKeyDeclarationsInDac, ClassDeclarationLocations(keyDeclarations)[i])
  {
    var locations := ClassDeclarationLocations(keyDeclarations);
    seq(|locations|, i requires 0 <= i < |locations| => Diagnostic(PX1035_MultiplePrimaryKeyDeclarationsInDac, locations[i]))
  }

  /** Analyze: the switch on the number of primary-key declarations. Each case reports only
      its own diagnostic, and never more reports than there are declarations (or one). */
  function Analyze(dac: DacDeclaration): (r: seq<Diagnostic>)
    ensures var keyDeclarations := GetPrimaryKeyDeclarations(dac.nestedTypes);
            forall d :: d in r ==>
              d.descriptor == (if keyDeclarations == [] then PX1033_MissingDacPrimaryKeyDeclaration
                               else if |keyDeclarations| == 1 then PX1036_WrongDacPrimaryKeyName
                               else PX1035_MultiplePrimaryKeyDeclarationsInDac)
    ensures |r| <= 1 || |r| <= |GetPrimaryKeyDeclarations(dac.nestedTypes)|
  {
    var keyDeclarations := GetPrimaryKeyDeclarations(dac.nestedTypes);
    if |keyDeclarations| == 0 then [Diagnostic(PX1033_MissingDacPrimaryKeyDeclaration, dac.identifierLocation)]
    else if |keyDeclarations| == 1 then AnalyzePrimaryKeyDeclaration(keyDeclarations[0])
    else ReportMultiplePrimaryKeyDeclarations(keyDeclarations)
  }

  /** The verdicts: no declaration gives exactly one PX1033 at the DAC's identifier; one
      declaration gives PX1036 exactly when it has syntax and is not named PK; several give
      PX1035 exactly at the identifiers of those that are class declarations, and only there.
      Each case reports its own diagnostic and no other. */
  lemma AnalyzeVerdict(dac: DacDeclaration, location: Location)
    ensures var keyDeclarations := GetPrimaryKeyDeclarations(dac.nestedTypes);
            var r := Analyze(dac);
            && (keyDeclarations == [] ==>
                  r == [Diagnostic(PX1033_MissingDacPrimaryKeyDeclaration, dac.identifierLocation)])
            && (|keyDeclarations| == 1 ==>
                  && |r| <= 1
                  && (r != [] <==> keyDeclarations[0].name != PrimaryKeyClassName && keyDeclarations[0].syntax.Some?)
                  && (forall d :: d in r ==> d.descriptor == PX1036_WrongDacPrimaryKeyName))
            && (|keyDeclarations| > 1 ==>
                  && (forall d :: d in r ==> d.descriptor == PX1035_MultiplePrimaryKeyDeclarationsInDac)
                  && (Diagnostic(PX1035_MultiplePrimaryKeyDeclarationsInDac, location) in r <==>
                        exists t :: t in keyDeclarations && t.syntax == Some(ClassDeclarationSyntax(location))))
  {
    var keyDeclarations := GetPrimaryKeyDeclarations(dac.nestedTypes);
    if |keyDeclarations| > 1 {
      var r := Analyze(dac);
      var locations := ClassDeclarationLocations(keyDeclarations);
      ClassDeclarationLocationsMembership(keyDeclarations, location);
      if location in locations {
        var i :| 0 <= i < |locations| && locations[i] == location;
        assert r[i] == Diagnostic(PX1035_MultiplePrimaryKeyDeclarationsInDac, location);
      }
    }
  }

  /** Fixture: two nested keys, one declared as a class and one without syntax, give one
      PX1035; a lone key named PK gives nothing. */
  lemma TwoKeysOneReport(model: DacSemanticModel)
    ensures Analyze(DacDeclaration(model, 1, Some([NestedType("PK", true, Some(ClassDeclarationSyntax(5))),
                                                   NestedType("Other", false, None),
                                                   NestedType("PK2", true, None)])))
            == [Diagnostic(PX1035_MultiplePrimaryKeyDeclarationsInDac, 5)]
    ensures Analyze(DacDeclaration(model, 1, Some([NestedType("PK", true, Some(ClassDeclarationSyntax(5)))]))) == []
  {
    var types := [NestedType("PK", true, Some(ClassDeclarationSyntax(5))), NestedType("Other", false, None),
                  NestedType("PK2", true, None)];
    assert types[..2][..1][..0] == [];
    assert types[..2][..1] == [types[0]];
    assert types[..2] == [types[0], types[1]];
    var keys := [types[0], types[2]];
    assert Filter(types, ImplementsIPrimaryKey) == keys;
    assert keys[1..][1..] == [];
    assert ClassDeclarationLocations(keys) == [5];
    assert [types[0]][..0] == [];
  }
}
