/** CodeGeneration: the syntax the BQL-field fixes generate. A using directive is added to a
    compilation unit when it is missing, and a BQL field class
    `public abstract class f : PX.Data.BQL.<BqlType>.Field<f> { }` is built for a DAC property.
    Roslyn's syntax trees appear as the few values these operations look at. */
module CodeGeneration {
  import opened Wrappers
  import opened Text

  /** Trivia the generated code contains or copies. */
  datatype Trivia = Space | CarriageReturn | LineFeed | RegionDirective(text: string)
                  | EndRegionDirective(text: string) | OtherTrivia(text: string)

  /** The text of a trivia list. */
  function TriviaText(trivia: seq<Trivia>): string
  {
    if trivia == [] then ""
    else
      var first := match trivia[0]
                   case Space => " "
                   case CarriageReturn => "\r"
                   case LineFeed => "\n"
                   case RegionDirective(text) => text
                   case EndRegionDirective(text) => text
                   case OtherTrivia(text) => text;
      first + TriviaText(trivia[1..])
  }

  /** Names: identifiers, dotted names and a generic name with its one type argument. */
  datatype NameSyntax = IdentifierName(identifier: string)
                      | QualifiedName(left: NameSyntax, right: NameSyntax)
                      | GenericName(genericIdentifier: string, typeArgument: NameSyntax)

  /** NameSyntax.ToString(): the name's text without the trivia around it. */
  function NameText(name: NameSyntax): string
  {
    match name
    case IdentifierName(identifier) => identifier
    case QualifiedName(left, right) => NameText(left) + "." + NameText(right)
    case GenericName(identifier, typeArgument) => identifier + "<" + NameText(typeArgument) + ">"
  }

  /** A using directive; its name is null for the forms of `using` that alias a type. */
  datatype UsingDirective = UsingDirective(name: Option<NameSyntax>)

  /** A compilation unit: its using directives and the rest of the file. */
  datatype CompilationUnit = CompilationUnit(usings: seq<UsingDirective>, members: seq<string>)

  /** `root.Usings.Any(u => namespaceName == u.Name?.ToString())`. */
  predicate HasUsing(usings: seq<UsingDirective>, namespaceName: string)
  {
    exists u :: u in usings && u.name.Some? && NameText(u.name.value) == namespaceName
  }

  /** AddMissingUsingDirectiveForNamespace: a null root and a null or blank namespace name
      throw; a namespace that already has a using directive leaves the root as it is;
      otherwise one directive for the parsed name is appended to the using list. Which
      exception the argument checks throw is left open (the value `Err` carries is a
      placeholder). Roslyn's parser is `parseName`. */
  function AddMissingUsingDirectiveForNamespace(root: Option<CompilationUnit>, namespaceName: Option<string>,
                                                parseName: string -> NameSyntax): (r: Result<CompilationUnit>)
    ensures r.Err? <==> root.None? || IsNullOrWhiteSpace(namespaceName)
    ensures r.Ok? ==> r.value.members == root.value.members
    ensures r.Ok? && HasUsing(root.value.usings, namespaceName.value) ==> r.value == root.value
    ensures r.Ok? && !HasUsing(root.value.usings, namespaceName.value) ==>
              r.value.usings == root.value.usings + [UsingDirective(Some(parseName(namespaceName.value)))]
  {
    if root.None? then Err(ArgumentNull(""))
    else if IsNullOrWhiteSpace(namespaceName) then Err(ArgumentNull(""))
    else
      var alreadyHasUsing := HasUsing(root.value.usings, namespaceName.value);
      if alreadyHasUsing then Ok(root.value)
      else Ok(root.value.(usings := root.value.usings + [UsingDirective(Some(parseName(namespaceName.value)))]))
  }

  /** After a successful call the namespace has a using directive, every earlier directive is
      kept, and a second call changes nothing: the operation is idempotent, provided the
      parsed name prints back as the given text (true of a dotted name without spaces). */
  lemma AddMissingUsingIsIdempotent(root: Option<CompilationUnit>, namespaceName: Option<string>,
                                    parseName: string -> NameSyntax)
    requires root.Some? && !IsNullOrWhiteSpace(namespaceName)
    requires NameText(parseName(namespaceName.value)) == namespaceName.value
    ensures var r := AddMissingUsingDirectiveForNamespace(root, namespaceName, parseName);
            && r.Ok?
            && HasUsing(r.value.usings, namespaceName.value)
            && (forall u :: u in root.value.usings ==> u in r.value.usings)
            && AddMissingUsingDirectiveForNamespace(Some(r.value), namespaceName, parseName) == r
  {
    var r := AddMissingUsingDirectiveForNamespace(root, namespaceName, parseName);
    if !HasUsing(root.value.usings, namespaceName.value) {
      var added := UsingDirective(Some(parseName(namespaceName.value)));
      assert added == r.value.usings[|r.value.usings| - 1];
      assert added in r.value.usings;
    }
  }

  /** The modifiers the generated class carries. */
  datatype Modifier = PublicKeyword | AbstractKeyword

  /** `SimpleBaseType(type)`. */
  datatype BaseType = SimpleBaseType(typeName: NameSyntax)

  /** The generated BQL field class: it has no members and no attributes. */
  datatype BqlFieldClass = BqlFieldClass(leadingTrivia: seq<Trivia>, modifiers: seq<Modifier>, identifier: string,
                                         baseList: seq<BaseType>, closeBraceLeadingTrivia: seq<Trivia>,
                                         closeBraceTrailingTrivia: seq<Trivia>)

  /** The DAC property a BQL field is generated for, as far as the generator reads it. */
  datatype PropertyDeclaration = PropertyDeclaration(leadingTrivia: seq<Trivia>)

  /** BaseTypeForBqlField: null for a blank property type or field name, or when the type
      mapping (PropertyTypeToBqlFieldTypeMapping, an input) gives a blank BQL type;
      otherwise `PX.Data.BQL.<BqlType>.Field<bqlFieldName>`. */
  function BaseTypeForBqlField(propertyTypeName: Option<string>, bqlFieldName: Option<string>,
                               bqlFieldTypeOf: string -> Option<string>): (r: Option<BaseType>)
    ensures r.None? <==> IsNullOrWhiteSpace(propertyTypeName) || IsNullOrWhiteSpace(bqlFieldName)
                         || (propertyTypeName.Some? && IsNullOrWhiteSpace(bqlFieldTypeOf(propertyTypeName.value)))
    ensures r.Some? ==> NameText(r.value.typeName)
                        == "PX.Data.BQL." + bqlFieldTypeOf(propertyTypeName.value).value + ".Field<" + bqlFieldName.value + ">"
  {
    if IsNullOrWhiteSpace(propertyTypeName) || IsNullOrWhiteSpace(bqlFieldName) then None
    else
      var bqlTypeName := if IsNullOrWhiteSpace(bqlFieldTypeOf(propertyTypeName.value)) then None
                         else bqlFieldTypeOf(propertyTypeName.value);
      if bqlTypeName.None? then None
      else
        var fieldTypeNode := GenericName("Field", IdentifierName(bqlFieldName.value));
        var bqlNamespace := QualifiedName(QualifiedName(IdentifierName("PX"), IdentifierName("Data")), IdentifierName("BQL"));
        assert NameText(bqlNamespace) == "PX.Data.BQL";
        var bqlType := QualifiedName(bqlNamespace, IdentifierName(bqlTypeName.value));
        assert NameText(bqlType) == "PX.Data.BQL." + bqlTypeName.value;
        assert NameText(fieldTypeNode) == "Field<" + bqlFieldName.value + ">";
        var name := QualifiedName(bqlType, fieldTypeNode);
        assert NameText(name) == NameText(bqlType) + "." + NameText(fieldTypeNode);
        Some(SimpleBaseType(name))
  }

  /** CopyRegionsFromProperty: the region directive lines of the property's leading trivia
      (GetRegionDirectiveLinesFromTrivia, an input) are appended to the class's leading
      trivia; nothing else of the class changes, and nothing at all without them. */
  function CopyRegionsFromProperty(bqlFieldNode: BqlFieldClass, property: PropertyDeclaration,
                                   regionDirectiveLines: seq<Trivia> -> seq<Trivia>): (r: BqlFieldClass)
    ensures r == bqlFieldNode.(leadingTrivia := r.leadingTrivia)
    ensures bqlFieldNode.leadingTrivia <= r.leadingTrivia
    ensures property.leadingTrivia == [] || regionDirectiveLines(property.leadingTrivia) == [] ==> r == bqlFieldNode
    ensures property.leadingTrivia != [] ==>
              r.leadingTrivia[|bqlFieldNode.leadingTrivia|..] == regionDirectiveLines(property.leadingTrivia)
  {
    var leadingTrivia := property.leadingTrivia;
    if |leadingTrivia| == 0 then bqlFieldNode
    else
      var regionTrivias := regionDirectiveLines(leadingTrivia);
      if |regionTrivias| == 0 then bqlFieldNode
      else
        var newLeadingTrivia := bqlFieldNode.leadingTrivia + regionTrivias;
        assert newLeadingTrivia[|bqlFieldNode.leadingTrivia|..] == regionTrivias;
        bqlFieldNode.(leadingTrivia := newLeadingTrivia)
  }

  /** GenerateBqlField: null exactly when there is no base type; otherwise a public abstract
      class named after the field, deriving from that base type, whose closing brace has a
      space before it and a blank line after it for the first field of the DAC or a single
      line break otherwise, and which takes over the property's region directives. */
  function GenerateBqlField(property: Option<PropertyDeclaration>, propertyTypeName: Option<string>,
                            bqlFieldName: Option<string>, isFirstField: bool,
                            bqlFieldTypeOf: string -> Option<string>,
                            regionDirectiveLines: seq<Trivia> -> seq<Trivia>): (r: Option<BqlFieldClass>)
    ensures r.None? <==> BaseTypeForBqlField(propertyTypeName, bqlFieldName, bqlFieldTypeOf).None?
    ensures r.Some? ==> && r.value.modifiers == [PublicKeyword, AbstractKeyword]
                        && r.value.identifier == bqlFieldName.value
                        && r.value.baseList == [BaseTypeForBqlField(propertyTypeName, bqlFieldName, bqlFieldTypeOf).value]
                        && TriviaText(r.value.closeBraceLeadingTrivia) == " "
                        && TriviaText(r.value.closeBraceTrailingTrivia) == (if isFirstField then "\r\n\r\n" else "\r\n")
    ensures r.Some? ==> r.value.leadingTrivia
                        == (if property.Some? && property.value.leadingTrivia != []
                            then regionDirectiveLines(property.value.leadingTrivia) else [])
  {
    var bqlFieldBaseTypeNode := BaseTypeForBqlField(propertyTypeName, bqlFieldName, bqlFieldTypeOf);
    if bqlFieldBaseTypeNode.None? then None
    else
      var closeBraceTrailingTrivia := if isFirstField then [CarriageReturn, LineFeed, CarriageReturn, LineFeed]
                                      else [CarriageReturn, LineFeed];
      assert TriviaText([CarriageReturn, LineFeed]) == "\r\n" by {
        assert [CarriageReturn, LineFeed][1..][1..] == [];
      }
      assert TriviaText([CarriageReturn, LineFeed, CarriageReturn, LineFeed]) == "\r\n\r\n" by {
        var t := [CarriageReturn, LineFeed, CarriageReturn, LineFeed];
        assert t[1..][1..] == [CarriageReturn, LineFeed];
      }
      assert TriviaText([Space]) == " " by {
        assert [Space][1..] == [];
      }
      var bqlFieldNode := BqlFieldClass([], [PublicKeyword, AbstractKeyword], bqlFieldName.value,
                                        [bqlFieldBaseTypeNode.value], [Space], closeBraceTrailingTrivia);
      if property.Some? then Some(CopyRegionsFromProperty(bqlFieldNode, property.value, regionDirectiveLines))
      else Some(bqlFieldNode)
  }
}
