/** GraphEventInfoBase.DacName: the name of the DAC a graph event handler is declared for,
    read from the handler's name (`Dac_FieldName_EventType`) or from the first type argument
    of its first parameter (`Events.FieldUpdated<Dac, ...>`). */
module GraphEventInfo {
  import opened Text

  /** EventHandlerSignatureType. */
  datatype EventHandlerSignatureType = None | Default | Generic

  /** A parameter type as the rule sees it: named types have type arguments; whether a type
      is a DAC is a fact about the compilation. */
  datatype TypeRef = TypeRef(name: string, isNamedType: bool, typeArguments: seq<TypeRef>, isDac: bool)

  /** The handler method: its name and the types of its parameters. */
  datatype HandlerSymbol = HandlerSymbol(name: string, parameterTypes: seq<TypeRef>)

  /** GetDacNameFromGenericEvent: the first type argument of the first parameter's named
      type, when there is one and it is a DAC; otherwise empty. */
  function DacNameFromGenericEvent(symbol: HandlerSymbol): (r: string)
    ensures r != "" ==> |symbol.parameterTypes| > 0 && symbol.parameterTypes[0].isNamedType
                        && |symbol.parameterTypes[0].typeArguments| > 0
                        && symbol.parameterTypes[0].typeArguments[0].isDac
                        && r == symbol.parameterTypes[0].typeArguments[0].name
    ensures |symbol.parameterTypes| > 0 && symbol.parameterTypes[0].isNamedType
            && |symbol.parameterTypes[0].typeArguments| > 0 && symbol.parameterTypes[0].typeArguments[0].isDac
            ==> r == symbol.parameterTypes[0].typeArguments[0].name
  {
    if symbol.parameterTypes == [] || !symbol.parameterTypes[0].isNamedType
       || symbol.parameterTypes[0].typeArguments == []
    then ""
    else
      var firstArgument := symbol.parameterTypes[0].typeArguments[0];
      if firstArgument.isDac then firstArgument.name else ""
  }

  /** GetDacName: the handler name up to its first underscore for the default signature,
      when that underscore is not the first character; the generic rule for the generic
      signature; empty otherwise. */
  function DacName(signatureType: EventHandlerSignatureType, symbol: HandlerSymbol): (r: string)
    ensures signatureType == None ==> r == ""
    ensures r != "" && signatureType == Default ==> r < symbol.name && symbol.name[|r|] == '_'
    ensures r != "" && signatureType == Generic ==>
      |symbol.parameterTypes| > 0 && exists a :: a in symbol.parameterTypes[0].typeArguments && a.isDac && a.name == r
    ensures signatureType == Generic ==> r == DacNameFromGenericEvent(symbol)
  {
    match signatureType
    case Default =>
      var underscoreIndex := IndexOf(symbol.name, '_');
      if underscoreIndex > 0 then symbol.name[..underscoreIndex] else ""
    case Generic => DacNameFromGenericEvent(symbol)
    case None => ""
  }

  /** For the default signature, the DAC name is the underscore-free text in front of the
      first underscore, and it is empty exactly when the name has no underscore or starts
      with one. */
  lemma DefaultSignatureDacName(symbol: HandlerSymbol)
    ensures '_' !in DacName(Default, symbol)
    ensures DacName(Default, symbol) != "" ==> DacName(Default, symbol) + "_" <= symbol.name
    ensures DacName(Default, symbol) == "" <==> '_' !in symbol.name || symbol.name[0] == '_'
  {
    var name := symbol.name;
    var i := IndexOf(name, '_');
    if i > 0 {
      assert name[..i] + "_" == name[..i + 1];
    }
  }
}
