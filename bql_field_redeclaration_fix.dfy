/** The PX1067 code fix: redeclare a missing BQL field in a derived DAC. The DAC's members
    are a sequence; the new field is inserted in front of the property it belongs to, or at
    the end when the diagnostic is on the class. */
module BqlFieldRedeclarationFix {
  import opened Wrappers
  import opened Text

  /** The diagnostic properties that pass data from the analyzer to the fix. */
  const DacNameProperty := "DacName"
  const DacFieldNameProperty := "DacFieldName"
  const BqlFieldTypeProperty := "BqlFieldType"

  /** What the fix registers: the names it will use; a blank BQL field type becomes None. */
  datatype FixRegistration = FixRegistration(dacName: string, bqlFieldName: string, bqlFieldTypeName: Option<string>)

  /** string.NullIfWhiteSpace. */
  function NullIfWhiteSpace(s: Option<string>): (r: Option<string>)
    ensures r.Some? <==> !IsNullOrWhiteSpace(s)
    ensures r.Some? ==> r == s
  {
    if IsNullOrWhiteSpace(s) then None else s
  }

  /** TryGetPropertyValue: present keys may still hold null. */
  function PropertyValue(properties: map<string, Option<string>>, key: string): Option<string>
    requires key in properties
  {
    properties[key]
  }

  /** RegisterCodeFixesForDiagnosticAsync: no fix without a non-blank DAC name and field
      name, nor without a BQL field type property; a blank field type is dropped. */
  function RegisterCodeFix(properties: map<string, Option<string>>): (r: Option<FixRegistration>)
    ensures r.Some? <==> DacNameProperty in properties && DacFieldNameProperty in properties
                         && !IsNullOrWhiteSpace(properties[DacNameProperty])
                         && !IsNullOrWhiteSpace(properties[DacFieldNameProperty])
                         && BqlFieldTypeProperty in properties
    ensures r.Some? ==> r.value.dacName == properties[DacNameProperty].value
                        && r.value.bqlFieldName == properties[DacFieldNameProperty].value
                        && (r.value.bqlFieldTypeName.Some? <==> !IsNullOrWhiteSpace(properties[BqlFieldTypeProperty]))
  {
    if DacNameProperty !in properties || DacFieldNameProperty !in properties then None
    else
      var dacName := PropertyValue(properties, DacNameProperty);
      var bqlFieldName := PropertyValue(properties, DacFieldNameProperty);
      if IsNullOrWhiteSpace(dacName) || IsNullOrWhiteSpace(bqlFieldName) then None
      else if BqlFieldTypeProperty !in properties then None
      else Some(FixRegistration(dacName.value, bqlFieldName.value, NullIfWhiteSpace(PropertyValue(properties, BqlFieldTypeProperty))))
  }

  /** A DAC member declaration, compared by node identity. */
  datatype Member = Member(id: nat, isProperty: bool)

  /** The kind of BQL field the generator is asked for. */
  datatype BqlFieldKind = StronglyTyped(typeName: string) | WeaklyTyped

  /** The generator's arguments; it is BqlFieldGeneration, which may fail, and is an input. */
  datatype BqlFieldRequest = BqlFieldRequest(kind: BqlFieldKind, bqlFieldName: string, isFirstField: bool,
                                             property: Option<Member>)

  /** CreateBqlFieldClassNode: a strongly typed field for a non-blank type name, otherwise
      a weakly typed one. */
  function CreateBqlFieldRequest(property: Option<Member>, bqlFieldName: string, isFirstField: bool,
                                 bqlFieldTypeName: Option<string>): (r: BqlFieldRequest)
    ensures r.kind.WeaklyTyped? <==> IsNullOrWhiteSpace(bqlFieldTypeName)
    ensures r.kind.StronglyTyped? ==> Some(r.kind.typeName) == bqlFieldTypeName
    ensures r.isFirstField == isFirstField && r.property == property && r.bqlFieldName == bqlFieldName
  {
    var kind := if !IsNullOrWhiteSpace(bqlFieldTypeName) then StronglyTyped(bqlFieldTypeName.value) else WeaklyTyped;
    BqlFieldRequest(kind, bqlFieldName, isFirstField, property)
  }

  /** SyntaxList.IndexOf. */
  function IndexOfMember(members: seq<Member>, member: Member): (r: int)
    ensures -1 <= r < |members|
    ensures r == -1 <==> member !in members
    ensures r >= 0 ==> members[r] == member && member !in members[..r]
  {
    if members == [] then -1
    else if members[0] == member then 0
    else
      var k := IndexOfMember(members[1..], member);
      assert k >= 0 ==> members[1..][..k] == members[1..k + 1];
      if k == -1 then -1 else k + 1
  }

  /** GetIndexToInsertBqlFieldRedeclaration: in front of the property when it is a member,
      at 0 when it is not, and at the end when the diagnostic is on the class. */
  function IndexToInsert(members: seq<Member>, property: Option<Member>): (r: int)
    ensures 0 <= r <= |members|
    ensures members == [] ==> r == 0
    ensures members != [] && property.Some? && property.value in members ==>
              r < |members| && members[r] == property.value && property.value !in members[..r]
    ensures members != [] && property.Some? && property.value !in members ==> r == 0
    ensures members != [] && property.None? ==> r == |members|
  {
    if |members| == 0 then 0
    else if property.Some? then
      var propertyMemberIndex := IndexOfMember(members, property.value);
      if propertyMemberIndex < 0 then 0 else propertyMemberIndex
    else |members|
  }

  /** SyntaxList.Replace: the node must be in the list. */
  function ReplaceMember(members: seq<Member>, nodeInList: Member, newNode: Member): (r: Result<seq<Member>>)
    ensures r.Ok? <==> nodeInList in members
    ensures r.Ok? ==> |r.value| == |members|
                      && var i := IndexOfMember(members, nodeInList);
                         r.value == members[i := newNode]
    ensures r.Err? ==> r.error == ArgumentException("nodeInList")
  {
    var index := IndexOfMember(members, nodeInList);
    if index >= 0 then Ok(members[index := newNode]) else Err(ArgumentException("nodeInList"))
  }

  /** SyntaxList.Insert. */
  function InsertMember(members: seq<Member>, index: nat, node: Member): (r: seq<Member>)
    requires index <= |members|
    ensures |r| == |members| + 1 && r[index] == node
    ensures r[..index] == members[..index] && r[index + 1..] == members[index..]
  {
    members[..index] + [node] + members[index..]
  }

  /** CreateMembersListWithBqlField: None when the generator fails, which leaves the
      document unchanged. The property loses its region directives (an input,
      `removeRegions`) before the field is inserted. */
  function CreateMembersListWithBqlField(members: seq<Member>, property: Option<Member>, bqlFieldName: string,
                                         bqlFieldTypeName: Option<string>,
                                         generate: BqlFieldRequest -> Option<Member>,
                                         removeRegions: Member -> Member): (r: Result<Option<seq<Member>>>)
    ensures r.Err? ==> r.error == ArgumentException("nodeInList")
                       && members != [] && property.Some? && property.value !in members
    ensures r.Ok? && r.value.Some? ==> |r.value.value| == |members| + 1
  {
    if |members| == 0 then
      var newSingleBqlFieldNode := generate(CreateBqlFieldRequest(property, bqlFieldName, true, bqlFieldTypeName));
      if newSingleBqlFieldNode.Some? then Ok(Some([newSingleBqlFieldNode.value])) else Ok(None)
    else
      var index := IndexToInsert(members, property);
      var indexToInsertBqlField := if index < 0 then 0 else index;
      var newBqlFieldNode := generate(CreateBqlFieldRequest(property, bqlFieldName, indexToInsertBqlField == 0, bqlFieldTypeName));
      if newBqlFieldNode.None? then Ok(None)
      else
        var replaced := if property.Some? then ReplaceMember(members, property.value, removeRegions(property.value)) else Ok(members);
        if replaced.Err? then Err(replaced.error)
        else Ok(Some(InsertMember(replaced.value, indexToInsertBqlField, newBqlFieldNode.value)))
  }

  /** The new member list: the generated field (requested as the first field exactly when
      it goes to index 0) lands in front of the property, which loses its regions, or at the
      end when there is no property, or alone in an empty class. A property that is not a
      direct member makes the replacement throw. */
  lemma CreateMembersListShape(members: seq<Member>, property: Option<Member>, bqlFieldName: string,
                               bqlFieldTypeName: Option<string>,
                               generate: BqlFieldRequest -> Option<Member>, removeRegions: Member -> Member)
    ensures var index := IndexToInsert(members, property);
            var request := CreateBqlFieldRequest(property, bqlFieldName, index == 0, bqlFieldTypeName);
            var r := CreateMembersListWithBqlField(members, property, bqlFieldName, bqlFieldTypeName, generate, removeRegions);
            && (generate(request).None? ==> r == Ok(None))
            && (generate(request).Some? && members == [] ==> r == Ok(Some([generate(request).value])))
            && (generate(request).Some? && members != [] && property.None? ==>
                  r == Ok(Some(members + [generate(request).value])))
            && (generate(request).Some? && members != [] && property.Some? && property.value in members ==>
                  members[index] == property.value
                  && r == Ok(Some(members[..index] + [generate(request).value, removeRegions(property.value)] + members[index + 1..])))
            && (generate(request).Some? && members != [] && property.Some? && property.value !in members ==>
                  r == Err(ArgumentException("nodeInList")))
  {
    var index := IndexToInsert(members, property);
    var request := CreateBqlFieldRequest(property, bqlFieldName, index == 0, bqlFieldTypeName);
    if members != [] && generate(request).Some? {
      var f := generate(request).value;
      var r := CreateMembersListWithBqlField(members, property, bqlFieldName, bqlFieldTypeName, generate, removeRegions);
      if property.None? {
        assert r == Ok(Some(InsertMember(members, index, f)));
        assert members[..|members|] == members;
        assert members[|members|..] == [];
        assert InsertMember(members, index, f) == members + [f];
      } else if property.value in members {
        var replaced := members[index := removeRegions(property.value)];
        assert replaced[..index] == members[..index];
        assert replaced[index..] == [removeRegions(property.value)] + members[index + 1..];
        assert r == Ok(Some(InsertMember(replaced, index, f)));
        assert InsertMember(replaced, index, f) == members[..index] + [f, removeRegions(property.value)] + members[index + 1..];
      }
    }
  }
}
