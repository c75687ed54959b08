/** DocumentChangesClassifier: how far a set of text edits can influence the code of a
    document, decided from the syntax nodes that contain each edit in the new tree. Spans,
    nodes and the parent chain are abstract values; Roslyn's FindNode is an input. */
module ChangesClassifier {
  import opened Wrappers
  import opened Text

  /** ChangeInfluenceScope is a flags enumeration: a scope is a set of flags, `|` is union. */
  datatype ScopeFlag = StatementsBlockFlag | AttributesFlag | TriviaFlag | ClassFlag | NamespaceFlag

  type ChangeInfluenceScope = set<ScopeFlag>

  const NoScope: ChangeInfluenceScope := {}
  const StatementsBlock: ChangeInfluenceScope := {StatementsBlockFlag}
  const Attributes: ChangeInfluenceScope := {AttributesFlag}
  const Trivia: ChangeInfluenceScope := {TriviaFlag}
  const Class: ChangeInfluenceScope := {ClassFlag}
  const Namespace: ChangeInfluenceScope := {NamespaceFlag}

  /** Environment.NewLine on Windows. */
  const NewLine := "\r\n"

  /** Roslyn's TextSpan: a start position and a length. */
  datatype TextSpan = TextSpan(start: nat, length: nat)
  {
    function End(): nat { start + length }

    predicate IsEmpty() { length == 0 }

    predicate Contains(other: TextSpan)
    {
      start <= other.start && other.End() <= End()
    }

    predicate ContainsPosition(position: int)
    {
      start <= position < End()
    }
  }

  /** A text change: the replaced span of the old text and the text that replaces it. */
  datatype TextChange = TextChange(span: TextSpan, newText: string)

  /** The node kinds the classifier distinguishes. A method-like member has its block body
      and, for a MethodDeclarationSyntax, an expression body; a property-like member has an
      accessor list and, for a property or an indexer, an expression body. */
  datatype NodeKind =
    | CompilationUnit
    | MethodMember(body: Option<TextSpan>, isMethodDeclaration: bool, methodExpressionBody: Option<TextSpan>)
    | PropertyMember(accessorList: Option<TextSpan>, isPropertyOrIndexer: bool, propertyExpressionBody: Option<TextSpan>)
    | OtherMember
    | Block(openBrace: TextSpan, closeBrace: TextSpan)
    | LocalFunctionStatement
    | OtherStatement
    | OtherNode

  /** A syntax node: its kind, its span, the spans of its leading and trailing trivia lists
      and the span of its attribute lists. */
  datatype SyntaxNode = SyntaxNode(
    kind: NodeKind,
    span: TextSpan,
    leadingTrivia: TextSpan,
    trailingTrivia: TextSpan,
    attributeLists: TextSpan)

  predicate IsMemberDeclaration(node: SyntaxNode)
  {
    node.kind.MethodMember? || node.kind.PropertyMember? || node.kind.OtherMember?
  }

  /** The node FindNode returns followed by its parents, up to and including the
      compilation unit. */
  predicate WellFormedAncestry(ancestry: seq<SyntaxNode>)
  {
    |ancestry| > 0 && ancestry[|ancestry| - 1].kind.CompilationUnit?
  }

  /** FindNode on the new root: no node, or a well-formed parent chain. */
  ghost predicate ValidFinder(findNode: TextSpan -> Option<seq<SyntaxNode>>)
  {
    forall span :: findNode(span).Some? ==> WellFormedAncestry(findNode(span).value)
  }

  datatype ContainmentModeChange = StillContaining | NotContaining

  /** GetContainingSpanNewContainmentModeForTextChange: a span that contained the change
      stops containing it when the new text runs past the span's end. */
  function ContainmentMode(change: TextChange, existingContainingSpan: TextSpan): (r: ContainmentModeChange)
    ensures r == NotContaining <==> |change.newText| > existingContainingSpan.End() - change.span.start
  {
    var lengthFromChangeStart := existingContainingSpan.End() - change.span.start;
    if |change.newText| == lengthFromChangeStart then StillContaining
    else if lengthFromChangeStart < |change.newText| then NotContaining
    else StillContaining
  }

  /** The number of occurrences of `c` in `s`. */
  function CountOf(s: string, c: char): (r: nat)
    ensures r <= |s|
    ensures r == 0 <==> c !in s
    ensures r == multiset(s)[c]
  {
    if s == [] then 0
    else
      assert s == s[..|s| - 1] + [s[|s| - 1]];
      CountOf(s[..|s| - 1], c) + (if s[|s| - 1] == c then 1 else 0)
  }

  /** GetChangeScopeFromBlockNode: a block that is not a member body is a statement block;
      a member body becomes a class-level change when the edit covers one of its braces and
      does not bring back exactly one brace of that kind. */
  function BlockScope(openBrace: TextSpan, closeBrace: TextSpan, parent: SyntaxNode, change: TextChange): (r: ChangeInfluenceScope)
    ensures r == Class <==>
              (IsMemberDeclaration(parent)
               && ((change.span.Contains(openBrace) && CountOf(change.newText, '{') != 1)
                   || (change.span.Contains(closeBrace) && CountOf(change.newText, '}') != 1)))
    ensures r == Class || r == StatementsBlock
  {
    if !IsMemberDeclaration(parent) then StatementsBlock
    else
      var changeContainedOpenBrace := change.span.Contains(openBrace);
      var changeContainedCloseBrace := change.span.Contains(closeBrace);
      if changeContainedOpenBrace && CountOf(change.newText, '{') != 1 then Class
      else if changeContainedCloseBrace && CountOf(change.newText, '}') != 1 then Class
      else StatementsBlock
  }

  /** IsNewLineOrWhitespaceChange: an insertion of a newline or of whitespace only. */
  predicate IsNewLineOrWhitespaceChange(change: TextChange)
  {
    change.span.IsEmpty() && (change.newText == NewLine || IsNullOrWhiteSpace(Some(change.newText)))
  }

  /** GetChangeScopeFromNodeTrivia: a whitespace insertion inside the node's leading or
      trailing trivia is a trivia change; anything else gives no answer. */
  function NodeTriviaScope(node: SyntaxNode, change: TextChange): (r: Option<ChangeInfluenceScope>)
    ensures r.Some? <==>
              (IsNewLineOrWhitespaceChange(change)
               && (node.leadingTrivia.ContainsPosition(change.span.start)
                   || node.trailingTrivia.ContainsPosition(change.span.start)))
    ensures r.Some? ==> r.value == Trivia
  {
    if !IsNewLineOrWhitespaceChange(change) then None
    else if node.leadingTrivia.ContainsPosition(change.span.start) then Some(Trivia)
    else if node.trailingTrivia.ContainsPosition(change.span.start) then Some(Trivia)
    else None
  }

  /** The span the new text occupies in the new document. */
  function NewTextSpan(change: TextChange): TextSpan
  {
    TextSpan(change.span.start, |change.newText|)
  }

  /** The rule shared by methods and properties: no body gives Class; new text inside the
      body gives StatementsBlock; then the trivia rule; then new text inside the attribute
      lists gives Attributes; otherwise Class. */
  function BodyFirstScope(node: SyntaxNode, bodySpan: Option<TextSpan>, change: TextChange): (r: ChangeInfluenceScope)
  {
    var spanToCheck := NewTextSpan(change);
    if bodySpan.None? then Class
    else if bodySpan.value.Contains(spanToCheck) then StatementsBlock
    else
      var triviaScope := NodeTriviaScope(node, change);
      if triviaScope.Some? then triviaScope.value
      else if node.attributeLists.Contains(spanToCheck) then Attributes
      else Class
  }

  /** The order of the method and property rule: an edit inside the body is a statement
      change whatever else it touches, the attribute rule is consulted last, and every
      outcome is one of four scopes. */
  lemma BodyFirstScopeOrder(node: SyntaxNode, bodySpan: Option<TextSpan>, change: TextChange)
    ensures bodySpan.None? ==> BodyFirstScope(node, bodySpan, change) == Class
    ensures bodySpan.Some? && bodySpan.value.Contains(NewTextSpan(change)) ==>
              BodyFirstScope(node, bodySpan, change) == StatementsBlock
    ensures BodyFirstScope(node, bodySpan, change) == Trivia <==>
              (bodySpan.Some? && !bodySpan.value.Contains(NewTextSpan(change)) && NodeTriviaScope(node, change).Some?)
    ensures BodyFirstScope(node, bodySpan, change) == Attributes <==>
              (bodySpan.Some? && !bodySpan.value.Contains(NewTextSpan(change)) && NodeTriviaScope(node, change).None?
               && node.attributeLists.Contains(NewTextSpan(change)))
    ensures BodyFirstScope(node, bodySpan, change) in {Class, StatementsBlock, Trivia, Attributes}
  {
  }

  /** The body of a method-like member: the block body, else a method's expression body. */
  function MethodBodySpan(body: Option<TextSpan>, isMethodDeclaration: bool, expressionBody: Option<TextSpan>): Option<TextSpan>
  {
    if body.Some? then body
    else if isMethodDeclaration then expressionBody
    else None
  }

  /** The body of a property-like member: the accessor list, else the expression body of a
      property or an indexer. */
  function PropertyBodySpan(accessorList: Option<TextSpan>, isPropertyOrIndexer: bool, expressionBody: Option<TextSpan>): Option<TextSpan>
  {
    if accessorList.Some? then accessorList
    else if isPropertyOrIndexer then expressionBody
    else None
  }

  /** GetChangeScopeFromTypeMemberNode: every member declaration decides the scope. */
  function MemberScope(node: SyntaxNode, change: TextChange): ChangeInfluenceScope
    requires IsMemberDeclaration(node)
  {
    match node.kind
    case MethodMember(body, isMethodDeclaration, expressionBody) =>
      BodyFirstScope(node, MethodBodySpan(body, isMethodDeclaration, expressionBody), change)
    case PropertyMember(accessorList, isPropertyOrIndexer, expressionBody) =>
      BodyFirstScope(node, PropertyBodySpan(accessorList, isPropertyOrIndexer, expressionBody), change)
    case OtherMember =>
      var triviaScope := NodeTriviaScope(node, change);
      if triviaScope.Some? then triviaScope.value else Class
  }

  /** The answer of one node of the parent walk, or None to go on with its parent. */
  function NodeScope(node: SyntaxNode, parent: SyntaxNode, change: TextChange): Option<ChangeInfluenceScope>
  {
    match node.kind
    case MethodMember(_, _, _) => Some(MemberScope(node, change))
    case PropertyMember(_, _, _) => Some(MemberScope(node, change))
    case OtherMember => Some(MemberScope(node, change))
    case Block(openBrace, closeBrace) => Some(BlockScope(openBrace, closeBrace, parent, change))
    case LocalFunctionStatement =>
      if ContainmentMode(change, node.span) == StillContaining then Some(StatementsBlock) else None
    case OtherStatement =>
      if ContainmentMode(change, node.span) == StillContaining then Some(StatementsBlock) else None
    case _ => None
  }

  /** The parent walk: the first node with an answer decides; reaching the compilation
      unit gives Namespace. */
  function AncestryScope(change: TextChange, ancestry: seq<SyntaxNode>): ChangeInfluenceScope
    requires WellFormedAncestry(ancestry)
    decreases |ancestry|
  {
    if ancestry[0].kind.CompilationUnit? then Namespace
    else
      var answer := NodeScope(ancestry[0], ancestry[1], change);
      if answer.Some? then answer.value else AncestryScope(change, ancestry[1..])
  }

  /** GetTextChangeInfluenceScope: a change outside the root's full span is a namespace
      change; no containing node gives no scope; otherwise the parent walk decides. */
  function TextChangeInfluenceScope(change: TextChange, rootFullSpan: TextSpan, found: Option<seq<SyntaxNode>>)
    : (r: ChangeInfluenceScope)
    requires found.Some? ==> WellFormedAncestry(found.value)
    ensures !rootFullSpan.Contains(change.span) ==> r == Namespace
    ensures r == NoScope <==> rootFullSpan.Contains(change.span) && found.None?
    ensures r != NoScope ==> IsSingleFlag(r)
  {
    if !rootFullSpan.Contains(change.span) then Namespace
    else if found.None? then NoScope
    else
      AncestryScopeIsSingleFlag(change, found.value);
      AncestryScope(change, found.value)
  }

  predicate IsSingleFlag(scope: ChangeInfluenceScope)
  {
    scope in {StatementsBlock, Attributes, Trivia, Class, Namespace}
  }

  /** The parent walk always ends with exactly one flag. */
  lemma {:induction false} AncestryScopeIsSingleFlag(change: TextChange, ancestry: seq<SyntaxNode>)
    requires WellFormedAncestry(ancestry)
    ensures IsSingleFlag(AncestryScope(change, ancestry))
    decreases |ancestry|
  {
    if !ancestry[0].kind.CompilationUnit? {
      var answer := NodeScope(ancestry[0], ancestry[1], change);
      if answer.None? {
        AncestryScopeIsSingleFlag(change, ancestry[1..]);
      } else if IsMemberDeclaration(ancestry[0]) {
        var node := ancestry[0];
        match node.kind
        case MethodMember(body, m, e) =>
          BodyFirstScopeOrder(node, MethodBodySpan(body, m, e), change);
        case PropertyMember(a, p, e) =>
          BodyFirstScopeOrder(node, PropertyBodySpan(a, p, e), change);
        case OtherMember =>
      }
    }
  }

  /** Nodes that pass the walk on: anything but a member, a block or the compilation unit,
      and statements the new text no longer fits in. */
  predicate PassesWalkOn(change: TextChange, node: SyntaxNode)
  {
    match node.kind
    case LocalFunctionStatement => ContainmentMode(change, node.span) == NotContaining
    case OtherStatement => ContainmentMode(change, node.span) == NotContaining
    case OtherNode => true
    case _ => false
  }

  /** Statements the edit overflows are skipped, so the first enclosing member, block or
      still-containing statement decides. */
  lemma {:induction false} FirstDecidingNodeDecides(change: TextChange, ancestry: seq<SyntaxNode>, k: nat)
    requires WellFormedAncestry(ancestry) && k < |ancestry| - 1
    requires forall i :: 0 <= i < k ==> PassesWalkOn(change, ancestry[i])
    requires !PassesWalkOn(change, ancestry[k])
    ensures AncestryScope(change, ancestry[k..]) == AncestryScope(change, ancestry)
    ensures !ancestry[k].kind.CompilationUnit? ==> NodeScope(ancestry[k], ancestry[k + 1], change).Some?
    decreases k
  {
    if k > 0 {
      assert PassesWalkOn(change, ancestry[0]);
      FirstDecidingNodeDecides(change, ancestry[1..], k - 1);
      assert ancestry[1..][k - 1..] == ancestry[k..];
    }
  }

  /** The scope of a sequence of changes: the union of the scopes of each. */
  function ChangesScope(changes: seq<TextChange>, rootFullSpan: TextSpan, findNode: TextSpan -> Option<seq<SyntaxNode>>): ChangeInfluenceScope
    requires ValidFinder(findNode)
  {
    if changes == [] then NoScope
    else
      var last := changes[|changes| - 1];
      ChangesScope(changes[..|changes| - 1], rootFullSpan, findNode)
        + TextChangeInfluenceScope(last, rootFullSpan, findNode(last.span))
  }

  /** A flag is in the accumulated scope exactly when some change has it. */
  lemma {:induction false} ChangesScopeMembership(changes: seq<TextChange>, rootFullSpan: TextSpan,
                                                  findNode: TextSpan -> Option<seq<SyntaxNode>>, flag: ScopeFlag)
    requires ValidFinder(findNode)
    ensures flag in ChangesScope(changes, rootFullSpan, findNode) <==>
              exists i :: 0 <= i < |changes| && flag in TextChangeInfluenceScope(changes[i], rootFullSpan, findNode(changes[i].span))
  {
    if changes != [] {
      var prefix := changes[..|changes| - 1];
      ChangesScopeMembership(prefix, rootFullSpan, findNode, flag);
      if flag in ChangesScope(changes, rootFullSpan, findNode) {
        if flag !in ChangesScope(prefix, rootFullSpan, findNode) {
          assert flag in TextChangeInfluenceScope(changes[|changes| - 1], rootFullSpan, findNode(changes[|changes| - 1].span));
        } else {
          var i :| 0 <= i < |prefix| && flag in TextChangeInfluenceScope(prefix[i], rootFullSpan, findNode(prefix[i].span));
          assert prefix[i] == changes[i];
        }
      } else {
        forall i | 0 <= i < |changes|
          ensures flag !in TextChangeInfluenceScope(changes[i], rootFullSpan, findNode(changes[i].span))
        {
          if i < |prefix| {
            assert prefix[i] == changes[i];
          }
        }
      }
    }
  }

  /** The parent walk of GetTextChangeInfluenceScope, one node per iteration. */
  method GetTextChangeInfluenceScope(change: TextChange, rootFullSpan: TextSpan, found: Option<seq<SyntaxNode>>)
    returns (r: ChangeInfluenceScope)
    requires found.Some? ==> WellFormedAncestry(found.value)
    ensures r == TextChangeInfluenceScope(change, rootFullSpan, found)
    ensures !rootFullSpan.Contains(change.span) ==> r == Namespace
    ensures rootFullSpan.Contains(change.span) && found.Some? ==> IsSingleFlag(r)
  {
    if !rootFullSpan.Contains(change.span) {
      return Namespace;
    }
    if found.None? {
      return NoScope;
    }
    var ancestry := found.value;
    AncestryScopeIsSingleFlag(change, ancestry);
    var i := 0;
    while !ancestry[i].kind.CompilationUnit?
      invariant 0 <= i < |ancestry|
      invariant WellFormedAncestry(ancestry[i..])
      invariant AncestryScope(change, ancestry[i..]) == AncestryScope(change, ancestry)
      decreases |ancestry| - i
    {
      var changesScope := NodeScope(ancestry[i], ancestry[i + 1], change);
      if changesScope.Some? {
        return changesScope.value;
      }
      assert ancestry[i..][1..] == ancestry[i + 1..];
      i := i + 1;
    }
    return Namespace;
  }

  /** GetChangesScopeImpl: the per-change scopes ORed into an accumulator. */
  method GetChangesScopeImpl(textChanges: seq<TextChange>, rootFullSpan: TextSpan, findNode: TextSpan -> Option<seq<SyntaxNode>>)
    returns (r: ChangeInfluenceScope)
    requires ValidFinder(findNode)
    ensures r == ChangesScope(textChanges, rootFullSpan, findNode)
  {
    r := NoScope;
    for i := 0 to |textChanges|
      invariant r == ChangesScope(textChanges[..i], rootFullSpan, findNode)
    {
      var changeScope := GetTextChangeInfluenceScope(textChanges[i], rootFullSpan, findNode(textChanges[i].span));
      assert textChanges[..i + 1][..i] == textChanges[..i];
      r := r + changeScope;
    }
    assert textChanges[..|textChanges|] == textChanges;
  }

  /** GetChangesScopeAsync once the text changes are known: none gives no scope. */
  method GetChangesScope(textChanges: seq<TextChange>, rootFullSpan: TextSpan, findNode: TextSpan -> Option<seq<SyntaxNode>>)
    returns (r: ChangeInfluenceScope)
    requires ValidFinder(findNode)
    ensures r == ChangesScope(textChanges, rootFullSpan, findNode)
    ensures textChanges == [] ==> r == NoScope
    ensures forall flag :: flag in r <==>
              exists i :: 0 <= i < |textChanges| && flag in TextChangeInfluenceScope(textChanges[i], rootFullSpan, findNode(textChanges[i].span))
  {
    if textChanges == [] {
      return NoScope;
    }
    r := GetChangesScopeImpl(textChanges, rootFullSpan, findNode);
    forall flag: ScopeFlag
      ensures flag in r <==>
                exists i :: 0 <= i < |textChanges| && flag in TextChangeInfluenceScope(textChanges[i], rootFullSpan, findNode(textChanges[i].span))
    {
      ChangesScopeMembership(textChanges, rootFullSpan, findNode, flag);
    }
  }
}
