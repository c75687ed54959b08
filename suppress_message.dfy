/** SuppressMessage: the identity of one suppressed diagnostic (its id, the member that
    contains it and the text of its syntax node), with ordinal value equality and the
    hash that agrees with it. */
module SuppressMessages {
  import opened Wrappers

  const TwoTo31 := 0x8000_0000
  const TwoTo32 := 0x1_0000_0000

  newtype int32 = x: int | -0x8000_0000 <= x < 0x8000_0000

  /** Two's-complement wrap-around of an `unchecked` int expression. */
  function Wrap32(x: int): (r: int32)
  {
    ((x + TwoTo31) % TwoTo32 - TwoTo31) as int32
  }

  /** Wrapping an intermediate result does not change the final wrapped value. */
  lemma WrapInner(x: int, k: int, y: int)
    ensures Wrap32(k * (Wrap32(x) as int) + y) == Wrap32(k * x + y)
  {
    var q := (x + TwoTo31) / TwoTo32;
    assert Wrap32(x) as int == x - q * TwoTo32;
    assert k * (Wrap32(x) as int) + y == (k * x + y) - (k * q) * TwoTo32;
    ShiftByMultiple(k * x + y + TwoTo31, k * q);
  }

  lemma ShiftByMultiple(a: int, m: int)
    ensures (a - m * TwoTo32) % TwoTo32 == a % TwoTo32
  {
    var r := a % TwoTo32;
    var q := a / TwoTo32;
    assert a - m * TwoTo32 == (q - m) * TwoTo32 + r;
  }

  datatype SuppressMessage = SuppressMessage(id: string, target: string, syntaxNode: string)
  {
    /** Equals(SuppressMessage): the three strings compared ordinally, in turn. */
    predicate Equals(other: SuppressMessage)
      ensures Equals(other) <==> this == other
    {
      if other.id != id then false
      else if other.target != target then false
      else if other.syntaxNode != syntaxNode then false
      else true
    }

    /** Equals(object): false for anything that is not a boxed SuppressMessage. */
    predicate EqualsObject(obj: Object)
      ensures EqualsObject(obj) <==> obj.BoxedSuppressMessage? && obj.message == this
    {
      match obj
      case BoxedSuppressMessage(message) => Equals(message)
      case _ => false
    }

    /** GetHashCode: 17, then three unchecked multiply-by-23-and-add steps over the
        strings' own hash codes. */
    function GetHashCode(stringHash: string -> int32): (r: int32)
      ensures r == Wrap32(((17 * 23 + stringHash(id) as int) * 23 + stringHash(target) as int) * 23
                          + stringHash(syntaxNode) as int)
    {
      var hash: int32 := 17;
      var hash1 := Wrap32(23 * (hash as int) + stringHash(id) as int);
      var hash2 := Wrap32(23 * (hash1 as int) + stringHash(target) as int);
      var hash3 := Wrap32(23 * (hash2 as int) + stringHash(syntaxNode) as int);
      WrapInner(17 * 23 + stringHash(id) as int, 23, stringHash(target) as int);
      WrapInner((17 * 23 + stringHash(id) as int) * 23 + stringHash(target) as int, 23, stringHash(syntaxNode) as int);
      assert hash1 == Wrap32(17 * 23 + stringHash(id) as int);
      hash3
    }
  }

  /** What `object obj` can hold: null, a boxed SuppressMessage or any other value. */
  datatype Object = NullObject | BoxedSuppressMessage(message: SuppressMessage) | OtherObject

  /** The constructor: every argument must be non-null, checked in order. */
  function NewSuppressMessage(id: Option<string>, target: Option<string>, syntaxNode: Option<string>): (r: Result<SuppressMessage>)
    ensures r.Ok? <==> id.Some? && target.Some? && syntaxNode.Some?
    ensures r.Ok? ==> r.value == SuppressMessage(id.value, target.value, syntaxNode.value)
    ensures id.None? ==> r == Err(ArgumentNull("id"))
    ensures id.Some? && target.None? ==> r == Err(ArgumentNull("target"))
    ensures id.Some? && target.Some? && syntaxNode.None? ==> r == Err(ArgumentNull("syntaxNode"))
  {
    if id.None? then Err(ArgumentNull("id"))
    else if target.None? then Err(ArgumentNull("target"))
    else if syntaxNode.None? then Err(ArgumentNull("syntaxNode"))
    else Ok(SuppressMessage(id.value, target.value, syntaxNode.value))
  }

  /** Equality is an equivalence, and equal messages hash alike. */
  lemma EqualsIsAnEquivalence(a: SuppressMessage, b: SuppressMessage, c: SuppressMessage, stringHash: string -> int32)
    ensures a.Equals(a)
    ensures a.Equals(b) ==> b.Equals(a)
    ensures a.Equals(b) && b.Equals(c) ==> a.Equals(c)
    ensures a.Equals(b) ==> a.GetHashCode(stringHash) == b.GetHashCode(stringHash)
    ensures a.EqualsObject(BoxedSuppressMessage(b)) <==> a.Equals(b)
  {
  }
}
