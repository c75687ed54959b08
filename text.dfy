/** Strings as the analyzers compare them: ordinal equality, ordinal case-insensitive
    equality (folded over ASCII letters), white space and character search. */
module Text {
  import opened Wrappers

  /** Upper-cases an ASCII letter; every other character is left alone. */
  function ToUpperChar(c: char): (r: char)
    ensures 'a' <= c <= 'z' ==> r as int == c as int - 32
    ensures !('a' <= c <= 'z') ==> r == c
  {
    if 'a' <= c <= 'z' then (c as int - 32) as char else c
  }

  function ToUpper(s: string): (r: string)
    ensures |r| == |s|
    ensures forall i :: 0 <= i < |s| ==> r[i] == ToUpperChar(s[i])
  {
    if s == [] then [] else [ToUpperChar(s[0])] + ToUpper(s[1..])
  }

  /** StringComparison.OrdinalIgnoreCase. */
  predicate EqualsIgnoreCase(a: string, b: string)
  {
    ToUpper(a) == ToUpper(b)
  }

  /** Strings that differ only in the case of their letters compare equal. */
  lemma {:induction false} EqualsIgnoreCaseOfUpper(s: string)
    ensures EqualsIgnoreCase(s, ToUpper(s))
  {
    var u := ToUpper(s);
    assert forall i :: 0 <= i < |s| ==> ToUpperChar(u[i]) == ToUpperChar(s[i]);
    assert ToUpper(u) == u;
  }

  /** char.IsWhiteSpace over the Latin-1 range. */
  predicate IsWhiteSpace(c: char)
  {
    c == ' ' || c == '\t' || c == '\n' || c == '\r' || c == '\U{000B}' || c == '\U{000C}'
    || c == '\U{0085}' || c == '\U{00A0}'
  }

  /** string.IsNullOrWhiteSpace; None stands for null. */
  predicate IsNullOrWhiteSpace(s: Option<string>)
  {
    s.None? || forall i :: 0 <= i < |s.value| ==> IsWhiteSpace(s.value[i])
  }

  /** string.IndexOf(char): the first index of `c`, or -1. */
  function IndexOf(s: string, c: char): (r: int)
    ensures -1 <= r < |s|
    ensures r == -1 <==> c !in s
    ensures r >= 0 ==> s[r] == c && c !in s[..r]
  {
    if s == [] then -1
    else if s[0] == c then 0
    else
      var k := IndexOf(s[1..], c);
      assert s[1..][..k + 1] == s[1..k + 2] || k == -1;
      if k == -1 then -1 else k + 1
  }
}
