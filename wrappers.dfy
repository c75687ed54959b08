/** Option and Result: the null references and thrown exceptions of the analyzers,
    made explicit as values. */
module Wrappers {

  datatype Option<+T> = None | Some(value: T) {
    function GetOr(default: T): T {
      match this
      case Some(v) => v
      case None => default
    }
  }

  /** Error outcomes of the source: an exception it throws, named by its cause. */
  datatype Error =
    | ArgumentNull(parameter: string)
    | ArgumentException(parameter: string)
    | NullReference
    | IndexOutOfRange

  datatype Result<+T> = Ok(value: T) | Err(error: Error)

  /** The elements of `s` satisfying `p`, in order (LINQ's Where). */
  function Filter<T>(s: seq<T>, p: T -> bool): (r: seq<T>)
    ensures |r| <= |s|
  {
    if s == [] then []
    else Filter(s[..|s| - 1], p) + (if p(s[|s| - 1]) then [s[|s| - 1]] else [])
  }

  /** Filter keeps nothing when no element satisfies the predicate. */
  lemma {:induction false} FilterNone<T>(s: seq<T>, p: T -> bool)
    requires forall x :: x in s ==> !p(x)
    ensures Filter(s, p) == []
  {
    if s != [] {
      assert s[|s| - 1] in s;
      assert forall x :: x in s[..|s| - 1] ==> x in s;
      FilterNone(s[..|s| - 1], p);
    }
  }

  /** Filter keeps exactly the elements that satisfy the predicate. */
  lemma {:induction false} FilterMembership<T>(s: seq<T>, p: T -> bool, x: T)
    ensures x in Filter(s, p) <==> x in s && p(x)
  {
    if s != [] {
      FilterMembership(s[..|s| - 1], p, x);
      assert s == s[..|s| - 1] + [s[|s| - 1]];
    }
  }

  /** Filter keeps two elements or more exactly when two positions satisfy the predicate. */
  lemma {:induction false} FilterTwoIffLonger<T>(s: seq<T>, p: T -> bool)
    ensures |Filter(s, p)| > 1 <==> exists i, j :: 0 <= i < j < |s| && p(s[i]) && p(s[j])
  {
    if s != [] {
      var prefix := s[..|s| - 1];
      var last := s[|s| - 1];
      FilterTwoIffLonger(prefix, p);
      assert forall k :: 0 <= k < |prefix| ==> s[k] == prefix[k];
      if p(last) && |Filter(prefix, p)| == 1 {
        var x := Filter(prefix, p)[0];
        FilterMembership(prefix, p, x);
        var i :| 0 <= i < |prefix| && prefix[i] == x;
        assert p(s[i]) && p(s[|s| - 1]);
      }
      if p(last) && |Filter(prefix, p)| == 0 {
        forall i | 0 <= i < |prefix| ensures !p(prefix[i]) {
          FilterMembership(prefix, p, prefix[i]);
        }
      }
      if !p(last) {
        forall i, j | 0 <= i < j < |s| && p(s[i]) && p(s[j])
          ensures j < |prefix|
        {
        }
      }
    }
  }

  /** The elements of a sequence as a set (ToHashSet). */
  function SetOf<T>(s: seq<T>): set<T>
  {
    set x | x in s
  }
}
