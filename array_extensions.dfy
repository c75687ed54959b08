/** Copy-on-write array helpers, in-place reversal and the two binary searches over
    sorted int arrays (Acuminator.Utilities/Common/ArrayExtensions.cs). */
module ArrayExtensions {

  newtype uint32 = x: int | 0 <= x < 0x1_0000_0000

  // ---------------------------------------------------------------------------
  // Specification functions on sequences
  // ---------------------------------------------------------------------------

  /** The elements of `s` with `items` put in front of position `p`. */
  function InsertedAt<T>(s: seq<T>, p: nat, items: seq<T>): (r: seq<T>)
    requires p <= |s|
    ensures |r| == |s| + |items|
    ensures forall i :: 0 <= i < p ==> r[i] == s[i]
    ensures forall i :: 0 <= i < |items| ==> r[p + i] == items[i]
    ensures forall i :: p <= i < |s| ==> r[i + |items|] == s[i]
  {
    s[..p] + items + s[p..]
  }

  /** How many elements a removal of `length` elements at `p` really removes: the
      request is clamped to the tail of the array. */
  function ClampedLength(size: nat, p: nat, length: nat): (n: nat)
    requires p <= size
    ensures n <= size - p
    ensures n == length || (length > size - p && n == size - p)
  {
    if p + length > size then size - p else length
  }

  /** `s` without the (clamped) run of `length` elements starting at `p`. */
  function RemovedRange<T>(s: seq<T>, p: nat, length: nat): (r: seq<T>)
    requires p <= |s|
    ensures |r| == |s| - ClampedLength(|s|, p, length)
    ensures forall i :: 0 <= i < p ==> r[i] == s[i]
    ensures forall i :: p <= i < |r| ==> r[i] == s[i + ClampedLength(|s|, p, length)]
  {
    s[..p] + s[p + ClampedLength(|s|, p, length)..]
  }

  /** `s` read backwards. */
  function Reversed<T>(s: seq<T>): seq<T>
  {
    if s == [] then [] else [s[|s| - 1]] + Reversed(s[..|s| - 1])
  }

  lemma {:induction false} ReversedIndex<T>(s: seq<T>, k: nat)
    requires k < |s|
    ensures |Reversed(s)| == |s|
    ensures Reversed(s)[k] == s[|s| - 1 - k]
  {
    if k == 0 {
      ReversedLength(s);
    } else {
      ReversedIndex(s[..|s| - 1], k - 1);
    }
  }

  lemma {:induction false} ReversedLength<T>(s: seq<T>)
    ensures |Reversed(s)| == |s|
  {
    if s != [] {
      ReversedLength(s[..|s| - 1]);
    }
  }

  /** Reversing twice gives back the original sequence. */
  lemma ReversedTwice<T>(s: seq<T>)
    ensures Reversed(Reversed(s)) == s
  {
    ReversedLength(s);
    ReversedLength(Reversed(s));
    forall k | 0 <= k < |s|
      ensures Reversed(Reversed(s))[k] == s[k]
    {
      ReversedIndex(Reversed(s), k);
      ReversedIndex(s, |s| - 1 - k);
    }
  }

  /** Removing the single element just inserted at `p` restores the array. */
  lemma RemoveUndoesInsert<T>(s: seq<T>, p: nat, x: T)
    requires p <= |s|
    ensures RemovedRange(InsertedAt(s, p, [x]), p, 1) == s
  {
    var ins := InsertedAt(s, p, [x]);
    var r := RemovedRange(ins, p, 1);
    assert ClampedLength(|ins|, p, 1) == 1;
    forall i | 0 <= i < |s| ensures r[i] == s[i] {
      if i >= p {
        assert r[i] == ins[i + 1];
      }
    }
  }

  /** The single-item replacement agrees with the range form `ReplaceAt(p, 1, [x])`. */
  lemma ReplaceIsRemoveThenInsert<T>(s: seq<T>, p: nat, x: T)
    requires p < |s|
    ensures s[p := x] == InsertedAt(RemovedRange(s, p, 1), p, [x])
  {
    var rem := RemovedRange(s, p, 1);
    assert ClampedLength(|s|, p, 1) == 1;
    var r := InsertedAt(rem, p, [x]);
    forall i | 0 <= i < |s| ensures r[i] == s[p := x][i] {
      if i > p {
        assert r[i] == rem[i - 1];
      }
    }
  }

  ghost predicate Sorted(a: array<int>)
    reads a
  {
    forall i, j :: 0 <= i < j < a.Length ==> a[i] <= a[j]
  }

  // ---------------------------------------------------------------------------
  // Methods: each allocates a new array filled by Array.Copy, as the source does
  // ---------------------------------------------------------------------------

  /** Array.Copy(src, srcIndex, dst, dstIndex, length) between two distinct arrays. */
  method ArrayCopy<T>(src: array<T>, srcIndex: nat, dst: array<T>, dstIndex: nat, length: nat)
    requires src != dst
    requires srcIndex + length <= src.Length && dstIndex + length <= dst.Length
    modifies dst
    ensures forall i :: dstIndex <= i < dstIndex + length ==> dst[i] == src[i - dstIndex + srcIndex]
    ensures forall i :: 0 <= i < dst.Length && !(dstIndex <= i < dstIndex + length) ==> dst[i] == old(dst[i])
  {
    var k := 0;
    while k < length
      invariant 0 <= k <= length
      invariant forall i :: dstIndex <= i < dstIndex + k ==> dst[i] == src[i - dstIndex + srcIndex]
      invariant forall i :: 0 <= i < dst.Length && !(dstIndex <= i < dstIndex + k) ==> dst[i] == old(dst[i])
    {
      dst[dstIndex + k] := src[srcIndex + k];
      k := k + 1;
    }
  }

  /** The (clamped) slice of `length` elements from `start`; `start == Length` gives an empty array. */
  method Copy<T(0)>(a: array<T>, start: int, length: int) returns (r: array<T>)
    requires 0 <= start <= a.Length
    requires 0 <= length
    ensures fresh(r)
    ensures r.Length == if start + length > a.Length then a.Length - start else length
    ensures r[..] == a[start..start + r.Length]
  {
    var len := length;
    if start + len > a.Length {
      len := a.Length - start;
    }
    r := new T[len];
    ArrayCopy(a, start, r, 0, len);
  }

  /** True iff both are the same reference, or both exist with equal lengths and elements. */
  method ValueEquals(a: array?<uint32>, other: array?<uint32>) returns (r: bool)
    ensures r <==> a == other || (a != null && other != null && a[..] == other[..])
  {
    if a == other {
      return true;
    }
    if a == null || other == null || a.Length != other.Length {
      return false;
    }
    var i := 0;
    while i < a.Length
      invariant 0 <= i <= a.Length
      invariant a[..i] == other[..i]
    {
      if a[i] != other[i] {
        assert a[..][i] != other[..][i];
        return false;
      }
      i := i + 1;
    }
    assert a[..] == a[..a.Length];
    return true;
  }

  method InsertAt<T(0)>(a: array<T>, position: int, item: T) returns (r: array<T>)
    requires 0 <= position <= a.Length
    ensures fresh(r)
    ensures r[..] == InsertedAt(a[..], position, [item])
  {
    r := new T[a.Length + 1];
    if position > 0 {
      ArrayCopy(a, 0, r, 0, position);
    }
    if position < a.Length {
      ArrayCopy(a, position, r, position + 1, a.Length - position);
    }
    r[position] := item;
    assert r[..] == InsertedAt(a[..], position, [item]) by {
      var expected := InsertedAt(a[..], position, [item]);
      forall i | 0 <= i < r.Length ensures r[i] == expected[i] {
        if i > position {
          assert expected[(i - 1) + 1] == a[i - 1];
        }
      }
    }
  }

  method Append<T(0)>(a: array<T>, item: T) returns (r: array<T>)
    ensures fresh(r)
    ensures r[..] == a[..] + [item]
  {
    r := InsertAt(a, a.Length, item);
  }

  method InsertItemsAt<T(0)>(a: array<T>, position: int, items: array<T>) returns (r: array<T>)
    requires 0 <= position <= a.Length
    ensures fresh(r)
    ensures r[..] == InsertedAt(a[..], position, items[..])
  {
    r := new T[a.Length + items.Length];
    if position > 0 {
      ArrayCopy(a, 0, r, 0, position);
    }
    if position < a.Length {
      ArrayCopy(a, position, r, position + items.Length, a.Length - position);
    }
    ArrayCopy(items, 0, r, position, items.Length);
    assert r[..] == InsertedAt(a[..], position, items[..]) by {
      var expected := InsertedAt(a[..], position, items[..]);
      forall i | 0 <= i < r.Length ensures r[i] == expected[i] {
        if position <= i < position + items.Length {
          assert expected[position + (i - position)] == items[i - position];
        } else if i >= position + items.Length {
          assert expected[(i - items.Length) + items.Length] == a[i - items.Length];
        }
      }
    }
  }

  method AppendItems<T(0)>(a: array<T>, items: array<T>) returns (r: array<T>)
    ensures fresh(r)
    ensures r[..] == a[..] + items[..]
  {
    r := InsertItemsAt(a, a.Length, items);
  }

  method RemoveRange<T(0)>(a: array<T>, position: int, length: int) returns (r: array<T>)
    requires 0 <= position <= a.Length
    requires 0 <= length
    ensures fresh(r)
    ensures r[..] == RemovedRange(a[..], position, length)
  {
    var len := length;
    if position + len > a.Length {
      len := a.Length - position;
    }
    r := new T[a.Length - len];
    if position > 0 {
      ArrayCopy(a, 0, r, 0, position);
    }
    if position < r.Length {
      ArrayCopy(a, position + len, r, position, r.Length - position);
    }
    assert r[..] == RemovedRange(a[..], position, length) by {
      var expected := RemovedRange(a[..], position, length);
      forall i | 0 <= i < r.Length ensures r[i] == expected[i] {
        if i >= position {
          assert r[position + (i - position)] == a[position + len + (i - position)];
        }
      }
    }
  }

  method RemoveAt<T(0)>(a: array<T>, position: int) returns (r: array<T>)
    requires 0 <= position <= a.Length
    ensures fresh(r)
    ensures r[..] == RemovedRange(a[..], position, 1)
  {
    r := RemoveRange(a, position, 1);
  }

  /** A copy of `a` that differs from it at `position` only. */
  method ReplaceAt<T(0)>(a: array<T>, position: int, item: T) returns (r: array<T>)
    requires 0 <= position < a.Length
    ensures fresh(r)
    ensures r[..] == a[..][position := item]
  {
    r := new T[a.Length];
    ArrayCopy(a, 0, r, 0, a.Length);
    r[position] := item;
    assert forall i :: 0 <= i < r.Length ==> r[..][i] == a[..][position := item][i];
  }

  method ReplaceRange<T(0)>(a: array<T>, position: int, length: int, items: array<T>) returns (r: array<T>)
    requires 0 <= position <= a.Length
    requires 0 <= length
    ensures fresh(r)
    ensures r[..] == InsertedAt(RemovedRange(a[..], position, length), position, items[..])
  {
    var removed := RemoveRange(a, position, length);
    r := InsertItemsAt(removed, position, items);
  }

  /** Reverses the cells `[start, start + count)` in place and leaves every other cell alone. */
  method ReverseRange<T>(a: array<T>, start: int, count: int)
    requires count >= 2 ==> 0 <= start && start + count <= a.Length
    modifies a
    ensures count < 2 ==> a[..] == old(a[..])
    ensures count >= 2 ==>
      a[..] == old(a[..start]) + Reversed(old(a[start..start + count])) + old(a[start + count..])
  {
    var end := start + count - 1;
    var i, j := start, end;
    while i < j
      invariant count < 2 ==> i == start && j == end
      invariant count >= 2 ==> start <= i && j <= end && i - start == end - j && i <= j + 1
      invariant forall k :: 0 <= k < a.Length && !(start <= k <= end) ==> a[k] == old(a[k])
      invariant forall k :: 0 <= k < a.Length && i <= k <= j ==> a[k] == old(a[k])
      invariant count >= 2 ==> forall k :: start <= k < i ==> a[k] == old(a[start + end - k])
      invariant count >= 2 ==> forall k :: j < k <= end ==> a[k] == old(a[start + end - k])
    {
      a[i], a[j] := a[j], a[i];
      i, j := i + 1, j - 1;
    }
    if count >= 2 {
      ghost var was := old(a[start..start + count]);
      ghost var expected := old(a[..start]) + Reversed(was) + old(a[start + count..]);
      ReversedLength(was);
      forall k | 0 <= k < a.Length ensures a[k] == expected[k] {
        if start <= k < start + count {
          ReversedIndex(was, k - start);
        }
      }
      assert a[..] == expected;
    }
  }

  method ReverseContents<T>(a: array<T>)
    modifies a
    ensures a[..] == Reversed(old(a[..]))
  {
    ReverseRange(a, 0, a.Length);
    if a.Length < 2 {
      assert old(a[..]) == [] || old(a[..]) == [old(a[0])];
      assert Reversed(old(a[..])) == old(a[..]) by {
        if a.Length == 1 {
          assert old(a[..])[..0] == [];
        }
      }
    } else {
      assert old(a[..0]) == [] && old(a[a.Length..]) == [];
      assert old(a[0..a.Length]) == old(a[..]);
    }
  }

  /** On a sorted array: an index holding `value`, or the complement of its insertion point. */
  method BinarySearch(a: array<int>, value: int) returns (r: int)
    requires Sorted(a)
    ensures 0 <= r ==> r < a.Length && a[r] == value
    ensures r < 0 ==> value !in a[..]
    ensures r < 0 ==> var low := -r - 1;
      low <= a.Length &&
      (forall i :: 0 <= i < low ==> a[i] < value) &&
      (forall i :: low <= i < a.Length ==> a[i] > value)
  {
    var low, high := 0, a.Length - 1;
    while low <= high
      invariant 0 <= low <= high + 1 <= a.Length
      invariant forall i :: 0 <= i < low ==> a[i] < value
      invariant forall i :: high < i < a.Length ==> a[i] > value
    {
      var middle := low + (high - low) / 2;
      var midValue := a[middle];
      if midValue == value {
        return middle;
      } else if midValue > value {
        high := middle - 1;
      } else {
        low := middle + 1;
      }
    }
    r := -low - 1;
  }

  /** On a sorted array: the first index whose element is greater than `value`
      (`Length` when there is none). */
  method BinarySearchUpperBound(a: array<int>, value: int) returns (r: int)
    requires Sorted(a)
    ensures 0 <= r <= a.Length
    ensures forall i :: 0 <= i < r ==> a[i] <= value
    ensures forall i :: r <= i < a.Length ==> a[i] > value
  {
    var low, high := 0, a.Length - 1;
    while low <= high
      invariant 0 <= low <= high + 1 <= a.Length
      invariant forall i :: 0 <= i < low ==> a[i] <= value
      invariant forall i :: high < i < a.Length ==> a[i] > value
    {
      var middle := low + (high - low) / 2;
      if a[middle] > value {
        high := middle - 1;
      } else {
        low := middle + 1;
      }
    }
    r := low;
  }
}
