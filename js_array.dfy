/** The JavaScript array methods the seller app's screens use, as functions on sequences. */
module JsArray {

  /** `s.findIndex(p)`: the least index whose element satisfies `p`, or -1. */
  function FindIndex<T>(s: seq<T>, p: T -> bool): (r: int)
    ensures -1 <= r < |s|
    ensures r >= 0 ==> p(s[r]) && forall j :: 0 <= j < r ==> !p(s[j])
    ensures r == -1 <==> forall j :: 0 <= j < |s| ==> !p(s[j])
  {
    if |s| == 0 then -1
    else if p(s[0]) then 0
    else
      var k := FindIndex(s[1..], p);
      if k == -1 then -1 else k + 1
  }

  /** `s.filter(p)`. */
  function Filter<T>(s: seq<T>, p: T -> bool): (r: seq<T>)
    ensures |r| <= |s|
    ensures forall i :: 0 <= i < |r| ==> r[i] in s && p(r[i])
    ensures forall i :: 0 <= i < |s| && p(s[i]) ==> s[i] in r
  {
    if |s| == 0 then []
    else
      assert s == [s[0]] + s[1..];
      if p(s[0]) then [s[0]] + Filter(s[1..], p) else Filter(s[1..], p)
  }

  /** Filtering a concatenation filters each side in order, so the survivors keep their order. */
  lemma {:induction false} FilterConcat<T>(a: seq<T>, b: seq<T>, p: T -> bool)
    ensures Filter(a + b, p) == Filter(a, p) + Filter(b, p)
  {
    if |a| == 0 {
      assert a + b == b;
    } else {
      var x, t := a[0], a[1..];
      var kept: seq<T> := if p(x) then [x] else [];
      calc {
        Filter(a + b, p);
        == { assert a + b == [x] + (t + b); FilterCons(x, t + b, p); }
        kept + Filter(t + b, p);
        == { FilterConcat(t, b, p); }
        kept + (Filter(t, p) + Filter(b, p));
        ==
        (kept + Filter(t, p)) + Filter(b, p);
        == { assert a == [x] + t; FilterCons(x, t, p); }
        Filter(a, p) + Filter(b, p);
      }
    }
  }

  /** How `Filter` unfolds on a sequence with a first element. */
  lemma FilterCons<T>(x: T, t: seq<T>, p: T -> bool)
    ensures Filter([x] + t, p) == (if p(x) then [x] else []) + Filter(t, p)
  {
    assert ([x] + t)[0] == x;
    assert ([x] + t)[1..] == t;
  }

  /** Filtering keeps everything exactly when every element passes. */
  lemma {:induction false} FilterAll<T>(s: seq<T>, p: T -> bool)
    requires forall x :: x in s ==> p(x)
    ensures Filter(s, p) == s
  {
    if |s| > 0 {
      FilterAll(s[1..], p);
      assert s == [s[0]] + s[1..];
    }
  }

  /** `s.map(f)`. */
  function Map<T, U>(s: seq<T>, f: T -> U): (r: seq<U>)
    ensures |r| == |s|
    ensures forall i :: 0 <= i < |s| ==> r[i] == f(s[i])
  {
    seq(|s|, i requires 0 <= i < |s| => f(s[i]))
  }

  /** `s.filter((_, i) => i !== index)`: drops the element at `index` when there is one. */
  function RemoveIndex<T>(s: seq<T>, index: int): (r: seq<T>)
    ensures 0 <= index < |s| ==> r == s[..index] + s[index + 1..]
    ensures !(0 <= index < |s|) ==> r == s
  {
    if |s| == 0 then []
    else if index == 0 then s[1..]
    else
      assert s == [s[0]] + s[1..];
      [s[0]] + RemoveIndex(s[1..], index - 1)
  }

  /** The index where `s.splice(start, 1)` starts, after JavaScript's normalisation:
      a negative start counts from the end and is clamped at 0, a large one at the length. */
  function SpliceStart(length: nat, start: int): (k: nat)
    ensures k <= length
    ensures 0 <= start <= length ==> k == start
  {
    if start < 0 then (if length + start < 0 then 0 else length + start)
    else if start > length then length
    else start
  }

  /** The array left after `s.splice(start, 1)`: at most one element, at the normalised start, goes. */
  function SpliceOne<T>(s: seq<T>, start: int): (r: seq<T>)
    ensures 0 <= start < |s| ==> r == s[..start] + s[start + 1..]
    ensures start >= |s| ==> r == s
    ensures -|s| <= start < 0 ==> r == s[..|s| + start] + s[|s| + start + 1..]
    ensures start < -|s| && |s| > 0 ==> r == s[1..]
  {
    var k := SpliceStart(|s|, start);
    if k < |s| then s[..k] + s[k + 1..] else s
  }

  /** `s.reduce((acc, x) => acc + f(x), acc)`, folding from the left as `reduce` does. */
  function FoldSum<T>(acc: int, s: seq<T>, f: T -> int): int
    decreases |s|
  {
    if |s| == 0 then acc else FoldSum(acc + f(s[0]), s[1..], f)
  }

  /** The sum of `f` over `s`, defined from the right. */
  function Sum<T>(s: seq<T>, f: T -> int): int {
    if |s| == 0 then 0 else f(s[0]) + Sum(s[1..], f)
  }

  /** The left fold that `reduce` performs adds the plain sum to its seed. */
  lemma {:induction false} FoldSumIsSum<T>(acc: int, s: seq<T>, f: T -> int)
    ensures FoldSum(acc, s, f) == acc + Sum(s, f)
    decreases |s|
  {
    if |s| > 0 {
      FoldSumIsSum(acc + f(s[0]), s[1..], f);
    }
  }

  /** Sums add up over a concatenation. */
  lemma {:induction false} SumConcat<T>(a: seq<T>, b: seq<T>, f: T -> int)
    ensures Sum(a + b, f) == Sum(a, f) + Sum(b, f)
  {
    if |a| == 0 {
      assert a + b == b;
    } else {
      assert (a + b)[0] == a[0];
      assert (a + b)[1..] == a[1..] + b;
      SumConcat(a[1..], b, f);
    }
  }

  /** Removing the element at a valid index lowers the sum by exactly that element's amount. */
  lemma SumRemoveIndex<T>(s: seq<T>, index: int, f: T -> int)
    requires 0 <= index < |s|
    ensures Sum(RemoveIndex(s, index), f) == Sum(s, f) - f(s[index])
  {
    assert s == s[..index] + ([s[index]] + s[index + 1..]);
    SumConcat(s[..index], [s[index]] + s[index + 1..], f);
    SumConcat(s[..index], s[index + 1..], f);
    assert Sum([s[index]] + s[index + 1..], f) == f(s[index]) + Sum(s[index + 1..], f) by {
      assert ([s[index]] + s[index + 1..])[1..] == s[index + 1..];
    }
  }
}
