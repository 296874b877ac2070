/** Sequence helpers shared by the whole model: the `find`, `filter` and
    `reduce` idioms the source uses on its arrays, and the facts about them
    that the ledger proofs need. */
module Collections {

  datatype Option<T> = None | Some(value: T) {
    function GetOr(default: T): T {
      match this
      case Some(v) => v
      case None => default
    }
  }

  datatype Result<T> = Ok(value: T) | Err(message: string)

  function Max(a: real, b: real): (r: real)
    ensures r >= a && r >= b && (r == a || r == b)
  {
    if a >= b then a else b
  }

  function Min(a: real, b: real): (r: real)
    ensures r <= a && r <= b && (r == a || r == b)
  {
    if a <= b then a else b
  }

  /** Position of the first occurrence of `x` in `s`, or -1: the
      `findIndex` of a lookup by key. */
  function IndexOf<K(==)>(s: seq<K>, x: K): (k: int)
    ensures -1 <= k < |s|
    ensures k < 0 ==> forall i :: 0 <= i < |s| ==> s[i] != x
    ensures 0 <= k ==> s[k] == x && forall i :: 0 <= i < k ==> s[i] != x
  {
    if |s| == 0 then -1
    else if s[0] == x then 0
    else
      var k := IndexOf(s[1..], x);
      if k < 0 then -1 else k + 1
  }

  /** `Array.prototype.filter`: the elements satisfying `p`, in order. */
  function Filter<T>(s: seq<T>, p: T -> bool): (r: seq<T>)
    ensures |r| <= |s|
  {
    if |s| == 0 then []
    else (if p(s[0]) then [s[0]] else []) + Filter(s[1..], p)
  }

  /** `reduce((sum, x) => sum + f(x), 0)`. */
  function SumOf<T>(s: seq<T>, f: T -> real): real
  {
    if |s| == 0 then 0.0 else f(s[0]) + SumOf(s[1..], f)
  }

  /** `a` occurs in `b` in the same order, possibly with gaps. */
  predicate IsSubsequence<T(==)>(a: seq<T>, b: seq<T>)
  {
    |a| == 0 ||
    (|b| > 0 && ((a[0] == b[0] && IsSubsequence(a[1..], b[1..])) || IsSubsequence(a, b[1..])))
  }

  /** No key occurs twice in `s`. */
  predicate NoDuplicates<K(==)>(s: seq<K>)
  {
    |s| == 0 || (IndexOf(s[1..], s[0]) < 0 && NoDuplicates(s[1..]))
  }

  /** Without duplicates, a key is found exactly where it is and nowhere else. */
  lemma {:induction false} NoDuplicatesIndex<K>(s: seq<K>, k: int)
    requires NoDuplicates(s) && 0 <= k < |s|
    ensures IndexOf(s, s[k]) == k
    ensures forall i :: 0 <= i < |s| && i != k ==> s[i] != s[k]
  {
    if k > 0 {
      NoDuplicatesIndex(s[1..], k - 1);
      assert s[1..][k - 1] == s[k];
    }
    forall i | 0 < i < |s| ensures s[1..][i - 1] == s[i] { }
  }

  /** The filter keeps exactly the elements satisfying `p`. */
  lemma {:induction false} FilterMembers<T>(s: seq<T>, p: T -> bool)
    ensures forall x :: x in Filter(s, p) <==> x in s && p(x)
  {
    if |s| > 0 {
      FilterMembers(s[1..], p);
      assert s == [s[0]] + s[1..];
    }
  }

  /** The filter keeps every copy of an element satisfying `p` and no copy
      of any other. */
  lemma {:induction false} FilterCount<T>(s: seq<T>, p: T -> bool)
    ensures forall x :: multiset(Filter(s, p))[x] == if p(x) then multiset(s)[x] else 0
  {
    if |s| > 0 {
      FilterCount(s[1..], p);
      assert s == [s[0]] + s[1..];
      assert multiset(s) == multiset{s[0]} + multiset(s[1..]);
      assert Filter(s, p) == (if p(s[0]) then [s[0]] else []) + Filter(s[1..], p);
    }
  }

  lemma {:induction false} FilterIsSubsequence<T>(s: seq<T>, p: T -> bool)
    ensures IsSubsequence(Filter(s, p), s)
  {
    if |s| > 0 {
      FilterIsSubsequence(s[1..], p);
      if p(s[0]) {
        assert Filter(s, p) == [s[0]] + Filter(s[1..], p);
        assert Filter(s, p)[1..] == Filter(s[1..], p);
      } else {
        assert Filter(s, p) == Filter(s[1..], p);
      }
    }
  }

  lemma {:induction false} FilterAll<T>(s: seq<T>, p: T -> bool)
    requires forall i :: 0 <= i < |s| ==> p(s[i])
    ensures Filter(s, p) == s
  {
    if |s| > 0 {
      FilterAll(s[1..], p);
    }
  }

  /** One unfolding of the filter on a sequence built from its head. */
  lemma FilterCons<T>(x: T, s: seq<T>, p: T -> bool)
    ensures Filter([x] + s, p) == (if p(x) then [x] else []) + Filter(s, p)
  {
    assert ([x] + s)[1..] == s;
  }

  lemma {:induction false} FilterAppend<T>(a: seq<T>, b: seq<T>, p: T -> bool)
    ensures Filter(a + b, p) == Filter(a, p) + Filter(b, p)
  {
    if |a| == 0 {
      assert a + b == b;
    } else {
      var t := a[1..];
      assert a == [a[0]] + t;
      assert a + b == [a[0]] + (t + b);
      FilterCons(a[0], t + b, p);
      FilterCons(a[0], t, p);
      FilterAppend(t, b, p);
    }
  }

  lemma {:induction false} SumOfAppend<T>(a: seq<T>, b: seq<T>, f: T -> real)
    ensures SumOf(a + b, f) == SumOf(a, f) + SumOf(b, f)
  {
    if |a| == 0 {
      assert a + b == b;
    } else {
      SumOfAppend(a[1..], b, f);
      assert (a + b)[1..] == a[1..] + b;
    }
  }

  /** Changing one position of a sequence changes its sum by exactly the
      difference at that position. */
  lemma {:induction false} SumOfPointUpdate<T>(s: seq<T>, t: seq<T>, f: T -> real, k: int)
    requires |s| == |t| && 0 <= k < |s|
    requires forall i :: 0 <= i < |s| && i != k ==> f(s[i]) == f(t[i])
    ensures SumOf(t, f) == SumOf(s, f) - f(s[k]) + f(t[k])
  {
    if k == 0 {
      SumOfSame(s[1..], t[1..], f);
    } else {
      SumOfPointUpdate(s[1..], t[1..], f, k - 1);
    }
  }

  lemma {:induction false} SumOfSame<T>(s: seq<T>, t: seq<T>, f: T -> real)
    requires |s| == |t|
    requires forall i :: 0 <= i < |s| ==> f(s[i]) == f(t[i])
    ensures SumOf(t, f) == SumOf(s, f)
  {
    if |s| > 0 {
      SumOfSame(s[1..], t[1..], f);
    }
  }

  lemma {:induction false} SumOfNonnegative<T>(s: seq<T>, f: T -> real)
    requires forall i :: 0 <= i < |s| ==> f(s[i]) >= 0.0
    ensures SumOf(s, f) >= 0.0
  {
    if |s| > 0 {
      SumOfNonnegative(s[1..], f);
    }
  }

  lemma {:induction false} SumOfZero<T>(s: seq<T>, f: T -> real)
    requires forall i :: 0 <= i < |s| ==> f(s[i]) == 0.0
    ensures SumOf(s, f) == 0.0
  {
    if |s| > 0 {
      SumOfZero(s[1..], f);
    }
  }

  /** The kept part and the dropped part of a filter add up to the whole. */
  lemma {:induction false} SumOfFilterSplit<T>(s: seq<T>, p: T -> bool, q: T -> bool, f: T -> real)
    requires forall x :: q(x) == !p(x)
    ensures SumOf(Filter(s, p), f) + SumOf(Filter(s, q), f) == SumOf(s, f)
  {
    if |s| > 0 {
      SumOfFilterSplit(s[1..], p, q, f);
      if p(s[0]) {
        assert Filter(s, p) == [s[0]] + Filter(s[1..], p);
        assert Filter(s, q) == Filter(s[1..], q);
        SumOfAppend([s[0]], Filter(s[1..], p), f);
      } else {
        assert Filter(s, q) == [s[0]] + Filter(s[1..], q);
        assert Filter(s, p) == Filter(s[1..], p);
        SumOfAppend([s[0]], Filter(s[1..], q), f);
      }
    }
  }
}
