/**
 * `Enumerable.OrderBy(value => value)` over strings. The comparer is a parameter: a
 * total order on strings, of which the culture's default string comparison is one
 * instance. `OrderBy` is a stable sort; under an order in which only equal strings
 * compare equal, its result is the one sorted permutation of its input.
 */
module Sorting {

  /** A total order: any two strings compare, and the order is antisymmetric and transitive. */
  ghost predicate TotalOrder(le: (string, string) -> bool) {
    (forall a, b :: le(a, b) || le(b, a))
    && (forall a, b :: le(a, b) && le(b, a) ==> a == b)
    && (forall a, b, c :: le(a, b) && le(b, c) ==> le(a, c))
  }

  predicate Sorted(le: (string, string) -> bool, s: seq<string>) {
    forall i, j :: 0 <= i < j < |s| ==> le(s[i], s[j])
  }

  /** `x` placed before the first element it is not ordered after. */
  function Insert(le: (string, string) -> bool, x: string, s: seq<string>): seq<string> {
    if |s| == 0 then [x]
    else if le(x, s[0]) then [x] + s
    else [s[0]] + Insert(le, x, s[1..])
  }

  /** The strings of `s` in ascending order under `le`. */
  function Sort(le: (string, string) -> bool, s: seq<string>): seq<string> {
    if |s| == 0 then [] else Insert(le, s[0], Sort(le, s[1..]))
  }

  lemma {:induction false} InsertMultiset(le: (string, string) -> bool, x: string, s: seq<string>)
    ensures multiset(Insert(le, x, s)) == multiset(s) + multiset{x}
  {
    if |s| > 0 && !le(x, s[0]) {
      InsertMultiset(le, x, s[1..]);
      assert s == [s[0]] + s[1..];
    }
  }

  lemma {:induction false} InsertSorted(le: (string, string) -> bool, x: string, s: seq<string>)
    requires TotalOrder(le) && Sorted(le, s)
    ensures Sorted(le, Insert(le, x, s))
  {
    if |s| > 0 && !le(x, s[0]) {
      InsertSorted(le, x, s[1..]);
      InsertMultiset(le, x, s[1..]);
      var r := Insert(le, x, s);
      var t := Insert(le, x, s[1..]);
      forall j | 0 < j < |r| ensures le(s[0], r[j]) {
        assert r[j] == t[j - 1];
        assert t[j - 1] in multiset(s[1..]) + multiset{x};
        if t[j - 1] != x {
          var k :| 0 <= k < |s[1..]| && s[1..][k] == t[j - 1];
          assert s[k + 1] == t[j - 1];
        }
      }
    }
  }

  /** Sorting keeps every string with its multiplicity. */
  lemma {:induction false} SortPermutation(le: (string, string) -> bool, s: seq<string>)
    ensures multiset(Sort(le, s)) == multiset(s)
  {
    if |s| > 0 {
      SortPermutation(le, s[1..]);
      InsertMultiset(le, s[0], Sort(le, s[1..]));
      assert s == [s[0]] + s[1..];
    }
  }

  /** The result of sorting is in ascending order. */
  lemma {:induction false} SortSorted(le: (string, string) -> bool, s: seq<string>)
    requires TotalOrder(le)
    ensures Sorted(le, Sort(le, s))
  {
    if |s| > 0 {
      SortSorted(le, s[1..]);
      InsertSorted(le, s[0], Sort(le, s[1..]));
    }
  }

  /** The first element of a sorted sequence is ordered before every element of it. */
  lemma SortedHeadLeast(le: (string, string) -> bool, s: seq<string>, x: string)
    requires TotalOrder(le) && Sorted(le, s)
    requires x in multiset(s)
    ensures le(s[0], x)
  {
    var i :| 0 <= i < |s| && s[i] == x;
    if i == 0 {
      assert le(x, x) || le(x, x);
    }
  }

  /** Under a total order there is only one sorted arrangement of a multiset. */
  lemma {:induction false} SortedUnique(le: (string, string) -> bool, a: seq<string>, b: seq<string>)
    requires TotalOrder(le) && Sorted(le, a) && Sorted(le, b)
    requires multiset(a) == multiset(b)
    ensures a == b
    decreases |a|
  {
    if |a| == 0 {
      assert |b| == |multiset(b)| == 0;
    } else {
      assert |b| == |multiset(b)| > 0;
      SortedHeadLeast(le, b, a[0]);
      SortedHeadLeast(le, a, b[0]);
      assert a[0] == b[0];
      assert a == [a[0]] + a[1..] && b == [b[0]] + b[1..];
      assert multiset(a[1..]) == multiset(b[1..]) by {
        assert multiset(a) == multiset{a[0]} + multiset(a[1..]);
        assert multiset(b) == multiset{b[0]} + multiset(b[1..]);
        forall x ensures multiset(a[1..])[x] == multiset(b[1..])[x] {
          assert multiset(a)[x] == multiset(b)[x];
        }
      }
      SortedUnique(le, a[1..], b[1..]);
    }
  }

  /** The sorted order depends only on the multiset of the input, not on its order. */
  lemma SortPermutationInvariant(le: (string, string) -> bool, a: seq<string>, b: seq<string>)
    requires TotalOrder(le)
    requires multiset(a) == multiset(b)
    ensures Sort(le, a) == Sort(le, b)
  {
    SortPermutation(le, a);
    SortPermutation(le, b);
    SortSorted(le, a);
    SortSorted(le, b);
    SortedUnique(le, Sort(le, a), Sort(le, b));
  }
}
