/** The sorting that the sources do before they store a list: `sort` followed by `dedup`, byte-wise string order,
    and binary search. */
module Ordering {
  import opened Wrappers

  ghost predicate StrictlyIncreasing(s: seq<nat>) {
    forall i, j :: 0 <= i < j < |s| ==> s[i] < s[j]
  }

  function InsertNat(x: nat, s: seq<nat>): (r: seq<nat>)
    ensures |s| <= |r| <= |s| + 1
  {
    if s == [] then [x]
    else if x < s[0] then [x] + s
    else if x == s[0] then s
    else [s[0]] + InsertNat(x, s[1..])
  }

  lemma {:induction false} InsertNatAdds(x: nat, s: seq<nat>, y: nat)
    ensures y in InsertNat(x, s) <==> y == x || y in s
  {
    if s != [] && x > s[0] {
      InsertNatAdds(x, s[1..], y);
      assert s == [s[0]] + s[1..];
    }
  }

  lemma {:induction false} InsertNatIncreases(x: nat, s: seq<nat>)
    requires StrictlyIncreasing(s)
    ensures StrictlyIncreasing(InsertNat(x, s))
  {
    if s != [] && x > s[0] {
      InsertNatIncreases(x, s[1..]);
      var tail := InsertNat(x, s[1..]);
      forall k | 0 <= k < |tail|
        ensures s[0] < tail[k]
      {
        InsertNatAdds(x, s[1..], tail[k]);
      }
    }
  }

  /** `sort_unstable` followed by `dedup`. */
  function SortDedup(s: seq<nat>): (r: seq<nat>)
    ensures StrictlyIncreasing(r)
    ensures forall y :: y in r <==> y in s
    ensures |r| <= |s|
  {
    if s == [] then []
    else
      var tail := SortDedup(s[1..]);
      InsertNatIncreases(s[0], tail);
      assert forall y :: y in InsertNat(s[0], tail) <==> y in s by {
        assert s == [s[0]] + s[1..];
        forall y
          ensures y in InsertNat(s[0], tail) <==> y == s[0] || y in tail
        {
          InsertNatAdds(s[0], tail, y);
        }
      }
      InsertNat(s[0], tail)
  }

  /** A strictly increasing list is determined by the set of its elements. */
  lemma {:induction false} IncreasingIsUnique(a: seq<nat>, b: seq<nat>)
    requires StrictlyIncreasing(a) && StrictlyIncreasing(b)
    requires forall y :: y in a <==> y in b
    ensures a == b
  {
    assert a != [] ==> a[0] in b;
    assert b != [] ==> b[0] in a;
    if a != [] && b != [] {
      assert a[0] in b && b[0] in a;
      assert a[0] == b[0];
      forall y ensures y in a[1..] <==> y in b[1..] {
        assert y in a[1..] ==> y in a && y != a[0];
        assert y in b[1..] ==> y in b && y != b[0];
        assert y in a && y != a[0] ==> y in a[1..];
        assert y in b && y != b[0] ==> y in b[1..];
      }
      IncreasingIsUnique(a[1..], b[1..]);
      assert a == [a[0]] + a[1..] && b == [b[0]] + b[1..];
    }
  }

  /** `binary_search`: halve the interval until the key is met or the interval is empty. */
  function BinarySearch(s: seq<nat>, key: nat, low: nat, high: nat): (hit: bool)
    requires low <= high <= |s|
    decreases high - low
  {
    if low == high then false
    else
      var middle := (low + high) / 2;
      if s[middle] == key then true
      else if s[middle] < key then BinarySearch(s, key, middle + 1, high)
      else BinarySearch(s, key, low, middle)
  }

  lemma {:induction false} BinarySearchFinds(s: seq<nat>, key: nat, low: nat, high: nat)
    requires low <= high <= |s|
    requires StrictlyIncreasing(s)
    ensures BinarySearch(s, key, low, high) <==> key in s[low..high]
    decreases high - low
  {
    if low < high {
      var middle := (low + high) / 2;
      assert s[low..high] == s[low..middle] + [s[middle]] + s[middle + 1..high];
      if s[middle] < key {
        BinarySearchFinds(s, key, middle + 1, high);
      } else if key < s[middle] {
        BinarySearchFinds(s, key, low, middle);
      }
    }
  }

  /** Byte-wise order of strings, as `Ord` on `str`. */
  predicate LexLess(a: string, b: string) {
    if b == [] then false
    else if a == [] then true
    else a[0] < b[0] || (a[0] == b[0] && LexLess(a[1..], b[1..]))
  }

  /** Adjacent elements are in strict order: what `windows(2)` checks. */
  ghost predicate AdjacentSorted(s: seq<string>) {
    forall i :: 0 <= i < |s| - 1 ==> LexLess(s[i], s[i + 1])
  }

  lemma {:induction false} LexLessTransitive(a: string, b: string, c: string)
    requires LexLess(a, b) && LexLess(b, c)
    ensures LexLess(a, c)
  {
    if a != [] && a[0] == b[0] && b[0] == c[0] {
      LexLessTransitive(a[1..], b[1..], c[1..]);
    }
  }

  lemma {:induction false} LexLessIrreflexive(a: string)
    ensures !LexLess(a, a)
  {
    if a != [] { LexLessIrreflexive(a[1..]); }
  }

  lemma {:induction false} LexLessAsymmetric(a: string, b: string)
    ensures !(LexLess(a, b) && LexLess(b, a))
  {
    if a != [] && b != [] && a[0] == b[0] {
      LexLessAsymmetric(a[1..], b[1..]);
    }
  }

  lemma {:induction false} LexLessTotal(a: string, b: string)
    ensures LexLess(a, b) || a == b || LexLess(b, a)
  {
    if a != [] && b != [] && a[0] == b[0] {
      LexLessTotal(a[1..], b[1..]);
      assert a == [a[0]] + a[1..] && b == [b[0]] + b[1..];
    }
  }

  lemma {:induction false} LexLessCommonPrefix(prefix: string, a: string, b: string)
    ensures LexLess(prefix + a, prefix + b) == LexLess(a, b)
  {
    if prefix == [] {
      assert prefix + a == a && prefix + b == b;
    } else {
      LexLessCommonPrefix(prefix[1..], a, b);
      assert (prefix + a)[1..] == prefix[1..] + a && (prefix + b)[1..] == prefix[1..] + b;
    }
  }

  /** A list sorted pairwise is sorted throughout, hence free of repetitions. */
  lemma {:induction false} AdjacentSortedIsSorted(s: seq<string>, i: nat, j: nat)
    requires AdjacentSorted(s)
    requires i < j < |s|
    ensures LexLess(s[i], s[j]) && s[i] != s[j]
    decreases j - i
  {
    if i + 1 < j {
      AdjacentSortedIsSorted(s, i, j - 1);
      LexLessTransitive(s[i], s[j - 1], s[j]);
    }
    LexLessIrreflexive(s[j]);
  }

  function InsertString(x: string, s: seq<string>): (r: seq<string>)
    ensures forall y :: y in r <==> y == x || y in s
  {
    if s == [] then [x]
    else if LexLess(x, s[0]) then [x] + s
    else if x == s[0] then s
    else
      assert s == [s[0]] + s[1..];
      [s[0]] + InsertString(x, s[1..])
  }

  /** `sort` followed by `dedup` on interface names. */
  function SortDedupStrings(s: seq<string>): (r: seq<string>)
    ensures forall y :: y in r <==> y in s
  {
    if s == [] then []
    else
      assert s == [s[0]] + s[1..];
      InsertString(s[0], SortDedupStrings(s[1..]))
  }

  /** Sorting and deduplicating a list that is already strictly sorted changes nothing. */
  lemma {:induction false} SortDedupStringsFixed(s: seq<string>)
    requires AdjacentSorted(s)
    ensures SortDedupStrings(s) == s
  {
    if s != [] {
      assert s == [s[0]] + s[1..];
      assert AdjacentSorted(s[1..]) by {
        forall i | 0 <= i < |s[1..]| - 1 ensures LexLess(s[1..][i], s[1..][i + 1]) {
          assert LexLess(s[i + 1], s[i + 2]);
        }
      }
      SortDedupStringsFixed(s[1..]);
      if |s| > 1 { assert LexLess(s[0], s[0 + 1]); }
    }
  }
}
