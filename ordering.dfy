/** The orderings the services rely on. `Array.prototype.sort` is stable
    (ECMAScript 2019), so a descending sort by a key keeps equal-keyed
    elements in their original order; the insertion sort below has the same
    behaviour: an element is placed before every later element whose key is
    not larger than its own. */
module Ordering {

  ghost predicate SortedDesc<T>(s: seq<T>, key: T -> real)
  {
    forall i, j :: 0 <= i < j < |s| ==> key(s[i]) >= key(s[j])
  }

  ghost predicate SortedAsc(s: seq<int>)
  {
    forall i, j :: 0 <= i < j < |s| ==> s[i] <= s[j]
  }

  function InsertDesc<T>(x: T, s: seq<T>, key: T -> real): (r: seq<T>)
    requires SortedDesc(s, key)
    ensures SortedDesc(r, key)
    ensures multiset(r) == multiset(s) + multiset{x}
    ensures |r| == |s| + 1
  {
    if s == [] || key(x) >= key(s[0]) then [x] + s
    else
      var rest := InsertDesc(x, s[1..], key);
      InsertDescHead(x, s, rest, key);
      [s[0]] + rest
  }

  lemma InsertDescHead<T>(x: T, s: seq<T>, rest: seq<T>, key: T -> real)
    requires SortedDesc(s, key) && s != [] && key(x) < key(s[0])
    requires multiset(rest) == multiset(s[1..]) + multiset{x}
    requires SortedDesc(rest, key)
    ensures SortedDesc([s[0]] + rest, key)
    ensures multiset([s[0]] + rest) == multiset(s) + multiset{x}
  {
    assert s == [s[0]] + s[1..];
    forall k | 0 <= k < |rest| ensures key(s[0]) >= key(rest[k]) {
      assert rest[k] in multiset(rest);
      if rest[k] != x {
        assert rest[k] in multiset(s[1..]);
        var j :| 0 <= j < |s[1..]| && s[1..][j] == rest[k];
        assert key(s[0]) >= key(s[j + 1]);
      }
    }
  }

  /** Stable sort by `key`, largest first. */
  function SortDesc<T>(s: seq<T>, key: T -> real): (r: seq<T>)
    ensures SortedDesc(r, key)
    ensures multiset(r) == multiset(s)
    ensures |r| == |s|
  {
    if s == [] then []
    else
      assert s == [s[0]] + s[1..];
      InsertDesc(s[0], SortDesc(s[1..], key), key)
  }

  function InsertAsc(x: int, s: seq<int>): (r: seq<int>)
    requires SortedAsc(s)
    ensures SortedAsc(r)
    ensures multiset(r) == multiset(s) + multiset{x}
    ensures |r| == |s| + 1
  {
    if s == [] || x <= s[0] then [x] + s
    else
      var rest := InsertAsc(x, s[1..]);
      InsertAscHead(x, s, rest);
      [s[0]] + rest
  }

  lemma InsertAscHead(x: int, s: seq<int>, rest: seq<int>)
    requires SortedAsc(s) && s != [] && x > s[0]
    requires multiset(rest) == multiset(s[1..]) + multiset{x}
    requires SortedAsc(rest)
    ensures SortedAsc([s[0]] + rest)
    ensures multiset([s[0]] + rest) == multiset(s) + multiset{x}
  {
    assert s == [s[0]] + s[1..];
    forall k | 0 <= k < |rest| ensures s[0] <= rest[k] {
      assert rest[k] in multiset(rest);
      if rest[k] != x {
        assert rest[k] in multiset(s[1..]);
        var j :| 0 <= j < |s[1..]| && s[1..][j] == rest[k];
        assert s[0] <= s[j + 1];
      }
    }
  }

  /** Numeric ascending sort (`sort((a, b) => a - b)`). */
  function SortAsc(s: seq<int>): (r: seq<int>)
    ensures SortedAsc(r)
    ensures multiset(r) == multiset(s)
    ensures |r| == |s|
  {
    if s == [] then []
    else
      assert s == [s[0]] + s[1..];
      InsertAsc(s[0], SortAsc(s[1..]))
  }

  /** The first element of a descending sort is a maximum of the input. */
  lemma HeadOfSortDescIsMax<T>(s: seq<T>, key: T -> real)
    requires |s| > 0
    ensures SortDesc(s, key)[0] in multiset(s)
    ensures forall k :: 0 <= k < |s| ==> key(SortDesc(s, key)[0]) >= key(s[k])
  {
    var r := SortDesc(s, key);
    assert r[0] in multiset(r);
    forall k | 0 <= k < |s| ensures key(r[0]) >= key(s[k]) {
      assert s[k] in multiset(s);
      assert s[k] in multiset(r);
      var j :| 0 <= j < |r| && r[j] == s[k];
      if j > 0 { assert key(r[0]) >= key(r[j]); }
    }
  }

  /** The index of the first element whose key is largest. */
  function FirstMaxIndex<T>(s: seq<T>, key: T -> real): (i: nat)
    requires |s| > 0
    ensures i < |s|
    ensures forall k :: 0 <= k < |s| ==> key(s[i]) >= key(s[k])
    ensures forall j :: 0 <= j < i ==> key(s[j]) < key(s[i])
  {
    if |s| == 1 then 0
    else
      var j := FirstMaxIndex(s[1..], key);
      assert forall k :: 1 <= k < |s| ==> s[k] == s[1..][k - 1];
      if key(s[0]) >= key(s[1 + j]) then 0 else 1 + j
  }

  /** Stability at the head: the descending sort starts with the first
      element whose key is largest. */
  lemma {:induction false} HeadOfSortDescIsFirstMax<T>(s: seq<T>, key: T -> real)
    requires |s| > 0
    ensures SortDesc(s, key)[0] == s[FirstMaxIndex(s, key)]
  {
    if |s| > 1 {
      var tail := s[1..];
      HeadOfSortDescIsFirstMax(tail, key);
      HeadOfSortDescIsMax(tail, key);
      var j := FirstMaxIndex(tail, key);
      assert s[1 + j] == tail[j];
      assert SortDesc(s, key) == InsertDesc(s[0], SortDesc(tail, key), key);
    }
  }

  /** Taking a prefix of a sorted sequence keeps it sorted and draws only
      elements of the input. */
  lemma PrefixOfSortDesc<T>(s: seq<T>, key: T -> real, n: nat)
    requires n <= |s|
    ensures SortedDesc(SortDesc(s, key)[..n], key)
    ensures forall k :: 0 <= k < n ==> SortDesc(s, key)[k] in multiset(s)
  {
    var r := SortDesc(s, key);
    forall k | 0 <= k < n ensures r[k] in multiset(s) {
      assert r[k] in multiset(r);
    }
  }
}
