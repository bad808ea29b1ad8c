/** Descending sort by an integer key and sequence reversal, as the server's queries use them. */
module Sorting {

  ghost predicate SortedDesc<T>(s: seq<T>, key: T -> int) {
    forall i, j :: 0 <= i < j < |s| ==> key(s[i]) >= key(s[j])
  }

  /** Puts `x` before the first element with a smaller key, so equal keys keep their order. */
  function InsertDesc<T>(x: T, s: seq<T>, key: T -> int): (r: seq<T>)
    requires SortedDesc(s, key)
    ensures SortedDesc(r, key)
    ensures multiset(r) == multiset(s) + multiset{x}
  {
    if s == [] || key(x) >= key(s[0]) then [x] + s
    else
      var rest := InsertDesc(x, s[1..], key);
      assert multiset(s) == multiset{s[0]} + multiset(s[1..]) by { assert s == [s[0]] + s[1..]; }
      HeadDominates(s[0], s[1..], x, rest, key);
      [s[0]] + rest
  }

  /**
   * A head whose key is at least those of a sorted tail and of `x` still heads a sorted
   * list once `x` is inserted into that tail.
   */
  lemma HeadDominates<T>(h: T, t: seq<T>, x: T, rest: seq<T>, key: T -> int)
    requires SortedDesc([h] + t, key) && key(x) < key(h)
    requires SortedDesc(rest, key) && multiset(rest) == multiset(t) + multiset{x}
    ensures SortedDesc([h] + rest, key)
  {
    forall k | 0 <= k < |rest| ensures key(rest[k]) <= key(h) {
      assert rest[k] in multiset(rest);
      if rest[k] != x {
        assert rest[k] in multiset(t);
        var j :| 0 <= j < |t| && t[j] == rest[k];
        assert ([h] + t)[0] == h && ([h] + t)[j + 1] == t[j];
      }
    }
    var hr := [h] + rest;
    forall i, j | 0 <= i < j < |hr| ensures key(hr[i]) >= key(hr[j]) {
      if i > 0 {
        assert hr[i] == rest[i - 1] && hr[j] == rest[j - 1];
      } else {
        assert hr[j] == rest[j - 1];
      }
    }
  }

  /** Insertion sort, highest key first (a `.sort(field, -1)` query). */
  function SortDesc<T>(s: seq<T>, key: T -> int): (r: seq<T>)
    ensures SortedDesc(r, key)
    ensures multiset(r) == multiset(s) && |r| == |s|
  {
    if s == [] then []
    else
      assert s == [s[0]] + s[1..];
      InsertDesc(s[0], SortDesc(s[1..], key), key)
  }

  /** In a descending list the first `k` entries are at least as large as all the others. */
  lemma {:induction false} PrefixDominates<T>(s: seq<T>, key: T -> int, k: nat, x: T)
    requires SortedDesc(s, key) && 0 < k <= |s|
    requires x in multiset(s) - multiset(s[..k])
    ensures forall y :: y in s[..k] ==> key(x) <= key(y)
  {
    assert s == s[..k] + s[k..];
    assert multiset(s) - multiset(s[..k]) == multiset(s[k..]);
    assert x in s[k..];
    var j :| 0 <= j < |s[k..]| && s[k..][j] == x;
    forall y | y in s[..k] ensures key(x) <= key(y) {
      var i :| 0 <= i < k && s[..k][i] == y;
      assert s[i] == y && s[k + j] == x;
    }
  }

  function Reverse<T>(s: seq<T>): (r: seq<T>)
    ensures |r| == |s|
    ensures forall i :: 0 <= i < |s| ==> r[i] == s[|s| - 1 - i]
    ensures multiset(r) == multiset(s)
  {
    if s == [] then []
    else
      assert s == [s[0]] + s[1..];
      Reverse(s[1..]) + [s[0]]
  }

  function Min(a: nat, b: nat): nat { if a <= b then a else b }
}
