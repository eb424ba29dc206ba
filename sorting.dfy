/**
 * The stable descending sort that both the chart rows and the transaction
 * list use: `Array.prototype.sort` with a comparator `key(b) - key(a)`.
 * The comparator sort is stable, so elements with equal keys keep their
 * original relative order; the insertion sort below has the same result.
 */
module Sorting {

  /** Keys never increase from left to right. */
  ghost predicate NonIncreasing<T>(s: seq<T>, key: T -> real)
  {
    forall i, j :: 0 <= i < j < |s| ==> key(s[i]) >= key(s[j])
  }

  /** The elements of `s` whose key is `k`, in their order in `s`. */
  function WithKey<T>(s: seq<T>, key: T -> real, k: real): seq<T>
  {
    if s == [] then []
    else (if key(s[0]) == k then [s[0]] else []) + WithKey(s[1..], key, k)
  }

  /**
   * Puts `x` before the first element whose key is not larger than its own,
   * so the result is one longer (InsertPermutes: it holds exactly `s` and `x`).
   */
  function Insert<T>(x: T, s: seq<T>, key: T -> real): (r: seq<T>)
    ensures |r| == |s| + 1
  {
    if s == [] then [x]
    else if key(s[0]) <= key(x) then [x] + s
    else [s[0]] + Insert(x, s[1..], key)
  }

  /**
   * The sort: largest key first, holding exactly the input's elements.
   */
  function SortDesc<T>(s: seq<T>, key: T -> real): (r: seq<T>)
    ensures multiset(r) == multiset(s) && |r| == |s|
    ensures NonIncreasing(r, key)
  {
    if s == [] then []
    else
      var sorted := SortDesc(s[1..], key);
      assert s == [s[0]] + s[1..];
      InsertPermutes(s[0], sorted, key);
      InsertKeepsOrder(s[0], sorted, key);
      Insert(s[0], sorted, key)
  }

  /** The inserted sequence holds exactly the elements of `s` and `x`. */
  lemma {:induction false} InsertPermutes<T>(x: T, s: seq<T>, key: T -> real)
    ensures multiset(Insert(x, s, key)) == multiset(s) + multiset{x}
  {
    if s != [] && key(s[0]) > key(x) {
      InsertPermutes(x, s[1..], key);
      assert s == [s[0]] + s[1..];
    }
  }

  /** An element whose key bounds an ordered sequence can lead it. */
  lemma ConsOrdered<T>(a: T, r: seq<T>, key: T -> real)
    requires NonIncreasing(r, key)
    requires forall e :: e in r ==> key(e) <= key(a)
    ensures NonIncreasing([a] + r, key)
  {
    var t := [a] + r;
    forall i, j | 0 <= i < j < |t| ensures key(t[i]) >= key(t[j]) {
      assert t[j] == r[j - 1];
      if i > 0 {
        assert t[i] == r[i - 1];
      }
    }
  }

  lemma {:induction false} InsertKeepsOrder<T>(x: T, s: seq<T>, key: T -> real)
    requires NonIncreasing(s, key)
    ensures NonIncreasing(Insert(x, s, key), key)
  {
    if s == [] {
    } else if key(s[0]) <= key(x) {
      forall e | e in s ensures key(e) <= key(x) {
        var m :| 0 <= m < |s| && s[m] == e;
      }
      ConsOrdered(x, s, key);
    } else {
      assert NonIncreasing(s[1..], key) by {
        forall i, j | 0 <= i < j < |s[1..]| ensures key(s[1..][i]) >= key(s[1..][j]) {
          assert s[1..][i] == s[i + 1] && s[1..][j] == s[j + 1];
        }
      }
      InsertKeepsOrder(x, s[1..], key);
      InsertPermutes(x, s[1..], key);
      var r := Insert(x, s[1..], key);
      forall e | e in r ensures key(e) <= key(s[0]) {
        assert e in multiset(r);
        if e != x {
          assert e in multiset(s[1..]);
          var m :| 0 <= m < |s[1..]| && s[1..][m] == e;
          assert s[m + 1] == e;
        }
      }
      ConsOrdered(s[0], r, key);
    }
  }

  lemma WithKeyCons<T>(a: T, r: seq<T>, key: T -> real, k: real)
    ensures WithKey([a] + r, key, k) == (if key(a) == k then [a] else []) + WithKey(r, key, k)
  {
    assert ([a] + r)[0] == a;
    assert ([a] + r)[1..] == r;
  }

  /** Inserting `x` places it ahead of every element that shares its key. */
  lemma {:induction false} InsertStable<T>(x: T, s: seq<T>, key: T -> real, k: real)
    ensures WithKey(Insert(x, s, key), key, k) == (if key(x) == k then [x] else []) + WithKey(s, key, k)
  {
    if s == [] {
      assert Insert(x, s, key) == [x] + s;
      WithKeyCons(x, s, key, k);
    } else if key(s[0]) <= key(x) {
      assert Insert(x, s, key) == [x] + s;
      WithKeyCons(x, s, key, k);
    } else {
      var r := Insert(x, s[1..], key);
      var own := if key(x) == k then [x] else [];
      var head := if key(s[0]) == k then [s[0]] else [];
      var rest := WithKey(s[1..], key, k);
      assert Insert(x, s, key) == [s[0]] + r;
      InsertStable(x, s[1..], key, k);
      WithKeyCons(s[0], r, key, k);
      WithKeyCons(s[0], s[1..], key, k);
      assert s == [s[0]] + s[1..];
      // `s[0]` has the larger key, so at most one of the two has key `k`.
      if key(x) == k {
        assert head == [];
        assert WithKey(Insert(x, s, key), key, k) == own + rest;
      } else {
        assert own == [];
        assert WithKey(Insert(x, s, key), key, k) == head + rest;
      }
    }
  }

  /** Stability: among elements with equal keys the input order is kept. */
  lemma {:induction false} SortDescStable<T>(s: seq<T>, key: T -> real, k: real)
    ensures WithKey(SortDesc(s, key), key, k) == WithKey(s, key, k)
  {
    if s != [] {
      SortDescStable(s[1..], key, k);
      InsertStable(s[0], SortDesc(s[1..], key), key, k);
    }
  }
}
