/**
 * `Array.prototype.sort` with a comparator, which is stable. Every comparator
 * the components use compares a sort key made of an integer rank and a text;
 * texts compare by character code, standing in for `localeCompare`.
 */
module Ordering {

  /** Lexicographic order on strings by character code. */
  predicate StrLe(a: string, b: string)
    decreases |a|
  {
    a == [] || (b != [] && (a[0] < b[0] || (a[0] == b[0] && StrLe(a[1..], b[1..]))))
  }

  lemma {:induction false} StrLeRefl(a: string)
    ensures StrLe(a, a)
    decreases |a|
  {
    if a != [] {
      StrLeRefl(a[1..]);
    }
  }

  lemma {:induction false} StrLeTotal(a: string, b: string)
    ensures StrLe(a, b) || StrLe(b, a)
    decreases |a|
  {
    if a != [] && b != [] && a[0] == b[0] {
      StrLeTotal(a[1..], b[1..]);
    }
  }

  lemma {:induction false} StrLeTrans(a: string, b: string, c: string)
    requires StrLe(a, b) && StrLe(b, c)
    ensures StrLe(a, c)
    decreases |a|
  {
    if a != [] && a[0] == b[0] && b[0] == c[0] {
      StrLeTrans(a[1..], b[1..], c[1..]);
    }
  }

  lemma {:induction false} StrLeAntisym(a: string, b: string)
    requires StrLe(a, b) && StrLe(b, a)
    ensures a == b
    decreases |a|
  {
    if a != [] {
      StrLeAntisym(a[1..], b[1..]);
      assert a == [a[0]] + a[1..] && b == [b[0]] + b[1..];
    }
  }

  /** A sort key: compared by rank first, then by text. */
  datatype Key = Key(rank: int, text: string)

  predicate KeyLe(a: Key, b: Key) {
    a.rank < b.rank || (a.rank == b.rank && StrLe(a.text, b.text))
  }

  /** Key comparison is a total order. */
  lemma KeyOrder(a: Key, b: Key, c: Key)
    ensures KeyLe(a, a)
    ensures KeyLe(a, b) || KeyLe(b, a)
    ensures KeyLe(a, b) && KeyLe(b, c) ==> KeyLe(a, c)
    ensures KeyLe(a, b) && KeyLe(b, a) ==> a == b
  {
    StrLeRefl(a.text);
    StrLeTotal(a.text, b.text);
    if KeyLe(a, b) && KeyLe(b, c) && a.rank == b.rank == c.rank {
      StrLeTrans(a.text, b.text, c.text);
    }
    if KeyLe(a, b) && KeyLe(b, a) {
      StrLeAntisym(a.text, b.text);
    }
  }

  ghost predicate Sorted<T>(s: seq<T>, key: T -> Key) {
    forall i, j :: 0 <= i < j < |s| ==> KeyLe(key(s[i]), key(s[j]))
  }

  /** The elements of `s` whose key is `k`, in order. */
  function WithKey<T>(s: seq<T>, key: T -> Key, k: Key): seq<T>
  {
    if s == [] then [] else WithKey(s[..|s| - 1], key, k) + (if key(s[|s| - 1]) == k then [s[|s| - 1]] else [])
  }

  /** Places `x` after every element of `r` whose key is not greater than its own. */
  function Insert<T>(r: seq<T>, x: T, key: T -> Key): (q: seq<T>)
    ensures |q| == |r| + 1
    ensures multiset(q) == multiset(r) + multiset{x}
    decreases |r|
  {
    if r == [] then [x]
    else if KeyLe(key(r[|r| - 1]), key(x)) then r + [x]
    else
      assert r == r[..|r| - 1] + [r[|r| - 1]];
      Insert(r[..|r| - 1], x, key) + [r[|r| - 1]]
  }

  /** A stable sort of `s` by `key` (the engine's `sort` with a key comparator). */
  function SortBy<T>(s: seq<T>, key: T -> Key): (r: seq<T>)
    ensures |r| == |s|
    ensures multiset(r) == multiset(s)
  {
    if s == [] then []
    else
      assert s == s[..|s| - 1] + [s[|s| - 1]];
      Insert(SortBy(s[..|s| - 1], key), s[|s| - 1], key)
  }

  lemma {:induction false} InsertSorted<T>(r: seq<T>, x: T, key: T -> Key)
    requires Sorted(r, key)
    ensures Sorted(Insert(r, x, key), key)
    decreases |r|
  {
    if r == [] {
    } else if KeyLe(key(r[|r| - 1]), key(x)) {
      var q := r + [x];
      forall i, j | 0 <= i < j < |q|
        ensures KeyLe(key(q[i]), key(q[j]))
      {
        if j == |r| && i < |r| - 1 {
          KeyOrder(key(r[i]), key(r[|r| - 1]), key(x));
        }
      }
    } else {
      var last := r[|r| - 1];
      var r' := r[..|r| - 1];
      InsertSorted(r', x, key);
      var q' := Insert(r', x, key);
      KeyOrder(key(last), key(x), key(x));
      forall y | y in q'
        ensures KeyLe(key(y), key(last))
      {
        assert y in multiset(q');
        if y != x {
          assert y in multiset(r');
          var i :| 0 <= i < |r'| && r'[i] == y;
          assert r[i] == y;
        }
      }
      var q := q' + [last];
      forall i, j | 0 <= i < j < |q|
        ensures KeyLe(key(q[i]), key(q[j]))
      {
        if j == |q'| {
          assert q[i] in q';
        }
      }
    }
  }

  /** Sorting orders the elements by key. */
  lemma {:induction false} SortBySorted<T>(s: seq<T>, key: T -> Key)
    ensures Sorted(SortBy(s, key), key)
  {
    if s != [] {
      SortBySorted(s[..|s| - 1], key);
      InsertSorted(SortBy(s[..|s| - 1], key), s[|s| - 1], key);
    }
  }

  lemma {:induction false} InsertWithKey<T>(r: seq<T>, x: T, key: T -> Key, k: Key)
    ensures WithKey(Insert(r, x, key), key, k) == WithKey(r, key, k) + (if key(x) == k then [x] else [])
    decreases |r|
  {
    if r == [] {
      WithKeySnoc([], x, key, k);
      assert [] + [x] == [x];
    } else if KeyLe(key(r[|r| - 1]), key(x)) {
      WithKeySnoc(r, x, key, k);
    } else {
      var last := r[|r| - 1];
      var r' := r[..|r| - 1];
      InsertWithKey(r', x, key, k);
      WithKeySnoc(Insert(r', x, key), last, key, k);
      KeyOrder(key(last), key(x), key(x));
      assert key(last) != key(x);
    }
  }

  /** Appending an element extends the elements with its key by that element. */
  lemma WithKeySnoc<T>(s: seq<T>, y: T, key: T -> Key, k: Key)
    ensures WithKey(s + [y], key, k) == WithKey(s, key, k) + (if key(y) == k then [y] else [])
  {
    assert (s + [y])[..|s|] == s;
  }

  /**
   * Stability: for every key, the elements carrying it appear in the result in
   * the same order as in the input.
   */
  lemma {:induction false} SortByStable<T>(s: seq<T>, key: T -> Key, k: Key)
    ensures WithKey(SortBy(s, key), key, k) == WithKey(s, key, k)
  {
    if s != [] {
      SortByStable(s[..|s| - 1], key, k);
      InsertWithKey(SortBy(s[..|s| - 1], key), s[|s| - 1], key, k);
    }
  }
}
