/** Python's `list.sort(key=..., reverse=True)` on string or number keys: a
    stable sort into descending key order. Elements with equal keys keep the
    order they had before the sort. */
module StableSort {
  import opened PyBuiltins

  /** A sort key: a number (`int`, or `bool` as 0 and 1) or a string. */
  datatype SortKey = NumKey(n: int) | StrKey(s: string)

  /** `a <= b`: numbers by value, strings by code points. Python refuses to
      compare a number with a string; the order puts numbers first only so
      that the relation is total, and a caller that sorts a list whose keys
      mix the two kinds raises instead of sorting. */
  predicate KeyLe(a: SortKey, b: SortKey) {
    if a.NumKey? && b.NumKey? then a.n <= b.n
    else if a.StrKey? && b.StrKey? then StrLe(a.s, b.s)
    else a.NumKey?
  }

  lemma KeyLeTotal(a: SortKey, b: SortKey)
    ensures KeyLe(a, b) || KeyLe(b, a)
  {
    if a.StrKey? && b.StrKey? {
      StrLeTotal(a.s, b.s);
    }
  }

  lemma KeyLeTransitive(a: SortKey, b: SortKey, c: SortKey)
    requires KeyLe(a, b) && KeyLe(b, c)
    ensures KeyLe(a, c)
  {
    if a.StrKey? && b.StrKey? && c.StrKey? {
      StrLeTransitive(a.s, b.s, c.s);
    }
  }

  lemma KeyLeReflexive(a: SortKey)
    ensures KeyLe(a, a)
  {
    if a.StrKey? {
      StrLeReflexive(a.s);
    }
  }

  /** Places `x` in front of the first element whose key is not greater than
      its own, so that `x` precedes every element with an equal key. */
  function Insert<T>(key: T -> SortKey, x: T, s: seq<T>): (r: seq<T>)
    ensures multiset(r) == multiset(s) + multiset{x}
  {
    if s == [] || KeyLe(key(s[0]), key(x)) then [x] + s
    else
      var rest := Insert(key, x, s[1..]);
      assert s == [s[0]] + s[1..];
      [s[0]] + rest
  }

  /** `sorted(xs, key=key, reverse=True)` */
  function SortDesc<T>(key: T -> SortKey, xs: seq<T>): (r: seq<T>)
    ensures multiset(r) == multiset(xs)
  {
    if xs == [] then []
    else
      assert xs == [xs[0]] + xs[1..];
      Insert(key, xs[0], SortDesc(key, xs[1..]))
  }

  /** Keys never increase from left to right. */
  predicate Descending<T>(key: T -> SortKey, s: seq<T>) {
    forall i, j :: 0 <= i < j < |s| ==> KeyLe(key(s[j]), key(s[i]))
  }

  /** The elements of `s` whose key is `k`, in their order in `s`. */
  function WithKey<T>(key: T -> SortKey, k: SortKey, s: seq<T>): (r: seq<T>)
    ensures |r| <= |s|
  {
    if s == [] then []
    else (if key(s[0]) == k then [s[0]] else []) + WithKey(key, k, s[1..])
  }

  lemma {:induction false} StrLeReflexive(a: string)
    ensures StrLe(a, a)
    decreases |a|
  {
    if a != [] {
      StrLeReflexive(a[1..]);
    }
  }

  /** Inserting into a descending sequence gives a descending sequence. */
  lemma {:induction false} InsertDescending<T>(key: T -> SortKey, x: T, s: seq<T>)
    requires Descending(key, s)
    ensures Descending(key, Insert(key, x, s))
    decreases |s|
  {
    if s == [] || KeyLe(key(s[0]), key(x)) {
      var r := Insert(key, x, s);
      forall i, j | 0 <= i < j < |r| ensures KeyLe(key(r[j]), key(r[i])) {
        if i == 0 {
          assert r[j] == s[j - 1];
          if j > 1 {
            assert KeyLe(key(s[j - 1]), key(s[0]));
          } else {
            KeyLeReflexive(key(s[0]));
          }
          KeyLeTransitive(key(r[j]), key(s[0]), key(x));
        }
      }
    } else {
      KeyLeTotal(key(s[0]), key(x));
      var rest := Insert(key, x, s[1..]);
      InsertDescending(key, x, s[1..]);
      var r := [s[0]] + rest;
      assert multiset(rest) == multiset(s[1..]) + multiset{x};
      forall j | 0 < j < |r| ensures KeyLe(key(r[j]), key(s[0])) {
        assert r[j] in multiset(rest);
        if r[j] == x {
        } else {
          assert r[j] in multiset(s[1..]);
          var m :| 0 <= m < |s[1..]| && s[1..][m] == r[j];
          assert s[m + 1] == r[j];
        }
      }
    }
  }

  /** The result of the sort is in descending key order. */
  lemma {:induction false} SortDescDescending<T>(key: T -> SortKey, xs: seq<T>)
    ensures Descending(key, SortDesc(key, xs))
  {
    if xs != [] {
      SortDescDescending(key, xs[1..]);
      InsertDescending(key, xs[0], SortDesc(key, xs[1..]));
    }
  }

  /** `x` lands in front of every element that shares its key. */
  lemma {:induction false} InsertWithKey<T>(key: T -> SortKey, x: T, s: seq<T>, k: SortKey)
    ensures WithKey(key, k, Insert(key, x, s)) == (if key(x) == k then [x] else []) + WithKey(key, k, s)
    decreases |s|
  {
    if s == [] || KeyLe(key(s[0]), key(x)) {
      WithKeyCons(key, k, x, s);
    } else {
      KeyLeReflexive(key(x));
      InsertWithKey(key, x, s[1..], k);
      var rest := Insert(key, x, s[1..]);
      assert Insert(key, x, s) == [s[0]] + rest;
      WithKeyCons(key, k, s[0], rest);
      WithKeyCons(key, k, s[0], s[1..]);
      assert s == [s[0]] + s[1..];
    }
  }

  lemma WithKeyCons<T>(key: T -> SortKey, k: SortKey, y: T, rest: seq<T>)
    ensures WithKey(key, k, [y] + rest) == (if key(y) == k then [y] else []) + WithKey(key, k, rest)
  {
    assert ([y] + rest)[1..] == rest;
  }

  /** Stability: for every key, the elements carrying it come out in the
      order they went in. */
  lemma {:induction false} SortDescStable<T>(key: T -> SortKey, xs: seq<T>, k: SortKey)
    ensures WithKey(key, k, SortDesc(key, xs)) == WithKey(key, k, xs)
  {
    if xs != [] {
      SortDescStable(key, xs[1..], k);
      InsertWithKey(key, xs[0], SortDesc(key, xs[1..]), k);
    }
  }
}
