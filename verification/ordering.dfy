/** `[...xs].sort((a, b) => key(b) - key(a))`: JavaScript's `Array.prototype.sort` is
    required to be stable, so with a consistent numeric comparator the result is the
    unique stable descending ordering by `key`, computed here by insertion. */
module Ordering {
  import opened Seqs
  import opened Paging

  ghost predicate NonIncreasing<T>(s: seq<T>, key: T -> int) {
    forall i, j :: 0 <= i < j < |s| ==> key(s[i]) >= key(s[j])
  }

  /** The elements whose key is `k`, as a filter predicate. */
  function HasKey<T>(key: T -> int, k: int): T -> bool {
    (e: T) => key(e) == k
  }

  /** Puts `x` in front of the first element whose key does not exceed its own. */
  function Insert<T(==)>(x: T, s: seq<T>, key: T -> int): (r: seq<T>)
    ensures multiset(r) == multiset(s) + multiset{x}
    decreases |s|
  {
    if |s| == 0 || key(x) >= key(s[0]) then [x] + s
    else
      assert s == [s[0]] + s[1..];
      [s[0]] + Insert(x, s[1..], key)
  }

  lemma {:induction false} InsertSorted<T>(x: T, s: seq<T>, key: T -> int)
    requires NonIncreasing(s, key)
    ensures NonIncreasing(Insert(x, s, key), key)
    decreases |s|
  {
    if |s| == 0 || key(x) >= key(s[0]) {
      var r := [x] + s;
      forall i, j | 0 <= i < j < |r| ensures key(r[i]) >= key(r[j]) {
        if i == 0 {
          assert key(s[0]) >= key(s[j - 1]);
        }
      }
    } else {
      var rest := Insert(x, s[1..], key);
      InsertSorted(x, s[1..], key);
      var r := [s[0]] + rest;
      forall j | 0 <= j < |rest| ensures key(s[0]) >= key(rest[j]) {
        assert rest[j] in multiset(rest);
        if rest[j] != x {
          assert rest[j] in multiset(s[1..]);
          assert rest[j] in s[1..];
        }
      }
      forall i, j | 0 <= i < j < |r| ensures key(r[i]) >= key(r[j]) {
        if i == 0 {
          assert r[j] == rest[j - 1];
        } else {
          assert r[i] == rest[i - 1] && r[j] == rest[j - 1];
        }
      }
    }
  }

  /** The stable descending ordering by `key`: a permutation of `s` whose keys never
      increase. */
  function SortByKeyDesc<T(==)>(s: seq<T>, key: T -> int): (r: seq<T>)
    ensures multiset(r) == multiset(s)
    ensures NonIncreasing(r, key)
    decreases |s|
  {
    if |s| == 0 then []
    else
      assert s == [s[0]] + s[1..];
      InsertSorted(s[0], SortByKeyDesc(s[1..], key), key);
      Insert(s[0], SortByKeyDesc(s[1..], key), key)
  }

  lemma {:induction false} InsertKeepsKeyOrder<T>(x: T, t: seq<T>, key: T -> int, k: int)
    ensures Filter(Insert(x, t, key), HasKey(key, k))
         == (if key(x) == k then [x] else []) + Filter(t, HasKey(key, k))
    decreases |t|
  {
    var p := HasKey(key, k);
    if |t| == 0 || key(x) >= key(t[0]) {
      assert ([x] + t)[1..] == t;
    } else {
      InsertKeepsKeyOrder(x, t[1..], key, k);
      assert ([t[0]] + Insert(x, t[1..], key))[1..] == Insert(x, t[1..], key);
    }
  }

  /** Stability: among elements with equal keys the sorted output keeps the input order. */
  lemma {:induction false} SortIsStable<T>(s: seq<T>, key: T -> int, k: int)
    ensures Filter(SortByKeyDesc(s, key), HasKey(key, k)) == Filter(s, HasKey(key, k))
    decreases |s|
  {
    if |s| > 0 {
      SortIsStable(s[1..], key, k);
      InsertKeepsKeyOrder(s[0], SortByKeyDesc(s[1..], key), key, k);
    }
  }

  /** Every element of the sorted output comes from the input and vice versa. */
  lemma SortedMembers<T>(s: seq<T>, key: T -> int)
    ensures forall x :: x in SortByKeyDesc(s, key) <==> x in s
  {
    var r := SortByKeyDesc(s, key);
    forall x ensures x in r <==> x in s {
      assert x in r <==> x in multiset(r);
      assert x in s <==> x in multiset(s);
    }
  }

  /** A run of consecutive elements of an ordered sequence is ordered. */
  lemma WindowKeepsOrder<T>(r: seq<T>, s: seq<T>, key: T -> int)
    requires IsWindow(r, s) && NonIncreasing(s, key)
    ensures NonIncreasing(r, key)
  {
    var a :| WindowAt(r, s, a);
    forall i, j | 0 <= i < j < |r| ensures key(r[i]) >= key(r[j]) {
      assert r[i] == s[a + i] && r[j] == s[a + j];
    }
  }

  /** Sorting an already ordered sequence leaves it as it is; in particular sorting is
      idempotent. */
  lemma {:induction false} SortOrderedIsIdentity<T>(s: seq<T>, key: T -> int)
    requires NonIncreasing(s, key)
    ensures SortByKeyDesc(s, key) == s
    decreases |s|
  {
    if |s| > 0 {
      SortOrderedIsIdentity(s[1..], key);
      assert s == [s[0]] + s[1..];
    }
  }

  lemma SortIdempotent<T>(s: seq<T>, key: T -> int)
    ensures SortByKeyDesc(SortByKeyDesc(s, key), key) == SortByKeyDesc(s, key)
  {
    SortOrderedIsIdentity(SortByKeyDesc(s, key), key);
  }
}
