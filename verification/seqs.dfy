/** The array operations the slices are built from: `filter`, `findIndex`, `splice` of
    one element and in-place replacement, as functions on sequences. */
module Seqs {
  import opened Results

  /** `Array.prototype.filter`: the elements satisfying `p`, in their original order. */
  function Filter<T(==)>(s: seq<T>, p: T -> bool): (r: seq<T>)
    ensures |r| <= |s|
    ensures forall i :: 0 <= i < |r| ==> p(r[i]) && r[i] in s
    ensures forall x :: x in s && p(x) ==> x in r
    decreases |s|
  {
    if |s| == 0 then []
    else if p(s[0]) then [s[0]] + Filter(s[1..], p)
    else Filter(s[1..], p)
  }

  /** Filtering distributes over concatenation: the kept elements keep their relative order. */
  lemma {:induction false} FilterAppend<T>(a: seq<T>, b: seq<T>, p: T -> bool)
    ensures Filter(a + b, p) == Filter(a, p) + Filter(b, p)
    decreases |a|
  {
    if |a| > 0 {
      assert (a + b)[1..] == a[1..] + b;
      FilterAppend(a[1..], b, p);
    } else {
      assert a + b == b;
    }
  }

  /** Two predicates that agree on every element filter alike. */
  lemma {:induction false} FilterAgree<T>(s: seq<T>, p: T -> bool, q: T -> bool)
    requires forall i :: 0 <= i < |s| ==> p(s[i]) == q(s[i])
    ensures Filter(s, p) == Filter(s, q)
    decreases |s|
  {
    if |s| > 0 {
      FilterAgree(s[1..], p, q);
    }
  }

  /** Filtering with a predicate that every element satisfies changes nothing. */
  lemma {:induction false} FilterAll<T>(s: seq<T>, p: T -> bool)
    requires forall i :: 0 <= i < |s| ==> p(s[i])
    ensures Filter(s, p) == s
    decreases |s|
  {
    if |s| > 0 {
      FilterAll(s[1..], p);
    }
  }

  /** The positions of `s` whose element satisfies `p`. */
  ghost function Positions<T>(s: seq<T>, p: T -> bool): set<int> {
    set i | 0 <= i < |s| && p(s[i])
  }

  /** The filter keeps one element per satisfying position. */
  lemma {:induction false} FilterSize<T>(s: seq<T>, p: T -> bool)
    ensures |Filter(s, p)| == |Positions(s, p)|
    decreases |s|
  {
    if |s| == 0 {
      assert Positions(s, p) == {};
    } else {
      var t, x := s[..|s| - 1], s[|s| - 1];
      assert s == t + [x];
      FilterAppend(t, [x], p);
      FilterSize(t, p);
      FilterOne(x, p);
      PositionsSnoc(t, x, p);
    }
  }

  lemma FilterOne<T>(x: T, p: T -> bool)
    ensures Filter([x], p) == if p(x) then [x] else []
  {
    assert [x][1..] == [];
  }

  /** Appending one element adds its position exactly when it satisfies `p`. */
  lemma PositionsSnoc<T>(t: seq<T>, x: T, p: T -> bool)
    ensures |Positions(t + [x], p)| == |Positions(t, p)| + (if p(x) then 1 else 0)
  {
    var s := t + [x];
    var before := Positions(t, p);
    assert forall i :: 0 <= i < |t| ==> s[i] == t[i];
    if p(x) {
      assert Positions(s, p) == before + {|t|};
      assert |t| !in before;
    } else {
      assert Positions(s, p) == before;
    }
  }

  /** The number of elements satisfying `p`: one per position at which `p` holds. */
  function Count<T(==)>(s: seq<T>, p: T -> bool): (n: nat)
    ensures n <= |s|
    ensures n == |Positions(s, p)|
    ensures n == 0 <==> forall i :: 0 <= i < |s| ==> !p(s[i])
  {
    var r := Filter(s, p);
    FilterSize(s, p);
    assert r == [] ==> forall i :: 0 <= i < |s| ==> !p(s[i]) by {
      if r == [] {
        forall i | 0 <= i < |s| ensures !p(s[i]) {
          assert s[i] in s;
        }
      }
    }
    assert r != [] ==> exists i :: 0 <= i < |s| && p(s[i]) by {
      if r != [] {
        assert p(r[0]) && r[0] in s;
      }
    }
    |r|
  }

  lemma CountAppend<T>(a: seq<T>, b: seq<T>, p: T -> bool)
    ensures Count(a + b, p) == Count(a, p) + Count(b, p)
  {
    FilterAppend(a, b, p);
  }

  /** `Array.prototype.map`. */
  function Map<T, U>(s: seq<T>, f: T -> U): (r: seq<U>)
    ensures |r| == |s|
    ensures forall i :: 0 <= i < |s| ==> r[i] == f(s[i])
  {
    seq(|s|, i requires 0 <= i < |s| => f(s[i]))
  }

  /** `Array.prototype.findIndex`, with None for the source's -1. */
  function FirstIndex<T>(s: seq<T>, p: T -> bool): (r: Option<nat>)
    ensures r.None? <==> forall i :: 0 <= i < |s| ==> !p(s[i])
    ensures r.Some? ==> r.value < |s| && p(s[r.value])
    ensures r.Some? ==> forall j :: 0 <= j < r.value ==> !p(s[j])
    decreases |s|
  {
    if |s| == 0 then None
    else if p(s[0]) then Some(0)
    else match FirstIndex(s[1..], p)
      case None => None
      case Some(i) => Some(i + 1)
  }

  /** `i` is where `find` and `findIndex` stop: the first position satisfying `p`. */
  predicate FirstMatch<T>(s: seq<T>, p: T -> bool, i: int) {
    0 <= i < |s| && p(s[i]) && forall j :: 0 <= j < i ==> !p(s[j])
  }

  /** `splice(i, 1)`: the sequence without its `i`-th element. */
  function RemoveAt<T>(s: seq<T>, i: nat): (r: seq<T>)
    requires i < |s|
    ensures |r| == |s| - 1
    ensures forall j :: 0 <= j < i ==> r[j] == s[j]
    ensures forall j :: i <= j < |r| ==> r[j] == s[j + 1]
  {
    s[..i] + s[i + 1..]
  }

  /** The common `findIndex` then assign-at-index step: replace the first element
      satisfying `p` by `x`; unchanged when none does. */
  function ReplaceFirst<T>(s: seq<T>, p: T -> bool, x: T): (r: seq<T>)
    ensures |r| == |s|
    ensures FirstIndex(s, p).None? ==> r == s
    ensures FirstIndex(s, p).Some? ==> r == s[FirstIndex(s, p).value := x]
  {
    match FirstIndex(s, p)
    case None => s
    case Some(i) => s[i := x]
  }
}
