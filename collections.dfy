/** Sequence operations shared by both analysis scripts and the user service:
    order-preserving filtering, a stable sort by a real-valued key, selection of the
    n smallest elements, and the code-point order on strings used to order group keys. */
module Collections {

  datatype Option<T> = None | Some(value: T)

  function Min(a: nat, b: nat): nat
  {
    if a <= b then a else b
  }

  // ---------------------------------------------------------------------------
  // Order-preserving filter
  // ---------------------------------------------------------------------------

  /** `f` applied to every element, in order. */
  function Project<T, U>(s: seq<T>, f: T -> U): (r: seq<U>)
    ensures |r| == |s|
    ensures forall i :: 0 <= i < |s| ==> r[i] == f(s[i])
  {
    seq(|s|, i requires 0 <= i < |s| => f(s[i]))
  }

  /** The elements of `s` that satisfy `p`, in their original order. */
  function Filter<T>(s: seq<T>, p: T -> bool): (r: seq<T>)
    ensures |r| <= |s|
    ensures forall x :: x in r ==> x in s && p(x)
  {
    if s == [] then []
    else Filter(s[..|s| - 1], p) + (if p(s[|s| - 1]) then [s[|s| - 1]] else [])
  }

  /** The indices of the elements of `s` that satisfy `p`, in increasing order. */
  function Positions<T>(s: seq<T>, p: T -> bool): seq<nat>
  {
    if s == [] then []
    else Positions(s[..|s| - 1], p) + (if p(s[|s| - 1]) then [|s| - 1] else [])
  }

  ghost predicate StrictlyIncreasing(xs: seq<nat>)
  {
    forall i, j :: 0 <= i < j < |xs| ==> xs[i] < xs[j]
  }

  /** `Filter(s, p)` is the subsequence of `s` picked out by the increasing index
      sequence `Positions(s, p)`, and an index is picked exactly when its element
      satisfies `p`: the filter keeps every matching element once, keeps nothing
      else, and keeps the input order. */
  lemma {:induction false} FilterSelects<T>(s: seq<T>, p: T -> bool)
    ensures |Positions(s, p)| == |Filter(s, p)|
    ensures StrictlyIncreasing(Positions(s, p))
    ensures forall j :: 0 <= j < |Positions(s, p)| ==>
              Positions(s, p)[j] < |s| && Filter(s, p)[j] == s[Positions(s, p)[j]]
    ensures forall i :: 0 <= i < |s| ==> (p(s[i]) <==> i in Positions(s, p))
  {
    if s != [] {
      var n := |s| - 1;
      var s' := s[..n];
      FilterSelects(s', p);
      assert forall i :: 0 <= i < n ==> s'[i] == s[i];
      var ps', fs' := Positions(s', p), Filter(s', p);
      if p(s[n]) {
        assert Positions(s, p) == ps' + [n];
        assert Filter(s, p) == fs' + [s[n]];
      } else {
        assert Positions(s, p) == ps';
        assert Filter(s, p) == fs';
      }
    }
  }

  /** An element is kept exactly when it occurs in `s` and satisfies `p`. */
  lemma {:induction false} FilterMembers<T>(s: seq<T>, p: T -> bool)
    ensures forall x :: x in Filter(s, p) <==> x in s && p(x)
  {
    if s != [] {
      var s' := s[..|s| - 1];
      FilterMembers(s', p);
      assert s == s' + [s[|s| - 1]];
    }
  }

  /** Predicates that agree on the elements of `s` filter it alike. */
  lemma {:induction false} FilterAgree<T>(s: seq<T>, p: T -> bool, q: T -> bool)
    requires forall x :: x in s ==> p(x) == q(x)
    ensures Filter(s, p) == Filter(s, q)
  {
    if s != [] {
      FilterAgree(s[..|s| - 1], p, q);
      assert s[|s| - 1] in s;
    }
  }

  // ---------------------------------------------------------------------------
  // Stable sort by a real key (ascending); a descending sort uses the negated key
  // ---------------------------------------------------------------------------

  ghost predicate SortedBy<T>(s: seq<T>, key: T -> real)
  {
    forall i, j :: 0 <= i < j < |s| ==> key(s[i]) <= key(s[j])
  }

  /** The elements of `s` whose key is `k`, in their order in `s`. A sort is stable
      exactly when it leaves every such class unchanged. */
  function KeyClass<T>(s: seq<T>, key: T -> real, k: real): seq<T>
  {
    if s == [] then []
    else (if key(s[0]) == k then [s[0]] else []) + KeyClass(s[1..], key, k)
  }

  /** Inserts `x` in front of the first element whose key is not smaller. */
  function InsertBy<T>(x: T, s: seq<T>, key: T -> real): (r: seq<T>)
    ensures multiset(r) == multiset(s) + multiset{x}
  {
    if s == [] || key(x) <= key(s[0]) then [x] + s
    else
      assert s == [s[0]] + s[1..];
      [s[0]] + InsertBy(x, s[1..], key)
  }

  /** Insertion sort: sorts by `key`, keeping equal-keyed elements in input order. */
  function SortBy<T>(s: seq<T>, key: T -> real): (r: seq<T>)
    ensures multiset(r) == multiset(s)
    ensures |r| == |s|
  {
    if s == [] then []
    else
      assert s == [s[0]] + s[1..];
      InsertBy(s[0], SortBy(s[1..], key), key)
  }

  lemma {:induction false} InsertBySorted<T>(x: T, s: seq<T>, key: T -> real)
    requires SortedBy(s, key)
    ensures SortedBy(InsertBy(x, s, key), key)
  {
    if s != [] && key(x) > key(s[0]) {
      InsertBySorted(x, s[1..], key);
      var t := InsertBy(x, s[1..], key);
      forall y | y in t ensures key(s[0]) <= key(y) {
        assert y in multiset(t);
        assert y == x || y in multiset(s[1..]);
      }
      assert InsertBy(x, s, key) == [s[0]] + t;
    }
  }

  /** The sort result is ordered by key. */
  lemma {:induction false} SortBySorted<T>(s: seq<T>, key: T -> real)
    ensures SortedBy(SortBy(s, key), key)
  {
    if s != [] {
      SortBySorted(s[1..], key);
      InsertBySorted(s[0], SortBy(s[1..], key), key);
    }
  }

  lemma {:induction false} InsertByKeyClass<T>(x: T, s: seq<T>, key: T -> real, k: real)
    requires SortedBy(s, key)
    ensures KeyClass(InsertBy(x, s, key), key, k) == KeyClass([x] + s, key, k)
  {
    if s != [] && key(x) > key(s[0]) {
      var t := s[1..];
      InsertBySortedTail(s, key);
      InsertByKeyClass(x, t, key, k);
      assert ([x] + s)[1..] == s;
      assert ([x] + t)[1..] == t;
      assert ([s[0]] + InsertBy(x, t, key))[1..] == InsertBy(x, t, key);
    }
  }

  lemma InsertBySortedTail<T>(s: seq<T>, key: T -> real)
    requires s != [] && SortedBy(s, key)
    ensures SortedBy(s[1..], key)
  {
  }

  /** Stability: sorting leaves, for every key value, the subsequence of elements
      with that key exactly as it was in the input. */
  lemma {:induction false} SortByStable<T>(s: seq<T>, key: T -> real, k: real)
    ensures KeyClass(SortBy(s, key), key, k) == KeyClass(s, key, k)
  {
    if s != [] {
      SortByStable(s[1..], key, k);
      SortBySorted(s[1..], key);
      InsertByKeyClass(s[0], SortBy(s[1..], key), key, k);
      assert ([s[0]] + SortBy(s[1..], key))[1..] == SortBy(s[1..], key);
    }
  }

  // ---------------------------------------------------------------------------
  // The n smallest elements by key, ties broken by input order
  // ---------------------------------------------------------------------------

  /** The first `n` elements of the stable ascending sort (all of them when fewer). */
  function NSmallest<T>(s: seq<T>, n: nat, key: T -> real): seq<T>
  {
    SortBy(s, key)[..Min(n, |s|)]
  }

  /** The selection has min(n, |s|) elements drawn from `s`, in ascending key order,
      and no element left out has a smaller key than an element selected. */
  /** Ties are broken by position: among the elements sharing a key, the selection
      holds the earliest ones of `s`, in their order in `s`. */
  lemma NSmallestFirst<T>(s: seq<T>, n: nat, key: T -> real, k: real)
    ensures KeyClass(NSmallest(s, n, key), key, k) <= KeyClass(s, key, k)
  {
    SortByStable(s, key, k);
    KeyClassPrefix(SortBy(s, key), Min(n, |s|), key, k);
  }

  /** The key class of a prefix is a prefix of the key class. */
  lemma {:induction false} KeyClassPrefix<T>(t: seq<T>, m: nat, key: T -> real, k: real)
    requires m <= |t|
    ensures KeyClass(t[..m], key, k) <= KeyClass(t, key, k)
  {
    if m > 0 {
      KeyClassPrefix(t[1..], m - 1, key, k);
      assert t[..m][1..] == t[1..][..m - 1];
      var head := if key(t[0]) == k then [t[0]] else [];
      assert KeyClass(t[..m], key, k) == head + KeyClass(t[1..][..m - 1], key, k);
      assert KeyClass(t, key, k) == head + KeyClass(t[1..], key, k);
    }
  }

  lemma NSmallestSelects<T>(s: seq<T>, n: nat, key: T -> real)
    ensures |NSmallest(s, n, key)| == Min(n, |s|)
    ensures multiset(NSmallest(s, n, key)) <= multiset(s)
    ensures SortedBy(NSmallest(s, n, key), key)
    ensures forall x, y :: x in NSmallest(s, n, key) && y in multiset(s) - multiset(NSmallest(s, n, key))
              ==> key(x) <= key(y)
  {
    NSmallestSplit(s, n, key);
    NSmallestSorted(s, n, key);
    var r := NSmallest(s, n, key);
    var rest := SortBy(s, key)[Min(n, |s|)..];
    forall x, y | x in r && y in multiset(s) - multiset(r) ensures key(x) <= key(y) {
      assert y in multiset(rest);
    }
  }

  /** The selection and the rest of the sorted sequence split the input's multiset. */
  lemma NSmallestSplit<T>(s: seq<T>, n: nat, key: T -> real)
    ensures |NSmallest(s, n, key)| == Min(n, |s|)
    ensures multiset(s) == multiset(NSmallest(s, n, key)) + multiset(SortBy(s, key)[Min(n, |s|)..])
  {
    SplitMultiset(SortBy(s, key), Min(n, |s|));
  }

  lemma SplitMultiset<T>(t: seq<T>, m: nat)
    requires m <= |t|
    ensures multiset(t) == multiset(t[..m]) + multiset(t[m..])
  {
    assert t == t[..m] + t[m..];
  }

  lemma NSmallestSorted<T>(s: seq<T>, n: nat, key: T -> real)
    ensures SortedBy(NSmallest(s, n, key), key)
    ensures forall x, y :: x in NSmallest(s, n, key) && y in SortBy(s, key)[Min(n, |s|)..] ==> key(x) <= key(y)
  {
    var t := SortBy(s, key);
    SortBySorted(s, key);
    PrefixBelowSuffix(t, Min(n, |s|), key);
  }

  /** In a sequence sorted by key, everything before position `m` has a key no larger
      than everything from `m` on. */
  lemma PrefixBelowSuffix<T>(t: seq<T>, m: nat, key: T -> real)
    requires SortedBy(t, key) && m <= |t|
    ensures forall x, y :: x in t[..m] && y in t[m..] ==> key(x) <= key(y)
  {
    forall x, y | x in t[..m] && y in t[m..] ensures key(x) <= key(y) {
      var i :| 0 <= i < m && t[..m][i] == x;
      var j :| 0 <= j < |t| - m && t[m..][j] == y;
      assert t[i] == x && t[m + j] == y;
    }
  }

  // ---------------------------------------------------------------------------
  // Code-point (lexicographic) order on strings, and sorted sets of names
  // ---------------------------------------------------------------------------

  /** `a` sorts strictly before `b`, comparing character by character. */
  predicate LexLess(a: string, b: string)
  {
    if |a| == 0 then |b| > 0
    else if |b| == 0 then false
    else if a[0] != b[0] then a[0] < b[0]
    else LexLess(a[1..], b[1..])
  }

  lemma {:induction false} LexLessIrreflexive(a: string)
    ensures !LexLess(a, a)
  {
    if |a| > 0 { LexLessIrreflexive(a[1..]); }
  }

  lemma {:induction false} LexLessTransitive(a: string, b: string, c: string)
    requires LexLess(a, b) && LexLess(b, c)
    ensures LexLess(a, c)
  {
    if |a| > 0 && |b| > 0 && |c| > 0 && a[0] == b[0] && b[0] == c[0] {
      LexLessTransitive(a[1..], b[1..], c[1..]);
    }
  }

  lemma {:induction false} LexLessTotal(a: string, b: string)
    requires a != b
    ensures LexLess(a, b) || LexLess(b, a)
  {
    if |a| > 0 && |b| > 0 && a[0] == b[0] {
      assert a == [a[0]] + a[1..] && b == [b[0]] + b[1..];
      LexLessTotal(a[1..], b[1..]);
    }
  }

  ghost predicate StrictlySortedNames(ks: seq<string>)
  {
    forall i, j :: 0 <= i < j < |ks| ==> LexLess(ks[i], ks[j])
  }

  /** Adds `k` to the sorted, duplicate-free `ks` at its place, unless present. */
  function InsertName(k: string, ks: seq<string>): seq<string>
  {
    if ks == [] then [k]
    else if k == ks[0] then ks
    else if LexLess(k, ks[0]) then [k] + ks
    else [ks[0]] + InsertName(k, ks[1..])
  }

  lemma {:induction false} InsertNameSpec(k: string, ks: seq<string>)
    requires StrictlySortedNames(ks)
    ensures StrictlySortedNames(InsertName(k, ks))
    ensures forall x :: x in InsertName(k, ks) <==> x == k || x in ks
  {
    if ks != [] && k != ks[0] {
      if LexLess(k, ks[0]) {
        forall j | 0 < j < |ks| ensures LexLess(k, ks[j]) {
          LexLessTransitive(k, ks[0], ks[j]);
        }
      } else {
        LexLessTotal(k, ks[0]);
        InsertNameSpec(k, ks[1..]);
        var t := InsertName(k, ks[1..]);
        assert InsertName(k, ks) == [ks[0]] + t;
        forall x | x in t ensures LexLess(ks[0], x) {
          if x != k {
            var j :| 0 <= j < |ks[1..]| && ks[1..][j] == x;
            assert ks[j + 1] == x;
          }
        }
        assert ks == [ks[0]] + ks[1..];
      }
    }
  }

  /** Strictly sorted names hold no name twice. */
  lemma StrictlySortedNamesDistinct(ks: seq<string>)
    requires StrictlySortedNames(ks)
    ensures forall i, j :: 0 <= i < j < |ks| ==> ks[i] != ks[j]
  {
    forall i, j | 0 <= i < j < |ks| ensures ks[i] != ks[j] {
      LexLessIrreflexive(ks[i]);
    }
  }
}
