/** Python's ordering of strings, and `sorted()` over the two kinds of
    sequence the core sorts: the (key, value) items of a string-keyed dict,
    whose keys are distinct, and a list of numbers. */
module Ordering {

  /** `a < b` on Python strings: code point by code point, with a proper
      prefix before the longer string. */
  predicate LexLess(a: string, b: string) {
    if a == [] then b != []
    else if b == [] then false
    else if a[0] != b[0] then a[0] < b[0]
    else LexLess(a[1..], b[1..])
  }

  lemma {:induction false} LexLessIrreflexive(a: string)
    ensures !LexLess(a, a)
  {
    if a != [] {
      LexLessIrreflexive(a[1..]);
    }
  }

  lemma {:induction false} LexLessTransitive(a: string, b: string, c: string)
    requires LexLess(a, b) && LexLess(b, c)
    ensures LexLess(a, c)
  {
    if a != [] && b != [] && c != [] && a[0] == b[0] && b[0] == c[0] {
      LexLessTransitive(a[1..], b[1..], c[1..]);
    }
  }

  /** Two different strings are ordered one way or the other. */
  lemma {:induction false} LexLessTotal(a: string, b: string)
    requires a != b
    ensures LexLess(a, b) || LexLess(b, a)
  {
    if a != [] && b != [] && a[0] == b[0] {
      assert a == [a[0]] + a[1..] && b == [b[0]] + b[1..];
      LexLessTotal(a[1..], b[1..]);
    }
  }

  lemma {:induction false} LexLessAsymmetric(a: string, b: string)
    requires LexLess(a, b)
    ensures !LexLess(b, a)
  {
    if a != [] && b != [] && a[0] == b[0] {
      LexLessAsymmetric(a[1..], b[1..]);
    }
  }

  // ---------------------------------------------------------------------
  // sorted(d.items())

  /** The keys of a dict's items are distinct. */
  predicate DistinctKeys<V>(s: seq<(string, V)>) {
    forall i, j :: 0 <= i < j < |s| ==> s[i].0 != s[j].0
  }

  /** Items in strictly increasing key order. */
  predicate SortedByKey<V>(s: seq<(string, V)>) {
    forall i, j :: 0 <= i < j < |s| ==> LexLess(s[i].0, s[j].0)
  }

  lemma SortedIsDistinct<V>(s: seq<(string, V)>)
    requires SortedByKey(s)
    ensures DistinctKeys(s)
  {
    forall i, j | 0 <= i < j < |s|
      ensures s[i].0 != s[j].0
    {
      if s[i].0 == s[j].0 {
        LexLessIrreflexive(s[i].0);
      }
    }
  }

  predicate KeyAbsent<V>(k: string, s: seq<(string, V)>) {
    forall i :: 0 <= i < |s| ==> s[i].0 != k
  }

  /** An item whose key is below the first key of a sorted sequence can go
      in front of it. */
  lemma ConsSorted<V>(x: (string, V), s: seq<(string, V)>)
    requires SortedByKey(s) && (s == [] || LexLess(x.0, s[0].0))
    ensures SortedByKey([x] + s)
  {
    var r := [x] + s;
    forall i, j | 0 <= i < j < |r|
      ensures LexLess(r[i].0, r[j].0)
    {
      if i == 0 && j > 1 {
        LexLessTransitive(x.0, s[0].0, s[j - 1].0);
      }
    }
  }

  /** One insertion step of the sort: x goes before the first larger key. */
  function InsertByKey<V>(x: (string, V), s: seq<(string, V)>): (r: seq<(string, V)>)
    requires SortedByKey(s) && KeyAbsent(x.0, s)
    ensures SortedByKey(r)
    ensures multiset(r) == multiset(s) + multiset{x}
    ensures |r| == |s| + 1
    ensures r[0] == if s == [] || LexLess(x.0, s[0].0) then x else s[0]
  {
    if s == [] then [x]
    else if LexLess(x.0, s[0].0) then
      ConsSorted(x, s);
      [x] + s
    else
      LexLessTotal(x.0, s[0].0);
      var rest := InsertByKey(x, s[1..]);
      ConsSorted(s[0], rest);
      assert s == [s[0]] + s[1..];
      [s[0]] + rest
  }

  /** sorted(items) for items with distinct keys: an insertion sort. */
  function SortByKey<V>(s: seq<(string, V)>): (r: seq<(string, V)>)
    requires DistinctKeys(s)
    ensures SortedByKey(r)
    ensures multiset(r) == multiset(s)
    ensures |r| == |s|
  {
    if s == [] then []
    else
      var init := s[..|s| - 1];
      var last := s[|s| - 1];
      var sorted := SortByKey(init);
      assert KeyAbsent(last.0, sorted) by {
        forall i | 0 <= i < |sorted|
          ensures sorted[i].0 != last.0
        {
          assert sorted[i] in multiset(init);
          var j :| 0 <= j < |init| && init[j] == sorted[i];
        }
      }
      assert s == init + [last];
      InsertByKey(last, sorted)
  }

  /** Two non-empty key-sorted sequences holding the same items start
      with the same item. */
  lemma SortedSameHead<V>(a: seq<(string, V)>, b: seq<(string, V)>)
    requires SortedByKey(a) && SortedByKey(b)
    requires multiset(a) == multiset(b) && a != [] && b != []
    ensures a[0] == b[0]
  {
    assert a[0] in multiset(b);
    assert b[0] in multiset(a);
    var i :| 0 <= i < |a| && a[i] == b[0];
    var j :| 0 <= j < |b| && b[j] == a[0];
    if i != 0 && j != 0 {
      LexLessAsymmetric(a[0].0, a[i].0);
    } else if i != 0 {
      LexLessIrreflexive(a[0].0);
    } else if j != 0 {
      LexLessIrreflexive(b[0].0);
    }
  }

  /** Two key-sorted sequences holding the same items are the same
      sequence. */
  lemma {:induction false} SortedUnique<V>(a: seq<(string, V)>, b: seq<(string, V)>)
    requires SortedByKey(a) && SortedByKey(b)
    requires multiset(a) == multiset(b)
    ensures a == b
  {
    if a != [] {
      assert |b| == |a| by {
        assert |multiset(a)| == |multiset(b)|;
      }
      SortedSameHead(a, b);
      assert a == [a[0]] + a[1..] && b == [b[0]] + b[1..];
      assert multiset(a[1..]) == multiset(a) - multiset{a[0]};
      assert multiset(b[1..]) == multiset(b) - multiset{b[0]};
      SortedUnique(a[1..], b[1..]);
    }
  }

  /** Sorting does not depend on the order the items came in. */
  lemma SortByKeyOrderFree<V>(a: seq<(string, V)>, b: seq<(string, V)>)
    requires DistinctKeys(a) && DistinctKeys(b)
    requires multiset(a) == multiset(b)
    ensures SortByKey(a) == SortByKey(b)
  {
    SortedUnique(SortByKey(a), SortByKey(b));
  }

  /** Sorting sorted items leaves them as they are. */
  lemma SortByKeySorted<V>(s: seq<(string, V)>)
    requires SortedByKey(s)
    ensures DistinctKeys(s) && SortByKey(s) == s
  {
    SortedIsDistinct(s);
    SortedUnique(SortByKey(s), s);
  }

  // ---------------------------------------------------------------------
  // sorted(values)

  predicate Sorted(s: seq<real>) {
    forall i, j :: 0 <= i <= j < |s| ==> s[i] <= s[j]
  }

  function InsertReal(x: real, s: seq<real>): (r: seq<real>)
    requires Sorted(s)
    ensures Sorted(r)
    ensures multiset(r) == multiset(s) + multiset{x}
    ensures |r| == |s| + 1
    ensures r[0] == if s == [] || x <= s[0] then x else s[0]
  {
    if s == [] then [x]
    else if x <= s[0] then [x] + s
    else
      var rest := InsertReal(x, s[1..]);
      assert s == [s[0]] + s[1..];
      [s[0]] + rest
  }

  /** sorted(values) */
  function SortReals(s: seq<real>): (r: seq<real>)
    ensures Sorted(r)
    ensures multiset(r) == multiset(s)
    ensures |r| == |s|
  {
    if s == [] then []
    else
      assert s == s[..|s| - 1] + [s[|s| - 1]];
      InsertReal(s[|s| - 1], SortReals(s[..|s| - 1]))
  }
}
