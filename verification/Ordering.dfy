/** Strict total orders, and the ascending listing of a finite set (Python's `sorted` on a set). */
module Ordering {

  ghost predicate StrictOrder<T(!new)>(less: (T, T) -> bool) {
    && (forall x :: !less(x, x))
    && (forall x, y, z :: less(x, y) && less(y, z) ==> less(x, z))
    && (forall x, y :: x != y ==> less(x, y) || less(y, x))
  }

  ghost predicate Ascending<T>(s: seq<T>, less: (T, T) -> bool) {
    forall i, j :: 0 <= i < j < |s| ==> less(s[i], s[j])
  }

  ghost predicate Lists<T(!new)>(s: seq<T>, keys: set<T>) {
    forall x :: x in s <==> x in keys
  }

  ghost predicate IsLeast<T>(m: T, keys: set<T>, less: (T, T) -> bool) {
    m in keys && forall x :: x in keys && x != m ==> less(m, x)
  }

  lemma {:induction false} LeastExists<T(!new)>(keys: set<T>, less: (T, T) -> bool) returns (m: T)
    requires StrictOrder(less) && keys != {}
    ensures IsLeast(m, keys, less)
  {
    var x :| x in keys;
    if keys == {x} {
      m := x;
    } else {
      var r := LeastExists(keys - {x}, less);
      m := if less(x, r) then x else r;
      forall y | y in keys && y != m ensures less(m, y) {
        assert y != x ==> y in keys - {x};
      }
    }
  }

  function Least<T(!new)>(keys: set<T>, less: (T, T) -> bool): (m: T)
    requires StrictOrder(less) && keys != {}
    ensures IsLeast(m, keys, less)
  {
    assert exists m :: IsLeast(m, keys, less) by { var m := LeastExists(keys, less); }
    var m :| m in keys && forall x | x in keys :: x == m || less(m, x);
    m
  }

  /** The ascending listing of a set. */
  function SortedSeq<T(!new)>(keys: set<T>, less: (T, T) -> bool): (s: seq<T>)
    requires StrictOrder(less)
    ensures Ascending(s, less) && Lists(s, keys) && |s| == |keys|
  {
    if keys == {} then
      []
    else
      var m := Least(keys, less);
      var rest := SortedSeq(keys - {m}, less);
      assert forall i | 0 <= i < |rest| :: rest[i] in keys - {m};
      [m] + rest
  }

  /** An ascending sequence is determined by its elements, so `sorted` has one possible answer. */
  lemma {:induction false} AscendingUnique<T(!new)>(s: seq<T>, t: seq<T>, less: (T, T) -> bool)
    requires StrictOrder(less)
    requires Ascending(s, less) && Ascending(t, less)
    requires forall x :: x in s <==> x in t
    ensures s == t
  {
    assert s != [] ==> s[0] in t;
    assert t != [] ==> t[0] in s;
    if s != [] {
      assert s[0] == t[0];
      forall x ensures x in s[1..] <==> x in t[1..] {
        if x in s[1..] { assert x in s; assert x != s[0]; }
        if x in t[1..] { assert x in t; assert x != t[0]; }
      }
      AscendingUnique(s[1..], t[1..], less);
      assert s == [s[0]] + s[1..] && t == [t[0]] + t[1..];
    }
  }

  /** Python's order on `str`: code point by code point, a proper prefix first. */
  predicate StringLess(a: string, b: string) {
    b != [] && (a == [] || a[0] < b[0] || (a[0] == b[0] && StringLess(a[1..], b[1..])))
  }

  lemma {:induction false} StringLessIrreflexive(a: string)
    ensures !StringLess(a, a)
  {
    if a != [] { StringLessIrreflexive(a[1..]); }
  }

  lemma {:induction false} StringLessTransitive(a: string, b: string, c: string)
    requires StringLess(a, b) && StringLess(b, c)
    ensures StringLess(a, c)
  {
    if a != [] && a[0] == b[0] == c[0] { StringLessTransitive(a[1..], b[1..], c[1..]); }
  }

  lemma {:induction false} StringLessConnected(a: string, b: string)
    requires a != b
    ensures StringLess(a, b) || StringLess(b, a)
  {
    if a != [] && b != [] && a[0] == b[0] {
      assert a == [a[0]] + a[1..] && b == [b[0]] + b[1..];
      StringLessConnected(a[1..], b[1..]);
    }
  }

  lemma StringOrder()
    ensures StrictOrder(StringLess)
  {
    forall x ensures !StringLess(x, x) { StringLessIrreflexive(x); }
    forall x, y, z | StringLess(x, y) && StringLess(y, z) ensures StringLess(x, z) {
      StringLessTransitive(x, y, z);
    }
    forall x, y | x != y ensures StringLess(x, y) || StringLess(y, x) { StringLessConnected(x, y); }
  }

  /** `sorted` on a set of strings. */
  function SortedStrings(keys: set<string>): (s: seq<string>)
    ensures Ascending(s, StringLess) && Lists(s, keys)
  {
    StringOrder();
    SortedSeq(keys, StringLess)
  }

  lemma SortedStringsUnique(s: seq<string>, keys: set<string>)
    requires Ascending(s, StringLess) && Lists(s, keys)
    ensures s == SortedStrings(keys)
  {
    StringOrder();
    AscendingUnique(s, SortedStrings(keys), StringLess);
  }

  /** Python's order on pairs of strings. */
  predicate PairLess(a: (string, string), b: (string, string)) {
    StringLess(a.0, b.0) || (a.0 == b.0 && StringLess(a.1, b.1))
  }

  lemma PairOrder()
    ensures StrictOrder(PairLess)
  {
    StringOrder();
    assert forall x :: !StringLess(x, x);
    assert forall x, y, z :: StringLess(x, y) && StringLess(y, z) ==> StringLess(x, z);
    assert forall x, y :: x != y ==> StringLess(x, y) || StringLess(y, x);
  }

  predicate IntLess(a: int, b: int) { a < b }

  lemma IntOrder()
    ensures StrictOrder(IntLess)
  {}
}
