/** Strict total orders on identifiers and the sorted listing of a finite set,
    which is what an ORDER BY clause denotes. */
module Ordering {

  type Order = (string, string) -> bool

  ghost predicate TotalOn(less: Order, ids: set<string>) {
    && (forall a | a in ids :: !less(a, a))
    && (forall a, b | a in ids && b in ids :: a != b ==> less(a, b) || less(b, a))
    && (forall a, b, c | a in ids && b in ids && c in ids && less(a, b) && less(b, c) :: less(a, c))
  }

  ghost predicate IsFirst(less: Order, ids: set<string>, first: string) {
    first in ids && forall a | a in ids :: a != first ==> less(first, a)
  }

  ghost predicate Sorted(less: Order, list: seq<string>) {
    forall i, j | 0 <= i < j < |list| :: less(list[i], list[j])
  }

  lemma {:induction false} FirstExists(less: Order, ids: set<string>)
    requires TotalOn(less, ids) && ids != {}
    ensures exists first :: IsFirst(less, ids, first)
    decreases |ids|
  {
    var a :| a in ids;
    var rest := ids - {a};
    if rest == {} {
      assert ids == {a};
      assert IsFirst(less, ids, a);
    } else {
      FirstExists(less, rest);
      var m :| IsFirst(less, rest, m);
      assert IsFirst(less, ids, if less(a, m) then a else m);
    }
  }

  /** The row an ORDER BY ... LIMIT 1 query selects. */
  ghost function First(less: Order, ids: set<string>): (first: string)
    requires TotalOn(less, ids) && ids != {}
    ensures IsFirst(less, ids, first)
  {
    FirstExists(less, ids);
    var first :| IsFirst(less, ids, first);
    first
  }

  /** All rows of an ORDER BY query. */
  ghost function Listing(less: Order, ids: set<string>): (list: seq<string>)
    requires TotalOn(less, ids)
    decreases |ids|
  {
    if ids == {} then []
    else
      var first := First(less, ids);
      [first] + Listing(less, ids - {first})
  }

  /** Each row once, in order. */
  lemma {:induction false} ListingIsSorted(less: Order, ids: set<string>)
    requires TotalOn(less, ids)
    ensures |Listing(less, ids)| == |ids|
    ensures forall id :: id in Listing(less, ids) <==> id in ids
    ensures Sorted(less, Listing(less, ids))
    ensures forall i, j | 0 <= i < j < |ids| :: Listing(less, ids)[i] != Listing(less, ids)[j]
    decreases |ids|
  {
    if ids != {} {
      var first := First(less, ids);
      var rest := Listing(less, ids - {first});
      ListingIsSorted(less, ids - {first});
      var list := Listing(less, ids);
      assert list == [first] + rest;
      forall j | 0 < j < |list| ensures list[j] in ids && list[j] != first {
        assert list[j] == rest[j - 1] && rest[j - 1] in rest;
      }
      forall i, j | 0 <= i < j < |list| ensures less(list[i], list[j]) && list[i] != list[j] {
        if i > 0 { assert list[i] == rest[i - 1] && list[j] == rest[j - 1]; }
      }
    }
  }

  /** Code-point order, which is also the byte order of the UTF-8 encodings. */
  predicate StringLess(a: string, b: string) {
    if b == [] then false
    else if a == [] then true
    else a[0] < b[0] || (a[0] == b[0] && StringLess(a[1..], b[1..]))
  }

  lemma {:induction false} StringLessIrreflexive(a: string)
    ensures !StringLess(a, a)
  {
    if a != [] {
      StringLessIrreflexive(a[1..]);
    }
  }

  lemma {:induction false} StringLessTotal(a: string, b: string)
    requires a != b
    ensures StringLess(a, b) || StringLess(b, a)
  {
    if a != [] && b != [] && a[0] == b[0] {
      assert a == [a[0]] + a[1..] && b == [b[0]] + b[1..];
      StringLessTotal(a[1..], b[1..]);
    }
  }

  lemma {:induction false} StringLessTransitive(a: string, b: string, c: string)
    requires StringLess(a, b) && StringLess(b, c)
    ensures StringLess(a, c)
  {
    if a != [] && a[0] == b[0] && b[0] == c[0] {
      StringLessTransitive(a[1..], b[1..], c[1..]);
    }
  }
}
