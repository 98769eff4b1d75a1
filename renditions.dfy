/**
 * Ordering renditions (image candidates, video versions, display resources) by width.
 *
 * Every selection in the core is `usort` with the comparator `($b['width'] ?? 0) - ($a['width'] ?? 0)`
 * (widest first) or its mirror image (narrowest first), followed by taking element 0. Since PHP 8.0
 * `usort` is stable, so the sort is modelled as a stable insertion sort on a sequence; sorting
 * narrowest first is the same stable sort on the negated width.
 */
module Renditions {

  /** Inserts x into `s`, which is in descending key order, in front of the first element whose
      key is not greater than x's: x then precedes every element of `s` with an equal key. */
  function InsertDesc<T>(x: T, s: seq<T>, key: T -> int): (r: seq<T>)
    ensures |r| == |s| + 1
    ensures multiset(r) == multiset(s) + multiset{x}
    decreases |s|
  {
    if s == [] || key(s[0]) <= key(x) then [x] + s
    else
      assert s == [s[0]] + s[1..];
      [s[0]] + InsertDesc(x, s[1..], key)
  }

  /** usort with a widest-first comparator: a permutation of its input, in descending order. */
  function SortDesc<T>(s: seq<T>, key: T -> int): (r: seq<T>)
    ensures |r| == |s|
    ensures multiset(r) == multiset(s)
    ensures Descending(r, key)
    decreases |s|
  {
    if s == [] then []
    else
      assert s == [s[0]] + s[1..];
      var rest := SortDesc(s[1..], key);
      InsertDescSorted(s[0], rest, key);
      InsertDesc(s[0], rest, key)
  }

  function Negated<T>(key: T -> int): T -> int
  {
    x => -key(x)
  }

  /** usort with a narrowest-first comparator: a permutation of its input, in ascending order. */
  function SortAsc<T>(s: seq<T>, key: T -> int): (r: seq<T>)
    ensures |r| == |s|
    ensures multiset(r) == multiset(s)
    ensures forall i, j :: 0 <= i < j < |r| ==> key(r[i]) <= key(r[j])
  {
    var r := SortDesc(s, Negated(key));
    assert forall i, j :: 0 <= i < j < |r| ==> Negated(key)(r[i]) >= Negated(key)(r[j]);
    r
  }

  ghost predicate Descending<T>(s: seq<T>, key: T -> int) {
    forall i, j :: 0 <= i < j < |s| ==> key(s[i]) >= key(s[j])
  }

  /** The position of the first element of maximal key. */
  function WidestIndex<T>(s: seq<T>, key: T -> int): (i: nat)
    requires |s| > 0
    ensures i < |s|
    ensures forall j :: 0 <= j < |s| ==> key(s[j]) <= key(s[i])
    ensures forall j :: 0 <= j < i ==> key(s[j]) < key(s[i])
  {
    if |s| == 1 then 0
    else
      var k := WidestIndex(s[1..], key) + 1;
      if key(s[k]) <= key(s[0]) then 0 else k
  }

  /** The position of the first element of minimal key. */
  function NarrowestIndex<T>(s: seq<T>, key: T -> int): (i: nat)
    requires |s| > 0
    ensures i < |s|
    ensures forall j :: 0 <= j < |s| ==> key(s[i]) <= key(s[j])
    ensures forall j :: 0 <= j < i ==> key(s[i]) < key(s[j])
  {
    var i := WidestIndex(s, Negated(key));
    assert forall j :: 0 <= j < |s| ==> Negated(key)(s[j]) == -key(s[j]);
    i
  }

  /** Inserting never raises the largest key above a common bound b. */
  lemma {:induction false} InsertDescBounded<T>(x: T, s: seq<T>, key: T -> int, b: int)
    requires key(x) <= b
    requires forall i :: 0 <= i < |s| ==> key(s[i]) <= b
    ensures forall i :: 0 <= i < |InsertDesc(x, s, key)| ==> key(InsertDesc(x, s, key)[i]) <= b
    decreases |s|
  {
    if s != [] && key(s[0]) > key(x) {
      InsertDescBounded(x, s[1..], key, b);
    }
  }

  lemma {:induction false} InsertDescSorted<T>(x: T, s: seq<T>, key: T -> int)
    requires Descending(s, key)
    ensures Descending(InsertDesc(x, s, key), key)
    ensures InsertDesc(x, s, key)[0] == if s == [] || key(s[0]) <= key(x) then x else s[0]
    decreases |s|
  {
    if s != [] && key(s[0]) > key(x) {
      var tail := s[1..];
      InsertDescSorted(x, tail, key);
      InsertDescBounded(x, tail, key, key(s[0]));
      var r := InsertDesc(x, tail, key);
      assert InsertDesc(x, s, key) == [s[0]] + r;
      assert forall i :: 0 <= i < |r| ==> key(r[i]) <= key(s[0]);
    }
  }

  /** Element 0 after a widest-first sort is the first element of maximal width. */
  lemma {:induction false} SortDescHead<T>(s: seq<T>, key: T -> int)
    requires |s| > 0
    ensures |SortDesc(s, key)| == |s|
    ensures SortDesc(s, key)[0] == s[WidestIndex(s, key)]
    decreases |s|
  {
    if |s| > 1 {
      var rest := s[1..];
      SortDescHead(rest, key);
      InsertDescSorted(s[0], SortDesc(rest, key), key);
    }
  }

  /** Element 0 after a narrowest-first sort is the first element of minimal width. */
  lemma SortAscHead<T>(s: seq<T>, key: T -> int)
    requires |s| > 0
    ensures |SortAsc(s, key)| == |s|
    ensures SortAsc(s, key)[0] == s[NarrowestIndex(s, key)]
  {
    SortDescHead(s, Negated(key));
  }
}
