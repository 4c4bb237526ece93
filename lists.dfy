/**
 * The array operations the section editors use to build replacement lists:
 * `Array.prototype.filter` and `Array.prototype.map`.
 */
module Lists {

  /** `xs.filter(keep)`: the elements that pass `keep`, in their original order. */
  function Filter<T>(xs: seq<T>, keep: T -> bool): (r: seq<T>)
    ensures |r| <= |xs|
    ensures forall x :: x in r ==> x in xs && keep(x)
    ensures forall x :: x in xs && keep(x) ==> x in r
  {
    if xs == [] then []
    else if keep(xs[0]) then [xs[0]] + Filter(xs[1..], keep)
    else Filter(xs[1..], keep)
  }

  /** Filtering a concatenation filters each part and keeps them in order. */
  lemma {:induction false} FilterAppend<T>(a: seq<T>, b: seq<T>, keep: T -> bool)
    ensures Filter(a + b, keep) == Filter(a, keep) + Filter(b, keep)
  {
    if a == [] {
      assert a + b == b;
    } else {
      assert (a + b)[0] == a[0];
      assert (a + b)[1..] == a[1..] + b;
      FilterAppend(a[1..], b, keep);
    }
  }

  /**
   * On one element a filter keeps it or drops it; with `FilterAppend` this
   * fixes the filter of any list, in order.
   */
  lemma FilterSingle<T>(x: T, keep: T -> bool)
    ensures Filter([x], keep) == if keep(x) then [x] else []
  {
    assert [x][1..] == [];
  }

  /** A filter that every element passes keeps the whole list. */
  lemma {:induction false} FilterKeepsAll<T>(xs: seq<T>, keep: T -> bool)
    requires forall i :: 0 <= i < |xs| ==> keep(xs[i])
    ensures Filter(xs, keep) == xs
  {
    if xs != [] {
      FilterKeepsAll(xs[1..], keep);
    }
  }

  /** How many elements of `xs` pass `keep`. */
  function Count<T>(xs: seq<T>, keep: T -> bool): nat {
    if xs == [] then 0 else (if keep(xs[0]) then 1 else 0) + Count(xs[1..], keep)
  }

  /** A filter keeps exactly as many elements as pass it. */
  lemma {:induction false} FilterLength<T>(xs: seq<T>, keep: T -> bool)
    ensures |Filter(xs, keep)| == Count(xs, keep)
  {
    if xs != [] {
      FilterLength(xs[1..], keep);
    }
  }

  /** `xs.map(f)`: one result per element, in order. */
  function Map<T, U>(xs: seq<T>, f: T -> U): (r: seq<U>)
    ensures |r| == |xs|
    ensures forall i :: 0 <= i < |xs| ==> r[i] == f(xs[i])
  {
    if xs == [] then [] else [f(xs[0])] + Map(xs[1..], f)
  }

  /**
   * `xs.filter((_, i) => i !== index)` on the part of a list that starts at
   * position `offset`: drops the element at position `index`, if there is
   * one, and keeps the rest in order.
   */
  function DropIndexFrom<T>(xs: seq<T>, index: int, offset: int): (r: seq<T>)
    ensures offset <= index < offset + |xs| ==> r == xs[..index - offset] + xs[index - offset + 1..]
    ensures !(offset <= index < offset + |xs|) ==> r == xs
  {
    if xs == [] then []
    else if offset == index then DropIndexFrom(xs[1..], index, offset + 1)
    else [xs[0]] + DropIndexFrom(xs[1..], index, offset + 1)
  }

  /**
   * `xs.filter((_, i) => i !== index)`: removes position `index` when it is
   * a position of `xs`, and otherwise leaves the list as it is.
   */
  function DropIndex<T>(xs: seq<T>, index: int): (r: seq<T>)
    ensures 0 <= index < |xs| ==> |r| == |xs| - 1
    ensures 0 <= index < |xs| ==> forall i :: 0 <= i < |r| ==> r[i] == (if i < index then xs[i] else xs[i + 1])
    ensures !(0 <= index < |xs|) ==> r == xs
  {
    DropIndexFrom(xs, index, 0)
  }
}
