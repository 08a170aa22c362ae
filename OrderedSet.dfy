/**
 * A `std::set<int>` as its iteration sequence: strictly increasing, each
 * element once. `insert` and `erase` are given by what they leave.
 */
module OrderedSets {
  predicate Increasing(xs: seq<int>)
  {
    forall i, j :: 0 <= i < j < |xs| ==> xs[i] < xs[j]
  }

  /** The tail of an increasing sequence is increasing and lies above its head. */
  lemma Uncons(xs: seq<int>)
    requires Increasing(xs) && xs != []
    ensures xs == [xs[0]] + xs[1..]
    ensures Increasing(xs[1..])
    ensures forall y :: y in xs[1..] ==> xs[0] < y
  {
  }

  /** A value below every element of an increasing sequence can go in front. */
  lemma Cons(a: int, r: seq<int>)
    requires Increasing(r)
    requires forall y :: y in r ==> a < y
    ensures Increasing([a] + r)
  {
    forall i, j | 0 <= i < j < |[a] + r|
      ensures ([a] + r)[i] < ([a] + r)[j]
    {
      assert ([a] + r)[j] == r[j - 1] && r[j - 1] in r;
      if i > 0 {
        assert ([a] + r)[i] == r[i - 1];
      }
    }
  }

  /** `insert(x)`: the same elements plus `x`, still in increasing order. */
  function Insert(xs: seq<int>, x: int): (r: seq<int>)
    requires Increasing(xs)
    ensures Increasing(r)
    ensures forall y :: y in r <==> y in xs || y == x
    ensures x in xs ==> r == xs
    ensures x !in xs ==> |r| == |xs| + 1
  {
    if xs == [] then [x]
    else if x < xs[0] then
      Uncons(xs);
      Cons(x, xs);
      [x] + xs
    else if x == xs[0] then xs
    else
      Uncons(xs);
      var rest := Insert(xs[1..], x);
      Cons(xs[0], rest);
      [xs[0]] + rest
  }

  /** `erase(x)`: the same elements without `x`, still in increasing order. */
  function Remove(xs: seq<int>, x: int): (r: seq<int>)
    requires Increasing(xs)
    ensures Increasing(r)
    ensures forall y :: y in r <==> y in xs && y != x
    ensures x !in xs ==> r == xs
    ensures x in xs ==> |r| == |xs| - 1
  {
    if xs == [] then []
    else if xs[0] == x then
      Uncons(xs);
      xs[1..]
    else
      Uncons(xs);
      var rest := Remove(xs[1..], x);
      Cons(xs[0], rest);
      [xs[0]] + rest
  }

  /** Inserting an absent element and erasing it again gives back the set. */
  lemma {:induction false} RemoveInsert(xs: seq<int>, x: int)
    requires Increasing(xs) && x !in xs
    ensures Remove(Insert(xs, x), x) == xs
  {
    if xs != [] && x > xs[0] {
      assert x !in xs[1..];
      RemoveInsert(xs[1..], x);
      assert xs == [xs[0]] + xs[1..];
    }
  }
}
