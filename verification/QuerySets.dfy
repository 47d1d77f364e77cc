/** The two query steps the views use, written out over keys: `filter`
    (every key below a bound that satisfies a condition, ascending) and
    `order_by` (a sort on a natural-number key). */
module QuerySets {

  /** No key occurs twice. */
  ghost predicate Distinct(xs: seq<nat>) {
    forall x :: multiset(xs)[x] <= 1
  }

  predicate SortedBy(xs: seq<nat>, key: nat -> nat) {
    forall i, j :: 0 <= i < j < |xs| ==> key(xs[i]) <= key(xs[j])
  }

  /** `filter`: the keys below `bound` that satisfy `cond`, each once. */
  function Where(bound: nat, cond: nat -> bool): (r: seq<nat>)
    ensures forall x: nat :: x in r <==> x < bound && cond(x)
    ensures Distinct(r)
  {
    if bound == 0 then []
    else
      var prev := Where(bound - 1, cond);
      if cond(bound - 1) then prev + [bound - 1] else prev
  }

  /** The head of a sorted sequence has the least key. */
  lemma SortedHeadLeast(xs: seq<nat>, key: nat -> nat)
    requires SortedBy(xs, key) && xs != []
    ensures forall y :: y in xs ==> key(xs[0]) <= key(y)
  {
  }

  /** A key no larger than every key of a sorted sequence may go in front. */
  lemma SortedCons(h: nat, t: seq<nat>, key: nat -> nat)
    requires SortedBy(t, key)
    requires forall y :: y in t ==> key(h) <= key(y)
    ensures SortedBy([h] + t, key)
  {
  }

  /** A head whose key is below `x` stays in front of a sorted result that
      holds the old tail and `x`. */
  lemma SortedAfterHead(xs: seq<nat>, x: nat, rest: seq<nat>, key: nat -> nat)
    requires SortedBy(xs, key) && xs != [] && key(xs[0]) < key(x)
    requires SortedBy(rest, key) && multiset(rest) == multiset(xs[1..]) + multiset{x}
    ensures SortedBy([xs[0]] + rest, key)
  {
    assert xs == [xs[0]] + xs[1..];
    SortedHeadLeast(xs, key);
    forall y | y in rest
      ensures key(xs[0]) <= key(y)
    {
      assert y in multiset(rest);
      if y != x {
        assert y in multiset(xs[1..]);
        assert y in xs;
      }
    }
    SortedCons(xs[0], rest, key);
  }

  function Insert(x: nat, xs: seq<nat>, key: nat -> nat): (r: seq<nat>)
    requires SortedBy(xs, key)
    ensures SortedBy(r, key)
    ensures multiset(r) == multiset(xs) + multiset{x}
  {
    if xs == [] then [x]
    else if key(x) <= key(xs[0]) then
      SortedHeadLeast(xs, key);
      SortedCons(x, xs, key);
      [x] + xs
    else
      var rest := Insert(x, xs[1..], key);
      assert xs == [xs[0]] + xs[1..];
      SortedAfterHead(xs, x, rest, key);
      [xs[0]] + rest
  }

  /** `order_by`: the same keys, ascending by `key`. */
  function OrderBy(xs: seq<nat>, key: nat -> nat): (r: seq<nat>)
    ensures SortedBy(r, key)
    ensures multiset(r) == multiset(xs)
  {
    if xs == [] then []
    else
      assert xs == [xs[0]] + xs[1..];
      Insert(xs[0], OrderBy(xs[1..], key), key)
  }

  /** `filter` followed by `order_by`: exactly the keys below `bound` that
      satisfy `cond`, each once, ascending by `key`. */
  lemma WhereOrderBy(bound: nat, cond: nat -> bool, key: nat -> nat)
    ensures var r := OrderBy(Where(bound, cond), key);
            && (forall x: nat :: x in r <==> x < bound && cond(x))
            && Distinct(r)
            && SortedBy(r, key)
  {
    var w := Where(bound, cond);
    var r := OrderBy(w, key);
    forall x: nat ensures x in r <==> x in w {
      assert x in r <==> x in multiset(r);
      assert x in w <==> x in multiset(w);
    }
  }
}
