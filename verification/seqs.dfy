/** Sequence operations the components use through JavaScript's array
    methods: `filter`, `reduce` over a selection, `slice(0, n)`, `slice(-n)`
    and `[...new Set(xs)]`, and `find` by id. */
module Seqs {
  import opened Values

  /** `xs.filter(p)`. */
  function Filter<T>(xs: seq<T>, p: T -> bool): (r: seq<T>)
    ensures |r| <= |xs|
    ensures forall x :: x in r ==> x in xs && p(x)
    ensures forall x :: x in xs && p(x) ==> x in r
  {
    if |xs| == 0 then [] else (if p(xs[0]) then [xs[0]] else []) + Filter(xs[1..], p)
  }

  /** A filter every element passes keeps the list whole. */
  lemma {:induction false} FilterKeepsAll<T>(xs: seq<T>, p: T -> bool)
    requires forall x :: x in xs ==> p(x)
    ensures Filter(xs, p) == xs
  {
    if |xs| > 0 {
      assert xs[0] in xs;
      assert forall x :: x in xs[1..] ==> x in xs;
      FilterKeepsAll(xs[1..], p);
      assert xs == [xs[0]] + xs[1..];
    }
  }

  /** The sum of `f` over the elements of `xs` that satisfy `p`:
      `xs.filter(p).reduce((sum, x) => sum + f(x), 0)`. */
  function SumWhere<T>(xs: seq<T>, p: T -> bool, f: T -> real): real
  {
    if |xs| == 0 then 0.0 else (if p(xs[0]) then f(xs[0]) else 0.0) + SumWhere(xs[1..], p, f)
  }

  /** `xs.map(f)`. */
  function Map<A, B>(xs: seq<A>, f: A -> B): (r: seq<B>)
    ensures |r| == |xs|
    ensures forall i :: 0 <= i < |xs| ==> r[i] == f(xs[i])
  {
    if |xs| == 0 then [] else [f(xs[0])] + Map(xs[1..], f)
  }

  lemma MapMembership<A, B>(xs: seq<A>, f: A -> B)
    ensures forall x :: x in xs ==> f(x) in Map(xs, f)
    ensures forall y :: y in Map(xs, f) ==> exists x :: x in xs && f(x) == y
  {
    var r := Map(xs, f);
    forall x | x in xs ensures f(x) in r {
      var i :| 0 <= i < |xs| && xs[i] == x;
      assert r[i] == f(x);
    }
    forall y | y in r ensures exists x :: x in xs && f(x) == y {
      var i :| 0 <= i < |r| && r[i] == y;
      assert xs[i] in xs;
    }
  }

  /** `xs.slice(0, n)`. */
  function Take<T>(xs: seq<T>, n: nat): (r: seq<T>)
    ensures |r| <= n && |r| <= |xs|
    ensures |r| == if |xs| <= n then |xs| else n
    ensures r == xs[..|r|]
  {
    if |xs| <= n then xs else xs[..n]
  }

  /** `xs.slice(-n)` for n > 0: the last n elements, or all of them. */
  function TakeLast<T>(xs: seq<T>, n: nat): (r: seq<T>)
    ensures |r| <= n && |r| <= |xs|
    ensures |r| == if |xs| <= n then |xs| else n
    ensures r == xs[|xs| - |r|..]
  {
    if |xs| <= n then xs else xs[|xs| - n..]
  }

  predicate NoDups<T(==)>(xs: seq<T>)
  {
    forall i, j :: 0 <= i < j < |xs| ==> xs[i] != xs[j]
  }

  /** `[...new Set(xs)]`: the distinct elements in order of first occurrence. */
  function Dedupe<T(==)>(xs: seq<T>): (r: seq<T>)
    ensures NoDups(r)
    ensures forall x :: x in r ==> x in xs
    ensures forall x :: x in xs ==> x in r
  {
    if |xs| == 0 then []
    else
      var d := Dedupe(xs[..|xs| - 1]);
      assert xs == xs[..|xs| - 1] + [xs[|xs| - 1]];
      if xs[|xs| - 1] in d then d else d + [xs[|xs| - 1]]
  }

  lemma {:induction false} FilterAppend<T>(a: seq<T>, b: seq<T>, p: T -> bool)
    ensures Filter(a + b, p) == Filter(a, p) + Filter(b, p)
  {
    if |a| == 0 {
      assert a + b == b;
    } else {
      assert (a + b)[0] == a[0];
      assert (a + b)[1..] == a[1..] + b;
      FilterAppend(a[1..], b, p);
      var head := if p(a[0]) then [a[0]] else [];
      assert Filter(a + b, p) == head + Filter(a[1..] + b, p);
      assert Filter(a, p) == head + Filter(a[1..], p);
    }
  }

  /** Filtering twice is filtering once by the conjunction. */
  lemma {:induction false} FilterFilter<T>(xs: seq<T>, p: T -> bool, q: T -> bool, both: T -> bool)
    requires forall x :: both(x) <==> p(x) && q(x)
    ensures Filter(Filter(xs, q), p) == Filter(xs, both)
  {
    if |xs| > 0 {
      FilterFilter(xs[1..], p, q, both);
      var head := if q(xs[0]) then [xs[0]] else [];
      FilterAppend(head, Filter(xs[1..], q), p);
    }
  }

  /** Filters by pointwise-equivalent predicates agree. */
  lemma {:induction false} FilterSame<T>(xs: seq<T>, p: T -> bool, q: T -> bool)
    requires forall x :: p(x) <==> q(x)
    ensures Filter(xs, p) == Filter(xs, q)
  {
    if |xs| > 0 {
      FilterSame(xs[1..], p, q);
    }
  }

  /** Summing over a filtered list is summing over the list with the filter as
      the selection (any `q` that the kept elements meet selects them all). */
  lemma {:induction false} SumOfFilter<T>(xs: seq<T>, p: T -> bool, q: T -> bool, f: T -> real)
    requires forall x :: p(x) ==> q(x)
    ensures SumWhere(Filter(xs, p), q, f) == SumWhere(xs, p, f)
  {
    if |xs| > 0 {
      SumOfFilter(xs[1..], p, q, f);
      var head := if p(xs[0]) then [xs[0]] else [];
      SumWhereAppend(head, Filter(xs[1..], p), q, f);
    }
  }

  /** Summing a selection of a filtered list is summing the conjunction. */
  lemma {:induction false} SumWhereOfFilter<T>(xs: seq<T>, p: T -> bool, q: T -> bool, both: T -> bool, f: T -> real)
    requires forall x :: both(x) <==> p(x) && q(x)
    ensures SumWhere(Filter(xs, p), q, f) == SumWhere(xs, both, f)
  {
    if |xs| > 0 {
      SumWhereOfFilter(xs[1..], p, q, both, f);
      var head := if p(xs[0]) then [xs[0]] else [];
      SumWhereAppend(head, Filter(xs[1..], p), q, f);
    }
  }

  lemma {:induction false} SumWhereAppend<T>(a: seq<T>, b: seq<T>, p: T -> bool, f: T -> real)
    ensures SumWhere(a + b, p, f) == SumWhere(a, p, f) + SumWhere(b, p, f)
  {
    if |a| == 0 {
      assert a + b == b;
    } else {
      assert (a + b)[0] == a[0];
      assert (a + b)[1..] == a[1..] + b;
      SumWhereAppend(a[1..], b, p, f);
      assert SumWhere(a + b, p, f) == (if p(a[0]) then f(a[0]) else 0.0) + SumWhere(a[1..] + b, p, f);
    }
  }

  /** A selection that picks nothing sums to zero. */
  lemma {:induction false} SumWhereNone<T>(xs: seq<T>, p: T -> bool, f: T -> real)
    requires forall x :: x in xs ==> !p(x)
    ensures SumWhere(xs, p, f) == 0.0
  {
    if |xs| > 0 {
      assert xs[0] in xs;
      assert forall x :: x in xs[1..] ==> x in xs;
      SumWhereNone(xs[1..], p, f);
    }
  }

  /** Selections by pointwise-equivalent predicates and summands agree. */
  lemma {:induction false} SumWhereSame<T>(xs: seq<T>, p: T -> bool, q: T -> bool, f: T -> real, g: T -> real)
    requires forall x :: x in xs ==> (p(x) <==> q(x))
    requires forall x :: x in xs && p(x) ==> f(x) == g(x)
    ensures SumWhere(xs, p, f) == SumWhere(xs, q, g)
  {
    if |xs| > 0 {
      assert xs[0] in xs;
      assert forall x :: x in xs[1..] ==> x in xs;
      SumWhereSame(xs[1..], p, q, f, g);
    }
  }

  /** Two disjoint selections that together cover `either` add up to it. */
  lemma {:induction false} SumWhereSplit<T>(xs: seq<T>, p: T -> bool, q: T -> bool, either: T -> bool, f: T -> real)
    requires forall x :: !(p(x) && q(x))
    requires forall x :: either(x) <==> p(x) || q(x)
    ensures SumWhere(xs, p, f) + SumWhere(xs, q, f) == SumWhere(xs, either, f)
  {
    if |xs| > 0 {
      SumWhereSplit(xs[1..], p, q, either, f);
    }
  }

  /** Removing the element at `i` removes its share of the sum. */
  lemma SumWhereRemove<T>(xs: seq<T>, i: nat, p: T -> bool, f: T -> real)
    requires i < |xs|
    ensures SumWhere(xs, p, f)
         == (if p(xs[i]) then f(xs[i]) else 0.0) + SumWhere(xs[..i] + xs[i + 1..], p, f)
  {
    assert xs == xs[..i] + [xs[i]] + xs[i + 1..];
    SumWhereAppend(xs[..i] + [xs[i]], xs[i + 1..], p, f);
    SumWhereAppend(xs[..i], [xs[i]], p, f);
    SumWhereAppend(xs[..i], xs[i + 1..], p, f);
  }

  /** Removing matching elements from two permutations of each other leaves
      permutations of each other. */
  lemma PermutationRest<T>(xs: seq<T>, ys: seq<T>, i: nat)
    requires |xs| > 0 && i < |ys| && ys[i] == xs[0]
    requires multiset(xs) == multiset(ys)
    ensures multiset(xs[1..]) == multiset(ys[..i] + ys[i + 1..])
  {
    assert xs == [xs[0]] + xs[1..];
    assert ys == ys[..i] + [ys[i]] + ys[i + 1..];
    var rest := ys[..i] + ys[i + 1..];
    assert multiset(ys) == multiset(ys[..i]) + multiset{ys[i]} + multiset(ys[i + 1..]);
    assert multiset(rest) == multiset(ys[..i]) + multiset(ys[i + 1..]);
    assert multiset(xs) == multiset{xs[0]} + multiset(xs[1..]);
    assert multiset(xs[1..]) == multiset(xs) - multiset{xs[0]};
    assert multiset(rest) == multiset(ys) - multiset{ys[i]};
  }

  /** A sum over a selection does not depend on the order of the list. */
  lemma {:induction false} SumWherePermutation<T>(xs: seq<T>, ys: seq<T>, p: T -> bool, f: T -> real)
    requires multiset(xs) == multiset(ys)
    ensures SumWhere(xs, p, f) == SumWhere(ys, p, f)
    decreases |xs|
  {
    if |xs| == 0 {
      assert |ys| == |multiset(ys)| == 0;
    } else {
      assert xs[0] in multiset(ys);
      var i :| 0 <= i < |ys| && ys[i] == xs[0];
      PermutationRest(xs, ys, i);
      SumWherePermutation(xs[1..], ys[..i] + ys[i + 1..], p, f);
      SumWhereRemove(ys, i, p, f);
    }
  }

  /** The number of elements that satisfy `p`, as a reference for `|Filter|`. */
  function CountWhere<T>(xs: seq<T>, p: T -> bool): nat
  {
    if |xs| == 0 then 0 else (if p(xs[0]) then 1 else 0) + CountWhere(xs[1..], p)
  }

  lemma {:induction false} FilterLength<T>(xs: seq<T>, p: T -> bool)
    ensures |Filter(xs, p)| == CountWhere(xs, p)
  {
    if |xs| > 0 {
      FilterLength(xs[1..], p);
    }
  }

  /** No element satisfies `p`, so none is counted. */
  lemma {:induction false} CountWhereNone<T>(xs: seq<T>, p: T -> bool)
    requires forall x :: x in xs ==> !p(x)
    ensures CountWhere(xs, p) == 0
  {
    if |xs| > 0 {
      assert xs[0] in xs;
      assert forall x :: x in xs[1..] ==> x in xs;
      CountWhereNone(xs[1..], p);
    }
  }

  lemma {:induction false} CountWherePermutation<T>(xs: seq<T>, ys: seq<T>, p: T -> bool)
    requires multiset(xs) == multiset(ys)
    ensures CountWhere(xs, p) == CountWhere(ys, p)
    decreases |xs|
  {
    if |xs| == 0 {
      assert |ys| == |multiset(ys)| == 0;
    } else {
      assert xs[0] in multiset(ys);
      var i :| 0 <= i < |ys| && ys[i] == xs[0];
      PermutationRest(xs, ys, i);
      CountWherePermutation(xs[1..], ys[..i] + ys[i + 1..], p);
      assert ys == ys[..i] + ([ys[i]] + ys[i + 1..]);
      CountWhereAppend(ys[..i], [ys[i]] + ys[i + 1..], p);
      CountWhereAppend([ys[i]], ys[i + 1..], p);
      CountWhereAppend(ys[..i], ys[i + 1..], p);
    }
  }

  lemma {:induction false} CountWhereAppend<T>(a: seq<T>, b: seq<T>, p: T -> bool)
    ensures CountWhere(a + b, p) == CountWhere(a, p) + CountWhere(b, p)
  {
    if |a| == 0 {
      assert a + b == b;
    } else {
      assert (a + b)[0] == a[0];
      assert (a + b)[1..] == a[1..] + b;
      CountWhereAppend(a[1..], b, p);
      assert CountWhere(a + b, p) == (if p(a[0]) then 1 else 0) + CountWhere(a[1..] + b, p);
    }
  }

  /** `xs.find(x => x.id === id)`, with `idOf` reading the id. */
  function FindById<T>(xs: seq<T>, idOf: T -> string, id: Option<string>): (r: Option<T>)
    ensures r.Some? ==> r.value in xs && Some(idOf(r.value)) == id
    ensures r.None? <==> forall x :: x in xs ==> Some(idOf(x)) != id
  {
    if |xs| == 0 then None
    else if Some(idOf(xs[0])) == id then Some(xs[0])
    else
      assert forall x :: x in xs ==> x == xs[0] || x in xs[1..];
      FindById(xs[1..], idOf, id)
  }

  /** `find` returns the first element carrying the id, whatever follows. */
  lemma {:induction false} FindByIdFirst<T>(xs: seq<T>, idOf: T -> string, id: Option<string>, i: nat)
    requires i < |xs| && Some(idOf(xs[i])) == id
    requires forall j :: 0 <= j < i ==> Some(idOf(xs[j])) != id
    ensures FindById(xs, idOf, id) == Some(xs[i])
  {
    if i > 0 {
      FindByIdFirst(xs[1..], idOf, id, i - 1);
    }
  }
}
