/** Folds over lists: sums, filters, `find` and the `indexOf`-based de-duplication used by the scoring engine. */
module Seqs {
  import opened Wrappers

  /** `xs.reduce((sum, x) => sum + x, 0)`: a left fold. */
  function Sum(xs: seq<real>): real
  {
    if xs == [] then 0.0 else Sum(xs[..|xs| - 1]) + xs[|xs| - 1]
  }

  lemma {:induction false} SumAppend(a: seq<real>, b: seq<real>)
    ensures Sum(a + b) == Sum(a) + Sum(b)
  {
    if b == [] {
      assert a + b == a;
    } else {
      var b' := b[..|b| - 1];
      assert (a + b)[..|a + b| - 1] == a + b';
      SumAppend(a, b');
    }
  }

  lemma PrefixSnoc<T>(xs: seq<T>, i: nat)
    requires i < |xs|
    ensures xs[..i + 1] == xs[..i] + [xs[i]]
  {
  }

  lemma SumSingleton(x: real)
    ensures Sum([x]) == x
  {
    assert [x][..0] == [];
  }

  /** Sum of a list whose first element is split off (the fold read from the other end). */
  lemma SumCons(x: real, xs: seq<real>)
    ensures Sum([x] + xs) == x + Sum(xs)
  {
    SumAppend([x], xs);
    SumSingleton(x);
  }

  lemma {:induction false} SumNonNegative(xs: seq<real>)
    requires forall i :: 0 <= i < |xs| ==> xs[i] >= 0.0
    ensures Sum(xs) >= 0.0
  {
    if xs != [] {
      SumNonNegative(xs[..|xs| - 1]);
    }
  }

  /** `xs.filter(p)`: keeps the elements satisfying `p`, in their order. */
  function Filter<T>(xs: seq<T>, p: T -> bool): (r: seq<T>)
    ensures |r| <= |xs|
    ensures forall i :: 0 <= i < |r| ==> r[i] in xs && p(r[i])
    ensures forall i :: 0 <= i < |xs| && p(xs[i]) ==> xs[i] in r
  {
    if xs == [] then []
    else (if p(xs[0]) then [xs[0]] else []) + Filter(xs[1..], p)
  }

  lemma {:induction false} FilterAppend<T>(a: seq<T>, b: seq<T>, p: T -> bool)
    ensures Filter(a + b, p) == Filter(a, p) + Filter(b, p)
  {
    if a == [] {
      assert a + b == b;
    } else {
      assert (a + b)[1..] == a[1..] + b;
      FilterAppend(a[1..], b, p);
    }
  }

  lemma FilterSnoc<T>(a: seq<T>, x: T, p: T -> bool)
    ensures Filter(a + [x], p) == if p(x) then Filter(a, p) + [x] else Filter(a, p)
  {
    FilterAppend(a, [x], p);
    assert Filter([x], p) == (if p(x) then [x] else []) + Filter([x][1..], p);
  }

  /** Filtering by a weaker test first does not change the result of a stronger one. */
  lemma {:induction false} FilterFilter<T>(xs: seq<T>, p: T -> bool, q: T -> bool)
    requires forall x :: q(x) ==> p(x)
    ensures Filter(Filter(xs, p), q) == Filter(xs, q)
  {
    if xs != [] {
      FilterFilter(xs[1..], p, q);
      var head := if p(xs[0]) then [xs[0]] else [];
      FilterAppend(head, Filter(xs[1..], p), q);
      if p(xs[0]) {
        assert Filter(head, q) == (if q(xs[0]) then [xs[0]] else []) + Filter([xs[0]][1..], q);
      }
    }
  }

  /** `xs.find(p)`: the first element satisfying `p`, if any. */
  function Find<T>(xs: seq<T>, p: T -> bool): (r: Option<T>)
    ensures r.Some? ==> r.value in xs && p(r.value)
    ensures r.None? <==> forall i :: 0 <= i < |xs| ==> !p(xs[i])
  {
    if xs == [] then None else if p(xs[0]) then Some(xs[0]) else Find(xs[1..], p)
  }

  /** What `Find` returns comes before every other element satisfying `p`. */
  lemma {:induction false} FindFirst<T>(xs: seq<T>, p: T -> bool)
    requires Find(xs, p).Some?
    ensures exists i :: 0 <= i < |xs| && xs[i] == Find(xs, p).value && forall j :: 0 <= j < i ==> !p(xs[j])
  {
    if !p(xs[0]) {
      FindFirst(xs[1..], p);
      var i :| 0 <= i < |xs[1..]| && xs[1..][i] == Find(xs, p).value && forall j :: 0 <= j < i ==> !p(xs[1..][j]);
      assert xs[i + 1] == Find(xs, p).value;
      forall j | 0 <= j < i + 1 ensures !p(xs[j]) {
        if j > 0 {
          assert xs[j] == xs[1..][j - 1];
        }
      }
    } else {
      assert xs[0] == Find(xs, p).value;
    }
  }

  /** `self.indexOf(x)`: the position of the first occurrence of `x`. */
  function IndexOf<T(==)>(xs: seq<T>, x: T): (i: nat)
    requires x in xs
    ensures i < |xs| && xs[i] == x
    ensures forall j :: 0 <= j < i ==> xs[j] != x
  {
    if xs[0] == x then 0 else 1 + IndexOf(xs[1..], x)
  }

  /** `xs.filter((x, i, self) => self.indexOf(x) === i)`, the elements kept from position `from` on. */
  function KeepFirstFrom<T(==)>(xs: seq<T>, from: nat): seq<T>
    decreases |xs| - from
  {
    if from >= |xs| then []
    else (if IndexOf(xs, xs[from]) == from then [xs[from]] else []) + KeepFirstFrom(xs, from + 1)
  }

  /** The first occurrence of every element, in the order of first occurrence. */
  function KeepFirst<T(==)>(xs: seq<T>): seq<T>
  {
    KeepFirstFrom(xs, 0)
  }

  lemma {:induction false} KeepFirstFromFacts<T>(xs: seq<T>, from: nat)
    ensures forall y :: y in KeepFirstFrom(xs, from) ==> y in xs && from <= IndexOf(xs, y)
    ensures forall k :: from <= k < |xs| && IndexOf(xs, xs[k]) == k ==> xs[k] in KeepFirstFrom(xs, from)
    ensures forall a, b :: 0 <= a < b < |KeepFirstFrom(xs, from)| ==>
              IndexOf(xs, KeepFirstFrom(xs, from)[a]) < IndexOf(xs, KeepFirstFrom(xs, from)[b])
    decreases |xs| - from
  {
    if from < |xs| {
      KeepFirstFromFacts(xs, from + 1);
      var rest := KeepFirstFrom(xs, from + 1);
      if IndexOf(xs, xs[from]) == from {
        var r := KeepFirstFrom(xs, from);
        assert r == [xs[from]] + rest;
        forall a, b | 0 <= a < b < |r|
          ensures IndexOf(xs, r[a]) < IndexOf(xs, r[b])
        {
          if a > 0 {
            assert r[a] == rest[a - 1] && r[b] == rest[b - 1];
          } else {
            assert r[b] == rest[b - 1] && r[b] in rest;
          }
        }
      }
    }
  }

  lemma IndexOfSnoc<T>(xs: seq<T>, x: T, y: T)
    requires y in xs
    ensures IndexOf(xs + [x], y) == IndexOf(xs, y)
  {
    var i, j := IndexOf(xs + [x], y), IndexOf(xs, y);
    assert (xs + [x])[j] == y;
    assert i <= j;
    assert xs[i] == (xs + [x])[i];
  }

  lemma {:induction false} KeepFirstFromSnoc<T>(xs: seq<T>, x: T, from: nat)
    requires from <= |xs|
    ensures KeepFirstFrom(xs + [x], from) == KeepFirstFrom(xs, from) + (if x in xs then [] else [x])
    decreases |xs| - from
  {
    var ys := xs + [x];
    if from == |xs| {
      assert KeepFirstFrom(ys, from + 1) == [];
      if x in xs {
        IndexOfSnoc(xs, x, x);
      } else {
        assert IndexOf(ys, x) == |xs|;
      }
    } else {
      KeepFirstFromSnoc(xs, x, from + 1);
      assert ys[from] == xs[from];
      IndexOfSnoc(xs, x, xs[from]);
    }
  }

  /** De-duplicating one more element appends it exactly when it is new. */
  lemma KeepFirstSnoc<T>(xs: seq<T>, x: T)
    ensures KeepFirst(xs + [x]) == KeepFirst(xs) + (if x in xs then [] else [x])
  {
    KeepFirstFromSnoc(xs, x, 0);
  }

  /** The de-duplicated list holds exactly the elements of the input, each once, in first-occurrence order. */
  lemma KeepFirstSpec<T>(xs: seq<T>)
    ensures forall y :: y in KeepFirst(xs) <==> y in xs
    ensures forall a, b :: 0 <= a < b < |KeepFirst(xs)| ==> KeepFirst(xs)[a] != KeepFirst(xs)[b]
    ensures forall a, b :: 0 <= a < b < |KeepFirst(xs)| ==>
              IndexOf(xs, KeepFirst(xs)[a]) < IndexOf(xs, KeepFirst(xs)[b])
  {
    KeepFirstFromFacts(xs, 0);
    forall y | y in xs ensures y in KeepFirst(xs) {
      var k := IndexOf(xs, y);
      assert IndexOf(xs, xs[k]) == k;
    }
  }
}
