/** Strings in code-point order, and sorted listings of sets of strings. */
module Strings {
  import opened Sorting

  predicate StrLeq(a: string, b: string) {
    if a == [] then true
    else if b == [] then false
    else a[0] < b[0] || (a[0] == b[0] && StrLeq(a[1..], b[1..]))
  }

  lemma {:induction false} StrTotal(a: string, b: string)
    ensures StrLeq(a, b) || StrLeq(b, a)
  {
    if a != [] && b != [] {
      StrTotal(a[1..], b[1..]);
    }
  }

  lemma {:induction false} StrTransitive(a: string, b: string, c: string)
    requires StrLeq(a, b) && StrLeq(b, c)
    ensures StrLeq(a, c)
  {
    if a != [] && b != [] && c != [] && a[0] == b[0] == c[0] {
      StrTransitive(a[1..], b[1..], c[1..]);
    }
  }

  lemma {:induction false} StrAntisymmetric(a: string, b: string)
    requires StrLeq(a, b) && StrLeq(b, a)
    ensures a == b
  {
    if a != [] && b != [] {
      StrAntisymmetric(a[1..], b[1..]);
      assert a == [a[0]] + a[1..] && b == [b[0]] + b[1..];
    }
  }

  lemma StringOrder()
    ensures TotalOrder(StrLeq)
  {
    forall a, b
      ensures StrLeq(a, b) || StrLeq(b, a)
    {
      StrTotal(a, b);
    }
    forall a, b, c | StrLeq(a, b) && StrLeq(b, c)
      ensures StrLeq(a, c)
    {
      StrTransitive(a, b, c);
    }
    forall a, b | StrLeq(a, b) && StrLeq(b, a)
      ensures a == b
    {
      StrAntisymmetric(a, b);
    }
  }

  predicate Distinct<T(==)>(xs: seq<T>) {
    forall i, j | 0 <= i < j < |xs| :: xs[i] != xs[j]
  }

  predicate IsLeast(m: string, s: set<string>) {
    m in s && forall y | y in s :: StrLeq(m, y)
  }

  lemma {:induction false} LeastExists(s: set<string>)
    requires s != {}
    ensures exists m :: IsLeast(m, s)
    decreases |s|
  {
    hide StrLeq;
    var x :| x in s;
    var rest := s - {x};
    StrTotal(x, x);
    if rest == {} {
      assert s == rest + {x};
      assert IsLeast(x, s);
    } else {
      LeastExists(rest);
      var m :| IsLeast(m, rest);
      StrTotal(m, x);
      if StrLeq(m, x) {
        assert IsLeast(m, s);
      } else {
        forall y | y in rest
          ensures StrLeq(x, y)
        {
          StrTransitive(x, m, y);
        }
        assert forall y | y in s :: y == x || y in rest;
        assert IsLeast(x, s);
      }
    }
  }

  lemma LeastUnique(s: set<string>)
    ensures forall a, b | IsLeast(a, s) && IsLeast(b, s) :: a == b
  {
    hide StrLeq;
    forall a, b | IsLeast(a, s) && IsLeast(b, s)
      ensures a == b
    {
      StrAntisymmetric(a, b);
    }
  }

  function Least(s: set<string>): (m: string)
    requires s != {}
    ensures IsLeast(m, s)
  {
    LeastExists(s);
    LeastUnique(s);
    var m :| IsLeast(m, s);
    m
  }

  /** `sorted(s)` for a set. */
  function SortedListing(s: set<string>): (r: seq<string>)
    ensures |r| == |s| && forall x :: x in r <==> x in s
    decreases |s|
  {
    if s == {} then [] else [Least(s)] + SortedListing(s - {Least(s)})
  }

  /** A listing is sorted, and sorting it again changes nothing. */
  lemma {:induction false} ListingSorted(s: set<string>)
    ensures Sorted(SortedListing(s), StrLeq) && Distinct(SortedListing(s))
    decreases |s|
  {
    if s != {} {
      var m, rest := Least(s), SortedListing(s - {Least(s)});
      ListingSorted(s - {m});
      assert SortedListing(s) == [m] + rest;
      hide StrLeq, Least, SortedListing;
      ConsSorted(m, rest);
    }
  }

  lemma ConsSorted(m: string, rest: seq<string>)
    requires Sorted(rest, StrLeq) && Distinct(rest)
    requires forall x | x in rest :: StrLeq(m, x) && x != m
    ensures Sorted([m] + rest, StrLeq) && Distinct([m] + rest)
  {
    hide StrLeq;
  }

  lemma SortOfSorted<T(!new)>(xs: seq<T>, leq: (T, T) -> bool)
    requires TotalOrder(leq) && Sorted(xs, leq)
    ensures Sort(xs, leq) == xs
  {
    SortPermutes(xs, leq);
    SortSorts(xs, leq);
    SortedUnique(Sort(xs, leq), xs, leq);
  }
}
