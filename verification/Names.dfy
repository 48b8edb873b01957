/** Ordered lists of names.  `sort.Strings` orders by code unit; here it is an
    insertion sort over the same order, and what its callers rely on — that a
    sorted list is determined by its contents — is proved below. */
module Names {
  /** A name is kept whole: lists of names are not lists of lists. */
  datatype Name = Name(text: string)

  predicate Before(a: string, b: string) {
    |a| == 0 || (|b| > 0 && (a[0] < b[0] || (a[0] == b[0] && Before(a[1..], b[1..]))))
  }

  predicate Le(a: Name, b: Name) {
    Before(a.text, b.text)
  }

  lemma {:induction false} BeforeTotal(a: string, b: string)
    ensures Before(a, b) || Before(b, a)
  {
    if |a| > 0 && |b| > 0 && a[0] == b[0] { BeforeTotal(a[1..], b[1..]); }
  }

  lemma {:induction false} BeforeAntisymmetric(a: string, b: string)
    requires Before(a, b) && Before(b, a)
    ensures a == b
  {
    if |a| > 0 {
      BeforeAntisymmetric(a[1..], b[1..]);
      assert a == [a[0]] + a[1..] && b == [b[0]] + b[1..];
    }
  }

  lemma {:induction false} BeforeTransitive(a: string, b: string, c: string)
    requires Before(a, b) && Before(b, c)
    ensures Before(a, c)
  {
    if |a| > 0 && a[0] == b[0] && b[0] == c[0] { BeforeTransitive(a[1..], b[1..], c[1..]); }
  }

  /** The order is the dictionary's: one is a prefix of the other, or at the first
      difference has the smaller character. */
  lemma {:induction false} BeforeMeans(a: string, b: string)
    ensures Before(a, b) <==>
      exists k: nat :: k <= |a| && k <= |b| && a[..k] == b[..k] && (k == |a| || (k < |b| && a[k] < b[k]))
  {
    forall k: nat | 0 < k <= |a| && k <= |b| && a[..k] == b[..k] ensures a[0] == b[0] {
      assert a[0] == a[..k][0] && b[0] == b[..k][0];
    }
    if |a| == 0 {
      assert a[..0] == b[..0];
    } else if |b| > 0 && a[0] == b[0] {
      BeforeMeans(a[1..], b[1..]);
      if Before(a, b) {
        var k: nat :| k <= |a| - 1 && k <= |b| - 1 && a[1..][..k] == b[1..][..k] && (k == |a| - 1 || (k < |b| - 1 && a[1..][k] < b[1..][k]));
        assert a[..k + 1] == [a[0]] + a[1..][..k] && b[..k + 1] == [b[0]] + b[1..][..k];
      }
      forall k: nat | k <= |a| && k <= |b| && a[..k] == b[..k] && (k == |a| || (k < |b| && a[k] < b[k])) ensures Before(a, b) {
        assert k > 0;
        assert a[1..][..k - 1] == a[..k][1..] && b[1..][..k - 1] == b[..k][1..];
      }
    } else {
      assert a[..0] == b[..0];
    }
  }

  lemma LeTotal(a: Name, b: Name)
    ensures Le(a, b) || Le(b, a)
  {
    BeforeTotal(a.text, b.text);
  }

  lemma LeAntisymmetric(a: Name, b: Name)
    requires Le(a, b) && Le(b, a)
    ensures a == b
  {
    BeforeAntisymmetric(a.text, b.text);
  }

  lemma LeTransitive(a: Name, b: Name, c: Name)
    requires Le(a, b) && Le(b, c)
    ensures Le(a, c)
  {
    BeforeTransitive(a.text, b.text, c.text);
  }

  predicate Sorted(xs: seq<Name>) {
    forall i, j :: 0 <= i < j < |xs| ==> Le(xs[i], xs[j])
  }

  predicate Distinct<T(==)>(xs: seq<T>) {
    forall i, j :: 0 <= i < j < |xs| ==> xs[i] != xs[j]
  }

  ghost function Elements<T>(xs: seq<T>): set<T> {
    set x | x in xs
  }

  function Insert(x: Name, xs: seq<Name>): (r: seq<Name>)
    ensures multiset(r) == multiset(xs) + multiset{x}
  {
    if |xs| == 0 then [x]
    else if Le(x, xs[0]) then [x] + xs
    else
      assert xs == [xs[0]] + xs[1..];
      [xs[0]] + Insert(x, xs[1..])
  }

  function Sort(xs: seq<Name>): (r: seq<Name>)
    ensures multiset(r) == multiset(xs)
  {
    if |xs| == 0 then [] else
      assert xs == [xs[0]] + xs[1..];
      Insert(xs[0], Sort(xs[1..]))
  }

  /** Nothing in the list is smaller. */
  predicate Least(x: Name, xs: seq<Name>) {
    forall j :: 0 <= j < |xs| ==> Le(x, xs[j])
  }

  lemma SortedCons(x: Name, xs: seq<Name>)
    requires Sorted(xs) && Least(x, xs)
    ensures Sorted([x] + xs)
  {
  }

  lemma SortedHead(x: Name, xs: seq<Name>)
    requires Sorted(xs) && |xs| > 0 && Le(x, xs[0])
    ensures Least(x, xs)
  {
    forall j | 0 < j < |xs| ensures Le(x, xs[j]) { LeTransitive(x, xs[0], xs[j]); }
  }

  lemma LeastOfInsert(y: Name, x: Name, xs: seq<Name>)
    requires Least(y, xs) && Le(y, x)
    ensures Least(y, Insert(x, xs))
  {
    var r := Insert(x, xs);
    forall j | 0 <= j < |r| ensures Le(y, r[j]) {
      assert r[j] in multiset(r);
      assert r[j] == x || r[j] in xs;
    }
  }

  lemma {:induction false} InsertSorted(x: Name, xs: seq<Name>)
    requires Sorted(xs)
    ensures Sorted(Insert(x, xs))
  {
    if |xs| > 0 {
      if Le(x, xs[0]) {
        SortedHead(x, xs);
        SortedCons(x, xs);
      } else {
        LeTotal(x, xs[0]);
        InsertSorted(x, xs[1..]);
        LeastOfInsert(xs[0], x, xs[1..]);
        SortedCons(xs[0], Insert(x, xs[1..]));
      }
    }
  }

  lemma {:induction false} SortSorted(xs: seq<Name>)
    ensures Sorted(Sort(xs))
  {
    if |xs| > 0 {
      SortSorted(xs[1..]);
      InsertSorted(xs[0], Sort(xs[1..]));
    }
  }

  lemma SortKeeps(xs: seq<Name>)
    ensures Sorted(Sort(xs)) && |Sort(xs)| == |xs|
    ensures Elements(Sort(xs)) == Elements(xs)
    ensures forall x :: x in Sort(xs) <==> x in xs
    ensures Distinct(xs) ==> Distinct(Sort(xs))
  {
    var r := Sort(xs);
    SortSorted(xs);
    assert |multiset(r)| == |multiset(xs)|;
    forall x ensures x in r <==> x in xs {
      assert x in r <==> x in multiset(r);
      assert x in xs <==> x in multiset(xs);
    }
    if Distinct(xs) {
      DistinctCount(xs);
      CountDistinct(r);
    }
  }

  lemma {:induction false} DistinctCount<T>(xs: seq<T>)
    requires Distinct(xs)
    ensures forall x :: multiset(xs)[x] <= 1
  {
    if |xs| > 0 {
      DistinctCount(xs[1..]);
      assert xs == [xs[0]] + xs[1..];
    }
  }

  lemma {:induction false} CountDistinct<T>(xs: seq<T>)
    requires forall x :: multiset(xs)[x] <= 1
    ensures Distinct(xs)
  {
    forall i, j | 0 <= i < j < |xs| ensures xs[i] != xs[j] {
      assert xs == xs[..j] + [xs[j]] + xs[j + 1..];
      assert multiset(xs)[xs[j]] == multiset(xs[..j])[xs[j]] + 1 + multiset(xs[j + 1..])[xs[j]];
      assert xs[..j][i] in multiset(xs[..j]);
    }
  }

  /** A distinct list has as many entries as elements. */
  lemma {:induction false} DistinctSize<T>(xs: seq<T>)
    requires Distinct(xs)
    ensures |Elements(xs)| == |xs|
  {
    if |xs| > 0 {
      DistinctSize(xs[1..]);
      assert Elements(xs) == {xs[0]} + Elements(xs[1..]);
    }
  }

  lemma TailElements<T>(xs: seq<T>)
    requires Distinct(xs) && |xs| > 0
    ensures Elements(xs[1..]) == Elements(xs) - {xs[0]}
  {
    assert xs == [xs[0]] + xs[1..];
  }

  lemma SameHead(xs: seq<Name>, ys: seq<Name>)
    requires Sorted(xs) && Sorted(ys) && |xs| > 0 && |ys| > 0 && Elements(xs) == Elements(ys)
    ensures xs[0] == ys[0]
  {
    assert xs[0] in Elements(xs) && ys[0] in Elements(ys);
    var i :| 0 <= i < |ys| && ys[i] == xs[0];
    var j :| 0 <= j < |xs| && xs[j] == ys[0];
    if i > 0 && j > 0 { LeAntisymmetric(xs[0], ys[0]); }
  }

  /** Two sorted distinct lists with the same elements are the same list:
      whatever order the elements were met in, the sorted list is one. */
  lemma {:induction false} SortedIsUnique(xs: seq<Name>, ys: seq<Name>)
    requires Sorted(xs) && Sorted(ys) && Distinct(xs) && Distinct(ys)
    requires Elements(xs) == Elements(ys)
    ensures xs == ys
  {
    DistinctSize(xs);
    DistinctSize(ys);
    if |xs| > 0 {
      SameHead(xs, ys);
      TailElements(xs);
      TailElements(ys);
      SortedIsUnique(xs[1..], ys[1..]);
      assert xs == [xs[0]] + xs[1..] && ys == [ys[0]] + ys[1..];
    }
  }
}
