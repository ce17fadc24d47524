/** The order of gateways in every list the controller hands out: the configured default first,
    the others by id (the comparison functions in control/gateway.go). */
module Ranking {
  import opened Text

  predicate Before(first: string, a: string, b: string) {
    if (a == first) != (b == first) then a == first else StringLess(a, b)
  }

  lemma BeforeTotal(first: string, a: string, b: string)
    ensures a == b || Before(first, a, b) || Before(first, b, a)
    ensures !Before(first, a, a)
  {
    StringLessTotal(a, b);
    StringLessIrreflexive(a);
  }

  lemma BeforeTransitive(first: string, a: string, b: string, c: string)
    requires Before(first, a, b) && Before(first, b, c)
    ensures Before(first, a, c)
  {
    if (a == first) == (b == first) && (b == first) == (c == first) { StringLessTransitive(a, b, c); }
    StringLessIrreflexive(a);
    StringLessIrreflexive(c);
  }

  /** Strictly increasing: in order, and no id twice. */
  ghost predicate Ranked(first: string, ids: seq<string>) {
    forall i, j :: 0 <= i < j < |ids| ==> Before(first, ids[i], ids[j])
  }

  function Ids<T>(id: T -> string, xs: seq<T>): (r: seq<string>)
    ensures |r| == |xs| && forall i :: 0 <= i < |xs| ==> r[i] == id(xs[i])
  {
    seq(|xs|, i requires 0 <= i < |xs| => id(xs[i]))
  }

  function Insert<T>(first: string, id: T -> string, xs: seq<T>, x: T): (r: seq<T>)
    ensures multiset(r) == multiset(xs) + multiset{x}
  {
    if xs == [] || Before(first, id(x), id(xs[0])) then [x] + xs
    else
      assert xs == [xs[0]] + xs[1..];
      [xs[0]] + Insert(first, id, xs[1..], x)
  }

  /** The list in order; equal ids may come out in any order, so their relative order means nothing. */
  function Sort<T>(first: string, id: T -> string, xs: seq<T>): (r: seq<T>)
    ensures multiset(r) == multiset(xs)
  {
    if xs == [] then []
    else
      var n := |xs| - 1;
      assert xs == xs[..n] + [xs[n]];
      Insert(first, id, Sort(first, id, xs[..n]), xs[n])
  }

  lemma InsertMember<T>(first: string, id: T -> string, xs: seq<T>, x: T, y: T)
    ensures y in Insert(first, id, xs, x) <==> y in xs || y == x
  {
    assert y in Insert(first, id, xs, x) <==> y in multiset(Insert(first, id, xs, x));
    assert y in xs <==> y in multiset(xs);
  }

  lemma SortMember<T>(first: string, id: T -> string, xs: seq<T>, y: T)
    ensures y in Sort(first, id, xs) <==> y in xs
  {
    assert y in Sort(first, id, xs) <==> y in multiset(Sort(first, id, xs));
    assert y in xs <==> y in multiset(xs);
  }

  lemma {:induction false} InsertRanked<T>(first: string, id: T -> string, xs: seq<T>, x: T)
    requires Ranked(first, Ids(id, xs)) && forall y :: y in xs ==> id(y) != id(x)
    ensures Ranked(first, Ids(id, Insert(first, id, xs, x)))
  {
    var r := Insert(first, id, xs, x);
    if xs == [] {
    } else if Before(first, id(x), id(xs[0])) {
      forall y | y in xs ensures Before(first, id(x), id(y)) {
        var j :| 0 <= j < |xs| && xs[j] == y;
        if j > 0 {
          assert Before(first, Ids(id, xs)[0], Ids(id, xs)[j]);
          BeforeTransitive(first, id(x), id(xs[0]), id(y));
        }
      }
      RankedCons(first, id, x, xs);
    } else {
      RankedTail(first, id, xs);
      InsertRanked(first, id, xs[1..], x);
      BeforeTotal(first, id(x), id(xs[0]));
      assert xs[0] in xs;
      forall y | y in Insert(first, id, xs[1..], x) ensures Before(first, id(xs[0]), id(y)) {
        InsertMember(first, id, xs[1..], x, y);
        if y in xs[1..] {
          var j :| 0 <= j < |xs[1..]| && xs[1..][j] == y;
          assert Before(first, Ids(id, xs)[0], Ids(id, xs)[j + 1]);
        }
      }
      RankedCons(first, id, xs[0], Insert(first, id, xs[1..], x));
    }
  }

  lemma RankedCons<T>(first: string, id: T -> string, x: T, xs: seq<T>)
    requires Ranked(first, Ids(id, xs)) && forall y :: y in xs ==> Before(first, id(x), id(y))
    ensures Ranked(first, Ids(id, [x] + xs))
  {
    var r := [x] + xs;
    forall i, j | 0 <= i < j < |r| ensures Before(first, Ids(id, r)[i], Ids(id, r)[j]) {
      assert r[j] == xs[j - 1] && xs[j - 1] in xs;
      if i > 0 { assert Before(first, Ids(id, xs)[i - 1], Ids(id, xs)[j - 1]); }
    }
  }

  lemma RankedTail<T>(first: string, id: T -> string, xs: seq<T>)
    requires Ranked(first, Ids(id, xs)) && xs != []
    ensures Ranked(first, Ids(id, xs[1..]))
  {
    forall i, j | 0 <= i < j < |xs| - 1 ensures Before(first, Ids(id, xs[1..])[i], Ids(id, xs[1..])[j]) {
      assert Before(first, Ids(id, xs)[i + 1], Ids(id, xs)[j + 1]);
    }
  }

  ghost predicate DistinctIds<T>(id: T -> string, xs: seq<T>) {
    forall i, j :: 0 <= i < j < |xs| ==> id(xs[i]) != id(xs[j])
  }

  lemma RankedDistinct<T>(first: string, id: T -> string, xs: seq<T>)
    requires Ranked(first, Ids(id, xs))
    ensures DistinctIds(id, xs)
  {
    forall i, j | 0 <= i < j < |xs| ensures id(xs[i]) != id(xs[j]) {
      assert Before(first, Ids(id, xs)[i], Ids(id, xs)[j]);
      BeforeTotal(first, id(xs[i]), id(xs[i]));
    }
  }

  lemma LastDiffers<T>(first: string, id: T -> string, xs: seq<T>, y: T)
    requires DistinctIds(id, xs) && xs != [] && y in Sort(first, id, xs[..|xs| - 1])
    ensures id(y) != id(xs[|xs| - 1])
  {
    var n := |xs| - 1;
    SortMember(first, id, xs[..n], y);
    var j :| 0 <= j < n && xs[..n][j] == y;
    assert id(xs[j]) != id(xs[n]);
  }

  /** Items with distinct ids come out strictly ranked, the same items as went in. */
  lemma {:induction false} SortRanks<T>(first: string, id: T -> string, xs: seq<T>)
    requires DistinctIds(id, xs)
    ensures Ranked(first, Ids(id, Sort(first, id, xs)))
    ensures forall x :: x in Sort(first, id, xs) <==> x in xs
  {
    forall x ensures x in Sort(first, id, xs) <==> x in xs { SortMember(first, id, xs, x); }
    if xs != [] {
      var n := |xs| - 1;
      SortRanks(first, id, xs[..n]);
      forall y | y in Sort(first, id, xs[..n]) ensures id(y) != id(xs[n]) { LastDiffers(first, id, xs, y); }
      InsertRanked(first, id, Sort(first, id, xs[..n]), xs[n]);
    }
  }

  /** In order, though an id may come more than once. */
  ghost predicate InOrder(first: string, ids: seq<string>) {
    forall i, j :: 0 <= i < j < |ids| ==> !Before(first, ids[j], ids[i])
  }

  lemma NotBeforeTransitive(first: string, a: string, b: string, c: string)
    requires !Before(first, b, a) && !Before(first, c, b)
    ensures !Before(first, c, a)
  {
    BeforeTotal(first, a, b);
    BeforeTotal(first, b, c);
    BeforeTotal(first, a, c);
    if Before(first, c, a) && a != b && b != c {
      BeforeTransitive(first, a, b, c);
      BeforeTransitive(first, a, c, a);
    }
  }

  lemma {:induction false} InsertInOrder<T>(first: string, id: T -> string, xs: seq<T>, x: T)
    requires InOrder(first, Ids(id, xs))
    ensures InOrder(first, Ids(id, Insert(first, id, xs, x)))
  {
    if xs == [] {
    } else if Before(first, id(x), id(xs[0])) {
      BeforeNotAfter(first, id(x), id(xs[0]));
      forall y | y in xs ensures !Before(first, id(y),
                                         id(x)) { HeadInOrder(first, id, xs, y); NotBeforeTransitive(first, id(x),
                                             id(xs[0]), id(y)); }
      InOrderCons(first, id, x, xs);
    } else {
      InOrderTail(first, id, xs);
      InsertInOrder(first, id, xs[1..], x);
      forall y | y in Insert(first, id, xs[1..], x) ensures !Before(first, id(y), id(xs[0])) {
        InsertMember(first, id, xs[1..], x, y);
        if y in xs[1..] { HeadInOrder(first, id, xs, y); }
      }
      InOrderCons(first, id, xs[0], Insert(first, id, xs[1..], x));
    }
  }

  lemma BeforeNotAfter(first: string, a: string, b: string)
    requires Before(first, a, b)
    ensures !Before(first, b, a)
  {
    BeforeTotal(first, a, b);
    if Before(first, b, a) { BeforeTransitive(first, a, b, a); }
  }

  lemma HeadInOrder<T>(first: string, id: T -> string, xs: seq<T>, y: T)
    requires xs != [] && InOrder(first, Ids(id, xs)) && y in xs
    ensures !Before(first, id(y), id(xs[0]))
  {
    var j :| 0 <= j < |xs| && xs[j] == y;
    BeforeTotal(first, id(y), id(y));
    if j > 0 { assert !Before(first, Ids(id, xs)[j], Ids(id, xs)[0]); }
  }

  lemma InOrderCons<T>(first: string, id: T -> string, x: T, xs: seq<T>)
    requires InOrder(first, Ids(id, xs)) && forall y :: y in xs ==> !Before(first, id(y), id(x))
    ensures InOrder(first, Ids(id, [x] + xs))
  {
    var r := [x] + xs;
    forall i, j | 0 <= i < j < |r| ensures !Before(first, Ids(id, r)[j], Ids(id, r)[i]) {
      assert r[j] == xs[j - 1] && xs[j - 1] in xs;
      if i > 0 { assert !Before(first, Ids(id, xs)[j - 1], Ids(id, xs)[i - 1]); }
    }
  }

  lemma InOrderTail<T>(first: string, id: T -> string, xs: seq<T>)
    requires InOrder(first, Ids(id, xs)) && xs != []
    ensures InOrder(first, Ids(id, xs[1..]))
  {
    forall i, j | 0 <= i < j < |xs| - 1 ensures !Before(first, Ids(id, xs[1..])[j], Ids(id, xs[1..])[i]) {
      assert !Before(first, Ids(id, xs)[j + 1], Ids(id, xs)[i + 1]);
    }
  }

  /** Whatever the ids, the list comes out in order. */
  lemma {:induction false} SortInOrder<T>(first: string, id: T -> string, xs: seq<T>)
    ensures InOrder(first, Ids(id, Sort(first, id, xs)))
  {
    if xs != [] {
      SortInOrder(first, id, xs[..|xs| - 1]);
      InsertInOrder(first, id, Sort(first, id, xs[..|xs| - 1]), xs[|xs| - 1]);
    }
  }

  /** A listed default is at the head. */
  lemma DefaultLeads(first: string, ids: seq<string>)
    requires InOrder(first, ids) && first in ids
    ensures ids[0] == first
  {
    var i :| 0 <= i < |ids| && ids[i] == first;
    if i > 0 { assert !Before(first, ids[i], ids[0]); }
  }

  lemma {:induction false} DistinctCount<T>(id: T -> string, xs: seq<T>, x: T)
    requires DistinctIds(id, xs)
    ensures multiset(xs)[x] <= 1
  {
    if xs != [] {
      var n := |xs| - 1;
      assert xs == xs[..n] + [xs[n]];
      DistinctCount(id, xs[..n], x);
      assert x in xs[..n] ==> exists i :: 0 <= i < n && xs[..n][i] == x;
    }
  }

  /** A list with an id twice stays so however it is put in order. */
  lemma SortDistinct<T>(first: string, id: T -> string, xs: seq<T>)
    requires DistinctIds(id, Sort(first, id, xs))
    ensures DistinctIds(id, xs)
  {
    var r := Sort(first, id, xs);
    forall i, j | 0 <= i < j < |xs| ensures id(xs[i]) != id(xs[j]) {
      SortMember(first, id, xs, xs[i]);
      SortMember(first, id, xs, xs[j]);
      DistinctCount(id, r, xs[i]);
      TwiceCounts(xs, i, j);
      var a :| 0 <= a < |r| && r[a] == xs[i];
      var b :| 0 <= b < |r| && r[b] == xs[j];
      assert a < b ==> id(r[a]) != id(r[b]);
      assert b < a ==> id(r[b]) != id(r[a]);
    }
  }

  lemma TwiceCounts<T>(xs: seq<T>, i: nat, j: nat)
    requires i < j < |xs|
    ensures xs[i] == xs[j] ==> multiset(xs)[xs[i]] >= 2
  {
    assert xs == xs[..j] + xs[j..] && xs[..j][i] == xs[i] && xs[j..][0] == xs[j];
    assert multiset(xs) == multiset(xs[..j]) + multiset(xs[j..]);
    assert xs[i] in multiset(xs[..j]) && xs[j] in multiset(xs[j..]);
  }

  /** A ranked list is determined by its members. */
  lemma {:induction false} RankedUnique(first: string, a: seq<string>, b: seq<string>)
    requires Ranked(first, a) && Ranked(first, b) && forall x :: x in a <==> x in b
    ensures a == b
  {
    assert b != [] ==> b[0] in a;
    if a != [] {
      assert a[0] in b;
      var j :| 0 <= j < |b| && b[j] == a[0];
      var i :| 0 <= i < |a| && a[i] == b[0];
      BeforeTotal(first, a[0], b[0]);
      if i > 0 && j > 0 { BeforeTransitive(first, a[0], b[0], a[0]); }
      assert a[0] == b[0];
      forall x ensures x in a[1..] <==> x in b[1..] {
        RankedOnce(first, a, x);
        RankedOnce(first, b, x);
      }
      RankedUnique(first, a[1..], b[1..]);
      assert a == [a[0]] + a[1..] && b == [b[0]] + b[1..];
    }
  }

  lemma RankedOnce(first: string, a: seq<string>, x: string)
    requires Ranked(first, a) && a != []
    ensures x in a[1..] <==> x in a && x != a[0]
  {
    BeforeTotal(first, a[0], a[0]);
    if x in a && x != a[0] {
      var i :| 0 <= i < |a| && a[i] == x;
      assert a[1..][i - 1] == x;
    }
  }
}
