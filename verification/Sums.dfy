/** Sums over finite sets of ids. */
module Sums {

  ghost function Pick<T>(s: set<T>): (x: T)
    requires s != {}
    ensures x in s
  {
    var x :| x in s; x
  }

  ghost function SumOver(ids: set<int>, f: int -> int): int {
    if ids == {} then 0 else f(Pick(ids)) + SumOver(ids - {Pick(ids)}, f)
  }

  /** Any member can be taken out first. */
  lemma {:induction false} SumSplit(ids: set<int>, x: int, f: int -> int)
    requires x in ids
    ensures SumOver(ids, f) == f(x) + SumOver(ids - {x}, f)
    decreases ids
  {
    var y := Pick(ids);
    if y != x {
      SumSplit(ids - {y}, x, f);
      SumSplit(ids - {x}, y, f);
      assert ids - {y} - {x} == ids - {x} - {y};
    }
  }

  lemma {:induction false} SumCongruent(ids: set<int>, f: int -> int, g: int -> int)
    requires forall x :: x in ids ==> f(x) == g(x)
    ensures SumOver(ids, f) == SumOver(ids, g)
    decreases ids
  {
    if ids != {} {
      var x := Pick(ids);
      SumCongruent(ids - {x}, f, g);
      assert SumOver(ids, f) == f(x) + SumOver(ids - {x}, f);
    }
  }

  /** Adding a fresh id, and replacing the summand at one id, change the sum by that id's share. */
  lemma SumInsert(ids: set<int>, x: int, f: int -> int, g: int -> int)
    requires x !in ids
    requires forall y :: y in ids ==> f(y) == g(y)
    ensures SumOver(ids + {x}, g) == SumOver(ids, f) + g(x)
  {
    SumSplit(ids + {x}, x, g);
    assert ids + {x} - {x} == ids;
    SumCongruent(ids, f, g);
  }

  lemma SumReplace(ids: set<int>, x: int, f: int -> int, g: int -> int)
    requires x in ids
    requires forall y :: y in ids && y != x ==> f(y) == g(y)
    ensures SumOver(ids, g) == SumOver(ids, f) - f(x) + g(x)
  {
    SumSplit(ids, x, f);
    SumSplit(ids, x, g);
    SumCongruent(ids - {x}, f, g);
  }

  lemma {:induction false} NonNegative(ids: set<int>, f: int -> int)
    requires forall x :: x in ids ==> f(x) >= 0
    ensures SumOver(ids, f) >= 0
    ensures SumOver(ids, f) == 0 ==> forall x :: x in ids ==> f(x) == 0
    decreases ids
  {
    if ids != {} {
      var x := Pick(ids);
      NonNegative(ids - {x}, f);
      assert SumOver(ids, f) == f(x) + SumOver(ids - {x}, f);
      assert forall y :: y in ids ==> y == x || y in ids - {x};
    }
  }

  lemma {:induction false} SubsetSize<T>(a: set<T>, b: set<T>)
    requires a <= b
    ensures |a| <= |b|
  {
    assert b == a + (b - a);
  }
}
