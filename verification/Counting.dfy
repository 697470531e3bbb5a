/** Arithmetic and sizes that several modules share, each kept by name. */
module Counting {
  // Greater and smaller of two numbers, products kept by name, and the size of a subset.

  function Max(a: int, b: int): int { if a < b then b else a }

  function Min(a: int, b: int): int { if a < b then a else b }

  function Product(a: nat, b: nat): nat { a * b }

  lemma ProductAdds(a: nat, b: nat, n: nat)
    ensures Product(a + b, n) == Product(a, n) + Product(b, n)
    ensures a <= b ==> Product(a, n) <= Product(b, n)
  {
    if a <= b {
      assert (b - a) * n + a * n == b * n;
    }
  }

  lemma OneMore(a: nat, n: nat)
    ensures Product(a + 1, n) == Product(a, n) + n && (a + 1) * n == a * n + n
  {
  }

  lemma NoProduct(n: nat)
    ensures Product(0, n) == 0
  {
  }

  lemma OneProduct(n: nat)
    ensures Product(1, n) == n
  {
  }

  lemma {:induction false} SubsetSize(a: set<nat>, b: set<nat>)
    requires a <= b
    ensures |a| <= |b| && (a < b ==> |a| < |b|)
  {
    if a != {} {
      var x :| x in a;
      SubsetSize(a - {x}, b - {x});
    }
  }
}
