// Sizes of finite sets, ids that are not taken, and the smaller of two numbers.
module Sizes {
  function Min(a: int, b: int): int { if a < b then a else b }

  lemma SubsetSize<T>(small: set<T>, large: set<T>)
    requires small <= large
    ensures |small| <= |large|
  {
    assert large == small + (large - small);
  }

  method Fresh(ids: set<nat>) returns (id: nat)
    ensures id !in ids
  {
    var taken := ids;
    id := 0;
    while id in taken
      invariant forall a :: a in ids && a >= id ==> a in taken
      decreases |taken|
    {
      taken := taken - {id};
      id := id + 1;
    }
  }
}
