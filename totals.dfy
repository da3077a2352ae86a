/** Folds over the product list: the "Total Items" and "Unique Products"
    dashboard cards (components/MetricsCards.tsx), whose behaviour under the
    ledger's operations the ledger's lemmas state. */
module Totals {
  import opened Text
  import opened Types

  /** `products.reduce((sum, p) => sum + p.qty, 0)`, folded left to right. */
  function TotalItems(ps: seq<Product>): (total: int)
    ensures ps == [] ==> total == 0
  {
    if ps == [] then 0 else TotalItems(ps[..|ps| - 1]) + ps[|ps| - 1].qty
  }

  /** The total of a concatenation is the sum of the totals. */
  lemma {:induction false} TotalItemsConcat(ps: seq<Product>, qs: seq<Product>)
    ensures TotalItems(ps + qs) == TotalItems(ps) + TotalItems(qs)
    decreases |qs|
  {
    if qs == [] {
      assert ps + qs == ps;
    } else {
      var init := qs[..|qs| - 1];
      assert (ps + qs)[..|ps + qs| - 1] == ps + init;
      TotalItemsConcat(ps, init);
    }
  }

  /** Replacing one product changes the total by the difference of the two
      quantities and by nothing else. */
  lemma {:induction false} TotalItemsUpdate(ps: seq<Product>, i: nat, p: Product)
    requires i < |ps|
    ensures TotalItems(ps[i := p]) == TotalItems(ps) - ps[i].qty + p.qty
    decreases |ps|
  {
    var n := |ps|;
    if i == n - 1 {
      assert ps[i := p][..n - 1] == ps[..n - 1];
    } else {
      assert ps[i := p][..n - 1] == ps[..n - 1][i := p];
      TotalItemsUpdate(ps[..n - 1], i, p);
    }
  }

  /** With no negative quantity on record the total is not negative. */
  lemma {:induction false} TotalItemsNonNegative(ps: seq<Product>)
    requires forall i :: 0 <= i < |ps| ==> ps[i].qty >= 0
    ensures TotalItems(ps) >= 0
    decreases |ps|
  {
    if ps != [] {
      TotalItemsNonNegative(ps[..|ps| - 1]);
    }
  }

  /** `new Set(products.map(p => p.name.toLowerCase()))`. */
  function NameSet(ps: seq<Product>): set<string> {
    set i | 0 <= i < |ps| :: Lower(ps[i].name)
  }

  /** The size of that set: the "Unique Products" card. */
  function UniqueProducts(ps: seq<Product>): (n: nat)
    ensures n == 0 <==> ps == []
  {
    assert ps != [] ==> Lower(ps[0].name) in NameSet(ps);
    |NameSet(ps)|
  }

  lemma NameSetSnoc(ps: seq<Product>)
    requires ps != []
    ensures NameSet(ps) == NameSet(ps[..|ps| - 1]) + {Lower(ps[|ps| - 1].name)}
  {
    var init := ps[..|ps| - 1];
    forall k | k in NameSet(ps) ensures k in NameSet(init) + {Lower(ps[|ps| - 1].name)} {
      var i :| 0 <= i < |ps| && Lower(ps[i].name) == k;
      if i < |ps| - 1 {
        assert Lower(init[i].name) == k;
      }
    }
    forall k | k in NameSet(init) ensures k in NameSet(ps) {
      var i :| 0 <= i < |init| && Lower(init[i].name) == k;
      assert Lower(ps[i].name) == k;
    }
  }

  /** There are never more distinct names than products, and there are as
      many exactly when the ledger's case-insensitive uniqueness holds. */
  lemma {:induction false} UniqueProductsBound(ps: seq<Product>)
    ensures UniqueProducts(ps) <= |ps|
    ensures UniqueProducts(ps) == |ps| <==> NamesUnique(ps)
    decreases |ps|
  {
    if ps == [] {
      assert NameSet(ps) == {};
    } else {
      var init := ps[..|ps| - 1];
      var k := Lower(ps[|ps| - 1].name);
      NameSetSnoc(ps);
      UniqueProductsBound(init);
      if k in NameSet(init) {
        var j :| 0 <= j < |init| && Lower(init[j].name) == k;
        assert Lower(ps[j].name) == Lower(ps[|ps| - 1].name);
      } else {
        if NamesUnique(init) {
          forall i, j | 0 <= i < j < |ps| ensures Lower(ps[i].name) != Lower(ps[j].name) {
            if j < |ps| - 1 {
              assert Lower(init[i].name) != Lower(init[j].name);
            } else {
              assert Lower(init[i].name) in NameSet(init);
            }
          }
        } else {
          var i, j :| 0 <= i < j < |init| && Lower(init[i].name) == Lower(init[j].name);
          assert Lower(ps[i].name) == Lower(ps[j].name);
        }
      }
    }
  }
}
