/** The two collections the controllers work on, products and suggestions, keyed by
    document id. Ids are handed out from one counter, so every stored id is below it. */
module Store {
  import opened Wrappers
  import opened Catalog
  import Pricing

  type Id = nat

  /** A stored suggestion: the price it proposes for a product, the forecasts and the
      reason from the pricing engine, and whether it has been applied. */
  datatype Suggestion = Suggestion(
    productId: Id,
    previousPrice: real,
    suggestedPrice: real,
    revenueChange: real,
    marginChange: real,
    reason: Pricing.Reason,
    applied: bool)

  /** The unique index on sku: no two stored products share one. */
  predicate UniqueSkus(products: map<Id, Product>)
  {
    forall a, b :: a in products && b in products && a != b ==> products[a].sku != products[b].sku
  }

  /** The lookup `findOne({ sku })` over the ids below n: the highest such id holding the
      sku, which under unique skus is the only one. */
  function SkuOwner(products: map<Id, Product>, n: nat, sku: string): (r: Option<Id>)
    ensures r.Some? ==> r.value < n && r.value in products && products[r.value].sku == sku
    ensures r.None? ==> forall id :: id < n && id in products ==> products[id].sku != sku
  {
    if n == 0 then None
    else if n - 1 in products && products[n - 1].sku == sku then Some(n - 1)
    else SkuOwner(products, n - 1, sku)
  }

  /** The database: both collections and the id counter. */
  class Database {
    var products: map<Id, Product>
    var suggestions: map<Id, Suggestion>
    var nextId: Id

    ghost predicate Valid()
      reads this
    {
      && (forall id :: id in products ==> id < nextId)
      && (forall id :: id in suggestions ==> id < nextId)
      && UniqueSkus(products)
    }

    constructor ()
      ensures Valid()
      ensures products == map[] && suggestions == map[] && nextId == 0
    {
      products := map[];
      suggestions := map[];
      nextId := 0;
    }

    /** A fresh document id, used by neither collection. */
    method NewId() returns (id: Id)
      requires Valid()
      modifies this
      ensures Valid()
      ensures id == old(nextId) && nextId == id + 1
      ensures id !in products && id !in suggestions
      ensures products == old(products) && suggestions == old(suggestions)
    {
      id := nextId;
      nextId := nextId + 1;
    }
  }
}
