/** The product record and its sales history, as the persistence schema stores them. */
module Catalog {

  /** One period of sales: when, how many units, at what unit price. A date is a timestamp. */
  datatype SalesRecord = SalesRecord(date: int, unitsSold: real, price: real)

  datatype Product = Product(
    name: string,
    sku: string,
    category: string,
    cost: real,
    currentPrice: real,
    inventory: int,
    salesHistory: seq<SalesRecord>)

  /** The schema's `min: 0` bounds on a sales record. */
  predicate RecordInSchema(s: SalesRecord)
  {
    s.unitsSold >= 0.0 && s.price >= 0.0
  }

  predicate HistoryInSchema(h: seq<SalesRecord>)
  {
    forall i :: 0 <= i < |h| ==> RecordInSchema(h[i])
  }

  /** The schema's `min: 0` bounds on a stored product. */
  predicate InSchema(p: Product)
  {
    p.cost >= 0.0 && p.currentPrice >= 0.0 && p.inventory >= 0 && HistoryInSchema(p.salesHistory)
  }
}
