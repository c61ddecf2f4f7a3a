/** Batch optimization (optimizePrices): choosing the products from the request, then
    running the pricing engine on each and storing one unapplied suggestion per product. */
module OptimizeController {
  import opened Wrappers
  import opened Catalog
  import opened Store
  import Pricing

  /** The request body; an absent or empty category reads as not given, and `all` is the
      truthiness of the body's field, so any non-empty text (even "false") selects every
      product. */
  datatype OptimizeRequest = OptimizeRequest(productIds: Option<seq<Id>>, category: string, all: bool)

  /** Which products a request asks for. */
  datatype Selection = Everything | InCategory(pattern: string) | AmongIds(ids: seq<Id>)

  datatype OptimizeError = InvalidRequest | NoProducts

  /** The request's precedence: `all` first, then a category, then a non-empty id list;
      anything else is invalid. */
  function SelectionOf(req: OptimizeRequest): (r: Option<Selection>)
    ensures r == Some(Everything) <==> req.all
    ensures r == Some(InCategory(req.category)) <==> !req.all && req.category != ""
    ensures r.Some? && r.value.AmongIds? <==>
      !req.all && req.category == "" && req.productIds.Some? && |req.productIds.value| > 0
    ensures r.Some? && r.value.AmongIds? ==> r.value.ids == req.productIds.value
    ensures r.None? <==> !req.all && req.category == "" && (req.productIds.None? || req.productIds.value == [])
  {
    if req.all then Some(Everything)
    else if req.category != "" then Some(InCategory(req.category))
    else if req.productIds.Some? && |req.productIds.value| > 0 then Some(AmongIds(req.productIds.value))
    else None
  }

  /** Whether the pattern occurs in the text. */
  predicate Contains(text: string, pattern: string)
  {
    pattern <= text || (text != [] && Contains(text[1..], pattern))
  }

  predicate Picks(sel: Selection, id: Id, p: Product)
  {
    match sel
    case Everything => true
    case InCategory(pattern) => Contains(p.category, pattern)
    case AmongIds(ids) => id in ids
  }

  /** The products the query returns, in id order: exactly the stored products below n that
      the selection picks, each once. */
  function Scan(products: map<Id, Product>, sel: Selection, n: nat): (r: seq<Id>)
    ensures forall i :: 0 <= i < |r| ==> r[i] < n && r[i] in products && Picks(sel, r[i], products[r[i]])
    ensures forall id :: id < n && id in products && Picks(sel, id, products[id]) ==> id in r
    ensures forall i, j :: 0 <= i < j < |r| ==> r[i] < r[j]
  {
    if n == 0 then []
    else Scan(products, sel, n - 1) + (if n - 1 in products && Picks(sel, n - 1, products[n - 1]) then [n - 1] else [])
  }

  /** One entry of the response's results: the product, the engine's output and the id of
      the suggestion stored for it. */
  datatype OptimizeResult = OptimizeResult(
    productId: Id,
    productName: string,
    sku: string,
    currentPrice: real,
    optimization: Pricing.Optimization,
    suggestionId: Id)

  /** One entry of the response's suggestions. */
  datatype Created = Created(id: Id, suggestion: Suggestion)

  datatype OptimizeResponse = OptimizeResponse(results: seq<OptimizeResult>, suggestions: seq<Created>)

  /** The suggestion stored for a product: unapplied, remembering the price it replaces. */
  function NewSuggestion(productId: Id, p: Product, o: Pricing.Optimization): Suggestion
  {
    Suggestion(productId, p.currentPrice, o.suggestedPrice, o.revenueChange, o.marginChange, o.reason, false)
  }

  /** The response entries for a product whose optimization is o and whose suggestion is
      stored under id. */
  predicate Describes(productId: Id, p: Product, o: Pricing.Optimization, id: Id, result: OptimizeResult, created: Created)
  {
    && result == OptimizeResult(productId, p.name, p.sku, p.currentPrice, o, id)
    && created == Created(id, NewSuggestion(productId, p, o))
  }

  /** One iteration of the loop: optimize the product, store its suggestion under a fresh
      id. */
  method CreateSuggestion(db: Database, productId: Id, d: Pricing.Draws)
    returns (result: OptimizeResult, created: Created)
    requires db.Valid()
    requires productId in db.products && db.products[productId].currentPrice > 0.0
    modifies db
    ensures db.Valid()
    ensures db.products == old(db.products)
    ensures db.nextId == old(db.nextId) + 1 && created.id == old(db.nextId)
    ensures db.suggestions == old(db.suggestions)[created.id := created.suggestion]
    ensures result.optimization == Pricing.OptimizeProduct(db.products[productId], d)
    ensures Describes(productId, db.products[productId], result.optimization, created.id, result, created)
  {
    var product := db.products[productId];
    var optimization := Pricing.OptimizePrice(product, d);
    var id := db.NewId();
    var suggestion := Suggestion(productId, product.currentPrice, optimization.suggestedPrice,
      optimization.revenueChange, optimization.marginChange, optimization.reason, false);
    db.suggestions := db.suggestions[id := suggestion];
    result := OptimizeResult(productId, product.name, product.sku, product.currentPrice, optimization, id);
    created := Created(id, suggestion);
  }

  /** Every selected product can be optimized. */
  predicate Priced(products: map<Id, Product>, ids: seq<Id>)
  {
    forall k :: 0 <= k < |ids| ==> ids[k] in products && products[ids[k]].currentPrice > 0.0
  }

  /** The engine's outputs for the first n selected products, the k-th with the k-th draws. */
  ghost function Outcomes(products: map<Id, Product>, ids: seq<Id>, draws: nat -> Pricing.Draws, n: nat)
    : (outs: seq<Pricing.Optimization>)
    requires Priced(products, ids) && n <= |ids|
    ensures |outs| == n
    decreases n
  {
    if n == 0 then []
    else Outcomes(products, ids, draws, n - 1) + [Pricing.OptimizeProduct(products[ids[n - 1]], draws(n - 1))]
  }

  /** The k-th outcome is the engine's output for the k-th product and draws. */
  lemma {:induction false} OutcomeAt(products: map<Id, Product>, ids: seq<Id>, draws: nat -> Pricing.Draws, n: nat, k: nat)
    requires Priced(products, ids) && k < n <= |ids|
    ensures Outcomes(products, ids, draws, n)[k] == Pricing.OptimizeProduct(products[ids[k]], draws(k))
    decreases n
  {
    var prefix := Outcomes(products, ids, draws, n - 1);
    if k < n - 1 {
      OutcomeAt(products, ids, draws, n - 1, k);
      assert Outcomes(products, ids, draws, n)[k] == prefix[k];
    }
  }

  /** The response built from the outcomes: the k-th product with the k-th outcome, its
      suggestion under the k-th fresh id after base. */
  function Assemble(products: map<Id, Product>, ids: seq<Id>, base: Id, outs: seq<Pricing.Optimization>)
    : (r: OptimizeResponse)
    requires |outs| <= |ids| && forall k :: 0 <= k < |outs| ==> ids[k] in products
    ensures |r.results| == |outs| && |r.suggestions| == |outs|
    decreases |outs|
  {
    if outs == [] then OptimizeResponse([], [])
    else
      var n := |outs| - 1;
      var prefix := Assemble(products, ids, base, outs[..n]);
      var p := products[ids[n]];
      OptimizeResponse(
        prefix.results + [OptimizeResult(ids[n], p.name, p.sku, p.currentPrice, outs[n], base + n)],
        prefix.suggestions + [Created(base + n, NewSuggestion(ids[n], p, outs[n]))])
  }

  /** Assembling one more outcome appends the entries for the next product. */
  lemma AssembleSnoc(products: map<Id, Product>, ids: seq<Id>, base: Id, outs: seq<Pricing.Optimization>,
                     o: Pricing.Optimization, result: OptimizeResult, created: Created)
    requires |outs| < |ids| && forall k :: 0 <= k <= |outs| ==> ids[k] in products
    requires Describes(ids[|outs|], products[ids[|outs|]], o, base + |outs|, result, created)
    ensures Assemble(products, ids, base, outs + [o]) ==
      OptimizeResponse(Assemble(products, ids, base, outs).results + [result],
                       Assemble(products, ids, base, outs).suggestions + [created])
  {
    assert (outs + [o])[..|outs|] == outs;
  }

  /** Each assembled entry describes its own product, outcome and id. */
  lemma {:induction false} AssembledEntries(products: map<Id, Product>, ids: seq<Id>, base: Id, outs: seq<Pricing.Optimization>)
    requires |outs| <= |ids| && forall k :: 0 <= k < |outs| ==> ids[k] in products
    ensures forall k :: 0 <= k < |outs| ==>
      Describes(ids[k], products[ids[k]], outs[k], base + k,
        Assemble(products, ids, base, outs).results[k], Assemble(products, ids, base, outs).suggestions[k])
    decreases |outs|
  {
    if outs != [] {
      var n := |outs| - 1;
      AssembledEntries(products, ids, base, outs[..n]);
      var r, prefix := Assemble(products, ids, base, outs), Assemble(products, ids, base, outs[..n]);
      forall k | 0 <= k < |outs|
        ensures Describes(ids[k], products[ids[k]], outs[k], base + k, r.results[k], r.suggestions[k])
      {
        if k < n {
          assert r.results[k] == prefix.results[k] && r.suggestions[k] == prefix.suggestions[k];
          assert outs[k] == outs[..n][k];
        }
      }
    }
  }

  /** The response the whole loop builds. */
  ghost function Planned(products: map<Id, Product>, ids: seq<Id>, draws: nat -> Pricing.Draws, base: Id): OptimizeResponse
    requires Priced(products, ids)
  {
    Assemble(products, ids, base, Outcomes(products, ids, draws, |ids|))
  }

  /** The k-th entry of the planned response holds the k-th product's optimization with the
      k-th draws, and its suggestion, unapplied and remembering the product's price, is
      filed under the k-th fresh id. */
  lemma PlannedEntry(products: map<Id, Product>, ids: seq<Id>, draws: nat -> Pricing.Draws, base: Id, k: nat)
    requires Priced(products, ids) && k < |ids|
    ensures var p := products[ids[k]];
      var o := Pricing.OptimizeProduct(p, draws(k));
      && Planned(products, ids, draws, base).results[k] == OptimizeResult(ids[k], p.name, p.sku, p.currentPrice, o, base + k)
      && Planned(products, ids, draws, base).suggestions[k] ==
           Created(base + k, Suggestion(ids[k], p.currentPrice, o.suggestedPrice, o.revenueChange, o.marginChange, o.reason, false))
  {
    var outs := Outcomes(products, ids, draws, |ids|);
    AssembledEntries(products, ids, base, outs);
    OutcomeAt(products, ids, draws, |ids|, k);
  }

  /** The suggestions map after storing the created entries in order. */
  function Stored(m: map<Id, Suggestion>, cs: seq<Created>): map<Id, Suggestion>
    decreases |cs|
  {
    if cs == [] then m
    else Stored(m, cs[..|cs| - 1])[cs[|cs| - 1].id := cs[|cs| - 1].suggestion]
  }

  /** Storing entries under consecutive fresh ids from base adds exactly those ids, keeps
      every existing suggestion and files each entry under its own id. */
  lemma {:induction false} StoredFresh(m: map<Id, Suggestion>, cs: seq<Created>, base: Id)
    requires forall id :: id in m ==> id < base
    requires forall k :: 0 <= k < |cs| ==> cs[k].id == base + k
    ensures forall id :: id in Stored(m, cs) <==> id in m || base <= id < base + |cs|
    ensures forall id :: id in m ==> Stored(m, cs)[id] == m[id]
    ensures forall k :: 0 <= k < |cs| ==> Stored(m, cs)[base + k] == cs[k].suggestion
  {
    if cs != [] {
      StoredFresh(m, cs[..|cs| - 1], base);
    }
  }

  /** The suggestions after are those before plus the created ones under the ids from base
      on: exactly those ids are added, each holding its entry's suggestion, and every
      existing suggestion is kept. */
  ghost predicate Extends(before: map<Id, Suggestion>, after: map<Id, Suggestion>, base: Id, cs: seq<Created>)
  {
    && (forall id :: id in after <==> id in before || base <= id < base + |cs|)
    && (forall id :: id in before ==> id in after && after[id] == before[id])
    && (forall k :: 0 <= k < |cs| ==> base + k in after && after[base + k] == cs[k].suggestion)
  }

  /** Storing an assembled response's suggestions over a map whose ids are all below base
      extends it by exactly those suggestions. */
  lemma StoredAssembled(m: map<Id, Suggestion>, products: map<Id, Product>, ids: seq<Id>, base: Id,
                        outs: seq<Pricing.Optimization>)
    requires forall id :: id in m ==> id < base
    requires |outs| <= |ids| && forall k :: 0 <= k < |outs| ==> ids[k] in products
    ensures Extends(m, Stored(m, Assemble(products, ids, base, outs).suggestions), base,
                    Assemble(products, ids, base, outs).suggestions)
  {
    AssembledEntries(products, ids, base, outs);
    StoredFresh(m, Assemble(products, ids, base, outs).suggestions, base);
  }

  /** The loop over the selected products, in order: the k-th gets the k-th draws and the
      k-th fresh id; the products stay as they were. */
  method CreateSuggestions(db: Database, ids: seq<Id>, draws: nat -> Pricing.Draws)
    returns (results: seq<OptimizeResult>, created: seq<Created>)
    requires db.Valid()
    requires Priced(db.products, ids)
    modifies db
    ensures db.Valid()
    ensures db.products == old(db.products)
    ensures db.nextId == old(db.nextId) + |ids|
    ensures OptimizeResponse(results, created) == Planned(db.products, ids, draws, old(db.nextId))
    ensures db.suggestions == Stored(old(db.suggestions), created)
  {
    results, created := [], [];
    ghost var outs := [];
    for i := 0 to |ids|
      invariant db.Valid()
      invariant db.products == old(db.products)
      invariant db.nextId == old(db.nextId) + i
      invariant outs == Outcomes(db.products, ids, draws, i)
      invariant OptimizeResponse(results, created) == Assemble(db.products, ids, old(db.nextId), outs)
      invariant db.suggestions == Stored(old(db.suggestions), created)
    {
      var result, one := CreateSuggestion(db, ids[i], draws(i));
      AssembleSnoc(db.products, ids, old(db.nextId), outs, result.optimization, result, one);
      outs := outs + [result.optimization];
      results := results + [result];
      created := created + [one];
    }
  }

  /** The ids a request selects among the stored products below n: none for an invalid
      request. */
  function Selected(products: map<Id, Product>, req: OptimizeRequest, n: nat): (ids: seq<Id>)
    ensures SelectionOf(req).None? ==> ids == []
    ensures SelectionOf(req).Some? ==>
      forall id :: id in ids <==> id < n && id in products && Picks(SelectionOf(req).value, id, products[id])
  {
    if SelectionOf(req).None? then [] else Scan(products, SelectionOf(req).value, n)
  }

  /** The loop with its response: the planned response, whose suggestions are added under
      exactly the fresh ids, existing suggestions kept. */
  method OptimizeSelected(db: Database, ids: seq<Id>, draws: nat -> Pricing.Draws) returns (response: OptimizeResponse)
    requires db.Valid()
    requires Priced(db.products, ids)
    modifies db
    ensures db.Valid()
    ensures db.products == old(db.products)
    ensures db.nextId == old(db.nextId) + |ids|
    ensures response == Planned(db.products, ids, draws, old(db.nextId))
    ensures Extends(old(db.suggestions), db.suggestions, old(db.nextId), response.suggestions)
  {
    var results, created := CreateSuggestions(db, ids, draws);
    StoredAssembled(old(db.suggestions), db.products, ids, old(db.nextId), Outcomes(db.products, ids, draws, |ids|));
    response := OptimizeResponse(results, created);
  }

  /** optimizePrices. An invalid request (400) and an empty selection (404) store nothing.
      A valid request with a non-empty selection always succeeds: the response is the
      planned one for the selected products in id order (see PlannedEntry for what each
      entry holds), exactly its suggestions are added under the fresh ids, and neither the
      products nor the existing suggestions are modified. Only the selected products need a
      positive price. */
  method OptimizePrices(db: Database, req: OptimizeRequest, draws: nat -> Pricing.Draws)
    returns (r: Result<OptimizeResponse, OptimizeError>)
    requires db.Valid()
    requires SelectionOf(req).Some? ==> Priced(db.products, Selected(db.products, req, db.nextId))
    modifies db
    ensures db.Valid()
    ensures db.products == old(db.products)
    ensures r.Ok? <==> SelectionOf(req).Some? && Selected(old(db.products), req, old(db.nextId)) != []
    ensures SelectionOf(req).None? ==> r == Err(InvalidRequest)
    ensures SelectionOf(req).Some? && Selected(old(db.products), req, old(db.nextId)) == [] ==> r == Err(NoProducts)
    ensures r.Err? ==> db.suggestions == old(db.suggestions) && db.nextId == old(db.nextId)
    ensures r.Ok? ==>
      && Selected(old(db.products), req, old(db.nextId)) != []
      && r.value == Planned(old(db.products), Selected(old(db.products), req, old(db.nextId)), draws, old(db.nextId))
      && db.nextId == old(db.nextId) + |Selected(old(db.products), req, old(db.nextId))|
    ensures r.Ok? ==> Extends(old(db.suggestions), db.suggestions, old(db.nextId), r.value.suggestions)
  {
    var sel := SelectionOf(req);
    if sel.None? {
      return Err(InvalidRequest);
    }
    var ids := Scan(db.products, sel.value, db.nextId);
    if |ids| == 0 {
      return Err(NoProducts);
    }
    var response := OptimizeSelected(db, ids, draws);
    r := Ok(response);
  }
}
