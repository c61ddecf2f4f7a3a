/** Applying a suggestion (applySuggestion) and filtering the suggestion list
    (getSuggestions). */
module SuggestionController {
  import opened Wrappers
  import opened Catalog
  import opened Store

  /** Why an apply request is refused; `ServerError` is a save that throws. */
  datatype ApplyError =
    | MissingIds
    | SuggestionNotFound
    | AlreadyApplied
    | ProductMismatch
    | ProductNotFound
    | ServerError

  /** The HTTP status each refusal is answered with. */
  function StatusOf(e: ApplyError): (code: nat)
    ensures code == 400 <==> e in {MissingIds, AlreadyApplied, ProductMismatch}
    ensures code == 404 <==> e in {SuggestionNotFound, ProductNotFound}
    ensures code == 500 <==> e == ServerError
  {
    match e
    case MissingIds => 400
    case SuggestionNotFound => 404
    case AlreadyApplied => 400
    case ProductMismatch => 400
    case ProductNotFound => 404
    case ServerError => 500
  }

  /** Which of the two saves, if any, throws. */
  datatype Fault = NoFault | ProductSaveFails | SuggestionSaveFails

  /** The checks before any write, in the order the controller makes them: both ids given,
      the suggestion exists, it is not applied yet, it belongs to the product, the product
      exists. Each refusal holds exactly when every earlier check passed and its own fails. */
  function ApplyGuard(products: map<Id, Product>, suggestions: map<Id, Suggestion>,
                      productId: Option<Id>, suggestionId: Option<Id>): (r: Option<ApplyError>)
    ensures r == Some(MissingIds) <==> productId.None? || suggestionId.None?
    ensures r == Some(SuggestionNotFound) <==>
      productId.Some? && suggestionId.Some? && suggestionId.value !in suggestions
    ensures r == Some(AlreadyApplied) <==>
      productId.Some? && suggestionId.Some? && suggestionId.value in suggestions &&
      suggestions[suggestionId.value].applied
    ensures r == Some(ProductMismatch) <==>
      productId.Some? && suggestionId.Some? && suggestionId.value in suggestions &&
      !suggestions[suggestionId.value].applied &&
      suggestions[suggestionId.value].productId != productId.value
    ensures r == Some(ProductNotFound) <==>
      productId.Some? && suggestionId.Some? && suggestionId.value in suggestions &&
      !suggestions[suggestionId.value].applied &&
      suggestions[suggestionId.value].productId == productId.value &&
      productId.value !in products
    ensures r.None? <==>
      productId.Some? && suggestionId.Some? && suggestionId.value in suggestions &&
      !suggestions[suggestionId.value].applied &&
      suggestions[suggestionId.value].productId == productId.value &&
      productId.value in products
  {
    if productId.None? || suggestionId.None? then Some(MissingIds)
    else if suggestionId.value !in suggestions then Some(SuggestionNotFound)
    else if suggestions[suggestionId.value].applied then Some(AlreadyApplied)
    else if suggestions[suggestionId.value].productId != productId.value then Some(ProductMismatch)
    else if productId.value !in products then Some(ProductNotFound)
    else None
  }

  /** The product with the suggestion's price written into it. */
  function Repriced(p: Product, s: Suggestion): (q: Product)
    ensures q.currentPrice == s.suggestedPrice
    ensures q.(currentPrice := p.currentPrice) == p
  {
    p.(currentPrice := s.suggestedPrice)
  }

  /** applySuggestion: the guard, then the price write, then the flag write. A refusal
      changes nothing; a failing product save changes nothing; a failing flag save leaves the
      new price written and the suggestion unapplied. The applied flag of any suggestion is
      never reset. */
  method ApplySuggestion(db: Database, productId: Option<Id>, suggestionId: Option<Id>, fault: Fault)
    returns (r: Result<(Product, Suggestion), ApplyError>)
    requires db.Valid()
    modifies db
    ensures db.Valid() && db.nextId == old(db.nextId)
    ensures var g := ApplyGuard(old(db.products), old(db.suggestions), productId, suggestionId);
      g.Some? ==> r == Err(g.value) && db.products == old(db.products) && db.suggestions == old(db.suggestions)
    ensures var g := ApplyGuard(old(db.products), old(db.suggestions), productId, suggestionId);
      g.None? && fault == ProductSaveFails ==>
        r == Err(ServerError) && db.products == old(db.products) && db.suggestions == old(db.suggestions)
    ensures var g := ApplyGuard(old(db.products), old(db.suggestions), productId, suggestionId);
      g.None? && fault != ProductSaveFails ==>
        var pid, sid := productId.value, suggestionId.value;
        && db.products == old(db.products)[pid := Repriced(old(db.products)[pid], old(db.suggestions)[sid])]
        && (fault == SuggestionSaveFails ==> r == Err(ServerError) && db.suggestions == old(db.suggestions))
        && (fault == NoFault ==>
              && db.suggestions == old(db.suggestions)[sid := old(db.suggestions)[sid].(applied := true)]
              && r == Ok((db.products[pid], db.suggestions[sid])))
    ensures forall id :: id in old(db.suggestions) ==>
      id in db.suggestions && (old(db.suggestions)[id].applied ==> db.suggestions[id].applied)
  {
    if productId.None? || suggestionId.None? {
      return Err(MissingIds);
    }
    var pid, sid := productId.value, suggestionId.value;
    if sid !in db.suggestions {
      return Err(SuggestionNotFound);
    }
    var suggestion := db.suggestions[sid];
    if suggestion.applied {
      return Err(AlreadyApplied);
    }
    if suggestion.productId != pid {
      return Err(ProductMismatch);
    }
    if pid !in db.products {
      return Err(ProductNotFound);
    }
    var product := db.products[pid];

    product := product.(currentPrice := suggestion.suggestedPrice);
    if fault == ProductSaveFails {
      return Err(ServerError);
    }
    db.products := db.products[pid := product];

    suggestion := suggestion.(applied := true);
    if fault == SuggestionSaveFails {
      return Err(ServerError);
    }
    db.suggestions := db.suggestions[sid := suggestion];
    r := Ok((product, suggestion));
  }

  /** Applying the same suggestion twice: the second request is refused as already applied
      and leaves the price the first one wrote. */
  method ApplyTwice(db: Database, productId: Id, suggestionId: Id)
    returns (first: Result<(Product, Suggestion), ApplyError>, second: Result<(Product, Suggestion), ApplyError>)
    requires db.Valid()
    modifies db
    ensures first.Ok? ==> second == Err(AlreadyApplied)
    ensures first.Ok? ==>
      && suggestionId in old(db.suggestions) && productId in db.products
      && db.products[productId].currentPrice == old(db.suggestions)[suggestionId].suggestedPrice
  {
    first := ApplySuggestion(db, Some(productId), Some(suggestionId), NoFault);
    second := ApplySuggestion(db, Some(productId), Some(suggestionId), NoFault);
  }

  /** After a successful apply the guard refuses the same pair as already applied. */
  lemma ReapplyIsRejected(products: map<Id, Product>, suggestions: map<Id, Suggestion>, productId: Id, suggestionId: Id)
    requires ApplyGuard(products, suggestions, Some(productId), Some(suggestionId)).None?
    ensures var s := suggestions[suggestionId];
      ApplyGuard(products[productId := Repriced(products[productId], s)],
                 suggestions[suggestionId := s.(applied := true)],
                 Some(productId), Some(suggestionId)) == Some(AlreadyApplied)
  {
  }

  // ---------------------------------------------------------------------------
  // The suggestion list filter.

  /** The query getSuggestions builds: a product filter when a product id is given, and an
      applied filter whenever the parameter is present at all. */
  datatype SuggestionQuery = SuggestionQuery(productId: Option<Id>, applied: Option<bool>)

  /** Only the exact text "true" asks for applied suggestions; any other present value,
      "false", "yes" or the empty text alike, asks for unapplied ones. */
  function QueryOf(productId: Option<Id>, applied: Option<string>): (q: SuggestionQuery)
    ensures q.productId == productId
    ensures q.applied.None? <==> applied.None?
    ensures q.applied == Some(true) <==> applied == Some("true")
    ensures q.applied == Some(false) <==> applied.Some? && applied.value != "true"
  {
    SuggestionQuery(productId, if applied.Some? then Some(applied.value == "true") else None)
  }

  predicate Selects(q: SuggestionQuery, s: Suggestion)
  {
    && (q.productId.Some? ==> s.productId == q.productId.value)
    && (q.applied.Some? ==> s.applied == q.applied.value)
  }

  /** The ids of the suggestions the query selects. */
  function FindSuggestions(suggestions: map<Id, Suggestion>, q: SuggestionQuery): set<Id>
  {
    set id | id in suggestions && Selects(q, suggestions[id])
  }

  /** getSuggestions lists exactly the stored suggestions that belong to the requested
      product when one is given and, when the parameter is present, are applied exactly when
      it is the text "true"; without the parameter both applied and unapplied ones are listed. */
  lemma FilterMeaning(suggestions: map<Id, Suggestion>, productId: Option<Id>, applied: Option<string>)
    ensures var r := FindSuggestions(suggestions, QueryOf(productId, applied));
      forall id :: id in r <==>
        && id in suggestions
        && (applied.Some? ==> suggestions[id].applied == (applied.value == "true"))
        && (productId.Some? ==> suggestions[id].productId == productId.value)
  {
  }
}
