/** Product intake: validating uploaded records (validateProduct), splitting a batch into
    valid and rejected rows and upserting the valid ones by SKU (uploadProducts), and
    whitelisted updates (updateProduct). */
module ProductController {
  import opened Wrappers
  import opened Catalog
  import opened Store

  // ---------------------------------------------------------------------------
  // Text.

  /** The characters String.prototype.trim removes: the ECMAScript WhiteSpace and
      LineTerminator code points. */
  predicate IsSpace(c: char)
  {
    || ('\U{0009}' <= c <= '\U{000D}')
    || c == ' ' || c == '\U{00A0}' || c == '\U{1680}'
    || ('\U{2000}' <= c <= '\U{200A}')
    || c == '\U{2028}' || c == '\U{2029}' || c == '\U{202F}' || c == '\U{205F}' || c == '\U{3000}'
    || c == '\U{FEFF}'
  }

  predicate Blank(s: string)
  {
    forall i :: 0 <= i < |s| ==> IsSpace(s[i])
  }

  /** The text without its leading spaces: a suffix of it, not starting with a space,
      whose every cut-off character is a space. */
  function TrimStart(s: string): (r: string)
    ensures |r| <= |s| && r == s[|s| - |r|..]
    ensures r == [] || !IsSpace(r[0])
    ensures forall i :: 0 <= i < |s| - |r| ==> IsSpace(s[i])
  {
    if s != [] && IsSpace(s[0]) then
      var r := TrimStart(s[1..]);
      assert forall i :: 1 <= i < |s| - |r| ==> s[i] == s[1..][i - 1];
      r
    else s
  }

  /** The text without its trailing spaces: a prefix of it, not ending with a space, whose
      every cut-off character is a space. */
  function TrimEnd(s: string): (r: string)
    ensures |r| <= |s| && r == s[..|r|]
    ensures r == [] || !IsSpace(r[|r| - 1])
    ensures forall i :: |r| <= i < |s| ==> IsSpace(s[i])
  {
    if s != [] && IsSpace(s[|s| - 1]) then
      var r := TrimEnd(s[..|s| - 1]);
      assert forall i :: |r| <= i < |s| - 1 ==> s[i] == s[..|s| - 1][i];
      r
    else s
  }

  /** String.prototype.trim: the trimmed text is no longer than the text and neither
      starts nor ends with a space. */
  function Trim(s: string): (r: string)
    ensures |r| <= |s|
    ensures r == [] || (!IsSpace(r[0]) && !IsSpace(r[|r| - 1]))
  {
    var u := TrimStart(s);
    var t := TrimEnd(u);
    assert t != [] ==> t[0] == u[0];
    t
  }

  /** The trimmed text is the slice of the text that follows its blank prefix (the cut-off
      prefix is blank by TrimStart's own contract). */
  lemma TrimSlice(s: string)
    ensures Trim(s) == s[|s| - |TrimStart(s)|..|s| - |TrimStart(s)| + |Trim(s)|]
  {
    var u := TrimStart(s);
    var t := TrimEnd(u);
    PrefixOfSuffix(s, |s| - |u|, u, t);
  }

  lemma PrefixOfSuffix(s: string, i: nat, u: string, t: string)
    requires i <= |s| && u == s[i..] && |t| <= |u| && t == u[..|t|]
    ensures t == s[i..i + |t|]
  {
  }

  /** Every character after the trimmed text is a space. */
  lemma TrimSuffixBlank(s: string)
    ensures forall i :: |s| - |TrimStart(s)| + |Trim(s)| <= i < |s| ==> IsSpace(s[i])
  {
    var u := TrimStart(s);
    var t := TrimEnd(u);
    assert forall i :: |s| - |u| <= i < |s| ==> s[i] == u[i - (|s| - |u|)];
  }

  /** The trimmed text is empty exactly when the text is all spaces. */
  lemma TrimEmptyIffBlank(s: string)
    ensures Trim(s) == [] <==> Blank(s)
  {
    var u := TrimStart(s);
    assert forall i :: |s| - |u| <= i < |s| ==> s[i] == u[i - (|s| - |u|)];
  }

  /** Trimming twice is trimming once. */
  lemma TrimIdempotent(s: string)
    ensures Trim(Trim(s)) == Trim(s)
  {
    var t := Trim(s);
    if t != [] {
      assert TrimStart(t) == t;
      assert TrimEnd(t) == t;
    }
  }

  /** JavaScript truthiness of an optional text: present and non-empty. */
  predicate Truthy(s: Option<string>)
  {
    s.Some? && s.value != ""
  }

  // ---------------------------------------------------------------------------
  // Raw records and validation.

  /** A number as the checks see it: NaN (which an absent field also coerces to) or a
      value. */
  datatype RawNumber = NaN | Num(value: real)

  /** An uploaded record before validation: a text field may be absent, the inventory may
      be absent, and the sales history is kept only when it is an array. */
  datatype RawProduct = RawProduct(
    name: Option<string>,
    sku: Option<string>,
    category: Option<string>,
    cost: RawNumber,
    currentPrice: RawNumber,
    inventory: Option<RawNumber>,
    salesHistory: Option<seq<SalesRecord>>)

  /** The refusals of validateProduct, in the order it checks them. */
  datatype ValidationError =
    | NameRequired
    | SkuRequired
    | CategoryRequired
    | InvalidCost
    | InvalidPrice
    | InvalidInventory

  function Rank(e: ValidationError): nat
  {
    match e
    case NameRequired => 0
    case SkuRequired => 1
    case CategoryRequired => 2
    case InvalidCost => 3
    case InvalidPrice => 4
    case InvalidInventory => 5
  }

  /** parseInt of a finite number: the integer part, truncated toward zero. */
  function TruncInt(x: real): (n: int)
    ensures x >= 0.0 ==> n as real <= x < n as real + 1.0
    ensures x < 0.0 ==> n as real - 1.0 < x <= n as real
  {
    if x >= 0.0 then x.Floor else -((-x).Floor)
  }

  /** A required text is absent or trims to the empty text, that is, it is all spaces
      (TrimEmptyIffBlank). */
  predicate MissingText(s: Option<string>)
  {
    s.None? || Blank(s.value)
  }

  /** A number fails when NaN or negative. */
  predicate BadNumber(x: RawNumber)
  {
    x.NaN? || x.value < 0.0
  }

  /** Whether the record fails the given check, each check on its own. */
  predicate Fails(p: RawProduct, e: ValidationError)
  {
    match e
    case NameRequired => MissingText(p.name)
    case SkuRequired => MissingText(p.sku)
    case CategoryRequired => MissingText(p.category)
    case InvalidCost => BadNumber(p.cost)
    case InvalidPrice => BadNumber(p.currentPrice)
    case InvalidInventory => p.inventory.Some? && (p.inventory.value.NaN? || TruncInt(p.inventory.value.value) < 0)
  }

  /** validateProduct: the first failing check in order, or none. */
  function ValidateProduct(p: RawProduct): (r: Option<ValidationError>)
    ensures r.None? <==> forall e :: !Fails(p, e)
    ensures r.Some? ==> Fails(p, r.value) && forall e :: Rank(e) < Rank(r.value) ==> !Fails(p, e)
  {
    assert Fails(p, NameRequired) == MissingText(p.name) && Fails(p, SkuRequired) == MissingText(p.sku);
    assert Fails(p, CategoryRequired) == MissingText(p.category) && Fails(p, InvalidCost) == BadNumber(p.cost);
    assert Fails(p, InvalidPrice) == BadNumber(p.currentPrice);
    assert Fails(p, InvalidInventory) == (p.inventory.Some? && (p.inventory.value.NaN? || TruncInt(p.inventory.value.value) < 0));
    if MissingText(p.name) then Some(NameRequired)
    else if MissingText(p.sku) then Some(SkuRequired)
    else if MissingText(p.category) then Some(CategoryRequired)
    else if BadNumber(p.cost) then Some(InvalidCost)
    else if BadNumber(p.currentPrice) then Some(InvalidPrice)
    else if p.inventory.Some? && (p.inventory.value.NaN? || TruncInt(p.inventory.value.value) < 0) then Some(InvalidInventory)
    else None
  }

  /** A fractional inventory between -1 and 0 passes, since parseInt reads it as zero. */
  lemma SmallNegativeInventoryPasses(p: RawProduct)
    requires !MissingText(p.name) && !MissingText(p.sku) && !MissingText(p.category)
    requires !BadNumber(p.cost) && !BadNumber(p.currentPrice)
    requires p.inventory == Some(Num(-0.5))
    ensures ValidateProduct(p).None?
  {
  }

  /** The record validateProduct accepts, as stored: trimmed texts, the inventory's integer
      part or 0 when absent, and the sales history or none. */
  function Normalize(p: RawProduct): (q: Product)
    requires ValidateProduct(p).None?
    ensures q.name == Trim(p.name.value) && q.name != ""
    ensures q.sku == Trim(p.sku.value) && q.sku != ""
    ensures q.category == Trim(p.category.value) && q.category != ""
    ensures q.cost == p.cost.value && q.cost >= 0.0
    ensures q.currentPrice == p.currentPrice.value && q.currentPrice >= 0.0
    ensures q.inventory >= 0
    ensures p.inventory.Some? ==> q.inventory == TruncInt(p.inventory.value.value)
    ensures p.inventory.None? ==> q.inventory == 0
    ensures p.salesHistory.Some? ==> q.salesHistory == p.salesHistory.value
    ensures p.salesHistory.None? ==> q.salesHistory == []
  {
    assert !Fails(p, NameRequired) && !Fails(p, SkuRequired) && !Fails(p, CategoryRequired);
    assert !Fails(p, InvalidCost) && !Fails(p, InvalidPrice) && !Fails(p, InvalidInventory);
    TrimEmptyIffBlank(p.name.value);
    TrimEmptyIffBlank(p.sku.value);
    TrimEmptyIffBlank(p.category.value);
    Product(
      Trim(p.name.value),
      Trim(p.sku.value),
      Trim(p.category.value),
      p.cost.value,
      p.currentPrice.value,
      if p.inventory.Some? then TruncInt(p.inventory.value.value) else 0,
      if p.salesHistory.Some? then p.salesHistory.value else [])
  }

  /** A rejected row: its index in the batch, the record's name or else its sku, and the
      first failing check. */
  datatype ErrorRow = ErrorRow(index: nat, product: Option<string>, error: ValidationError)

  /** `product.name || product.sku`. */
  function Label(p: RawProduct): Option<string>
  {
    if Truthy(p.name) then p.name else p.sku
  }

  // ---------------------------------------------------------------------------
  // Splitting a batch.

  /** The normalized records of the batch that pass validation, in batch order. */
  function ValidRows(batch: seq<RawProduct>): (rows: seq<Product>)
    ensures |rows| <= |batch|
    ensures forall i :: 0 <= i < |rows| ==>
      && rows[i].name != "" && rows[i].sku != "" && rows[i].category != ""
      && rows[i].cost >= 0.0 && rows[i].currentPrice >= 0.0 && rows[i].inventory >= 0
  {
    if batch == [] then []
    else
      var last := batch[|batch| - 1];
      ValidRows(batch[..|batch| - 1]) + (if ValidateProduct(last).None? then [Normalize(last)] else [])
  }

  /** The rejected rows of the batch, in batch order. */
  function ErrorRows(batch: seq<RawProduct>): (rows: seq<ErrorRow>)
    ensures |rows| <= |batch|
    ensures forall j :: 0 <= j < |rows| ==> rows[j].index < |batch|
  {
    if batch == [] then []
    else
      var n := |batch| - 1;
      var v := ValidateProduct(batch[n]);
      ErrorRows(batch[..n]) + (if v.Some? then [ErrorRow(n, Label(batch[n]), v.value)] else [])
  }

  /** The validation loop of uploadProducts. */
  method PartitionProducts(batch: seq<RawProduct>) returns (valid: seq<Product>, errors: seq<ErrorRow>)
    ensures valid == ValidRows(batch)
    ensures errors == ErrorRows(batch)
  {
    valid, errors := [], [];
    for i := 0 to |batch|
      invariant valid == ValidRows(batch[..i])
      invariant errors == ErrorRows(batch[..i])
    {
      assert batch[..i + 1][..i] == batch[..i];
      var product := batch[i];
      var validationError := ValidateProduct(product);
      if validationError.Some? {
        errors := errors + [ErrorRow(i, Label(product), validationError.value)];
      } else {
        valid := valid + [Normalize(product)];
      }
    }
    assert batch[..|batch|] == batch;
  }

  /** Every record goes to exactly one side: the two counts add up to the batch size. */
  lemma {:induction false} PartitionCounts(batch: seq<RawProduct>)
    ensures |ValidRows(batch)| + |ErrorRows(batch)| == |batch|
  {
    if batch != [] {
      PartitionCounts(batch[..|batch| - 1]);
    }
  }

  /** A row reports the record at its index: its first failing check and its label. */
  predicate Reports(batch: seq<RawProduct>, row: ErrorRow)
  {
    && row.index < |batch|
    && ValidateProduct(batch[row.index]) == Some(row.error)
    && row.product == Label(batch[row.index])
  }

  /** The rejected rows report their records, with strictly increasing indices. */
  lemma {:induction false} ErrorRowsFaithful(batch: seq<RawProduct>)
    ensures forall j :: 0 <= j < |ErrorRows(batch)| ==> Reports(batch, ErrorRows(batch)[j])
    ensures forall j, k :: 0 <= j < k < |ErrorRows(batch)| ==> ErrorRows(batch)[j].index < ErrorRows(batch)[k].index
  {
    if batch != [] {
      var n := |batch| - 1;
      ErrorRowsFaithful(batch[..n]);
      var prefix, rows := ErrorRows(batch[..n]), ErrorRows(batch);
      forall j | 0 <= j < |rows|
        ensures Reports(batch, rows[j]) && (j < |prefix| ==> rows[j].index < n)
      {
        if j < |prefix| {
          assert rows[j] == prefix[j];
          assert batch[..n][prefix[j].index] == batch[prefix[j].index];
        }
      }
    }
  }

  /** The rejected row of a record that fails validation. */
  lemma {:induction false} ErrorRowOf(batch: seq<RawProduct>, i: nat) returns (j: nat)
    requires i < |batch| && ValidateProduct(batch[i]).Some?
    ensures j < |ErrorRows(batch)| && ErrorRows(batch)[j].index == i
  {
    var n := |batch| - 1;
    var prefix := ErrorRows(batch[..n]);
    if i < n {
      assert batch[..n][i] == batch[i];
      j := ErrorRowOf(batch[..n], i);
      assert ErrorRows(batch)[j] == prefix[j];
    } else {
      j := |prefix|;
    }
  }

  /** A record is rejected exactly when some rejected row carries its index. */
  lemma ErrorRowsComplete(batch: seq<RawProduct>, i: nat)
    requires i < |batch|
    ensures ValidateProduct(batch[i]).Some? <==> exists j :: 0 <= j < |ErrorRows(batch)| && ErrorRows(batch)[j].index == i
  {
    ErrorRowsFaithful(batch);
    if ValidateProduct(batch[i]).Some? {
      var j := ErrorRowOf(batch, i);
    }
  }

  // ---------------------------------------------------------------------------
  // Upserting by SKU.

  /** The products collection with the id counter, and the two counts the upsert loop keeps. */
  datatype Shelf = Shelf(products: map<Id, Product>, nextId: Id, inserted: nat, updated: nat)

  /** Every product id is below the counter and no two products share a SKU. */
  predicate Stocked(s: Shelf)
  {
    (forall id :: id in s.products ==> id < s.nextId) && UniqueSkus(s.products)
  }

  /** `findOne({ sku })`: the stored product holding the SKU, if any. */
  function Lookup(s: Shelf, sku: string): (r: Option<Product>)
    ensures r.Some? ==> r.value.sku == sku
    ensures r.None? ==> forall id :: id in s.products && id < s.nextId ==> s.products[id].sku != sku
  {
    match SkuOwner(s.products, s.nextId, sku)
    case Some(id) => Some(s.products[id])
    case None => None
  }

  /** Under unique SKUs the lookup finds the one product that holds the SKU. */
  lemma OwnerIsUnique(s: Shelf, id: Id)
    requires Stocked(s) && id in s.products
    ensures Lookup(s, s.products[id].sku) == Some(s.products[id])
  {
    var owner := SkuOwner(s.products, s.nextId, s.products[id].sku);
    assert owner.Some?;
  }

  /** One pass of the upsert loop: a stored product with the record's SKU takes every field
      of the record and keeps its id; otherwise the record is inserted under a fresh id. */
  function Upsert(s: Shelf, p: Product): (t: Shelf)
    ensures t.inserted + t.updated == s.inserted + s.updated + 1
    ensures t.nextId - s.nextId == t.inserted - s.inserted
  {
    match SkuOwner(s.products, s.nextId, p.sku)
    case Some(id) => s.(products := s.products[id := p], updated := s.updated + 1)
    case None => s.(products := s.products[s.nextId := p], nextId := s.nextId + 1, inserted := s.inserted + 1)
  }

  /** The upsert loop over a batch, in batch order: every record counts once, as an
      insert or an update, and only inserts take new ids. */
  function UpsertAll(s: Shelf, batch: seq<Product>): (t: Shelf)
    ensures t.inserted + t.updated == s.inserted + s.updated + |batch|
    ensures t.nextId - s.nextId == t.inserted - s.inserted
  {
    if batch == [] then s
    else Upsert(UpsertAll(s, batch[..|batch| - 1]), batch[|batch| - 1])
  }

  /** The loop over one more record is one more pass. */
  lemma UpsertAllStep(s: Shelf, batch: seq<Product>, i: nat)
    requires i < |batch|
    ensures UpsertAll(s, batch[..i + 1]) == Upsert(UpsertAll(s, batch[..i]), batch[i])
  {
    assert batch[..i + 1][..i] == batch[..i];
  }

  /** One pass keeps the invariants. */
  lemma UpsertStocked(s: Shelf, p: Product)
    requires Stocked(s)
    ensures Stocked(Upsert(s, p))
  {
    var owner := SkuOwner(s.products, s.nextId, p.sku);
    var changed := if owner.Some? then owner.value else s.nextId;
    assert Upsert(s, p).products == s.products[changed := p];
  }

  /** After one pass the record is what its SKU holds. */
  lemma UpsertHolds(s: Shelf, p: Product)
    requires Stocked(s)
    ensures Lookup(Upsert(s, p), p.sku) == Some(p)
  {
    var owner := SkuOwner(s.products, s.nextId, p.sku);
    var changed := if owner.Some? then owner.value else s.nextId;
    UpsertStocked(s, p);
    OwnerIsUnique(Upsert(s, p), changed);
  }

  /** One pass leaves the lookup of every other SKU as it was. */
  lemma UpsertKeepsLookup(s: Shelf, p: Product, sku: string)
    requires Stocked(s) && sku != p.sku
    ensures Lookup(Upsert(s, p), sku) == Lookup(s, sku)
  {
    UpsertStocked(s, p);
    if Lookup(s, sku).Some? {
      OwnerIsUnique(Upsert(s, p), SkuOwner(s.products, s.nextId, sku).value);
    }
  }

  /** One pass leaves a product with another SKU where it was. */
  lemma UpsertKeepsProduct(s: Shelf, p: Product, id: Id)
    requires Stocked(s) && id in s.products && s.products[id].sku != p.sku
    ensures id in Upsert(s, p).products && Upsert(s, p).products[id] == s.products[id]
  {
  }

  /** One pass adds a key only when it inserts, and then the one the counter passes over. */
  lemma UpsertKeys(s: Shelf, p: Product)
    ensures forall id :: id in Upsert(s, p).products <==> id in s.products || s.nextId <= id < Upsert(s, p).nextId
  {
  }

  /** The whole loop keeps the invariants. */
  lemma {:induction false} UpsertAllStocked(s: Shelf, batch: seq<Product>)
    requires Stocked(s)
    ensures Stocked(UpsertAll(s, batch))
  {
    if batch != [] {
      var prefix := batch[..|batch| - 1];
      UpsertAllStocked(s, prefix);
      UpsertStocked(UpsertAll(s, prefix), batch[|batch| - 1]);
    }
  }

  /** The counter never goes back, and exactly the ids it passes over are new. */
  lemma {:induction false} UpsertAllIds(s: Shelf, batch: seq<Product>)
    ensures UpsertAll(s, batch).nextId >= s.nextId
    ensures forall id :: id in UpsertAll(s, batch).products <==>
      id in s.products || s.nextId <= id < UpsertAll(s, batch).nextId
  {
    if batch != [] {
      var prefix := batch[..|batch| - 1];
      UpsertAllIds(s, prefix);
      UpsertKeys(UpsertAll(s, prefix), batch[|batch| - 1]);
      assert UpsertAll(s, batch) == Upsert(UpsertAll(s, prefix), batch[|batch| - 1]);
    }
  }

  /** The last record of the batch with a given SKU is what that SKU holds afterwards. */
  lemma {:induction false} LastRecordWins(s: Shelf, batch: seq<Product>, i: nat)
    requires Stocked(s) && i < |batch|
    requires forall j :: i < j < |batch| ==> batch[j].sku != batch[i].sku
    ensures Lookup(UpsertAll(s, batch), batch[i].sku) == Some(batch[i])
  {
    var n := |batch| - 1;
    var prefix := batch[..n];
    var before := UpsertAll(s, prefix);
    UpsertAllStocked(s, prefix);
    assert UpsertAll(s, batch) == Upsert(before, batch[n]);
    if i < n {
      assert prefix[i] == batch[i];
      LastRecordWins(s, prefix, i);
      UpsertKeepsLookup(before, batch[n], batch[i].sku);
    } else {
      UpsertHolds(before, batch[n]);
    }
  }

  /** A stored product whose SKU no record of the batch carries keeps its id and contents. */
  lemma {:induction false} UntouchedOutsideBatch(s: Shelf, batch: seq<Product>, id: Id)
    requires Stocked(s) && id in s.products
    requires forall k :: 0 <= k < |batch| ==> batch[k].sku != s.products[id].sku
    ensures id in UpsertAll(s, batch).products && UpsertAll(s, batch).products[id] == s.products[id]
  {
    if batch != [] {
      var n := |batch| - 1;
      UntouchedOutsideBatch(s, batch[..n], id);
      UpsertAllStocked(s, batch[..n]);
      UpsertKeepsProduct(UpsertAll(s, batch[..n]), batch[n], id);
    }
  }

  /** How many records of the batch save before the first one whose sales history breaks the
      schema's bounds, the save that throws. */
  function SavedPrefix(batch: seq<Product>): (k: nat)
    ensures k <= |batch|
    ensures forall j :: 0 <= j < k ==> HistoryInSchema(batch[j].salesHistory)
    ensures k < |batch| ==> !HistoryInSchema(batch[k].salesHistory)
  {
    if batch == [] || !HistoryInSchema(batch[0].salesHistory) then 0
    else 1 + SavedPrefix(batch[1..])
  }

  /** What the upsert loop leaves behind, starting from both counts at zero: every record
      up to the first failing save. */
  function Upserted(products: map<Id, Product>, nextId: Id, batch: seq<Product>): Shelf
  {
    UpsertAll(Shelf(products, nextId, 0, 0), batch[..SavedPrefix(batch)])
  }

  /** The upsert loop of uploadProducts on the database: each record is looked up by SKU and
      either replaces the stored product or is inserted under a fresh id. The counts come back
      when every save succeeds; a failing save ends the loop with the earlier writes kept. */
  method UpsertProducts(db: Database, batch: seq<Product>) returns (counts: Option<(nat, nat)>)
    requires db.Valid()
    modifies db
    ensures db.Valid() && db.suggestions == old(db.suggestions)
    ensures db.products == Upserted(old(db.products), old(db.nextId), batch).products
    ensures db.nextId == Upserted(old(db.products), old(db.nextId), batch).nextId
    ensures counts.Some? <==> SavedPrefix(batch) == |batch|
    ensures counts.Some? ==>
      counts.value == (Upserted(old(db.products), old(db.nextId), batch).inserted,
                       Upserted(old(db.products), old(db.nextId), batch).updated)
  {
    ghost var start := Shelf(db.products, db.nextId, 0, 0);
    var inserted, updated := 0, 0;
    for i := 0 to |batch|
      invariant db.Valid() && db.suggestions == old(db.suggestions)
      invariant i <= SavedPrefix(batch)
      invariant Shelf(db.products, db.nextId, inserted, updated) == UpsertAll(start, batch[..i])
    {
      var product := batch[i];
      if !HistoryInSchema(product.salesHistory) {
        return None;
      }
      ghost var before := Shelf(db.products, db.nextId, inserted, updated);
      UpsertAllStep(start, batch, i);
      UpsertStocked(before, product);
      var existing := SkuOwner(db.products, db.nextId, product.sku);
      if existing.Some? {
        db.products := db.products[existing.value := product];
        updated := updated + 1;
      } else {
        var id := db.NewId();
        db.products := db.products[id := product];
        inserted := inserted + 1;
      }
      assert Shelf(db.products, db.nextId, inserted, updated) == Upsert(before, product);
    }
    assert batch[..|batch|] == batch;
    counts := Some((inserted, updated));
  }

  // ---------------------------------------------------------------------------
  // Uploading.

  /** What uploadProducts reads from a request: the rows of an uploaded file, already mapped
      to records; the body's `products` field when it is an array; and the body itself as
      one record. */
  datatype UploadRequest = UploadRequest(
    file: Option<seq<RawProduct>>,
    products: Option<seq<RawProduct>>,
    body: RawProduct)

  /** The batch a request carries: a file wins over a `products` array, which wins over a
      single record with a name and a SKU; any other request carries none. */
  function RequestBatch(req: UploadRequest): (batch: Option<seq<RawProduct>>)
    ensures req.file.Some? ==> batch == req.file
    ensures req.file.None? && req.products.Some? ==> batch == req.products
    ensures req.file.None? && req.products.None? ==>
      (batch.Some? <==> Truthy(req.body.name) && Truthy(req.body.sku)) &&
      (batch.Some? ==> batch.value == [req.body])
  {
    if req.file.Some? then req.file
    else if req.products.Some? then req.products
    else if Truthy(req.body.name) && Truthy(req.body.sku) then Some([req.body])
    else None
  }

  /** The refusals of uploadProducts: a request with no batch and a batch with no valid
      record (both 400), and a save that throws (500). */
  datatype UploadError = InvalidFormat | NoValidProducts(errors: seq<ErrorRow>) | UploadFailed

  /** The 201 answer: how many records were inserted and updated, and the rejected rows. */
  datatype UploadReport = UploadReport(inserted: nat, updated: nat, errors: seq<ErrorRow>)

  /** uploadProducts: pick the batch, split it, refuse it when nothing validates, then
      upsert the valid records. A refused request leaves the products as they were. */
  method UploadProducts(db: Database, req: UploadRequest) returns (r: Result<UploadReport, UploadError>)
    requires db.Valid()
    modifies db
    ensures db.Valid() && db.suggestions == old(db.suggestions)
    ensures RequestBatch(req).None? ==>
      r == Err(InvalidFormat) && db.products == old(db.products) && db.nextId == old(db.nextId)
    ensures RequestBatch(req).Some? && ValidRows(RequestBatch(req).value) == [] ==>
      && r == Err(NoValidProducts(ErrorRows(RequestBatch(req).value)))
      && db.products == old(db.products) && db.nextId == old(db.nextId)
    ensures RequestBatch(req).Some? && ValidRows(RequestBatch(req).value) != [] ==>
      && db.products == Upserted(old(db.products), old(db.nextId), ValidRows(RequestBatch(req).value)).products
      && db.nextId == Upserted(old(db.products), old(db.nextId), ValidRows(RequestBatch(req).value)).nextId
      && (r.Ok? <==> SavedPrefix(ValidRows(RequestBatch(req).value)) == |ValidRows(RequestBatch(req).value)|)
      && (r.Err? ==> r.error == UploadFailed)
      && (r.Ok? ==> r.value == UploadReport(
            Upserted(old(db.products), old(db.nextId), ValidRows(RequestBatch(req).value)).inserted,
            Upserted(old(db.products), old(db.nextId), ValidRows(RequestBatch(req).value)).updated,
            ErrorRows(RequestBatch(req).value)))
  {
    var products: seq<RawProduct>;
    if req.file.Some? {
      products := req.file.value;
    } else if req.products.Some? {
      products := req.products.value;
    } else if Truthy(req.body.name) && Truthy(req.body.sku) {
      products := [req.body];
    } else {
      return Err(InvalidFormat);
    }
    var validated, errors := PartitionProducts(products);
    if |validated| == 0 {
      return Err(NoValidProducts(errors));
    }
    var counts := UpsertProducts(db, validated);
    if counts.None? {
      return Err(UploadFailed);
    }
    r := Ok(UploadReport(counts.value.0, counts.value.1, errors));
  }

  /** A fully saved upload accounts for every record of the batch: inserted, updated and
      rejected add up to its size. */
  lemma UploadAccounts(products: map<Id, Product>, nextId: Id, batch: seq<RawProduct>)
    requires SavedPrefix(ValidRows(batch)) == |ValidRows(batch)|
    ensures Upserted(products, nextId, ValidRows(batch)).inserted +
            Upserted(products, nextId, ValidRows(batch)).updated + |ErrorRows(batch)| == |batch|
  {
    var valid := ValidRows(batch);
    assert valid[..|valid|] == valid;
    PartitionCounts(batch);
    UpsertAllIds(Shelf(products, nextId, 0, 0), valid);
  }

  // ---------------------------------------------------------------------------
  // Updating.

  /** A value in an update body, by its JSON kind; `Other` is any kind no product field
      takes (null, a boolean, an object). */
  datatype Value = Text(text: string) | Number(number: real) | Records(records: seq<SalesRecord>) | Other

  /** The keys an update may carry; `sku` is not among them. */
  const AllowedKeys: set<string> := {"name", "category", "cost", "current_price", "inventory", "sales_history"}

  /** A required, trimmed text field after assignment: the trimmed text, or a failure when it
      is blank or not a text. */
  function SetText(current: string, v: Option<Value>): (r: Option<string>)
    ensures v.None? ==> r == Some(current)
    ensures v.Some? && r.Some? ==> v.value.Text? && r.value == Trim(v.value.text) && r.value != ""
  {
    match v
    case None => Some(current)
    case Some(Text(t)) => if Trim(t) == "" then None else Some(Trim(t))
    case Some(_) => None
  }

  /** A number field with `min: 0` after assignment. */
  function SetAmount(current: real, v: Option<Value>): (r: Option<real>)
    ensures v.None? ==> r == Some(current)
    ensures v.Some? && r.Some? ==> v.value == Number(r.value) && r.value >= 0.0
  {
    match v
    case None => Some(current)
    case Some(Number(x)) => if x < 0.0 then None else Some(x)
    case Some(_) => None
  }

  /** The inventory after assignment: a whole number at least 0. */
  function SetCount(current: int, v: Option<Value>): (r: Option<int>)
    ensures v.None? ==> r == Some(current)
    ensures v.Some? && r.Some? ==> v.value == Number(r.value as real) && r.value >= 0
  {
    match v
    case None => Some(current)
    case Some(Number(x)) => if x < 0.0 || x != x.Floor as real then None else Some(x.Floor)
    case Some(_) => None
  }

  /** The sales history after assignment: every record within the schema's bounds. */
  function SetHistory(current: seq<SalesRecord>, v: Option<Value>): (r: Option<seq<SalesRecord>>)
    ensures v.None? ==> r == Some(current)
    ensures v.Some? && r.Some? ==> v.value == Records(r.value) && HistoryInSchema(r.value)
  {
    match v
    case None => Some(current)
    case Some(Records(h)) => if HistoryInSchema(h) then Some(h) else None
    case Some(_) => None
  }

  function Field(body: map<string, Value>, key: string): Option<Value>
  {
    if key in body then Some(body[key]) else None
  }

  /** `Object.assign(product, body)` followed by the schema's casting and validation on
      save: the updated product, or none when the save would throw. */
  function ApplyUpdate(p: Product, body: map<string, Value>): (r: Option<Product>)
    ensures r.Some? ==> r.value.sku == p.sku
  {
    var name := SetText(p.name, Field(body, "name"));
    var category := SetText(p.category, Field(body, "category"));
    var cost := SetAmount(p.cost, Field(body, "cost"));
    var price := SetAmount(p.currentPrice, Field(body, "current_price"));
    var inventory := SetCount(p.inventory, Field(body, "inventory"));
    var history := SetHistory(p.salesHistory, Field(body, "sales_history"));
    if name.Some? && category.Some? && cost.Some? && price.Some? && inventory.Some? && history.Some? then
      Some(Product(name.value, p.sku, category.value, cost.value, price.value, inventory.value, history.value))
    else None
  }

  /** An update keeps every field whose key the body lacks, and keeps a product within the
      schema's bounds. */
  lemma UpdateKeeps(p: Product, body: map<string, Value>)
    requires ApplyUpdate(p, body).Some?
    ensures "name" !in body ==> ApplyUpdate(p, body).value.name == p.name
    ensures "category" !in body ==> ApplyUpdate(p, body).value.category == p.category
    ensures "cost" !in body ==> ApplyUpdate(p, body).value.cost == p.cost
    ensures "current_price" !in body ==> ApplyUpdate(p, body).value.currentPrice == p.currentPrice
    ensures "inventory" !in body ==> ApplyUpdate(p, body).value.inventory == p.inventory
    ensures "sales_history" !in body ==> ApplyUpdate(p, body).value.salesHistory == p.salesHistory
    ensures InSchema(p) ==> InSchema(ApplyUpdate(p, body).value)
  {
  }

  /** An empty body saves the product unchanged. */
  lemma EmptyUpdate(p: Product)
    ensures ApplyUpdate(p, map[]) == Some(p)
  {
  }

  /** Replacing a product by one with the same SKU keeps the ids, every SKU, and so their
      uniqueness. */
  lemma SameSkuKeepsUnique(products: map<Id, Product>, id: Id, q: Product)
    requires UniqueSkus(products) && id in products && q.sku == products[id].sku
    ensures products[id := q].Keys == products.Keys
    ensures forall k :: k in products[id := q] ==> products[id := q][k].sku == products[k].sku
    ensures UniqueSkus(products[id := q])
  {
    var after := products[id := q];
    forall a, b | a in after && b in after && a != b
      ensures after[a].sku != after[b].sku
    {
      assert after[a].sku == products[a].sku && after[b].sku == products[b].sku;
    }
  }

  /** `product.save()` of an updated product: it replaces the stored one, keeping its id
      and its SKU, so the store stays valid. */
  method Save(db: Database, id: Id, q: Product)
    requires db.Valid() && id in db.products && q.sku == db.products[id].sku
    modifies db
    ensures db.Valid() && db.suggestions == old(db.suggestions) && db.nextId == old(db.nextId)
    ensures db.products == old(db.products)[id := q]
    ensures db.products.Keys == old(db.products).Keys
    ensures forall k :: k in db.products ==> db.products[k].sku == old(db.products)[k].sku
  {
    SameSkuKeepsUnique(db.products, id, q);
    db.products := db.products[id := q];
  }

  /** The refusals of updateProduct: an unknown id (404), a key outside the whitelist (400),
      and a save that throws (500). */
  datatype UpdateError = ProductNotFound | InvalidUpdates | UpdateFailed

  /** updateProduct: look the product up, check every key of the body against the
      whitelist, then assign and save. Only a successful save changes the product, and no
      update ever changes a SKU. */
  method UpdateProduct(db: Database, id: Id, body: map<string, Value>) returns (r: Result<Product, UpdateError>)
    requires db.Valid()
    modifies db
    ensures db.Valid() && db.suggestions == old(db.suggestions) && db.nextId == old(db.nextId)
    ensures id !in old(db.products) ==> r == Err(ProductNotFound) && db.products == old(db.products)
    ensures id in old(db.products) && !(body.Keys <= AllowedKeys) ==>
      r == Err(InvalidUpdates) && db.products == old(db.products)
    ensures id in old(db.products) && body.Keys <= AllowedKeys && ApplyUpdate(old(db.products)[id], body).None? ==>
      r == Err(UpdateFailed) && db.products == old(db.products)
    ensures id in old(db.products) && body.Keys <= AllowedKeys && ApplyUpdate(old(db.products)[id], body).Some? ==>
      && r == Ok(ApplyUpdate(old(db.products)[id], body).value)
      && db.products == old(db.products)[id := ApplyUpdate(old(db.products)[id], body).value]
    ensures "sku" in body ==> db.products == old(db.products)
    ensures db.products.Keys == old(db.products).Keys
    ensures forall k :: k in db.products ==> db.products[k].sku == old(db.products)[k].sku
  {
    if id !in db.products {
      r := Err(ProductNotFound);
    } else if !(body.Keys <= AllowedKeys) {
      r := Err(InvalidUpdates);
    } else {
      assert "sku" !in body;
      var updated := ApplyUpdate(db.products[id], body);
      if updated.None? {
        r := Err(UpdateFailed);
      } else {
        Save(db, id, updated.value);
        r := Ok(updated.value);
      }
    }
  }
}
