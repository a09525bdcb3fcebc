/** The sales page's stock bookkeeping: the products and sales tables of the
    remote store, the product list the page caches, and what each of the three
    sale handlers (create, edit, delete) reads and writes, step by step and in
    order, including the ways each can stop half-way. */
module Sales {
  import opened Wrappers
  import opened Text
  import opened Seqs

  type ProductId = int
  type SaleId = int

  /** A row of the products table, as the page fetches it. `reference` is the
      optional reference number. */
  datatype Product = Product(id: ProductId, name: string, reference: Option<string>,
                             quantity: int, price: real)

  /** A row of the sales table. */
  datatype Sale = Sale(id: SaleId, productId: ProductId, quantity: int,
                       unitPrice: real, totalPrice: real)

  /** `total_price = quantity * unit_price`, exact (no floating-point rounding). */
  function TotalPrice(quantity: int, unitPrice: real): real {
    quantity as real * unitPrice
  }

  /** The two tables of the remote store, keyed by row id. */
  datatype Store = Store(products: map<ProductId, Product>, sales: map<SaleId, Sale>)

  // ---------------------------------------------------------------------------
  // The store writes the handlers issue. A write filtered by `.eq('id', id)`
  // that matches no row changes nothing and is not an error.

  /** `insert([row])` into the sales table, under the id the store assigns. */
  function InsertSale(store: Store, sale: Sale): (r: Store)
    ensures r.products == store.products
    ensures r.sales == store.sales[sale.id := sale]
  {
    store.(sales := store.sales[sale.id := sale])
  }

  /** `update({ quantity, unit_price, total_price }).eq('id', id)` on the sales table. */
  function UpdateSaleRow(store: Store, id: SaleId, quantity: int, unitPrice: real, totalPrice: real): (r: Store)
    ensures r.products == store.products
    ensures id in store.sales ==> r.sales == store.sales[id := store.sales[id].(
              quantity := quantity, unitPrice := unitPrice, totalPrice := totalPrice)]
    ensures id !in store.sales ==> r == store
  {
    if id in store.sales then
      store.(sales := store.sales[id := store.sales[id].(
        quantity := quantity, unitPrice := unitPrice, totalPrice := totalPrice)])
    else store
  }

  /** `delete().eq('id', id)` on the sales table. */
  function DeleteSaleRow(store: Store, id: SaleId): (r: Store)
    ensures r.products == store.products
    ensures r.sales == store.sales - {id}
  {
    store.(sales := store.sales - {id})
  }

  /** `update({ quantity }).eq('id', id)` on the products table. */
  function SetStock(store: Store, id: ProductId, quantity: int): (r: Store)
    ensures r.sales == store.sales
    ensures r.products.Keys == store.products.Keys
    ensures id in store.products ==> r.products[id] == store.products[id].(quantity := quantity)
    ensures forall other :: other in store.products && other != id ==>
              r.products[other] == store.products[other]
  {
    if id in store.products then
      store.(products := store.products[id := store.products[id].(quantity := quantity)])
    else store
  }

  // ---------------------------------------------------------------------------
  // The cached product list.

  /** `products.find(p => p.id === id)`: the first cached product with that id. */
  function Find(cache: seq<Product>, id: ProductId): (r: Option<Product>)
    ensures r.Some? <==> exists i :: 0 <= i < |cache| && cache[i].id == id
    ensures r.Some? ==> r.value.id == id && r.value in cache
    ensures r.Some? ==> exists i :: (0 <= i < |cache| && cache[i] == r.value &&
              forall j :: 0 <= j < i ==> cache[j].id != id)
  {
    if cache == [] then None
    else if cache[0].id == id then Some(cache[0])
    else
      var r := Find(cache[1..], id);
      assert r.Some? ==> exists i :: (0 <= i < |cache| && cache[i] == r.value &&
               forall j :: 0 <= j < i ==> cache[j].id != id) by {
        if r.Some? {
          var i :| 0 <= i < |cache| - 1 && cache[1..][i] == r.value &&
                   forall j :: 0 <= j < i ==> cache[1..][j].id != id;
          assert cache[i + 1] == r.value;
          forall j | 0 <= j < i + 1 ensures cache[j].id != id {
            if j > 0 { assert cache[j] == cache[1..][j - 1]; }
          }
        }
      }
      assert (exists i :: 0 <= i < |cache| && cache[i].id == id) ==> r.Some? by {
        if exists i :: 0 <= i < |cache| && cache[i].id == id {
          var i :| 0 <= i < |cache| && cache[i].id == id;
          assert cache[1..][i - 1].id == id;
        }
      }
      r
  }

  /** The cached list is what `select('*').gt('quantity', 0)` returned from
      `store`: every cached row is the store's current row for its id and has
      stock left. (The query's optional search term narrows which rows come
      back; this says nothing about which are missing.) */
  predicate IsProductsAnswer(store: Store, cache: seq<Product>) {
    forall i :: 0 <= i < |cache| ==>
      cache[i].id in store.products && store.products[cache[i].id] == cache[i] &&
      cache[i].quantity > 0
  }

  /** A product the store holds with no stock left is never in the cache. */
  lemma SoldOutProductIsNotCached(store: Store, cache: seq<Product>, id: ProductId)
    requires IsProductsAnswer(store, cache)
    requires id in store.products && store.products[id].quantity <= 0
    ensures Find(cache, id) == None
  {
  }

  // ---------------------------------------------------------------------------
  // The product picker's search filter.

  /** `x && x.toLowerCase().includes(term)` for an optional field: null and
      the empty string are falsy. */
  predicate FieldMatches(field: Option<string>, loweredTerm: string) {
    field.Some? && field.value != "" && Contains(Lower(field.value), loweredTerm)
  }

  /** The filter's test: the lower-cased name or reference number contains
      the lower-cased term. */
  predicate Matches(p: Product, term: string) {
    Contains(Lower(p.name), Lower(term)) || FieldMatches(p.reference, Lower(term))
  }

  /** The picker's list: all products for a blank term, the matching ones otherwise. */
  function FilterProducts(products: seq<Product>, term: string): (r: seq<Product>)
  {
    if Trim(term) == "" then products else Filter(products, p => Matches(p, term))
  }

  /** The picker shows every product for a blank or white-space term, and
      otherwise exactly the matching products. */
  lemma FilterProductsChoosesMatches(products: seq<Product>, term: string)
    ensures IsBlank(term) ==> FilterProducts(products, term) == products
    ensures !IsBlank(term) ==> forall p :: p in FilterProducts(products, term) <==>
              p in products && Matches(p, term)
  {
    TrimEmptyIffBlank(term);
  }

  // ---------------------------------------------------------------------------
  // The handlers. Each is the sequence of reads and writes it performs; a
  // failed write (`if (error) throw error`) or a TypeError stops the rest.

  /** How a handler ended. */
  datatype Step =
    | Ignored          // returned at once: a field is empty, or the user did not confirm
    | Rejected         // `alert`: the quantity asked for exceeds the stock
    | Crashed          // a TypeError before the `try`: nothing written, nothing shown
    | SaleWriteFailed  // the sales-table write failed: error notification
    | LookupFailed     // a TypeError inside the `try` after the sale write: error notification
    | StockWriteFailed // the stock write failed after the sale write: error notification
    | Done             // success notification

  datatype Effect = Effect(store: Store, step: Step)

  /** Whether the handler showed the error notification. */
  predicate ShowsError(step: Step) {
    step == SaleWriteFailed || step == LookupFailed || step == StockWriteFailed
  }

  /** handleSubmitSale: with a product picked and both fields filled, reject a
      quantity above the picked product's stock; otherwise insert the sale with
      `total_price = quantity * unit_price` and then write `stock - quantity`
      as the product's new stock. */
  function SubmitSaleEffect(store: Store, selected: Option<Product>, quantity: Option<int>,
                            price: Option<real>, newId: SaleId,
                            saleWriteOk: bool, stockWriteOk: bool): (e: Effect)
  {
    if selected.None? || quantity.None? || price.None? then Effect(store, Ignored)
    else
      var p, q, u := selected.value, quantity.value, price.value;
      if q > p.quantity then Effect(store, Rejected)
      else if !saleWriteOk then Effect(store, SaleWriteFailed)
      else
        var inserted := InsertSale(store, Sale(newId, p.id, q, u, TotalPrice(q, u)));
        if !stockWriteOk then Effect(inserted, StockWriteFailed)
        else Effect(SetStock(inserted, p.id, p.quantity - q), Done)
  }

  /** handleUpdateSale: `delta = quantity - editing.quantity`; the product is
      looked up in the cache by `key` (the picked product's id, None when the
      picked record has no id). With a positive delta the lookup must succeed
      and the stock must cover the delta. The sale row is written first, the
      stock (`stock - delta`) second. */
  function UpdateSaleEffect(store: Store, cache: seq<Product>, key: Option<ProductId>,
                            editing: Option<Sale>, quantity: Option<int>, price: Option<real>,
                            picked: bool, saleWriteOk: bool, stockWriteOk: bool): (e: Effect)
  {
    if !picked || quantity.None? || price.None? || editing.None? then Effect(store, Ignored)
    else
      var s, q, u := editing.value, quantity.value, price.value;
      var delta := q - s.quantity;
      var current := if key.Some? then Find(cache, key.value) else None;
      if delta > 0 && current.None? then Effect(store, Crashed)
      else if delta > 0 && delta > current.value.quantity then Effect(store, Rejected)
      else if !saleWriteOk then Effect(store, SaleWriteFailed)
      else
        var updated := UpdateSaleRow(store, s.id, q, u, TotalPrice(q, u));
        if current.None? then Effect(updated, LookupFailed)
        else if !stockWriteOk then Effect(updated, StockWriteFailed)
        else Effect(SetStock(updated, key.value, current.value.quantity - delta), Done)
  }

  /** handleDeleteSale: once confirmed, delete the sale row; then, only if the
      sale's product is in the cache, write `stock + sale.quantity`. */
  function DeleteSaleEffect(store: Store, cache: seq<Product>, sale: Sale, confirmed: bool,
                            saleWriteOk: bool, stockWriteOk: bool): (e: Effect)
  {
    if !confirmed then Effect(store, Ignored)
    else if !saleWriteOk then Effect(store, SaleWriteFailed)
    else
      var deleted := DeleteSaleRow(store, sale.id);
      match Find(cache, sale.productId)
      case None => Effect(deleted, Done)
      case Some(p) =>
        if !stockWriteOk then Effect(deleted, StockWriteFailed)
        else Effect(SetStock(deleted, sale.productId, p.quantity + sale.quantity), Done)
  }

  // ---------------------------------------------------------------------------
  // Properties of the handlers, one call at a time.

  /** Create is rejected exactly when the quantity exceeds the picked
      product's stock, and then nothing is written. */
  lemma SubmitRejectsOverStock(store: Store, p: Product, q: int, u: real, newId: SaleId,
                               saleWriteOk: bool, stockWriteOk: bool)
    ensures var e := SubmitSaleEffect(store, Some(p), Some(q), Some(u), newId, saleWriteOk, stockWriteOk);
            (e.step == Rejected <==> q > p.quantity) && (e.step == Rejected ==> e.store == store)
  {
  }

  /** An accepted create inserts the sale with its total price and leaves the
      product with `stock - quantity`, never below zero; a failed insert
      writes nothing, not even the stock. */
  lemma SubmitWritesSaleThenStock(store: Store, p: Product, q: int, u: real, newId: SaleId,
                                  saleWriteOk: bool, stockWriteOk: bool)
    requires p.quantity >= 0
    ensures var e := SubmitSaleEffect(store, Some(p), Some(q), Some(u), newId, saleWriteOk, stockWriteOk);
            && (e.step == SaleWriteFailed ==> e.store == store)
            && (e.step == Done ==>
                  && e.store.sales == store.sales[newId := Sale(newId, p.id, q, u, TotalPrice(q, u))]
                  && (p.id in store.products ==>
                        e.store.products[p.id].quantity == p.quantity - q >= 0))
  {
    var e := SubmitSaleEffect(store, Some(p), Some(q), Some(u), newId, saleWriteOk, stockWriteOk);
    var sale := Sale(newId, p.id, q, u, TotalPrice(q, u));
    if e.step == Done {
      assert e.store == SetStock(InsertSale(store, sale), p.id, p.quantity - q);
    }
  }

  /** Edit is rejected exactly when the delta is positive and above the cached
      stock; a delta of zero or less always passes the check. */
  lemma UpdateRejectsOnlyPositiveDeltaOverStock(store: Store, cache: seq<Product>, key: ProductId,
                                                s: Sale, q: int, u: real,
                                                saleWriteOk: bool, stockWriteOk: bool)
    requires Find(cache, key).Some?
    ensures var e := UpdateSaleEffect(store, cache, Some(key), Some(s), Some(q), Some(u), true,
                                      saleWriteOk, stockWriteOk);
            (e.step == Rejected <==> q - s.quantity > 0 && q - s.quantity > Find(cache, key).value.quantity)
            && (e.step == Rejected ==> e.store == store)
  {
  }

  /** An accepted edit rewrites the sale's quantity, unit price and total
      price and sets the stock to `cached - delta`, never below zero. */
  lemma UpdateWritesSaleThenStock(store: Store, cache: seq<Product>, key: ProductId,
                                  s: Sale, q: int, u: real, stockWriteOk: bool)
    requires Find(cache, key).Some? && Find(cache, key).value.quantity >= 0
    requires s.id in store.sales && key in store.products
    ensures var e := UpdateSaleEffect(store, cache, Some(key), Some(s), Some(q), Some(u), true,
                                      true, stockWriteOk);
            e.step == Done ==>
              && e.store.sales[s.id] == store.sales[s.id].(quantity := q, unitPrice := u,
                                                          totalPrice := TotalPrice(q, u))
              && e.store.products[key].quantity == Find(cache, key).value.quantity - (q - s.quantity) >= 0
  {
  }

  /** When the lookup fails after the sale row was written, the sale stays
      updated and the stock is not touched. */
  lemma UpdateLookupFailureLeavesStock(store: Store, cache: seq<Product>, key: Option<ProductId>,
                                       s: Sale, q: int, u: real, stockWriteOk: bool)
    requires key.None? || Find(cache, key.value).None?
    requires q <= s.quantity
    ensures var e := UpdateSaleEffect(store, cache, key, Some(s), Some(q), Some(u), true,
                                      true, stockWriteOk);
            e.step == LookupFailed && e.store.products == store.products &&
            e.store == UpdateSaleRow(store, s.id, q, u, TotalPrice(q, u))
  {
    var current := if key.Some? then Find(cache, key.value) else None;
    assert current.None?;
  }

  /** Delete removes the sale and gives its quantity back only when the
      product is cached; otherwise the stock is left as it was. */
  lemma DeleteRestoresOnlyCachedProducts(store: Store, cache: seq<Product>, sale: Sale, stockWriteOk: bool)
    ensures var e := DeleteSaleEffect(store, cache, sale, true, true, stockWriteOk);
            && e.store.sales == store.sales - {sale.id}
            && (Find(cache, sale.productId).None? ==> e.step == Done && e.store.products == store.products)
            && (Find(cache, sale.productId).Some? && stockWriteOk && sale.productId in store.products ==>
                  e.store.products[sale.productId].quantity ==
                  Find(cache, sale.productId).value.quantity + sale.quantity)
  {
  }

  // ---------------------------------------------------------------------------
  // Conservation: for every product, stock on hand plus the units its sales
  // hold stays what it was. This is the invariant the handlers are meant to
  // keep: every sale write paired with the inverse stock write.

  /** The units of product `pid` one sale holds. */
  function Contribution(s: Sale, pid: ProductId): int {
    if s.productId == pid then s.quantity else 0
  }

  /** The units of product `pid` held by all of `sales`. */
  ghost function Sold(sales: map<SaleId, Sale>, pid: ProductId): int
    decreases |sales|
  {
    if exists k :: k in sales then
      var k :| k in sales;
      assert |sales - {k}| < |sales| by {
        assert (sales - {k}).Keys == sales.Keys - {k};
      }
      Contribution(sales[k], pid) + Sold(sales - {k}, pid)
    else 0
  }

  /** Any one sale can be split off the total, whichever the definition picked. */
  lemma {:induction false} SoldPick(sales: map<SaleId, Sale>, k: SaleId, pid: ProductId)
    requires k in sales
    ensures Sold(sales, pid) == Contribution(sales[k], pid) + Sold(sales - {k}, pid)
    decreases |sales|
  {
    var j :| j in sales && Sold(sales, pid) == Contribution(sales[j], pid) + Sold(sales - {j}, pid);
    if j != k {
      assert |sales - {j}| < |sales| by {
        assert (sales - {j}).Keys == sales.Keys - {j};
      }
      assert |sales - {k}| < |sales| by {
        assert (sales - {k}).Keys == sales.Keys - {k};
      }
      SoldPick(sales - {j}, k, pid);
      SoldPick(sales - {k}, j, pid);
      assert sales - {j} - {k} == sales - {k} - {j};
    }
  }

  /** Adding a sale under a new id adds its units. */
  lemma SoldInsert(sales: map<SaleId, Sale>, id: SaleId, s: Sale, pid: ProductId)
    requires id !in sales
    ensures Sold(sales[id := s], pid) == Sold(sales, pid) + Contribution(s, pid)
  {
    SoldPick(sales[id := s], id, pid);
    assert sales[id := s] - {id} == sales;
  }

  /** Removing a sale takes its units away. */
  lemma SoldRemove(sales: map<SaleId, Sale>, id: SaleId, pid: ProductId)
    requires id in sales
    ensures Sold(sales - {id}, pid) == Sold(sales, pid) - Contribution(sales[id], pid)
  {
    SoldPick(sales, id, pid);
  }

  /** Rewriting a sale swaps its old units for its new ones. */
  lemma SoldReplace(sales: map<SaleId, Sale>, id: SaleId, s: Sale, pid: ProductId)
    requires id in sales
    ensures Sold(sales[id := s], pid) == Sold(sales, pid) - Contribution(sales[id], pid) + Contribution(s, pid)
  {
    SoldPick(sales[id := s], id, pid);
    SoldPick(sales, id, pid);
    assert sales[id := s] - {id} == sales - {id};
  }

  /** Stock on hand plus units sold: the product's initial stock. */
  ghost function Holdings(store: Store, pid: ProductId): int
    requires pid in store.products
  {
    store.products[pid].quantity + Sold(store.sales, pid)
  }

  /** No product's holdings changed (and no product appeared or vanished). */
  ghost predicate SameHoldings(before: Store, after: Store) {
    before.products.Keys == after.products.Keys &&
    forall pid :: pid in before.products ==> Holdings(after, pid) == Holdings(before, pid)
  }

  /** A successful create keeps every product's holdings when the picked
      product is the store's current row: the sale's units leave the stock. */
  lemma SubmitKeepsHoldings(store: Store, p: Product, q: int, u: real, newId: SaleId)
    requires p.id in store.products && store.products[p.id] == p
    requires newId !in store.sales
    ensures var e := SubmitSaleEffect(store, Some(p), Some(q), Some(u), newId, true, true);
            e.step == Done ==> SameHoldings(store, e.store)
  {
    var sale := Sale(newId, p.id, q, u, TotalPrice(q, u));
    forall pid | pid in store.products
      ensures Sold(store.sales[newId := sale], pid) == Sold(store.sales, pid) + Contribution(sale, pid)
    {
      SoldInsert(store.sales, newId, sale, pid);
    }
  }

  /** A create whose stock write fails leaves the sale in place with the
      stock untouched: the product's holdings grow by the sale's units. */
  lemma SubmitHalfDoneOverstatesHoldings(store: Store, p: Product, q: int, u: real, newId: SaleId)
    requires p.id in store.products && store.products[p.id] == p
    requires newId !in store.sales && q <= p.quantity
    ensures var e := SubmitSaleEffect(store, Some(p), Some(q), Some(u), newId, true, false);
            e.step == StockWriteFailed && Holdings(e.store, p.id) == Holdings(store, p.id) + q
  {
    SoldInsert(store.sales, newId, Sale(newId, p.id, q, u, TotalPrice(q, u)), p.id);
  }

  /** A successful edit keeps every product's holdings when it looks up the
      sale's own product in a cache that holds its current row, and the edited
      sale is the store's current row. */
  lemma UpdateKeepsHoldings(store: Store, cache: seq<Product>, s: Sale, q: int, u: real)
    requires s.id in store.sales && store.sales[s.id] == s
    requires s.productId in store.products && Find(cache, s.productId) == Some(store.products[s.productId])
    ensures var e := UpdateSaleEffect(store, cache, Some(s.productId), Some(s), Some(q), Some(u), true, true, true);
            e.step == Done ==> SameHoldings(store, e.store)
  {
    var updated := s.(quantity := q, unitPrice := u, totalPrice := TotalPrice(q, u));
    forall pid | pid in store.products
      ensures Sold(store.sales[s.id := updated], pid) ==
              Sold(store.sales, pid) - Contribution(s, pid) + Contribution(updated, pid)
    {
      SoldReplace(store.sales, s.id, updated, pid);
    }
  }

  /** A successful delete keeps every product's holdings when the deleted sale
      is the store's current row and its product is cached with its current row. */
  lemma DeleteKeepsHoldingsWhenCached(store: Store, cache: seq<Product>, sale: Sale)
    requires sale.id in store.sales && store.sales[sale.id] == sale
    requires sale.productId in store.products
    requires Find(cache, sale.productId) == Some(store.products[sale.productId])
    ensures var e := DeleteSaleEffect(store, cache, sale, true, true, true);
            e.step == Done && SameHoldings(store, e.store)
  {
    forall pid | pid in store.products
      ensures Sold(store.sales - {sale.id}, pid) == Sold(store.sales, pid) - Contribution(sale, pid)
    {
      SoldRemove(store.sales, sale.id, pid);
    }
  }

  /** Round trip: create a sale of `q` units, refresh the cached list (which
      still lists the product because stock is left), delete that sale: the
      store is back where it started, stock included. */
  lemma CreateThenDeleteRestoresStore(store: Store, refreshed: seq<Product>, p: Product,
                                      q: int, u: real, newId: SaleId)
    requires p.id in store.products && store.products[p.id] == p
    requires newId !in store.sales
    requires q <= p.quantity
    requires var created := SubmitSaleEffect(store, Some(p), Some(q), Some(u), newId, true, true).store;
             IsProductsAnswer(created, refreshed) && Find(refreshed, p.id).Some?
    ensures var created := SubmitSaleEffect(store, Some(p), Some(q), Some(u), newId, true, true);
            created.step == Done &&
            DeleteSaleEffect(created.store, refreshed, created.store.sales[newId], true, true, true)
              == Effect(store, Done)
  {
    var created := SubmitSaleEffect(store, Some(p), Some(q), Some(u), newId, true, true);
    var r := Find(refreshed, p.id).value;
    var i :| 0 <= i < |refreshed| && refreshed[i] == r;
    assert r == created.store.products[p.id];
    var e := DeleteSaleEffect(created.store, refreshed, created.store.sales[newId], true, true, true);
    assert e.store.sales == store.sales;
    assert e.store.products == store.products;
  }

  // ---------------------------------------------------------------------------
  // Finding: a sale of a product's last units cannot give them back.

  /** As written: sell all of a product's stock, refresh the cached list (the
      query keeps only `quantity > 0`, so the product drops out), delete the
      sale: the sale is gone but the stock stays at 0, and the product's
      holdings shrink by the units sold. */
  lemma SellOutThenDeleteLosesStock(store: Store, refreshed: seq<Product>, p: Product,
                                    u: real, newId: SaleId)
    requires p.id in store.products && store.products[p.id] == p
    requires newId !in store.sales && p.quantity > 0
    requires IsProductsAnswer(
               SubmitSaleEffect(store, Some(p), Some(p.quantity), Some(u), newId, true, true).store,
               refreshed)
    ensures var created := SubmitSaleEffect(store, Some(p), Some(p.quantity), Some(u), newId, true, true);
            var e := DeleteSaleEffect(created.store, refreshed, created.store.sales[newId], true, true, true);
            && created.step == Done && e.step == Done
            && e.store.sales == store.sales
            && e.store.products[p.id].quantity == 0 < p.quantity
            && Holdings(e.store, p.id) == Holdings(store, p.id) - p.quantity
  {
    var created := SubmitSaleEffect(store, Some(p), Some(p.quantity), Some(u), newId, true, true);
    SoldOutProductIsNotCached(created.store, refreshed, p.id);
    var e := DeleteSaleEffect(created.store, refreshed, created.store.sales[newId], true, true, true);
    assert store.sales[newId := created.store.sales[newId]] - {newId} == store.sales;
  }

  /** `Some(m[k])` when the map holds `k`. */
  function Lookup<K, V>(m: map<K, V>, k: K): (r: Option<V>)
    ensures r.Some? <==> k in m
    ensures r.Some? ==> r.value == m[k]
  {
    if k in m then Some(m[k]) else None
  }

  /** Corrected delete: give back the units of the sale row the store held
      (nothing when that row is already gone), to the product's current row
      whatever its stock, instead of to a list that omits sold-out products. */
  function DeleteSaleFixed(store: Store, sale: Sale, confirmed: bool,
                           saleWriteOk: bool, stockWriteOk: bool): (e: Effect)
  {
    if !confirmed then Effect(store, Ignored)
    else if !saleWriteOk then Effect(store, SaleWriteFailed)
    else
      match Lookup(store.sales, sale.id)
      case None => Effect(store, Done)
      case Some(row) =>
        var deleted := DeleteSaleRow(store, sale.id);
        match Lookup(store.products, row.productId)
        case None => Effect(deleted, Done)
        case Some(p) =>
          if !stockWriteOk then Effect(deleted, StockWriteFailed)
          else Effect(SetStock(deleted, row.productId, p.quantity + row.quantity), Done)
  }

  /** The corrected delete keeps every product's holdings whenever it succeeds,
      sold-out products included. */
  lemma DeleteFixedKeepsHoldings(store: Store, sale: Sale)
    ensures var e := DeleteSaleFixed(store, sale, true, true, true);
            e.step == Done && SameHoldings(store, e.store)
  {
    if sale.id in store.sales {
      forall pid | pid in store.products
        ensures Sold(store.sales - {sale.id}, pid) ==
                Sold(store.sales, pid) - Contribution(store.sales[sale.id], pid)
      {
        SoldRemove(store.sales, sale.id, pid);
      }
    }
  }

  /** With the corrected delete, creating and deleting a sale is a round trip
      even when the sale took the product's last units. */
  lemma CreateThenDeleteFixedRestoresStore(store: Store, p: Product, q: int, u: real, newId: SaleId)
    requires p.id in store.products && store.products[p.id] == p
    requires newId !in store.sales && q <= p.quantity
    ensures var created := SubmitSaleEffect(store, Some(p), Some(q), Some(u), newId, true, true);
            created.step == Done &&
            DeleteSaleFixed(created.store, created.store.sales[newId], true, true, true) == Effect(store, Done)
  {
    var created := SubmitSaleEffect(store, Some(p), Some(q), Some(u), newId, true, true);
    var e := DeleteSaleFixed(created.store, created.store.sales[newId], true, true, true);
    assert e.store.sales == store.sales;
    assert e.store.products == store.products;
  }

  /** As written, a second delete of the same listed sale against the same
      cached list writes the same stock again: the units come back once. */
  lemma StaleDeleteTwiceRestoresOnce(store: Store, cache: seq<Product>, sale: Sale)
    requires sale.productId in store.products
    requires Find(cache, sale.productId) == Some(store.products[sale.productId])
    ensures var once := DeleteSaleEffect(store, cache, sale, true, true, true);
            var twice := DeleteSaleEffect(once.store, cache, sale, true, true, true);
            twice.store.sales == once.store.sales &&
            twice.store.products == once.store.products &&
            once.store.products[sale.productId].quantity == store.products[sale.productId].quantity + sale.quantity
  {
  }

  /** As written, the two refetches a delete starts are not awaited. When the
      products refetch lands first, the sale is still listed and the cached
      list already shows the restored stock: deleting that sale again matches
      no sale row, yet writes `stock + quantity` once more. The units come back
      twice and the product's holdings grow by the sale's units. */
  lemma DeleteAgainAfterProductsRefetchRestoresTwice(store: Store, cache: seq<Product>,
                                                     refreshed: seq<Product>, sale: Sale)
    requires sale.id in store.sales && store.sales[sale.id] == sale
    requires sale.productId in store.products
    requires Find(cache, sale.productId) == Some(store.products[sale.productId])
    requires var once := DeleteSaleEffect(store, cache, sale, true, true, true);
             IsProductsAnswer(once.store, refreshed) && Find(refreshed, sale.productId).Some?
    ensures var once := DeleteSaleEffect(store, cache, sale, true, true, true);
            var twice := DeleteSaleEffect(once.store, refreshed, sale, true, true, true);
            && once.step == Done && twice.step == Done
            && twice.store.sales == store.sales - {sale.id}
            && twice.store.products[sale.productId].quantity
               == store.products[sale.productId].quantity + 2 * sale.quantity
            && Holdings(twice.store, sale.productId) == Holdings(store, sale.productId) + sale.quantity
  {
    var once := DeleteSaleEffect(store, cache, sale, true, true, true);
    var r := Find(refreshed, sale.productId).value;
    var i :| 0 <= i < |refreshed| && refreshed[i] == r;
    assert r == once.store.products[sale.productId];
    assert store.sales - {sale.id} - {sale.id} == store.sales - {sale.id};
    SoldRemove(store.sales, sale.id, sale.productId);
  }

  /** The corrected delete is idempotent: a second delete of the same sale
      changes nothing. */
  lemma DeleteFixedIsIdempotent(store: Store, sale: Sale)
    ensures var once := DeleteSaleFixed(store, sale, true, true, true);
            DeleteSaleFixed(once.store, sale, true, true, true) == Effect(once.store, Done)
  {
  }

  // ---------------------------------------------------------------------------
  // Finding: the edit handler looks the product up by a record without an id.

  /** As written, the edit form's picked product is the sale's joined product
      record, which carries no id (`key` is None). Then a larger quantity
      crashes before anything is written, and a smaller one rewrites the sale
      but never gives the difference back: the product's holdings shrink. */
  lemma EditWithoutProductIdNeverAdjustsStock(store: Store, cache: seq<Product>, s: Sale, q: int, u: real,
                                              stockWriteOk: bool)
    requires s.id in store.sales && store.sales[s.id] == s && s.productId in store.products
    ensures var e := UpdateSaleEffect(store, cache, None, Some(s), Some(q), Some(u), true, true, stockWriteOk);
            && (q > s.quantity ==> e == Effect(store, Crashed))
            && (q <= s.quantity ==>
                  && e.step == LookupFailed && e.store.products == store.products
                  && Holdings(e.store, s.productId) == Holdings(store, s.productId) - (s.quantity - q))
  {
    var updated := s.(quantity := q, unitPrice := u, totalPrice := TotalPrice(q, u));
    SoldReplace(store.sales, s.id, updated, s.productId);
  }

  /** Corrected edit: check and adjust the stock of the sale's own product,
      read from its current row. A product that no longer exists has no stock
      to adjust; only the sale row is rewritten. */
  function UpdateSaleFixed(store: Store, s: Sale, q: int, u: real,
                           saleWriteOk: bool, stockWriteOk: bool): (e: Effect)
  {
    var delta := q - s.quantity;
    var current := Lookup(store.products, s.productId);
    if current.Some? && delta > 0 && delta > current.value.quantity then Effect(store, Rejected)
    else if !saleWriteOk then Effect(store, SaleWriteFailed)
    else
      var updated := UpdateSaleRow(store, s.id, q, u, TotalPrice(q, u));
      if current.None? then Effect(updated, Done)
      else if !stockWriteOk then Effect(updated, StockWriteFailed)
      else Effect(SetStock(updated, s.productId, current.value.quantity - delta), Done)
  }

  /** The corrected edit keeps every product's holdings whenever it succeeds,
      and never leaves a non-negative stock negative. */
  lemma UpdateFixedKeepsHoldings(store: Store, s: Sale, q: int, u: real)
    requires s.id in store.sales && store.sales[s.id] == s
    ensures var e := UpdateSaleFixed(store, s, q, u, true, true);
            && (e.step == Done ==> SameHoldings(store, e.store))
            && (s.productId in store.products && store.products[s.productId].quantity >= 0 ==>
                  e.store.products[s.productId].quantity >= 0)
  {
    var updated := s.(quantity := q, unitPrice := u, totalPrice := TotalPrice(q, u));
    forall pid | pid in store.products
      ensures Sold(store.sales[s.id := updated], pid) ==
              Sold(store.sales, pid) - Contribution(s, pid) + Contribution(updated, pid)
    {
      SoldReplace(store.sales, s.id, updated, pid);
    }
  }
}
