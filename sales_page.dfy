/** The sales page as a stateful component: the remote tables it writes, the
    product list and page of sales it caches, the add and edit forms, and the
    notification. Each handler performs the reads and writes of the matching
    effect in `Sales`, in the same order, and then updates the form state. */
module SalesPage {
  import opened Wrappers
  import opened Sales
  import Pagination

  /** The product fields joined onto a fetched sale row: name, reference
      number and image, and no id or stock. */
  datatype ProductInfo = ProductInfo(name: string, reference: Option<string>, imageUrl: Option<string>)

  /** A row of the fetched sales page: the sale and its joined product (null
      when the product was deleted). */
  datatype SaleView = SaleView(sale: Sale, product: Option<ProductInfo>)

  /** What `selectedProduct` holds: a row picked from the product list, or,
      in the edit form, the product record joined onto the sale. */
  datatype Picked = Listed(product: Product) | Joined(info: ProductInfo)

  /** `selectedProduct.id`: a joined record has none. */
  function PickedId(p: Option<Picked>): (r: Option<ProductId>)
    ensures r.Some? <==> p.Some? && p.value.Listed?
    ensures r.Some? ==> r.value == p.value.product.id
  {
    if p.Some? && p.value.Listed? then Some(p.value.product.id) else None
  }

  /** The picked row as the create handler reads it. */
  function PickedProduct(p: Option<Picked>): (r: Option<Product>)
    ensures r.Some? <==> p.Some? && p.value.Listed?
    ensures r.Some? ==> r.value == p.value.product
  {
    if p.Some? && p.value.Listed? then Some(p.value.product) else None
  }

  /** `notificationType`. */
  datatype NoticeKind = Success | Failure

  const CreatedMessage: string := "تمت إضافة المبيعة بنجاح"
  const CreateFailedMessage: string := "تعذر إضافة المبيعة، من فضلك حاول لاحقاً"
  const UpdatedMessage: string := "تم تحديث المبيعة بنجاح"
  const UpdateFailedMessage: string := "تعذر تحديث المبيعة، من فضلك حاول لاحقاً"
  const DeletedMessage: string := "تم حذف المبيعة بنجاح"
  const DeleteFailedMessage: string := "تعذر حذف المبيعة، من فضلك حاول لاحقاً"

  class SalesPage {
    /** The remote products and sales tables. */
    var store: Store
    /** `products`: the cached product list. */
    var products: seq<Product>
    /** `sales`: the fetched page of sales. */
    var sales: seq<SaleView>
    var currentPage: int
    var showAddModal: bool
    var showEditModal: bool
    var selectedProduct: Option<Picked>
    /** The quantity and price fields, None while empty. */
    var saleQuantity: Option<int>
    var salePrice: Option<real>
    var editingSale: Option<Sale>
    var productSearchTerm: string
    var showNotification: bool
    var notificationType: NoticeKind
    var notificationMessage: string

    /** The states the page can reach: at most one form open; the add form
        only ever holds a row picked from the list; with no form open nothing
        is picked; the edit form always has its sale; one page of sales. */
    ghost predicate Valid()
      reads this
    {
      && currentPage >= 1
      && |sales| <= Pagination.SalesPerPage
      && !(showAddModal && showEditModal)
      && (showAddModal ==> PickedId(selectedProduct).Some? || selectedProduct.None?)
      && (!showAddModal && !showEditModal ==> selectedProduct.None?)
      && (showEditModal ==> editingSale.Some?)
    }

    /** The page as first rendered, before its fetches complete. */
    constructor (store: Store)
      ensures Valid()
      ensures this.store == store && products == [] && sales == [] && currentPage == 1
      ensures !showAddModal && !showEditModal && selectedProduct.None? && editingSale.None?
      ensures saleQuantity.None? && salePrice.None? && productSearchTerm == "" && !showNotification
    {
      this.store := store;
      products, sales := [], [];
      currentPage := 1;
      showAddModal, showEditModal := false, false;
      selectedProduct, editingSale := None, None;
      saleQuantity, salePrice := None, None;
      productSearchTerm := "";
      showNotification, notificationType, notificationMessage := false, Success, "";
    }

    /** The picker's list, recomputed whenever the cached list or the picker's
        search term changes. */
    function FilteredProducts(): (r: seq<Product>)
      reads this
      ensures forall p :: p in r ==> p in products
    {
      FilterProducts(products, productSearchTerm)
    }

    /** `Math.ceil(sales.length / salesPerPage)`, computed from the rows of
        the one page that was fetched: never above 1, so the pager never
        shows and no page but the first can be reached. */
    function TotalPages(): (n: int)
      reads this
      requires Valid()
      ensures n <= 1 && !Pagination.PagerShown(n)
    {
      Pagination.FetchedPageCountsOnePage(|sales|, Pagination.SalesPerPage);
      Pagination.TotalPages(|sales|, Pagination.SalesPerPage)
    }

    /** `showNotificationModal(type, message)`. */
    method Notify(kind: NoticeKind, message: string)
      modifies this`showNotification, this`notificationType, this`notificationMessage
      ensures showNotification && notificationType == kind && notificationMessage == message
    {
      notificationType := kind;
      notificationMessage := message;
      showNotification := true;
    }

    /** fetchProducts: the answer to the in-stock products query replaces the
        cached list; a failed query (None) is only logged. */
    method FetchProducts(answer: Option<seq<Product>>)
      requires Valid()
      requires answer.Some? ==> IsProductsAnswer(store, answer.value)
      modifies this`products
      ensures Valid()
      ensures products == if answer.Some? then answer.value else old(products)
    {
      if answer.Some? {
        products := answer.value;
      }
    }

    /** fetchSales: the rows of the current page (a range of 8) replace the
        list; a failed query is only logged. */
    method FetchSales(answer: Option<seq<SaleView>>)
      requires Valid()
      requires answer.Some? ==> |answer.value| <= Pagination.SalesPerPage
      modifies this`sales
      ensures Valid()
      ensures sales == if answer.Some? then answer.value else old(sales)
    {
      if answer.Some? {
        sales := answer.value;
      }
    }

    /** The "new sale" button. */
    method OpenAddModal()
      requires Valid() && !showAddModal && !showEditModal
      modifies this`showAddModal
      ensures Valid() && showAddModal
    {
      showAddModal := true;
    }

    /** Typing in the picker's search box. */
    method SetProductSearchTerm(term: string)
      requires Valid() && showAddModal
      modifies this`productSearchTerm
      ensures Valid() && productSearchTerm == term
    {
      productSearchTerm := term;
    }

    /** Typing in the quantity and price fields of either form. */
    method SetFields(quantity: Option<int>, price: Option<real>)
      requires Valid() && (showAddModal || showEditModal)
      modifies this`saleQuantity, this`salePrice
      ensures Valid() && saleQuantity == quantity && salePrice == price
    {
      saleQuantity, salePrice := quantity, price;
    }

    /** handleProductSelect: pick a product of the picker's list (so a cached
        product), prefill its price and a quantity of 1. */
    method SelectProduct(p: Product)
      requires Valid() && showAddModal && p in products
      modifies this`selectedProduct, this`salePrice, this`saleQuantity
      ensures Valid()
      ensures selectedProduct == Some(Listed(p)) && salePrice == Some(p.price) && saleQuantity == Some(1)
    {
      selectedProduct := Some(Listed(p));
      salePrice := Some(p.price);
      saleQuantity := Some(1);
    }

    /** The add form's cancel and close buttons. */
    method CloseAddModal()
      requires Valid() && showAddModal
      modifies this`showAddModal, this`selectedProduct, this`saleQuantity, this`salePrice
      modifies this`productSearchTerm
      ensures Valid()
      ensures !showAddModal && selectedProduct.None? && saleQuantity.None? && salePrice.None?
      ensures productSearchTerm == ""
      ensures store == old(store) && products == old(products) && sales == old(sales)
      ensures editingSale == old(editingSale) && showEditModal == old(showEditModal)
      ensures showNotification == old(showNotification)
      ensures notificationType == old(notificationType) && notificationMessage == old(notificationMessage)
    {
      showAddModal := false;
      selectedProduct := None;
      saleQuantity, salePrice := None, None;
      productSearchTerm := "";
    }

    /** handleSubmitSale. The store ends as SubmitSaleEffect says; on success
        the form is closed and cleared, on a failed write the error
        notification is shown and the form stays as it was. The lists are
        refetched separately (FetchProducts, FetchSales). */
    method SubmitSale(newId: SaleId, saleWriteOk: bool, stockWriteOk: bool) returns (step: Step)
      requires Valid() && showAddModal
      requires newId !in store.sales
      modifies this`store, this`showAddModal, this`selectedProduct, this`saleQuantity, this`salePrice
      modifies this`productSearchTerm, this`showNotification, this`notificationType, this`notificationMessage
      ensures Valid()
      ensures var e := SubmitSaleEffect(old(store), PickedProduct(old(selectedProduct)), old(saleQuantity),
                                        old(salePrice), newId, saleWriteOk, stockWriteOk);
              store == e.store && step == e.step
      ensures products == old(products) && sales == old(sales) && currentPage == old(currentPage)
      ensures editingSale == old(editingSale) && showEditModal == old(showEditModal)
      ensures step == Done ==>
                && !showAddModal && selectedProduct.None? && saleQuantity.None? && salePrice.None?
                && productSearchTerm == ""
                && showNotification && notificationType == Success && notificationMessage == CreatedMessage
      ensures step != Done ==>
                && showAddModal && selectedProduct == old(selectedProduct)
                && saleQuantity == old(saleQuantity) && salePrice == old(salePrice)
                && productSearchTerm == old(productSearchTerm)
      ensures ShowsError(step) ==>
                showNotification && notificationType == Failure && notificationMessage == CreateFailedMessage
      ensures step == Ignored || step == Rejected ==>
                && showNotification == old(showNotification) && notificationType == old(notificationType)
                && notificationMessage == old(notificationMessage)
    {
      step := WriteSubmit(newId, saleWriteOk, stockWriteOk);
      if step == Done {
        CloseAddModal();
        Notify(Success, CreatedMessage);
      } else if ShowsError(step) {
        Notify(Failure, CreateFailedMessage);
      }
    }

    /** The reads and writes of handleSubmitSale, in the source's order. */
    method WriteSubmit(newId: SaleId, saleWriteOk: bool, stockWriteOk: bool) returns (step: Step)
      modifies this`store
      ensures var e := SubmitSaleEffect(old(store), PickedProduct(selectedProduct), saleQuantity,
                                        salePrice, newId, saleWriteOk, stockWriteOk);
              store == e.store && step == e.step
    {
      var picked := PickedProduct(selectedProduct);
      if picked.None? || saleQuantity.None? || salePrice.None? {
        return Ignored;
      }
      var p := picked.value;
      var quantity := saleQuantity.value;
      var price := salePrice.value;
      var totalPrice := TotalPrice(quantity, price);
      if quantity > p.quantity {
        return Rejected;
      }
      if !saleWriteOk {
        return SaleWriteFailed;
      }
      store := InsertSale(store, Sale(newId, p.id, quantity, price, totalPrice));
      if !stockWriteOk {
        return StockWriteFailed;
      }
      var newQuantity := p.quantity - quantity;
      store := SetStock(store, p.id, newQuantity);
      step := Done;
    }

    /** handleEditSale: open the edit form on a listed sale. The picked product
        becomes the sale's joined product record, which has no id. */
    method EditSale(view: SaleView)
      requires Valid() && !showAddModal && !showEditModal && view in sales
      modifies this`editingSale, this`selectedProduct, this`saleQuantity, this`salePrice, this`showEditModal
      ensures Valid() && showEditModal
      ensures editingSale == Some(view.sale)
      ensures selectedProduct == if view.product.Some? then Some(Joined(view.product.value)) else None
      ensures PickedId(selectedProduct).None?
      ensures saleQuantity == Some(view.sale.quantity) && salePrice == Some(view.sale.unitPrice)
    {
      editingSale := Some(view.sale);
      selectedProduct := if view.product.Some? then Some(Joined(view.product.value)) else None;
      saleQuantity := Some(view.sale.quantity);
      salePrice := Some(view.sale.unitPrice);
      showEditModal := true;
    }

    /** The edit form's cancel and close buttons. */
    method CloseEditModal()
      requires Valid() && showEditModal
      modifies this`showEditModal, this`editingSale, this`selectedProduct, this`saleQuantity, this`salePrice
      ensures Valid()
      ensures !showEditModal && editingSale.None? && selectedProduct.None?
      ensures saleQuantity.None? && salePrice.None?
    {
      showEditModal := false;
      editingSale := None;
      selectedProduct := None;
      saleQuantity, salePrice := None, None;
    }

    /** handleUpdateSale. The store ends as UpdateSaleEffect says, with the
        cached list as the lookup table and the picked record's id as the key;
        on success the form is closed and cleared, on an error after the
        `try` began the error notification is shown. */
    method UpdateSale(saleWriteOk: bool, stockWriteOk: bool) returns (step: Step)
      requires Valid() && showEditModal
      modifies this`store, this`showEditModal, this`selectedProduct, this`saleQuantity, this`salePrice
      modifies this`editingSale, this`showNotification, this`notificationType, this`notificationMessage
      ensures Valid()
      ensures var e := UpdateSaleEffect(old(store), old(products), PickedId(old(selectedProduct)),
                                        old(editingSale), old(saleQuantity), old(salePrice),
                                        old(selectedProduct).Some?, saleWriteOk, stockWriteOk);
              store == e.store && step == e.step
      ensures products == old(products) && sales == old(sales) && currentPage == old(currentPage)
      ensures showAddModal == old(showAddModal) && productSearchTerm == old(productSearchTerm)
      ensures step == Done ==>
                && !showEditModal && editingSale.None? && selectedProduct.None?
                && saleQuantity.None? && salePrice.None?
                && showNotification && notificationType == Success && notificationMessage == UpdatedMessage
      ensures step != Done ==>
                && showEditModal && editingSale == old(editingSale) && selectedProduct == old(selectedProduct)
                && saleQuantity == old(saleQuantity) && salePrice == old(salePrice)
      ensures ShowsError(step) ==>
                showNotification && notificationType == Failure && notificationMessage == UpdateFailedMessage
      ensures step == Ignored || step == Rejected || step == Crashed ==>
                && showNotification == old(showNotification) && notificationType == old(notificationType)
                && notificationMessage == old(notificationMessage)
    {
      step := WriteUpdate(saleWriteOk, stockWriteOk);
      if step == Done {
        CloseEditModal();
        Notify(Success, UpdatedMessage);
      } else if ShowsError(step) {
        Notify(Failure, UpdateFailedMessage);
      }
    }

    /** The reads and writes of handleUpdateSale, in the source's order. */
    method WriteUpdate(saleWriteOk: bool, stockWriteOk: bool) returns (step: Step)
      modifies this`store
      ensures var e := UpdateSaleEffect(old(store), products, PickedId(selectedProduct),
                                        editingSale, saleQuantity, salePrice,
                                        selectedProduct.Some?, saleWriteOk, stockWriteOk);
              store == e.store && step == e.step
    {
      if selectedProduct.None? || saleQuantity.None? || salePrice.None? || editingSale.None? {
        return Ignored;
      }
      var quantity := saleQuantity.value;
      var price := salePrice.value;
      var totalPrice := TotalPrice(quantity, price);
      var quantityDifference := quantity - editingSale.value.quantity;
      var key := PickedId(selectedProduct);
      var currentProduct := if key.Some? then Find(products, key.value) else None;
      if quantityDifference > 0 && currentProduct.None? {
        return Crashed;
      }
      if quantityDifference > 0 && quantityDifference > currentProduct.value.quantity {
        return Rejected;
      }
      if !saleWriteOk {
        return SaleWriteFailed;
      }
      store := UpdateSaleRow(store, editingSale.value.id, quantity, price, totalPrice);
      if currentProduct.None? {
        return LookupFailed;
      }
      var newQuantity := currentProduct.value.quantity - quantityDifference;
      if !stockWriteOk {
        return StockWriteFailed;
      }
      store := SetStock(store, key.value, newQuantity);
      step := Done;
    }

    /** handleDeleteSale on a listed sale. The store ends as DeleteSaleEffect
        says, with the cached list as the lookup table; the notification tells
        success or failure; the forms are untouched. */
    method DeleteSale(view: SaleView, confirmed: bool, saleWriteOk: bool, stockWriteOk: bool)
      returns (step: Step)
      requires Valid() && !showAddModal && !showEditModal && view in sales
      modifies this`store, this`showNotification, this`notificationType, this`notificationMessage
      ensures Valid()
      ensures var e := DeleteSaleEffect(old(store), old(products), view.sale, confirmed, saleWriteOk, stockWriteOk);
              store == e.store && step == e.step
      ensures products == old(products) && sales == old(sales) && currentPage == old(currentPage)
      ensures !showAddModal && !showEditModal && selectedProduct == old(selectedProduct)
      ensures editingSale == old(editingSale) && saleQuantity == old(saleQuantity) && salePrice == old(salePrice)
      ensures productSearchTerm == old(productSearchTerm)
      ensures step == Done ==>
                showNotification && notificationType == Success && notificationMessage == DeletedMessage
      ensures ShowsError(step) ==>
                showNotification && notificationType == Failure && notificationMessage == DeleteFailedMessage
      ensures step == Ignored ==>
                && showNotification == old(showNotification) && notificationType == old(notificationType)
                && notificationMessage == old(notificationMessage)
    {
      step := WriteDelete(view.sale, confirmed, saleWriteOk, stockWriteOk);
      if step == Done {
        Notify(Success, DeletedMessage);
      } else if ShowsError(step) {
        Notify(Failure, DeleteFailedMessage);
      }
    }

    /** The reads and writes of handleDeleteSale, in the source's order. */
    method WriteDelete(sale: Sale, confirmed: bool, saleWriteOk: bool, stockWriteOk: bool) returns (step: Step)
      modifies this`store
      ensures var e := DeleteSaleEffect(old(store), products, sale, confirmed, saleWriteOk, stockWriteOk);
              store == e.store && step == e.step
    {
      if !confirmed {
        return Ignored;
      }
      if !saleWriteOk {
        return SaleWriteFailed;
      }
      store := DeleteSaleRow(store, sale.id);
      var currentProduct := Find(products, sale.productId);
      if currentProduct.Some? {
        var newQuantity := currentProduct.value.quantity + sale.quantity;
        if !stockWriteOk {
          return StockWriteFailed;
        }
        store := SetStock(store, sale.productId, newQuantity);
      }
      step := Done;
    }
  }
}
