// The sale screen (src/pages/CashierVentasPage.js): the cart of sale lines with its
// derived total, and the category / brand / product browser that pages through
// the prefetched catalog ten entries at a time.
//
// Each click handler reads the page numbers of the render it was created in, and
// React applies the setters after the handler returns, the last one winning. The
// methods below read those numbers first and assign in the handler's order.

module CashierVentas {
  import opened Js
  import opened Domain
  import opened LocalStorage

  /** SALE_CATEGORIES_LIMIT, SALE_BRANDS_LIMIT and SALE_PRODUCTS_LIMIT. */
  const PageSize: nat := 10

  /** The limit each prefetch passes to its loader. */
  const PrefetchLimit: int := 50

  function Min(a: int, b: int): int { if a <= b then a else b }

  // ---------------------------------------------------------------------------
  // Cart

  datatype SaleLine = SaleLine(productId: JsId, productName: string, price: real, quantity: int)

  function LineAmount(line: SaleLine): real
  {
    line.price * line.quantity as real
  }

  /** `saleItems.reduce((acc, it) => acc + it.price * it.quantity, 0)`. */
  function Total(lines: seq<SaleLine>): real
  {
    if lines == [] then 0.0 else Total(lines[..|lines| - 1]) + LineAmount(lines[|lines| - 1])
  }

  lemma {:induction false} TotalAppend(a: seq<SaleLine>, b: seq<SaleLine>)
    ensures Total(a + b) == Total(a) + Total(b)
  {
    if b != [] {
      assert (a + b)[..|a + b| - 1] == a + b[..|b| - 1];
      TotalAppend(a, b[..|b| - 1]);
    } else {
      assert a + b == a;
    }
  }

  lemma TotalSplitAt(lines: seq<SaleLine>, i: nat)
    requires i < |lines|
    ensures Total(lines) == Total(lines[..i]) + LineAmount(lines[i]) + Total(lines[i + 1..])
  {
    assert lines == lines[..i] + [lines[i]] + lines[i + 1..];
    TotalAppend(lines[..i] + [lines[i]], lines[i + 1..]);
    TotalAppend(lines[..i], [lines[i]]);
    assert [lines[i]][..0] == [];
  }

  /** Replacing one line changes the total by the difference of the two line amounts. */
  lemma TotalUpdate(lines: seq<SaleLine>, i: nat, line: SaleLine)
    requires i < |lines|
    ensures Total(lines[i := line]) == Total(lines) - LineAmount(lines[i]) + LineAmount(line)
  {
    var updated := lines[i := line];
    TotalSplitAt(lines, i);
    TotalSplitAt(updated, i);
    assert updated[..i] == lines[..i] && updated[i + 1..] == lines[i + 1..];
  }

  /** Deleting one line takes its amount off the total. */
  lemma TotalRemove(lines: seq<SaleLine>, i: nat)
    requires i < |lines|
    ensures Total(lines[..i] + lines[i + 1..]) == Total(lines) - LineAmount(lines[i])
  {
    TotalSplitAt(lines, i);
    TotalAppend(lines[..i], lines[i + 1..]);
  }

  /** Appending a line adds its amount to the total. */
  lemma TotalAppendLine(lines: seq<SaleLine>, line: SaleLine)
    ensures Total(lines + [line]) == Total(lines) + LineAmount(line)
  {
    assert (lines + [line])[..|lines|] == lines;
  }

  /** `saleItems.findIndex(si => si.productId === id)`. */
  function FindLine(lines: seq<SaleLine>, id: JsId): (i: int)
    ensures -1 <= i < |lines|
    ensures i >= 0 ==> lines[i].productId == id && forall j :: 0 <= j < i ==> lines[j].productId != id
    ensures i == -1 <==> forall j :: 0 <= j < |lines| ==> lines[j].productId != id
  {
    if lines == [] then -1
    else if lines[0].productId == id then 0
    else
      var k := FindLine(lines[1..], id);
      if k == -1 then -1 else k + 1
  }

  /** No two lines name the same product. */
  ghost predicate DistinctProducts(lines: seq<SaleLine>)
  {
    forall i, j :: 0 <= i < j < |lines| ==> lines[i].productId != lines[j].productId
  }

  /** Every line for product p asks for no more than p's reported stock. */
  ghost predicate WithinStock(lines: seq<SaleLine>, p: Product)
  {
    forall i :: 0 <= i < |lines| && lines[i].productId == p.id ==> lines[i].quantity <= p.stock
  }

  datatype AddOutcome = OutOfStock | InsufficientStock | Incremented(index: nat) | Appended

  /** One line per product, each with a positive quantity. */
  ghost predicate CartValid(lines: seq<SaleLine>)
  {
    DistinctProducts(lines) && forall i :: 0 <= i < |lines| ==> lines[i].quantity >= 1
  }

  /**
   * addProduct on a cart: refuse a product with stock below 1; raise the existing
   * line of the same product by one unless that passes the product's stock;
   * otherwise append a line of quantity 1 at the catalog price.
   */
  function AddToCart(lines: seq<SaleLine>, p: Product): (r: (AddOutcome, seq<SaleLine>))
    ensures r.0.Incremented? ==> r.0.index < |lines|
  {
    if p.stock < 1 then (OutOfStock, lines)
    else
      var i := FindLine(lines, p.id);
      if i >= 0 then
        if lines[i].quantity + 1 > p.stock then (InsufficientStock, lines)
        else (Incremented(i), lines[i := lines[i].(quantity := lines[i].quantity + 1)])
      else (Appended, lines + [SaleLine(p.id, p.name, p.price, 1)])
  }

  /**
   * A refused product leaves the cart alone: stock below 1 always refuses, and a
   * product already in the cart is refused when one more would pass its stock.
   */
  lemma AddToCartRefusals(lines: seq<SaleLine>, p: Product)
    ensures var r := AddToCart(lines, p);
      && (r.0.OutOfStock? <==> p.stock < 1)
      && (r.0.InsufficientStock? <==>
            p.stock >= 1 && exists i :: 0 <= i < |lines| && lines[i].productId == p.id && lines[i].quantity >= p.stock
                                         && forall j :: 0 <= j < i ==> lines[j].productId != p.id)
      && (r.0.OutOfStock? || r.0.InsufficientStock? ==> r.1 == lines && Total(r.1) == Total(lines))
  {
    var r := AddToCart(lines, p);
    var i := FindLine(lines, p.id);
    if r.0.InsufficientStock? {
      assert 0 <= i < |lines| && lines[i].quantity >= p.stock;
    }
    if p.stock >= 1 && exists i :: 0 <= i < |lines| && lines[i].productId == p.id && lines[i].quantity >= p.stock
                                   && forall j :: 0 <= j < i ==> lines[j].productId != p.id {
      var k :| 0 <= k < |lines| && lines[k].productId == p.id && lines[k].quantity >= p.stock
               && forall j :: 0 <= j < k ==> lines[j].productId != p.id;
      assert i == k;
    }
  }

  /**
   * A product already in the cart, within its stock, has its only line raised by
   * one: the line keeps its product, name and price, the other lines and their
   * order are kept, a valid cart stays valid and the total rises by one unit price.
   */
  lemma AddToCartIncrements(lines: seq<SaleLine>, p: Product)
    requires CartValid(lines)
    ensures var r := AddToCart(lines, p);
      r.0.Incremented? ==>
        var k := r.0.index;
        && |r.1| == |lines|
        && lines[k].productId == p.id
        && r.1[k] == lines[k].(quantity := lines[k].quantity + 1)
        && r.1[k].quantity <= p.stock
        && (forall j :: 0 <= j < |lines| && j != k ==> r.1[j] == lines[j])
        && CartValid(r.1)
        && (WithinStock(lines, p) ==> WithinStock(r.1, p))
        && Total(r.1) == Total(lines) + lines[k].price
  {
    var r := AddToCart(lines, p);
    if r.0.Incremented? {
      var k := r.0.index;
      TotalUpdate(lines, k, r.1[k]);
      assert LineAmount(r.1[k]) == LineAmount(lines[k]) + lines[k].price;
    }
  }

  /**
   * A product with stock and no line in the cart is appended at the end with
   * quantity 1, its name and catalog price; a valid cart stays valid and the total
   * rises by that price.
   */
  lemma AddToCartAppends(lines: seq<SaleLine>, p: Product)
    requires CartValid(lines)
    ensures var r := AddToCart(lines, p);
      && (r.0.Appended? <==> p.stock >= 1 && forall i :: 0 <= i < |lines| ==> lines[i].productId != p.id)
      && (r.0.Appended? ==>
            && r.1 == lines + [SaleLine(p.id, p.name, p.price, 1)]
            && CartValid(r.1)
            && (WithinStock(lines, p) ==> WithinStock(r.1, p))
            && Total(r.1) == Total(lines) + p.price)
  {
    var r := AddToCart(lines, p);
    if r.0.Appended? {
      TotalAppendLine(lines, SaleLine(p.id, p.name, p.price, 1));
    }
  }

  /** Array.prototype.splice's start for a delete of one element at `index`. */
  function SpliceStart(len: nat, index: int): (k: nat)
    ensures 0 <= index < len ==> k == index
    ensures k <= len
  {
    if index < 0 then (if len + index < 0 then 0 else len + index)
    else Min(index, len)
  }

  // ---------------------------------------------------------------------------
  // Catalog paging

  /** `all.slice(page * 10, page * 10 + 10)`. */
  function PageSlice<T>(all: seq<T>, page: nat): (r: seq<T>)
    ensures |r| == if page * PageSize >= |all| then 0 else Min(PageSize, |all| - page * PageSize)
    ensures forall i :: 0 <= i < |r| ==> r[i] == all[page * PageSize + i]
  {
    all[Min(page * PageSize, |all|)..Min(page * PageSize + PageSize, |all|)]
  }

  /** What a page loader does: step back from an empty page past the first, or show the slice. */
  datatype PageLoad<T> = StepBack(previous: nat) | Show(items: seq<T>)

  function LoadPage<T>(all: seq<T>, page: nat): (r: PageLoad<T>)
    ensures r.StepBack? <==> page > 0 && page * PageSize >= |all|
    ensures r.StepBack? ==> r.previous == page - 1
    ensures r.Show? ==> r.items == PageSlice(all, page) && |r.items| <= PageSize
  {
    var subset := PageSlice(all, page);
    if |subset| == 0 && page > 0 then StepBack(page - 1) else Show(subset)
  }

  /** `getDataFromCache(key) || []` for each of the three catalog keys. */
  function CachedCategories(m: map<string, Stored>): seq<Category>
  {
    if CategoriesKey in m && m[CategoriesKey].StoredCategories? then m[CategoriesKey].categories else []
  }

  function CachedBrands(m: map<string, Stored>): seq<Brand>
  {
    if BrandsKey in m && m[BrandsKey].StoredBrands? then m[BrandsKey].brands else []
  }

  function CachedProducts(m: map<string, Stored>): seq<Product>
  {
    if ProductsKey in m && m[ProductsKey].StoredProducts? then m[ProductsKey].products else []
  }

  /** `all.filter(b => b.categoryId == catId)` (loose equality). */
  function BrandsInCategory(all: seq<Brand>, catId: JsId): (r: seq<Brand>)
    ensures forall b :: b in r <==> b in all && LooseEq(b.categoryId, catId)
    ensures |r| <= |all|
  {
    if all == [] then []
    else (if LooseEq(all[0].categoryId, catId) then [all[0]] else []) + BrandsInCategory(all[1..], catId)
  }

  /** `all.filter(p => p.brandId == brandId && p.stock > 0)` (loose equality). */
  function ProductsOnShelf(all: seq<Product>, brandId: JsId): (r: seq<Product>)
    ensures forall p :: p in r <==> p in all && LooseEq(p.brandId, brandId) && p.stock > 0
    ensures |r| <= |all|
  {
    if all == [] then []
    else (if LooseEq(all[0].brandId, brandId) && all[0].stock > 0 then [all[0]] else [])
         + ProductsOnShelf(all[1..], brandId)
  }

  /**
   * The brand filter keeps the order and the repetitions of its input: it works
   * element by element, each brand kept exactly when it matches.
   */
  lemma {:induction false} BrandsInCategoryAppend(a: seq<Brand>, b: seq<Brand>, catId: JsId)
    ensures BrandsInCategory(a + b, catId) == BrandsInCategory(a, catId) + BrandsInCategory(b, catId)
  {
    if a == [] {
      assert a + b == b;
    } else {
      assert (a + b)[1..] == a[1..] + b;
      BrandsInCategoryAppend(a[1..], b, catId);
    }
  }

  /** A one-element list is kept exactly when its element passes the test. */
  lemma BrandsInCategorySingle(x: Brand, catId: JsId)
    ensures BrandsInCategory([x], catId) == if LooseEq(x.categoryId, catId) then [x] else []
  {
    assert [x][1..] == [];
  }

  /** The same for the shelf filter, whose order the product pages slice. */
  lemma {:induction false} ProductsOnShelfAppend(a: seq<Product>, b: seq<Product>, brandId: JsId)
    ensures ProductsOnShelf(a + b, brandId) == ProductsOnShelf(a, brandId) + ProductsOnShelf(b, brandId)
  {
    if a == [] {
      assert a + b == b;
    } else {
      assert (a + b)[1..] == a[1..] + b;
      ProductsOnShelfAppend(a[1..], b, brandId);
    }
  }

  /** A one-element list is kept exactly when its element passes the test. */
  lemma ProductsOnShelfSingle(x: Product, brandId: JsId)
    ensures ProductsOnShelf([x], brandId) == if LooseEq(x.brandId, brandId) && x.stock > 0 then [x] else []
  {
    assert [x][1..] == [];
  }

  // ---------------------------------------------------------------------------
  // The page

  class SalesPage {
    const store: LocalStore
    const currentSession: Option<Session>

    var catPage: nat
    var brandPage: nat
    var prodPage: nat
    var categories: seq<Category>
    var brands: seq<Brand>
    var products: seq<Product>
    var selectedCategoryId: JsId
    var selectedBrandId: JsId
    var saleItems: seq<SaleLine>
    var showPaymentModal: bool

    /** The cart keeps one line per product, each with a positive quantity. */
    ghost predicate Valid()
      reads this
    {
      CartValid(saleItems)
    }

    /** Without an open till the page renders only a warning, so no handler below is reachable. */
    predicate SaleScreenShown()
      reads this
    {
      currentSession.Some?
    }

    constructor(store: LocalStore, currentSession: Option<Session>)
      ensures this.store == store && this.currentSession == currentSession
      ensures catPage == 0 && brandPage == 0 && prodPage == 0
      ensures categories == [] && brands == [] && products == []
      ensures selectedCategoryId == Null && selectedBrandId == Null
      ensures saleItems == [] && !showPaymentModal
      ensures Valid()
    {
      this.store := store;
      this.currentSession := currentSession;
      catPage, brandPage, prodPage := 0, 0, 0;
      categories, brands, products := [], [], [];
      selectedCategoryId, selectedBrandId := Null, Null;
      saleItems := [];
      showPaymentModal := false;
    }

    /** loadCategories, run with the page number `page` its render saw. */
    method LoadCategories(page: nat)
      modifies this`catPage, this`categories
      ensures match LoadPage(CachedCategories(store.items), page)
        case StepBack(q) => catPage == q && categories == old(categories)
        case Show(xs) => catPage == old(catPage) && categories == xs
    {
      var all := CachedCategories(store.items);
      var subset := PageSlice(all, page);
      if |subset| == 0 && page > 0 {
        catPage := page - 1;
      } else {
        categories := subset;
      }
    }

    /** loadBrands(catId): the category's brands, paged. */
    method LoadBrands(catId: JsId, page: nat)
      modifies this`brandPage, this`brands
      ensures match LoadPage(BrandsInCategory(CachedBrands(store.items), catId), page)
        case StepBack(q) => brandPage == q && brands == old(brands)
        case Show(xs) => brandPage == old(brandPage) && brands == xs
    {
      var filtered := BrandsInCategory(CachedBrands(store.items), catId);
      var subset := PageSlice(filtered, page);
      if |subset| == 0 && page > 0 {
        brandPage := page - 1;
      } else {
        brands := subset;
      }
    }

    /** loadProducts(brandId): the brand's products with stock, paged. */
    method LoadProducts(brandId: JsId, page: nat)
      modifies this`prodPage, this`products
      ensures match LoadPage(ProductsOnShelf(CachedProducts(store.items), brandId), page)
        case StepBack(q) => prodPage == q && products == old(products)
        case Show(xs) => prodPage == old(prodPage) && products == xs
    {
      var filtered := ProductsOnShelf(CachedProducts(store.items), brandId);
      var subset := PageSlice(filtered, page);
      if |subset| == 0 && page > 0 {
        prodPage := page - 1;
      } else {
        products := subset;
      }
    }

    /**
     * The effect that runs when the till session is set: with no session it does
     * nothing; otherwise it prefetches the three catalog lists (limit 50) and
     * loads the current category page.
     */
    method OnSessionChange(fetchCategories: int -> seq<Category>, fetchBrands: int -> seq<Brand>,
                           fetchProducts: int -> seq<Product>)
      modifies store, this`catPage, this`categories
      ensures currentSession.None? ==>
        store.items == old(store.items) && catPage == old(catPage) && categories == old(categories)
      ensures currentSession.Some? ==>
        store.items == AfterPrefetch(AfterPrefetch(AfterPrefetch(old(store.items),
                         CategoriesKey, StoredCategories(fetchCategories(PrefetchLimit))),
                         BrandsKey, StoredBrands(fetchBrands(PrefetchLimit))),
                         ProductsKey, StoredProducts(fetchProducts(PrefetchLimit)))
      ensures currentSession.Some? ==>
        match LoadPage(CachedCategories(store.items), old(catPage))
        case StepBack(q) => catPage == q && categories == old(categories)
        case Show(xs) => catPage == old(catPage) && categories == xs
    {
      if currentSession.None? {
        return;
      }
      var page := catPage;
      var _, _ := store.PrefetchData(CategoriesKey, n => StoredCategories(fetchCategories(n)), PrefetchLimit);
      var _, _ := store.PrefetchData(BrandsKey, n => StoredBrands(fetchBrands(n)), PrefetchLimit);
      var _, _ := store.PrefetchData(ProductsKey, n => StoredProducts(fetchProducts(n)), PrefetchLimit);
      LoadCategories(page);
    }

    /** handleSelectCategory: select, reset the brand page, clear the brand and products, load brands. */
    method SelectCategory(id: JsId)
      requires SaleScreenShown()
      modifies this`selectedCategoryId, this`brandPage, this`selectedBrandId, this`brands, this`products
      ensures selectedCategoryId == id && selectedBrandId == Null && products == []
      ensures match LoadPage(BrandsInCategory(CachedBrands(store.items), id), old(brandPage))
        case StepBack(q) => brandPage == q && brands == old(brands)
        case Show(xs) => brandPage == 0 && brands == xs
    {
      var page := brandPage;
      selectedCategoryId := id;
      brandPage := 0;
      selectedBrandId := Null;
      LoadBrands(id, page);
      products := [];
    }

    /** handleSelectBrand: select, reset the product page, load products. */
    method SelectBrand(id: JsId)
      requires SaleScreenShown()
      modifies this`selectedBrandId, this`prodPage, this`products
      ensures selectedBrandId == id
      ensures match LoadPage(ProductsOnShelf(CachedProducts(store.items), id), old(prodPage))
        case StepBack(q) => prodPage == q && products == old(products)
        case Show(xs) => prodPage == 0 && products == xs
    {
      var page := prodPage;
      selectedBrandId := id;
      prodPage := 0;
      LoadProducts(id, page);
    }

    /** The categories' "Anterior" button: page max(page-1, 0), then a load of the page the click saw. */
    method PreviousCategoryPage()
      requires SaleScreenShown()
      modifies this`catPage, this`categories
      ensures match LoadPage(CachedCategories(store.items), old(catPage))
        case StepBack(q) => catPage == q && categories == old(categories)
        case Show(xs) => catPage == (if old(catPage) > 0 then old(catPage) - 1 else 0) && categories == xs
    {
      var page := catPage;
      catPage := if page > 0 then page - 1 else 0;
      LoadCategories(page);
    }

    /** The categories' "Siguiente" button: page+1, then a load of the page the click saw. */
    method NextCategoryPage()
      requires SaleScreenShown()
      modifies this`catPage, this`categories
      ensures match LoadPage(CachedCategories(store.items), old(catPage))
        case StepBack(q) => catPage == q && categories == old(categories)
        case Show(xs) => catPage == old(catPage) + 1 && categories == xs
    {
      var page := catPage;
      catPage := page + 1;
      LoadCategories(page);
    }

    method PreviousBrandPage()
      requires SaleScreenShown()
      modifies this`brandPage, this`brands
      ensures match LoadPage(BrandsInCategory(CachedBrands(store.items), selectedCategoryId), old(brandPage))
        case StepBack(q) => brandPage == q && brands == old(brands)
        case Show(xs) => brandPage == (if old(brandPage) > 0 then old(brandPage) - 1 else 0) && brands == xs
    {
      var page := brandPage;
      brandPage := if page > 0 then page - 1 else 0;
      LoadBrands(selectedCategoryId, page);
    }

    method NextBrandPage()
      requires SaleScreenShown()
      modifies this`brandPage, this`brands
      ensures match LoadPage(BrandsInCategory(CachedBrands(store.items), selectedCategoryId), old(brandPage))
        case StepBack(q) => brandPage == q && brands == old(brands)
        case Show(xs) => brandPage == old(brandPage) + 1 && brands == xs
    {
      var page := brandPage;
      brandPage := page + 1;
      LoadBrands(selectedCategoryId, page);
    }

    method PreviousProductPage()
      requires SaleScreenShown()
      modifies this`prodPage, this`products
      ensures match LoadPage(ProductsOnShelf(CachedProducts(store.items), selectedBrandId), old(prodPage))
        case StepBack(q) => prodPage == q && products == old(products)
        case Show(xs) => prodPage == (if old(prodPage) > 0 then old(prodPage) - 1 else 0) && products == xs
    {
      var page := prodPage;
      prodPage := if page > 0 then page - 1 else 0;
      LoadProducts(selectedBrandId, page);
    }

    method NextProductPage()
      requires SaleScreenShown()
      modifies this`prodPage, this`products
      ensures match LoadPage(ProductsOnShelf(CachedProducts(store.items), selectedBrandId), old(prodPage))
        case StepBack(q) => prodPage == q && products == old(products)
        case Show(xs) => prodPage == old(prodPage) + 1 && products == xs
    {
      var page := prodPage;
      prodPage := page + 1;
      LoadProducts(selectedBrandId, page);
    }

    /** addProduct: the cart and the outcome are those of AddToCart. */
    method AddProduct(p: Product) returns (outcome: AddOutcome)
      requires SaleScreenShown() && Valid()
      modifies this`saleItems
      ensures (outcome, saleItems) == AddToCart(old(saleItems), p)
      ensures Valid()
    {
      if p.stock < 1 {
        return OutOfStock;
      }
      var existingIndex := FindLine(saleItems, p.id);
      if existingIndex >= 0 {
        if saleItems[existingIndex].quantity + 1 > p.stock {
          return InsufficientStock;
        }
        var line := saleItems[existingIndex];
        saleItems := saleItems[existingIndex := line.(quantity := line.quantity + 1)];
        outcome := Incremented(existingIndex);
      } else {
        saleItems := saleItems + [SaleLine(p.id, p.name, p.price, 1)];
        outcome := Appended;
      }
      AddToCartIncrements(old(saleItems), p);
      AddToCartAppends(old(saleItems), p);
    }

    /** removeItem: `splice(index, 1)` on a copy; an index inside the cart deletes exactly that line. */
    method RemoveItem(index: int)
      requires SaleScreenShown() && Valid()
      modifies this`saleItems
      ensures Valid()
      ensures var k := SpliceStart(|old(saleItems)|, index);
        if k < |old(saleItems)| then
          && saleItems == old(saleItems)[..k] + old(saleItems)[k + 1..]
          && Total(saleItems) == Total(old(saleItems)) - LineAmount(old(saleItems)[k])
        else saleItems == old(saleItems)
    {
      var k := SpliceStart(|saleItems|, index);
      if k < |saleItems| {
        var newItems := saleItems[..k] + saleItems[k + 1..];
        TotalRemove(saleItems, k);
        forall i, j | 0 <= i < j < |newItems|
          ensures newItems[i].productId != newItems[j].productId
        {
          var i' := if i < k then i else i + 1;
          var j' := if j < k then j else j + 1;
          assert newItems[i] == saleItems[i'] && newItems[j] == saleItems[j'];
        }
        saleItems := newItems;
      }
    }

    /** finalizeSale: an empty cart raises an alert; otherwise the payment modal opens. */
    method FinalizeSale() returns (modalShown: bool)
      requires SaleScreenShown()
      modifies this`showPaymentModal
      ensures modalShown <==> |saleItems| > 0
      ensures showPaymentModal == (if modalShown then true else old(showPaymentModal))
    {
      if |saleItems| == 0 {
        return false;
      }
      showPaymentModal := true;
      modalShown := true;
    }

    /** handleSaleProcessed: the cart is emptied and the modal closed. */
    method HandleSaleProcessed()
      modifies this`saleItems, this`showPaymentModal
      ensures saleItems == [] && !showPaymentModal && Total(saleItems) == 0.0
      ensures Valid()
    {
      saleItems := [];
      showPaymentModal := false;
    }
  }
}
