// Cancelling a sale (src/components/CancelSaleModal.js): three guards on the typed
// id, then every item's quantity goes back to stock (to the variant of the item's
// colour, or to the product's base stock), and only after that restock phase has
// finished without an exception is the sale marked cancelled.
//
// The backend's product table is a map from String(product.id) to the product.
// A GET of a product answers the entry under String(item.productId) (not ok when
// there is none); `unreachable` names the keys whose GET throws, and `rejectsPut`
// those whose PUT answers not ok. The items are restocked one after the other.

module CancelSale {
  import opened Js
  import opened Domain

  class Backend {
    var products: map<string, Product>
    var cancelledSales: set<string>

    constructor(products: map<string, Product>)
      ensures this.products == products && cancelledSales == {}
    {
      this.products := products;
      cancelledSales := {};
    }

    /** One item of the restock phase: GET the product, add the quantity in place, PUT it back. */
    method RestockOne(item: SaleItem, unreachable: set<string>, rejectsPut: set<string>) returns (threw: bool)
      modifies this`products
      ensures (products, threw) == RestockItem(old(products), item, unreachable, rejectsPut)
    {
      var key := ToStr(item.productId);
      if key in unreachable {
        return true;
      }
      threw := false;
      if key !in products {
        return;
      }
      var product := products[key];
      if item.variantColor != "" {
        var j := FindColour(product.variants, item.variantColor);
        if j >= 0 {
          var variant := product.variants[j];
          product := product.(variants := product.variants[j := variant.(stock := AddInt(variant.stock, item.quantity))]);
        }
      } else {
        product := product.(stock := product.stock + item.quantity);
      }
      var putKey := ToStr(product.id);
      if putKey !in rejectsPut {
        products := products[putKey := product];
      }
    }

    /** The restock phase: every item in turn; an item that throws does not stop the others. */
    method RestockAllItems(items: seq<SaleItem>, unreachable: set<string>, rejectsPut: set<string>) returns (threw: bool)
      modifies this`products
      ensures (products, threw) == RestockAll(old(products), items, unreachable, rejectsPut)
    {
      threw := false;
      var i := 0;
      while i < |items|
        invariant 0 <= i <= |items|
        invariant (products, threw) == RestockAll(old(products), items[..i], unreachable, rejectsPut)
      {
        var t := RestockOne(items[i], unreachable, rejectsPut);
        threw := threw || t;
        assert items[..i + 1][..i] == items[..i];
        i := i + 1;
      }
      assert items[..i] == items;
    }
  }

  /** Every product is stored under the string form of its own id. */
  ghost predicate KeyedById(m: map<string, Product>)
  {
    forall k :: k in m ==> ToStr(m[k].id) == k
  }

  /** `allSales.find(s => String(s.id) === String(saleId))`, as an index or -1. */
  function FindSale(sales: seq<Sale>, saleId: string): (i: int)
    ensures -1 <= i < |sales|
    ensures i >= 0 ==> ToStr(sales[i].id) == saleId && forall j :: 0 <= j < i ==> ToStr(sales[j].id) != saleId
    ensures i == -1 <==> forall j :: 0 <= j < |sales| ==> ToStr(sales[j].id) != saleId
  {
    if sales == [] then -1
    else if ToStr(sales[0].id) == saleId then 0
    else
      var k := FindSale(sales[1..], saleId);
      if k == -1 then -1 else k + 1
  }

  /** `product.variants?.find(v => v.color === color)`, as an index or -1. */
  function FindColour(vs: seq<Variant>, color: string): (j: int)
    ensures -1 <= j < |vs|
    ensures j >= 0 ==> vs[j].color == color && forall k :: 0 <= k < j ==> vs[k].color != color
    ensures j == -1 <==> forall k :: 0 <= k < |vs| ==> vs[k].color != color
  {
    if vs == [] then -1
    else if vs[0].color == color then 0
    else
      var k := FindColour(vs[1..], color);
      if k == -1 then -1 else k + 1
  }

  /** The product after one item of the sale is put back. */
  function Restocked(p: Product, item: SaleItem): Product
  {
    if item.variantColor != "" then
      var j := FindColour(p.variants, item.variantColor);
      if j >= 0 then p.(variants := p.variants[j := p.variants[j].(stock := AddInt(p.variants[j].stock, item.quantity))])
      else p
    else p.(stock := p.stock + item.quantity)
  }

  /** An item naming a colour adds its quantity to the first variant of that colour and to nothing else. */
  lemma VariantRestock(p: Product, item: SaleItem)
    requires item.variantColor != ""
    ensures var j := FindColour(p.variants, item.variantColor);
      var q := Restocked(p, item);
      && q.stock == p.stock
      && |q.variants| == |p.variants|
      && (j >= 0 ==> q.variants[j] == Variant(item.variantColor, AddInt(p.variants[j].stock, item.quantity)))
      && (forall k :: 0 <= k < |p.variants| && k != j ==> q.variants[k] == p.variants[k])
      && q.(variants := p.variants) == p
  {
  }

  /** An item whose colour matches no variant changes nothing. */
  lemma UnmatchedColourRestock(p: Product, item: SaleItem)
    requires item.variantColor != ""
    requires forall k :: 0 <= k < |p.variants| ==> p.variants[k].color != item.variantColor
    ensures Restocked(p, item) == p
  {
  }

  /** An item without a colour adds its quantity to the base stock and changes nothing else. */
  lemma BaseRestock(p: Product, item: SaleItem)
    requires item.variantColor == ""
    ensures Restocked(p, item) == p.(stock := p.stock + item.quantity)
  {
  }

  /**
   * One item's restock against the product table: (new table, whether it threw).
   * A GET that throws, a product that is not found and a PUT that is refused all
   * leave the table as it was; only the first counts as an exception.
   */
  function RestockItem(m: map<string, Product>, item: SaleItem, unreachable: set<string>,
                       rejectsPut: set<string>): (map<string, Product>, bool)
  {
    var key := ToStr(item.productId);
    if key in unreachable then (m, true)
    else if key !in m then (m, false)
    else
      var product := Restocked(m[key], item);
      var putKey := ToStr(product.id);
      if putKey in rejectsPut then (m, false) else (m[putKey := product], false)
  }

  /** The restock phase: every item in turn, and whether any of them threw. */
  function RestockAll(m: map<string, Product>, items: seq<SaleItem>, unreachable: set<string>,
                      rejectsPut: set<string>): (map<string, Product>, bool)
  {
    if items == [] then (m, false)
    else
      var before := RestockAll(m, items[..|items| - 1], unreachable, rejectsPut);
      var after := RestockItem(before.0, items[|items| - 1], unreachable, rejectsPut);
      (after.0, before.1 || after.1)
  }

  /** A product that cannot be found is skipped without an exception. */
  lemma MissingProductSkipped(m: map<string, Product>, item: SaleItem, unreachable: set<string>,
                              rejectsPut: set<string>)
    requires ToStr(item.productId) !in m && ToStr(item.productId) !in unreachable
    ensures RestockItem(m, item, unreachable, rejectsPut) == (m, false)
  {
  }

  /**
   * The restock of a + b is that of a followed by that of b: an item that fails,
   * or throws, does not keep the later items from being restocked.
   */
  lemma {:induction false} RestockAllAppend(m: map<string, Product>, a: seq<SaleItem>, b: seq<SaleItem>,
                                            unreachable: set<string>, rejectsPut: set<string>)
    ensures var first := RestockAll(m, a, unreachable, rejectsPut);
      var second := RestockAll(first.0, b, unreachable, rejectsPut);
      RestockAll(m, a + b, unreachable, rejectsPut) == (second.0, first.1 || second.1)
  {
    if b == [] {
      assert a + b == a;
    } else {
      assert (a + b)[..|a + b| - 1] == a + b[..|b| - 1];
      RestockAllAppend(m, a, b[..|b| - 1], unreachable, rejectsPut);
    }
  }

  /** The phase throws exactly when some item's product key is unreachable. */
  lemma {:induction false} RestockThrowsIff(m: map<string, Product>, items: seq<SaleItem>,
                                            unreachable: set<string>, rejectsPut: set<string>)
    ensures RestockAll(m, items, unreachable, rejectsPut).1
            <==> exists i :: 0 <= i < |items| && ToStr(items[i].productId) in unreachable
  {
    if items != [] {
      var init := items[..|items| - 1];
      RestockThrowsIff(m, init, unreachable, rejectsPut);
      if exists i :: 0 <= i < |init| && ToStr(init[i].productId) in unreachable {
        var i :| 0 <= i < |init| && ToStr(init[i].productId) in unreachable;
        assert items[i] == init[i];
      }
      if exists i :: 0 <= i < |items| && ToStr(items[i].productId) in unreachable {
        var i :| 0 <= i < |items| && ToStr(items[i].productId) in unreachable;
        if i < |init| {
          assert init[i] == items[i];
        }
      }
    }
  }

  /** The quantities of the items without a colour that name product key k. */
  function BaseQuantity(items: seq<SaleItem>, k: string): int
  {
    if items == [] then 0
    else
      var last := items[|items| - 1];
      BaseQuantity(items[..|items| - 1], k) + (if ToStr(last.productId) == k && last.variantColor == "" then last.quantity else 0)
  }

  /**
   * For a product stored under its own id that is reachable and accepts the
   * PUT, the restock phase raises its base stock by exactly the quantities of
   * the colourless items that name it, and keeps every product under its key.
   */
  lemma {:induction false} RestockAllBaseStock(m: map<string, Product>, items: seq<SaleItem>,
                                               unreachable: set<string>, rejectsPut: set<string>, k: string)
    requires KeyedById(m) && k in m && k !in unreachable && k !in rejectsPut
    ensures var r := RestockAll(m, items, unreachable, rejectsPut).0;
      KeyedById(r) && r.Keys == m.Keys && r[k].stock == m[k].stock + BaseQuantity(items, k)
  {
    if items != [] {
      var init := items[..|items| - 1];
      var item := items[|items| - 1];
      RestockAllBaseStock(m, init, unreachable, rejectsPut, k);
      var before := RestockAll(m, init, unreachable, rejectsPut).0;
      var key := ToStr(item.productId);
      if key !in unreachable && key in before {
        var product := Restocked(before[key], item);
        assert product.id == before[key].id;
        assert ToStr(product.id) == key;
      }
    }
  }

  datatype CancelOutcome = MissingId | UnknownSale | NoItems | RestockFailed | CancelRejected | Cancelled

  class CancelSaleModal {
    var allSales: seq<Sale>
    var saleId: string
    var isProcessing: bool
    var closed: bool

    constructor()
      ensures allSales == [] && saleId == "" && !isProcessing && !closed
    {
      allSales := [];
      saleId := "";
      isProcessing := false;
      closed := false;
    }

    /** The effect run on opening: the loaded sales replace the empty list; a failed load keeps it. */
    method LoadAllSales(response: Option<seq<Sale>>)
      modifies this`allSales
      ensures allSales == if response.Some? then response.value else old(allSales)
    {
      if response.Some? {
        allSales := response.value;
      }
    }

    /**
     * handleCancelSale. `cancelAccepted` is the backend's answer to the PATCH of
     * /sales/{saleId}/cancel.
     */
    method HandleCancelSale(backend: Backend, unreachable: set<string>, rejectsPut: set<string>,
                            cancelAccepted: bool) returns (outcome: CancelOutcome)
      modifies this`isProcessing, this`closed, backend
      ensures outcome == MissingId <==> saleId == ""
      ensures saleId == "" ==> isProcessing == old(isProcessing)
      ensures saleId != "" ==> !isProcessing
      ensures outcome == UnknownSale <==> saleId != "" && FindSale(allSales, saleId) == -1
      ensures outcome == NoItems <==>
        saleId != "" && FindSale(allSales, saleId) >= 0 && allSales[FindSale(allSales, saleId)].items == []
      ensures saleId != "" && FindSale(allSales, saleId) >= 0 && allSales[FindSale(allSales, saleId)].items != [] ==>
        outcome in {RestockFailed, CancelRejected, Cancelled}
      ensures outcome in {MissingId, UnknownSale, NoItems} ==>
        backend.products == old(backend.products) && backend.cancelledSales == old(backend.cancelledSales)
      ensures outcome in {RestockFailed, CancelRejected, Cancelled} ==>
        var sale := allSales[FindSale(allSales, saleId)];
        var phase := RestockAll(old(backend.products), sale.items, unreachable, rejectsPut);
        && saleId != "" && FindSale(allSales, saleId) >= 0 && sale.items != []
        && backend.products == phase.0
        && (outcome == RestockFailed <==> phase.1)
        && (outcome == Cancelled <==> !phase.1 && cancelAccepted)
      ensures backend.cancelledSales == if outcome == Cancelled then old(backend.cancelledSales) + {saleId}
                                        else old(backend.cancelledSales)
      ensures closed == (outcome == Cancelled || old(closed))
    {
      if saleId == "" {
        return MissingId;
      }
      isProcessing := true;

      var index := FindSale(allSales, saleId);
      if index == -1 {
        isProcessing := false;
        return UnknownSale;
      }
      var items := allSales[index].items;
      if items == [] {
        isProcessing := false;
        return NoItems;
      }

      var threw := backend.RestockAllItems(items, unreachable, rejectsPut);

      if threw {
        isProcessing := false;
        return RestockFailed;
      }
      if cancelAccepted {
        backend.cancelledSales := backend.cancelledSales + {saleId};
        closed := true;
        outcome := Cancelled;
      } else {
        outcome := CancelRejected;
      }
      isProcessing := false;
    }
  }
}
