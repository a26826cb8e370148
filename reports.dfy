// What the two sales-report screens share (src/pages/AdminReportsPage.js and its
// older copy src/components/ProductSearch.js): the row of a sold item, the date
// filter, the two sums, and the per-report product cache that memoises
// getProductDetail.
//
// The backend's product endpoint is a function from the path text String(productId)
// to the product, None standing for a request that throws.

module SalesReport {
  import opened Js
  import opened Domain

  /**
   * One row of the report and of the exported sheet. `time` carries the sale's
   * date as received; its rendering with toLocaleTimeString is not modelled.
   */
  datatype ReportRow = ReportRow(ticket: string, time: string, cashier: string, brand: string,
                                 productName: string, quantity: int)

  /** A sheet line: the header (Ticket, Hora, Cajero, Marca, Nombre del Producto, Cantidad) or a row. */
  datatype SheetRow = HeaderRow | DataRow(row: ReportRow)

  /** The sheet of some rows: the header line, then one line per row in order. */
  function Sheet(rows: seq<ReportRow>): (sheet: seq<SheetRow>)
    ensures |sheet| == 1 + |rows| && sheet[0] == HeaderRow
    ensures forall k :: 0 <= k < |rows| ==> sheet[k + 1] == DataRow(rows[k])
  {
    [HeaderRow] + seq(|rows|, k requires 0 <= k < |rows| => DataRow(rows[k]))
  }

  /** `sale.id || "(sin ID)"`. */
  function Ticket(id: JsId): (t: string)
    ensures Truthy(id) ==> t == ToStr(id)
    ensures !Truthy(id) ==> t == "(sin ID)"
  {
    if Truthy(id) then ToStr(id) else "(sin ID)"
  }

  function Min(a: int, b: int): int { if a <= b then a else b }

  /** `sale.date.slice(0, 10) === reportDate`. */
  predicate DateMatches(sale: Sale, reportDate: string)
  {
    sale.date[..Min(10, |sale.date|)] == reportDate
  }

  /** A date filter only keeps anything when the chosen date has at most 10 characters. */
  lemma DateMatchesLength(sale: Sale, reportDate: string)
    requires DateMatches(sale, reportDate)
    ensures |reportDate| <= 10 && reportDate <= sale.date
  {
  }

  /** `totalDaySales += sale.total || 0` over the sales. */
  function DayTotal(sales: seq<Sale>): real
  {
    if sales == [] then 0.0
    else
      var last := sales[|sales| - 1];
      DayTotal(sales[..|sales| - 1]) + (if last.total.Some? then last.total.value else 0.0)
  }

  function ItemQuantity(items: seq<SaleItem>): int
  {
    if items == [] then 0 else ItemQuantity(items[..|items| - 1]) + items[|items| - 1].quantity
  }

  /** `totalStockUsed += item.quantity` over every item of the sales. */
  function StockUsed(sales: seq<Sale>): int
  {
    if sales == [] then 0 else StockUsed(sales[..|sales| - 1]) + ItemQuantity(sales[|sales| - 1].items)
  }

  /** The number of items of the sales, which is the number of report rows. */
  function ItemCount(sales: seq<Sale>): nat
  {
    if sales == [] then 0 else ItemCount(sales[..|sales| - 1]) + |sales[|sales| - 1].items|
  }

  lemma {:induction false} DayTotalAppend(a: seq<Sale>, b: seq<Sale>)
    ensures DayTotal(a + b) == DayTotal(a) + DayTotal(b)
  {
    if b == [] {
      assert a + b == a;
    } else {
      assert (a + b)[..|a + b| - 1] == a + b[..|b| - 1];
      DayTotalAppend(a, b[..|b| - 1]);
    }
  }

  lemma {:induction false} StockUsedAppend(a: seq<Sale>, b: seq<Sale>)
    ensures StockUsed(a + b) == StockUsed(a) + StockUsed(b)
  {
    if b == [] {
      assert a + b == a;
    } else {
      assert (a + b)[..|a + b| - 1] == a + b[..|b| - 1];
      StockUsedAppend(a, b[..|b| - 1]);
    }
  }

  /** With quantities that are never negative, the stock consumed is never negative. */
  lemma {:induction false} StockUsedNonNegative(sales: seq<Sale>)
    requires forall i, j :: 0 <= i < |sales| && 0 <= j < |sales[i].items| ==> sales[i].items[j].quantity >= 0
    ensures StockUsed(sales) >= 0
  {
    if sales != [] {
      StockUsedNonNegative(sales[..|sales| - 1]);
      ItemQuantityNonNegative(sales[|sales| - 1].items);
    }
  }

  lemma {:induction false} ItemQuantityNonNegative(items: seq<SaleItem>)
    requires forall j :: 0 <= j < |items| ==> items[j].quantity >= 0
    ensures ItemQuantity(items) >= 0
  {
    if items != [] {
      ItemQuantityNonNegative(items[..|items| - 1]);
    }
  }

  /**
   * The `productCache` object of one report, keyed by String(productId).
   * `requests` records the product requests sent, in order.
   */
  class ProductCache {
    var entries: map<string, Product>
    ghost var requests: seq<string>

    constructor()
      ensures entries == map[] && requests == []
    {
      entries := map[];
      requests := [];
    }

    /** Every cached product is what the endpoint answers for its key. */
    ghost predicate Coherent(fetch: string -> Option<Product>)
      reads this
    {
      forall k :: k in entries ==> fetch(k) == Some(entries[k])
    }

    /**
     * getProductDetail: a cached product is returned without a request; otherwise
     * one request is sent, a product it returns is cached, and a request that
     * throws yields null and caches nothing.
     */
    method GetProductDetail(productId: JsId, fetch: string -> Option<Product>) returns (prod: Option<Product>)
      requires Coherent(fetch)
      modifies this
      ensures Coherent(fetch)
      ensures prod == fetch(ToStr(productId))
      ensures ToStr(productId) in old(entries) ==> entries == old(entries) && requests == old(requests)
      ensures ToStr(productId) !in old(entries) ==>
        && requests == old(requests) + [ToStr(productId)]
        && entries == if prod.Some? then old(entries)[ToStr(productId) := prod.value] else old(entries)
    {
      var key := ToStr(productId);
      if key in entries {
        return Some(entries[key]);
      }
      requests := requests + [key];
      prod := fetch(key);
      if prod.Some? {
        entries := entries[key := prod.value];
      }
    }
  }
}
