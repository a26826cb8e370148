// The sales report of src/pages/AdminReportsPage.js: the day's sales, optionally of
// one cashier (ids compared as strings), split into active and cancelled sales,
// one row per sold item, totals over the active sales only; and the sheet export,
// which lists the active sales only.
//
// The sales, users and brands lists are the backend's answers, taken as parameters.

module AdminReports {
  import opened Js
  import opened Domain
  import opened SalesReport

  /** `cashierFilter === "all"` or `String(sale.cashierId) === String(cashierFilter)`. */
  predicate CashierMatches(sale: Sale, cashierFilter: string)
  {
    cashierFilter == "all" || ToStr(sale.cashierId) == cashierFilter
  }

  /** The date filter followed by the cashier filter. */
  function FilterSales(sales: seq<Sale>, reportDate: string, cashierFilter: string): (r: seq<Sale>)
    ensures forall s :: s in r <==> s in sales && DateMatches(s, reportDate) && CashierMatches(s, cashierFilter)
    ensures |r| <= |sales|
  {
    if sales == [] then []
    else
      var rest := FilterSales(sales[1..], reportDate, cashierFilter);
      if DateMatches(sales[0], reportDate) && CashierMatches(sales[0], cashierFilter) then [sales[0]] + rest else rest
  }

  /** `sales.filter(s => !s.isCancelled)`. */
  function ActiveSales(sales: seq<Sale>): (r: seq<Sale>)
    ensures forall s :: s in r <==> s in sales && !s.isCancelled
  {
    if sales == [] then [] else (if !sales[0].isCancelled then [sales[0]] else []) + ActiveSales(sales[1..])
  }

  /** `sales.filter(s => s.isCancelled)`. */
  function CancelledSales(sales: seq<Sale>): (r: seq<Sale>)
    ensures forall s :: s in r <==> s in sales && s.isCancelled
  {
    if sales == [] then [] else (if sales[0].isCancelled then [sales[0]] else []) + CancelledSales(sales[1..])
  }

  /** The date and cashier filters keep the order and the repetitions of the sales list. */
  lemma {:induction false} FilterSalesAppend(a: seq<Sale>, b: seq<Sale>, reportDate: string, cashierFilter: string)
    ensures FilterSales(a + b, reportDate, cashierFilter)
            == FilterSales(a, reportDate, cashierFilter) + FilterSales(b, reportDate, cashierFilter)
  {
    if a == [] {
      assert a + b == b;
    } else {
      assert (a + b)[1..] == a[1..] + b;
      FilterSalesAppend(a[1..], b, reportDate, cashierFilter);
    }
  }

  /** A one-element list is kept exactly when its element passes the test. */
  lemma FilterSalesSingle(x: Sale, reportDate: string, cashierFilter: string)
    ensures FilterSales([x], reportDate, cashierFilter) == if DateMatches(x, reportDate) && CashierMatches(x, cashierFilter) then [x] else []
  {
    assert [x][1..] == [];
  }

  /** So does the split into active sales. */
  lemma {:induction false} ActiveSalesAppend(a: seq<Sale>, b: seq<Sale>)
    ensures ActiveSales(a + b) == ActiveSales(a) + ActiveSales(b)
  {
    if a == [] {
      assert a + b == b;
    } else {
      assert (a + b)[1..] == a[1..] + b;
      ActiveSalesAppend(a[1..], b);
    }
  }

  /** A one-element list is kept exactly when its element passes the test. */
  lemma ActiveSalesSingle(x: Sale)
    ensures ActiveSales([x]) == if !x.isCancelled then [x] else []
  {
    assert [x][1..] == [];
  }

  /** And the split into cancelled sales. */
  lemma {:induction false} CancelledSalesAppend(a: seq<Sale>, b: seq<Sale>)
    ensures CancelledSales(a + b) == CancelledSales(a) + CancelledSales(b)
  {
    if a == [] {
      assert a + b == b;
    } else {
      assert (a + b)[1..] == a[1..] + b;
      CancelledSalesAppend(a[1..], b);
    }
  }

  /** A one-element list is kept exactly when its element passes the test. */
  lemma CancelledSalesSingle(x: Sale)
    ensures CancelledSales([x]) == if x.isCancelled then [x] else []
  {
    assert [x][1..] == [];
  }

  /** The active and the cancelled sales together are the filtered sales, each exactly once. */
  lemma {:induction false} ActiveCancelledPartition(sales: seq<Sale>)
    ensures multiset(ActiveSales(sales)) + multiset(CancelledSales(sales)) == multiset(sales)
  {
    if sales != [] {
      ActiveCancelledPartition(sales[1..]);
      assert sales == [sales[0]] + sales[1..];
    }
  }

  /** `brandMap[b.id] = b.name` for each brand in turn: a later brand with the same key wins. */
  function BrandMap(brands: seq<Brand>): (m: map<string, string>)
    ensures forall k :: k in m <==> exists i :: 0 <= i < |brands| && ToStr(brands[i].id) == k
  {
    if brands == [] then map[]
    else
      var last := brands[|brands| - 1];
      var m := BrandMap(brands[..|brands| - 1]);
      assert forall i :: 0 <= i < |brands| - 1 ==> brands[..|brands| - 1][i] == brands[i];
      m[ToStr(last.id) := last.name]
  }

  /** The map holds, for each key, the name of the last brand with that key. */
  lemma {:induction false} BrandMapLastWins(brands: seq<Brand>, i: nat)
    requires i < |brands|
    requires forall j :: i < j < |brands| ==> ToStr(brands[j].id) != ToStr(brands[i].id)
    ensures BrandMap(brands)[ToStr(brands[i].id)] == brands[i].name
  {
    if i < |brands| - 1 {
      var init := brands[..|brands| - 1];
      BrandMapLastWins(init, i);
    }
  }

  /** `prod && prod.brandId ? (brandMap[prod.brandId] || "N/A") : "N/A"`. */
  function BrandName(prod: Option<Product>, brandMap: map<string, string>): (name: string)
    ensures name != ""
    ensures name != "N/A" ==>
      prod.Some? && Truthy(prod.value.brandId) && ToStr(prod.value.brandId) in brandMap
      && name == brandMap[ToStr(prod.value.brandId)]
    ensures (prod.Some? && Truthy(prod.value.brandId) && ToStr(prod.value.brandId) in brandMap
             && brandMap[ToStr(prod.value.brandId)] != "") ==> name == brandMap[ToStr(prod.value.brandId)]
  {
    if prod.Some? && Truthy(prod.value.brandId) && ToStr(prod.value.brandId) in brandMap
       && brandMap[ToStr(prod.value.brandId)] != ""
    then brandMap[ToStr(prod.value.brandId)]
    else "N/A"
  }

  /** `users.find(u => String(u.id) === String(cashierId))`, its username, or "Desconocido". */
  function CashierName(users: seq<User>, cashierId: JsId): (name: string)
    ensures (forall i :: 0 <= i < |users| ==> ToStr(users[i].id) != ToStr(cashierId)) ==> name == "Desconocido"
    ensures forall i :: (0 <= i < |users| && ToStr(users[i].id) == ToStr(cashierId)
                         && forall j :: 0 <= j < i ==> ToStr(users[j].id) != ToStr(cashierId))
                        ==> name == users[i].username
  {
    if users == [] then "Desconocido"
    else if ToStr(users[0].id) == ToStr(cashierId) then users[0].username
    else
      assert forall i :: 1 <= i < |users| ==> users[1..][i - 1] == users[i];
      CashierName(users[1..], cashierId)
  }

  /** A numeric cashier id finds the user whose id is the same number written as text. */
  lemma CashierIdsComparedAsText(users: seq<User>, n: nat, username: string, password: string, role: string)
    ensures CashierName([User(Str(IntToString(n)), username, password, role)] + users, Num(n)) == username
  {
    NumberAndItsString(n);
  }

  /** The row of one item of a sale. */
  function ItemRow(sale: Sale, item: SaleItem, users: seq<User>, brandMap: map<string, string>,
                   fetch: string -> Option<Product>): ReportRow
  {
    ReportRow(Ticket(sale.id), sale.date, CashierName(users, sale.cashierId),
              BrandName(fetch(ToStr(item.productId)), brandMap), item.productName, item.quantity)
  }

  /** The rows of one sale, one per item in item order. */
  function SaleRows(sale: Sale, items: seq<SaleItem>, users: seq<User>, brandMap: map<string, string>,
                    fetch: string -> Option<Product>): (rows: seq<ReportRow>)
    ensures |rows| == |items|
    ensures forall j :: 0 <= j < |items| ==> rows[j] == ItemRow(sale, items[j], users, brandMap, fetch)
  {
    if items == [] then []
    else SaleRows(sale, items[..|items| - 1], users, brandMap, fetch)
         + [ItemRow(sale, items[|items| - 1], users, brandMap, fetch)]
  }

  /** One more item of the sale adds its row and its quantity. */
  lemma SaleRowsStep(sale: Sale, items: seq<SaleItem>, j: nat, users: seq<User>, brandMap: map<string, string>,
                     fetch: string -> Option<Product>)
    requires j < |items|
    ensures SaleRows(sale, items[..j + 1], users, brandMap, fetch)
            == SaleRows(sale, items[..j], users, brandMap, fetch) + [ItemRow(sale, items[j], users, brandMap, fetch)]
    ensures ItemQuantity(items[..j + 1]) == ItemQuantity(items[..j]) + items[j].quantity
  {
    assert items[..j + 1][..j] == items[..j];
  }

  /** The rows of the sales, sale after sale. */
  function Rows(sales: seq<Sale>, users: seq<User>, brandMap: map<string, string>,
                fetch: string -> Option<Product>): seq<ReportRow>
  {
    if sales == [] then []
    else
      var last := sales[|sales| - 1];
      Rows(sales[..|sales| - 1], users, brandMap, fetch) + SaleRows(last, last.items, users, brandMap, fetch)
  }

  /** Exactly one row per item. */
  lemma {:induction false} RowsCount(sales: seq<Sale>, users: seq<User>, brandMap: map<string, string>,
                                     fetch: string -> Option<Product>)
    ensures |Rows(sales, users, brandMap, fetch)| == ItemCount(sales)
  {
    if sales != [] {
      RowsCount(sales[..|sales| - 1], users, brandMap, fetch);
    }
  }

  /** One more sale of the list adds its rows and its sums. */
  lemma RowsStep(sales: seq<Sale>, i: nat, users: seq<User>, brandMap: map<string, string>,
                 fetch: string -> Option<Product>)
    requires i < |sales|
    ensures Rows(sales[..i + 1], users, brandMap, fetch)
            == Rows(sales[..i], users, brandMap, fetch) + SaleRows(sales[i], sales[i].items, users, brandMap, fetch)
    ensures DayTotal(sales[..i + 1]) == DayTotal(sales[..i]) + if sales[i].total.Some? then sales[i].total.value else 0.0
    ensures StockUsed(sales[..i + 1]) == StockUsed(sales[..i]) + ItemQuantity(sales[i].items)
  {
    assert sales[..i + 1][..i] == sales[..i];
  }

  datatype Totals = Totals(daySales: real, stockUsed: int)

  /** No date chosen, or the report: active rows, cancelled rows, and totals when there are active sales. */
  datatype Report = NoDate | Report(active: seq<ReportRow>, cancelled: seq<ReportRow>, totals: Option<Totals>)

  /** The inner loop: the rows of one sale's items, through the shared product cache. */
  method CollectSaleRows(sale: Sale, users: seq<User>, brandMap: map<string, string>,
                         fetch: string -> Option<Product>, cache: ProductCache)
    returns (saleRows: seq<ReportRow>, itemQuantity: int)
    requires cache.Coherent(fetch)
    modifies cache
    ensures cache.Coherent(fetch)
    ensures saleRows == SaleRows(sale, sale.items, users, brandMap, fetch)
    ensures itemQuantity == ItemQuantity(sale.items)
  {
    var cashierName := CashierName(users, sale.cashierId);
    saleRows, itemQuantity := [], 0;
    var j := 0;
    while j < |sale.items|
      invariant 0 <= j <= |sale.items|
      invariant cache.Coherent(fetch)
      invariant saleRows == SaleRows(sale, sale.items[..j], users, brandMap, fetch)
      invariant itemQuantity == ItemQuantity(sale.items[..j])
    {
      var item := sale.items[j];
      itemQuantity := itemQuantity + item.quantity;
      var prod := cache.GetProductDetail(item.productId, fetch);
      var brandName := BrandName(prod, brandMap);
      var row := ReportRow(Ticket(sale.id), sale.date, cashierName, brandName, item.productName, item.quantity);
      assert row == ItemRow(sale, item, users, brandMap, fetch);
      saleRows := saleRows + [row];
      SaleRowsStep(sale, sale.items, j, users, brandMap, fetch);
      j := j + 1;
    }
    assert sale.items[..j] == sale.items;
  }

  /** The outer loop: the rows of `sales` built with one shared product cache, and the sums over them. */
  method CollectRows(sales: seq<Sale>, users: seq<User>, brandMap: map<string, string>,
                     fetch: string -> Option<Product>, cache: ProductCache)
    returns (rows: seq<ReportRow>, daySales: real, stockUsed: int)
    requires cache.Coherent(fetch)
    modifies cache
    ensures cache.Coherent(fetch)
    ensures rows == Rows(sales, users, brandMap, fetch)
    ensures daySales == DayTotal(sales) && stockUsed == StockUsed(sales)
  {
    rows, daySales, stockUsed := [], 0.0, 0;
    var i := 0;
    while i < |sales|
      invariant 0 <= i <= |sales|
      invariant cache.Coherent(fetch)
      invariant rows == Rows(sales[..i], users, brandMap, fetch)
      invariant daySales == DayTotal(sales[..i]) && stockUsed == StockUsed(sales[..i])
    {
      var sale := sales[i];
      daySales := daySales + if sale.total.Some? then sale.total.value else 0.0;
      var saleRows, itemQuantity := CollectSaleRows(sale, users, brandMap, fetch, cache);
      rows := rows + saleRows;
      stockUsed := stockUsed + itemQuantity;
      RowsStep(sales, i, users, brandMap, fetch);
      i := i + 1;
    }
    assert sales[..i] == sales;
  }

  /** generateSalesReport. */
  method GenerateSalesReport(reportDate: string, cashierFilter: string, sales: seq<Sale>, users: seq<User>,
                             brands: seq<Brand>, fetch: string -> Option<Product>) returns (report: Report)
    ensures report.NoDate? <==> reportDate == ""
    ensures report.Report? ==>
      var filtered := FilterSales(sales, reportDate, cashierFilter);
      var active := ActiveSales(filtered);
      var cancelled := CancelledSales(filtered);
      && report.active == Rows(active, users, BrandMap(brands), fetch)
      && report.cancelled == Rows(cancelled, users, BrandMap(brands), fetch)
      && report.totals == (if active == [] then None else Some(Totals(DayTotal(active), StockUsed(active))))
  {
    if reportDate == "" {
      return NoDate;
    }
    var filtered := FilterSales(sales, reportDate, cashierFilter);
    var brandMap := BrandMap(brands);
    var active := ActiveSales(filtered);
    var cancelled := CancelledSales(filtered);
    var cache := new ProductCache();
    var activeRows, daySales, stockUsed := CollectRows(active, users, brandMap, fetch, cache);
    var cancelledRows, _, _ := CollectRows(cancelled, users, brandMap, fetch, cache);
    report := Report(activeRows, cancelledRows, if active == [] then None else Some(Totals(daySales, stockUsed)));
  }

  /** exportSalesReportToExcel: no date, no sheet; else the header and one row per item of the active sales. */
  method ExportSalesReport(reportDate: string, cashierFilter: string, sales: seq<Sale>, users: seq<User>,
                           brands: seq<Brand>, fetch: string -> Option<Product>) returns (sheet: Option<seq<SheetRow>>)
    ensures sheet.None? <==> reportDate == ""
    ensures sheet.Some? ==>
      var active := ActiveSales(FilterSales(sales, reportDate, cashierFilter));
      var rows := Rows(active, users, BrandMap(brands), fetch);
      && |sheet.value| == 1 + |rows|
      && |rows| == ItemCount(active)
      && sheet.value[0] == HeaderRow
      && forall k :: 0 <= k < |rows| ==> sheet.value[k + 1] == DataRow(rows[k])
  {
    if reportDate == "" {
      return None;
    }
    var active := ActiveSales(FilterSales(sales, reportDate, cashierFilter));
    var brandMap := BrandMap(brands);
    var cache := new ProductCache();
    var rows, _, _ := CollectRows(active, users, brandMap, fetch, cache);
    RowsCount(active, users, brandMap, fetch);
    sheet := Some(Sheet(rows));
  }
}
