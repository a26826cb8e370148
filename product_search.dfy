// The older sales report kept in src/components/ProductSearch.js. Its rules differ
// from the report page's: the cashier filter and the cashier lookup use strict
// equality on the ids, the brand is the product's own `brand` field, cancelled
// sales are neither separated nor left out of the totals, and the sheet export
// does not ask for a date.

module ProductSearch {
  import opened Js
  import opened Domain
  import opened SalesReport
  import AdminReports

  /** `cashierFilter === "all"` or `sale.cashierId === cashierFilter`; the select's value is text. */
  predicate CashierMatches(sale: Sale, cashierFilter: string)
  {
    cashierFilter == "all" || sale.cashierId == Str(cashierFilter)
  }

  function FilterSales(sales: seq<Sale>, reportDate: string, cashierFilter: string): (r: seq<Sale>)
    ensures forall s :: s in r <==> s in sales && DateMatches(s, reportDate) && CashierMatches(s, cashierFilter)
    ensures |r| <= |sales|
  {
    if sales == [] then []
    else
      var rest := FilterSales(sales[1..], reportDate, cashierFilter);
      if DateMatches(sales[0], reportDate) && CashierMatches(sales[0], cashierFilter) then [sales[0]] + rest else rest
  }

  /** The filters keep the order and the repetitions of the sales list. */
  lemma {:induction false} FilterSalesAppend(a: seq<Sale>, b: seq<Sale>, reportDate: string, cashierFilter: string)
    ensures FilterSales(a + b, reportDate, cashierFilter)
            == FilterSales(a, reportDate, cashierFilter) + FilterSales(b, reportDate, cashierFilter)
  {
    if a == [] {
      assert a + b == b;
    } else {
      assert (a + b)[1..] == a[1..] + b;
      FilterSalesAppend(a[1..], b, reportDate, cashierFilter);
    }
  }

  /** A one-element list is kept exactly when its element passes the test. */
  lemma FilterSalesSingle(x: Sale, reportDate: string, cashierFilter: string)
    ensures FilterSales([x], reportDate, cashierFilter) == if DateMatches(x, reportDate) && CashierMatches(x, cashierFilter) then [x] else []
  {
    assert [x][1..] == [];
  }

  /** A sale whose cashier id is a number is never kept by a cashier filter other than "all". */
  lemma NumericCashierFilteredOut(sales: seq<Sale>, reportDate: string, cashierFilter: string)
    requires cashierFilter != "all"
    ensures forall s :: s in FilterSales(sales, reportDate, cashierFilter) ==> !s.cashierId.Num?
  {
  }

  /** `users.find(u => u.id === cashierId)`, its username, or "Desconocido". */
  function CashierName(users: seq<User>, cashierId: JsId): (name: string)
    ensures (forall i :: 0 <= i < |users| ==> users[i].id != cashierId) ==> name == "Desconocido"
    ensures forall i :: (0 <= i < |users| && users[i].id == cashierId
                         && forall j :: 0 <= j < i ==> users[j].id != cashierId)
                        ==> name == users[i].username
  {
    if users == [] then "Desconocido"
    else if users[0].id == cashierId then users[0].username
    else CashierName(users[1..], cashierId)
  }

  /** Where the report page finds the cashier of a numeric id, this one finds no one. */
  lemma StrictCashierLookupDiffers(n: nat, username: string, password: string, role: string)
    requires username != "Desconocido"
    ensures var users := [User(Str(IntToString(n)), username, password, role)];
      && CashierName(users, Num(n)) == "Desconocido"
      && AdminReports.CashierName(users, Num(n)) == username
  {
    NumberAndItsString(n);
  }

  /** `prod && prod.brand ? prod.brand : "N/A"`. */
  function BrandName(prod: Option<Product>): (name: string)
    ensures name != ""
    ensures name != "N/A" ==> prod.Some? && name == prod.value.brand
    ensures prod.Some? && prod.value.brand != "" ==> name == prod.value.brand
  {
    if prod.Some? && prod.value.brand != "" then prod.value.brand else "N/A"
  }

  function ItemRow(sale: Sale, item: SaleItem, users: seq<User>, fetch: string -> Option<Product>): ReportRow
  {
    ReportRow(Ticket(sale.id), sale.date, CashierName(users, sale.cashierId),
              BrandName(fetch(ToStr(item.productId))), item.productName, item.quantity)
  }

  function SaleRows(sale: Sale, items: seq<SaleItem>, users: seq<User>, fetch: string -> Option<Product>)
    : (rows: seq<ReportRow>)
    ensures |rows| == |items|
    ensures forall j :: 0 <= j < |items| ==> rows[j] == ItemRow(sale, items[j], users, fetch)
  {
    if items == [] then []
    else SaleRows(sale, items[..|items| - 1], users, fetch) + [ItemRow(sale, items[|items| - 1], users, fetch)]
  }

  /** One more item of the sale adds its row and its quantity. */
  lemma SaleRowsStep(sale: Sale, items: seq<SaleItem>, j: nat, users: seq<User>, fetch: string -> Option<Product>)
    requires j < |items|
    ensures SaleRows(sale, items[..j + 1], users, fetch) == SaleRows(sale, items[..j], users, fetch) + [ItemRow(sale, items[j], users, fetch)]
    ensures ItemQuantity(items[..j + 1]) == ItemQuantity(items[..j]) + items[j].quantity
  {
    assert items[..j + 1][..j] == items[..j];
  }

  function Rows(sales: seq<Sale>, users: seq<User>, fetch: string -> Option<Product>): seq<ReportRow>
  {
    if sales == [] then []
    else
      var last := sales[|sales| - 1];
      Rows(sales[..|sales| - 1], users, fetch) + SaleRows(last, last.items, users, fetch)
  }

  lemma {:induction false} RowsCount(sales: seq<Sale>, users: seq<User>, fetch: string -> Option<Product>)
    ensures |Rows(sales, users, fetch)| == ItemCount(sales)
  {
    if sales != [] {
      RowsCount(sales[..|sales| - 1], users, fetch);
    }
  }

  /**
   * The totals here cover every filtered sale: they are the report page's totals
   * over the active sales plus the same sums over the cancelled ones.
   */
  lemma {:induction false} TotalsIncludeCancelled(sales: seq<Sale>)
    ensures DayTotal(sales) == DayTotal(AdminReports.ActiveSales(sales)) + DayTotal(AdminReports.CancelledSales(sales))
    ensures StockUsed(sales) == StockUsed(AdminReports.ActiveSales(sales)) + StockUsed(AdminReports.CancelledSales(sales))
  {
    if sales != [] {
      var s := sales[0];
      var rest := sales[1..];
      TotalsIncludeCancelled(rest);
      assert sales == [s] + rest;
      DayTotalAppend([s], rest);
      StockUsedAppend([s], rest);
      var a := AdminReports.ActiveSales(rest);
      var c := AdminReports.CancelledSales(rest);
      if s.isCancelled {
        assert AdminReports.ActiveSales(sales) == a;
        assert AdminReports.CancelledSales(sales) == [s] + c;
        DayTotalAppend([s], c);
        StockUsedAppend([s], c);
      } else {
        assert AdminReports.ActiveSales(sales) == [s] + a;
        assert AdminReports.CancelledSales(sales) == c;
        DayTotalAppend([s], a);
        StockUsedAppend([s], a);
      }
    }
  }

  /** One more sale of the list adds its rows and its sums. */
  lemma RowsStep(sales: seq<Sale>, i: nat, users: seq<User>, fetch: string -> Option<Product>)
    requires i < |sales|
    ensures Rows(sales[..i + 1], users, fetch) == Rows(sales[..i], users, fetch) + SaleRows(sales[i], sales[i].items, users, fetch)
    ensures DayTotal(sales[..i + 1]) == DayTotal(sales[..i]) + if sales[i].total.Some? then sales[i].total.value else 0.0
    ensures StockUsed(sales[..i + 1]) == StockUsed(sales[..i]) + ItemQuantity(sales[i].items)
  {
    assert sales[..i + 1][..i] == sales[..i];
  }

  datatype Totals = Totals(daySales: real, stockUsed: int)

  /** No date chosen, no sales that day, or the rows and totals of the filtered sales. */
  datatype Report = NoDate | NoSales | Report(rows: seq<ReportRow>, totals: Totals)

  /** The loop over one sale's items, through the report's product cache. */
  method CollectSaleRows(sale: Sale, users: seq<User>, fetch: string -> Option<Product>, cache: ProductCache)
    returns (saleRows: seq<ReportRow>, itemQuantity: int)
    requires cache.Coherent(fetch)
    modifies cache
    ensures cache.Coherent(fetch)
    ensures saleRows == SaleRows(sale, sale.items, users, fetch)
    ensures itemQuantity == ItemQuantity(sale.items)
  {
    var cashierName := CashierName(users, sale.cashierId);
    saleRows, itemQuantity := [], 0;
    var j := 0;
    while j < |sale.items|
      invariant 0 <= j <= |sale.items|
      invariant cache.Coherent(fetch)
      invariant saleRows == SaleRows(sale, sale.items[..j], users, fetch)
      invariant itemQuantity == ItemQuantity(sale.items[..j])
    {
      var item := sale.items[j];
      itemQuantity := itemQuantity + item.quantity;
      var prod := cache.GetProductDetail(item.productId, fetch);
      var row := ReportRow(Ticket(sale.id), sale.date, cashierName, BrandName(prod), item.productName, item.quantity);
      assert row == ItemRow(sale, item, users, fetch);
      saleRows := saleRows + [row];
      SaleRowsStep(sale, sale.items, j, users, fetch);
      j := j + 1;
    }
    assert sale.items[..j] == sale.items;
  }

  /** The loop over the sales. */
  method CollectRows(sales: seq<Sale>, users: seq<User>, fetch: string -> Option<Product>, cache: ProductCache)
    returns (rows: seq<ReportRow>, daySales: real, stockUsed: int)
    requires cache.Coherent(fetch)
    modifies cache
    ensures cache.Coherent(fetch)
    ensures rows == Rows(sales, users, fetch)
    ensures daySales == DayTotal(sales) && stockUsed == StockUsed(sales)
  {
    rows, daySales, stockUsed := [], 0.0, 0;
    var i := 0;
    while i < |sales|
      invariant 0 <= i <= |sales|
      invariant cache.Coherent(fetch)
      invariant rows == Rows(sales[..i], users, fetch)
      invariant daySales == DayTotal(sales[..i]) && stockUsed == StockUsed(sales[..i])
    {
      var sale := sales[i];
      daySales := daySales + if sale.total.Some? then sale.total.value else 0.0;
      var saleRows, itemQuantity := CollectSaleRows(sale, users, fetch, cache);
      rows := rows + saleRows;
      stockUsed := stockUsed + itemQuantity;
      RowsStep(sales, i, users, fetch);
      i := i + 1;
    }
    assert sales[..i] == sales;
  }

  /** generateSalesReport of the older screen. */
  method GenerateSalesReport(reportDate: string, cashierFilter: string, sales: seq<Sale>, users: seq<User>,
                             fetch: string -> Option<Product>) returns (report: Report)
    ensures report.NoDate? <==> reportDate == ""
    ensures report.NoSales? <==> reportDate != "" && FilterSales(sales, reportDate, cashierFilter) == []
    ensures report.Report? ==>
      var filtered := FilterSales(sales, reportDate, cashierFilter);
      && report.rows == Rows(filtered, users, fetch)
      && report.totals == Totals(DayTotal(filtered), StockUsed(filtered))
  {
    if reportDate == "" {
      return NoDate;
    }
    var filtered := FilterSales(sales, reportDate, cashierFilter);
    if filtered == [] {
      return NoSales;
    }
    var cache := new ProductCache();
    var rows, daySales, stockUsed := CollectRows(filtered, users, fetch, cache);
    report := Report(rows, Totals(daySales, stockUsed));
  }

  /** exportSalesReportToExcel of the older screen: no date guard, every filtered sale's items. */
  method ExportSalesReport(reportDate: string, cashierFilter: string, sales: seq<Sale>, users: seq<User>,
                           fetch: string -> Option<Product>) returns (sheet: seq<SheetRow>)
    ensures var rows := Rows(FilterSales(sales, reportDate, cashierFilter), users, fetch);
      && |sheet| == 1 + |rows|
      && |rows| == ItemCount(FilterSales(sales, reportDate, cashierFilter))
      && sheet[0] == HeaderRow
      && forall k :: 0 <= k < |rows| ==> sheet[k + 1] == DataRow(rows[k])
  {
    var filtered := FilterSales(sales, reportDate, cashierFilter);
    var cache := new ProductCache();
    var rows, _, _ := CollectRows(filtered, users, fetch, cache);
    RowsCount(filtered, users, fetch);
    sheet := Sheet(rows);
  }

  /** Without a date the export keeps only the sales whose date is empty. */
  lemma UndatedExport(sales: seq<Sale>, cashierFilter: string)
    ensures forall s :: s in FilterSales(sales, "", cashierFilter) ==> s.date == ""
  {
  }
}
