// The product administration page (src/pages/AdminProductsPage.js): the variant
// text the admin types, one `Color|Stock` per line, its parser (used by both the
// create form and the edit dialog) and its printer (the edit dialog's initial
// text), the brand options offered for a category, and the page counter.

module AdminProducts {
  import opened Js
  import opened Domain

  /** PRODUCTS_LIMIT. */
  const PageSize: nat := 10

  // ---------------------------------------------------------------------------
  // Parsing

  /**
   * One line: `const [color, st] = line.split('|')`; the colour is trimmed, and
   * the stock is parseInt of the second part, or of "0" when it is missing or empty.
   */
  function ParseLine(line: string): Variant
  {
    var parts := Split(line, '|');
    var st := if |parts| >= 2 && parts[1] != "" then parts[1] else "0";
    Variant(Trim(parts[0]), ParseInt(st))
  }

  /** The variants of the given lines, in line order. */
  function ParseLines(lines: seq<string>): (r: seq<Variant>)
    ensures |r| == |lines|
    ensures forall i :: 0 <= i < |lines| ==> r[i] == ParseLine(lines[i])
  {
    if lines == [] then [] else ParseLines(lines[..|lines| - 1]) + [ParseLine(lines[|lines| - 1])]
  }

  lemma ParseLinesStep(lines: seq<string>, i: nat)
    requires i < |lines|
    ensures ParseLines(lines[..i + 1]) == ParseLines(lines[..i]) + [ParseLine(lines[i])]
  {
    assert lines[..i + 1][..i] == lines[..i];
  }

  /** The variant list of a text: none when it is blank, else one per `\n`-separated line. */
  function ParseVariants(text: string): seq<Variant>
  {
    if Trim(text) == "" then [] else ParseLines(Split(text, '\n'))
  }

  /** The loop of handleCreateProduct and of EditProductModal.handleSubmit. */
  method ParseVariantText(text: string) returns (variants: seq<Variant>)
    ensures variants == ParseVariants(text)
  {
    variants := [];
    if Trim(text) == "" {
      return;
    }
    var lines := Split(text, '\n');
    var i := 0;
    while i < |lines|
      invariant 0 <= i <= |lines|
      invariant variants == ParseLines(lines[..i])
    {
      var parts := Split(lines[i], '|');
      var st := if |parts| >= 2 && parts[1] != "" then parts[1] else "0";
      variants := variants + [Variant(Trim(parts[0]), ParseInt(st))];
      ParseLinesStep(lines, i);
      i := i + 1;
    }
    assert lines[..i] == lines;
  }

  /** Blank text, whitespace only, gives no variants. */
  lemma BlankTextHasNoVariants(text: string)
    requires forall i :: 0 <= i < |text| ==> IsWhitespace(text[i])
    ensures ParseVariants(text) == []
  {
    TrimEmptyIff(text);
  }

  /** Other text gives exactly one variant per line, in order. */
  lemma OneVariantPerLine(text: string)
    requires exists i :: 0 <= i < |text| && !IsWhitespace(text[i])
    ensures var lines := Split(text, '\n');
      var vs := ParseVariants(text);
      |vs| == |lines| && forall i :: 0 <= i < |lines| ==> vs[i] == ParseLine(lines[i])
  {
    TrimEmptyIff(text);
  }

  lemma ParseIntZero()
    ensures ParseInt("0") == Int(0)
  {
    var s := "0";
    assert TrimStart(s) == s;
    assert SignAndRest(s) == (false, s);
    assert DigitPrefix(s) == s by {
      assert IsDigit(s[0]) && s[1..] == [];
    }
    assert DecimalValue(s) == 0 by {
      assert s[..0] == [];
    }
  }

  /** A line without `|`, or with nothing after it, gets stock 0; the colour is trimmed. */
  lemma LineWithoutStock(color: string, rest: string)
    requires '|' !in color
    requires rest == "" || rest == "|"
    ensures ParseLine(color + rest) == Variant(Trim(color), Int(0))
  {
    var parts := Split(color + rest, '|');
    if rest == "" {
      assert color + rest == color;
      SplitNoSeparator(color, '|');
      assert parts == [color];
    } else {
      assert color + rest == color + ['|'] + "";
      SplitAtFirst(color, '|', "");
      assert parts == [color, ""];
    }
    ParseIntZero();
  }

  // ---------------------------------------------------------------------------
  // Printing

  /** `${v.stock}`. */
  function StockText(x: JsInt): string
  {
    match x
    case Int(n) => IntToString(n)
    case NaN => "NaN"
  }

  function VariantLine(v: Variant): string
  {
    v.color + "|" + StockText(v.stock)
  }

  /** The variantsText initialiser: "" for no variants, else `color|stock` lines joined by `\n`. */
  function SerializeVariants(vs: seq<Variant>): (text: string)
    ensures vs == [] <==> text == ""
  {
    if vs == [] then ""
    else
      var lines := PrintedLines(vs);
      JoinStartsWith(lines, '\n');
      Join(lines, '\n')
  }

  lemma JoinStartsWith(parts: seq<string>, sep: char)
    requires |parts| >= 1
    ensures parts[0] <= Join(parts, sep)
  {
  }

  /** A colour the text format can carry: no separator and no surrounding whitespace. */
  predicate PrintableColor(c: string)
  {
    '|' !in c && '\n' !in c && Trim(c) == c
  }

  predicate NumeralChar(c: char)
  {
    IsDigit(c) || c == '-' || c == 'N' || c == 'a'
  }

  lemma StockTextChars(x: JsInt)
    ensures StockText(x) != ""
    ensures forall i :: 0 <= i < |StockText(x)| ==> NumeralChar(StockText(x)[i])
  {
    match x
    case Int(n) =>
      if n < 0 {
        assert StockText(x) == "-" + NatToDecimal(-n);
      }
    case NaN =>
  }

  lemma StockTextReadsBack(x: JsInt)
    ensures ParseInt(StockText(x)) == x
  {
    match x
    case Int(n) => ParseIntOfString(n);
    case NaN =>
      var s := "NaN";
      assert TrimStart(s) == s;
      assert DigitPrefix(s) == [];
  }

  lemma ParsePrintedLine(v: Variant)
    requires PrintableColor(v.color)
    ensures ParseLine(VariantLine(v)) == v
  {
    var st := StockText(v.stock);
    StockTextChars(v.stock);
    assert '|' !in st;
    var line := VariantLine(v);
    assert line == v.color + ['|'] + st;
    SplitNoSeparator(st, '|');
    SplitAtFirst(v.color, '|', st);
    var parts := Split(line, '|');
    assert parts == [v.color, st];
    StockTextReadsBack(v.stock);
    assert ParseLine(line) == Variant(Trim(parts[0]), ParseInt(parts[1]));
  }

  lemma LineHasNoNewline(v: Variant)
    requires PrintableColor(v.color)
    ensures '\n' !in VariantLine(v)
  {
    StockTextChars(v.stock);
    var st := StockText(v.stock);
    assert '\n' !in st;
    assert VariantLine(v) == v.color + "|" + st;
  }

  /** The lines of a non-empty list; the text is their join. */
  function PrintedLines(vs: seq<Variant>): (lines: seq<string>)
    ensures |lines| == |vs| && forall i :: 0 <= i < |vs| ==> lines[i] == VariantLine(vs[i])
  {
    seq(|vs|, i requires 0 <= i < |vs| => VariantLine(vs[i]))
  }

  lemma PrintedTextNotBlank(vs: seq<Variant>)
    requires vs != []
    ensures Trim(SerializeVariants(vs)) != ""
  {
    var lines := PrintedLines(vs);
    var text := SerializeVariants(vs);
    assert text == Join(lines, '\n');
    JoinStartsWith(lines, '\n');
    var bar := |vs[0].color|;
    assert lines[0][bar] == '|';
    assert text[bar] == '|';
    TrimEmptyIff(text);
  }

  lemma SplitPrinted(vs: seq<Variant>)
    requires vs != []
    requires forall i :: 0 <= i < |vs| ==> PrintableColor(vs[i].color)
    ensures Split(SerializeVariants(vs), '\n') == PrintedLines(vs)
  {
    var lines := PrintedLines(vs);
    forall i | 0 <= i < |lines|
      ensures '\n' !in lines[i]
    {
      LineHasNoNewline(vs[i]);
    }
    SplitJoin(lines, '\n');
  }

  lemma ParsePrintedLines(vs: seq<Variant>)
    requires forall i :: 0 <= i < |vs| ==> PrintableColor(vs[i].color)
    ensures ParseLines(PrintedLines(vs)) == vs
  {
    var parsed := ParseLines(PrintedLines(vs));
    forall i | 0 <= i < |vs|
      ensures parsed[i] == vs[i]
    {
      ParsePrintedLine(vs[i]);
    }
  }

  /**
   * Printing then parsing gives the list back, for colours the format can carry;
   * any stock, NaN included, reads back as itself.
   */
  lemma VariantTextRoundTrip(vs: seq<Variant>)
    requires forall i :: 0 <= i < |vs| ==> PrintableColor(vs[i].color)
    ensures ParseVariants(SerializeVariants(vs)) == vs
  {
    if vs == [] {
      assert Trim("") == "";
    } else {
      PrintedTextNotBlank(vs);
      SplitPrinted(vs);
      ParsePrintedLines(vs);
    }
  }

  // ---------------------------------------------------------------------------
  // Brand options and paging

  /** `brands.filter(b => b.categoryId === categoryId)` (strict equality). */
  function BrandOptions(brands: seq<Brand>, categoryId: JsId): (r: seq<Brand>)
    ensures forall b :: b in r <==> b in brands && b.categoryId == categoryId
    ensures |r| <= |brands|
  {
    if brands == [] then []
    else (if brands[0].categoryId == categoryId then [brands[0]] else []) + BrandOptions(brands[1..], categoryId)
  }

  /** The options keep the order and the repetitions of the brand list. */
  lemma {:induction false} BrandOptionsAppend(a: seq<Brand>, b: seq<Brand>, categoryId: JsId)
    ensures BrandOptions(a + b, categoryId) == BrandOptions(a, categoryId) + BrandOptions(b, categoryId)
  {
    if a == [] {
      assert a + b == b;
    } else {
      assert (a + b)[1..] == a[1..] + b;
      BrandOptionsAppend(a[1..], b, categoryId);
    }
  }

  /** A one-element list is kept exactly when its element passes the test. */
  lemma BrandOptionsSingle(x: Brand, categoryId: JsId)
    ensures BrandOptions([x], categoryId) == if x.categoryId == categoryId then [x] else []
  {
    assert [x][1..] == [];
  }

  /**
   * A select's value is text, so once the admin picks a category the strict filter
   * offers no brand whose categoryId the backend sent as a number.
   */
  lemma {:induction false} NumericCategoryNeverOffered(brands: seq<Brand>, selected: string)
    ensures forall b :: b in BrandOptions(brands, Str(selected)) ==> !b.categoryId.Num?
  {
  }

  class ProductsPage {
    var page: nat
    var products: seq<Product>

    constructor()
      ensures page == 0 && products == []
    {
      page := 0;
      products := [];
    }

    /**
     * loadProducts with the backend's answer for offset page*10: an empty answer
     * past the first page steps back one page; anything else is shown.
     */
    method LoadProducts(fetchPage: nat -> seq<Product>)
      modifies this
      ensures var data := fetchPage(old(page) * PageSize);
        if |data| == 0 && old(page) > 0 then page == old(page) - 1 && products == old(products)
        else page == old(page) && products == data
    {
      var data := fetchPage(page * PageSize);
      if |data| == 0 && page > 0 {
        page := page - 1;
        return;
      }
      products := data;
    }

    /** "Anterior": Math.max(page - 1, 0). */
    method PreviousPage()
      modifies this`page
      ensures page == if old(page) == 0 then 0 else old(page) - 1
    {
      page := if page - 1 > 0 then page - 1 else 0;
    }

    /** "Siguiente". */
    method NextPage()
      modifies this`page
      ensures page == old(page) + 1
    {
      page := page + 1;
    }
  }

  /**
   * handleCreateProduct up to the request: no image file means no request;
   * otherwise the request carries the parsed variants.
   */
  method CreateProductVariants(hasImage: bool, variantsText: string) returns (request: Option<seq<Variant>>)
    ensures request.None? <==> !hasImage
    ensures request.Some? ==> request.value == ParseVariants(variantsText)
  {
    if !hasImage {
      return None;
    }
    var variants := ParseVariantText(variantsText);
    request := Some(variants);
  }

  /**
   * EditProductModal.handleSubmit: the product with the form's fields and the parsed
   * variants; price and stock arrive already parsed.
   */
  method EditedProduct(product: Product, name: string, price: real, stock: int, categoryId: JsId,
                       brandId: JsId, variantsText: string) returns (updated: Product)
    ensures updated == product.(name := name, price := price, stock := stock, categoryId := categoryId,
                                brandId := brandId, variants := ParseVariants(variantsText))
    ensures variantsText == SerializeVariants(product.variants)
            && (forall i :: 0 <= i < |product.variants| ==> PrintableColor(product.variants[i].color))
            ==> updated.variants == product.variants
  {
    if variantsText == SerializeVariants(product.variants)
       && forall i :: 0 <= i < |product.variants| ==> PrintableColor(product.variants[i].color) {
      VariantTextRoundTrip(product.variants);
    }
    var variants := ParseVariantText(variantsText);
    updated := product.(name := name, price := price, stock := stock, categoryId := categoryId,
                        brandId := brandId, variants := variants);
  }
}
