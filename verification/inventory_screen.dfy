/**
 * The consult-and-import screen of the order app (components/InventoryScreen.tsx):
 * upload a catalog whose header row must name four fixed columns, search a
 * product by code, and add it to the order list in one click.
 */
module InventoryScreen {
  import opened Wrappers
  import opened JsValues
  import opened Text
  import opened Records
  import opened Lookup
  import OrderScreen
  import App

  const RequiredColumns: seq<string> := ["codigo", "descricao", "estoque", "preco"]

  /** The row's header labels, lower-cased, in key order. */
  function LowerKeys(row: KeyedRow): (r: seq<string>)
    ensures |r| == |row|
    ensures forall i :: 0 <= i < |row| ==> r[i] == ToLower(row[i].0)
  {
    if row == [] then [] else [ToLower(row[0].0)] + LowerKeys(row[1..])
  }

  /** The required labels absent from `keys`, in the order of `required`. */
  function Missing(required: seq<string>, keys: seq<string>): (r: seq<string>)
    ensures |r| <= |required|
    ensures forall c :: c in r <==> c in required && c !in keys
    ensures r == [] <==> forall c :: c in required ==> c in keys
  {
    if required == [] then []
    else (if required[0] in keys then [] else [required[0]]) + Missing(required[1..], keys)
  }

  /** The filter works piece by piece, so missing columns are listed in the order of the required list. */
  lemma {:induction false} MissingAppend(a: seq<string>, b: seq<string>, keys: seq<string>)
    ensures Missing(a + b, keys) == Missing(a, keys) + Missing(b, keys)
  {
    if a == [] {
      assert a + b == b;
    } else {
      assert (a + b)[1..] == a[1..] + b;
      MissingAppend(a[1..], b, keys);
    }
  }

  /** The required columns the first row lacks, compared case-insensitively. */
  function MissingColumns(firstRow: KeyedRow): (r: seq<string>)
    ensures forall c :: c in r <==> c in RequiredColumns && c !in LowerKeys(firstRow)
    ensures r == [] <==> forall c :: c in RequiredColumns ==> c in LowerKeys(firstRow)
  {
    Missing(RequiredColumns, LowerKeys(firstRow))
  }

  /**
   * One row read by exact property names: the lower-case name's cell when it
   * is truthy, else the capitalised name's cell, converted with `String` (''
   * when that is falsy too) or with `Number` (0 when that is falsy too).
   */
  function ProductOfRow(js: Numerics, row: KeyedRow): (p: Product)
    ensures Lawful(js) ==> (p.codigo != "" <==> Truthy(Get(row, "codigo")) || Truthy(Get(row, "Codigo")))
    ensures Truthy(Get(row, "codigo")) ==> p.codigo == TextOf(js, Get(row, "codigo"))
    ensures !Truthy(Get(row, "codigo")) ==> p.codigo == TextOf(js, Get(row, "Codigo"))
    ensures Truthy(Get(row, "descricao")) ==> p.descricao == TextOf(js, Get(row, "descricao"))
    ensures !Truthy(Get(row, "descricao")) ==> p.descricao == TextOf(js, Get(row, "Descricao"))
    ensures Truthy(Get(row, "estoque")) ==> p.estoque == NumberOf(js, Get(row, "estoque"))
    ensures !Truthy(Get(row, "estoque")) ==> p.estoque == NumberOf(js, Get(row, "Estoque"))
    ensures Truthy(Get(row, "preco")) ==> p.preco == NumberOf(js, Get(row, "preco"))
    ensures !Truthy(Get(row, "preco")) ==> p.preco == NumberOf(js, Get(row, "Preco"))
  {
    Product(
      TextOf(js, Or(Get(row, "codigo"), Get(row, "Codigo"))),
      TextOf(js, Or(Get(row, "descricao"), Get(row, "Descricao"))),
      NumberOf(js, Or(Get(row, "estoque"), Get(row, "Estoque"))),
      NumberOf(js, Or(Get(row, "preco"), Get(row, "Preco"))))
  }

  datatype UploadError = EmptySheet | MissingRequired(columns: seq<string>)

  /** The mapping step: one product per row, in row order. */
  function ProductsOfRows(js: Numerics, data: seq<KeyedRow>): (r: seq<Product>)
    ensures |r| == |data|
    ensures forall i :: 0 <= i < |data| ==> r[i] == ProductOfRow(js, data[i])
  {
    if data == [] then [] else [ProductOfRow(js, data[0])] + ProductsOfRows(js, data[1..])
  }

  /** The mapped rows that have a code, in row order, and nothing else. */
  function CatalogOfRows(js: Numerics, data: seq<KeyedRow>): (r: seq<Product>)
    ensures |r| <= |data|
    ensures forall p :: p in r <==> p.codigo != "" && exists i :: 0 <= i < |data| && p == ProductOfRow(js, data[i])
  {
    var mapped := ProductsOfRows(js, data);
    assert forall i :: 0 <= i < |data| ==> mapped[i] in mapped;
    assert forall p :: p in mapped ==> exists i :: 0 <= i < |data| && mapped[i] == p;
    WithCode(mapped)
  }

  lemma {:induction false} ProductsOfRowsAppend(js: Numerics, a: seq<KeyedRow>, b: seq<KeyedRow>)
    ensures ProductsOfRows(js, a + b) == ProductsOfRows(js, a) + ProductsOfRows(js, b)
  {
    if a == [] {
      assert a + b == b;
    } else {
      assert (a + b)[1..] == a[1..] + b;
      ProductsOfRowsAppend(js, a[1..], b);
    }
  }

  /** Two blocks of rows give the products of the first block followed by those of the second. */
  lemma CatalogOfRowsAppend(js: Numerics, a: seq<KeyedRow>, b: seq<KeyedRow>)
    ensures CatalogOfRows(js, a + b) == CatalogOfRows(js, a) + CatalogOfRows(js, b)
  {
    ProductsOfRowsAppend(js, a, b);
    WithCodeAppend(ProductsOfRows(js, a), ProductsOfRows(js, b));
  }

  /**
   * The checks and mapping of `handleFileUpload`: an empty sheet and a first
   * row lacking a required column are refused; otherwise every row is mapped
   * and rows without a code are dropped.
   */
  function UploadCatalog(js: Numerics, data: seq<KeyedRow>): (r: Result<seq<Product>, UploadError>)
    ensures data == [] <==> r == Failure(EmptySheet)
    ensures data != [] && MissingColumns(data[0]) != [] ==> r == Failure(MissingRequired(MissingColumns(data[0])))
    ensures r.Success? <==> data != [] && MissingColumns(data[0]) == []
    ensures r.Success? ==> r.value == CatalogOfRows(js, data)
    ensures r.Success? ==> forall p :: p in r.value <==> p.codigo != "" && exists i :: 0 <= i < |data| && p == ProductOfRow(js, data[i])
  {
    if |data| == 0 then Failure(EmptySheet)
    else
      var missing := MissingColumns(data[0]);
      if |missing| > 0 then Failure(MissingRequired(missing))
      else
        Success(CatalogOfRows(js, data))
  }

  /**
   * Rows after a valid first row keep their order in the catalog: the upload
   * of `a + b` is the upload of `a` followed by the coded products of `b`.
   */
  lemma UploadCatalogKeepsOrder(js: Numerics, a: seq<KeyedRow>, b: seq<KeyedRow>)
    requires a != [] && MissingColumns(a[0]) == []
    ensures UploadCatalog(js, a + b) == Success(UploadCatalog(js, a).value + CatalogOfRows(js, b))
  {
    assert (a + b)[0] == a[0];
    CatalogOfRowsAppend(js, a, b);
  }

  /**
   * The header check ignores case but the mapping reads only the exact
   * names `codigo` and `Codigo`: when no row has either of them, a sheet that
   * passes the check still yields an empty catalog.
   */
  lemma CheckPassesButNoCodeIsRead(js: Numerics, data: seq<KeyedRow>)
    requires data != [] && MissingColumns(data[0]) == []
    requires forall i, k :: 0 <= i < |data| && 0 <= k < |data[i]| ==> data[i][k].0 != "codigo" && data[i][k].0 != "Codigo"
    ensures UploadCatalog(js, data) == Success([])
  {
    var mapped := ProductsOfRows(js, data);
    forall i | 0 <= i < |mapped|
      ensures mapped[i].codigo == ""
    {
      CodelessRow(js, data[i]);
    }
    WithCodeOfCodeless(mapped);
    assert CatalogOfRows(js, data) == WithCode(mapped);
  }

  /** A row with neither `codigo` nor `Codigo` maps to a product with an empty code. */
  lemma CodelessRow(js: Numerics, row: KeyedRow)
    requires forall k :: 0 <= k < |row| ==> row[k].0 != "codigo" && row[k].0 != "Codigo"
    ensures ProductOfRow(js, row).codigo == ""
  {
    NoSuchKey(row, "codigo");
    NoSuchKey(row, "Codigo");
  }

  lemma NoSuchKey(row: KeyedRow, key: string)
    requires forall k :: 0 <= k < |row| ==> row[k].0 != key
    ensures Get(row, key) == Blank
  {
  }

  /** A header row in capitals passes the check: `CODIGO` lower-cases to `codigo`. */
  lemma UpperCaseHeadersPassTheCheck()
    ensures MissingColumns([("CODIGO", Blank), ("DESCRICAO", Blank), ("ESTOQUE", Blank), ("PRECO", Blank)]) == []
  {
    var row: KeyedRow := [("CODIGO", Blank), ("DESCRICAO", Blank), ("ESTOQUE", Blank), ("PRECO", Blank)];
    UpperCaseHeadersLowered(row);
    MissingFromItself(RequiredColumns);
  }

  lemma UpperCaseHeadersLowered(row: KeyedRow)
    requires row == [("CODIGO", Blank), ("DESCRICAO", Blank), ("ESTOQUE", Blank), ("PRECO", Blank)]
    ensures LowerKeys(row) == RequiredColumns
  {
    LowerKeysOfFour(row);
    LowerCodigo();
    LowerDescricao();
    LowerEstoque();
    LowerPreco();
  }

  lemma LowerKeysOfFour(row: KeyedRow)
    requires |row| == 4
    ensures LowerKeys(row) == [ToLower(row[0].0), ToLower(row[1].0), ToLower(row[2].0), ToLower(row[3].0)]
  {
  }

  /** Nothing required is missing from the required list itself. */
  lemma MissingFromItself(required: seq<string>)
    ensures Missing(required, required) == []
  {
  }

  lemma LowerCodigo() ensures ToLower("CODIGO") == "codigo" { }
  lemma LowerDescricao() ensures ToLower("DESCRICAO") == "descricao" { }
  lemma LowerEstoque() ensures ToLower("ESTOQUE") == "estoque" { }
  lemma LowerPreco() ensures ToLower("PRECO") == "preco" { }

  /** `quickAdd`'s order item: one unit, at the product's own price. */
  function QuickAddItem(p: Product): (item: OrderItem)
    ensures item.codigo == p.codigo && item.descricao == p.descricao
    ensures item.quantidade == Finite(1.0)
    ensures item.precoOriginal == p.preco && item.precoSugerido == p.preco
  {
    OrderItem(p.codigo, p.descricao, Finite(1.0), p.preco, p.preco)
  }

  /**
   * Quick-add gives the item the order form would give for the same product
   * with quantity '1' and the prefilled price left as it is, as long as the
   * price is a number; for a NaN price the form refuses and quick-add does not.
   */
  lemma QuickAddAgreesWithOrderForm(js: Numerics, p: Product)
    requires Lawful(js)
    requires p.preco.Finite? ==> RoundTrips(js, p.preco.value)
    ensures var formItem := OrderScreen.NewOrderItem(js, Some(p), "1", NumberToString(js, p.preco));
      && (p.preco.Finite? ==> formItem == Success(QuickAddItem(p)))
      && (p.preco.NaN? ==> formItem.Failure?)
  {
    OrderScreen.PrefilledPriceRoundTrip(js, p, "1");
  }

  /** The screen's own state; the catalog and order list are the App session's. */
  class SearchPanel {
    var searchCode: string
    var searchResult: Option<Product>
    var hasSearched: bool

    constructor ()
      ensures searchCode == "" && searchResult == None && !hasSearched
    {
      searchCode := "";
      searchResult := None;
      hasSearched := false;
    }

    /**
     * `handleFileUpload` once the file is read: `sheet` is the parsed rows, or
     * None when the sheet library could not read the file. Only a successful
     * upload replaces the catalog, and the order list never changes.
     */
    method HandleFileUpload(js: Numerics, session: App.Session, sheet: Option<seq<KeyedRow>>)
      modifies session
      ensures sheet.Some? && UploadCatalog(js, sheet.value).Success? ==> session.products == UploadCatalog(js, sheet.value).value
      ensures !(sheet.Some? && UploadCatalog(js, sheet.value).Success?) ==> session.products == old(session.products)
      ensures session.orderList == old(session.orderList)
    {
      if sheet.Some? {
        var r := UploadCatalog(js, sheet.value);
        if r.Success? {
          session.ImportProducts(r.value);
        }
      }
    }

    /** `handleSearch`: a blank query does nothing; otherwise the first code match, or none, is shown. */
    method HandleSearch(products: seq<Product>)
      modifies this
      ensures Trim(old(searchCode)) == "" ==> searchResult == old(searchResult) && hasSearched == old(hasSearched)
      ensures Trim(old(searchCode)) != "" ==> searchResult == FindByCode(products, searchCode) && hasSearched
      ensures searchCode == old(searchCode)
    {
      if Trim(searchCode) == "" {
        return;
      }
      searchResult := FindByCode(products, searchCode);
      hasSearched := true;
    }

    /** `quickAdd`: append the shown product with quantity 1, or do nothing when none is shown. */
    method QuickAdd(session: App.Session)
      modifies session
      ensures session.orderList == if searchResult.Some? then old(session.orderList) + [QuickAddItem(searchResult.value)] else old(session.orderList)
      ensures session.products == old(session.products)
    {
      if searchResult.Some? {
        session.AddToOrder(QuickAddItem(searchResult.value));
      }
    }
  }
}
