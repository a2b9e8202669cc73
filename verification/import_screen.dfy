/**
 * The catalog manager screen (components/ImportScreen.tsx): spreadsheet rows
 * are normalised into products by matching each header against a fixed list
 * of aliases per field, shown as a preview, and only written to the catalog
 * when the user confirms.
 */
module ImportScreen {
  import opened Wrappers
  import opened JsValues
  import opened Text
  import opened Records
  import opened Lookup

  const CodigoAliases: seq<string> := ["codigo", "código", "id", "sku"]
  const DescricaoAliases: seq<string> := ["descricao", "descrição", "nome", "produto"]
  const EstoqueAliases: seq<string> := ["estoque", "quantidade", "qtd", "stock"]
  const PrecoAliases: seq<string> := ["preco", "preço", "valor", "price"]

  /** A header is an alias of the field when its lower-cased label is in the field's list. */
  predicate HeaderIn(aliases: seq<string>, entry: (string, Cell))
  {
    ToLower(entry.0) in aliases
  }

  /**
   * The `findVal` helper: the cell of the first header, in the row's own key
   * order, that is an alias of the field; None (null) when no header is.
   */
  function FindVal(row: KeyedRow, aliases: seq<string>): (r: Option<Cell>)
    ensures r.None? <==> forall i :: 0 <= i < |row| ==> ToLower(row[i].0) !in aliases
    ensures r.Some? ==> exists i :: IsFirstMatch(row, e => HeaderIn(aliases, e), i) && r.value == row[i].1
  {
    match Find(row, e => HeaderIn(aliases, e))
    case None => None
    case Some(e) => Some(e.1)
  }

  /** A text field: the found cell as a string, '' when it is missing or falsy. */
  function FieldText(js: Numerics, v: Option<Cell>): (r: string)
    ensures v.None? ==> r == ""
    ensures v.Some? ==> r == TextOf(js, v.value)
  {
    match v
    case None => ""
    case Some(c) => TextOf(js, c)
  }

  /** A numeric field: the found cell as a number, 0 when it is missing or falsy. */
  function FieldNumber(js: Numerics, v: Option<Cell>): (r: JsNumber)
    ensures v.None? ==> r == Finite(0.0)
    ensures v.Some? ==> r == NumberOf(js, v.value)
  {
    match v
    case None => Finite(0.0)
    case Some(c) => NumberOf(js, c)
  }

  /** The row has a code: some header is a code alias and its cell is truthy. */
  predicate HasCode(row: KeyedRow)
  {
    var v := FindVal(row, CodigoAliases);
    v.Some? && Truthy(v.value)
  }

  /**
   * One row as a product: each field takes the first matching header's
   * cell, text fields default to '' and numeric ones to 0 when there is no
   * such header or its cell is falsy.
   */
  function NormaliseRow(js: Numerics, row: KeyedRow): (p: Product)
    ensures Lawful(js) ==> (p.codigo != "" <==> HasCode(row))
    ensures var v := FindVal(row, CodigoAliases); v.None? || !Truthy(v.value) ==> p.codigo == ""
    ensures var v := FindVal(row, CodigoAliases); v.Some? && v.value.Str? ==> p.codigo == v.value.text
    ensures var v := FindVal(row, CodigoAliases); v.Some? && Truthy(v.value) && v.value.Num? ==> p.codigo == js.show(v.value.number)
    ensures var v := FindVal(row, DescricaoAliases); v.None? || !Truthy(v.value) ==> p.descricao == ""
    ensures var v := FindVal(row, DescricaoAliases); v.Some? && v.value.Str? ==> p.descricao == v.value.text
    ensures var v := FindVal(row, DescricaoAliases); v.Some? && Truthy(v.value) && v.value.Num? ==> p.descricao == js.show(v.value.number)
    ensures var v := FindVal(row, EstoqueAliases); v.None? || !Truthy(v.value) ==> p.estoque == Finite(0.0)
    ensures var v := FindVal(row, EstoqueAliases); v.Some? && v.value.Num? ==> p.estoque == Finite(v.value.number)
    ensures var v := FindVal(row, EstoqueAliases); v.Some? && Truthy(v.value) && v.value.Str? ==> p.estoque == js.stringToNumber(v.value.text)
    ensures var v := FindVal(row, PrecoAliases); v.None? || !Truthy(v.value) ==> p.preco == Finite(0.0)
    ensures var v := FindVal(row, PrecoAliases); v.Some? && v.value.Num? ==> p.preco == Finite(v.value.number)
    ensures var v := FindVal(row, PrecoAliases); v.Some? && Truthy(v.value) && v.value.Str? ==> p.preco == js.stringToNumber(v.value.text)
  {
    var codigo, descricao := FindVal(row, CodigoAliases), FindVal(row, DescricaoAliases);
    var estoque, preco := FindVal(row, EstoqueAliases), FindVal(row, PrecoAliases);
    Product(FieldText(js, codigo), FieldText(js, descricao), FieldNumber(js, estoque), FieldNumber(js, preco))
  }

  /**
   * Every field that finds a header is `String(cell || '')` or
   * `Number(cell || 0)` of that header's cell, whatever kind of cell it is.
   */
  lemma NormaliseRowFields(js: Numerics, row: KeyedRow)
    ensures var p := NormaliseRow(js, row);
      && (var v := FindVal(row, CodigoAliases); v.Some? ==> p.codigo == TextOf(js, v.value))
      && (var v := FindVal(row, DescricaoAliases); v.Some? ==> p.descricao == TextOf(js, v.value))
      && (var v := FindVal(row, EstoqueAliases); v.Some? ==> p.estoque == NumberOf(js, v.value))
      && (var v := FindVal(row, PrecoAliases); v.Some? ==> p.preco == NumberOf(js, v.value))
  {
  }

  /** The mapping step: one product per row, in row order. */
  function NormaliseRows(js: Numerics, rows: seq<KeyedRow>): (r: seq<Product>)
    ensures |r| == |rows|
    ensures forall i :: 0 <= i < |rows| ==> r[i] == NormaliseRow(js, rows[i])
  {
    if rows == [] then [] else [NormaliseRow(js, rows[0])] + NormaliseRows(js, rows[1..])
  }

  /**
   * The `formatted` list of `processFile`: the normalised rows that have a
   * code, in row order, and nothing else.
   */
  function ImportRows(js: Numerics, rows: seq<KeyedRow>): (r: seq<Product>)
    ensures |r| <= |rows|
    ensures forall p :: p in r <==> p.codigo != "" && exists i :: 0 <= i < |rows| && p == NormaliseRow(js, rows[i])
  {
    var mapped := NormaliseRows(js, rows);
    assert forall i :: 0 <= i < |rows| ==> mapped[i] in mapped;
    assert forall p :: p in mapped ==> exists i :: 0 <= i < |rows| && mapped[i] == p;
    WithCode(mapped)
  }

  lemma {:induction false} NormaliseRowsAppend(js: Numerics, a: seq<KeyedRow>, b: seq<KeyedRow>)
    ensures NormaliseRows(js, a + b) == NormaliseRows(js, a) + NormaliseRows(js, b)
  {
    var l, r := NormaliseRows(js, a + b), NormaliseRows(js, a) + NormaliseRows(js, b);
    assert |l| == |r|;
    forall i | 0 <= i < |l| ensures l[i] == r[i] {
      if i < |a| {
        assert (a + b)[i] == a[i];
      } else {
        assert (a + b)[i] == b[i - |a|];
      }
    }
  }

  /** Importing two blocks of rows gives the products of the first block followed by those of the second. */
  lemma ImportRowsAppend(js: Numerics, a: seq<KeyedRow>, b: seq<KeyedRow>)
    ensures ImportRows(js, a + b) == ImportRows(js, a) + ImportRows(js, b)
  {
    NormaliseRowsAppend(js, a, b);
    WithCodeAppend(NormaliseRows(js, a), NormaliseRows(js, b));
  }

  /** The number of rows without a code. */
  function CodelessCount(rows: seq<KeyedRow>): nat
  {
    if rows == [] then 0 else (if HasCode(rows[0]) then 0 else 1) + CodelessCount(rows[1..])
  }

  /** Every row yields exactly one product or is dropped for lacking a code: kept + dropped = rows. */
  lemma {:induction false} ImportRowsCount(js: Numerics, rows: seq<KeyedRow>)
    requires Lawful(js)
    ensures |ImportRows(js, rows)| + CodelessCount(rows) == |rows|
  {
    if rows != [] {
      ImportRowsCount(js, rows[1..]);
      var m := NormaliseRows(js, rows);
      assert m[1..] == NormaliseRows(js, rows[1..]);
      assert m[0].codigo != "" <==> HasCode(rows[0]);
      assert |WithCode(m)| == (if m[0].codigo != "" then 1 else 0) + |WithCode(m[1..])|;
    }
  }

  /**
   * Priority goes by the row's key order, not the alias list's: with `SKU`
   * before `Codigo` in the row, the code comes from `SKU`.
   */
  lemma RowOrderDecidesAlias(js: Numerics)
    ensures NormaliseRow(js, [("SKU", Str("A1")), ("Codigo", Str("B2"))]).codigo == "A1"
  {
    var row: KeyedRow := [("SKU", Str("A1")), ("Codigo", Str("B2"))];
    assert ToLower("SKU") == "sku";
    assert HeaderIn(CodigoAliases, row[0]);
    assert IsFirstMatch(row, e => HeaderIn(CodigoAliases, e), 0);
    FindFirstOfDuplicates(row, e => HeaderIn(CodigoAliases, e), 0);
  }

  /** A complete row, with lower-case canonical headers and numbers held as text. */
  const RiceRow: KeyedRow := [("codigo", Str("100")), ("descricao", Str("Rice")), ("estoque", Str("50")), ("preco", Str("9.9"))]

  /** A row whose code cell is empty. */
  const CodelessRow: KeyedRow := [("codigo", Str("")), ("descricao", Str("bad"))]

  /** `findVal` tries the row's first header, then the rest in order. */
  lemma FindValStep(row: KeyedRow, aliases: seq<string>)
    requires row != []
    ensures FindVal(row, aliases) == if ToLower(row[0].0) in aliases then Some(row[0].1) else FindVal(row[1..], aliases)
  {
    FindStep(row, e => HeaderIn(aliases, e));
  }

  lemma RiceCode() ensures FindVal(RiceRow, CodigoAliases) == Some(Str("100"))
  {
    CodigoIsLower();
    FindValStep(RiceRow, CodigoAliases);
  }

  lemma RiceDescricao() ensures FindVal(RiceRow, DescricaoAliases) == Some(Str("Rice"))
  {
    CodigoIsLower();
    DescricaoIsLower();
    CanonicalHeadersDistinct();
    var tail := RiceRow[1..];
    assert tail[0] == ("descricao", Str("Rice"));
    FindValStep(tail, DescricaoAliases);
    FindValStep(RiceRow, DescricaoAliases);
  }

  /** The canonical header of one field is an alias of no later field. */
  lemma CanonicalHeadersDistinct()
    ensures "codigo" !in DescricaoAliases && "codigo" !in EstoqueAliases && "codigo" !in PrecoAliases
    ensures "descricao" !in EstoqueAliases && "descricao" !in PrecoAliases
    ensures "estoque" !in PrecoAliases
  {
  }

  lemma RiceEstoque() ensures FindVal(RiceRow, EstoqueAliases) == Some(Str("50"))
  {
    CodigoIsLower();
    DescricaoIsLower();
    EstoqueIsLower();
    CanonicalHeadersDistinct();
    var tail := RiceRow[2..];
    assert tail == [("estoque", Str("50")), ("preco", Str("9.9"))];
    FindValStep(tail, EstoqueAliases);
    FindValStep(RiceRow[1..], EstoqueAliases);
    assert RiceRow[1..][1..] == tail;
    FindValStep(RiceRow, EstoqueAliases);
  }

  lemma RicePreco() ensures FindVal(RiceRow, PrecoAliases) == Some(Str("9.9"))
  {
    CodigoIsLower();
    DescricaoIsLower();
    EstoqueIsLower();
    PrecoIsLower();
    CanonicalHeadersDistinct();
    var last := RiceRow[3..];
    assert last == [("preco", Str("9.9"))];
    FindValStep(last, PrecoAliases);
    FindValStep(RiceRow[2..], PrecoAliases);
    assert RiceRow[2..][1..] == last;
    FindValStep(RiceRow[1..], PrecoAliases);
    assert RiceRow[1..][1..] == RiceRow[2..];
    FindValStep(RiceRow, PrecoAliases);
  }

  /** Each canonical header picks its own cell; the numbers are parsed by `Number`. */
  lemma RiceRowNormalised(js: Numerics)
    ensures NormaliseRow(js, RiceRow) == Product("100", "Rice", js.stringToNumber("50"), js.stringToNumber("9.9"))
  {
    RiceCode();
    RiceDescricao();
    RiceEstoque();
    RicePreco();
  }

  /** An empty code cell leaves the product without a code. */
  lemma CodelessRowHasNoCode(js: Numerics)
    ensures NormaliseRow(js, CodelessRow).codigo == ""
  {
    CodigoIsLower();
    AliasOf(CodelessRow, 0, CodigoAliases);
  }

  /** Of these two rows, the preview holds one product, built from the first. */
  lemma TwoRowScenario(js: Numerics)
    ensures ImportRows(js, [RiceRow, CodelessRow])
      == [Product("100", "Rice", js.stringToNumber("50"), js.stringToNumber("9.9"))]
  {
    RiceRowNormalised(js);
    CodelessRowHasNoCode(js);
    ImportPair(js, RiceRow, CodelessRow);
  }

  /** Two rows, the second without a code: only the first one's product is kept. */
  lemma ImportPair(js: Numerics, a: KeyedRow, b: KeyedRow)
    requires NormaliseRow(js, a).codigo != "" && NormaliseRow(js, b).codigo == ""
    ensures ImportRows(js, [a, b]) == [NormaliseRow(js, a)]
  {
    var x, y := NormaliseRow(js, a), NormaliseRow(js, b);
    assert NormaliseRows(js, [a, b]) == [x, y];
    WithCodePair(x, y);
  }

  lemma CodigoIsLower() ensures ToLower("codigo") == "codigo" { }
  lemma DescricaoIsLower() ensures ToLower("descricao") == "descricao" { }
  lemma EstoqueIsLower() ensures ToLower("estoque") == "estoque" { }
  lemma PrecoIsLower() ensures ToLower("preco") == "preco" { }

  /** A header that is its own lower case and that the field's list names. */
  lemma AliasOf(row: KeyedRow, i: nat, aliases: seq<string>)
    requires i < |row| && row[i].0 in aliases && ToLower(row[i].0) == row[i].0
    requires forall j :: 0 <= j < i ==> ToLower(row[j].0) !in aliases
    ensures FindVal(row, aliases) == Some(row[i].1)
  {
    assert IsFirstMatch(row, e => HeaderIn(aliases, e), i);
    FindFirstOfDuplicates(row, e => HeaderIn(aliases, e), i);
  }

  /** The rows shown before confirmation; the catalog itself belongs to the parent screen. */
  class ImportPanel {
    var preview: Option<seq<Product>>

    constructor ()
      ensures preview == None
    {
      preview := None;
    }

    /**
     * `processFile` once the file is read: `sheet` is the parsed rows, or None
     * when the sheet library could not read the file, which leaves the
     * preview as it was. Nothing is sent to the catalog.
     */
    method ProcessFile(js: Numerics, sheet: Option<seq<KeyedRow>>)
      modifies this
      ensures preview == if sheet.Some? then Some(ImportRows(js, sheet.value)) else old(preview)
    {
      if sheet.Some? {
        preview := Some(ImportRows(js, sheet.value));
      }
    }

    /** `confirmImport`: the preview, if any, is what `onUpdateProducts` receives; the preview is then cleared. */
    method ConfirmImport() returns (upload: Option<seq<Product>>)
      modifies this
      ensures upload == old(preview)
      ensures preview == None
    {
      upload := preview;
      if preview.Some? {
        preview := None;
      }
    }

    /** The cancel button: the preview is discarded and nothing is sent. */
    method Cancel()
      modifies this
      ensures preview == None
    {
      preview := None;
    }

    /** The "Zerar" button: once confirmed, the empty catalog is sent; the preview is untouched. */
    method ClearBase(confirmed: bool) returns (upload: Option<seq<Product>>)
      ensures confirmed ==> upload == Some([])
      ensures !confirmed ==> upload == None
    {
      upload := if confirmed then Some([]) else None;
    }
  }
}
