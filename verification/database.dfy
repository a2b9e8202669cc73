/**
 * The data-loading screen of the EAN-keyed variant (components/Database.tsx):
 * a header-less sheet is read by column position into the consult catalog
 * (EAN, code, description) or the inventory list (the same plus a count).
 */
module Database {
  import opened Wrappers
  import opened JsValues
  import opened Text
  import opened Records

  /** Which of the two uploads the file is for. */
  datatype Target = Consult | Invent

  /** The number of columns the first non-empty row must have. */
  function RequiredCols(t: Target): nat
  {
    match t
    case Consult => 3
    case Invent => 4
  }

  datatype LoadError = EmptySheet | BadFormat(requiredCols: nat)

  /** The rows with at least one cell, in sheet order. */
  function NonEmptyRows(rows: seq<CellRow>): (r: seq<CellRow>)
    ensures |r| <= |rows|
    ensures forall row :: row in r <==> row in rows && |row| > 0
    ensures rows != [] && |rows[0]| > 0 ==> r != [] && r[0] == rows[0]
  {
    if rows == [] then []
    else (if |rows[0]| > 0 then [rows[0]] else []) + NonEmptyRows(rows[1..])
  }

  /** The filter works piece by piece, so the remaining rows keep their order. */
  lemma {:induction false} NonEmptyRowsAppend(a: seq<CellRow>, b: seq<CellRow>)
    ensures NonEmptyRows(a + b) == NonEmptyRows(a) + NonEmptyRows(b)
  {
    if a == [] {
      assert a + b == b;
    } else {
      assert (a + b)[1..] == a[1..] + b;
      NonEmptyRowsAppend(a[1..], b);
    }
  }

  /**
   * The checks of `processFile`: a sheet with no rows is refused; so is one
   * whose first non-empty row is shorter than the target needs. A sheet of
   * empty rows only passes, with nothing to map.
   */
  function CheckedRows(rows: seq<CellRow>, t: Target): (r: Result<seq<CellRow>, LoadError>)
    ensures rows == [] <==> r == Failure(EmptySheet)
    ensures r.Success? ==> r.value == NonEmptyRows(rows)
    ensures r.Success? <==> rows != [] && (NonEmptyRows(rows) == [] || |NonEmptyRows(rows)[0]| >= RequiredCols(t))
    ensures r.Failure? && rows != [] ==> r.error == BadFormat(RequiredCols(t))
  {
    if |rows| == 0 then Failure(EmptySheet)
    else
      var valid := NonEmptyRows(rows);
      if |valid| > 0 && |valid[0]| < RequiredCols(t) then Failure(BadFormat(RequiredCols(t)))
      else Success(valid)
  }

  /** The text of column `i`, trimmed; '' when the cell is missing or falsy. */
  function TextAt(js: Numerics, row: CellRow, i: nat): (s: string)
    ensures s == [] || (!IsWhitespace(s[0]) && !IsWhitespace(s[|s| - 1]))
    ensures !Truthy(CellAt(row, i)) ==> s == ""
    ensures CellAt(row, i).Str? ==> s == Trim(CellAt(row, i).text)
    ensures Truthy(CellAt(row, i)) && CellAt(row, i).Num? ==> s == Trim(js.show(CellAt(row, i).number))
    ensures CellAt(row, i) == Bool(true) ==> s == "true"
  {
    Trim(TextOf(js, CellAt(row, i)))
  }

  /** The count of column 3 as a number, with NaN and 0 both giving 0, so never NaN. */
  function CountAt(js: Numerics, row: CellRow): (n: JsNumber)
    ensures n.Finite?
    ensures var m := ToNumber(js, CellAt(row, 3)); m.Finite? ==> n == m
    ensures var m := ToNumber(js, CellAt(row, 3)); m.NaN? ==> n == Finite(0.0)
    ensures |row| > 3 && row[3].Num? ==> n == Finite(row[3].number)
    ensures |row| > 3 && row[3].Str? && js.stringToNumber(row[3].text).Finite? ==> n == js.stringToNumber(row[3].text)
    ensures |row| <= 3 ==> n == Finite(0.0)
  {
    var m := ToNumber(js, CellAt(row, 3));
    if m.Finite? && m.value != 0.0 then m else Finite(0.0)
  }

  /** A consult record: EAN from column 0, code from column 1, description from column 2. */
  function EntryOfRow(js: Numerics, row: CellRow): (e: CatalogEntry)
    ensures e.ean == TextAt(js, row, 0) && e.codigo == TextAt(js, row, 1) && e.descricao == TextAt(js, row, 2)
    ensures |row| > 0 && row[0].Str? ==> e.ean == Trim(row[0].text)
    ensures |row| > 1 && row[1].Str? ==> e.codigo == Trim(row[1].text)
    ensures |row| > 2 && row[2].Str? ==> e.descricao == Trim(row[2].text)
    ensures |row| == 0 ==> e.ean == ""
    ensures |row| <= 1 ==> e.codigo == ""
    ensures |row| <= 2 ==> e.descricao == ""
  {
    assert |row| > 0 ==> CellAt(row, 0) == row[0];
    assert |row| > 1 ==> CellAt(row, 1) == row[1];
    assert |row| > 2 ==> CellAt(row, 2) == row[2];
    CatalogEntry(TextAt(js, row, 0), TextAt(js, row, 1), TextAt(js, row, 2))
  }

  /** An inventory record: the consult columns plus the count from column 3. */
  function ItemOfRow(js: Numerics, row: CellRow): (item: InventoryItem)
    ensures var e := EntryOfRow(js, row); item.ean == e.ean && item.codigo == e.codigo && item.descricao == e.descricao
    ensures item.quantidade == CountAt(js, row) && item.quantidade.Finite?
  {
    var e := EntryOfRow(js, row);
    InventoryItem(e.ean, e.codigo, e.descricao, CountAt(js, row))
  }

  /** The consult upload: one record per non-empty row, header row included, nothing rejected by content. */
  function LoadConsult(js: Numerics, rows: seq<CellRow>): (r: Result<seq<CatalogEntry>, LoadError>)
    ensures r.Failure? <==> CheckedRows(rows, Consult).Failure?
    ensures r.Failure? ==> r.error == CheckedRows(rows, Consult).error
    ensures r.Success? ==> |r.value| == |NonEmptyRows(rows)|
    ensures r.Success? ==> forall i :: 0 <= i < |r.value| ==> r.value[i] == EntryOfRow(js, NonEmptyRows(rows)[i])
  {
    match CheckedRows(rows, Consult)
    case Failure(e) => Failure(e)
    case Success(valid) => Success(seq(|valid|, i requires 0 <= i < |valid| => EntryOfRow(js, valid[i])))
  }

  /** The inventory upload: one item per non-empty row, header row included, every count a number. */
  function LoadInventory(js: Numerics, rows: seq<CellRow>): (r: Result<seq<InventoryItem>, LoadError>)
    ensures r.Failure? <==> CheckedRows(rows, Invent).Failure?
    ensures r.Failure? ==> r.error == CheckedRows(rows, Invent).error
    ensures r.Success? ==> |r.value| == |NonEmptyRows(rows)|
    ensures r.Success? ==> forall i :: 0 <= i < |r.value| ==> r.value[i] == ItemOfRow(js, NonEmptyRows(rows)[i])
    ensures r.Success? ==> forall item :: item in r.value ==> item.quantidade.Finite?
  {
    match CheckedRows(rows, Invent)
    case Failure(e) => Failure(e)
    case Success(valid) => Success(seq(|valid|, i requires 0 <= i < |valid| => ItemOfRow(js, valid[i])))
  }

  /** A sheet whose rows are all empty skips the column check and uploads an empty list. */
  lemma {:induction false} AllEmptyRowsLoadNothing(js: Numerics, rows: seq<CellRow>)
    requires rows != []
    requires forall i :: 0 <= i < |rows| ==> |rows[i]| == 0
    ensures LoadConsult(js, rows) == Success([])
    ensures LoadInventory(js, rows) == Success([])
  {
    NonEmptyRowsOfEmptyRows(rows);
    assert CheckedRows(rows, Consult) == Success([]);
    assert CheckedRows(rows, Invent) == Success([]);
  }

  lemma {:induction false} NonEmptyRowsOfEmptyRows(rows: seq<CellRow>)
    requires forall i :: 0 <= i < |rows| ==> |rows[i]| == 0
    ensures NonEmptyRows(rows) == []
  {
    if rows != [] {
      NonEmptyRowsOfEmptyRows(rows[1..]);
    }
  }

  /** The first row is data, not a header: when it is wide enough it becomes the first record. */
  lemma FirstRowIsMapped(js: Numerics, rows: seq<CellRow>)
    requires rows != [] && |rows[0]| >= 4
    ensures LoadConsult(js, rows).Success? && LoadConsult(js, rows).value[0] == EntryOfRow(js, rows[0])
    ensures LoadInventory(js, rows).Success? && LoadInventory(js, rows).value[0] == ItemOfRow(js, rows[0])
  {
    var valid := NonEmptyRows(rows);
    assert valid != [] && valid[0] == rows[0];
    assert CheckedRows(rows, Consult) == Success(valid);
    assert CheckedRows(rows, Invent) == Success(valid);
  }

  /** What the screen reports after a load. */
  datatype Status = Loaded(target: Target, count: nat) | Failed(target: Target, error: LoadError)

  class DatabasePanel {
    var loading: Option<Target>
    var status: Option<Status>

    constructor ()
      ensures loading == None && status == None
    {
      loading := None;
      status := None;
    }

    /**
     * `processFile` once the file is read: `sheet` is the parsed rows, or None
     * when the sheet library throws. That exception escapes the read callback,
     * outside the handler's try block, so the screen stays loading with no
     * status. Otherwise the result of the load is uploaded or reported.
     */
    method ProcessFile(js: Numerics, t: Target, sheet: Option<seq<CellRow>>)
      returns (consultUpload: Option<seq<CatalogEntry>>, inventoryUpload: Option<seq<InventoryItem>>)
      modifies this
      ensures sheet.None? ==> loading == Some(t) && status == None
      ensures sheet.Some? ==> loading == None
      ensures sheet.None? || t == Invent ==> consultUpload == None
      ensures sheet.None? || t == Consult ==> inventoryUpload == None
      ensures sheet.Some? && t == Consult ==>
        match LoadConsult(js, sheet.value)
        case Success(es) => consultUpload == Some(es) && status == Some(Loaded(t, |es|))
        case Failure(e) => consultUpload == None && status == Some(Failed(t, e))
      ensures sheet.Some? && t == Invent ==>
        match LoadInventory(js, sheet.value)
        case Success(items) => inventoryUpload == Some(items) && status == Some(Loaded(t, |items|))
        case Failure(e) => inventoryUpload == None && status == Some(Failed(t, e))
    {
      loading := Some(t);
      status := None;
      consultUpload, inventoryUpload := None, None;
      if sheet.None? {
        return;
      }
      if t == Consult {
        match LoadConsult(js, sheet.value) {
          case Success(es) =>
            consultUpload := Some(es);
            status := Some(Loaded(t, |es|));
          case Failure(e) =>
            status := Some(Failed(t, e));
        }
      } else {
        match LoadInventory(js, sheet.value) {
          case Success(items) =>
            inventoryUpload := Some(items);
            status := Some(Loaded(t, |items|));
          case Failure(e) =>
            status := Some(Failed(t, e));
        }
      }
      loading := None;
    }
  }
}
