/**
 * The stock-count screen of the EAN-keyed variant (components/Inventory.tsx):
 * scan or type a code or EAN, look it up in the loaded inventory list, enter
 * a count, and export the items counted so far.
 */
module Inventory {
  import opened Wrappers
  import opened JsValues
  import opened Text
  import opened Records
  import opened Lookup

  const ErrNoInventory := "Nenhuma planilha de inventário carregada. Acesse \"Base de Dados\" para importar."
  const ErrNotFound := "Código não encontrado na base de inventário."

  /** The item has a positive count; a NaN count is not positive. */
  predicate IsCounted(item: InventoryItem)
  {
    item.quantidade.Finite? && item.quantidade.value > 0.0
  }

  /** The items with a positive count, in inventory order: the list the table shows and the export writes. */
  function Counted(inventory: seq<InventoryItem>): (r: seq<InventoryItem>)
    ensures |r| <= |inventory|
    ensures forall item :: item in r <==> item in inventory && IsCounted(item)
  {
    if inventory == [] then []
    else (if IsCounted(inventory[0]) then [inventory[0]] else []) + Counted(inventory[1..])
  }

  /** The filter works piece by piece, so counted items keep the inventory's order. */
  lemma {:induction false} CountedAppend(a: seq<InventoryItem>, b: seq<InventoryItem>)
    ensures Counted(a + b) == Counted(a) + Counted(b)
  {
    if a == [] {
      assert a + b == b;
    } else {
      assert (a + b)[1..] == a[1..] + b;
      CountedAppend(a[1..], b);
    }
  }

  const ExportHeader: CellRow := [Str("EAN"), Str("Código"), Str("Descrição"), Str("Quantidade")]

  /** A counted item as a sheet row: EAN, code and description as text, then the count. */
  function ExportRow(item: InventoryItem): (row: CellRow)
    requires IsCounted(item)
    ensures |row| == |ExportHeader|
  {
    [Str(item.ean), Str(item.codigo), Str(item.descricao), Num(item.quantidade.value)]
  }

  /**
   * `exportInventory`'s sheet: nothing when no item is counted; otherwise the
   * header row followed by one row per counted item, in inventory order.
   */
  function ExportInventory(inventory: seq<InventoryItem>): (r: Option<seq<CellRow>>)
    ensures r.None? <==> Counted(inventory) == []
    ensures r.Some? ==> |r.value| == |Counted(inventory)| + 1 && r.value[0] == ExportHeader
    ensures r.Some? ==> forall i :: 0 <= i < |Counted(inventory)| ==> r.value[i + 1] == ExportRow(Counted(inventory)[i])
  {
    var counted := Counted(inventory);
    if |counted| == 0 then None
    else
      assert forall i :: 0 <= i < |counted| ==> counted[i] in counted;
      Some([ExportHeader] + seq(|counted|, i requires 0 <= i < |counted| => ExportRow(counted[i])))
  }

  /** Reading an exported row back: three text cells and a number give the item; any other shape gives nothing. */
  function ItemOfExportRow(row: CellRow): (r: Option<InventoryItem>)
    ensures r.Some? ==> |row| == |ExportHeader| && row[0] == Str(r.value.ean) && row[1] == Str(r.value.codigo)
  {
    if |row| == 4 && row[0].Str? && row[1].Str? && row[2].Str? && row[3].Num?
    then Some(InventoryItem(row[0].text, row[1].text, row[2].text, Finite(row[3].number)))
    else None
  }

  /**
   * Below its header, the export reads back as exactly the counted items, in
   * inventory order, each with a positive count; the header row itself is
   * not an item.
   */
  lemma ExportInventoryRoundTrip(inventory: seq<InventoryItem>)
    requires Counted(inventory) != []
    ensures var rows := ExportInventory(inventory).value;
      && ItemOfExportRow(rows[0]).None?
      && forall i :: 1 <= i < |rows| ==>
           ItemOfExportRow(rows[i]) == Some(Counted(inventory)[i - 1]) && IsCounted(ItemOfExportRow(rows[i]).value)
  {
    var counted := Counted(inventory);
    var rows := ExportInventory(inventory).value;
    forall i | 1 <= i < |rows|
      ensures ItemOfExportRow(rows[i]) == Some(counted[i - 1]) && IsCounted(counted[i - 1])
    {
      assert counted[i - 1] in counted;
      ExportRowRoundTrip(counted[i - 1]);
    }
  }

  lemma ExportRowRoundTrip(item: InventoryItem)
    requires IsCounted(item)
    ensures ItemOfExportRow(ExportRow(item)) == Some(item)
  {
  }

  /** The count form's state; the inventory list belongs to the parent screen. */
  class CountForm {
    var searchCode: string
    var selectedProduct: Option<InventoryItem>
    var quantity: JsNumber
    var error: Option<string>

    /**
     * The search box only ever holds digits, so a selected item is one whose
     * code or EAN is all digits.
     */
    predicate Valid()
      reads this
    {
      && AllDigits(searchCode)
      && (selectedProduct.Some? ==> AllDigits(selectedProduct.value.codigo) || AllDigits(selectedProduct.value.ean))
    }

    constructor ()
      ensures Valid()
      ensures searchCode == "" && selectedProduct == None && quantity == Finite(1.0) && error == None
    {
      searchCode := "";
      selectedProduct := None;
      quantity := Finite(1.0);
      error := None;
    }

    /** The search box's `onChange`: only the digits of what was typed are kept. */
    method OnSearchInput(text: string)
      requires Valid()
      modifies this
      ensures Valid()
      ensures searchCode == DigitsOnly(text)
      ensures selectedProduct == old(selectedProduct) && quantity == old(quantity) && error == old(error)
    {
      searchCode := DigitsOnly(text);
    }

    /** The quantity box's `onChange`: the typed text converted with `Number`. */
    method OnQuantityInput(js: Numerics, text: string)
      requires Valid()
      modifies this
      ensures Valid()
      ensures quantity == js.stringToNumber(text)
      ensures searchCode == old(searchCode) && selectedProduct == old(selectedProduct) && error == old(error)
    {
      quantity := js.stringToNumber(text);
    }

    /**
     * `handleSearch`: with no inventory loaded only an error is set; otherwise
     * the first item whose code or EAN equals the query is selected, or the
     * selection is cleared and an error is set.
     */
    method HandleSearch(inventory: seq<InventoryItem>)
      requires Valid()
      modifies this
      ensures Valid()
      ensures inventory == [] ==> error == Some(ErrNoInventory) && selectedProduct == old(selectedProduct)
      ensures inventory != [] ==> selectedProduct == FindItemByKey(inventory, searchCode)
      ensures inventory != [] ==> error == if selectedProduct.Some? then None else Some(ErrNotFound)
      ensures searchCode == old(searchCode) && quantity == old(quantity)
    {
      error := None;
      if |inventory| == 0 {
        error := Some(ErrNoInventory);
        return;
      }
      var found := FindItemByKey(inventory, searchCode);
      if found.Some? {
        selectedProduct := found;
      } else {
        selectedProduct := None;
        error := Some(ErrNotFound);
      }
    }

    /**
     * `handleAddCount`: with no selection nothing happens; otherwise the
     * selected item with only its count replaced is what `onAdd` receives,
     * and the form is reset for the next scan.
     */
    method HandleAddCount() returns (added: Option<InventoryItem>)
      requires Valid()
      modifies this
      ensures Valid()
      ensures old(selectedProduct).None? ==> added == None
      ensures old(selectedProduct).None? ==>
        searchCode == old(searchCode) && selectedProduct == None && quantity == old(quantity) && error == old(error)
      ensures old(selectedProduct).Some? ==> added == Some(old(selectedProduct).value.(quantidade := old(quantity)))
      ensures old(selectedProduct).Some? ==>
        selectedProduct == None && searchCode == "" && quantity == Finite(1.0) && error == None
    {
      if selectedProduct.None? {
        return None;
      }
      added := Some(selectedProduct.value.(quantidade := quantity));
      selectedProduct := None;
      searchCode := "";
      quantity := Finite(1.0);
      error := None;
    }

    /** `handleFinalize`: once confirmed, `onClear` is requested and the form is reset. */
    method HandleFinalize(confirmed: bool) returns (clearRequested: bool)
      requires Valid()
      modifies this
      ensures Valid()
      ensures clearRequested == confirmed
      ensures confirmed ==> selectedProduct == None && searchCode == "" && quantity == Finite(1.0) && error == None
      ensures !confirmed ==>
        selectedProduct == old(selectedProduct) && searchCode == old(searchCode) && quantity == old(quantity) && error == old(error)
    {
      clearRequested := confirmed;
      if confirmed {
        selectedProduct := None;
        searchCode := "";
        quantity := Finite(1.0);
        error := None;
      }
    }
  }
}
