/**
 * The order screen (components/OrderScreen.tsx): search a product by code,
 * validate and add it to the order list, edit quantities and suggested
 * prices inline, and export the list.
 */
module OrderScreen {
  import opened Wrappers
  import opened JsValues
  import opened Records
  import opened Lookup
  import App

  const ErrNotFound := "Produto não encontrado."
  const ErrNoProduct := "Busque um produto válido primeiro."
  const ErrQuantity := "Quantidade deve ser um número positivo."
  const ErrPrice := "Sugestão de preço deve ser um valor numérico."

  /** A number that is neither NaN nor at most zero. */
  predicate IsPositive(n: JsNumber)
  {
    n.Finite? && n.value > 0.0
  }

  /**
   * The decision of `handleAddItem`: no product, a quantity that is not a
   * positive number, or a price that is not a number are refused in that
   * order; otherwise the order item built from the product and the inputs.
   */
  function NewOrderItem(js: Numerics, found: Option<Product>, quantity: string, price: string): (r: Result<OrderItem, string>)
    ensures found.None? ==> r == Failure(ErrNoProduct)
    ensures found.Some? && !IsPositive(js.parseInt(quantity)) ==> r == Failure(ErrQuantity)
    ensures found.Some? && IsPositive(js.parseInt(quantity)) && js.parseFloat(price).NaN? ==> r == Failure(ErrPrice)
    ensures r.Success? <==> found.Some? && IsPositive(js.parseInt(quantity)) && js.parseFloat(price).Finite?
    ensures r.Success? ==>
      && r.value.codigo == found.value.codigo && r.value.descricao == found.value.descricao
      && r.value.precoOriginal == found.value.preco
      && r.value.quantidade == js.parseInt(quantity) && r.value.precoSugerido == js.parseFloat(price)
  {
    if found.None? then Failure(ErrNoProduct)
    else
      var qty := js.parseInt(quantity);
      var priceNum := js.parseFloat(price);
      if !IsPositive(qty) then Failure(ErrQuantity)
      else if priceNum.NaN? then Failure(ErrPrice)
      else
        var p := found.value;
        Success(OrderItem(p.codigo, p.descricao, qty, p.preco, priceNum))
  }

  /** An item as the add form produces it: a positive whole quantity and a numeric suggested price. */
  predicate WellFormed(item: OrderItem)
  {
    && item.quantidade.Finite? && item.quantidade.value > 0.0 && IsInteger(item.quantidade.value)
    && item.precoSugerido.Finite?
  }

  lemma NewOrderItemWellFormed(js: Numerics, found: Option<Product>, quantity: string, price: string)
    requires Lawful(js)
    requires NewOrderItem(js, found, quantity, price).Success?
    ensures WellFormed(NewOrderItem(js, found, quantity, price).value)
  {
  }

  /**
   * After a successful search the price box holds the product's price as
   * text; adding with quantity `q` then yields the product's price as the
   * suggested price, unless that price is NaN, which the form refuses.
   */
  lemma {:induction false} PrefilledPriceRoundTrip(js: Numerics, p: Product, quantity: string)
    requires Lawful(js)
    requires p.preco.Finite? ==> RoundTrips(js, p.preco.value)
    requires IsPositive(js.parseInt(quantity))
    ensures var r := NewOrderItem(js, Some(p), quantity, NumberToString(js, p.preco));
      && (p.preco.Finite? ==> r.Success? && r.value.precoSugerido == p.preco && r.value.precoOriginal == p.preco)
      && (p.preco.NaN? ==> r == Failure(ErrPrice))
  {
    ParseFloatOfToString(js, p.preco);
  }

  /** The two editable columns of an order row. */
  datatype Field = Quantidade | PrecoSugerido

  /** The parse `handleInlineUpdate` applies to the typed text of a field. */
  function ParseField(js: Numerics, field: Field, value: string): JsNumber
  {
    match field
    case Quantidade => js.parseInt(value)
    case PrecoSugerido => js.parseFloat(value)
  }

  function FieldValue(item: OrderItem, field: Field): JsNumber
  {
    match field
    case Quantidade => item.quantidade
    case PrecoSugerido => item.precoSugerido
  }

  /**
   * `handleInlineUpdate`'s copy of the item: only the named field can change;
   * it takes the parsed text, or 0 for the empty text, and otherwise keeps
   * its value.
   */
  function InlineEdit(js: Numerics, item: OrderItem, field: Field, value: string): (r: OrderItem)
    ensures field == Quantidade ==> r == item.(quantidade := r.quantidade)
    ensures field == PrecoSugerido ==> r == item.(precoSugerido := r.precoSugerido)
    ensures ParseField(js, field, value).Finite? ==> FieldValue(r, field) == ParseField(js, field, value)
    ensures ParseField(js, field, value).NaN? && value == "" ==> FieldValue(r, field) == Finite(0.0)
    ensures ParseField(js, field, value).NaN? && value != "" ==> r == item
  {
    var parsed := ParseField(js, field, value);
    var newValue := if parsed.Finite? then parsed else if value == "" then Finite(0.0) else FieldValue(item, field);
    match field
    case Quantidade => item.(quantidade := newValue)
    case PrecoSugerido => item.(precoSugerido := newValue)
  }

  /** Clearing a box while retyping stores 0 in that field. */
  lemma InlineEditEmpty(js: Numerics, item: OrderItem, field: Field)
    requires Lawful(js)
    ensures FieldValue(InlineEdit(js, item, field, ""), field) == Finite(0.0)
  {
  }

  /** Inline edits keep the quantity a whole number and the suggested price a number. */
  lemma InlineEditKeepsNumbers(js: Numerics, item: OrderItem, field: Field, value: string)
    requires Lawful(js)
    requires item.quantidade.Finite? && IsInteger(item.quantidade.value) && item.precoSugerido.Finite?
    ensures var r := InlineEdit(js, item, field, value);
      r.quantidade.Finite? && IsInteger(r.quantidade.value) && r.precoSugerido.Finite?
  {
    assert IsInteger(0.0);
  }

  /**
   * The quantity box's `onBlur`: when the text does not parse to a positive
   * number the item is re-edited with '1'; otherwise nothing is sent.
   */
  function QuantityOnBlur(js: Numerics, item: OrderItem, text: string): (r: Option<OrderItem>)
    ensures r.None? <==> IsPositive(js.parseInt(text))
    ensures r.Some? ==> r.value == item.(quantidade := r.value.quantidade)
    ensures r.Some? && js.parseInt("1").Finite? ==> r.value.quantidade == js.parseInt("1")
    ensures Lawful(js) && r.Some? ==> r.value == item.(quantidade := Finite(1.0))
  {
    var n := js.parseInt(text);
    if (n.Finite? && n.value <= 0.0) || n.NaN? then Some(InlineEdit(js, item, Quantidade, "1")) else None
  }

  /**
   * The suggested-price box's `onBlur`: when the text is not a number the
   * item is re-edited with its original price as text; otherwise nothing is
   * sent. An original price that is itself NaN prints as "NaN", which does
   * not parse, so the suggested price then stays as it was.
   */
  function PriceOnBlur(js: Numerics, item: OrderItem, text: string): (r: Option<OrderItem>)
    ensures r.None? <==> js.parseFloat(text).Finite?
    ensures r.Some? ==> r.value == item.(precoSugerido := r.value.precoSugerido)
    ensures r.Some? ==> var back := js.parseFloat(NumberToString(js, item.precoOriginal));
      r.value.precoSugerido == if back.Finite? then back else if NumberToString(js, item.precoOriginal) == "" then Finite(0.0) else item.precoSugerido
    ensures Lawful(js) && (item.precoOriginal.Finite? ==> RoundTrips(js, item.precoOriginal.value)) && r.Some? ==>
      r.value == item.(precoSugerido := if item.precoOriginal.Finite? then item.precoOriginal else item.precoSugerido)
  {
    if js.parseFloat(text).NaN? then
      Some(InlineEdit(js, item, PrecoSugerido, NumberToString(js, item.precoOriginal)))
    else None
  }

  /** A cell of the exported order sheet. */
  datatype SheetValue = TextValue(text: string) | NumberValue(number: JsNumber)

  const OrderSheetHeaders: seq<string> := ["Código", "Descrição", "Quantidade", "Preço Original", "Sugestão de Preço"]

  /** One row of the `worksheetData` objects: header label and value, in column order. */
  function OrderSheetRow(item: OrderItem): (row: seq<(string, SheetValue)>)
    ensures |row| == |OrderSheetHeaders|
    ensures forall k :: 0 <= k < |row| ==> row[k].0 == OrderSheetHeaders[k]
  {
    [ ("Código", TextValue(item.codigo)),
      ("Descrição", TextValue(item.descricao)),
      ("Quantidade", NumberValue(item.quantidade)),
      ("Preço Original", NumberValue(item.precoOriginal)),
      ("Sugestão de Preço", NumberValue(item.precoSugerido)) ]
  }

  /** `handleExportAndSend`: nothing is exported for an empty list; otherwise one sheet row per item, in list order. */
  function ExportOrder(orderList: seq<OrderItem>): (r: Option<seq<seq<(string, SheetValue)>>>)
    ensures r.None? <==> orderList == []
    ensures r.Some? ==> |r.value| == |orderList|
    ensures r.Some? ==> forall i :: 0 <= i < |orderList| ==> r.value[i] == OrderSheetRow(orderList[i])
  {
    if |orderList| == 0 then None
    else Some(seq(|orderList|, i requires 0 <= i < |orderList| => OrderSheetRow(orderList[i])))
  }

  /**
   * Reading an exported row back: the five labelled columns, text then
   * numbers, give the order item; any other shape gives nothing.
   */
  function OrderItemOfSheetRow(row: seq<(string, SheetValue)>): (r: Option<OrderItem>)
    ensures r.Some? ==> |row| == |OrderSheetHeaders| && row[0].1 == TextValue(r.value.codigo) && row[4].1 == NumberValue(r.value.precoSugerido)
  {
    if |row| == |OrderSheetHeaders|
      && (forall k :: 0 <= k < |row| ==> row[k].0 == OrderSheetHeaders[k])
      && row[0].1.TextValue? && row[1].1.TextValue?
      && row[2].1.NumberValue? && row[3].1.NumberValue? && row[4].1.NumberValue?
    then Some(OrderItem(row[0].1.text, row[1].1.text, row[2].1.number, row[3].1.number, row[4].1.number))
    else None
  }

  /** Every exported row reads back as the order item it came from, in list order. */
  lemma ExportOrderRoundTrip(orderList: seq<OrderItem>)
    requires orderList != []
    ensures var rows := ExportOrder(orderList).value;
      |rows| == |orderList| && forall i :: 0 <= i < |rows| ==> OrderItemOfSheetRow(rows[i]) == Some(orderList[i])
  {
    var rows := ExportOrder(orderList).value;
    forall i | 0 <= i < |rows|
      ensures OrderItemOfSheetRow(rows[i]) == Some(orderList[i])
    {
      SheetRowRoundTrip(orderList[i]);
    }
  }

  lemma SheetRowRoundTrip(item: OrderItem)
    ensures OrderItemOfSheetRow(OrderSheetRow(item)) == Some(item)
  {
  }

  /** The order form's own state; the catalog and order list are the App session's. */
  class OrderForm {
    var searchCode: string
    var foundProduct: Option<Product>
    var quantity: string
    var price: string
    var errorMessage: string

    constructor ()
      ensures searchCode == "" && foundProduct == None && quantity == "1" && price == "" && errorMessage == ""
    {
      searchCode := "";
      foundProduct := None;
      quantity := "1";
      price := "";
      errorMessage := "";
    }

    /** `handleSearch`: select the first product whose code matches and prefill the price, or report a miss. */
    method HandleSearch(js: Numerics, products: seq<Product>)
      modifies this
      ensures foundProduct == FindByCode(products, searchCode)
      ensures foundProduct.Some? ==> price == NumberToString(js, foundProduct.value.preco) && errorMessage == ""
      ensures foundProduct.None? ==> price == old(price) && errorMessage == ErrNotFound
      ensures searchCode == old(searchCode) && quantity == old(quantity)
    {
      errorMessage := "";
      var found := FindByCode(products, searchCode);
      if found.Some? {
        foundProduct := found;
        price := NumberToString(js, found.value.preco);
      } else {
        foundProduct := None;
        errorMessage := ErrNotFound;
      }
    }

    /**
     * `handleAddItem`: a refused add only sets the error message; an accepted
     * one appends the item to the session's order list and resets the form.
     */
    method HandleAddItem(js: Numerics, session: App.Session)
      modifies this, session
      ensures var r := NewOrderItem(js, old(foundProduct), old(quantity), old(price));
        match r
        case Success(item) =>
          && session.orderList == old(session.orderList) + [item]
          && foundProduct == None && searchCode == "" && quantity == "1" && price == "" && errorMessage == ""
        case Failure(message) =>
          && session.orderList == old(session.orderList)
          && errorMessage == message
          && foundProduct == old(foundProduct) && searchCode == old(searchCode)
          && quantity == old(quantity) && price == old(price)
      ensures session.products == old(session.products)
    {
      var r := NewOrderItem(js, foundProduct, quantity, price);
      match r {
        case Failure(message) =>
          errorMessage := message;
        case Success(item) =>
          session.AddToOrder(item);
          foundProduct := None;
          searchCode := "";
          quantity := "1";
          price := "";
          errorMessage := "";
      }
    }

    /** `handleInlineUpdate`: the edited copy of row `index` replaces that row of the order list. */
    method HandleInlineUpdate(js: Numerics, session: App.Session, index: nat, field: Field, value: string)
      requires index < |session.orderList|
      modifies session
      ensures session.orderList == old(session.orderList)[index := InlineEdit(js, old(session.orderList)[index], field, value)]
      ensures session.products == old(session.products)
    {
      var item := session.orderList[index];
      session.UpdateOrderItem(index, InlineEdit(js, item, field, value));
    }

    /** The `onBlur` handlers of row `index`: send the repaired row, if any. */
    method HandleBlur(js: Numerics, session: App.Session, index: nat, field: Field, text: string)
      requires index < |session.orderList|
      modifies session
      ensures var item := old(session.orderList)[index];
        var repair := if field == Quantidade then QuantityOnBlur(js, item, text) else PriceOnBlur(js, item, text);
        session.orderList == if repair.Some? then old(session.orderList)[index := repair.value] else old(session.orderList)
      ensures session.products == old(session.products)
    {
      var item := session.orderList[index];
      var repair := if field == Quantidade then QuantityOnBlur(js, item, text) else PriceOnBlur(js, item, text);
      if repair.Some? {
        session.UpdateOrderItem(index, repair.value);
      }
    }
  }
}
