/**
 * The JavaScript values the screens handle: numbers (which may be NaN),
 * spreadsheet cells, truthiness, and the coercions String(), Number(),
 * parseInt() and parseFloat().
 *
 * The coercions that turn text into numbers and numbers into text are not
 * reimplemented: they are the fields of a `Numerics` value that every
 * operation needing them takes as a parameter, and `Lawful` names the few
 * facts about them that the proofs rely on.
 */
module JsValues {

  /** A JavaScript number: NaN or a finite value. */
  datatype JsNumber = NaN | Finite(value: real)

  /**
   * One spreadsheet cell as the sheet library hands it over: text, a number,
   * a boolean, or undefined (a hole in a positional row).
   */
  datatype Cell = Str(text: string) | Num(number: real) | Bool(flag: bool) | Blank

  /** JavaScript truthiness of a cell: '', 0, false and undefined are falsy. */
  predicate Truthy(c: Cell)
  {
    match c
    case Str(s) => s != ""
    case Num(x) => x != 0.0
    case Bool(b) => b
    case Blank => false
  }

  /** JavaScript's `||` on a cell: the cell when truthy, else the fallback. */
  function Or(c: Cell, fallback: Cell): (r: Cell)
    ensures Truthy(c) ==> r == c
    ensures !Truthy(c) ==> r == fallback
    ensures Truthy(r) <==> Truthy(c) || Truthy(fallback)
  {
    if Truthy(c) then c else fallback
  }

  predicate IsInteger(x: real)
  {
    x == x.Floor as real
  }

  /**
   * The host's numeric coercions: `parseInt(s)`, `parseFloat(s)`, `Number(s)`
   * on a string, and `String(x)` on a finite number.
   */
  datatype Numerics = Numerics(
    parseInt: string -> JsNumber,
    parseFloat: string -> JsNumber,
    stringToNumber: string -> JsNumber,
    show: real -> string)

  /** The behaviour of the JavaScript coercions that the proofs depend on. */
  ghost predicate Lawful(js: Numerics)
  {
    && js.parseInt("") == NaN
    && js.parseFloat("") == NaN
    && js.parseInt("1") == Finite(1.0)
    && js.parseFloat("NaN") == NaN
    && (forall s :: js.parseInt(s).Finite? ==> IsInteger(js.parseInt(s).value))
    && (forall x :: js.show(x) != "")
  }

  /**
   * The printed form of `x` parses back to `x`. JavaScript promises this for
   * every double; here it is a property of one value at a time, since not
   * every real has a finite decimal text of its own.
   */
  predicate RoundTrips(js: Numerics, x: real)
  {
    js.parseFloat(js.show(x)) == Finite(x)
  }

  /** Some choice of coercions meets `Lawful`, so the facts it names are consistent. */
  lemma LawfulIsSatisfiable()
    ensures exists js :: Lawful(js)
  {
    var js := Numerics(
      s => if s == "1" then Finite(1.0) else NaN,
      s => NaN,
      s => NaN,
      x => "0");
    assert IsInteger(1.0);
    assert Lawful(js);
  }

  /** The decimal text of a JavaScript number. */
  function NumberToString(js: Numerics, n: JsNumber): (r: string)
    ensures n.NaN? ==> r == "NaN"
    ensures n.Finite? ==> r == js.show(n.value)
    ensures Lawful(js) ==> r != ""
  {
    match n
    case NaN => "NaN"
    case Finite(x) => js.show(x)
  }

  /** A cell converted to text with `String`. */
  function StringOf(js: Numerics, c: Cell): (r: string)
    ensures c.Str? ==> r == c.text
    ensures c.Num? ==> r == js.show(c.number)
    ensures c.Bool? ==> r == (if c.flag then "true" else "false")
    ensures c.Blank? ==> r == "undefined"
    ensures Lawful(js) && !c.Str? ==> r != ""
  {
    match c
    case Str(s) => s
    case Num(x) => js.show(x)
    case Bool(b) => if b then "true" else "false"
    case Blank => "undefined"
  }

  /** A cell converted with `Number`. */
  function ToNumber(js: Numerics, c: Cell): (r: JsNumber)
    ensures c.Str? ==> r == js.stringToNumber(c.text)
    ensures c.Num? ==> r == Finite(c.number)
    ensures c.Bool? ==> r == Finite(if c.flag then 1.0 else 0.0)
    ensures c.Blank? ==> r == NaN
  {
    match c
    case Str(s) => js.stringToNumber(s)
    case Num(x) => Finite(x)
    case Bool(b) => Finite(if b then 1.0 else 0.0)
    case Blank => NaN
  }

  /** The text of a truthy cell, and '' for every falsy one. */
  function TextOf(js: Numerics, c: Cell): (r: string)
    ensures !Truthy(c) ==> r == ""
    ensures Lawful(js) && Truthy(c) ==> r != ""
    ensures c.Str? ==> r == c.text
    ensures Truthy(c) && c.Num? ==> r == js.show(c.number)
    ensures Truthy(c) && c.Bool? ==> r == "true"
  {
    StringOf(js, Or(c, Str("")))
  }

  /** The number of a truthy cell, and 0 for every falsy one. */
  function NumberOf(js: Numerics, c: Cell): (r: JsNumber)
    ensures !Truthy(c) ==> r == Finite(0.0)
    ensures Truthy(c) ==> r == ToNumber(js, c)
    ensures Truthy(c) && c.Str? ==> r == js.stringToNumber(c.text)
    ensures c.Num? ==> r == Finite(c.number)
    ensures c.Bool? ==> r == Finite(if c.flag then 1.0 else 0.0)
  {
    ToNumber(js, Or(c, Num(0.0)))
  }

  /**
   * A row of `sheet_to_json` with headers: header label and cell, in the
   * order `Object.keys` lists them. Empty cells have no entry.
   */
  type KeyedRow = seq<(string, Cell)>

  /** A row of `sheet_to_json` with `header: 1`: the cells by column position. */
  type CellRow = seq<Cell>

  /** Position `i` holds the first header of the row named exactly `key`. */
  predicate FirstKeyAt(row: KeyedRow, key: string, i: int)
  {
    0 <= i < |row| && row[i].0 == key && forall j :: 0 <= j < i ==> row[j].0 != key
  }

  /** A property lookup: the cell under the first header named exactly `key`, undefined when there is none. */
  function Get(row: KeyedRow, key: string): (c: Cell)
    ensures (forall i :: 0 <= i < |row| ==> row[i].0 != key) ==> c == Blank
    ensures forall i :: FirstKeyAt(row, key, i) ==> c == row[i].1
  {
    if row == [] then Blank
    else if row[0].0 == key then row[0].1
    else
      assert forall i :: FirstKeyAt(row, key, i) ==> i > 0 && FirstKeyAt(row[1..], key, i - 1);
      Get(row[1..], key)
  }

  /** `row[i]`: the cell at column `i`, undefined past the end of the row. */
  function CellAt(row: CellRow, i: nat): (c: Cell)
    ensures i < |row| ==> c == row[i]
    ensures i >= |row| ==> c == Blank
  {
    if i < |row| then row[i] else Blank
  }

  /** Printing a number and parsing the text back gives the number again, NaN included. */
  lemma ParseFloatOfToString(js: Numerics, n: JsNumber)
    requires Lawful(js)
    requires n.Finite? ==> RoundTrips(js, n.value)
    ensures js.parseFloat(NumberToString(js, n)) == n
  {
    match n
    case NaN =>
    case Finite(x) =>
  }
}
