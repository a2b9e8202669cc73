# Inventory and order screens, modelled in Dafny

This project models the logic of a small React front-end for a shop's product
catalog, order requests and stock counts. The model covers four cores:

- **Catalog normalisers.** These turn spreadsheet rows into products:
  - `ImportScreen`: header-alias resolution with '' / 0 defaults, then a drop-empty-code filter.
  - `InventoryScreen`: a strict required-column check, then mapping by exact property names.
  - `Database`: a header-less, positional mapper with trimming and a minimum-column check.
- **Point lookups.** Each is a "first match in list order":
  - a case-insensitive match on a trimmed code (order screen and consult screen);
  - an exact match on code or EAN over a digits-only query (`Consultation`, `Inventory`).
- **The session's order list.** The app's `products` and `orderList` state becomes the class `App.Session`:
  - append, remove by position, replace by position, clear, and wholesale catalog replacement;
  - the order form's validation and item construction;
  - the inline-edit rule and the two repair-on-blur rules.
- **The count list.** This covers the add-count item and the "counted means quantity > 0" filter, plus its export.

JavaScript values are modelled as follows:

- A number is `NaN` or a finite real (`JsNumber`).
- A spreadsheet cell is text, a number, a boolean or undefined (`Cell`).
- Truthiness is explicit: `''`, `0`, `false` and undefined are falsy.
- `parseInt`, `parseFloat`, `Number` on a string, and number-to-text are not reimplemented. They are the fields of a `Numerics` value passed to every operation that needs them. The ghost predicate `Lawful` lists the few facts about them that the proofs use:
  - `parseInt('')` and `parseFloat('')` are NaN, and `parseInt('1')` is 1;
  - `parseFloat('NaN')` is NaN, and `parseInt` only yields whole numbers;
  - printing a number never gives the empty text.

  `JsValues.LawfulIsSatisfiable` exhibits coercions that meet all of these. That printing a finite number and parsing it back with `parseFloat` gives the same number is the predicate `RoundTrips`, stated for one price at a time where a proof needs it.

The spreadsheet library's output is given as a value:

- a sequence of header-keyed rows (label/cell pairs in key order);
- or, for the positional screen, a sequence of cell rows;
- `None` when the library cannot read the file.

State that a screen keeps becomes a class whose methods update it. Where a screen hands data to its parent through a callback:

- The model calls the `App.Session` method that the parent wires to that callback. This applies to the order screen and the consult-and-import screen, see App.tsx:96-110.
- For screens whose parent is not part of this model, the callback's argument is an out-parameter.

The model follows the code in these places:

- **Alias priority.** In ImportScreen.tsx, a field's value comes from the first header in the row's own key order that is any of its aliases. The alias list's order plays no part. See `ImportScreen.RowOrderDecidesAlias`.
- **No error for an all-codeless import.** When every row lacks a code, the import yields an empty preview rather than an error.
- **The positional loader's first row is data.** It is mapped like every other row, header or not.
- **Database.tsx and `ean`.** The component fills records that carry an `ean`, which the shared `Product` type (types.ts:2-7) lacks. That variant is modelled with its own record types, `CatalogEntry` and `InventoryItem`.

## Model

| member | source | states |
|---|---|---|
| Text.ToLower | components/OrderScreen.tsx:26 | lower-casing keeps the length and maps every character through the Latin-1 lower-case mapping |
| Text.ToLowerIdempotent | components/OrderScreen.tsx:26 | lower-casing twice is lower-casing once |
| Text.Trim | components/OrderScreen.tsx:26 | the result is a contiguous slice of the input, all that is cut off is whitespace, and neither end of the result is whitespace |
| Text.TrimOfTrimmed | components/InventoryScreen.tsx:64-65 | trimming a string with no whitespace at its ends returns it unchanged |
| Text.TrimIdempotent | components/InventoryScreen.tsx:64-65 | trimming twice is trimming once |
| Text.TrimEmpty | components/InventoryScreen.tsx:64 | a query trims to '' exactly when it is all whitespace |
| Text.DigitsOnly | components/Inventory.tsx:117 | the filtered query holds only digits, all taken from the input, and a digit string is left as it is |
| Text.DigitsOnlyAppend | components/Consultation.tsx:28 | the digit filter works piecewise: filtering a concatenation concatenates the filtered parts |
| Text.DigitsOnlyIdempotent | components/Consultation.tsx:28 | filtering an already filtered query changes nothing |
| JsValues.Or | components/ImportScreen.tsx:44-47 | `a \|\| b`: a truthy cell is kept, a falsy one replaced by the fallback, and the result is truthy exactly when one of the two is |
| JsValues.StringOf | components/ImportScreen.tsx:44-45 | `String(c)`: a text cell's text, a number's printed form, "true"/"false", "undefined" for a missing cell |
| JsValues.ToNumber | components/Database.tsx:76 | `Number(c)`: `Number(text)` for text, the number itself, 1/0 for booleans, NaN for a missing cell |
| JsValues.CellAt | components/Database.tsx:65-76 | `row[i]`: the cell at column i, undefined past the end of the row |
| JsValues.NumberToString | components/OrderScreen.tsx:29 | `toString()` of a number: "NaN" for NaN, the printed form `show(x)` for a finite x, never empty under lawful coercions |
| JsValues.TextOf | components/ImportScreen.tsx:44-45 | `String(v \|\| '')`: a falsy cell gives '', and with lawful coercions only a falsy cell does; a text cell gives its text, a truthy number cell its printed form, `true` the text "true" |
| JsValues.NumberOf | components/ImportScreen.tsx:46-47 | `Number(v \|\| 0)`: a falsy cell gives 0; a truthy cell gives its `Number` value, which for a text cell is `Number(text)`; number and boolean cells give their numeric value |
| JsValues.Get | components/InventoryScreen.tsx:49 | a property lookup gives the cell of the first header with exactly that name, and undefined when there is none |
| JsValues.ParseFloatOfToString | components/OrderScreen.tsx:29 | NaN prints as "NaN" and parses back to NaN; a finite price parses back to itself given that it round-trips, which is assumed per value |
| Records.WithCode | components/ImportScreen.tsx:49 | the kept products are exactly the inputs with a non-empty code, and there are no more of them than inputs |
| Records.WithCodeCount | components/ImportScreen.tsx:49 | kept plus dropped products make up the whole list |
| Records.WithCodeAppend | components/InventoryScreen.tsx:53 | the code filter preserves order: filtering a concatenation concatenates the filtered parts |
| Records.WithCodeIdempotent | components/ImportScreen.tsx:49 | filtering a filtered list changes nothing |
| Records.WithCodeOfCodeless | components/ImportScreen.tsx:49 | a list in which no product has a code filters to nothing |
| Lookup.FirstIndex | components/ImportScreen.tsx:40 | no position when nothing passes the test, otherwise the first passing position |
| Lookup.Find | components/OrderScreen.tsx:26 | array `find`: nothing exactly when no element passes, otherwise the element at the first passing position |
| Lookup.FindFirstOfDuplicates | components/Inventory.tsx:38 | with several matches, the one found is the one at the first matching position |
| Lookup.FindStep | components/ImportScreen.tsx:40 | `find` takes the head when it passes and otherwise searches the tail |
| Lookup.FindAgrees | components/OrderScreen.tsx:26 | two tests that agree on every element find the same element |
| Lookup.FindUnique | components/Consultation.tsx:20-22 | when exactly one element passes, that element is found |
| Lookup.FindByCode | components/OrderScreen.tsx:26 | the first product whose lower-cased code equals the trimmed, lower-cased query; nothing only when no product matches |
| Lookup.FindByCodeIgnoresCaseAndBlanks | components/InventoryScreen.tsx:65 | two queries equal after trimming and lower-casing find the same product |
| Lookup.FindItemByKey | components/Inventory.tsx:38 | the first inventory item whose code or EAN equals the query exactly; nothing only when none does |
| Lookup.FindEntryByKey | components/Consultation.tsx:20-22 | the first catalog entry whose code or EAN equals the query exactly; nothing only when none does |
| App.RemoveAt | App.tsx:29-32 | for an index in range, one entry fewer and every other entry shifted into place in order; an out-of-range index changes nothing |
| App.WithoutPosition | App.tsx:30 | filtering by position removes exactly the slice element at that position, or nothing when it is out of range |
| App.RemoveAtMultiset | App.tsx:29-32 | removal takes out exactly one occurrence of the removed item and nothing else |
| App.Session.constructor | App.tsx:10-11 | the catalog and the order list start empty |
| App.Session.ImportProducts | App.tsx:19-22 | the catalog becomes exactly the imported list and the order list is unchanged |
| App.Session.AddToOrder | App.tsx:24-27 | the item is appended at the end with no merging of equal codes, and the catalog is unchanged |
| App.Session.RemoveFromOrder | App.tsx:29-32 | the order list loses the entry at the index, as `RemoveAt` states, and the catalog is unchanged |
| App.Session.UpdateOrderItem | App.tsx:34-40 | only the given position changes, the length is kept, and the catalog is unchanged |
| App.Session.ClearOrder | App.tsx:109 | the order list becomes empty and the catalog is unchanged |
| OrderScreen.NewOrderItem | components/OrderScreen.tsx:36-61 | the add is refused for no product, then for a NaN or non-positive quantity, then for a NaN price, each with its message; it succeeds exactly otherwise, with code, description and original price from the product and the parsed quantity and price |
| OrderScreen.NewOrderItemWellFormed | components/OrderScreen.tsx:42-53 | every accepted item has a positive whole quantity and a numeric suggested price |
| OrderScreen.PrefilledPriceRoundTrip | components/OrderScreen.tsx:28-61 | adding right after a search, price box untouched, suggests the product's own price when it round-trips; a NaN catalog price is refused |
| OrderScreen.InlineEdit | components/OrderScreen.tsx:116-131 | only the named field can change; a parsed value is stored, the empty text stores 0, any other unparsable text leaves the item as it was |
| OrderScreen.InlineEditEmpty | components/OrderScreen.tsx:123-127 | clearing a box stores 0 in that field |
| OrderScreen.InlineEditKeepsNumbers | components/OrderScreen.tsx:120-128 | inline edits keep the quantity a whole number and the suggested price a number |
| OrderScreen.QuantityOnBlur | components/OrderScreen.tsx:266-270 | a repair is sent exactly when the text is not a positive number; it changes only the quantity, to `parseInt('1')`, which is 1 under lawful coercions |
| OrderScreen.PriceOnBlur | components/OrderScreen.tsx:285-289 | a repair is sent exactly when the text is not a number; it changes only the suggested price, to the `parseFloat` of the printed original price; so a round-tripping original price is restored and a NaN one leaves the suggested price as it was |
| OrderScreen.OrderSheetRow | components/OrderScreen.tsx:78-84 | an exported row has the five fixed column labels in order |
| OrderScreen.ExportOrder | components/OrderScreen.tsx:71-89 | nothing is exported exactly when the list is empty; otherwise one row per item, in list order |
| OrderScreen.OrderItemOfSheetRow | components/OrderScreen.tsx:78-84 | a row reads back only when it has the exported shape, and then the code and suggested-price columns are the item's |
| OrderScreen.ExportOrderRoundTrip | components/OrderScreen.tsx:78-84 | every exported row reads back as the order item it came from |
| OrderScreen.OrderForm.constructor | components/OrderScreen.tsx:16-20 | empty search, no product, quantity '1', empty price and no error |
| OrderScreen.OrderForm.HandleSearch | components/OrderScreen.tsx:24-34 | the found product is the first code match; a hit prefills the price and clears the error, a miss clears the selection and sets the error |
| OrderScreen.OrderForm.HandleAddItem | components/OrderScreen.tsx:36-69 | a refused add only sets the message and leaves the order list as it was; an accepted one appends the new item and resets the form |
| OrderScreen.OrderForm.HandleInlineUpdate | components/OrderScreen.tsx:116-131 | the edited copy of row `index` replaces that row and nothing else |
| OrderScreen.OrderForm.HandleBlur | components/OrderScreen.tsx:266-289 | the repaired row, if the blur rule produces one, replaces row `index`; otherwise the list is unchanged |
| ImportScreen.FindVal | components/ImportScreen.tsx:39-42 | no value exactly when no lower-cased header is an alias; otherwise the cell of the first such header in row-key order |
| ImportScreen.FindValStep | components/ImportScreen.tsx:40 | the lookup tries the first header, then the rest of the row |
| ImportScreen.AliasOf | components/ImportScreen.tsx:39-42 | a lower-case alias header with no alias header before it supplies the field's cell |
| ImportScreen.FieldText | components/ImportScreen.tsx:44-45 | a text field is '' when no header matches (`null \|\| ''`), else `TextOf` of the found cell |
| ImportScreen.FieldNumber | components/ImportScreen.tsx:46-47 | a numeric field is 0 when no header matches (`null \|\| 0`), else `NumberOf` of the found cell |
| ImportScreen.NormaliseRow | components/ImportScreen.tsx:43-48 | with lawful coercions the code is non-empty exactly when a code alias has a truthy cell; text fields are '' when missing or falsy, a text cell's text, or a number cell's printed form; numeric fields are 0 when missing or falsy, a number cell's number, or `Number(text)` of a text cell |
| ImportScreen.NormaliseRowFields | components/ImportScreen.tsx:44-47 | every field that finds a header is `String(cell \|\| '')` (`TextOf`) or `Number(cell \|\| 0)` (`NumberOf`) of that cell, for every kind of cell, a `true` cell included |
| ImportScreen.NormaliseRows | components/ImportScreen.tsx:38-48 | one product per row, the i-th from the i-th row |
| ImportScreen.ImportRows | components/ImportScreen.tsx:38-49 | at most one product per row; a product is in the preview exactly when it has a code and is the normalised form of some row |
| ImportScreen.NormaliseRowsAppend | components/ImportScreen.tsx:38 | mapping is piecewise over a concatenation of row blocks |
| ImportScreen.ImportRowsAppend | components/ImportScreen.tsx:38-49 | the import keeps row order: importing two blocks concatenates their results |
| ImportScreen.ImportRowsCount | components/ImportScreen.tsx:38-49 | kept products plus rows without a code equal the number of rows |
| ImportScreen.RowOrderDecidesAlias | components/ImportScreen.tsx:40 | with `SKU` before `Codigo` in the row, the code comes from `SKU` |
| ImportScreen.RiceRowNormalised | components/ImportScreen.tsx:43-48 | a row with the canonical headers yields its own code and description and the `Number` values of its stock and price texts |
| ImportScreen.CodelessRowHasNoCode | components/ImportScreen.tsx:44 | an empty code cell yields an empty code |
| ImportScreen.ImportPair | components/ImportScreen.tsx:49 | of a row with a code and a row without, only the first one's product is kept |
| ImportScreen.TwoRowScenario | components/ImportScreen.tsx:38-49 | the two example rows import as the single product of the first |
| ImportScreen.ImportPanel.constructor | components/ImportScreen.tsx:25 | no preview at first |
| ImportScreen.ImportPanel.ProcessFile | components/ImportScreen.tsx:28-57 | a readable sheet sets the preview to its imported rows; an unreadable one leaves the preview |
| ImportScreen.ImportPanel.ConfirmImport | components/ImportScreen.tsx:81-86 | the catalog receives exactly the preview, if any, and the preview is cleared |
| ImportScreen.ImportPanel.Cancel | components/ImportScreen.tsx:162-163 | the preview is discarded and nothing is sent |
| ImportScreen.ImportPanel.ClearBase | components/ImportScreen.tsx:282 | once confirmed, the catalog receives the empty list; otherwise nothing is sent |
| InventoryScreen.LowerKeys | components/InventoryScreen.tsx:39 | one lower-cased label per header, in key order |
| InventoryScreen.Missing | components/InventoryScreen.tsx:41 | exactly the required labels absent from the keys; empty exactly when all are present |
| InventoryScreen.MissingAppend | components/InventoryScreen.tsx:41 | missing labels are listed in the order of the required list |
| InventoryScreen.MissingColumns | components/InventoryScreen.tsx:39-41 | exactly those of codigo, descricao, estoque, preco absent from the first row's lower-cased labels |
| InventoryScreen.ProductOfRow | components/InventoryScreen.tsx:48-52 | each field takes the lower-case name's cell when truthy, else the capitalised name's, through `String(… \|\| '')` or `Number(… \|\| 0)`; with lawful coercions the code is non-empty exactly when `codigo` or `Codigo` holds a truthy cell |
| InventoryScreen.ProductsOfRows | components/InventoryScreen.tsx:48-52 | one product per row, the i-th from the i-th row |
| InventoryScreen.CatalogOfRows | components/InventoryScreen.tsx:48-53 | at most one product per row; a product is kept exactly when it has a code and is the product of some row |
| InventoryScreen.ProductsOfRowsAppend | components/InventoryScreen.tsx:48 | mapping is piecewise over a concatenation of row blocks |
| InventoryScreen.CatalogOfRowsAppend | components/InventoryScreen.tsx:48-53 | the mapping and code filter keep row order: two blocks give their catalogs concatenated |
| InventoryScreen.UploadCatalogKeepsOrder | components/InventoryScreen.tsx:33-53 | rows after a valid first row keep their order: the upload of `a + b` is the upload of `a` followed by the coded products of `b` |
| InventoryScreen.UploadCatalog | components/InventoryScreen.tsx:33-53 | an empty sheet and a first row lacking a column are refused, naming the missing ones; otherwise a product is in the catalog exactly when it has a code and is the product of some row, in row order (`CatalogOfRows`) |
| InventoryScreen.CheckPassesButNoCodeIsRead | components/InventoryScreen.tsx:39-53 | the check ignores case but the mapping does not: with no `codigo`/`Codigo` label, a sheet that passes imports nothing |
| InventoryScreen.UpperCaseHeadersPassTheCheck | components/InventoryScreen.tsx:39-46 | a capitalised header row passes the column check |
| InventoryScreen.QuickAddItem | components/InventoryScreen.tsx:72-78 | one unit, at the product's own price as both original and suggested price |
| InventoryScreen.QuickAddAgreesWithOrderForm | components/InventoryScreen.tsx:70-80 | quick-add gives the item the order form gives for quantity '1' and the prefilled price, as long as the price is a number that round-trips |
| InventoryScreen.SearchPanel.constructor | components/InventoryScreen.tsx:14-16 | empty query, no result, no search yet |
| InventoryScreen.SearchPanel.HandleFileUpload | components/InventoryScreen.tsx:20-61 | only a successful upload replaces the catalog, with exactly the upload's products; the order list never changes |
| InventoryScreen.SearchPanel.HandleSearch | components/InventoryScreen.tsx:63-68 | a blank query changes nothing; otherwise the first code match or none is shown and the search is marked done |
| InventoryScreen.SearchPanel.QuickAdd | components/InventoryScreen.tsx:70-80 | with a result, its quick-add item is appended; without one, nothing changes |
| Database.NonEmptyRows | components/Database.tsx:50 | exactly the rows with at least one cell, and a non-empty first row stays first |
| Database.NonEmptyRowsAppend | components/Database.tsx:50 | dropping empty rows keeps the order of the others |
| Database.CheckedRows | components/Database.tsx:44-61 | no rows is an empty-sheet error; a short first non-empty row is a format error naming the column count; otherwise the non-empty rows |
| Database.TextAt | components/Database.tsx:65-67 | a trimmed text: '' for a missing or falsy cell, the trimmed text of a text cell, the trimmed printed form of a truthy number cell, "true" for `true` |
| Database.CountAt | components/Database.tsx:76 | always a number: the cell's `Number` value when that is a number (0 included), 0 when it is NaN; so a number cell gives its number, a text cell `Number(text)` when that is a number, and a missing cell 0 |
| Database.EntryOfRow | components/Database.tsx:64-68 | EAN from column 0, code from column 1, description from column 2, each `TextAt` of its column (the trimmed `String(cell \|\| '')`, so a truthy number cell gives its trimmed printed form and a falsy or missing cell '') |
| Database.ItemOfRow | components/Database.tsx:72-77 | the same three columns as a consult record, plus the count of column 3, which is always a number |
| Database.LoadConsult | components/Database.tsx:63-70 | refused exactly when the checks refuse; otherwise one record per non-empty row, by column position |
| Database.LoadInventory | components/Database.tsx:71-79 | refused exactly when the checks refuse; otherwise one item per non-empty row, every count a number |
| Database.AllEmptyRowsLoadNothing | components/Database.tsx:50-53 | a sheet of empty rows skips the column check and uploads the empty list |
| Database.FirstRowIsMapped | components/Database.tsx:63-79 | a wide enough first row becomes the first record, with no header skipped |
| Database.DatabasePanel.constructor | components/Database.tsx:16-17 | not loading, no status |
| Database.DatabasePanel.ProcessFile | components/Database.tsx:31-88 | a successful load uploads exactly its records and reports their count; a refused one uploads nothing and reports the error; an unreadable file leaves the screen loading |
| Inventory.Counted | components/Inventory.tsx:73 | exactly the items with a positive count, no more than the inventory holds |
| Inventory.CountedAppend | components/Inventory.tsx:97 | counted items keep the inventory's order |
| Inventory.ExportRow | components/Inventory.tsx:76 | an export row has one cell per header column |
| Inventory.ExportInventory | components/Inventory.tsx:72-77 | nothing exactly when no item is counted; otherwise the fixed header followed by one row per counted item, in order |
| Inventory.ItemOfExportRow | components/Inventory.tsx:76 | a row reads back only when it has the exported shape, with its EAN and code columns |
| Inventory.ExportInventoryRoundTrip | components/Inventory.tsx:72-77 | below the header, the export reads back as exactly the counted items in order, each counted; the header is not an item |
| Inventory.CountForm.constructor | components/Inventory.tsx:15-18 | empty query, no selection, quantity 1, no error; `Valid()` holds |
| Inventory.CountForm.OnSearchInput | components/Inventory.tsx:117 | the query becomes the digits of the typed text, so `Valid()` (a digits-only query) is kept |
| Inventory.CountForm.OnQuantityInput | components/Inventory.tsx:157 | the quantity becomes the `Number` value of the typed text |
| Inventory.CountForm.HandleSearch | components/Inventory.tsx:28-49 | an empty inventory sets an error and keeps the selection; otherwise the first code-or-EAN match is selected, or the selection is cleared with an error; `Valid()` is kept, so a selected item has an all-digit code or EAN |
| Inventory.CountForm.HandleAddCount | components/Inventory.tsx:51-70 | with no selection nothing is added; otherwise the selected item with only its count replaced is added and the form resets |
| Inventory.CountForm.HandleFinalize | components/Inventory.tsx:86-95 | once confirmed, clearing is requested and the form resets; otherwise nothing changes |
| Consultation.NonNumericKeysUnreachable | components/Consultation.tsx:20-28 | a query typed through the digit filter never finds an entry whose code and EAN both hold a non-digit |
| Consultation.ConsultPanel.constructor | components/Consultation.tsx:11-13 | empty query, no result, not searched |
| Consultation.ConsultPanel.HandleSearch | components/Consultation.tsx:15-25 | an empty query changes nothing; otherwise the first code-or-EAN match or none, and `searched` is set; `Valid()` is kept, so a shown entry has an all-digit code or EAN |
| Consultation.ConsultPanel.HandleInputChange | components/Consultation.tsx:27-31 | the query becomes the digits of the typed text and `searched` is reset |

## Left out

- The spreadsheet library (reading, `sheet_to_json`, `json_to_sheet`, `aoa_to_sheet`, writing files) is a foreign library. Its output is a parameter, and the files it writes are modelled only as the rows handed to it.
- File reading, drag-and-drop state, timers, focus and select calls, `alert`/`confirm`, `window.open` and the Gmail compose link are browser I/O. A confirmation dialog's answer is a `bool` parameter.
- The e-mail body and `toFixed(2)` price formatting are floating-point text formatting.
- The numeric coercions are abstract (see `Lawful`). Infinity, negative zero and double-precision rounding are not modelled: a number is NaN or an exact real.
- Lower-casing covers ASCII and Latin-1 capitals only, not the rest of Unicode's case mapping.
- components/Login.tsx, components/LoginScreen.tsx and components/Header.tsx hold a credential table, a delay and navigation visibility. They are not part of this model.
- Google Drive sync and the drive-link settings in components/ImportScreen.tsx are network code whose implementation is not part of this model.
- The count list's own storage is not modelled: the parent of components/Inventory.tsx owns it, and that parent is not part of this model. This includes any merging of repeated counts and any clearing on finalise.
- Screen routing, JSX and styling in App.tsx are not modelled. The notification pop-ups that the App handlers show are UI only.
- App.Session.UpdateOrderItem: requires `index < |orderList|`. An index past the end would make JavaScript grow a sparse list, which is not modelled.
- OrderScreen.OrderForm.HandleInlineUpdate: requires `index < |orderList|`, for the same reason. The screen only ever edits rows it displays.
- OrderScreen.OrderForm.HandleBlur: requires `index < |orderList|`, for the same reason.
- Database.DatabasePanel.ProcessFile: the `catch` branch of the source is not modelled. Only file-reader setup can throw inside it, and that setup is browser I/O.
- Consultation.NonNumericKeysUnreachable: states the consequence for a single lookup; the screen-level form is `ConsultPanel.Valid()`, which every `ConsultPanel` method keeps (and likewise `CountForm.Valid()`).
- JsValues.ParseFloatOfToString: for a finite number the round trip is assumed per value (its `RoundTrips` premise), since the model's numbers are exact reals and no printing function can round-trip every real; only the NaN half ("NaN" parses back to NaN) is derived.
- OrderScreen.PrefilledPriceRoundTrip: assumes `RoundTrips` for the product's price. JavaScript guarantees the round trip for every double, but the model's numbers are exact reals, and no printing function can round-trip every real.
- InventoryScreen.QuickAddAgreesWithOrderForm: assumes `RoundTrips` for the product's price, for the same reason.
- OrderScreen.PriceOnBlur: the restored price equals the original price only when the original price round-trips, for the same reason; for any coercions the repair is stated as the `parseFloat` of the printed original price.
