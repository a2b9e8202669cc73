/**
 * The records the screens pass around. `Product` and `OrderItem` are those of
 * types.ts; `CatalogEntry` and `InventoryItem` are the records of the variant
 * that keys products by EAN as well as by code (Database, Consultation and
 * Inventory screens), where the product record has an `ean` and no price.
 */
module Records {
  import opened JsValues

  datatype Product = Product(codigo: string, descricao: string, estoque: JsNumber, preco: JsNumber)

  datatype OrderItem = OrderItem(
    codigo: string,
    descricao: string,
    quantidade: JsNumber,
    precoOriginal: JsNumber,
    precoSugerido: JsNumber)

  /** The products that have a non-empty code, in their original order. */
  function WithCode(ps: seq<Product>): (r: seq<Product>)
    ensures |r| <= |ps|
    ensures forall p :: p in r <==> p in ps && p.codigo != ""
  {
    if ps == [] then []
    else (if ps[0].codigo != "" then [ps[0]] else []) + WithCode(ps[1..])
  }

  /** A product with a code followed by one without: only the first is kept. */
  lemma WithCodePair(x: Product, y: Product)
    requires x.codigo != "" && y.codigo == ""
    ensures WithCode([x, y]) == [x]
  {
    assert [x, y][1..] == [y];
    assert [y][1..] == [];
  }

  /** A list in which no product has a code filters to nothing. */
  lemma {:induction false} WithCodeOfCodeless(ps: seq<Product>)
    requires forall i :: 0 <= i < |ps| ==> ps[i].codigo == ""
    ensures WithCode(ps) == []
  {
    if ps != [] {
      WithCodeOfCodeless(ps[1..]);
    }
  }

  /** The products the filter drops: those whose code is empty. */
  function WithoutCode(ps: seq<Product>): (r: seq<Product>)
    ensures forall p :: p in r ==> p in ps && p.codigo == ""
  {
    if ps == [] then []
    else (if ps[0].codigo == "" then [ps[0]] else []) + WithoutCode(ps[1..])
  }

  /** Every input product is either kept or dropped: kept + dropped = input. */
  lemma {:induction false} WithCodeCount(ps: seq<Product>)
    ensures |WithCode(ps)| + |WithoutCode(ps)| == |ps|
  {
    if ps != [] {
      WithCodeCount(ps[1..]);
    }
  }

  /** The filter works piece by piece, so the kept products keep their relative order. */
  lemma {:induction false} WithCodeAppend(a: seq<Product>, b: seq<Product>)
    ensures WithCode(a + b) == WithCode(a) + WithCode(b)
  {
    if a == [] {
      assert a + b == b;
    } else {
      assert (a + b)[1..] == a[1..] + b;
      WithCodeAppend(a[1..], b);
    }
  }

  /** Filtering an already filtered catalog changes nothing. */
  lemma {:induction false} WithCodeIdempotent(ps: seq<Product>)
    ensures WithCode(WithCode(ps)) == WithCode(ps)
  {
    if ps != [] {
      WithCodeIdempotent(ps[1..]);
      var head := if ps[0].codigo != "" then [ps[0]] else [];
      WithCodeAppend(head, WithCode(ps[1..]));
    }
  }

  datatype CatalogEntry = CatalogEntry(ean: string, codigo: string, descricao: string)

  datatype InventoryItem = InventoryItem(ean: string, codigo: string, descricao: string, quantidade: JsNumber)
}
