/**
 * The session state held by the top-level App component: the product
 * catalog and the order list, and the handlers the screens call to change
 * them (App.tsx).
 */
module App {
  import opened Records

  /**
   * The list filtered by position, keeping every element not at `index`, where the elements of `s` sit at
   * positions `offset`, `offset + 1`, ... of the whole list.
   */
  function WithoutPosition<T>(s: seq<T>, index: nat, offset: nat): (r: seq<T>)
    ensures offset <= index < offset + |s| ==> r == s[..index - offset] + s[index - offset + 1..]
    ensures !(offset <= index < offset + |s|) ==> r == s
  {
    if s == [] then []
    else (if offset == index then [] else [s[0]]) + WithoutPosition(s[1..], index, offset + 1)
  }

  /** The list without the entry at position `index`, the others in order. */
  function RemoveAt<T>(s: seq<T>, index: nat): (r: seq<T>)
    ensures index < |s| ==> |r| == |s| - 1
    ensures index < |s| ==> forall j :: 0 <= j < |r| ==> r[j] == (if j < index then s[j] else s[j + 1])
    ensures index >= |s| ==> r == s
  {
    WithoutPosition(s, index, 0)
  }

  /** Removing an entry removes exactly one occurrence of it and nothing else. */
  lemma RemoveAtMultiset<T>(s: seq<T>, index: nat)
    requires index < |s|
    ensures multiset(RemoveAt(s, index)) + multiset{s[index]} == multiset(s)
  {
    assert s == s[..index] + [s[index]] + s[index + 1..];
    assert RemoveAt(s, index) == s[..index] + s[index + 1..];
  }

  class Session {
    var products: seq<Product>
    var orderList: seq<OrderItem>

    /** Both lists start empty. */
    constructor ()
      ensures products == [] && orderList == []
    {
      products := [];
      orderList := [];
    }

    /** `handleImportProducts`: the catalog is replaced wholesale; the order list stays. */
    method ImportProducts(imported: seq<Product>)
      modifies this
      ensures products == imported
      ensures orderList == old(orderList)
    {
      products := imported;
    }

    /** `handleAddToOrder`: the item goes at the end, even if its code is already listed. */
    method AddToOrder(item: OrderItem)
      modifies this
      ensures orderList == old(orderList) + [item]
      ensures products == old(products)
    {
      orderList := orderList + [item];
    }

    /** `removeFromOrder`: the entry at `index` goes, the others keep their order; an index past the end changes nothing. */
    method RemoveFromOrder(index: nat)
      modifies this
      ensures orderList == RemoveAt(old(orderList), index)
      ensures products == old(products)
    {
      orderList := RemoveAt(orderList, index);
    }

    /** `updateOrderItem`: position `index` of a copy of the list is overwritten. */
    method UpdateOrderItem(index: nat, updated: OrderItem)
      requires index < |orderList|
      modifies this
      ensures orderList == old(orderList)[index := updated]
      ensures |orderList| == |old(orderList)| && orderList[index] == updated
      ensures forall j :: 0 <= j < |orderList| && j != index ==> orderList[j] == old(orderList)[j]
      ensures products == old(products)
    {
      var newList := orderList;
      newList := newList[index := updated];
      orderList := newList;
    }

    /** The `onClear` handler: the order list empties; the catalog stays. */
    method ClearOrder()
      modifies this
      ensures orderList == []
      ensures products == old(products)
    {
      orderList := [];
    }
  }
}
