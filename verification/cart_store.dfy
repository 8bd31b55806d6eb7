/**
 * The Pinia store `cart` of src/store/cart.ts as a class: its state is the
 * item list, and every mutation ends by writing that list through to the
 * durable slot. Each method is proved against the function of module
 * CartModel that says what the list becomes, and keeps the line invariants.
 */
module CartStore {
  import opened Wrappers
  import opened Types
  import opened CartModel
  import CartProperties

  /**
   * The Pinia store `cart`. `items` is its state; `stored` is the durable slot
   * under the key 'cart', None while nothing has been written there.
   */
  class Cart {
    var items: seq<CartItem>
    var stored: Option<seq<CartItem>>

    /**
     * The initial state: the snapshot read from the slot, or the empty list
     * when the slot is absent.
     */
    constructor (saved: Option<seq<CartItem>>)
      ensures items == saved.GetOr([])
      ensures stored == saved
    {
      items := saved.GetOr([]);
      stored := saved;
    }

    /** `persist()`: write the current items through to the slot. */
    method Persist()
      modifies this`stored
      ensures stored == Some(items)
    {
      stored := Some(items);
    }

    method Add(product: Product, size: Option<SizeOption>)
      modifies this
      ensures items == Added(old(items), product, size)
      ensures stored == Some(items)
      ensures AllWellFormed(old(items)) ==> AllWellFormed(items)
      ensures UniqueKeys(old(items)) ==> UniqueKeys(items)
      ensures Count(items) == Count(old(items)) + 1
    {
      ghost var before := items;
      var unitPrice := UnitPrice(product, size);
      var key := MergeKey(product.id, LabelOf(size));
      var existing := FindByKey(items, key);
      match existing {
        case Some(k) =>
          var item := items[k];
          var quantity := item.quantity + 1;
          items := items[k := item.(quantity := quantity, subtotal := quantity * item.unitPrice)];
          assert items == before[k := Incremented(before[k])];
        case None =>
          items := items + [CartItem(product.id, product.name, product.imageUrl, unitPrice, LabelOf(size), 1, unitPrice)];
          assert items == before + [NewItem(product, size)];
      }
      assert items == Added(before, product, size);
      CartProperties.AddKeepsLineInvariants(before, product, size);
      CartProperties.AddRaisesCount(before, product, size);
      Persist();
    }

    /** A missing line returns early, before `persist()`: the slot is not written then. */
    method UpdateQuantity(index: int, quantity: int)
      modifies this
      ensures items == QuantityUpdated(old(items), index, quantity)
      ensures stored == if HasIndex(old(items), index) then Some(items) else old(stored)
      ensures AllWellFormed(old(items)) ==> AllWellFormed(items)
      ensures UniqueKeys(old(items)) ==> UniqueKeys(items)
    {
      CartProperties.QuantityUpdateKeepsLineInvariants(items, index, quantity);
      if !HasIndex(items, index) {
        return;
      }
      var item := items[index];
      var q := if 1 < quantity then quantity else 1;
      items := items[index := item.(quantity := q, subtotal := q * item.unitPrice)];
      Persist();
    }

    /** The slot is written even when the index names no line. */
    method Remove(index: int)
      modifies this
      ensures items == Removed(old(items), index)
      ensures stored == Some(items)
      ensures AllWellFormed(old(items)) ==> AllWellFormed(items)
      ensures UniqueKeys(old(items)) ==> UniqueKeys(items)
    {
      CartProperties.RemoveKeepsLineInvariants(items, index);
      items := Spliced(items, index, 1);
      Persist();
    }

    method Clear()
      modifies this
      ensures items == [] && Count(items) == 0 && Total(items) == 0
      ensures stored == Some([])
    {
      items := [];
      Persist();
    }
  }
}
