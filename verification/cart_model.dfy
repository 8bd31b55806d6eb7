/**
 * The cart store of src/store/cart.ts, as functions on its item sequence: the
 * derived values count and total, the merge key, and the item list that each
 * of add, updateQuantity and remove leaves behind. The class in module
 * CartStore performs these operations on its state and is proved against the
 * functions here; module CartProperties states what they guarantee.
 */
module CartModel {
  import opened Wrappers
  import opened Types

  // ---------------------------------------------------------------------------
  // Derived values: the `count` and `total` getters and `calcTotal`
  // ---------------------------------------------------------------------------

  function Quantity(item: CartItem): int { item.quantity }

  function Subtotal(item: CartItem): int { item.subtotal }

  /**
   * `items.reduce((acc, i) => acc + f(i), 0)`: a left fold from 0, so the last
   * item is added last.
   */
  function SumBy(items: seq<CartItem>, f: CartItem -> int): int
  {
    if |items| == 0 then 0
    else SumBy(items[..|items| - 1], f) + f(items[|items| - 1])
  }

  /** A sum of non-negative terms is non-negative; a sum of terms of at least 1 is at least their number. */
  lemma {:induction false} SumByBounds(items: seq<CartItem>, f: CartItem -> int)
    ensures (forall i | 0 <= i < |items| :: f(items[i]) >= 0) ==> SumBy(items, f) >= 0
    ensures (forall i | 0 <= i < |items| :: f(items[i]) >= 1) ==> SumBy(items, f) >= |items|
  {
    if |items| > 0 {
      var front := items[..|items| - 1];
      SumByBounds(front, f);
      assert forall i | 0 <= i < |front| :: front[i] == items[i];
    }
  }

  /** The `count` getter: how many units the cart holds. */
  function Count(items: seq<CartItem>): (n: int)
    ensures |items| == 0 ==> n == 0
    ensures (forall i | 0 <= i < |items| :: items[i].quantity >= 1) ==> n >= |items|
  {
    SumByBounds(items, Quantity);
    SumBy(items, Quantity)
  }

  /** `calcTotal`, which the `total` getter returns: what the cart costs. */
  function Total(items: seq<CartItem>): (t: int)
    ensures |items| == 0 ==> t == 0
    ensures (forall i | 0 <= i < |items| :: items[i].subtotal >= 0) ==> t >= 0
  {
    SumByBounds(items, Subtotal);
    SumBy(items, Subtotal)
  }

  lemma {:induction false} SumByConcat(a: seq<CartItem>, b: seq<CartItem>, f: CartItem -> int)
    ensures SumBy(a + b, f) == SumBy(a, f) + SumBy(b, f)
    decreases |b|
  {
    if |b| == 0 {
      assert a + b == a;
    } else {
      var b' := b[..|b| - 1];
      assert (a + b)[..|a + b| - 1] == a + b';
      SumByConcat(a, b', f);
    }
  }

  /** Taking out the item at i takes its share out of the sum. */
  lemma {:induction false} SumByRemoveAt(items: seq<CartItem>, i: int, f: CartItem -> int)
    requires 0 <= i < |items|
    ensures SumBy(items[..i] + items[i + 1..], f) == SumBy(items, f) - f(items[i])
  {
    var n := |items| - 1;
    var front := items[..n];
    if i == n {
      assert items[..i] + items[i + 1..] == front;
    } else {
      var dropped := front[..i] + front[i + 1..];
      var r := items[..i] + items[i + 1..];
      assert r == dropped + [items[n]];
      assert r[..|r| - 1] == dropped;
      SumByRemoveAt(front, i, f);
    }
  }

  /** Replacing the item at i replaces its share of the sum. */
  lemma SumByUpdateAt(items: seq<CartItem>, i: int, x: CartItem, f: CartItem -> int)
    requires 0 <= i < |items|
    ensures SumBy(items[i := x], f) == SumBy(items, f) - f(items[i]) + f(x)
  {
    var u := items[i := x];
    SumByRemoveAt(items, i, f);
    SumByRemoveAt(u, i, f);
    assert u[..i] + u[i + 1..] == items[..i] + items[i + 1..];
  }

  // ---------------------------------------------------------------------------
  // Line invariants
  // ---------------------------------------------------------------------------

  /** A line that holds at least one unit and whose subtotal is quantity times unit price. */
  predicate WellFormed(item: CartItem)
  {
    item.quantity >= 1 && item.subtotal == item.quantity * item.unitPrice
  }

  predicate AllWellFormed(items: seq<CartItem>)
  {
    forall i | 0 <= i < |items| :: WellFormed(items[i])
  }

  /** No two lines share a merge key. */
  predicate UniqueKeys(items: seq<CartItem>)
  {
    forall i, j | 0 <= i < j < |items| :: ItemKey(items[i]) != ItemKey(items[j])
  }

  // ---------------------------------------------------------------------------
  // add
  // ---------------------------------------------------------------------------

  /** `size?.label`. */
  function LabelOf(size: Option<SizeOption>): Option<string>
  {
    match size
    case Some(s) => Some(s.sizeLabel)
    case None => None
  }

  /** `label || ''`: an absent label and the empty label both contribute nothing. */
  function LabelPart(sizeLabel: Option<string>): string
  {
    match sizeLabel
    case Some(l) => l
    case None => ""
  }

  /** The template string `${id}-${label || ''}` under which lines are merged. */
  function MergeKey(productId: string, sizeLabel: Option<string>): string
  {
    productId + "-" + LabelPart(sizeLabel)
  }

  /** The merge key of a line: its product id, a dash, then its label or nothing. */
  function ItemKey(item: CartItem): string
  {
    MergeKey(item.productId, item.sizeLabel)
  }

  /**
   * `items.find(i => key(i) === key)`, as the index of the first line with the
   * given merge key.
   */
  function FindByKey(items: seq<CartItem>, key: string): (r: Option<nat>)
    ensures r.Some? ==> r.value < |items| && ItemKey(items[r.value]) == key
    ensures r.Some? ==> forall j | 0 <= j < r.value :: ItemKey(items[j]) != key
    ensures r.None? <==> forall j | 0 <= j < |items| :: ItemKey(items[j]) != key
  {
    if |items| == 0 then None
    else if ItemKey(items[0]) == key then Some(0)
    else
      match FindByKey(items[1..], key)
      case None => None
      case Some(k) => Some(k + 1)
  }

  /**
   * The unit price of a new line: the size's price when a size is given,
   * otherwise `Number(product.base_price || 0)`.
   */
  function UnitPrice(product: Product, size: Option<SizeOption>): (p: int)
    ensures size.Some? ==> p == size.value.price
    ensures size.None? && product.basePrice.Some? ==> p == product.basePrice.value
    ensures size.None? && product.basePrice.None? ==> p == 0
  {
    match size
    case Some(s) => s.price
    case None => product.basePrice.GetOr(0)
  }

  /** The line `add` pushes when no line has the key. */
  function NewItem(product: Product, size: Option<SizeOption>): CartItem
  {
    var unitPrice := UnitPrice(product, size);
    CartItem(product.id, product.name, product.imageUrl, unitPrice, LabelOf(size), 1, unitPrice)
  }

  /** The line after `quantity += 1` and the subtotal recomputation. */
  function Incremented(item: CartItem): CartItem
  {
    var quantity := item.quantity + 1;
    item.(quantity := quantity, subtotal := quantity * item.unitPrice)
  }

  /** The item list after `add(product, size)`. */
  function Added(items: seq<CartItem>, product: Product, size: Option<SizeOption>): (r: seq<CartItem>)
    ensures |items| <= |r| <= |items| + 1
    ensures |r| == |items| + 1 <==> forall j | 0 <= j < |items| :: ItemKey(items[j]) != MergeKey(product.id, LabelOf(size))
  {
    match FindByKey(items, MergeKey(product.id, LabelOf(size)))
    case Some(k) => items[k := Incremented(items[k])]
    case None => items + [NewItem(product, size)]
  }

  // ---------------------------------------------------------------------------
  // updateQuantity, remove
  // ---------------------------------------------------------------------------

  /** `this.items[index]` names a line: an integer index inside the list. */
  predicate HasIndex(items: seq<CartItem>, index: int)
  {
    0 <= index < |items|
  }

  /** The line after `quantity = Math.max(1, q)` and the subtotal recomputation. */
  function WithQuantity(item: CartItem, q: int): CartItem
  {
    var quantity := if 1 < q then q else 1;
    item.(quantity := quantity, subtotal := quantity * item.unitPrice)
  }

  /** The item list after `updateQuantity(index, q)`; a missing line leaves it as it was. */
  function QuantityUpdated(items: seq<CartItem>, index: int, q: int): (r: seq<CartItem>)
    ensures |r| == |items|
    ensures forall j | 0 <= j < |items| :: ItemKey(r[j]) == ItemKey(items[j]) && r[j].unitPrice == items[j].unitPrice
    ensures HasIndex(items, index) ==> WellFormed(r[index])
  {
    if HasIndex(items, index) then items[index := WithQuantity(items[index], q)] else items
  }

  /**
   * `Array.prototype.splice(start, deleteCount)` with nothing inserted, as
   * ECMAScript defines it: a negative start counts from the end and is floored
   * at 0, a start past the end is the end, and at most the items from the
   * start to the end are deleted.
   */
  function Spliced(items: seq<CartItem>, start: int, deleteCount: int): (r: seq<CartItem>)
    ensures |r| <= |items|
    ensures exists from: nat, to: nat | from <= to <= |items| :: r == items[..from] + items[to..]
  {
    var len := |items|;
    var actualStart := if start < 0 then (if len + start < 0 then 0 else len + start)
                       else (if start < len then start else len);
    var wanted := if deleteCount < 0 then 0 else deleteCount;
    var actualDelete := if wanted < len - actualStart then wanted else len - actualStart;
    assert items == items[..actualStart] + items[actualStart..];
    items[..actualStart] + items[actualStart + actualDelete..]
  }

  /**
   * The item list after `remove(index)`, that is, `splice(index, 1)`. A
   * negative index counts from the end; one below minus the length removes the
   * first line.
   */
  function Removed(items: seq<CartItem>, index: int): (r: seq<CartItem>)
    ensures 0 <= index < |items| ==> r == items[..index] + items[index + 1..]
    ensures index >= |items| ==> r == items
    ensures -|items| <= index < 0 ==> r == items[..|items| + index] + items[|items| + index + 1..]
    ensures index < -|items| ==> r == if |items| == 0 then items else items[1..]
  {
    Spliced(items, index, 1)
  }
}
