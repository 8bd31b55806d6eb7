/**
 * What the cart's operations guarantee, stated over the functions of module
 * CartModel: the merge-or-append rule of add, the bounds behaviour of
 * updateQuantity and remove, the line invariants every mutation keeps, how
 * count and total move, and the merge-key collisions the key format allows.
 */
module CartProperties {
  import opened Wrappers
  import opened Types
  import opened CartModel

  // ---------------------------------------------------------------------------
  // The merge key
  // ---------------------------------------------------------------------------

  /**
   * The key reads back as its parts: the product id, a dash, then the label or
   * nothing.
   */
  lemma MergeKeyParts(productId: string, sizeLabel: Option<string>)
    ensures var k := MergeKey(productId, sizeLabel);
      && |k| == |productId| + 1 + |LabelPart(sizeLabel)|
      && k[..|productId|] == productId
      && k[|productId|] == '-'
      && k[|productId| + 1..] == LabelPart(sizeLabel)
  {
    var k := MergeKey(productId, sizeLabel);
    assert k == productId + ("-" + LabelPart(sizeLabel));
  }

  /**
   * The key `find` computes from a line agrees with the key add computed for
   * the line's product and size: a line add pushed carries that key, and
   * incrementing a line keeps its key.
   */
  lemma LineKeyIsAddKey(product: Product, size: Option<SizeOption>, item: CartItem)
    ensures ItemKey(NewItem(product, size)) == MergeKey(product.id, LabelOf(size))
    ensures ItemKey(Incremented(item)) == ItemKey(item)
  {
  }

  /** A size whose label is empty shares its key with "no size". */
  lemma EmptyLabelKeyIsNoSizeKey(productId: string)
    ensures MergeKey(productId, Some("")) == MergeKey(productId, None)
  {
  }

  /**
   * The key is a plain concatenation, so an id that itself contains "-" can
   * meet another id plus a label: `a-b` without a size and `a` in size `b-`
   * have the same key.
   */
  lemma KeysCollideAcrossIds(a: string, b: string)
    ensures MergeKey(a + "-" + b, None) == MergeKey(a, Some(b + "-"))
    ensures a + "-" + b != a
  {
  }

  /**
   * Among ids of one length (for example, if ids are UUIDs), the key tells lines apart exactly:
   * equal keys mean the same id and the same label-or-empty.
   */
  lemma {:induction false} KeyInjectiveForEqualLengthIds(id1: string, l1: Option<string>, id2: string, l2: Option<string>)
    requires |id1| == |id2|
    ensures MergeKey(id1, l1) == MergeKey(id2, l2) <==> id1 == id2 && LabelPart(l1) == LabelPart(l2)
  {
    MergeKeyParts(id1, l1);
    MergeKeyParts(id2, l2);
  }

  /** One product in two sizes with different labels gets two keys. */
  lemma DifferentLabelsDifferentKeys(productId: string, l1: string, l2: string)
    requires l1 != l2
    ensures MergeKey(productId, Some(l1)) != MergeKey(productId, Some(l2))
  {
    KeyInjectiveForEqualLengthIds(productId, Some(l1), productId, Some(l2));
  }

  // ---------------------------------------------------------------------------
  // add
  // ---------------------------------------------------------------------------

  /**
   * When line k is the first whose key is the added key, add raises its
   * quantity by exactly one, recomputes its subtotal from its own unit price,
   * and leaves the length and every other line alone.
   */
  lemma AddMergesIntoFirstMatch(items: seq<CartItem>, product: Product, size: Option<SizeOption>, k: int)
    requires 0 <= k < |items|
    requires ItemKey(items[k]) == MergeKey(product.id, LabelOf(size))
    requires forall j | 0 <= j < k :: ItemKey(items[j]) != MergeKey(product.id, LabelOf(size))
    ensures var r := Added(items, product, size);
      && |r| == |items|
      && r[k].quantity == items[k].quantity + 1
      && r[k].subtotal == r[k].quantity * items[k].unitPrice
      && r[k] == items[k].(quantity := r[k].quantity, subtotal := r[k].subtotal)
      && forall j | 0 <= j < |items| && j != k :: r[j] == items[j]
  {
  }

  /**
   * When no line has the added key, add appends one line with quantity 1 and
   * subtotal equal to its unit price, which is the size's price if a size was
   * given and otherwise the base price or 0; earlier lines keep their places.
   */
  lemma AddAppendsWhenAbsent(items: seq<CartItem>, product: Product, size: Option<SizeOption>)
    requires forall j | 0 <= j < |items| :: ItemKey(items[j]) != MergeKey(product.id, LabelOf(size))
    ensures var r := Added(items, product, size);
      && |r| == |items| + 1
      && r[..|items|] == items
      && r[|items|].productId == product.id
      && r[|items|].name == product.name
      && r[|items|].imageUrl == product.imageUrl
      && r[|items|].sizeLabel == LabelOf(size)
      && r[|items|].quantity == 1
      && r[|items|].subtotal == r[|items|].unitPrice
      && r[|items|].unitPrice == (match size
                                  case Some(s) => s.price
                                  case None => match product.basePrice
                                               case Some(p) => p
                                               case None => 0)
  {
  }

  /**
   * Two adds of the same product and size to a cart without that key give one
   * new line of quantity 2 and subtotal twice the unit price.
   */
  lemma {:induction false} AddTwiceMerges(items: seq<CartItem>, product: Product, size: Option<SizeOption>)
    requires forall j | 0 <= j < |items| :: ItemKey(items[j]) != MergeKey(product.id, LabelOf(size))
    ensures var price := UnitPrice(product, size);
      Added(Added(items, product, size), product, size)
        == items + [NewItem(product, size).(quantity := 2, subtotal := 2 * price)]
  {
    var once := Added(items, product, size);
    AddAppendsWhenAbsent(items, product, size);
    assert once == items + [NewItem(product, size)];
    AddMergesIntoFirstMatch(once, product, size, |items|);
    var twice := Added(once, product, size);
    assert twice == once[|items| := Incremented(once[|items|])];
  }

  /**
   * Adds under two different keys, neither in the cart yet, give two separate
   * new lines in the order of the adds.
   */
  lemma {:induction false} AddDifferentKeysSeparate(items: seq<CartItem>, p1: Product, s1: Option<SizeOption>, p2: Product, s2: Option<SizeOption>)
    requires MergeKey(p1.id, LabelOf(s1)) != MergeKey(p2.id, LabelOf(s2))
    requires forall j | 0 <= j < |items| :: ItemKey(items[j]) != MergeKey(p1.id, LabelOf(s1))
    requires forall j | 0 <= j < |items| :: ItemKey(items[j]) != MergeKey(p2.id, LabelOf(s2))
    ensures Added(Added(items, p1, s1), p2, s2) == items + [NewItem(p1, s1), NewItem(p2, s2)]
  {
    var once := Added(items, p1, s1);
    AddAppendsWhenAbsent(items, p1, s1);
    assert once == items + [NewItem(p1, s1)];
    forall j | 0 <= j < |once| ensures ItemKey(once[j]) != MergeKey(p2.id, LabelOf(s2)) {
      if j == |items| {
        assert once[j] == NewItem(p1, s1);
      } else {
        assert once[j] == items[j];
      }
    }
    AddAppendsWhenAbsent(once, p2, s2);
    assert Added(once, p2, s2) == once + [NewItem(p2, s2)];
  }

  /** One product added in two sizes whose labels differ gives two lines. */
  lemma SizesOfOneProductStaySeparate(items: seq<CartItem>, product: Product, s1: SizeOption, s2: SizeOption)
    requires s1.sizeLabel != s2.sizeLabel
    requires forall j | 0 <= j < |items| :: ItemKey(items[j]) != MergeKey(product.id, Some(s1.sizeLabel))
    requires forall j | 0 <= j < |items| :: ItemKey(items[j]) != MergeKey(product.id, Some(s2.sizeLabel))
    ensures Added(Added(items, product, Some(s1)), product, Some(s2))
      == items + [NewItem(product, Some(s1)), NewItem(product, Some(s2))]
  {
    DifferentLabelsDifferentKeys(product.id, s1.sizeLabel, s2.sizeLabel);
    AddDifferentKeysSeparate(items, product, Some(s1), product, Some(s2));
  }

  /**
   * A size labelled "" added after the same product without a size merges into
   * that line: its quantity becomes 2 at the no-size unit price, and the
   * size's own price is never used.
   */
  lemma {:induction false} EmptyLabelSizeMergesWithNoSize(items: seq<CartItem>, product: Product, price: int)
    requires forall j | 0 <= j < |items| :: ItemKey(items[j]) != MergeKey(product.id, None)
    ensures var base := UnitPrice(product, None);
      Added(Added(items, product, None), product, Some(SizeOption("", price)))
        == items + [NewItem(product, None).(quantity := 2, subtotal := 2 * base)]
  {
    var once := Added(items, product, None);
    AddAppendsWhenAbsent(items, product, None);
    assert once == items + [NewItem(product, None)];
    EmptyLabelKeyIsNoSizeKey(product.id);
    AddMergesIntoFirstMatch(once, product, Some(SizeOption("", price)), |items|);
    var twice := Added(once, product, Some(SizeOption("", price)));
    assert twice == once[|items| := Incremented(once[|items|])];
  }

  // ---------------------------------------------------------------------------
  // updateQuantity
  // ---------------------------------------------------------------------------

  /**
   * updateQuantity(index, q) on a missing line changes nothing; otherwise it
   * changes only that line, to quantity max(1, q) and subtotal quantity times
   * the line's unit price.
   */
  lemma QuantityUpdatedChangesOnlyThatLine(items: seq<CartItem>, index: int, q: int)
    ensures var r := QuantityUpdated(items, index, q);
      && (!HasIndex(items, index) ==> r == items)
      && (HasIndex(items, index) ==>
            && |r| == |items|
            && r[index].quantity == (if q > 1 then q else 1)
            && r[index].subtotal == r[index].quantity * items[index].unitPrice
            && r[index] == items[index].(quantity := r[index].quantity, subtotal := r[index].subtotal)
            && forall j | 0 <= j < |items| && j != index :: r[j] == items[j])
  {
  }

  // ---------------------------------------------------------------------------
  // The line invariants
  // ---------------------------------------------------------------------------

  /** Dropping a stretch of lines keeps each of the two line invariants. */
  lemma {:induction false} DropKeepsLineInvariants(items: seq<CartItem>, from: nat, to: nat)
    requires from <= to <= |items|
    ensures AllWellFormed(items) ==> AllWellFormed(items[..from] + items[to..])
    ensures UniqueKeys(items) ==> UniqueKeys(items[..from] + items[to..])
  {
    var r := items[..from] + items[to..];
    forall i | 0 <= i < |r| ensures r[i] == items[if i < from then i else i + (to - from)] {
    }
    if UniqueKeys(items) {
      forall i, j | 0 <= i < j < |r| ensures ItemKey(r[i]) != ItemKey(r[j]) {
        var i', j' := if i < from then i else i + (to - from), if j < from then j else j + (to - from);
        assert r[i] == items[i'] && r[j] == items[j'] && i' < j';
      }
    }
    if AllWellFormed(items) {
      forall i | 0 <= i < |r| ensures WellFormed(r[i]) {
        assert r[i] == items[if i < from then i else i + (to - from)];
      }
    }
  }

  /**
   * add keeps `quantity >= 1` and `subtotal == quantity * unitPrice` on every
   * line, and keeps the merge keys unique; each holds on its own.
   */
  lemma AddKeepsLineInvariants(items: seq<CartItem>, product: Product, size: Option<SizeOption>)
    ensures AllWellFormed(items) ==> AllWellFormed(Added(items, product, size))
    ensures UniqueKeys(items) ==> UniqueKeys(Added(items, product, size))
  {
    var key := MergeKey(product.id, LabelOf(size));
    var r := Added(items, product, size);
    match FindByKey(items, key)
    case Some(k) =>
      assert r == items[k := Incremented(items[k])];
      if UniqueKeys(items) {
        forall i, j | 0 <= i < j < |r| ensures ItemKey(r[i]) != ItemKey(r[j]) {
          assert ItemKey(r[i]) == ItemKey(items[i]) && ItemKey(r[j]) == ItemKey(items[j]);
        }
      }
    case None =>
      assert r == items + [NewItem(product, size)];
      if UniqueKeys(items) {
        forall i, j | 0 <= i < j < |r| ensures ItemKey(r[i]) != ItemKey(r[j]) {
          if j == |items| {
            assert ItemKey(r[j]) == key;
            assert r[i] == items[i];
          } else {
            assert r[i] == items[i] && r[j] == items[j];
          }
        }
      }
  }

  /** updateQuantity keeps each of the two line invariants. */
  lemma QuantityUpdateKeepsLineInvariants(items: seq<CartItem>, index: int, q: int)
    ensures AllWellFormed(items) ==> AllWellFormed(QuantityUpdated(items, index, q))
    ensures UniqueKeys(items) ==> UniqueKeys(QuantityUpdated(items, index, q))
  {
    var r := QuantityUpdated(items, index, q);
    if HasIndex(items, index) && UniqueKeys(items) {
      forall i, j | 0 <= i < j < |r| ensures ItemKey(r[i]) != ItemKey(r[j]) {
        assert ItemKey(r[i]) == ItemKey(items[i]) && ItemKey(r[j]) == ItemKey(items[j]);
      }
    }
  }

  /** remove keeps each of the two line invariants, for every index. */
  lemma RemoveKeepsLineInvariants(items: seq<CartItem>, index: int)
    ensures AllWellFormed(items) ==> AllWellFormed(Removed(items, index))
    ensures UniqueKeys(items) ==> UniqueKeys(Removed(items, index))
  {
    var from: nat, to: nat :| from <= to <= |items| && Removed(items, index) == items[..from] + items[to..];
    DropKeepsLineInvariants(items, from, to);
  }

  // ---------------------------------------------------------------------------
  // count and total
  // ---------------------------------------------------------------------------

  lemma Distribute(q: int, price: int)
    ensures (q + 1) * price == q * price + price
  {
  }

  /** Incrementing a line adds one unit to count, whatever the line holds. */
  lemma IncrementRaisesCount(items: seq<CartItem>, k: int)
    requires 0 <= k < |items|
    ensures Count(items[k := Incremented(items[k])]) == Count(items) + 1
  {
    SumByUpdateAt(items, k, Incremented(items[k]), Quantity);
  }

  /**
   * Incrementing a line replaces its subtotal by one more unit's worth; for a
   * well-formed line that is total plus the line's unit price.
   */
  lemma IncrementMovesTotal(items: seq<CartItem>, k: int)
    requires 0 <= k < |items|
    ensures Total(items[k := Incremented(items[k])]) == Total(items) - items[k].subtotal + Incremented(items[k]).subtotal
    ensures WellFormed(items[k]) ==> Total(items[k := Incremented(items[k])]) == Total(items) + items[k].unitPrice
  {
    var it := items[k];
    SumByUpdateAt(items, k, Incremented(it), Subtotal);
    Distribute(it.quantity, it.unitPrice);
  }

  /** Appending a line adds its quantity and subtotal to the sums. */
  lemma AppendMovesCountAndTotal(items: seq<CartItem>, n: CartItem)
    ensures Count(items + [n]) == Count(items) + n.quantity
    ensures Total(items + [n]) == Total(items) + n.subtotal
  {
  }

  /** add raises count by exactly one, on every list. */
  lemma AddRaisesCount(items: seq<CartItem>, product: Product, size: Option<SizeOption>)
    ensures Count(Added(items, product, size)) == Count(items) + 1
  {
    match FindByKey(items, MergeKey(product.id, LabelOf(size)))
    case Some(k) =>
      IncrementRaisesCount(items, k);
    case None =>
      AppendMovesCountAndTotal(items, NewItem(product, size));
  }

  /**
   * add raises total by the unit price of the line that got the unit: the new
   * line's price when it appends; when it merges into a well-formed line, that
   * line's own price, frozen when it was added. Any merge replaces the line's
   * subtotal by that of one more unit.
   */
  lemma AddRaisesTotal(items: seq<CartItem>, product: Product, size: Option<SizeOption>)
    ensures match FindByKey(items, MergeKey(product.id, LabelOf(size)))
      case Some(k) =>
        && Total(Added(items, product, size)) == Total(items) - items[k].subtotal + Incremented(items[k]).subtotal
        && (WellFormed(items[k]) ==> Total(Added(items, product, size)) == Total(items) + items[k].unitPrice)
      case None => Total(Added(items, product, size)) == Total(items) + UnitPrice(product, size)
  {
    match FindByKey(items, MergeKey(product.id, LabelOf(size)))
    case Some(k) =>
      assert Added(items, product, size) == items[k := Incremented(items[k])];
      IncrementMovesTotal(items, k);
    case None =>
      assert Added(items, product, size) == items + [NewItem(product, size)];
      AppendMovesCountAndTotal(items, NewItem(product, size));
  }

  /** updateQuantity on line index moves count and total by that line's change only. */
  lemma QuantityUpdateMovesCountAndTotal(items: seq<CartItem>, index: int, q: int)
    requires HasIndex(items, index)
    ensures var quantity := if q > 1 then q else 1;
      var r := QuantityUpdated(items, index, q);
      && Count(r) == Count(items) - items[index].quantity + quantity
      && Total(r) == Total(items) - items[index].subtotal + quantity * items[index].unitPrice
  {
    var x := WithQuantity(items[index], q);
    SumByUpdateAt(items, index, x, Quantity);
    SumByUpdateAt(items, index, x, Subtotal);
  }

  /** remove of line index takes that line's quantity and subtotal out of count and total. */
  lemma RemoveLowersCountAndTotal(items: seq<CartItem>, index: int)
    requires HasIndex(items, index)
    ensures Count(Removed(items, index)) == Count(items) - items[index].quantity
    ensures Total(Removed(items, index)) == Total(items) - items[index].subtotal
  {
    SumByRemoveAt(items, index, Quantity);
    SumByRemoveAt(items, index, Subtotal);
  }

  /** A cart of one line counts that line's units and costs its subtotal. */
  lemma SingleLineSums(line: CartItem)
    ensures Count([line]) == line.quantity && Total([line]) == line.subtotal
  {
    var empty: seq<CartItem> := [];
    assert empty + [line] == [line];
    AppendMovesCountAndTotal(empty, line);
  }

  /** Sample session, first step: p1 (base price 10) added twice to an empty cart. */
  lemma WalkthroughPlainAdds(p1: Product)
    requires p1.id == "p1" && p1.basePrice == Some(10)
    ensures Added(Added([], p1, None), p1, None) == [NewItem(p1, None).(quantity := 2, subtotal := 20)]
    ensures Count([NewItem(p1, None).(quantity := 2, subtotal := 20)]) == 2
    ensures Total([NewItem(p1, None).(quantity := 2, subtotal := 20)]) == 20
  {
    var empty: seq<CartItem> := [];
    var line := NewItem(p1, None).(quantity := 2, subtotal := 20);
    assert Added(Added(empty, p1, None), p1, None) == [line] by {
      AddTwiceMerges(empty, p1, None);
      assert UnitPrice(p1, None) == 10;
      assert empty + [line] == [line];
    }
    SingleLineSums(line);
  }

  /** Sample session, second step: p1 in size "10p" at 25 gets a line of its own. */
  lemma WalkthroughSizedAdd(p1: Product, c1: seq<CartItem>)
    requires p1.id == "p1" && p1.basePrice == Some(10)
    requires c1 == [NewItem(p1, None).(quantity := 2, subtotal := 20)]
    ensures Added(c1, p1, Some(SizeOption("10p", 25))) == c1 + [NewItem(p1, Some(SizeOption("10p", 25)))]
    ensures Count(c1 + [NewItem(p1, Some(SizeOption("10p", 25)))]) == 3
    ensures Total(c1 + [NewItem(p1, Some(SizeOption("10p", 25)))]) == 45
  {
    var size := Some(SizeOption("10p", 25));
    assert MergeKey("p1", None) != MergeKey("p1", Some("10p")) by {
      assert |MergeKey("p1", None)| == 3;
      assert |MergeKey("p1", Some("10p"))| == 6;
    }
    assert ItemKey(c1[0]) == MergeKey("p1", None);
    AddAppendsWhenAbsent(c1, p1, size);
    WalkthroughPlainAdds(p1);
    AppendMovesCountAndTotal(c1, NewItem(p1, size));
  }

  /** Sample session, last step: remove(0) leaves only the sized line. */
  lemma WalkthroughRemove(line1: CartItem, line2: CartItem)
    requires line2.quantity == 1 && line2.subtotal == 25
    ensures Removed([line1, line2], 0) == [line2]
    ensures Count([line2]) == 1 && Total([line2]) == 25
  {
    assert [line1, line2][1..] == [line2];
    SingleLineSums(line2);
  }

  /**
   * A sample session: from an empty cart, add p1 (base
   * price 10) twice, then p1 in size "10p" at 25, then remove line 0.
   */
  lemma Walkthrough(p1: Product)
    requires p1.id == "p1" && p1.basePrice == Some(10)
    ensures var c1 := Added(Added([], p1, None), p1, None);
      && |c1| == 1 && Count(c1) == 2 && Total(c1) == 20
      && var c2 := Added(c1, p1, Some(SizeOption("10p", 25)));
      && |c2| == 2 && c2[1].quantity == 1 && c2[1].subtotal == 25
      && Count(c2) == 3 && Total(c2) == 45
      && var c3 := Removed(c2, 0);
      && |c3| == 1 && Count(c3) == 1 && Total(c3) == 25
  {
    var empty: seq<CartItem> := [];
    var size := Some(SizeOption("10p", 25));
    var line1 := NewItem(p1, None).(quantity := 2, subtotal := 20);
    var line2 := NewItem(p1, size);
    WalkthroughPlainAdds(p1);
    var c1 := Added(Added(empty, p1, None), p1, None);
    assert c1 == [line1];
    WalkthroughSizedAdd(p1, c1);
    var c2 := Added(c1, p1, size);
    assert c2 == c1 + [line2];
    assert [line1] + [line2] == [line1, line2];
    WalkthroughRemove(line1, line2);
  }
}
