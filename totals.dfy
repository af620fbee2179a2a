/** The derived totals of an invoice (subtotal, discount, tax, grand total)
    and the per-row figure of the preview table. They are recomputed from the
    items, the global discount and tax percentages and the two section flags. */
module Totals {
  import opened LineItems

  /** `parseFloat(item.price) || 0`: an empty price counts as zero. */
  /** `parseFloat(item.price) || 0` on the values a row's price can hold. */
  function PriceOrZero(p: Price): (r: real)
    ensures p.Blank? ==> r == 0.0
    ensures p.Amount? ==> r == p.value
  {
    match p
    case Blank => 0.0
    case Amount(v) => v
  }

  function LineTotal(item: LineItem): real {
    item.quantity * PriceOrZero(item.price)
  }

  /** What a row's own discount percentage takes off its line total. */
  function LineDiscount(item: LineItem): real {
    LineTotal(item) * (item.discount / 100.0)
  }

  /** `items.reduce((sum, item) => sum + f(item), 0)`: a fold from the left. */
  function SumOf(items: seq<LineItem>, f: LineItem -> real): real {
    if items == [] then 0.0 else SumOf(items[..|items| - 1], f) + f(items[|items| - 1])
  }

  function Subtotal(items: seq<LineItem>): real {
    SumOf(items, LineTotal)
  }

  function ItemDiscounts(items: seq<LineItem>): real {
    SumOf(items, LineDiscount)
  }

  datatype Totals = Totals(subtotal: real, totalDiscount: real, afterDiscount: real, tax: real, grandTotal: real)

  /** The totals block, once the two folds over the rows are known.
      Discounts count only while the discount section is shown; tax is
      charged on the discounted amount only while the tax section is shown. */
  function TotalsFrom(subtotal: real, itemDiscounts: real, discountOn: bool, globalDiscount: real, taxOn: bool, taxRate: real): (t: Totals)
    ensures t.subtotal == subtotal
    ensures t.totalDiscount == if discountOn then itemDiscounts + subtotal * globalDiscount / 100.0 else 0.0
    ensures t.afterDiscount == subtotal - t.totalDiscount
    ensures t.tax == if taxOn then t.afterDiscount * (taxRate / 100.0) else 0.0
    ensures t.grandTotal == t.afterDiscount + t.tax
    ensures taxOn ==> t.grandTotal == t.afterDiscount * (1.0 + taxRate / 100.0)
  {
    var totalDiscount := if discountOn then itemDiscounts + (subtotal * globalDiscount) / 100.0 else 0.0;
    var afterDiscount := subtotal - totalDiscount;
    var tax := if taxOn then afterDiscount * (taxRate / 100.0) else 0.0;
    Totals(subtotal, totalDiscount, afterDiscount, tax, afterDiscount + tax)
  }

  /** The totals of a list of rows. */
  function ComputeTotals(items: seq<LineItem>, discountOn: bool, globalDiscount: real, taxOn: bool, taxRate: real): (t: Totals)
    ensures t.subtotal == Subtotal(items)
    ensures !discountOn ==> t.totalDiscount == 0.0 && t.afterDiscount == t.subtotal
    ensures discountOn ==> t.totalDiscount == ItemDiscounts(items) + t.subtotal * globalDiscount / 100.0
    ensures t.afterDiscount == t.subtotal - t.totalDiscount
    ensures !taxOn ==> t.tax == 0.0 && t.grandTotal == t.afterDiscount
    ensures taxOn ==> t.grandTotal == t.afterDiscount * (1.0 + taxRate / 100.0)
    ensures t.grandTotal == t.subtotal - t.totalDiscount + t.tax
  {
    TotalsFrom(Subtotal(items), ItemDiscounts(items), discountOn, globalDiscount, taxOn, taxRate)
  }

  /** The "Total" cell of a row in the preview table. */
  function RowFinal(item: LineItem, discountOn: bool): (r: real)
    ensures !discountOn ==> r == LineTotal(item)
    ensures discountOn ==> r == LineTotal(item) - LineDiscount(item)
    ensures discountOn && 0.0 <= LineTotal(item) && 0.0 <= item.discount <= 100.0 ==> 0.0 <= r <= LineTotal(item)
  {
    var itemTotal := LineTotal(item);
    var itemDiscount := if discountOn then LineDiscount(item) else 0.0;
    PercentWithin(itemTotal, item.discount, LineDiscount(item));
    itemTotal - itemDiscount
  }

  /** A percentage between 0 and 100 of a non-negative amount lies between 0 and the amount. */
  lemma PercentWithin(amount: real, percent: real, part: real)
    requires part == amount * (percent / 100.0)
    ensures 0.0 <= amount && 0.0 <= percent <= 100.0 ==> 0.0 <= part <= amount
  {
    if 0.0 <= amount && 0.0 <= percent <= 100.0 {
      var share := percent / 100.0;
      assert 0.0 <= share <= 1.0;
      assert amount * share <= amount * 1.0;
    }
  }

  // ---------------------------------------------------------------------
  // Facts about the fold

  lemma {:induction false} SumOfAppend(a: seq<LineItem>, b: seq<LineItem>, f: LineItem -> real)
    ensures SumOf(a + b, f) == SumOf(a, f) + SumOf(b, f)
    decreases |b|
  {
    if b != [] {
      assert (a + b)[..|a + b| - 1] == a + b[..|b| - 1];
      SumOfAppend(a, b[..|b| - 1], f);
    } else {
      assert a + b == a;
    }
  }

  /** The fold from the left agrees with the sum taken from the front. */
  lemma SumOfCons(x: LineItem, rest: seq<LineItem>, f: LineItem -> real)
    ensures SumOf([x] + rest, f) == f(x) + SumOf(rest, f)
  {
    SumOfAppend([x], rest, f);
    assert SumOf([x], f) == SumOf([], f) + f(x) by {
      assert [x][..0] == [];
    }
  }

  /** Functions that agree on every item give the same sum. */
  lemma {:induction false} SumOfPointwise(a: seq<LineItem>, b: seq<LineItem>, f: LineItem -> real, g: LineItem -> real)
    requires |a| == |b|
    requires forall i :: 0 <= i < |a| ==> f(a[i]) == g(b[i])
    ensures SumOf(a, f) == SumOf(b, g)
  {
    if a != [] {
      SumOfPointwise(a[..|a| - 1], b[..|b| - 1], f, g);
    }
  }

  /** The sum of a pointwise difference is the difference of the sums. */
  lemma {:induction false} SumOfDifference(items: seq<LineItem>, f: LineItem -> real, g: LineItem -> real, h: LineItem -> real)
    requires forall x :: h(x) == f(x) - g(x)
    ensures SumOf(items, h) == SumOf(items, f) - SumOf(items, g)
  {
    if items != [] {
      SumOfDifference(items[..|items| - 1], f, g, h);
    }
  }

  // ---------------------------------------------------------------------
  // Properties of the totals

  /** Replacing one row's price by an empty one takes exactly that row's
      line total off the subtotal: an empty price contributes nothing. */
  lemma BlankPriceContributesNothing(items: seq<LineItem>, i: nat)
    requires i < |items|
    ensures Subtotal(items[i := items[i].(price := Blank)]) == Subtotal(items) - LineTotal(items[i])
  {
    var blanked := items[i := items[i].(price := Blank)];
    assert items == items[..i] + [items[i]] + items[i + 1..];
    assert blanked == items[..i] + [blanked[i]] + items[i + 1..];
    SumOfAppend(items[..i] + [items[i]], items[i + 1..], LineTotal);
    SumOfAppend(items[..i], [items[i]], LineTotal);
    SumOfAppend(items[..i] + [blanked[i]], items[i + 1..], LineTotal);
    SumOfAppend(items[..i], [blanked[i]], LineTotal);
    assert SumOf([items[i]], LineTotal) == LineTotal(items[i]) by { assert [items[i]][..0] == []; }
    assert SumOf([blanked[i]], LineTotal) == 0.0 by { assert [blanked[i]][..0] == []; }
  }

  /** With the discount section hidden, neither the rows' discount
      percentages nor the global one have any effect on the totals. */
  lemma DiscountOffIgnoresDiscounts(items: seq<LineItem>, other: seq<LineItem>, d: real, d': real, taxOn: bool, taxRate: real)
    requires |items| == |other|
    requires forall i :: 0 <= i < |items| ==> items[i].quantity == other[i].quantity && items[i].price == other[i].price
    ensures ComputeTotals(items, false, d, taxOn, taxRate) == ComputeTotals(other, false, d', taxOn, taxRate)
  {
    SumOfPointwise(items, other, LineTotal, LineTotal);
    assert TotalsFrom(Subtotal(items), ItemDiscounts(items), false, d, taxOn, taxRate)
        == TotalsFrom(Subtotal(other), ItemDiscounts(other), false, d', taxOn, taxRate);
  }

  /** With the tax section hidden, the tax rate has no effect on the totals. */
  lemma TaxOffIgnoresRate(items: seq<LineItem>, discountOn: bool, d: real, taxRate: real, taxRate': real)
    ensures ComputeTotals(items, discountOn, d, false, taxRate) == ComputeTotals(items, discountOn, d, false, taxRate')
  {
  }

  /** The preview's row totals add up to the amount after discount, apart
      from the global discount, which the rows do not show. */
  lemma PreviewRowsAddUp(items: seq<LineItem>, discountOn: bool, d: real, taxOn: bool, taxRate: real)
    ensures SumOf(items, x => RowFinal(x, discountOn))
         == ComputeTotals(items, discountOn, d, taxOn, taxRate).afterDiscount
            + (if discountOn then Subtotal(items) * d / 100.0 else 0.0)
  {
    var row := x => RowFinal(x, discountOn);
    if discountOn {
      SumOfDifference(items, LineTotal, LineDiscount, row);
    } else {
      SumOfPointwise(items, items, row, LineTotal);
    }
  }

  /** A row whose quantity and price are non-negative and whose own discount
      and the global discount together stay within 100 percent. */
  predicate SaneRow(item: LineItem, d: real) {
    && item.quantity >= 0.0
    && PriceOrZero(item.price) >= 0.0
    && item.discount >= 0.0
    && item.discount + d <= 100.0
  }

  lemma RowDiscountWithinRow(item: LineItem, d: real)
    requires 0.0 <= d && SaneRow(item, d)
    ensures 0.0 <= LineTotal(item)
    ensures 0.0 <= LineDiscount(item) + LineTotal(item) * d / 100.0 <= LineTotal(item)
  {
    var q, p := item.quantity, PriceOrZero(item.price);
    assert LineTotal(item) == q * p;
    assert 0.0 <= q * p;
    var l := LineTotal(item);
    var share := item.discount / 100.0 + d / 100.0;
    assert 0.0 <= share <= 1.0;
    assert LineDiscount(item) + l * d / 100.0 == l * share;
    assert l * share <= l * 1.0;
  }

  lemma {:induction false} DiscountWithinSubtotal(items: seq<LineItem>, d: real)
    requires 0.0 <= d
    requires forall i :: 0 <= i < |items| ==> SaneRow(items[i], d)
    ensures 0.0 <= Subtotal(items)
    ensures 0.0 <= ItemDiscounts(items) + Subtotal(items) * d / 100.0 <= Subtotal(items)
  {
    if items != [] {
      var init, x := items[..|items| - 1], items[|items| - 1];
      DiscountWithinSubtotal(init, d);
      RowDiscountWithinRow(x, d);
      var s := Subtotal(init);
      assert Subtotal(items) == s + LineTotal(x);
      assert ItemDiscounts(items) == ItemDiscounts(init) + LineDiscount(x);
      assert (s + LineTotal(x)) * d / 100.0 == s * d / 100.0 + LineTotal(x) * d / 100.0;
    }
  }

  /** When every row is sane and the tax rate is not negative, the totals
      are never negative and discounts never exceed the subtotal. */
  lemma TotalsNonNegative(items: seq<LineItem>, discountOn: bool, d: real, taxOn: bool, taxRate: real)
    requires 0.0 <= d && 0.0 <= taxRate
    requires forall i :: 0 <= i < |items| ==> SaneRow(items[i], d)
    ensures var t := ComputeTotals(items, discountOn, d, taxOn, taxRate);
      && 0.0 <= t.totalDiscount <= t.subtotal
      && 0.0 <= t.afterDiscount <= t.subtotal
      && 0.0 <= t.tax
      && 0.0 <= t.grandTotal
  {
    DiscountWithinSubtotal(items, d);
    var t := ComputeTotals(items, discountOn, d, taxOn, taxRate);
    assert 0.0 <= t.afterDiscount;
    assert 0.0 <= t.afterDiscount * (taxRate / 100.0);
  }

  /** Row and global discounts are added, not compounded, so together they
      can exceed the subtotal and drive the grand total below zero. */
  lemma DiscountsCanExceedSubtotal()
    ensures ComputeTotals([LineItem("", 1.0, Amount(100.0), 100.0)], true, 10.0, false, 10.0).grandTotal == -10.0
  {
    var items := [LineItem("", 1.0, Amount(100.0), 100.0)];
    assert items[..0] == [];
    assert Subtotal(items) == 100.0;
    assert ItemDiscounts(items) == 100.0;
  }

  // ---------------------------------------------------------------------
  // How the item updaters move the totals

  /** The row "add item" appends is worth nothing, so adding it leaves the
      totals as they were. */
  lemma AddItemKeepsTotals(items: seq<LineItem>, discountOn: bool, d: real, taxOn: bool, taxRate: real)
    ensures ComputeTotals(AddItem(items), discountOn, d, taxOn, taxRate) == ComputeTotals(items, discountOn, d, taxOn, taxRate)
  {
    AddItemKeepsSums(items);
  }

  lemma AddItemKeepsSums(items: seq<LineItem>)
    ensures Subtotal(AddItem(items)) == Subtotal(items)
    ensures ItemDiscounts(AddItem(items)) == ItemDiscounts(items)
  {
    var added := AddItem(items);
    assert added[..|added| - 1] == items;
    assert LineTotal(DefaultItem()) == 0.0 && LineDiscount(DefaultItem()) == 0.0;
  }

  /** Removing a row takes exactly its line total and its own discount off. */
  lemma RemoveItemTakesRowOff(items: seq<LineItem>, idx: nat)
    requires 1 < |items| && idx < |items|
    ensures Subtotal(RemoveItem(items, idx)) == Subtotal(items) - LineTotal(items[idx])
    ensures ItemDiscounts(RemoveItem(items, idx)) == ItemDiscounts(items) - LineDiscount(items[idx])
  {
    var x := items[idx];
    assert items == items[..idx] + [x] + items[idx + 1..];
    SumOfAppend(items[..idx], items[idx + 1..], LineTotal);
    SumOfAppend(items[..idx] + [x], items[idx + 1..], LineTotal);
    SumOfAppend(items[..idx], items[idx + 1..], LineDiscount);
    SumOfAppend(items[..idx] + [x], items[idx + 1..], LineDiscount);
    assert (items[..idx] + [x])[..idx] == items[..idx];
  }

  /** Editing a description never changes the totals. */
  lemma DescriptionEditKeepsTotals(items: seq<LineItem>, idx: int, text: string, discountOn: bool, d: real, taxOn: bool, taxRate: real)
    ensures ComputeTotals(ChangeItem(items, idx, DescriptionField, text), discountOn, d, taxOn, taxRate)
         == ComputeTotals(items, discountOn, d, taxOn, taxRate)
  {
    DescriptionEditKeepsSums(items, idx, text);
  }

  lemma DescriptionEditKeepsSums(items: seq<LineItem>, idx: int, text: string)
    ensures Subtotal(ChangeItem(items, idx, DescriptionField, text)) == Subtotal(items)
    ensures ItemDiscounts(ChangeItem(items, idx, DescriptionField, text)) == ItemDiscounts(items)
  {
    var edited := ChangeItem(items, idx, DescriptionField, text);
    forall i | 0 <= i < |edited|
      ensures LineTotal(edited[i]) == LineTotal(items[i]) && LineDiscount(edited[i]) == LineDiscount(items[i])
    {
      assert edited[i].quantity == items[i].quantity;
      assert edited[i].price == items[i].price;
      assert edited[i].discount == items[i].discount;
    }
    SumOfPointwise(edited, items, LineTotal, LineTotal);
    SumOfPointwise(edited, items, LineDiscount, LineDiscount);
  }

  // ---------------------------------------------------------------------
  // Worked examples

  /** Two units at 50 with 10% tax and discounts hidden. */
  lemma ExampleTaxOnly()
    ensures ComputeTotals([LineItem("", 2.0, Amount(50.0), 0.0)], false, 0.0, true, 10.0)
         == Totals(100.0, 0.0, 100.0, 10.0, 110.0)
  {
    var items := [LineItem("", 2.0, Amount(50.0), 0.0)];
    assert items[..0] == [];
    assert Subtotal(items) == 100.0;
  }

  /** One unit at 200 with a 50% row discount and a 10% global discount. */
  lemma ExampleDiscountOnly()
    ensures ComputeTotals([LineItem("", 1.0, Amount(200.0), 50.0)], true, 10.0, false, 10.0)
         == Totals(200.0, 120.0, 80.0, 0.0, 80.0)
  {
    var items := [LineItem("", 1.0, Amount(200.0), 50.0)];
    assert items[..0] == [];
    assert Subtotal(items) == 200.0;
    assert ItemDiscounts(items) == 100.0;
  }
}
