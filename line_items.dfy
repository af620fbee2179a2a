/** The invoice's line items and the three list updaters that the item
    editor's handlers pass to `setItems`: edit one field of one row, append a
    blank row, and remove a row unless it is the only one. */
module LineItems {
  import JsNumbers

  /** A price is either still empty (the input was cleared) or a number. */
  datatype Price = Blank | Amount(value: real)

  datatype LineItem = LineItem(description: string, quantity: real, price: Price, discount: real)

  /** The four inputs of an item row; `discount` is a percentage. */
  datatype ItemField = DescriptionField | QuantityField | PriceField | DiscountField

  /** What one field of an item holds. */
  datatype FieldValue = Text(text: string) | Number(number: real) | PriceValue(price: Price)

  function Get(item: LineItem, field: ItemField): FieldValue {
    match field
    case DescriptionField => Text(item.description)
    case QuantityField => Number(item.quantity)
    case PriceField => PriceValue(item.price)
    case DiscountField => Number(item.discount)
  }

  /** The row a new invoice starts with and the row "add item" appends. */
  function DefaultItem(): LineItem {
    LineItem("", 1.0, Blank, 0.0)
  }

  /** The description takes any text; the other three come from number inputs. */
  predicate AcceptsInput(field: ItemField, value: string) {
    field == DescriptionField || JsNumbers.IsNumberInput(value)
  }

  /** The value stored for an input: quantity and discount go through
      `Number`, a price stays empty when the input is empty and goes through
      `Number` otherwise, and a description is kept as typed. */
  function Stored(field: ItemField, value: string): (r: FieldValue)
    requires AcceptsInput(field, value)
    ensures field == DescriptionField ==> r == Text(value)
    ensures field == QuantityField || field == DiscountField ==> r == Number(JsNumbers.ToNumber(value))
    ensures field == PriceField && value == "" ==> r == PriceValue(Blank)
    ensures field == PriceField && value != "" ==> r == PriceValue(Amount(JsNumbers.ToNumber(value)))
  {
    match field
    case DescriptionField => Text(value)
    case QuantityField => Number(JsNumbers.ToNumber(value))
    case DiscountField => Number(JsNumbers.ToNumber(value))
    case PriceField => PriceValue(if value == "" then Blank else Amount(JsNumbers.ToNumber(value)))
  }

  /** `{...item, [field]: converted value}` */
  function WithField(item: LineItem, field: ItemField, value: string): (r: LineItem)
    requires AcceptsInput(field, value)
    ensures Get(r, field) == Stored(field, value)
    ensures forall g :: g != field ==> Get(r, g) == Get(item, g)
  {
    match field
    case DescriptionField => item.(description := value)
    case QuantityField => item.(quantity := JsNumbers.ToNumber(value))
    case DiscountField => item.(discount := JsNumbers.ToNumber(value))
    case PriceField => item.(price := if value == "" then Blank else Amount(JsNumbers.ToNumber(value)))
  }

  /** `items.map((item, i) => i === idx ? {...item, [field]: ...} : item)` */
  function ChangeItem(items: seq<LineItem>, idx: int, field: ItemField, value: string): (r: seq<LineItem>)
    requires AcceptsInput(field, value)
    ensures |r| == |items|
    ensures 0 <= idx < |items| ==> r == items[idx := WithField(items[idx], field, value)]
    ensures !(0 <= idx < |items|) ==> r == items
  {
    seq(|items|, i requires 0 <= i < |items| =>
      if i == idx then WithField(items[i], field, value) else items[i])
  }

  /** `[...items, {description: "", quantity: 1, price: "", discount: 0}]` */
  function AddItem(items: seq<LineItem>): (r: seq<LineItem>)
    ensures |r| == |items| + 1
    ensures r[..|items|] == items && r[|items|] == DefaultItem()
  {
    items + [DefaultItem()]
  }

  /** `items.filter((_, i) => i !== idx)`, written as the filter walks the list. */
  function WithoutIndex(items: seq<LineItem>, idx: int): (r: seq<LineItem>)
    ensures 0 <= idx < |items| ==> r == items[..idx] + items[idx + 1..]
    ensures !(0 <= idx < |items|) ==> r == items
    decreases |items|
  {
    if items == [] then []
    else (if idx == 0 then [] else [items[0]]) + WithoutIndex(items[1..], idx - 1)
  }

  /** Removing is refused while only one row is left. */
  function RemoveItem(items: seq<LineItem>, idx: int): (r: seq<LineItem>)
    ensures |items| > 1 && 0 <= idx < |items| ==> r == items[..idx] + items[idx + 1..]
    ensures |items| <= 1 || !(0 <= idx < |items|) ==> r == items
    ensures |items| >= 1 ==> |r| >= 1
  {
    if |items| > 1 then WithoutIndex(items, idx) else items
  }

  /** Removing the row just added gives back the list it was added to. */
  lemma RemoveUndoesAdd(items: seq<LineItem>)
    requires |items| >= 1
    ensures RemoveItem(AddItem(items), |items|) == items
  {
  }

  /** Submitting the same edit twice has the effect of submitting it once. */
  lemma {:induction false} ChangeItemIdempotent(items: seq<LineItem>, idx: int, field: ItemField, value: string)
    requires AcceptsInput(field, value)
    ensures ChangeItem(ChangeItem(items, idx, field, value), idx, field, value) == ChangeItem(items, idx, field, value)
  {
    if 0 <= idx < |items| {
      var once := WithField(items[idx], field, value);
      assert WithField(once, field, value) == once by {
        match field
        case DescriptionField =>
        case QuantityField =>
        case DiscountField =>
        case PriceField =>
      }
    }
  }

  /** Typing back the description a row already has changes nothing. */
  lemma SameDescriptionIsNoOp(items: seq<LineItem>, idx: int)
    requires 0 <= idx < |items|
    ensures ChangeItem(items, idx, DescriptionField, items[idx].description) == items
  {
  }

  /** A quantity typed without its leading zero is accepted and stored as its value. */
  lemma LeadingDotQuantity(items: seq<LineItem>, idx: int)
    requires 0 <= idx < |items|
    ensures AcceptsInput(QuantityField, ".5")
    ensures ChangeItem(items, idx, QuantityField, ".5")[idx].quantity == 0.5
  {
    JsNumbers.ExampleLeadingDot();
  }

  /** Clearing a price input stores an empty price, not zero; clearing a
      quantity or discount input stores zero. */
  lemma ClearedInputs(item: LineItem)
    ensures WithField(item, PriceField, "").price == Blank
    ensures WithField(item, QuantityField, "").quantity == 0.0
    ensures WithField(item, DiscountField, "").discount == 0.0
  {
  }
}
