# invoicegen: a Dafny model of the invoice editor's core

invoicegen is a single-page React invoice editor. The user fills in company
and client details, a list of line items, tax and discount settings, and
payment terms, and then exports the preview as an A4 PDF. This project
models the computable core of the editor:

- the totals block (subtotal, discounts, tax, grand total) and the
  preview's per-row total (`totals.dfy`);
- the three updaters of the item list: edit one field of one row, add a
  blank row, remove a row unless it is the last one (`line_items.dfy`);
- the `Number(...)` conversion applied to number inputs (`js_numbers.dfy`);
- the form state as a class: which optional sections are shown, the value
  of every input, `toggleField` and the item handlers (`invoice_form.dfy`);
- the page arithmetic of the PDF export: image height, page count and
  the strip of canvas drawn on each page (`pagination.dfy`);
- the theme switcher's cycle, its icon choice and its three fixed-theme
  buttons (`theme_toggle.dfy`).

Amounts are exact reals and canvas sizes are natural numbers. Each
operation is stated against a partner:

- `toggleField`'s `switch` is checked against an independent reset table.
  The table says which section owns each stored value and what value it
  takes when that section is hidden.
- The pagination loop is proved equal to a pure `Layout` function. `Layout`
  is then proved to cover the canvas without gaps, to fit the content
  area, to use one scale for all strips and to use the fewest pages.
- The list updaters are related to each other and to the totals.

Three behaviours of the code are worth stating up front. The model keeps
each of them as the code has it.

- **Totals can go negative.** `src/InvoiceGenerator.jsx:237-245` adds a
  row's own discount percentage to the global one instead of compounding
  them, so the two together can exceed 100%
  (`Totals.DiscountsCanExceedSubtotal`). A row percentage above 100 or a
  negative price does the same on its own. Totals are proved non-negative
  only for rows with non-negative quantity and price whose percentages stay
  within 100% (`Totals.TotalsNonNegative`).
- **An empty canvas is not guarded.** `src/InvoiceGenerator.jsx:550`
  divides the canvas width by the canvas height without checking it. The
  pagination model therefore requires a canvas of positive width and
  height.
- **Row discounts survive hiding the section.**
  `src/InvoiceGenerator.jsx:191-193` resets only the global discount when
  the discount section is hidden. Each row keeps its own percentage, and it
  counts again once the section is shown
  (`InvoiceForm.RowDiscountsSurviveHiding`).

## Model

| member | source | states |
|---|---|---|
| JsNumbers.ToNumber | src/InvoiceGenerator.jsx:680-685 | `Number` on a number input: the empty string converts to 0; a numeral without a leading '-' converts to a value that is not negative |
| JsNumbers.NatToStringRoundTrip | src/InvoiceGenerator.jsx:680-685 | the decimal rendering of every whole number is accepted by a number input and converts back to that number |
| JsNumbers.DecimalValueBounds | src/InvoiceGenerator.jsx:680-685 | a decimal numeral's value lies between its integer part and the next integer: the digits after the '.' are a fraction below one |
| JsNumbers.LeadingDotIsZeroPoint | src/InvoiceGenerator.jsx:680-685 | a numeral with no digit before its '.' is accepted and converts to the same value as with a leading 0 |
| JsNumbers.NumeralWithExponent | src/InvoiceGenerator.jsx:680-685 | a decimal numeral followed by 'e' and a signed exponent is accepted and converts to the decimal value shifted by that power of ten |
| JsNumbers.ExponentShifts | src/InvoiceGenerator.jsx:680-685 | a decimal numeral followed by 'e' and the digits of k is accepted and converts to the decimal value shifted by k places |
| JsNumbers.ShiftedByNat | src/InvoiceGenerator.jsx:680-685 | shifting by a non-negative exponent k multiplies by 10 to the k |
| JsNumbers.ExampleLeadingDot | src/InvoiceGenerator.jsx:680-685 | ".5" converts to 0.5 and "-.5" to −0.5 |
| JsNumbers.ExampleDecimal | src/InvoiceGenerator.jsx:680-685 | "12.25" converts to 12.25 |
| JsNumbers.ExampleExponent | src/InvoiceGenerator.jsx:680-685 | "1e3" converts to 1000 |
| JsNumbers.ExampleNegativeExponent | src/InvoiceGenerator.jsx:680-685 | "25E-2" converts to 0.25 |
| JsNumbers.MinusNegates | src/InvoiceGenerator.jsx:680-685 | a leading '-' is accepted and negates the converted value |
| LineItems.Stored | src/InvoiceGenerator.jsx:680-686 | the value a field stores for an input: a description as typed, quantity and discount through `Number`, a price empty exactly when the input is empty and otherwise its `Number` |
| LineItems.LeadingDotQuantity | src/InvoiceGenerator.jsx:673-691 | a quantity typed as ".5" is accepted and stored as 0.5 |
| LineItems.WithField | src/InvoiceGenerator.jsx:677-687 | the spread `{...item, [field]: ...}`: the named field holds the converted input (quantity and discount through `Number`, an empty price stays empty, a description as typed); every other field is unchanged |
| LineItems.ChangeItem | src/InvoiceGenerator.jsx:673-691 | `handleItemChange`'s updater: the length is kept, only row idx is replaced by its edited copy, and an index outside the list changes nothing |
| LineItems.AddItem | src/InvoiceGenerator.jsx:693-698 | `handleAddItem`'s updater: one more row; the old rows in order, then `{description: "", quantity: 1, price: "", discount: 0}` |
| LineItems.WithoutIndex | src/InvoiceGenerator.jsx:702 | `items.filter((_, i) => i !== idx)`: the rows before idx followed by the rows after it; an index outside the list changes nothing |
| LineItems.RemoveItem | src/InvoiceGenerator.jsx:700-704 | `handleRemoveItem`: with more than one row, exactly row idx is dropped and the order of the rest is kept; with one row nothing changes, so a non-empty list stays non-empty |
| LineItems.RemoveUndoesAdd | src/InvoiceGenerator.jsx:693-704 | removing the row just added gives back the list it was added to |
| LineItems.ChangeItemIdempotent | src/InvoiceGenerator.jsx:673-691 | submitting the same edit twice has the effect of submitting it once |
| LineItems.SameDescriptionIsNoOp | src/InvoiceGenerator.jsx:673-691 | typing back the description a row already has leaves the list unchanged |
| LineItems.ClearedInputs | src/InvoiceGenerator.jsx:680-685 | clearing a price input stores an empty price; clearing a quantity or discount input stores 0 |
| Totals.PriceOrZero | src/InvoiceGenerator.jsx:234 | the price as `parseFloat` reads it with 0 as fallback: an empty price counts as 0, a number as itself |
| Totals.TotalsFrom | src/InvoiceGenerator.jsx:237-248 | from the two sums: totalDiscount is 0 with the discount section hidden and otherwise the row discounts plus subtotal × discount / 100; afterDiscount is subtotal − totalDiscount; tax is 0 with the tax section hidden and otherwise afterDiscount × rate / 100; grandTotal is afterDiscount + tax, which with tax shown is afterDiscount × (1 + rate / 100) |
| Totals.ComputeTotals | src/InvoiceGenerator.jsx:233-248 | subtotal is the fold of quantity × price; totalDiscount is 0 with the discount section hidden and otherwise the row discounts plus subtotal × discount / 100; afterDiscount is subtotal − totalDiscount; tax is 0 with the tax section hidden; grandTotal is afterDiscount × (1 + rate / 100) with tax shown, and in every case subtotal − totalDiscount + tax |
| Totals.BlankPriceContributesNothing | src/InvoiceGenerator.jsx:233-236 | emptying one row's price lowers the subtotal by exactly that row's line total: an empty price counts as 0 |
| Totals.DiscountOffIgnoresDiscounts | src/InvoiceGenerator.jsx:237-245 | with the discount section hidden, neither the rows' percentages nor the global discount affect any total |
| Totals.TaxOffIgnoresRate | src/InvoiceGenerator.jsx:246-248 | with the tax section hidden, the tax rate affects no total |
| Totals.RowFinal | src/InvoiceGenerator.jsx:1017-1022 | the preview's row total: the line total with the discount section hidden, otherwise the line total less the row's own discount; for a non-negative line total and a percentage within 0–100 it lies between 0 and the line total |
| Totals.PreviewRowsAddUp | src/InvoiceGenerator.jsx:1017-1022 | the preview's row totals add up to afterDiscount plus the global discount, which the rows do not show |
| Totals.DiscountWithinSubtotal | src/InvoiceGenerator.jsx:233-245 | for rows with non-negative quantity and price whose own and global percentages stay within 100%, the discounts lie between 0 and the subtotal |
| Totals.TotalsNonNegative | src/InvoiceGenerator.jsx:233-248 | under the same condition and a non-negative tax rate, every total is non-negative and the discount does not exceed the subtotal |
| Totals.DiscountsCanExceedSubtotal | src/InvoiceGenerator.jsx:237-248 | a row at 100% discount with a 10% global discount brings the grand total of a 100 subtotal to −10 |
| Totals.AddItemKeepsTotals | src/InvoiceGenerator.jsx:693-698 | the row "add item" appends is worth nothing: all totals stay the same |
| Totals.RemoveItemTakesRowOff | src/InvoiceGenerator.jsx:700-704 | removing a row takes exactly its line total off the subtotal and its own discount off the row discounts |
| Totals.DescriptionEditKeepsTotals | src/InvoiceGenerator.jsx:673-691 | editing a description never changes any total |
| Totals.ExampleTaxOnly | src/InvoiceGenerator.jsx:233-248 | two units at 50 with 10% tax and discounts hidden give 100, 0, 100, 10, 110 |
| Totals.ExampleDiscountOnly | src/InvoiceGenerator.jsx:233-248 | one unit at 200 with a 50% row discount and a 10% global discount give 200, 120, 80, 0, 80 |
| InvoiceForm.InitialValues | src/InvoiceGenerator.jsx:60-87 | a fresh invoice's values: one blank row, currency USD, tax rate 10, global discount 0, no dates |
| InvoiceForm.Cleared | src/InvoiceGenerator.jsx:148-206 | the values after hiding a section agree with the reset table: each value the section owns takes its reset value, every other value is kept |
| InvoiceForm.Toggled | src/InvoiceGenerator.jsx:141-208 | `toggleField`: the named flag flips and no other; showing a section changes no value; hiding one clears its values |
| InvoiceForm.ResetMatchesInitial | src/InvoiceGenerator.jsx:60-87 | each reset value is the value of a fresh invoice, so a re-shown section starts from the defaults |
| InvoiceForm.ClearedIdempotent | src/InvoiceGenerator.jsx:148-206 | clearing a section twice is the same as clearing it once |
| InvoiceForm.ClearedKeepsItems | src/InvoiceGenerator.jsx:148-206 | hiding any section keeps the rows, their own discount percentages included |
| InvoiceForm.ClearedKeepsTotalsInputs | src/InvoiceGenerator.jsx:148-206 | hiding a section other than tax and discount keeps the rows, the tax rate and the global discount |
| InvoiceForm.ToggleTwice | src/InvoiceGenerator.jsx:141-208 | toggling a section twice restores its flag; the values end up as if the section had been cleared |
| InvoiceForm.HidingResetsOnlyItsOwnValues | src/InvoiceGenerator.jsx:141-208 | hiding a section sets exactly its own values to those of a fresh invoice and keeps all others, the rows included |
| InvoiceForm.ToggleKeepsTotals | src/InvoiceGenerator.jsx:141-208 | toggling a section other than tax and discount leaves the totals unchanged |
| InvoiceForm.RowDiscountsSurviveHiding | src/InvoiceGenerator.jsx:191-193 | after hiding and re-showing the discount section, the total discount is the sum of the rows' own discounts |
| InvoiceForm.Invoice.constructor | src/InvoiceGenerator.jsx:60-118 | a fresh invoice: every section shown, every input at its initial value, one blank row |
| InvoiceForm.Invoice.ToggleField | src/InvoiceGenerator.jsx:141-208 | the new state is `Toggled` of the old one, and the list stays non-empty |
| InvoiceForm.Invoice.HandleItemChange | src/InvoiceGenerator.jsx:673-691 | the rows become `ChangeItem` of the old rows; nothing else changes |
| InvoiceForm.Invoice.HandleAddItem | src/InvoiceGenerator.jsx:693-698 | the rows become `AddItem` of the old rows; nothing else changes |
| InvoiceForm.Invoice.HandleRemoveItem | src/InvoiceGenerator.jsx:700-704 | the rows become `RemoveItem` of the old rows and stay non-empty; nothing else changes |
| Pagination.Ceil | src/InvoiceGenerator.jsx:558 | `Math.ceil`: the least integer not below its argument |
| Pagination.ImageHeight | src/InvoiceGenerator.jsx:550-553 | the scaled image height is positive |
| Pagination.ImageHeightProportional | src/InvoiceGenerator.jsx:550-553 | the scaled image height is the content width times the canvas's height-to-width ratio |
| Pagination.PageCount | src/InvoiceGenerator.jsx:556-558 | one page when the image fits the content height; otherwise at least two, and the least n with image height ≤ n content heights |
| Pagination.PageCountLeast | src/InvoiceGenerator.jsx:556-558 | any number of pages that would hold the image is at least the page count |
| Pagination.Strip | src/InvoiceGenerator.jsx:592-600 | every strip is drawn at (margin, margin), at full content width, with a positive height no taller than the content area |
| Pagination.StripWithinCanvas | src/InvoiceGenerator.jsx:567-573 | strip i starts at canvas row i × (h / n), takes at most h / n rows and ends inside the canvas |
| Pagination.WholePage | src/InvoiceGenerator.jsx:605-617 | the single page holds the whole canvas from row 0, drawn at (margin, margin) and full content width at the image's own scale |
| Pagination.Layout | src/InvoiceGenerator.jsx:556-617 | the pages in the order they are added: as many as the page count |
| Pagination.StripExact | src/InvoiceGenerator.jsx:567-600 | both `Math.min`s are redundant: strip i starts at i × h / n, is h / n pixels high and is drawn image height / n millimetres high |
| Pagination.LayoutContiguous | src/InvoiceGenerator.jsx:567-573 | the strips start at row 0, each starts where the previous one ended, and the last ends at the bottom of the canvas |
| Pagination.LayoutCoversCanvas | src/InvoiceGenerator.jsx:567-573 | the strip heights add up to the canvas height |
| Pagination.LayoutFits | src/InvoiceGenerator.jsx:592-600 | every page is drawn at (margin, margin), at full content width and no taller than the content area |
| Pagination.LayoutUniformScale | src/InvoiceGenerator.jsx:567-600 | every strip is converted from pixels to millimetres at the rate of the whole image, so it keeps the canvas's proportions |
| Pagination.LayoutIncreasing | src/InvoiceGenerator.jsx:561-568 | pages are added at strictly increasing canvas rows |
| Pagination.LayoutWellSplit | src/InvoiceGenerator.jsx:541-618 | the layout has the page count, is contiguous, fits the content area and is uniformly scaled |
| Pagination.Paginate | src/InvoiceGenerator.jsx:541-618 | the export loop emits exactly `Layout`'s pages, which are well split |
| Pagination.ExampleThreePages | src/InvoiceGenerator.jsx:541-618 | a 1000 × 3000 pixel canvas is 600 mm tall and goes onto three pages of 1000 pixel rows |
| ThemeToggle.Cycle | src/components/ui/theme-toggle.jsx:7-11 | dark goes to system, system to light, anything else (light or an unknown string) to dark; the result is always one of the three and always differs from the input |
| ThemeToggle.IconFor | src/components/ui/theme-toggle.jsx:13-17 | a moon exactly for dark, a sun exactly for light, a monitor for anything else |
| ThemeToggle.Press | src/components/ui/theme-toggle.jsx:35-61 | each desktop button sets its own theme, whatever the current one: the dark button exactly gives dark, the system button exactly system, the light button exactly light |
| ThemeToggle.CycleReturns | src/components/ui/theme-toggle.jsx:7-11 | three presses of the mobile button return to the starting theme |
| ThemeToggle.CycleReachesEveryTheme | src/components/ui/theme-toggle.jsx:7-11 | from any theme, known or not, at most three presses reach each theme |
| ThemeToggle.CycleChangesIcon | src/components/ui/theme-toggle.jsx:7-17 | the mobile button's icon changes on every press |
| ThemeToggle.PressIdempotent | src/components/ui/theme-toggle.jsx:35-61 | pressing a desktop button twice is the same as pressing it once, and the icon then shows that button's theme |

## Left out

- Capturing the preview and building the PDF are left out. These are the `html2canvas` and `jsPDF` calls, `toDataURL`, and the off-screen canvas drawing. They are browser I/O and foreign libraries. The model computes only the numbers passed to them.
- The `onclone` colour rewriting of the captured document is left out. It is DOM manipulation.
- Saving to and loading from `localStorage` is left out, and so is `handleClearInvoice` with its `window.confirm`. Both are I/O.
- Drag-and-drop reordering of sections is left out. It is delegated to a library that is not part of this model.
- The logo upload through `FileReader`, the keyboard shortcut listener, and all rendering and styling are left out.
- The `pdfTheme` and `sectionOrder` state is left out. It only affects layout and colours.
- `src/LandingPage.jsx` is left out. It is authentication plumbing and UI with no computation.
- The theme provider that stores the current theme is left out. The current theme is a parameter.
- IEEE floating point is left out. Amounts are exact reals, so rounding, `toFixed(2)` display formatting and the truncation of a fractional canvas height to whole pixels are not modelled.
- JsNumbers.ToNumber: covers exactly the strings a number input reports, the empty string and valid floating-point numbers in the sense of section 2.3.4.3 of the HTML Living Standard. The values are exact, so IEEE rounding and the overflow of a huge exponent to infinity are not modelled. `Number` of other text gives NaN, but no other text reaches it.
- Totals.PriceOrZero: follows `parseFloat(item.price) || 0` only for the values the item handler can store. Those are an empty price or a number; no other text reaches it.
- Line items are set by the initial state, by add-item, by the item handler and by `handleClearInvoice` (`src/InvoiceGenerator.jsx:647`), which puts back one blank row. Each of these stores a number or an empty price. Restoring from `localStorage` (`src/InvoiceGenerator.jsx:273-277`) sets whatever rows were stored; the model assumes they are rows the editor saved, so non-numeric stored values are not modelled.
- The `min` and `max` attributes of the number inputs (`src/InvoiceGenerator.jsx:1803`, `:1821`) do not stop typed values, so the model accepts any number there, negative prices and row percentages above 100 included.
- The global discount has no input in the editor: `setDiscount` is called only by the discount toggle, the restore from storage and the clear handler (`src/InvoiceGenerator.jsx:192`, `:280`, `:650`). The model treats it as any number.
- Strings are sequences of characters, with no normalisation or encoding.
