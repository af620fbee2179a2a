/** The invoice editor's form state: the values of every input, the row list,
    and which optional sections are shown. Hiding a section clears the values
    that belong to it; the item handlers replace the row list by the updaters
    of module LineItems. */
module InvoiceForm {
  import opened LineItems
  import Totals

  datatype Option<T> = None | Some(value: T)

  /** A day chosen in a date picker. */
  datatype CalendarDate = CalendarDate(year: int, month: int, day: int)

  /** The sixteen sections the user can show or hide. */
  datatype OptionalField =
    | CompanyName | CompanyAddress | CompanyContact | ClientName | ClientAddress
    | InvoiceNumber | InvoiceTitle | Currency | Date | DueDate | Notes | Logo
    | Tax | Discount | Payment | Terms

  /** The value of every input of the form, as one record. */
  datatype FormValues = FormValues(
    companyName: string, companyAddress: string,
    companyWebsite: string, companyEmail: string, companyPhone: string,
    clientName: string, clientAddress: string,
    invoiceNumber: string, invoiceTitle: string,
    date: Option<CalendarDate>, dueDate: Option<CalendarDate>,
    notes: string, currency: string, items: seq<LineItem>, logo: string,
    taxRate: real, discount: real,
    paymentMethod: string, bankName: string, accountNumber: string,
    accountName: string, routingNumber: string, terms: string)

  datatype FormState = FormState(active: set<OptionalField>, values: FormValues)

  /** A fresh invoice: every section shown, every input empty, one blank
      row, US dollars, 10% tax and no global discount. */
  function InitialValues(): (v: FormValues)
    ensures v.items == [DefaultItem()]
    ensures v.currency == "USD" && v.taxRate == 10.0 && v.discount == 0.0
    ensures v.date == None && v.dueDate == None
  {
    FormValues("", "", "", "", "", "", "", "", "", None, None, "", "USD",
               [DefaultItem()], "", 10.0, 0.0, "", "", "", "", "", "")
  }

  function AllFields(): set<OptionalField> {
    {CompanyName, CompanyAddress, CompanyContact, ClientName, ClientAddress,
     InvoiceNumber, InvoiceTitle, Currency, Date, DueDate, Notes, Logo,
     Tax, Discount, Payment, Terms}
  }

  function InitialState(): FormState {
    FormState(AllFields(), InitialValues())
  }

  // ---------------------------------------------------------------------
  // The reset table: which section each stored value belongs to, and the
  // value it takes when that section is hidden.

  /** One stored value of the form. */
  datatype Slot =
    | CompanyNameSlot | CompanyAddressSlot | CompanyWebsiteSlot | CompanyEmailSlot | CompanyPhoneSlot
    | ClientNameSlot | ClientAddressSlot | InvoiceNumberSlot | InvoiceTitleSlot
    | DateSlot | DueDateSlot | NotesSlot | CurrencySlot | ItemsSlot | LogoSlot
    | TaxRateSlot | DiscountSlot
    | PaymentMethodSlot | BankNameSlot | AccountNumberSlot | AccountNameSlot | RoutingNumberSlot
    | TermsSlot

  datatype Value =
    | TextValue(text: string)
    | DateValue(date: Option<CalendarDate>)
    | RateValue(rate: real)
    | ItemsValue(items: seq<LineItem>)

  function Get(v: FormValues, s: Slot): Value {
    match s
    case CompanyNameSlot => TextValue(v.companyName)
    case CompanyAddressSlot => TextValue(v.companyAddress)
    case CompanyWebsiteSlot => TextValue(v.companyWebsite)
    case CompanyEmailSlot => TextValue(v.companyEmail)
    case CompanyPhoneSlot => TextValue(v.companyPhone)
    case ClientNameSlot => TextValue(v.clientName)
    case ClientAddressSlot => TextValue(v.clientAddress)
    case InvoiceNumberSlot => TextValue(v.invoiceNumber)
    case InvoiceTitleSlot => TextValue(v.invoiceTitle)
    case DateSlot => DateValue(v.date)
    case DueDateSlot => DateValue(v.dueDate)
    case NotesSlot => TextValue(v.notes)
    case CurrencySlot => TextValue(v.currency)
    case ItemsSlot => ItemsValue(v.items)
    case LogoSlot => TextValue(v.logo)
    case TaxRateSlot => RateValue(v.taxRate)
    case DiscountSlot => RateValue(v.discount)
    case PaymentMethodSlot => TextValue(v.paymentMethod)
    case BankNameSlot => TextValue(v.bankName)
    case AccountNumberSlot => TextValue(v.accountNumber)
    case AccountNameSlot => TextValue(v.accountName)
    case RoutingNumberSlot => TextValue(v.routingNumber)
    case TermsSlot => TextValue(v.terms)
  }

  /** The section a stored value belongs to; the rows belong to none. */
  function Owner(s: Slot): Option<OptionalField> {
    match s
    case CompanyNameSlot => Some(CompanyName)
    case CompanyAddressSlot => Some(CompanyAddress)
    case CompanyWebsiteSlot => Some(CompanyContact)
    case CompanyEmailSlot => Some(CompanyContact)
    case CompanyPhoneSlot => Some(CompanyContact)
    case ClientNameSlot => Some(ClientName)
    case ClientAddressSlot => Some(ClientAddress)
    case InvoiceNumberSlot => Some(InvoiceNumber)
    case InvoiceTitleSlot => Some(InvoiceTitle)
    case DateSlot => Some(Date)
    case DueDateSlot => Some(DueDate)
    case NotesSlot => Some(Notes)
    case CurrencySlot => Some(Currency)
    case ItemsSlot => None
    case LogoSlot => Some(Logo)
    case TaxRateSlot => Some(Tax)
    case DiscountSlot => Some(Discount)
    case PaymentMethodSlot => Some(Payment)
    case BankNameSlot => Some(Payment)
    case AccountNumberSlot => Some(Payment)
    case AccountNameSlot => Some(Payment)
    case RoutingNumberSlot => Some(Payment)
    case TermsSlot => Some(Terms)
  }

  /** The value a slot takes when its section is hidden. */
  function ResetValue(s: Slot): Value
    requires Owner(s).Some?
  {
    match s
    case DateSlot => DateValue(None)
    case DueDateSlot => DateValue(None)
    case CurrencySlot => TextValue("USD")
    case TaxRateSlot => RateValue(10.0)
    case DiscountSlot => RateValue(0.0)
    case _ => TextValue("")
  }

  /** The values after hiding section f: the switch of `toggleField`. */
  function Cleared(v: FormValues, f: OptionalField): (r: FormValues)
    ensures forall s :: Get(r, s) == if Owner(s) == Some(f) then ResetValue(s) else Get(v, s)
  {
    match f
    case CompanyName => v.(companyName := "")
    case CompanyAddress => v.(companyAddress := "")
    case CompanyContact => v.(companyWebsite := "", companyEmail := "", companyPhone := "")
    case ClientName => v.(clientName := "")
    case ClientAddress => v.(clientAddress := "")
    case InvoiceNumber => v.(invoiceNumber := "")
    case InvoiceTitle => v.(invoiceTitle := "")
    case Currency => v.(currency := "USD")
    case Date => v.(date := None)
    case DueDate => v.(dueDate := None)
    case Notes => v.(notes := "")
    case Logo => v.(logo := "")
    case Tax => v.(taxRate := 10.0)
    case Discount => v.(discount := 0.0)
    case Payment => v.(paymentMethod := "", bankName := "", accountNumber := "", accountName := "", routingNumber := "")
    case Terms => v.(terms := "")
  }

  /** `toggleField`: flip the section's flag; if it was shown, clear its values. */
  function Toggled(st: FormState, f: OptionalField): (r: FormState)
    ensures f in r.active <==> f !in st.active
    ensures forall g :: g != f ==> (g in r.active <==> g in st.active)
    ensures f !in st.active ==> r.values == st.values
    ensures f in st.active ==> r.values == Cleared(st.values, f)
  {
    if f in st.active then FormState(st.active - {f}, Cleared(st.values, f))
    else FormState(st.active + {f}, st.values)
  }

  /** The totals block of a form state. */
  function TotalsOf(st: FormState): Totals.Totals {
    Totals.ComputeTotals(st.values.items, Discount in st.active, st.values.discount, Tax in st.active, st.values.taxRate)
  }

  // ---------------------------------------------------------------------
  // Properties of toggling

  /** A hidden section's values are those of a fresh invoice, so showing it
      again starts from the defaults. */
  lemma ResetMatchesInitial(s: Slot)
    requires Owner(s).Some?
    ensures ResetValue(s) == Get(InitialValues(), s)
  {
  }

  /** Clearing a section twice is the same as clearing it once. */
  lemma ClearedIdempotent(v: FormValues, f: OptionalField)
    ensures Cleared(Cleared(v, f), f) == Cleared(v, f)
  {
    match f
    case CompanyName =>
    case CompanyAddress =>
    case CompanyContact =>
    case ClientName =>
    case ClientAddress =>
    case InvoiceNumber =>
    case InvoiceTitle =>
    case Currency =>
    case Date =>
    case DueDate =>
    case Notes =>
    case Logo =>
    case Tax =>
    case Discount =>
    case Payment =>
    case Terms =>
  }

  /** Hiding and showing a section again restores its flag and leaves its
      values cleared; showing and hiding it again does the same. */
  lemma ToggleTwice(st: FormState, f: OptionalField)
    ensures Toggled(Toggled(st, f), f) == FormState(st.active, Cleared(st.values, f))
  {
    if f in st.active {
      assert st.active - {f} + {f} == st.active;
    } else {
      assert st.active + {f} - {f} == st.active;
    }
  }

  /** Hiding a section sets exactly its own values to those of a fresh
      invoice; every other value, the rows included, is kept. */
  lemma HidingResetsOnlyItsOwnValues(st: FormState, f: OptionalField, s: Slot)
    requires f in st.active
    ensures Owner(s) == Some(f) ==> Get(Toggled(st, f).values, s) == Get(InitialValues(), s)
    ensures Owner(s) != Some(f) ==> Get(Toggled(st, f).values, s) == Get(st.values, s)
    ensures Toggled(st, f).values.items == st.values.items
  {
    ClearedKeepsItems(st.values, f);
    var c := Cleared(st.values, f);
    assert Toggled(st, f).values == c;
    assert Get(c, s) == if Owner(s) == Some(f) then ResetValue(s) else Get(st.values, s);
    if Owner(s) == Some(f) {
      ResetMatchesInitial(s);
    }
  }

  /** Hiding a section other than tax and discount leaves the totals as they were. */
  lemma ToggleKeepsTotals(st: FormState, f: OptionalField)
    requires f != Tax && f != Discount
    ensures TotalsOf(Toggled(st, f)) == TotalsOf(st)
  {
    var r := Toggled(st, f);
    ClearedKeepsTotalsInputs(st.values, f);
    assert r.values.items == st.values.items;
    assert r.values.discount == st.values.discount && r.values.taxRate == st.values.taxRate;
    assert (Discount in r.active) == (Discount in st.active);
    assert (Tax in r.active) == (Tax in st.active);
  }

  /** The rows belong to no section: hiding any section keeps them. */
  lemma ClearedKeepsItems(v: FormValues, f: OptionalField)
    ensures Cleared(v, f).items == v.items
  {
    match f
    case CompanyName =>
    case CompanyAddress =>
    case CompanyContact =>
    case ClientName =>
    case ClientAddress =>
    case InvoiceNumber =>
    case InvoiceTitle =>
    case Currency =>
    case Date =>
    case DueDate =>
    case Notes =>
    case Logo =>
    case Tax =>
    case Discount =>
    case Payment =>
    case Terms =>
  }

  /** Only the tax and discount sections own an input of the totals. */
  lemma ClearedKeepsTotalsInputs(v: FormValues, f: OptionalField)
    requires f != Tax && f != Discount
    ensures Cleared(v, f).items == v.items
    ensures Cleared(v, f).discount == v.discount && Cleared(v, f).taxRate == v.taxRate
  {
    ClearedKeepsItems(v, f);
    assert Get(Cleared(v, f), DiscountSlot) == Get(v, DiscountSlot);
    assert Get(Cleared(v, f), TaxRateSlot) == Get(v, TaxRateSlot);
  }

  /** Hiding and re-showing the discount section resets the global discount
      but keeps every row's own percentage, and those count again. */
  lemma RowDiscountsSurviveHiding(st: FormState)
    requires Discount in st.active
    ensures TotalsOf(Toggled(Toggled(st, Discount), Discount)).totalDiscount
         == Totals.ItemDiscounts(st.values.items)
  {
    ToggleTwice(st, Discount);
  }

  // ---------------------------------------------------------------------
  // The component's state

  class Invoice {
    /** The values of the form's inputs, each a `useState` of the component. */
    var values: FormValues
    /** `activeFields`: the sections currently shown. */
    var activeFields: set<OptionalField>

    function State(): FormState
      reads this
    {
      FormState(activeFields, values)
    }

    /** The form always has at least one row. */
    ghost predicate Valid()
      reads this
    {
      |values.items| >= 1
    }

    constructor ()
      ensures Valid() && State() == InitialState()
    {
      values := InitialValues();
      activeFields := AllFields();
    }

    method ToggleField(f: OptionalField)
      requires Valid()
      modifies this
      ensures Valid()
      ensures State() == Toggled(old(State()), f)
    {
      var wasShown := f in activeFields;
      activeFields := if wasShown then activeFields - {f} else activeFields + {f};
      if wasShown {
        match f {
          case CompanyName => values := values.(companyName := "");
          case CompanyAddress => values := values.(companyAddress := "");
          case CompanyContact =>
            values := values.(companyWebsite := "");
            values := values.(companyEmail := "");
            values := values.(companyPhone := "");
          case ClientName => values := values.(clientName := "");
          case ClientAddress => values := values.(clientAddress := "");
          case InvoiceNumber => values := values.(invoiceNumber := "");
          case InvoiceTitle => values := values.(invoiceTitle := "");
          case Currency => values := values.(currency := "USD");
          case Date => values := values.(date := None);
          case DueDate => values := values.(dueDate := None);
          case Notes => values := values.(notes := "");
          case Logo => values := values.(logo := "");
          case Tax => values := values.(taxRate := 10.0);
          case Discount => values := values.(discount := 0.0);
          case Payment =>
            values := values.(paymentMethod := "");
            values := values.(bankName := "");
            values := values.(accountNumber := "");
            values := values.(accountName := "");
            values := values.(routingNumber := "");
          case Terms => values := values.(terms := "");
        }
      }
    }

    method HandleItemChange(idx: int, field: ItemField, value: string)
      requires Valid() && AcceptsInput(field, value)
      modifies this
      ensures Valid()
      ensures State() == old(State()).(values := old(values).(items := ChangeItem(old(values.items), idx, field, value)))
    {
      values := values.(items := ChangeItem(values.items, idx, field, value));
    }

    method HandleAddItem()
      requires Valid()
      modifies this
      ensures Valid()
      ensures State() == old(State()).(values := old(values).(items := AddItem(old(values.items))))
    {
      values := values.(items := AddItem(values.items));
    }

    method HandleRemoveItem(idx: int)
      requires Valid()
      modifies this
      ensures Valid()
      ensures State() == old(State()).(values := old(values).(items := RemoveItem(old(values.items), idx)))
    {
      if |values.items| > 1 {
        values := values.(items := WithoutIndex(values.items, idx));
      }
    }
  }
}
