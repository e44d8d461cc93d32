/** The three-step "new invoice" wizard of `client/src/components/InvoiceWizard.tsx`:
    the invoice type it derives from the location, the customer autocomplete filter,
    the editable item list with its running totals, and the step machine it drives
    through the app store. */
module InvoiceWizard {
  import opened Common
  import opened Schema
  import opened Storage
  import opened AppStore

  // =====================================================================
  // Invoice type and customer search
  // =====================================================================

  /** The wizard creates a purchase invoice on any location containing "/purchase",
      and a sales invoice everywhere else. */
  function WizardInvoiceType(location: string): (t: string)
    ensures ValidInvoiceType(t)
    ensures t == "purchase" <==> Contains(location, "/purchase")
    ensures t == "sales" <==> !Contains(location, "/purchase")
  {
    if Contains(location, "/purchase") then "purchase" else "sales"
  }

  /** A customer is suggested when its lower-cased name includes the lower-cased
      search, or its tax id includes the search as typed. */
  predicate SuggestCustomer(search: string, c: Customer) {
    Contains(Lower(c.name), Lower(search)) || Contains(c.taxId, search)
  }

  function SuggestionFilter(search: string): Customer -> bool {
    (c: Customer) => SuggestCustomer(search, c)
  }

  /** `filteredCustomers`: the suggested customers, in list order. */
  function SuggestedCustomers(customers: seq<Customer>, search: string): (r: seq<Customer>)
    ensures forall c :: c in r <==> c in customers && SuggestCustomer(search, c)
    ensures forall c :: multiset(r)[c] == if SuggestCustomer(search, c) then multiset(customers)[c] else 0
    ensures IsSubsequence(r, customers)
  {
    FilterIsSubsequence(customers, SuggestionFilter(search));
    FilterMultiset(customers, SuggestionFilter(search));
    Filter(customers, SuggestionFilter(search))
  }

  /** An empty search suggests every customer. */
  lemma {:induction false} EmptySearchSuggestsAll(customers: seq<Customer>)
    ensures SuggestedCustomers(customers, "") == customers
  {
    forall i | 0 <= i < |customers|
      ensures SuggestionFilter("")(customers[i])
    {
      assert Lower("") == "";
      ContainsEmpty(Lower(customers[i].name));
    }
    FilterAll(customers, SuggestionFilter(""));
  }

  // =====================================================================
  // Items and totals
  // =====================================================================

  /** One row of the item table as the form holds it. A numeric field is `None`
      when the input holds no number (empty, `NaN`); the form reads such a field
      as `x || 0`. */
  datatype FormItem = FormItem(
    description: string,
    quantity: Option<real>,
    unitPrice: Option<real>,
    vatRate: Option<real>)

  /** The row `addItem` appends and the form starts with. */
  const DefaultItem: FormItem := FormItem("", Some(1.0), Some(0.0), Some(18.0))

  /** `x || 0` */
  function OrZero(x: Option<real>): (r: real)
    ensures x.Some? ==> r == x.value
    ensures x.None? ==> r == 0.0
  {
    x.GetOr(0.0)
  }

  /** The row total shown in the table and summed into the subtotal. */
  function RowAmount(item: FormItem): real {
    OrZero(item.quantity) * OrZero(item.unitPrice)
  }

  /** The VAT of one row: its amount times `(vatRate || 0) / 100`. */
  function RowVat(item: FormItem): real {
    RowAmount(item) * (OrZero(item.vatRate) / 100.0)
  }

  function DisplaySubtotal(items: seq<FormItem>): real {
    Sum(items, RowAmount)
  }

  function DisplayTotalVat(items: seq<FormItem>): real {
    Sum(items, RowVat)
  }

  function DisplayGrandTotal(items: seq<FormItem>): real {
    DisplaySubtotal(items) + DisplayTotalVat(items)
  }

  /** The form row carries exactly the numbers of the stored item. */
  predicate RowCarries(row: FormItem, item: InvoiceItem) {
    row.quantity == Some(item.quantity) && row.unitPrice == Some(item.unitPrice) &&
    row.vatRate == Some(item.vatRate)
  }

  /** For fully filled rows the wizard's figures are the ones the server computes
      when it creates the invoice: same subtotal, VAT and grand total. */
  lemma {:induction false} DisplayMatchesServer(rows: seq<FormItem>, items: seq<InvoiceItem>)
    requires |rows| == |items|
    requires forall i :: 0 <= i < |rows| ==> RowCarries(rows[i], items[i])
    ensures DisplaySubtotal(rows) == Subtotal(items)
    ensures DisplayTotalVat(rows) == TotalVat(items)
    ensures DisplayGrandTotal(rows) == Subtotal(items) + TotalVat(items)
  {
    forall i | 0 <= i < |rows|
      ensures RowAmount(rows[i]) == LineAmount(items[i]) && RowVat(rows[i]) == LineVat(items[i])
    {
      assert RowCarries(rows[i], items[i]);
    }
    SumPointwise(rows, RowAmount, items, LineAmount);
    SumPointwise(rows, RowVat, items, LineVat);
  }

  /** ... and hence the grand total the created invoice is stored with. */
  lemma {:induction false} DisplayedTotalIsStored(rows: seq<FormItem>, existing: seq<Invoice>, input: InsertInvoice, id: string)
    requires |rows| == |input.items|
    requires forall i :: 0 <= i < |rows| ==> RowCarries(rows[i], input.items[i])
    ensures NewInvoice(existing, input, id).grandTotal == DisplayGrandTotal(rows)
    ensures NewInvoice(existing, input, id).subtotal == DisplaySubtotal(rows)
  {
    DisplayMatchesServer(rows, input.items);
    var inv := NewInvoice(existing, input, id);
    assert InvoiceInput(inv).items == WithIds(input.items);
    StoredItemTotals(input.items);
  }

  /** Rows with no negative number show no negative total. */
  lemma {:induction false} DisplayTotalsNonNegative(rows: seq<FormItem>)
    requires forall i :: 0 <= i < |rows| ==>
      OrZero(rows[i].quantity) >= 0.0 && OrZero(rows[i].unitPrice) >= 0.0 && OrZero(rows[i].vatRate) >= 0.0
    ensures 0.0 <= DisplaySubtotal(rows) <= DisplayGrandTotal(rows)
  {
    forall i | 0 <= i < |rows|
      ensures RowAmount(rows[i]) >= 0.0 && RowVat(rows[i]) >= 0.0
    {
      var q, p, v := OrZero(rows[i].quantity), OrZero(rows[i].unitPrice), OrZero(rows[i].vatRate);
      ProductNonNegative(q, p);
      ProductNonNegative(q * p, v / 100.0);
    }
    SumNonNegative(rows, RowAmount);
    SumNonNegative(rows, RowVat);
  }

  // =====================================================================
  // The step machine
  // =====================================================================

  /** `nextStep`: at step 1 nothing happens until a customer is selected; otherwise
      the step advances while it is below 3. */
  function NextStepOf(step: int, customerSelected: bool): (r: int)
    ensures step == 1 && !customerSelected ==> r == step
    ensures r == step + 1 <==> step < 3 && (step != 1 || customerSelected)
    ensures r == step || r == step + 1
  {
    if step == 1 && !customerSelected then step
    else if step < 3 then step + 1
    else step
  }

  /** `prevStep`: the step goes back while it is above 1. */
  function PrevStepOf(step: int): (r: int)
    ensures r == step - 1 <==> step > 1
    ensures r == step || r == step - 1
  {
    if step > 1 then step - 1 else step
  }

  /** A press of "next" (with or without a selected customer) or of "back". */
  datatype StepPress = Next(customerSelected: bool) | Back

  function Press(step: int, press: StepPress): int {
    match press
    case Next(selected) => NextStepOf(step, selected)
    case Back => PrevStepOf(step)
  }

  /** The step after a series of presses. */
  function AfterPresses(step: int, presses: seq<StepPress>): int
    decreases |presses|
  {
    if presses == [] then step else AfterPresses(Press(step, presses[0]), presses[1..])
  }

  /** Starting within 1..3, no series of presses leaves 1..3. */
  lemma {:induction false} StepStaysInRange(step: int, presses: seq<StepPress>)
    requires 1 <= step <= 3
    ensures 1 <= AfterPresses(step, presses) <= 3
    decreases |presses|
  {
    if presses != [] {
      StepStaysInRange(Press(step, presses[0]), presses[1..]);
    }
  }

  /** From step 1 the wizard can only move on by a press made with a customer selected. */
  lemma {:induction false} LeavingStepOneNeedsCustomer(presses: seq<StepPress>)
    requires forall i :: 0 <= i < |presses| ==> presses[i] != Next(true)
    ensures AfterPresses(1, presses) == 1
    decreases |presses|
  {
    if presses != [] {
      assert Press(1, presses[0]) == 1;
      LeavingStepOneNeedsCustomer(presses[1..]);
    }
  }

  /** The "next" button: moves the store's step as `NextStepOf` says, with the
      customer selected in the wizard's form; nothing else changes. */
  method NextStep(store: Store, form: WizardForm)
    modifies store
    ensures store.State() == old(store.State()).(currentInvoiceStep :=
      NextStepOf(old(store.currentInvoiceStep), form.selectedCustomer.Some?))
  {
    if store.currentInvoiceStep == 1 {
      if form.selectedCustomer.None? {
        return;
      }
    }
    if store.currentInvoiceStep < 3 {
      store.SetCurrentInvoiceStep(store.currentInvoiceStep + 1);
    }
  }

  /** The "back" button. */
  method PrevStep(store: Store)
    modifies store
    ensures store.State() == old(store.State()).(currentInvoiceStep := PrevStepOf(old(store.currentInvoiceStep)))
  {
    if store.currentInvoiceStep > 1 {
      store.SetCurrentInvoiceStep(store.currentInvoiceStep - 1);
    }
  }

  // =====================================================================
  // The form
  // =====================================================================

  /** The delete button of a row is offered only while the table has more than one row. */
  predicate RemoveOffered(rowCount: nat) {
    rowCount > 1
  }

  /** The wizard's form and its customer-search state. */
  class WizardForm {
    var date: string
    var customerId: string
    var customerName: string
    var invoiceType: string
    var items: seq<FormItem>
    var status: string
    var customerSearch: string
    var selectedCustomer: Option<Customer>
    var showSuggestions: bool

    /** The item table is never empty. */
    ghost predicate Valid()
      reads this
    {
      |items| >= 1
    }

    /** The form's default values; `today` is the current date as `YYYY-MM-DD`. */
    constructor(location: string, today: string)
      ensures Valid()
      ensures date == today && customerId == "" && customerName == ""
      ensures invoiceType == WizardInvoiceType(location)
      ensures items == [DefaultItem] && status == "draft"
      ensures customerSearch == "" && selectedCustomer.None? && !showSuggestions
    {
      date := today;
      customerId := "";
      customerName := "";
      invoiceType := WizardInvoiceType(location);
      items := [DefaultItem];
      status := "draft";
      customerSearch := "";
      selectedCustomer := None;
      showSuggestions := false;
    }

    /** `addItem`: append the default row. */
    method AddItem()
      requires Valid()
      modifies this
      ensures Valid()
      ensures items == old(items) + [DefaultItem]
      ensures unchanged(this`date, this`customerId, this`customerName, this`invoiceType, this`status)
      ensures unchanged(this`customerSearch, this`selectedCustomer, this`showSuggestions)
    {
      items := items + [DefaultItem];
    }

    /** `remove(index)`, reachable only through a row's delete button. */
    method RemoveItem(index: nat)
      requires Valid() && RemoveOffered(|items|) && index < |items|
      modifies this
      ensures Valid()
      ensures items == old(items)[..index] + old(items)[index + 1..]
      ensures unchanged(this`date, this`customerId, this`customerName, this`invoiceType, this`status)
      ensures unchanged(this`customerSearch, this`selectedCustomer, this`showSuggestions)
    {
      items := items[..index] + items[index + 1..];
    }

    /** The suggestion dropdown is rendered only while the flag is set and the search
        box is not empty. */
    predicate DropdownOpen()
      reads this
    {
      showSuggestions && customerSearch != ""
    }

    /** What the dropdown lists: the suggested customers while it is open, nothing
        otherwise. */
    function DropdownEntries(customers: seq<Customer>): (r: seq<Customer>)
      reads this
      ensures !DropdownOpen() ==> r == []
      ensures DropdownOpen() ==> forall c :: c in r <==> c in customers && SuggestCustomer(customerSearch, c)
    {
      if DropdownOpen() then SuggestedCustomers(customers, customerSearch) else []
    }

    /** Typing in the customer search box. */
    method SearchChanged(text: string)
      requires Valid()
      modifies this
      ensures Valid()
      ensures customerSearch == text && showSuggestions
      ensures DropdownOpen() <==> text != ""
      ensures unchanged(this`date, this`customerId, this`customerName, this`invoiceType, this`status)
      ensures unchanged(this`items, this`selectedCustomer)
    {
      customerSearch := text;
      showSuggestions := true;
    }

    /** Focusing the customer search box. */
    method SearchFocused()
      requires Valid()
      modifies this
      ensures Valid()
      ensures showSuggestions
      ensures DropdownOpen() <==> customerSearch != ""
      ensures unchanged(this`date, this`customerId, this`customerName, this`invoiceType, this`status)
      ensures unchanged(this`items, this`selectedCustomer, this`customerSearch)
    {
      showSuggestions := true;
    }

    /** `handleCustomerSelect`: remember the customer, show its name in the search
        box, hide the suggestions and copy its id and name into the form. */
    method SelectCustomer(c: Customer)
      requires Valid()
      modifies this
      ensures Valid()
      ensures selectedCustomer == Some(c) && customerSearch == c.name && !showSuggestions
      ensures !DropdownOpen()
      ensures customerId == c.id && customerName == c.name
      ensures unchanged(this`date, this`invoiceType, this`items, this`status)
    {
      selectedCustomer := Some(c);
      customerSearch := c.name;
      showSuggestions := false;
      customerId := c.id;
      customerName := c.name;
    }

    /** The "save as draft" and "save as paid" buttons set the status before submitting. */
    method SetStatus(s: string)
      requires Valid() && ValidStatus(s)
      modifies this
      ensures Valid()
      ensures status == s
      ensures unchanged(this`date, this`customerId, this`customerName, this`invoiceType, this`items)
      ensures unchanged(this`customerSearch, this`selectedCustomer, this`showSuggestions)
    {
      status := s;
    }
  }
}
