/** The shared record shapes of `shared/schema.ts` and the validity rules its
    schemas state: a customer, an invoice line item and an invoice, the input
    shapes that leave out the fields the system assigns, and the predicates a
    record must satisfy to be accepted. */
module Schema {
  import opened Common

  /** A customer record. `balance` is absent only in data that did not pass
      through the schema (the schema supplies 0 for a missing balance). */
  datatype Customer = Customer(
    id: string,
    name: string,
    taxId: string,
    email: Option<string>,
    phone: Option<string>,
    address: Option<string>,
    balance: Option<real>,
    lastInvoiceDate: Option<string>)

  /** Create-customer input: the customer without `id`, `balance` and `lastInvoiceDate`. */
  datatype InsertCustomer = InsertCustomer(
    name: string,
    taxId: string,
    email: Option<string>,
    phone: Option<string>,
    address: Option<string>)

  /** One line of an invoice; `total` is the extended amount the store records. */
  datatype InvoiceItem = InvoiceItem(
    id: string,
    description: string,
    quantity: real,
    unitPrice: real,
    vatRate: real,
    total: real)

  /** An invoice. `invoiceType` is the source's `type` field; it and `status` are
      kept as the strings the store receives, since the store never checks them. */
  datatype Invoice = Invoice(
    id: string,
    number: string,
    date: string,
    customerId: string,
    customerName: string,
    invoiceType: string,
    items: seq<InvoiceItem>,
    subtotal: real,
    totalVat: real,
    grandTotal: real,
    status: string)

  /** Create-invoice input: the invoice without `id`, `number`, `subtotal`,
      `totalVat` and `grandTotal`. */
  datatype InsertInvoice = InsertInvoice(
    date: string,
    customerId: string,
    customerName: string,
    invoiceType: string,
    items: seq<InvoiceItem>,
    status: string)

  /** The insert shape of a stored customer: what a caller could have supplied. */
  function CustomerInput(c: Customer): InsertCustomer {
    InsertCustomer(c.name, c.taxId, c.email, c.phone, c.address)
  }

  /** The insert shape of a stored invoice: what a caller could have supplied. */
  function InvoiceInput(inv: Invoice): InsertInvoice {
    InsertInvoice(inv.date, inv.customerId, inv.customerName, inv.invoiceType, inv.items, inv.status)
  }

  // ---------------------------------------------------------------------
  // Validity
  // ---------------------------------------------------------------------

  /** Tax / national id: 10 or 11 ASCII digits and nothing else. */
  predicate ValidTaxId(taxId: string) {
    (|taxId| == 10 || |taxId| == 11) && AllDigits(taxId)
  }

  /** An email is absent, empty, or passes the library's format check `isEmail`. */
  predicate ValidEmail(email: Option<string>, isEmail: string -> bool) {
    email.None? || email.value == "" || isEmail(email.value)
  }

  /** The balance the schema yields: the given one, or 0 when absent. */
  function BalanceOrZero(balance: Option<real>): (b: real)
    ensures balance.None? ==> b == 0.0
    ensures balance.Some? ==> b == balance.value
  {
    balance.GetOr(0.0)
  }

  predicate ValidCustomer(c: Customer, isEmail: string -> bool) {
    |c.name| >= 1 && ValidTaxId(c.taxId) && ValidEmail(c.email, isEmail)
  }

  predicate ValidItem(item: InvoiceItem) {
    |item.description| >= 1 && item.quantity >= 1.0 && item.unitPrice >= 0.0 &&
    0.0 <= item.vatRate <= 100.0
  }

  predicate ValidInvoiceType(t: string) {
    t == "purchase" || t == "sales"
  }

  predicate ValidStatus(s: string) {
    s == "draft" || s == "paid"
  }

  predicate ValidInvoice(inv: Invoice) {
    ValidInvoiceType(inv.invoiceType) && ValidStatus(inv.status) &&
    forall i :: 0 <= i < |inv.items| ==> ValidItem(inv.items[i])
  }

  /** The regular expression `^[0-9]{lo,hi}$`, read directly: between `lo` and
      `hi` digits, consumed one at a time. */
  predicate MatchesDigitRun(s: string, lo: nat, hi: nat)
    decreases |s|
  {
    if s == [] then lo == 0
    else hi > 0 && IsDigit(s[0]) && MatchesDigitRun(s[1..], if lo > 0 then lo - 1 else 0, hi - 1)
  }

  lemma {:induction false} DigitRunLength(s: string, lo: nat, hi: nat)
    ensures MatchesDigitRun(s, lo, hi) <==> lo <= |s| <= hi && AllDigits(s)
    decreases |s|
  {
    if s != [] && hi > 0 {
      DigitRunLength(s[1..], if lo > 0 then lo - 1 else 0, hi - 1);
      assert AllDigits(s) <==> IsDigit(s[0]) && AllDigits(s[1..]) by {
        if IsDigit(s[0]) && AllDigits(s[1..]) {
          forall i | 0 <= i < |s| ensures IsDigit(s[i]) {
            if i > 0 { assert s[i] == s[1..][i - 1]; }
          }
        }
      }
    }
  }

  /** `ValidTaxId` is the schema's pattern `^[0-9]{10,11}$`. */
  lemma TaxIdIsPattern(taxId: string)
    ensures ValidTaxId(taxId) <==> MatchesDigitRun(taxId, 10, 11)
  {
    DigitRunLength(taxId, 10, 11);
  }
}
