/** The in-memory record store of `server/storage.ts`: two keyed tables,
    customers and invoices, with create / read / update / delete on both, and
    the invoice arithmetic the store applies (line amounts, subtotal, VAT,
    grand total, positional item ids, per-type document numbering). */
module Storage {
  import opened Common
  import opened JsMap
  import opened Schema

  // =====================================================================
  // Invoice arithmetic
  // =====================================================================

  /** Extended amount of one line: quantity × unit price. */
  function LineAmount(item: InvoiceItem): real {
    item.quantity * item.unitPrice
  }

  /** VAT of one line: its extended amount × vatRate / 100. */
  function LineVat(item: InvoiceItem): real {
    LineAmount(item) * item.vatRate / 100.0
  }

  /** The `total` field an item carries. */
  function ItemTotal(item: InvoiceItem): real {
    item.total
  }

  /** Sum of the line amounts, in item order. */
  function Subtotal(items: seq<InvoiceItem>): real {
    Sum(items, LineAmount)
  }

  /** Sum of the line VAT amounts, in item order. */
  function TotalVat(items: seq<InvoiceItem>): real {
    Sum(items, LineVat)
  }

  /** The document totals of an invoice agree with its items. */
  predicate TotalsConsistent(inv: Invoice) {
    inv.subtotal == Subtotal(inv.items) &&
    inv.totalVat == TotalVat(inv.items) &&
    inv.grandTotal == inv.subtotal + inv.totalVat
  }

  /** A valid line has a non-negative amount, and its VAT lies between 0 and that amount. */
  lemma LineBounds(item: InvoiceItem)
    requires ValidItem(item)
    ensures 0.0 <= LineVat(item) <= LineAmount(item)
  {
    var a := LineAmount(item);
    ProductNonNegative(item.quantity, item.unitPrice);
    ProductNonNegative(a, item.vatRate);
    ProductNonNegative(a, 100.0 - item.vatRate);
    assert a * item.vatRate + a * (100.0 - item.vatRate) == a * 100.0;
  }

  lemma ProductNonNegative(x: real, y: real)
    requires x >= 0.0 && y >= 0.0
    ensures x * y >= 0.0
  {
  }

  /** For valid lines: 0 <= totalVat <= subtotal, so subtotal <= grandTotal <= 2 × subtotal. */
  lemma {:induction false} TotalsBounds(items: seq<InvoiceItem>)
    requires forall i :: 0 <= i < |items| ==> ValidItem(items[i])
    ensures 0.0 <= TotalVat(items) <= Subtotal(items)
  {
    forall i | 0 <= i < |items|
      ensures 0.0 <= LineVat(items[i]) <= LineAmount(items[i])
    {
      LineBounds(items[i]);
    }
    SumNonNegative(items, LineVat);
    SumMonotone(items, LineVat, LineAmount);
  }

  /** Lines at 0% VAT contribute no VAT: the grand total is the subtotal. */
  lemma {:induction false} ZeroRateNoVat(items: seq<InvoiceItem>)
    requires forall i :: 0 <= i < |items| ==> items[i].vatRate == 0.0
    ensures TotalVat(items) == 0.0
  {
    if items != [] {
      ZeroRateNoVat(items[..|items| - 1]);
    }
  }

  /** Totals of a concatenation are the sums of the parts' totals. */
  lemma {:induction false} TotalsOfConcat(a: seq<InvoiceItem>, b: seq<InvoiceItem>)
    ensures Subtotal(a + b) == Subtotal(a) + Subtotal(b)
    ensures TotalVat(a + b) == TotalVat(a) + TotalVat(b)
  {
    SumAppend(a, b, LineAmount);
    SumAppend(a, b, LineVat);
  }

  /** The seed invoices' figures: 5 × 1700 and 10 × 1575 at 18%. */
  lemma SeedFigures()
    ensures var laptop := [InvoiceItem("1", "Laptop Bilgisayar", 5.0, 1700.0, 18.0, 8500.0)];
      Subtotal(laptop) == 8500.0 && TotalVat(laptop) == 1530.0
    ensures var material := [InvoiceItem("1", "İnşaat Malzemesi", 10.0, 1575.0, 18.0, 15750.0)];
      Subtotal(material) == 15750.0 && TotalVat(material) == 2835.0
  {
    SumSingle(InvoiceItem("1", "Laptop Bilgisayar", 5.0, 1700.0, 18.0, 8500.0), LineAmount);
    SumSingle(InvoiceItem("1", "Laptop Bilgisayar", 5.0, 1700.0, 18.0, 8500.0), LineVat);
    SumSingle(InvoiceItem("1", "İnşaat Malzemesi", 10.0, 1575.0, 18.0, 15750.0), LineAmount);
    SumSingle(InvoiceItem("1", "İnşaat Malzemesi", 10.0, 1575.0, 18.0, 15750.0), LineVat);
  }

  // =====================================================================
  // Stored items
  // =====================================================================

  /** The stored form of the input line at `index`: id `(index + 1).toString()`,
      total quantity × unitPrice, every other field as given. */
  function StoredItem(item: InvoiceItem, index: nat): InvoiceItem {
    item.(id := DecimalString(index + 1), total := LineAmount(item))
  }

  /** `items.map((item, index) => ({...item, id, total}))` */
  function WithIds(items: seq<InvoiceItem>): seq<InvoiceItem> {
    seq(|items|, i requires 0 <= i < |items| => StoredItem(items[i], i))
  }

  /** The stored items keep the input's order and content, are numbered 1, 2, … by
      position, and carry their own extended amount. */
  lemma {:induction false} StoredItems(items: seq<InvoiceItem>, i: nat)
    requires i < |items|
    ensures |WithIds(items)| == |items|
    ensures ParseDecimal(WithIds(items)[i].id) == i + 1
    ensures WithIds(items)[i].total == items[i].quantity * items[i].unitPrice
    ensures WithIds(items)[i].(id := items[i].id, total := items[i].total) == items[i]
  {
    ParseDecimalString(i + 1);
  }

  /** No two stored items of one invoice share an id. */
  lemma {:induction false} StoredItemIdsDistinct(items: seq<InvoiceItem>, i: nat, j: nat)
    requires i < j < |items|
    ensures WithIds(items)[i].id != WithIds(items)[j].id
  {
    DecimalStringInjective(i + 1, j + 1);
  }

  /** Numbering the items keeps every line's amount, and each stored total is it. */
  lemma {:induction false} StoredAmounts(items: seq<InvoiceItem>)
    ensures Subtotal(WithIds(items)) == Subtotal(items)
    ensures Sum(WithIds(items), ItemTotal) == Subtotal(items)
  {
    var r := WithIds(items);
    assert forall k :: 0 <= k < |r| ==> r[k] == StoredItem(items[k], k);
    SumPointwise(r, LineAmount, items, LineAmount);
    SumPointwise(r, ItemTotal, items, LineAmount);
  }

  /** Numbering the items keeps every line's VAT. */
  lemma {:induction false} StoredVat(items: seq<InvoiceItem>)
    ensures TotalVat(WithIds(items)) == TotalVat(items)
  {
    var r := WithIds(items);
    forall k | 0 <= k < |r| ensures LineVat(r[k]) == LineVat(items[k]) {
      assert r[k] == StoredItem(items[k], k);
    }
    SumPointwise(r, LineVat, items, LineVat);
  }

  /** Numbering the items changes none of the totals, and the stored item totals
      add up to the subtotal. */
  lemma {:induction false} StoredItemTotals(items: seq<InvoiceItem>)
    ensures Subtotal(WithIds(items)) == Subtotal(items)
    ensures TotalVat(WithIds(items)) == TotalVat(items)
    ensures Sum(WithIds(items), ItemTotal) == Subtotal(items)
  {
    StoredAmounts(items);
    StoredVat(items);
  }

  // =====================================================================
  // Document numbering
  // =====================================================================

  /** "ALI" (alış) for purchase, "SAT" (satış) for anything else. */
  function Prefix(invoiceType: string): (p: string)
    ensures |p| == 3
    ensures p == "ALI" <==> invoiceType == "purchase"
  {
    if invoiceType == "purchase" then "ALI" else "SAT"
  }

  /** `s.padStart(width, fill)` */
  function PadStart(s: string, width: nat, fill: char): (r: string)
    ensures |r| == if |s| >= width then |s| else width
    ensures r[|r| - |s|..] == s
    ensures forall i :: 0 <= i < |r| - |s| ==> r[i] == fill
  {
    if |s| >= width then s else seq(width - |s|, _ => fill) + s
  }

  function SameType(t: string): Invoice -> bool {
    (inv: Invoice) => inv.invoiceType == t
  }

  /** How many of `invoices` have type `t`. */
  function CountOfType(invoices: seq<Invoice>, t: string): nat {
    |Filter(invoices, SameType(t))|
  }

  /** `${prefix}-2024-${n.toString().padStart(3, "0")}` */
  function DocumentNumber(invoiceType: string, n: nat): string {
    Prefix(invoiceType) + "-2024-" + PadStart(DecimalString(n), 3, '0')
  }

  /** The sequence number padded to three digits reads back as itself. */
  lemma PaddedNumber(n: nat)
    ensures var padded := PadStart(DecimalString(n), 3, '0');
      |padded| >= 3 && AllDigits(padded) && ParseDecimal(padded) == n &&
      (n < 1000 ==> |padded| == 3) && (n >= 1000 ==> padded == DecimalString(n))
  {
    var d := DecimalString(n);
    var padded := PadStart(d, 3, '0');
    DecimalStringLength(n);
    if |d| < 3 {
      var zeros := padded[..3 - |d|];
      assert padded == zeros + d;
      ParseLeadingZeros(zeros, d);
    }
    ParseDecimalString(n);
  }

  /** Layout of a document number: the type's prefix, "-2024-", then at least three
      digits that read as `n`; below 1000 exactly three, from 1000 on all of `n`. */
  lemma DocumentNumberParts(invoiceType: string, n: nat)
    ensures var num := DocumentNumber(invoiceType, n);
      |num| >= 12 && num[..3] == Prefix(invoiceType) && num[3..9] == "-2024-" &&
      AllDigits(num[9..]) && ParseDecimal(num[9..]) == n &&
      (n < 1000 ==> |num| == 12) &&
      (n >= 1000 ==> num[9..] == DecimalString(n))
  {
    var padded := PadStart(DecimalString(n), 3, '0');
    var num := DocumentNumber(invoiceType, n);
    PaddedNumber(n);
    ConcatParts(Prefix(invoiceType), "-2024-", padded);
  }

  /** Equal arguments give equal document numbers. */
  lemma SameDocumentNumber(t1: string, n1: nat, t2: string, n2: nat)
    requires t1 == t2 && n1 == n2
    ensures DocumentNumber(t1, n1) == DocumentNumber(t2, n2)
  {
  }

  /** Equal document numbers have equal sequence numbers and prefixes. */
  lemma DocumentNumberInjective(t1: string, n1: nat, t2: string, n2: nat)
    ensures DocumentNumber(t1, n1) == DocumentNumber(t2, n2) ==> n1 == n2 && Prefix(t1) == Prefix(t2)
  {
    DocumentNumberParts(t1, n1);
    DocumentNumberParts(t2, n2);
  }

  // =====================================================================
  // Record construction and partial updates
  // =====================================================================

  /** The id a create assigns: the table's size plus one, as a decimal string. */
  function NextId<V>(table: OrderedMap<V>): string {
    DecimalString(table.Size() + 1)
  }

  /** `{...insertCustomer, id, balance: 0}` */
  function NewCustomer(input: InsertCustomer, id: string): (c: Customer)
    ensures CustomerInput(c) == input
    ensures c.id == id && c.balance == Some(0.0) && c.lastInvoiceDate == None
  {
    Customer(id, input.name, input.taxId, input.email, input.phone, input.address, Some(0.0), None)
  }

  /** The invoice `createInvoice` stores, given the invoices already in the table. */
  function NewInvoice(existing: seq<Invoice>, input: InsertInvoice, id: string): (inv: Invoice)
    ensures inv.id == id
    ensures InvoiceInput(inv) == input.(items := WithIds(input.items))
    ensures TotalsConsistent(inv)
  {
    StoredItemTotals(input.items);
    var subtotal := Subtotal(input.items);
    var totalVat := TotalVat(input.items);
    Invoice(id, DocumentNumber(input.invoiceType, CountOfType(existing, input.invoiceType) + 1),
            input.date, input.customerId, input.customerName, input.invoiceType,
            WithIds(input.items), subtotal, totalVat, subtotal + totalVat, input.status)
  }

  /** The number of a new invoice is its type's prefix followed by the count of
      same-type invoices already stored, plus one. */
  lemma {:induction false} NewInvoiceNumber(existing: seq<Invoice>, input: InsertInvoice, id: string)
    ensures var num := NewInvoice(existing, input, id).number;
      num[..3] == Prefix(input.invoiceType) && num[3..9] == "-2024-" &&
      ParseDecimal(num[9..]) == CountOfType(existing, input.invoiceType) + 1
  {
    DocumentNumberParts(input.invoiceType, CountOfType(existing, input.invoiceType) + 1);
  }

  /** A created customer is valid exactly when its input is: the fields the store
      adds (id, balance 0, no last invoice date) are not constrained. */
  lemma NewCustomerValid(input: InsertCustomer, id: string, isEmail: string -> bool)
    ensures ValidCustomer(NewCustomer(input, id), isEmail) <==>
      |input.name| >= 1 && ValidTaxId(input.taxId) && ValidEmail(input.email, isEmail)
  {
    assert CustomerInput(NewCustomer(input, id)) == input;
  }

  /** A created invoice is valid exactly when its input's type, status and items are:
      numbering and totalling the items changes no constrained field. */
  lemma {:induction false} NewInvoiceValid(existing: seq<Invoice>, input: InsertInvoice, id: string)
    ensures ValidInvoice(NewInvoice(existing, input, id)) <==>
      ValidInvoiceType(input.invoiceType) && ValidStatus(input.status) &&
      forall i :: 0 <= i < |input.items| ==> ValidItem(input.items[i])
  {
    var inv := NewInvoice(existing, input, id);
    assert InvoiceInput(inv).items == WithIds(input.items);
    forall i | 0 <= i < |input.items|
      ensures ValidItem(inv.items[i]) <==> ValidItem(input.items[i])
    {
      assert inv.items[i] == StoredItem(input.items[i], i);
    }
    if ValidInvoice(inv) {
      forall i | 0 <= i < |input.items| ensures ValidItem(input.items[i]) {
        assert ValidItem(inv.items[i]);
      }
    }
  }

  /** A partial customer update: `None` leaves a field alone. For the optional fields,
      `Some(None)` is a key supplied as `undefined`, which clears the field. */
  datatype CustomerPatch = CustomerPatch(
    name: Option<string>,
    taxId: Option<string>,
    email: Option<Option<string>>,
    phone: Option<Option<string>>,
    address: Option<Option<string>>)

  /** A partial invoice update; `None` leaves a field alone. */
  datatype InvoicePatch = InvoicePatch(
    date: Option<string>,
    customerId: Option<string>,
    customerName: Option<string>,
    invoiceType: Option<string>,
    items: Option<seq<InvoiceItem>>,
    status: Option<string>)

  /** The spread `{...current, ...supplied}` for one field. */
  function Pick<T>(current: T, supplied: Option<T>): T {
    supplied.GetOr(current)
  }

  /** A field after a spread: the supplied value when the patch has one, the current
      value otherwise. */
  predicate FollowsPatch<T(==)>(merged: T, current: T, supplied: Option<T>) {
    (supplied.Some? ==> merged == supplied.value) && (supplied.None? ==> merged == current)
  }

  /** `{...customer, ...updates}` */
  function MergeCustomer(c: Customer, p: CustomerPatch): (r: Customer)
    ensures r.id == c.id && r.balance == c.balance && r.lastInvoiceDate == c.lastInvoiceDate
    ensures FollowsPatch(r.name, c.name, p.name) && FollowsPatch(r.taxId, c.taxId, p.taxId)
    ensures FollowsPatch(r.email, c.email, p.email) && FollowsPatch(r.phone, c.phone, p.phone)
    ensures FollowsPatch(r.address, c.address, p.address)
    ensures p == CustomerPatch(None, None, None, None, None) ==> r == c
  {
    c.(name := Pick(c.name, p.name), taxId := Pick(c.taxId, p.taxId),
       email := Pick(c.email, p.email), phone := Pick(c.phone, p.phone),
       address := Pick(c.address, p.address))
  }

  /** `{...invoice, ...updates}`, with the three totals recomputed from the new
      items only when `items` is supplied. The supplied items are stored as given. */
  function MergeInvoice(inv: Invoice, p: InvoicePatch): (r: Invoice)
    ensures r.id == inv.id && r.number == inv.number
    ensures FollowsPatch(r.date, inv.date, p.date) && FollowsPatch(r.customerId, inv.customerId, p.customerId)
    ensures FollowsPatch(r.customerName, inv.customerName, p.customerName)
    ensures FollowsPatch(r.invoiceType, inv.invoiceType, p.invoiceType) && FollowsPatch(r.status, inv.status, p.status)
    ensures FollowsPatch(r.items, inv.items, p.items)
    ensures p.items.None? ==> r.subtotal == inv.subtotal && r.totalVat == inv.totalVat && r.grandTotal == inv.grandTotal
    ensures p.items.Some? ==> TotalsConsistent(r)
    ensures TotalsConsistent(inv) ==> TotalsConsistent(r)
    ensures p == InvoicePatch(None, None, None, None, None, None) ==> r == inv
  {
    var merged := inv.(date := Pick(inv.date, p.date),
                       customerId := Pick(inv.customerId, p.customerId),
                       customerName := Pick(inv.customerName, p.customerName),
                       invoiceType := Pick(inv.invoiceType, p.invoiceType),
                       items := Pick(inv.items, p.items),
                       status := Pick(inv.status, p.status));
    if p.items.Some? then
      var subtotal := Subtotal(merged.items);
      var totalVat := TotalVat(merged.items);
      merged.(subtotal := subtotal, totalVat := totalVat, grandTotal := subtotal + totalVat)
    else
      merged
  }

  /** An update with `items` does not renumber or re-total the items: an item whose
      `total` disagrees with quantity × unitPrice is stored as it is. */
  lemma UpdateKeepsSuppliedItemTotals()
    ensures var stale := InvoiceItem("7", "Kalem", 2.0, 50.0, 18.0, 0.0);
      var inv := Invoice("1", "SAT-2024-001", "2024-11-15", "1", "ABC", "sales", [], 0.0, 0.0, 0.0, "draft");
      var r := MergeInvoice(inv, InvoicePatch(None, None, None, None, Some([stale]), None));
      r.items[0].id == "7" && r.items[0].total != LineAmount(r.items[0]) && r.subtotal == 100.0
  {
    var stale := InvoiceItem("7", "Kalem", 2.0, 50.0, 18.0, 0.0);
    SumSingle(stale, LineAmount);
  }

  // =====================================================================
  // Ids
  // =====================================================================

  /** The keys are "1", "2", …, "n" in order: what a table looks like when every
      entry came from a create and nothing was deleted. */
  ghost predicate NeverDeleted<V>(table: OrderedMap<V>) {
    forall i :: 0 <= i < |table.keys| ==> table.keys[i] == DecimalString(i + 1)
  }

  /** Without deletions, the id a create picks is not in use. */
  lemma NextIdFresh<V>(table: OrderedMap<V>)
    requires table.Valid() && NeverDeleted(table)
    ensures !table.Has(NextId(table))
  {
    if table.Has(NextId(table)) {
      var i :| 0 <= i < |table.keys| && table.keys[i] == NextId(table);
      DecimalStringInjective(i + 1, table.Size() + 1);
    }
  }

  /** A create keeps a deletion-free table deletion-free, and appends. */
  lemma CreateKeepsNeverDeleted<V>(table: OrderedMap<V>, v: V)
    requires table.Valid() && NeverDeleted(table)
    ensures NeverDeleted(table.Set(NextId(table), v))
    ensures table.Set(NextId(table), v).Size() == table.Size() + 1
    ensures table.Set(NextId(table), v).Values() == table.Values() + [v]
  {
    NextIdFresh(table);
    SetNewAppends(table, NextId(table), v);
  }

  /** After a deletion, size + 1 can name a live entry, and the create replaces it:
      with "1" and "2" stored and "1" deleted, the next create takes "2" again. */
  lemma IdCollisionAfterDelete<V>(a: V, b: V, c: V)
    ensures var t := EmptyMap<V>().Set("1", a).Set("2", b).Delete("1");
      NextId(t) == "2" && t.Get("2") == Some(b) &&
      t.Set(NextId(t), c).Size() == 1 && t.Set(NextId(t), c).Get("2") == Some(c)
  {
    var t0 := EmptyMap<V>();
    var t1 := t0.Set("1", a);
    var t2 := t1.Set("2", b);
    assert t2.Size() == 2;
    var t := t2.Delete("1");
    assert t.Size() == 1;
    assert DecimalString(2) == "2";
  }

  /** An update that changes an invoice's type keeps its number but takes it out of
      its old type's count: in a new store, after `updateInvoice("1", {type: "sales"})`,
      the next purchase is numbered like the seeded invoice "2". */
  lemma NumberClashAfterTypeChange(input: InsertInvoice)
    requires input.invoiceType == "purchase"
    ensures var retyped := MergeInvoice(SeedInvoices()[0], InvoicePatch(None, None, None, Some("sales"), None, None));
      var created := NewInvoice([retyped, SeedInvoices()[1]], input, "3");
      retyped.number == SeedInvoices()[0].number && created.number == SeedInvoices()[1].number
  {
    var seeds := SeedInvoices();
    var retyped := MergeInvoice(seeds[0], InvoicePatch(None, None, None, Some("sales"), None, None));
    var listed := [retyped, seeds[1]];
    assert listed == [retyped] + [seeds[1]];
    FilterAppend([retyped], [seeds[1]], SameType("purchase"));
    FilterSingle(retyped, SameType("purchase"));
    FilterSingle(seeds[1], SameType("purchase"));
    var counted := CountOfType(listed, "purchase");
    assert counted == 1;
    SecondSeedInvoiceConsistent();
    SameDocumentNumber("purchase", counted + 1, "purchase", 2);
  }

  // =====================================================================
  // Sequential numbering without deletions
  // =====================================================================

  function InputOfType(t: string): InsertInvoice -> bool {
    (input: InsertInvoice) => input.invoiceType == t
  }

  /** The invoice table after `createInvoice` was called on each of `inputs` in turn,
      starting from `start`, a table no delete has touched: the seeded table of
      `new MemStorage()` is one, so is an empty table. Each step is the new state
      `MemStorage.CreateInvoice` ensures. */
  function ReplayCreates(start: OrderedMap<Invoice>, inputs: seq<InsertInvoice>): (table: OrderedMap<Invoice>)
    requires start.Valid() && NeverDeleted(start)
    ensures table.Valid() && NeverDeleted(table) && table.Size() == start.Size() + |inputs|
  {
    if inputs == [] then start
    else
      var prev := ReplayCreates(start, inputs[..|inputs| - 1]);
      var id := NextId(prev);
      var inv := NewInvoice(prev.Values(), inputs[|inputs| - 1], id);
      CreateKeepsNeverDeleted(prev, inv);
      prev.Set(id, inv)
  }

  /** One more create on a table listing `prev`: its invoice goes at the end, with
      the input's type and the next number of that type. */
  function CreateNext(prev: seq<Invoice>, input: InsertInvoice): (r: seq<Invoice>)
    ensures |r| == |prev| + 1 && r[..|prev|] == prev
    ensures r[|prev|] == NewInvoice(prev, input, DecimalString(|prev| + 1))
    ensures r[|prev|].invoiceType == input.invoiceType
    ensures r[|prev|].number == DocumentNumber(input.invoiceType, CountOfType(prev, input.invoiceType) + 1)
  {
    var inv := NewInvoice(prev, input, DecimalString(|prev| + 1));
    assert InvoiceInput(inv).invoiceType == input.invoiceType;
    prev + [inv]
  }

  /** The same history as a list: `base` (the invoices listed at the start), then
      each input as the invoice `createInvoice` builds from it and the invoices
      listed before it. */
  function ReplayInvoices(base: seq<Invoice>, inputs: seq<InsertInvoice>): (r: seq<Invoice>)
    ensures |r| == |base| + |inputs|
  {
    if inputs == [] then base else CreateNext(ReplayInvoices(base, inputs[..|inputs| - 1]), inputs[|inputs| - 1])
  }

  /** Without deletions, `getInvoices` lists the starting invoices, then the created
      ones in creation order. */
  lemma {:induction false} ReplayListsCreated(start: OrderedMap<Invoice>, inputs: seq<InsertInvoice>)
    requires start.Valid() && NeverDeleted(start)
    ensures ReplayCreates(start, inputs).Values() == ReplayInvoices(start.Values(), inputs)
    decreases |inputs|
  {
    if inputs != [] {
      var front, last := inputs[..|inputs| - 1], inputs[|inputs| - 1];
      var prev := ReplayCreates(start, front);
      ReplayListsCreated(start, front);
      var listed := prev.Values();
      assert NextId(prev) == DecimalString(|listed| + 1);
      var inv := NewInvoice(listed, last, NextId(prev));
      CreateKeepsNeverDeleted(prev, inv);
      assert ReplayCreates(start, inputs) == prev.Set(NextId(prev), inv);
      assert ReplayInvoices(start.Values(), inputs) == CreateNext(listed, last);
    }
  }

  /** Each create appends one invoice and never disturbs the earlier ones. */
  lemma {:induction false} ReplayPrefix(base: seq<Invoice>, inputs: seq<InsertInvoice>, k: nat)
    requires k <= |inputs|
    ensures ReplayInvoices(base, inputs)[..|base| + k] == ReplayInvoices(base, inputs[..k])
    decreases |inputs|
  {
    if k < |inputs| {
      var front := inputs[..|inputs| - 1];
      ReplayPrefix(base, front, k);
      assert front[..k] == inputs[..k];
    } else {
      assert inputs[..k] == inputs;
    }
  }

  /** The invoice at position `|base| + i` is the one the i-th create built, from the
      invoices listed before it. */
  lemma {:induction false} ReplayCreatedAt(base: seq<Invoice>, inputs: seq<InsertInvoice>, i: nat)
    requires i < |inputs|
    ensures var prev := ReplayInvoices(base, inputs[..i]);
      |prev| == |base| + i && ReplayInvoices(base, inputs)[|base| + i] == CreateNext(prev, inputs[i])[|prev|]
  {
    var upto := inputs[..i + 1];
    ReplayPrefix(base, inputs, i + 1);
    assert upto[..i] == inputs[..i];
    var created := ReplayInvoices(base, upto);
    assert created == CreateNext(ReplayInvoices(base, inputs[..i]), inputs[i]);
    assert ReplayInvoices(base, inputs)[|base| + i] == created[|base| + i];
  }

  /** Two lists of one length whose elements pass or fail together, position by
      position, have equally many passing elements. */
  lemma {:induction false} FilterCountPointwise<A(!new), B(!new)>(xs: seq<A>, p: A -> bool, ys: seq<B>, q: B -> bool)
    requires |xs| == |ys|
    requires forall k :: 0 <= k < |xs| ==> p(xs[k]) == q(ys[k])
    ensures |Filter(xs, p)| == |Filter(ys, q)|
    decreases |xs|
  {
    if xs != [] {
      FilterCountPointwise(xs[1..], p, ys[1..], q);
    }
  }

  /** Every created invoice keeps the type of the input it was created from. */
  lemma {:induction false} ReplayKeepsTypes(base: seq<Invoice>, inputs: seq<InsertInvoice>)
    ensures forall k :: 0 <= k < |inputs| ==>
      ReplayInvoices(base, inputs)[|base| + k].invoiceType == inputs[k].invoiceType
  {
    forall k | 0 <= k < |inputs|
      ensures ReplayInvoices(base, inputs)[|base| + k].invoiceType == inputs[k].invoiceType
    {
      ReplayCreatedAt(base, inputs, k);
    }
  }

  /** The same-type count after the creates is the count in `base` plus the count
      among the inputs. */
  lemma {:induction false} ReplayCount(base: seq<Invoice>, inputs: seq<InsertInvoice>, t: string)
    ensures CountOfType(ReplayInvoices(base, inputs), t) == CountOfType(base, t) + |Filter(inputs, InputOfType(t))|
  {
    var r := ReplayInvoices(base, inputs);
    var created := r[|base|..];
    ReplayPrefix(base, inputs, 0);
    assert inputs[..0] == [];
    assert r == base + created;
    FilterAppend(base, created, SameType(t));
    ReplayKeepsTypes(base, inputs);
    FilterCountPointwise(created, SameType(t), inputs, InputOfType(t));
  }

  /** The invoice at position `k` carries the next number of its type after the
      invoices listed before it. */
  predicate NumberedAt(list: seq<Invoice>, k: nat)
    requires k < |list|
  {
    list[k].number == DocumentNumber(list[k].invoiceType, CountOfType(list[..k], list[k].invoiceType) + 1)
  }

  /** Every invoice from position `from` on is numbered as a create numbers it. */
  ghost predicate NumberedFrom(list: seq<Invoice>, from: nat) {
    forall k :: from <= k < |list| ==> NumberedAt(list, k)
  }

  /** A create numbers its own invoice and leaves the earlier ones as they were. */
  lemma {:induction false} CreateNextNumbered(prev: seq<Invoice>, input: InsertInvoice, from: nat)
    requires from <= |prev| && NumberedFrom(prev, from)
    ensures NumberedFrom(CreateNext(prev, input), from)
  {
    var r := CreateNext(prev, input);
    forall k | from <= k < |r| ensures NumberedAt(r, k) {
      if k < |prev| {
        assert r[k] == prev[k] && r[..k] == prev[..k];
        assert NumberedAt(prev, k);
      } else {
        assert r[..k] == prev;
      }
    }
  }

  /** Every created invoice is numbered in order; so is the whole list when `base` was. */
  lemma {:induction false} ReplayNumbered(base: seq<Invoice>, inputs: seq<InsertInvoice>)
    ensures NumberedFrom(ReplayInvoices(base, inputs), |base|)
    ensures NumberedFrom(base, 0) ==> NumberedFrom(ReplayInvoices(base, inputs), 0)
    decreases |inputs|
  {
    if inputs != [] {
      var front := inputs[..|inputs| - 1];
      var prev := ReplayInvoices(base, front);
      ReplayNumbered(base, front);
      CreateNextNumbered(prev, inputs[|inputs| - 1], |base|);
      if NumberedFrom(base, 0) {
        CreateNextNumbered(prev, inputs[|inputs| - 1], 0);
      }
    }
  }

  /** The i-th created invoice, of type `t`, is numbered by the invoices of type `t`
      in `base` and the inputs of type `t` before it, plus one. */
  lemma {:induction false} ReplayNumber(base: seq<Invoice>, inputs: seq<InsertInvoice>, i: nat, t: string)
    requires i < |inputs| && inputs[i].invoiceType == t
    ensures ReplayInvoices(base, inputs)[|base| + i].number ==
            DocumentNumber(t, CountOfType(base, t) + |Filter(inputs[..i], InputOfType(t))| + 1)
  {
    var prev := ReplayInvoices(base, inputs[..i]);
    ReplayCreatedAt(base, inputs, i);
    var number := ReplayInvoices(base, inputs)[|base| + i].number;
    var prior := CountOfType(prev, inputs[i].invoiceType);
    assert number == DocumentNumber(inputs[i].invoiceType, prior + 1);
    ReplayCount(base, inputs[..i], t);
    var counted := CountOfType(base, t) + |Filter(inputs[..i], InputOfType(t))|;
    assert prior == counted;
    SameDocumentNumber(inputs[i].invoiceType, prior + 1, t, counted + 1);
  }

  /** A passing element between two prefixes makes the longer prefix's count larger. */
  lemma PrefixCountGrows<T(!new)>(s: seq<T>, i: nat, j: nat, p: T -> bool)
    requires i < j <= |s| && p(s[i])
    ensures |Filter(s[..j], p)| >= |Filter(s[..i], p)| + 1
  {
    var before, between := s[..i], s[i..j];
    assert s[..j] == before + between;
    FilterAppend(before, between, p);
    assert between[0] == s[i];
    assert s[i] in Filter(between, p);
  }

  /** In a list numbered in order, two invoices of one type have different numbers. */
  lemma {:induction false} NumberedUnique(list: seq<Invoice>, i: nat, j: nat)
    requires NumberedFrom(list, 0)
    requires i < j < |list| && list[i].invoiceType == list[j].invoiceType
    ensures list[i].number != list[j].number
  {
    var t := list[i].invoiceType;
    var before, upto := CountOfType(list[..i], t), CountOfType(list[..j], t);
    assert NumberedAt(list, i) && NumberedAt(list, j);
    var first, second := list[i].number, list[j].number;
    assert first == DocumentNumber(t, before + 1);
    assert second == DocumentNumber(t, upto + 1);
    PrefixCountGrows(list, i, j, SameType(t));
    DocumentNumberInjective(t, before + 1, t, upto + 1);
  }

  /** Without deletions, starting from invoices numbered in order, two invoices of one
      type never share a document number, whether seeded or created. */
  lemma {:induction false} NumbersUniqueWithoutDeletion(base: seq<Invoice>, inputs: seq<InsertInvoice>, i: nat, j: nat)
    requires NumberedFrom(base, 0)
    requires var r := ReplayInvoices(base, inputs);
      i < j < |r| && r[i].invoiceType == r[j].invoiceType
    ensures ReplayInvoices(base, inputs)[i].number != ReplayInvoices(base, inputs)[j].number
  {
    ReplayNumbered(base, inputs);
    NumberedUnique(ReplayInvoices(base, inputs), i, j);
  }

  /** When every input has type `t`, the first `i` of them are all counted. */
  lemma OneTypeInputsCount(inputs: seq<InsertInvoice>, t: string, i: nat)
    requires forall k :: 0 <= k < |inputs| ==> inputs[k].invoiceType == t
    requires i <= |inputs|
    ensures |Filter(inputs[..i], InputOfType(t))| == i
  {
    var before := inputs[..i];
    forall k | 0 <= k < |before| ensures InputOfType(t)(before[k]) {
      assert before[k] == inputs[k];
    }
    FilterAll(before, InputOfType(t));
  }

  /** Creating invoices of one type continues that type's numbering: the i-th of them
      gets the count of that type in `base`, plus i + 1. */
  lemma {:induction false} OneTypeNumberedInOrder(base: seq<Invoice>, inputs: seq<InsertInvoice>, t: string, i: nat)
    requires forall k :: 0 <= k < |inputs| ==> inputs[k].invoiceType == t
    requires i < |inputs|
    ensures ReplayInvoices(base, inputs)[|base| + i].number == DocumentNumber(t, CountOfType(base, t) + i + 1)
  {
    ReplayNumber(base, inputs, i, t);
    OneTypeInputsCount(inputs, t, i);
    var counted := CountOfType(base, t) + |Filter(inputs[..i], InputOfType(t))|;
    assert counted == CountOfType(base, t) + i;
    SameDocumentNumber(t, counted + 1, t, CountOfType(base, t) + i + 1);
  }

  // =====================================================================
  // The store
  // =====================================================================

  /** What every reachable store satisfies: both tables are well formed, every
      record is stored under its own id, every customer has a balance, and every
      invoice's totals agree with its items. */
  ghost predicate StoreInvariant(customers: OrderedMap<Customer>, invoices: OrderedMap<Invoice>) {
    customers.Valid() && invoices.Valid() &&
    (forall k :: k in customers.entries ==>
      customers.entries[k].id == k && customers.entries[k].balance.Some?) &&
    (forall k :: k in invoices.entries ==>
      invoices.entries[k].id == k && TotalsConsistent(invoices.entries[k]))
  }

  function SeedCustomers(): seq<Customer> {
    [ Customer("1", "ABC Teknoloji Ltd. Şti.", "1234567890", Some("info@abcteknoloji.com"),
               Some("0532 123 45 67"), Some("Teknokent Mahallesi, İstanbul"), Some(12450.0), Some("2024-11-15")),
      Customer("2", "XYZ İnşaat A.Ş.", "9876543210", Some("contact@xyzinsaat.com"),
               Some("0541 987 65 43"), Some("Merkez Mahallesi, Ankara"), Some(-3250.0), Some("2024-11-08")) ]
  }

  function SeedInvoices(): seq<Invoice> {
    [ Invoice("1", "ALI-2024-001", "2024-11-15", "1", "ABC Teknoloji Ltd. Şti.", "purchase",
              [InvoiceItem("1", "Laptop Bilgisayar", 5.0, 1700.0, 18.0, 8500.0)],
              8500.0, 1530.0, 10030.0, "draft"),
      Invoice("2", "ALI-2024-002", "2024-11-14", "2", "XYZ İnşaat A.Ş.", "purchase",
              [InvoiceItem("1", "İnşaat Malzemesi", 10.0, 1575.0, 18.0, 15750.0)],
              15750.0, 2835.0, 18585.0, "paid") ]
  }

  /** The seed customers are valid records, stored under "1" and "2". */
  lemma SeedCustomersValid(isEmail: string -> bool)
    requires isEmail("info@abcteknoloji.com") && isEmail("contact@xyzinsaat.com")
    ensures forall i :: 0 <= i < |SeedCustomers()| ==>
      ValidCustomer(SeedCustomers()[i], isEmail) && SeedCustomers()[i].id == DecimalString(i + 1)
  {
    assert DecimalString(1) == "1" && DecimalString(2) == "2";
  }

  /** What a create would have produced, for the seed invoice at position `i`. */
  predicate SeedInvoiceConsistent(inv: Invoice, i: nat) {
    ValidInvoice(inv) && TotalsConsistent(inv) && inv.id == DecimalString(i + 1) &&
    inv.items == WithIds(inv.items) && inv.number == DocumentNumber("purchase", i + 1)
  }

  lemma FirstSeedInvoiceConsistent()
    ensures SeedInvoiceConsistent(SeedInvoices()[0], 0)
  {
    SeedFigures();
    assert DecimalString(1) == "1";
    assert PadStart("1", 3, '0') == "001";
    var items := SeedInvoices()[0].items;
    assert WithIds(items)[0] == items[0];
  }

  lemma SecondSeedInvoiceConsistent()
    ensures SeedInvoiceConsistent(SeedInvoices()[1], 1)
  {
    SeedFigures();
    assert DecimalString(2) == "2";
    assert PadStart("2", 3, '0') == "002";
    var items := SeedInvoices()[1].items;
    assert DecimalString(1) == "1";
    assert WithIds(items)[0] == items[0];
  }

  /** The seed invoices follow the rules a create applies: valid, totals agreeing
      with their items, items numbered and totalled, purchase numbers 1 and 2. */
  lemma SeedInvoicesConsistent()
    ensures forall i :: 0 <= i < |SeedInvoices()| ==> SeedInvoiceConsistent(SeedInvoices()[i], i)
  {
    FirstSeedInvoiceConsistent();
    SecondSeedInvoiceConsistent();
  }

  /** The seed holds two purchase invoices and no invoice of any other type. */
  lemma SeedTypeCounts(t: string)
    ensures CountOfType(SeedInvoices(), t) == if t == "purchase" then 2 else 0
  {
    var seeds := SeedInvoices();
    assert seeds == [seeds[0]] + [seeds[1]];
    FilterAppend([seeds[0]], [seeds[1]], SameType(t));
  }

  lemma FirstSeedNumbered()
    ensures NumberedAt(SeedInvoices(), 0)
  {
    var seeds := SeedInvoices();
    FirstSeedInvoiceConsistent();
    assert seeds[..0] == [];
  }

  lemma SecondSeedNumbered()
    ensures NumberedAt(SeedInvoices(), 1)
  {
    var seeds := SeedInvoices();
    SecondSeedInvoiceConsistent();
    assert seeds[..1] == [seeds[0]];
    FilterSingle(seeds[0], SameType("purchase"));
    var counted := CountOfType(seeds[..1], "purchase");
    assert counted == 1;
    SameDocumentNumber("purchase", 2, "purchase", counted + 1);
  }

  /** The seed invoices are numbered as creates would have numbered them. */
  lemma SeedsNumbered()
    ensures NumberedFrom(SeedInvoices(), 0)
  {
    FirstSeedNumbered();
    SecondSeedNumbered();
  }

  /** In a new store, whatever invoices are created and as long as none is deleted,
      two invoices of one type, seeded or created, never share a document number. */
  lemma {:induction false} SeededNumbersUnique(inputs: seq<InsertInvoice>, i: nat, j: nat)
    requires var r := ReplayInvoices(SeedInvoices(), inputs);
      i < j < |r| && r[i].invoiceType == r[j].invoiceType
    ensures ReplayInvoices(SeedInvoices(), inputs)[i].number != ReplayInvoices(SeedInvoices(), inputs)[j].number
  {
    SeedsNumbered();
    NumbersUniqueWithoutDeletion(SeedInvoices(), inputs, i, j);
  }

  /** The third purchase number, spelled out. */
  lemma ThirdPurchaseNumber()
    ensures DocumentNumber("purchase", 3) == "ALI-2024-003"
  {
    assert DecimalString(3) == "3";
    assert PadStart("3", 3, '0') == "003";
  }

  /** In a new store, the purchases created one after another are numbered from 3
      on, after the two seeded ones: the first is ALI-2024-003. */
  lemma {:induction false} SeededPurchasesNumberedFromThree(inputs: seq<InsertInvoice>, i: nat)
    requires forall k :: 0 <= k < |inputs| ==> inputs[k].invoiceType == "purchase"
    requires i < |inputs|
    ensures ReplayInvoices(SeedInvoices(), inputs)[2 + i].number == DocumentNumber("purchase", i + 3)
    ensures i == 0 ==> ReplayInvoices(SeedInvoices(), inputs)[2].number == "ALI-2024-003"
  {
    OneTypeNumberedInOrder(SeedInvoices(), inputs, "purchase", i);
    SeedTypeCounts("purchase");
    var counted := CountOfType(SeedInvoices(), "purchase");
    var number := ReplayInvoices(SeedInvoices(), inputs)[2 + i].number;
    assert number == DocumentNumber("purchase", counted + i + 1);
    SameDocumentNumber("purchase", counted + i + 1, "purchase", i + 3);
    ThirdPurchaseNumber();
  }

  /** In a new store, the first sales invoice created is SAT-2024-001: the seed holds
      no sales invoices. */
  lemma {:induction false} SeededFirstSaleNumberedOne(inputs: seq<InsertInvoice>, i: nat)
    requires forall k :: 0 <= k < |inputs| ==> inputs[k].invoiceType == "sales"
    requires i < |inputs|
    ensures ReplayInvoices(SeedInvoices(), inputs)[2 + i].number == DocumentNumber("sales", i + 1)
  {
    OneTypeNumberedInOrder(SeedInvoices(), inputs, "sales", i);
    SeedTypeCounts("sales");
    var counted := CountOfType(SeedInvoices(), "sales");
    SameDocumentNumber("sales", counted + i + 1, "sales", i + 1);
  }

  lemma SeedCustomerId(i: nat)
    requires i < |SeedCustomers()|
    ensures SeedCustomers()[i].id == DecimalString(i + 1)
  {
    assert DecimalString(1) == "1" && DecimalString(2) == "2";
  }

  lemma SeedInvoiceId(i: nat)
    requires i < |SeedInvoices()|
    ensures SeedInvoices()[i].id == DecimalString(i + 1)
  {
    assert DecimalString(1) == "1" && DecimalString(2) == "2";
  }

  /** `records.forEach(r => map.set(r.id, r))` on a new map, for records whose ids
      are "1", "2", … in list order: the map lists them in that order. */
  method FillTable<V>(records: seq<V>, idOf: V -> string) returns (table: OrderedMap<V>)
    requires forall i :: 0 <= i < |records| ==> idOf(records[i]) == DecimalString(i + 1)
    ensures table.Valid() && NeverDeleted(table)
    ensures table.Values() == records
  {
    table := EmptyMap();
    var i := 0;
    while i < |records|
      invariant 0 <= i <= |records|
      invariant table.Valid() && NeverDeleted(table) && table.Size() == i
      invariant table.Values() == records[..i]
    {
      var r := records[i];
      assert NextId(table) == idOf(r);
      CreateKeepsNeverDeleted(table, r);
      var next := table.Set(idOf(r), r);
      assert next.Values() == records[..i] + [r];
      assert records[..i + 1] == records[..i] + [r];
      table, i := next, i + 1;
    }
    assert records[..i] == records;
  }

  /** Tables filled with the seed records under ids 1, 2, … satisfy the store invariant. */
  lemma SeededTablesKeyed(customers: OrderedMap<Customer>, invoices: OrderedMap<Invoice>)
    requires customers.Valid() && NeverDeleted(customers) && customers.Values() == SeedCustomers()
    requires invoices.Valid() && NeverDeleted(invoices) && invoices.Values() == SeedInvoices()
    ensures StoreInvariant(customers, invoices)
  {
    forall k | k in customers.entries
      ensures customers.entries[k].id == k && customers.entries[k].balance.Some?
    {
      var m :| 0 <= m < |customers.keys| && customers.keys[m] == k;
      ValuesAt(customers, m);
      SeedCustomerId(m);
    }
    forall k | k in invoices.entries
      ensures invoices.entries[k].id == k && TotalsConsistent(invoices.entries[k])
    {
      var m :| 0 <= m < |invoices.keys| && invoices.keys[m] == k;
      ValuesAt(invoices, m);
      SeedInvoiceId(m);
      SeedInvoicesConsistent();
    }
  }

  class MemStorage {
    var customers: OrderedMap<Customer>
    var invoices: OrderedMap<Invoice>

    ghost predicate Valid()
      reads this
    {
      StoreInvariant(customers, invoices)
    }

    /** `new MemStorage()`: empty tables, then `seedData`, inserting each seed
        record under its id in list order. */
    constructor()
      ensures Valid()
      ensures customers.Values() == SeedCustomers() && NeverDeleted(customers)
      ensures invoices.Values() == SeedInvoices() && NeverDeleted(invoices)
    {
      forall i | 0 <= i < |SeedCustomers()| ensures SeedCustomers()[i].id == DecimalString(i + 1) {
        SeedCustomerId(i);
      }
      forall i | 0 <= i < |SeedInvoices()| ensures SeedInvoices()[i].id == DecimalString(i + 1) {
        SeedInvoiceId(i);
      }
      var seededCustomers := FillTable(SeedCustomers(), (c: Customer) => c.id);
      var seededInvoices := FillTable(SeedInvoices(), (inv: Invoice) => inv.id);
      SeededTablesKeyed(seededCustomers, seededInvoices);
      customers := seededCustomers;
      invoices := seededInvoices;
    }

    /** `getCustomers`: every customer, in insertion order. */
    method GetCustomers() returns (r: seq<Customer>)
      requires Valid()
      ensures |r| == customers.Size()
      ensures forall i :: 0 <= i < |r| ==> r[i] == customers.entries[customers.keys[i]] && r[i].id == customers.keys[i]
    {
      r := customers.Values();
      forall i | 0 <= i < |r|
        ensures r[i] == customers.entries[customers.keys[i]] && r[i].id == customers.keys[i]
      {
        ValuesAt(customers, i);
      }
    }

    /** `getCustomer`: the customer stored under `id`, or nothing. */
    method GetCustomer(id: string) returns (r: Option<Customer>)
      requires Valid()
      ensures r.Some? <==> customers.Has(id)
      ensures r.Some? ==> r.value == customers.entries[id] && r.value.id == id
    {
      r := customers.Get(id);
    }

    /** `createCustomer`: store the input under size + 1 with balance 0 and return it.
        An entry already under that id (possible after a delete) is replaced. */
    method CreateCustomer(input: InsertCustomer) returns (c: Customer)
      requires Valid()
      modifies this
      ensures Valid()
      ensures c == NewCustomer(input, NextId(old(customers)))
      ensures customers == old(customers).Set(c.id, c)
      ensures invoices == old(invoices)
      ensures customers.Get(c.id) == Some(c)
    {
      var id := NextId(customers);
      c := NewCustomer(input, id);
      customers := customers.Set(id, c);
    }

    /** `updateCustomer`: merge the supplied fields into the stored customer. */
    method UpdateCustomer(id: string, patch: CustomerPatch) returns (r: Option<Customer>)
      requires Valid()
      modifies this
      ensures Valid()
      ensures invoices == old(invoices)
      ensures !old(customers.Has(id)) ==> r == None && customers == old(customers)
      ensures old(customers.Has(id)) ==>
        r == Some(MergeCustomer(old(customers.entries[id]), patch)) &&
        customers == old(customers).Set(id, r.value)
    {
      var current := customers.Get(id);
      if current.None? {
        return None;
      }
      var updated := MergeCustomer(current.value, patch);
      customers := customers.Set(id, updated);
      r := Some(updated);
    }

    /** `deleteCustomer`: remove `id`; true iff it was present. */
    method DeleteCustomer(id: string) returns (existed: bool)
      requires Valid()
      modifies this
      ensures Valid()
      ensures existed == old(customers.Has(id))
      ensures customers == old(customers).Delete(id)
      ensures invoices == old(invoices)
    {
      existed := customers.Has(id);
      customers := customers.Delete(id);
    }

    /** `getInvoices`: every invoice, in insertion order. */
    method GetInvoices() returns (r: seq<Invoice>)
      requires Valid()
      ensures |r| == invoices.Size()
      ensures forall i :: 0 <= i < |r| ==> r[i] == invoices.entries[invoices.keys[i]] && TotalsConsistent(r[i])
    {
      r := invoices.Values();
      forall i | 0 <= i < |r|
        ensures r[i] == invoices.entries[invoices.keys[i]] && TotalsConsistent(r[i])
      {
        ValuesAt(invoices, i);
      }
    }

    /** `getInvoice`: the invoice stored under `id`, or nothing. */
    method GetInvoice(id: string) returns (r: Option<Invoice>)
      requires Valid()
      ensures r.Some? <==> invoices.Has(id)
      ensures r.Some? ==> r.value == invoices.entries[id] && r.value.id == id && TotalsConsistent(r.value)
    {
      r := invoices.Get(id);
    }

    /** `createInvoice`: number, total and store the input under size + 1. */
    method CreateInvoice(input: InsertInvoice) returns (inv: Invoice)
      requires Valid()
      modifies this
      ensures Valid()
      ensures inv == NewInvoice(old(invoices.Values()), input, NextId(old(invoices)))
      ensures invoices == old(invoices).Set(inv.id, inv)
      ensures customers == old(customers)
      ensures invoices.Get(inv.id) == Some(inv)
    {
      var id := NextId(invoices);
      inv := NewInvoice(invoices.Values(), input, id);
      invoices := invoices.Set(id, inv);
    }

    /** `updateInvoice`: merge the supplied fields; totals follow new items only. */
    method UpdateInvoice(id: string, patch: InvoicePatch) returns (r: Option<Invoice>)
      requires Valid()
      modifies this
      ensures Valid()
      ensures customers == old(customers)
      ensures !old(invoices.Has(id)) ==> r == None && invoices == old(invoices)
      ensures old(invoices.Has(id)) ==>
        r == Some(MergeInvoice(old(invoices.entries[id]), patch)) &&
        invoices == old(invoices).Set(id, r.value)
    {
      var current := invoices.Get(id);
      if current.None? {
        return None;
      }
      var updated := MergeInvoice(current.value, patch);
      invoices := invoices.Set(id, updated);
      r := Some(updated);
    }

    /** `deleteInvoice`: remove `id`; true iff it was present. */
    method DeleteInvoice(id: string) returns (existed: bool)
      requires Valid()
      modifies this
      ensures Valid()
      ensures existed == old(invoices.Has(id))
      ensures invoices == old(invoices).Delete(id)
      ensures customers == old(customers)
    {
      existed := invoices.Has(id);
      invoices := invoices.Delete(id);
    }
  }
}
