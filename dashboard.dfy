/** The key figures of `client/src/pages/Dashboard.tsx`: customer and invoice
    counts, the outstanding balance and today's paid sales. The current date is
    a parameter. */
module Dashboard {
  import opened Common
  import opened Schema
  import opened Storage

  datatype Kpis = Kpis(totalCustomers: nat, totalInvoices: nat, outstandingBalance: real, todaysSales: real)

  function CustomerBalance(c: Customer): real {
    BalanceOrZero(c.balance)
  }

  /** The sum of all customer balances, a missing balance counting as 0. */
  function OutstandingBalance(customers: seq<Customer>): real {
    Sum(customers, CustomerBalance)
  }

  /** A paid sales invoice dated `today`. */
  predicate IsTodaysSale(today: string, inv: Invoice) {
    inv.date == today && inv.invoiceType == "sales" && inv.status == "paid"
  }

  function TodaysSaleFilter(today: string): Invoice -> bool {
    (inv: Invoice) => IsTodaysSale(today, inv)
  }

  function GrandTotal(inv: Invoice): real {
    inv.grandTotal
  }

  /** The grand totals of today's paid sales invoices, summed in list order. */
  function TodaysSales(invoices: seq<Invoice>, today: string): real {
    Sum(Filter(invoices, TodaysSaleFilter(today)), GrandTotal)
  }

  function ComputeKpis(customers: seq<Customer>, invoices: seq<Invoice>, today: string): (k: Kpis)
    ensures k.totalCustomers == |customers| && k.totalInvoices == |invoices|
    ensures k.outstandingBalance == OutstandingBalance(customers)
    ensures k.todaysSales == TodaysSales(invoices, today)
  {
    Kpis(|customers|, |invoices|, OutstandingBalance(customers), TodaysSales(invoices, today))
  }

  /** An invoice that is not a paid sale of today (a purchase, a draft, another
      day) adds nothing to today's sales, wherever it stands in the list. */
  lemma {:induction false} OtherInvoiceLeavesSales(before: seq<Invoice>, inv: Invoice, after: seq<Invoice>, today: string)
    requires !IsTodaysSale(today, inv)
    ensures TodaysSales(before + [inv] + after, today) == TodaysSales(before + after, today)
  {
    var p := TodaysSaleFilter(today);
    FilterAppend(before + [inv], after, p);
    FilterAppend(before, [inv], p);
    FilterSingle(inv, p);
    FilterAppend(before, after, p);
    assert Filter(before, p) + [] == Filter(before, p);
  }

  /** A paid sale of today adds its grand total. */
  lemma {:induction false} TodaysSaleAdds(before: seq<Invoice>, inv: Invoice, after: seq<Invoice>, today: string)
    requires IsTodaysSale(today, inv)
    ensures TodaysSales(before + [inv] + after, today) == TodaysSales(before + after, today) + inv.grandTotal
  {
    var p := TodaysSaleFilter(today);
    FilterAppend(before + [inv], after, p);
    FilterAppend(before, [inv], p);
    FilterSingle(inv, p);
    FilterAppend(before, after, p);
    SumAppend(Filter(before, p) + [inv], Filter(after, p), GrandTotal);
    SumAppend(Filter(before, p), [inv], GrandTotal);
    SumSingle(inv, GrandTotal);
    SumAppend(Filter(before, p), Filter(after, p), GrandTotal);
  }

  /** Purchase and draft invoices never count toward today's sales. */
  lemma {:induction false} PurchasesAndDraftsDoNotCount(invoices: seq<Invoice>, today: string)
    requires forall i :: 0 <= i < |invoices| ==> invoices[i].invoiceType == "purchase" || invoices[i].status == "draft"
    ensures TodaysSales(invoices, today) == 0.0
  {
    FilterNone(invoices, TodaysSaleFilter(today));
  }

  /** A created customer starts at balance 0, so the outstanding balance does not move. */
  lemma {:induction false} NewCustomerKeepsOutstanding(customers: seq<Customer>, input: InsertCustomer, id: string)
    ensures OutstandingBalance(customers + [NewCustomer(input, id)]) == OutstandingBalance(customers)
  {
    SumAppend(customers, [NewCustomer(input, id)], CustomerBalance);
    SumSingle(NewCustomer(input, id), CustomerBalance);
  }

  /** The "outstanding balance" card shows the size of the balance, whatever its sign. */
  function BalanceCardAmount(customers: seq<Customer>): (r: real)
    ensures r >= 0.0
    ensures r == OutstandingBalance(customers) || r == -OutstandingBalance(customers)
  {
    var b := OutstandingBalance(customers);
    if b < 0.0 then -b else b
  }

  /** With no negative balance and only non-negative grand totals, both sums are
      non-negative and the card shows the balance itself. */
  lemma {:induction false} FiguresNonNegative(customers: seq<Customer>, invoices: seq<Invoice>, today: string)
    requires forall i :: 0 <= i < |customers| ==> CustomerBalance(customers[i]) >= 0.0
    requires forall i :: 0 <= i < |invoices| ==> invoices[i].grandTotal >= 0.0
    ensures OutstandingBalance(customers) >= 0.0
    ensures BalanceCardAmount(customers) == OutstandingBalance(customers)
    ensures TodaysSales(invoices, today) >= 0.0
  {
    SumNonNegative(customers, CustomerBalance);
    var sales := Filter(invoices, TodaysSaleFilter(today));
    forall i | 0 <= i < |sales| ensures GrandTotal(sales[i]) >= 0.0 {
      assert sales[i] in invoices;
    }
    SumNonNegative(sales, GrandTotal);
  }
}
