/** The invoice list page of `client/src/pages/Invoices.tsx`: the tab chosen from
    the location, the combined tab / search / status filter, the per-tab table
    and the status badge. */
module InvoicesPage {
  import opened Common
  import opened Schema
  import opened InvoiceWizard

  /** The tab the page opens on: "purchase" for a location containing "/purchase",
      else "sales" for one containing "/sales", else "purchase". */
  function InitialTab(location: string): (tab: string)
    ensures ValidInvoiceType(tab)
    ensures tab == "sales" <==> !Contains(location, "/purchase") && Contains(location, "/sales")
    ensures tab == "purchase" <==> Contains(location, "/purchase") || !Contains(location, "/sales")
  {
    if Contains(location, "/purchase") then "purchase"
    else if Contains(location, "/sales") then "sales"
    else "purchase"
  }

  /** The page's tab and the wizard's type agree except on a location that mentions
      neither "/purchase" nor "/sales" (such as "/invoices"), where the page shows
      purchases and the wizard creates a sales invoice. */
  lemma TabAndWizardType(location: string)
    ensures InitialTab(location) != WizardInvoiceType(location) <==>
      !Contains(location, "/purchase") && !Contains(location, "/sales")
  {
  }

  /** The number or the customer name, lower-cased, includes the lower-cased search. */
  predicate MatchesSearch(search: string, inv: Invoice) {
    Contains(Lower(inv.number), Lower(search)) || Contains(Lower(inv.customerName), Lower(search))
  }

  /** "all" admits every status; any other filter admits only that status. */
  predicate MatchesStatus(statusFilter: string, inv: Invoice) {
    statusFilter == "all" || inv.status == statusFilter
  }

  predicate Shown(tab: string, search: string, statusFilter: string, inv: Invoice) {
    inv.invoiceType == tab && MatchesSearch(search, inv) && MatchesStatus(statusFilter, inv)
  }

  function ShownFilter(tab: string, search: string, statusFilter: string): Invoice -> bool {
    (inv: Invoice) => Shown(tab, search, statusFilter, inv)
  }

  /** `filteredInvoices`: the invoices of the active tab that match the search and
      the status filter, in list order. */
  function FilteredInvoices(invoices: seq<Invoice>, tab: string, search: string, statusFilter: string): (r: seq<Invoice>)
    ensures forall i :: 0 <= i < |r| ==> r[i].invoiceType == tab
    ensures forall inv :: inv in r <==> inv in invoices && Shown(tab, search, statusFilter, inv)
    ensures forall inv :: multiset(r)[inv] == if Shown(tab, search, statusFilter, inv) then multiset(invoices)[inv] else 0
    ensures IsSubsequence(r, invoices)
  {
    FilterIsSubsequence(invoices, ShownFilter(tab, search, statusFilter));
    FilterMultiset(invoices, ShownFilter(tab, search, statusFilter));
    Filter(invoices, ShownFilter(tab, search, statusFilter))
  }

  function OfType(t: string): Invoice -> bool {
    (inv: Invoice) => inv.invoiceType == t
  }

  /** With an empty search and the "all" status, the filter keeps exactly the
      invoices of the tab. */
  lemma {:induction false} NoSearchNoStatusKeepsTab(invoices: seq<Invoice>, tab: string)
    ensures FilteredInvoices(invoices, tab, "", "all") == Filter(invoices, OfType(tab))
  {
    if invoices != [] {
      NoSearchNoStatusKeepsTab(invoices[1..], tab);
      assert Lower("") == "";
      ContainsEmpty(Lower(invoices[0].number));
    }
  }

  /** A status filter other than "all" keeps exactly the invoices with that status. */
  lemma {:induction false} StatusFilterExact(invoices: seq<Invoice>, tab: string, search: string, status: string, inv: Invoice)
    requires status != "all"
    ensures inv in FilteredInvoices(invoices, tab, search, status) <==>
      inv in FilteredInvoices(invoices, tab, search, "all") && inv.status == status
  {
  }

  /** `renderInvoiceTable(t)`: the filtered invoices re-filtered by type `t`. */
  function TableRows(filtered: seq<Invoice>, t: string): (r: seq<Invoice>)
    ensures forall i :: 0 <= i < |r| ==> r[i].invoiceType == t
  {
    Filter(filtered, OfType(t))
  }

  /** The table of the active tab lists every filtered invoice; the table of the
      other type lists nothing. */
  lemma {:induction false} TableShowsOnlyActiveTab(invoices: seq<Invoice>, tab: string, search: string, statusFilter: string, t: string)
    ensures t == tab ==> TableRows(FilteredInvoices(invoices, tab, search, statusFilter), t) ==
                         FilteredInvoices(invoices, tab, search, statusFilter)
    ensures t != tab ==> TableRows(FilteredInvoices(invoices, tab, search, statusFilter), t) == []
  {
    var f := FilteredInvoices(invoices, tab, search, statusFilter);
    if t == tab {
      FilterAll(f, OfType(t));
    } else {
      FilterNone(f, OfType(t));
    }
  }

  /** The two badges. */
  datatype Badge = PaidBadge | DraftBadge {
    function Label(): string {
      match this
      case PaidBadge => "Ödendi"
      case DraftBadge => "Taslak"
    }
  }

  /** `getStatusBadge`: "paid" shows the paid badge; every other status, the draft one. */
  function StatusBadge(status: string): (b: Badge)
    ensures b == PaidBadge <==> status == "paid"
    ensures b.Label() == "Ödendi" <==> status == "paid"
  {
    if status == "paid" then PaidBadge else DraftBadge
  }
}
