/** The header bar of `client/src/components/TopBar.tsx`: the page title, the
    "add" button's label and visibility, and what a click on it opens. */
module TopBar {
  import opened Common
  import opened AppStore

  /** `location === "/invoices" || location.startsWith("/invoices")`, as written. */
  predicate OnInvoices(location: string) {
    location == "/invoices" || StartsWith(location, "/invoices")
  }

  /** A location under "/invoices" has "i" as its second character. */
  lemma InvoicesPrefixShape(location: string)
    ensures StartsWith(location, "/invoices") ==> |location| >= 9 && location[1] == 'i'
  {
    if StartsWith(location, "/invoices") {
      assert location[1] == location[..9][1];
    }
  }

  /** `getPageTitle` */
  function PageTitle(location: string): (title: string)
    ensures location == "/" || location == "/dashboard" ==> title == "Dashboard"
    ensures title == "Cari (Customers)" <==> location == "/customers"
    ensures title == "Faturalar (Invoices)" <==> StartsWith(location, "/invoices")
    ensures title == "Dashboard" <==> location != "/customers" && !StartsWith(location, "/invoices")
  {
    InvoicesPrefixShape(location);
    if location == "/" || location == "/dashboard" then "Dashboard"
    else if location == "/customers" then "Cari (Customers)"
    else if OnInvoices(location) then "Faturalar (Invoices)"
    else "Dashboard"
  }

  /** Every location under the "/invoices" prefix is titled as the invoice page,
      even one such as "/invoicesX" that is not a sub-path. */
  lemma InvoicesPrefixTitle()
    ensures PageTitle("/invoicesX") == "Faturalar (Invoices)"
    ensures PageTitle("/invoices/sales") == "Faturalar (Invoices)"
    ensures PageTitle("/customers/1") == "Dashboard"
  {
    assert StartsWith("/invoicesX", "/invoices");
    assert StartsWith("/invoices/sales", "/invoices");
    assert !StartsWith("/customers/1", "/invoices") by {
      assert "/customers/1"[1] != "/invoices"[1];
    }
  }

  /** `getAddButtonText` */
  function AddButtonText(location: string): (text: string)
    ensures text == "Yeni Müşteri" <==> location == "/customers"
    ensures text == "Yeni Fatura" <==> StartsWith(location, "/invoices")
    ensures text == "Add New" <==> location != "/customers" && !StartsWith(location, "/invoices")
  {
    InvoicesPrefixShape(location);
    if location == "/customers" then "Yeni Müşteri"
    else if OnInvoices(location) then "Yeni Fatura"
    else "Add New"
  }

  /** `showAddButton` */
  predicate ShowAddButton(location: string) {
    location == "/customers" || OnInvoices(location)
  }

  /** The button is shown exactly where it has a label of its own. */
  lemma ShownIffLabelled(location: string)
    ensures ShowAddButton(location) <==> AddButtonText(location) != "Add New"
  {
  }

  datatype AddAction = OpenCustomerModal | OpenInvoiceModal | NoAction

  /** What `handleAddClick` does at `location`. */
  function AddActionAt(location: string): (a: AddAction)
    ensures a == OpenCustomerModal <==> location == "/customers"
    ensures a == OpenInvoiceModal <==> StartsWith(location, "/invoices")
    ensures a != NoAction <==> ShowAddButton(location)
  {
    InvoicesPrefixShape(location);
    if location == "/customers" then OpenCustomerModal
    else if OnInvoices(location) then OpenInvoiceModal
    else NoAction
  }

  /** `handleAddClick`: open the modal the page's add button stands for. */
  method HandleAddClick(store: Store, location: string)
    modifies store
    ensures AddActionAt(location) == OpenCustomerModal ==> store.State() == old(store.State()).(isCustomerModalOpen := true)
    ensures AddActionAt(location) == OpenInvoiceModal ==> store.State() == old(store.State()).(isInvoiceModalOpen := true)
    ensures AddActionAt(location) == NoAction ==> store.State() == old(store.State())
  {
    if location == "/customers" {
      store.SetCustomerModalOpen(true);
    } else if location == "/invoices" || StartsWith(location, "/invoices") {
      store.SetInvoiceModalOpen(true);
    }
  }
}
