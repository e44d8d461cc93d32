/** The client's global UI state (`useAppStore` in `client/src/lib/store.ts`):
    the current page, the two modals with their "editing" slots, and the invoice
    wizard's step and form data. Every setter overwrites one field; the wizard
    reset overwrites three. */
module AppStore {
  import opened Common
  import opened Schema

  /** The wizard's free-form data (`any` in the source; only `{}` is ever stored by
      the store itself). */
  type FormData = map<string, string>

  /** A snapshot of every field of the store. */
  datatype AppState = AppState(
    currentPage: string,
    isCustomerModalOpen: bool,
    editingCustomer: Option<Customer>,
    isInvoiceModalOpen: bool,
    editingInvoice: Option<Invoice>,
    currentInvoiceStep: int,
    invoiceFormData: FormData)

  /** The state the store is created with. */
  function InitialState(): AppState {
    AppState("dashboard", false, None, false, None, 1, map[])
  }

  /** `resetInvoiceWizard`: step back to 1, form data emptied, invoice modal closed;
      every other field as it was. */
  function ResetWizard(s: AppState): (r: AppState)
    ensures r.currentInvoiceStep == 1 && r.invoiceFormData == map[] && !r.isInvoiceModalOpen
    ensures r.currentPage == s.currentPage && r.isCustomerModalOpen == s.isCustomerModalOpen
    ensures r.editingCustomer == s.editingCustomer && r.editingInvoice == s.editingInvoice
  {
    s.(currentInvoiceStep := 1, invoiceFormData := map[], isInvoiceModalOpen := false)
  }

  /** Resetting twice is resetting once. */
  lemma ResetWizardIdempotent(s: AppState)
    ensures ResetWizard(ResetWizard(s)) == ResetWizard(s)
  {
  }

  /** A reset brings back the initial state exactly when the fields it does not
      touch already have their initial values. */
  lemma ResetWizardReachesInitial(s: AppState)
    ensures ResetWizard(s) == InitialState() <==>
      s.currentPage == "dashboard" && !s.isCustomerModalOpen &&
      s.editingCustomer.None? && s.editingInvoice.None?
  {
  }

  class Store {
    var currentPage: string
    var isCustomerModalOpen: bool
    var editingCustomer: Option<Customer>
    var isInvoiceModalOpen: bool
    var editingInvoice: Option<Invoice>
    var currentInvoiceStep: int
    var invoiceFormData: FormData

    function State(): AppState
      reads this
    {
      AppState(currentPage, isCustomerModalOpen, editingCustomer, isInvoiceModalOpen,
               editingInvoice, currentInvoiceStep, invoiceFormData)
    }

    /** `create(...)`: the store starts in the initial state. */
    constructor()
      ensures State() == InitialState()
    {
      currentPage := "dashboard";
      isCustomerModalOpen := false;
      editingCustomer := None;
      isInvoiceModalOpen := false;
      editingInvoice := None;
      currentInvoiceStep := 1;
      invoiceFormData := map[];
    }

    method SetCurrentPage(page: string)
      modifies this
      ensures State() == old(State()).(currentPage := page)
    {
      currentPage := page;
    }

    method SetCustomerModalOpen(open: bool)
      modifies this
      ensures State() == old(State()).(isCustomerModalOpen := open)
    {
      isCustomerModalOpen := open;
    }

    method SetEditingCustomer(customer: Option<Customer>)
      modifies this
      ensures State() == old(State()).(editingCustomer := customer)
    {
      editingCustomer := customer;
    }

    method SetInvoiceModalOpen(open: bool)
      modifies this
      ensures State() == old(State()).(isInvoiceModalOpen := open)
    {
      isInvoiceModalOpen := open;
    }

    method SetEditingInvoice(invoice: Option<Invoice>)
      modifies this
      ensures State() == old(State()).(editingInvoice := invoice)
    {
      editingInvoice := invoice;
    }

    /** Stores any number as given: the store does not clamp the step. */
    method SetCurrentInvoiceStep(step: int)
      modifies this
      ensures State() == old(State()).(currentInvoiceStep := step)
    {
      currentInvoiceStep := step;
    }

    method SetInvoiceFormData(data: FormData)
      modifies this
      ensures State() == old(State()).(invoiceFormData := data)
    {
      invoiceFormData := data;
    }

    method ResetInvoiceWizard()
      modifies this
      ensures State() == ResetWizard(old(State()))
    {
      currentInvoiceStep := 1;
      invoiceFormData := map[];
      isInvoiceModalOpen := false;
    }
  }
}
