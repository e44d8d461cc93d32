# Ön Muhasebe (pre-accounting demo) — a Dafny model

This project models the behaviour of a small Turkish pre-accounting web
application. Its server keeps customers and invoices in memory. Its client
lists, filters and creates them.

- **Record store** (`server/storage.ts`, module `Storage`). `MemStorage` is a class with two insertion-ordered tables, modelled on the ES `Map` in module `JsMap`. It supports create, read, update and delete on customers and invoices. Alongside it sit the invoice arithmetic (line amount, subtotal, VAT, grand total), the positional item ids, and the per-type document numbers `ALI-2024-nnn` / `SAT-2024-nnn`.
- **Record shapes and validity rules** (`shared/schema.ts`, module `Schema`).
- **Client UI state** (`client/src/lib/store.ts`, module `AppStore`). A class whose setters overwrite one field each, plus the wizard reset.
- **Invoice wizard** (`client/src/components/InvoiceWizard.tsx`, module `InvoiceWizard`). The type taken from the location, the customer suggestions, the item rows and their running totals, and the three-step navigation.
- **List pages** (`client/src/pages/Invoices.tsx` and `client/src/pages/Customers.tsx`, modules `InvoicesPage` and `CustomersPage`). Their filters, initials, badge and formatting rules.
- **Dashboard figures** (`client/src/pages/Dashboard.tsx`, module `Dashboard`).
- **Header and navigation path rules** (`client/src/components/TopBar.tsx` and `client/src/components/Sidebar.tsx`, modules `TopBar` and `Sidebar`).

`Common` holds the shared helpers, each modelling a JavaScript operation:

- the optional value;
- `startsWith` and `includes`;
- ASCII case folding;
- `Array.prototype.filter`;
- the left fold `reduce((acc, x) => acc + f(x), 0)`;
- `n.toString()` for naturals.

Money and quantities are exact `real` numbers. A numeric form field that
holds no number is `None`, which the client reads as `x || 0`.

The main results:

- A created invoice's totals agree with its items, and every store operation keeps them that way. This includes updates that replace the items.
- Stored items are numbered 1, 2, … by position, and their totals add up to the subtotal.
- A document number is the type prefix, then "-2024-", then the same-type count plus one, padded to three digits. It is never truncated.
- With only creates (no delete, and no update that changes an invoice's type), no two invoices of one type, seeded or created, share a document number. Each type's numbering continues after the invoices already stored. In a new store, which holds two seeded purchases, the first created purchase is ALI-2024-003 and the first created sale is SAT-2024-001.
- After a deletion, size + 1 can name a live record, and the next create overwrites it. This is shown on a concrete table.
- The wizard shows the same subtotal, VAT and grand total that the server stores.
- The wizard step never leaves 1..3 and cannot leave step 1 without a selected customer.
- The filters are order-preserving subsequences. Each keeps every copy of the records its predicate admits, and nothing else.
- Deleting a key from a table keeps the other values in their order.
- The "active" and "inactive" customer lists split the full list.
- `getInitials` equals an independent "first letter of each word" definition.
- No location activates two sidebar items.
- The add button is shown exactly where a click on it opens something.

## Model

| member | source | states |
|---|---|---|
| Schema.ValidTaxId | shared/schema.ts:7 | defines the tax id rule: 10 or 11 characters, all digits (proved equal to the regex by `TaxIdIsPattern`) |
| Schema.ValidEmail | shared/schema.ts:8 | defines the email rule: absent, empty, or accepted by the library's format check |
| Schema.ValidCustomer | shared/schema.ts:4-13 | defines a valid customer: a non-empty name, a valid tax id and a valid email |
| Schema.ValidItem | shared/schema.ts:21-28 | defines a valid item: a non-empty description, quantity at least 1, a non-negative unit price and a VAT rate in 0..100 |
| Schema.ValidInvoiceType | shared/schema.ts:42 | defines the type enum: "purchase" or "sales" |
| Schema.ValidStatus | shared/schema.ts:47 | defines the status enum: "draft" or "paid" |
| Schema.ValidInvoice | shared/schema.ts:36-48 | defines a valid invoice: a valid type, a valid status and valid items |
| Schema.BalanceOrZero | shared/schema.ts:11 | a missing balance reads as 0, a present one as itself |
| Schema.DigitRunLength | shared/schema.ts:7 | the regex reading "between lo and hi digits" holds iff the length is in lo..hi and every character is a digit |
| Schema.TaxIdIsPattern | shared/schema.ts:7 | a tax id is valid iff it matches `^[0-9]{10,11}$` |
| JsMap.EmptyMap | server/storage.ts:24-25 | a new map is well formed, has size 0 and has no key |
| JsMap.OrderedMap.Get | server/storage.ts:116 | `get` returns the entry iff the key is present |
| JsMap.OrderedMap.Set | server/storage.ts:126 | after `set(k, v)`: `get(k)` is v, every other key is unchanged, and size grows by one iff k was new |
| JsMap.OrderedMap.Delete | server/storage.ts:140 | after `delete(k)`: k is absent, every other key is unchanged, and size shrinks by one iff k was present |
| JsMap.OrderedMap.Values | server/storage.ts:112 | `values()` has one entry per key |
| JsMap.ValuesAt | server/storage.ts:112 | `values()` lists the entries in key-insertion order |
| JsMap.SetNewAppends | server/storage.ts:126 | setting a new key appends its value at the end of `values()` |
| JsMap.SetExistingInPlace | server/storage.ts:135 | setting a present key replaces its value in place and moves nothing |
| JsMap.RemoveKey | server/storage.ts:140 | the key list after `delete(k)` holds exactly the old keys other than k |
| JsMap.RemoveAbsentKey | server/storage.ts:140 | deleting a key that is not there leaves the key list as it is |
| JsMap.RemoveKeyAt | server/storage.ts:140 | deleting the key at position p joins the keys before p to the keys after p, in order |
| JsMap.RemoveKeyDistinct | server/storage.ts:140 | deleting keeps the keys free of repeats, shrinks the list by one iff the key was present, and otherwise changes nothing |
| JsMap.DeleteValues | server/storage.ts:140 | after deleting the key at position p, `values()` is the old list without its p-th value, the rest in order |
| JsMap.DeleteAbsentValues | server/storage.ts:140 | deleting an absent key leaves `values()` as it was |
| JsMap.DistinctKeyCount | server/storage.ts:120 | a key list without repeats has as many distinct keys as elements |
| JsMap.SizeIsEntryCount | server/storage.ts:120 | `size` is the number of distinct keys stored |
| Storage.LineAmount | server/storage.ts:158 | defines a line's amount as quantity × unitPrice |
| Storage.LineVat | server/storage.ts:160-161 | defines a line's VAT as its amount × vatRate / 100 |
| Storage.Subtotal | server/storage.ts:158 | defines the subtotal as the fold of the line amounts in item order |
| Storage.TotalVat | server/storage.ts:159-162 | defines totalVat as the fold of the line VAT amounts in item order |
| Storage.LineBounds | server/storage.ts:158-162 | for a valid item, 0 <= line VAT <= line amount |
| Storage.TotalsBounds | server/storage.ts:158-163 | for valid items, 0 <= totalVat <= subtotal |
| Storage.ZeroRateNoVat | server/storage.ts:159-162 | items all at 0% VAT give totalVat 0 |
| Storage.TotalsOfConcat | server/storage.ts:158-162 | subtotal and totalVat of a concatenation are the sums of the parts' |
| Storage.SeedFigures | server/storage.ts:67-79 | 5 × 1700 = 8500 with VAT 1530, and 10 × 1575 = 15750 with VAT 2835 |
| Storage.StoredItem | server/storage.ts:166-170 | defines the stored form of the line at index i: id `(i + 1).toString()`, total quantity × unitPrice, the rest as given |
| Storage.WithIds | server/storage.ts:166-170 | defines the stored item list as StoredItem applied at each position |
| Storage.StoredItems | server/storage.ts:166-170 | stored item i keeps order and every other field, has id reading i + 1, and has total quantity × unitPrice |
| Storage.StoredItemIdsDistinct | server/storage.ts:168 | no two stored items of one invoice share an id |
| Storage.StoredItemTotals | server/storage.ts:158-170 | numbering changes no total, and the stored item totals add up to the subtotal |
| Storage.Prefix | server/storage.ts:154 | the prefix has 3 letters and is "ALI" iff the type is "purchase" |
| Storage.PadStart | server/storage.ts:155 | `padStart` length is max(len, width), the input is the suffix, and the rest is fill |
| Storage.CountOfType | server/storage.ts:153 | defines the same-type count as the length of the type filter over the listed invoices |
| Storage.DocumentNumber | server/storage.ts:155 | defines the number as prefix, "-2024-", then the count padded to three digits (its layout is stated by `DocumentNumberParts`) |
| Storage.DocumentNumberParts | server/storage.ts:153-155 | the number is prefix, "-2024-", then digits reading n; exactly 3 digits below 1000 and all of n (no truncation) from 1000 |
| Storage.DocumentNumberInjective | server/storage.ts:155 | equal numbers have equal counts and prefixes |
| Storage.NextId | server/storage.ts:120 | defines the id a create assigns as `(size + 1).toString()`; the same rule is used at line 152 |
| Storage.NewCustomer | server/storage.ts:121-125 | the stored customer is the input plus the id, balance 0 and no last invoice date |
| Storage.NewCustomerValid | shared/schema.ts:4-15 | a created customer is valid iff its input is |
| Storage.NewInvoice | server/storage.ts:151-180 | the stored invoice is the input with numbered items, and its totals agree with its items |
| Storage.NewInvoiceValid | shared/schema.ts:36-56 | a created invoice is valid iff its input's type, status and items are |
| Storage.NewInvoiceNumber | server/storage.ts:153-155 | the new number reads as the count of same-type invoices plus one, behind the type's prefix |
| Storage.MergeCustomer | server/storage.ts:134 | id, balance and lastInvoiceDate are kept; each of name, taxId, email, phone and address is the supplied value when supplied and the old one otherwise; an empty patch changes nothing |
| Storage.MergeInvoice | server/storage.ts:190-202 | id and number are kept; each of date, customerId, customerName, type, status and items is the supplied value when supplied and the old one otherwise; without items the three totals are kept; with items they are recomputed from them; consistent totals stay consistent; an empty patch changes nothing |
| Storage.UpdateKeepsSuppliedItemTotals | server/storage.ts:190-202 | an update stores a supplied item's stale total and id as given |
| Storage.NextIdFresh | server/storage.ts:120 | with no deletions, size + 1 is not yet a key |
| Storage.CreateKeepsNeverDeleted | server/storage.ts:120-126 | with no deletions, a create keeps the keys "1".."n" and appends its record |
| Storage.IdCollisionAfterDelete | server/storage.ts:152 | after deleting "1" of {"1","2"}, the next create reuses "2" and overwrites the live record |
| Storage.NumberClashAfterTypeChange | server/storage.ts:153-190 | an update that changes an invoice's type keeps its number; in a new store, after retyping invoice "1" as a sale, the next purchase gets the number of seeded invoice "2" |
| Storage.ReplayCreates | server/storage.ts:151-183 | n creates on a table no delete has touched (the seeded one, or an empty one) leave a well-formed table keyed "1".."size", n larger |
| Storage.CreateNext | server/storage.ts:151-183 | one create appends one invoice, keeps the earlier ones, and gives it the input's type and the next number of that type |
| Storage.ReplayInvoices | server/storage.ts:151-183 | the creation history has the starting invoices plus one invoice per input |
| Storage.ReplayListsCreated | server/storage.ts:143-145 | with no deletions, `getInvoices` lists the starting invoices, then the created ones in creation order |
| Storage.ReplayPrefix | server/storage.ts:182 | each create leaves the earlier invoices untouched |
| Storage.ReplayCreatedAt | server/storage.ts:151-182 | the i-th created invoice is the one built from the i-th input and the invoices listed before it |
| Storage.ReplayKeepsTypes | server/storage.ts:172-180 | every created invoice keeps the type of the input it was created from |
| Storage.ReplayCount | server/storage.ts:153 | the same-type count after the creates is the starting count plus the count of same-type inputs |
| Storage.CreateNextNumbered | server/storage.ts:153-155 | a create numbers its invoice after the same-type invoices before it and leaves earlier numbering as it was |
| Storage.ReplayNumbered | server/storage.ts:153-155 | every created invoice is numbered after the same-type invoices before it; so is the whole list when the start was |
| Storage.ReplayNumber | server/storage.ts:153-155 | the i-th created invoice's number uses the starting same-type count plus the earlier same-type inputs, plus one |
| Storage.NumberedUnique | server/storage.ts:153-155 | in a list numbered in order, two invoices of one type have different numbers |
| Storage.NumbersUniqueWithoutDeletion | server/storage.ts:153-155 | with only creates (no delete, and no update that changes a type) from a start numbered in order, two invoices of one type never share a number |
| Storage.OneTypeInputsCount | server/storage.ts:153 | when every input has one type, the first i of them are all counted |
| Storage.OneTypeNumberedInOrder | server/storage.ts:153-155 | invoices of a single type continue that type's numbering: the i-th gets the starting count plus i + 1 |
| Storage.SeedCustomersValid | server/storage.ts:31-52 | the seed customers are valid and stored under "1" and "2" |
| Storage.SeedInvoicesConsistent | server/storage.ts:59-104 | the seed invoices are valid, their totals agree with their items, their items are numbered and totalled, and they are ALI-2024-001 and -002 |
| Storage.SeedTypeCounts | server/storage.ts:59-104 | the seed holds two purchase invoices and none of any other type |
| Storage.SeedsNumbered | server/storage.ts:59-104 | the seed invoices are numbered as creates would have numbered them |
| Storage.SeededNumbersUnique | server/storage.ts:59-108 | in a new store with only creates (no delete, and no update that changes a type), two invoices of one type, seeded or created, never share a number |
| Storage.ThirdPurchaseNumber | server/storage.ts:155 | the third purchase number reads "ALI-2024-003" |
| Storage.SeededPurchasesNumberedFromThree | server/storage.ts:59-108 | in a new store, created purchases are numbered from 3 on; the first is ALI-2024-003 |
| Storage.SeededFirstSaleNumberedOne | server/storage.ts:59-108 | in a new store, created sales are numbered from 1 on, the seed holding none |
| Storage.FillTable | server/storage.ts:54-56 | `forEach(set)` of records with ids "1".."n" lists them in order under those keys |
| Storage.SeededTablesKeyed | server/storage.ts:29-109 | the seeded tables satisfy the store invariant |
| Storage.MemStorage.constructor | server/storage.ts:23-27 | the store starts valid, holding exactly the seed records in order, in tables no delete has touched |
| Storage.MemStorage.GetCustomers | server/storage.ts:111-113 | every stored customer in insertion order, each under its own id |
| Storage.MemStorage.GetCustomer | server/storage.ts:115-117 | the customer under id, or nothing iff absent |
| Storage.MemStorage.CreateCustomer | server/storage.ts:119-128 | stores and returns the new customer under size + 1; the invoices are untouched |
| Storage.MemStorage.UpdateCustomer | server/storage.ts:130-137 | absent id: nothing changes and nothing is returned; present id: the merge is stored and returned |
| Storage.MemStorage.DeleteCustomer | server/storage.ts:139-141 | true iff present; the id is gone and everything else is unchanged |
| Storage.MemStorage.GetInvoices | server/storage.ts:143-145 | every stored invoice in insertion order, with totals agreeing with its items |
| Storage.MemStorage.GetInvoice | server/storage.ts:147-149 | the invoice under id, or nothing iff absent |
| Storage.MemStorage.CreateInvoice | server/storage.ts:151-184 | stores and returns the numbered, totalled invoice under size + 1; the customers are untouched |
| Storage.MemStorage.UpdateInvoice | server/storage.ts:186-206 | absent id: nothing changes; present id: the merge (totals recomputed only with items) is stored and returned |
| Storage.MemStorage.DeleteInvoice | server/storage.ts:208-210 | true iff present; the id is gone and everything else is unchanged |
| AppStore.InitialState | client/src/lib/store.ts:30-47 | defines the initial state: "dashboard", both modals closed, no editing records, step 1, empty form data |
| AppStore.ResetWizard | client/src/lib/store.ts:49-53 | step 1, empty form data, invoice modal closed; page, customer modal and editing slots kept |
| AppStore.ResetWizardIdempotent | client/src/lib/store.ts:49-53 | resetting twice is resetting once |
| AppStore.ResetWizardReachesInitial | client/src/lib/store.ts:30-53 | a reset gives the initial state iff the untouched fields are already initial |
| AppStore.Store.constructor | client/src/lib/store.ts:30-47 | the store's state is the initial state |
| AppStore.Store.SetCurrentPage | client/src/lib/store.ts:31 | only currentPage changes |
| AppStore.Store.SetCustomerModalOpen | client/src/lib/store.ts:35 | only the customer modal flag changes |
| AppStore.Store.SetEditingCustomer | client/src/lib/store.ts:37 | only editingCustomer changes |
| AppStore.Store.SetInvoiceModalOpen | client/src/lib/store.ts:40 | only the invoice modal flag changes |
| AppStore.Store.SetEditingInvoice | client/src/lib/store.ts:42 | only editingInvoice changes |
| AppStore.Store.SetCurrentInvoiceStep | client/src/lib/store.ts:46 | only the step changes, to any number, unclamped |
| AppStore.Store.SetInvoiceFormData | client/src/lib/store.ts:48 | only the form data changes |
| AppStore.Store.ResetInvoiceWizard | client/src/lib/store.ts:49-53 | the state becomes the wizard reset of the old state |
| InvoiceWizard.WizardInvoiceType | client/src/components/InvoiceWizard.tsx:46 | "purchase" iff the location contains "/purchase", else "sales" |
| InvoiceWizard.SuggestCustomer | client/src/components/InvoiceWizard.tsx:78-81 | defines the suggestion test: the lower-cased name includes the lower-cased search, or the tax id includes the search as typed |
| InvoiceWizard.SuggestedCustomers | client/src/components/InvoiceWizard.tsx:78-81 | in order, every copy of the customers passing SuggestCustomer and nothing else |
| InvoiceWizard.EmptySearchSuggestsAll | client/src/components/InvoiceWizard.tsx:78-81 | for an empty search, the value of `filteredCustomers` is every customer (the dropdown is then closed, see DropdownEntries) |
| InvoiceWizard.OrZero | client/src/components/InvoiceWizard.tsx:86 | `x \|\| 0` is x for a number (0 included) and 0 for no number |
| InvoiceWizard.RowAmount | client/src/components/InvoiceWizard.tsx:86 | defines a row's amount as `(quantity \|\| 0) * (unitPrice \|\| 0)` |
| InvoiceWizard.RowVat | client/src/components/InvoiceWizard.tsx:91-92 | defines a row's VAT as its amount × `(vatRate \|\| 0) / 100` |
| InvoiceWizard.DisplaySubtotal | client/src/components/InvoiceWizard.tsx:85-88 | defines the shown subtotal as the fold of the row amounts |
| InvoiceWizard.DisplayTotalVat | client/src/components/InvoiceWizard.tsx:90-94 | defines the shown VAT as the fold of the row VAT amounts |
| InvoiceWizard.DisplayGrandTotal | client/src/components/InvoiceWizard.tsx:96 | defines the shown grand total as subtotal plus VAT |
| InvoiceWizard.DisplayMatchesServer | client/src/components/InvoiceWizard.tsx:85-94 | for filled rows, the shown subtotal, VAT and grand total equal the server's formulas |
| InvoiceWizard.DisplayedTotalIsStored | client/src/components/InvoiceWizard.tsx:96 | the shown grand total and subtotal are the ones the created invoice is stored with |
| InvoiceWizard.DisplayTotalsNonNegative | client/src/components/InvoiceWizard.tsx:85-96 | rows without negative numbers give 0 <= subtotal <= grand total |
| InvoiceWizard.NextStepOf | client/src/components/InvoiceWizard.tsx:137-153 | at step 1 without a customer nothing changes; the step advances by one iff it is below 3 (and, at 1, a customer is selected) |
| InvoiceWizard.PrevStepOf | client/src/components/InvoiceWizard.tsx:155-159 | the step goes back by one iff it is above 1 |
| InvoiceWizard.StepStaysInRange | client/src/components/InvoiceWizard.tsx:150-158 | from 1..3, no series of next/back presses leaves 1..3 |
| InvoiceWizard.LeavingStepOneNeedsCustomer | client/src/components/InvoiceWizard.tsx:138-147 | without a "next" made with a selected customer, the wizard stays at step 1 |
| InvoiceWizard.NextStep | client/src/components/InvoiceWizard.tsx:137-153 | the store's step becomes NextStepOf of the old step, with the customer selected in the wizard's form; nothing else changes |
| InvoiceWizard.PrevStep | client/src/components/InvoiceWizard.tsx:155-159 | the store's step becomes PrevStepOf of the old step; nothing else changes |
| InvoiceWizard.WizardForm.constructor | client/src/components/InvoiceWizard.tsx:41-65 | the form starts with one default row {"", 1, 0, 18}, status draft, type from the location, no customer, an empty search and the flag cleared |
| InvoiceWizard.WizardForm.DropdownOpen | client/src/components/InvoiceWizard.tsx:242 | defines when the dropdown renders: the flag is set and the search is not empty |
| InvoiceWizard.WizardForm.DropdownEntries | client/src/components/InvoiceWizard.tsx:242-257 | a closed dropdown lists nothing; an open one lists exactly the customers suggested for the search |
| InvoiceWizard.WizardForm.AddItem | client/src/components/InvoiceWizard.tsx:128-135 | appends the default row; nothing else changes |
| InvoiceWizard.WizardForm.RemoveItem | client/src/components/InvoiceWizard.tsx:410-416 | removes exactly the chosen row, offered only with more than one row, so the table never empties |
| InvoiceWizard.WizardForm.SearchChanged | client/src/components/InvoiceWizard.tsx:232-235 | records the search text and sets the flag; the dropdown is open iff the text is not empty |
| InvoiceWizard.WizardForm.SearchFocused | client/src/components/InvoiceWizard.tsx:236 | sets the flag; the dropdown is open iff the search is not empty |
| InvoiceWizard.WizardForm.SelectCustomer | client/src/components/InvoiceWizard.tsx:120-126 | selects the customer, puts its name in the search box, clears the flag (closing the dropdown), and copies id and name into the form |
| InvoiceWizard.WizardForm.SetStatus | client/src/components/InvoiceWizard.tsx:518-525 | the save buttons set the status to draft or paid; nothing else changes |
| InvoicesPage.InitialTab | client/src/pages/Invoices.tsx:21-25 | "sales" iff the location has "/sales" and not "/purchase", else "purchase" |
| InvoicesPage.TabAndWizardType | client/src/pages/Invoices.tsx:21-25 | the page tab and the wizard type differ exactly on locations with neither "/purchase" nor "/sales" |
| InvoicesPage.MatchesSearch | client/src/pages/Invoices.tsx:57-58 | defines the search test: the lower-cased number or customer name includes the lower-cased search |
| InvoicesPage.MatchesStatus | client/src/pages/Invoices.tsx:59 | defines the status test: "all", or the invoice's own status |
| InvoicesPage.FilteredInvoices | client/src/pages/Invoices.tsx:55-62 | an order-preserving subsequence, all of the active tab's type, holding every copy of the invoices passing type, search and status, and nothing else |
| InvoicesPage.NoSearchNoStatusKeepsTab | client/src/pages/Invoices.tsx:55-62 | an empty search with "all" keeps exactly the tab's invoices |
| InvoicesPage.StatusFilterExact | client/src/pages/Invoices.tsx:59 | a status other than "all" keeps exactly the invoices with that status |
| InvoicesPage.TableRows | client/src/pages/Invoices.tsx:86 | a table lists only invoices of its own type |
| InvoicesPage.TableShowsOnlyActiveTab | client/src/pages/Invoices.tsx:85-86 | the active tab's table lists all filtered invoices; the other table lists none |
| InvoicesPage.StatusBadge | client/src/pages/Invoices.tsx:78-83 | "Ödendi" iff the status is "paid", "Taslak" otherwise |
| CustomersPage.MatchesSearch | client/src/pages/Customers.tsx:47-49 | defines the search test: the lower-cased name includes the lower-cased search, or the tax id includes it as typed, or a non-empty email does, lower-cased |
| CustomersPage.MatchesStatus | client/src/pages/Customers.tsx:52-54 | defines the status test: "all"; "active" with balance (missing as 0) at least 0; "inactive" with it below 0 |
| CustomersPage.FilteredCustomers | client/src/pages/Customers.tsx:46-57 | an order-preserving subsequence holding every copy of the customers matching the search (name, tax id, non-empty email) and the status, and nothing else |
| CustomersPage.ActiveInactivePartition | client/src/pages/Customers.tsx:52-54 | under any search, the active and inactive counts add up to the "all" count |
| CustomersPage.NoSearchShowsAll | client/src/pages/Customers.tsx:46-57 | an empty search with "all" shows everyone |
| CustomersPage.UnknownStatusShowsNone | client/src/pages/Customers.tsx:52-54 | any other status value shows no one |
| CustomersPage.Split | client/src/pages/Customers.tsx:71 | `split(" ")` yields at least one piece |
| CustomersPage.FirstCharsAreWordStarts | client/src/pages/Customers.tsx:71 | joining the pieces' first characters gives exactly the non-space characters that start the name or follow a space |
| CustomersPage.Initials | client/src/pages/Customers.tsx:70-72 | at most 2 characters: the first two word starts, upper-cased |
| CustomersPage.Abs | client/src/pages/Customers.tsx:76 | `Math.abs` is non-negative and ±x |
| CustomersPage.FormatBalance | client/src/pages/Customers.tsx:74-78 | isNegative iff balance < 0, and the text starts with "-" exactly then, followed by the currency and the magnitude |
| CustomersPage.FormatBalanceSymmetric | client/src/pages/Customers.tsx:74-78 | −b is shown as "-" followed by the text for b |
| CustomersPage.FormatDate | client/src/pages/Customers.tsx:80-83 | a missing or empty date shows "-" |
| Dashboard.OutstandingBalance | client/src/pages/Dashboard.tsx:41 | defines the outstanding balance as the fold of the balances, a missing one as 0 |
| Dashboard.TodaysSales | client/src/pages/Dashboard.tsx:42-47 | defines today's sales as the fold of the grand totals of the paid sales dated today |
| Dashboard.ComputeKpis | client/src/pages/Dashboard.tsx:39-47 | the counts are the list lengths; the balance and sales figures are the two sums |
| Dashboard.OtherInvoiceLeavesSales | client/src/pages/Dashboard.tsx:42-47 | an invoice that is not a paid sale of today, wherever it stands, does not change today's sales |
| Dashboard.TodaysSaleAdds | client/src/pages/Dashboard.tsx:42-47 | a paid sale of today adds its grand total |
| Dashboard.PurchasesAndDraftsDoNotCount | client/src/pages/Dashboard.tsx:45 | purchase and draft invoices give today's sales 0 |
| Dashboard.NewCustomerKeepsOutstanding | client/src/pages/Dashboard.tsx:41 | a newly created customer (balance 0) leaves the outstanding balance unchanged |
| Dashboard.BalanceCardAmount | client/src/pages/Dashboard.tsx:105 | the card shows the absolute value of the outstanding balance |
| Dashboard.FiguresNonNegative | client/src/pages/Dashboard.tsx:41-47 | non-negative balances and grand totals give non-negative figures |
| TopBar.PageTitle | client/src/components/TopBar.tsx:10-15 | "Cari (Customers)" exactly on "/customers", the invoice title exactly on the "/invoices" prefix, "Dashboard" everywhere else |
| TopBar.InvoicesPrefixTitle | client/src/components/TopBar.tsx:13 | "/invoicesX" also gets the invoice title; "/customers/1" falls back to "Dashboard" |
| TopBar.AddButtonText | client/src/components/TopBar.tsx:17-21 | the customer label exactly on "/customers", the invoice label exactly on the "/invoices" prefix, "Add New" elsewhere |
| TopBar.ShowAddButton | client/src/components/TopBar.tsx:23-25 | defines where the button shows: "/customers", or any location starting with "/invoices" |
| TopBar.ShownIffLabelled | client/src/components/TopBar.tsx:17-25 | the button is shown iff its label is not "Add New" |
| TopBar.AddActionAt | client/src/components/TopBar.tsx:27-33 | the customer modal on "/customers", the invoice modal on "/invoices…", nothing elsewhere; something iff the button is shown |
| TopBar.HandleAddClick | client/src/components/TopBar.tsx:27-33 | opens exactly the modal AddActionAt names; otherwise the store is unchanged |
| Sidebar.MenuShape | client/src/components/Sidebar.tsx:10-43 | the menu's keys differ, and each sub-item's path lies below its parent's path |
| Sidebar.IsActive | client/src/components/Sidebar.tsx:66 | defines an active top-level item: the location is its path or lies below it |
| Sidebar.IsSubActive | client/src/components/Sidebar.tsx:87 | defines an active sub-item: the location is exactly its path |
| Sidebar.ActiveSharesSecondChar | client/src/components/Sidebar.tsx:66 | an active item's href and the location share their second character |
| Sidebar.RootActivatesNothing | client/src/components/Sidebar.tsx:66 | "/" activates no item, Dashboard ("/dashboard") included |
| Sidebar.AtMostOneActive | client/src/components/Sidebar.tsx:10-43 | no location activates two top-level items |
| Sidebar.SubActiveImpliesParentActive | client/src/components/Sidebar.tsx:87 | an active sub-item lies inside an active top-level item |
| Sidebar.HandleNavClick | client/src/components/Sidebar.tsx:45-47 | a click sets currentPage to the item's key; nothing else changes |

## Left out

- **Promises and HTTP.** The `async` wrappers, react-query fetching and mutations, `apiRequest`, `invalidateQueries` and toasts are plumbing. The store's methods are synchronous here, and the lists a page shows are parameters.
- **Rendering.** JSX, CSS class choices (`getStepIndicatorClass`, `getStepTextClass`), dialogs and the dashboard's mock chart data are presentation only.
- **Foreign library checks and formatting.** The email format check of the schema library, `toLocaleString('tr-TR')` and `toLocaleDateString` are function parameters, so nothing is assumed about them.
- **Case folding and numbers.** Case folding is ASCII only: Turkish dotted and dotless i are not folded. Amounts are exact reals, so IEEE-754 rounding is not modelled. As a result, `itemTotal * (vatRate / 100)` (client) and `itemTotal * vatRate / 100` (server) are equal here.
- **`new Date()`.** The form's default date and the dashboard's "today" are parameters.
- **Form-library internals.** react-hook-form, zodResolver and `useFieldArray` are not modelled. The rows are a plain sequence, and a row's numbers are `Option<real>`: `parseInt(...) || 0` and `NaN` appear as `None` or as the number.
- **Unmodelled wizard behaviour.** `handleClose` (`form.reset()` together with the store reset), the `useEffect` that re-copies the type into the form, and the submit mutation are not modelled. The wizard's totals agree with what the server stores (`DisplayedTotalIsStored`).
- **Free-form wizard data.** The store's `invoiceFormData` has the TypeScript type `any`. It is modelled as a string map, and the store itself only ever writes `{}` to it.
- **Hard-coded values.** The year "2024" in document numbers and the size-plus-one id rule are modelled as written. Id reuse after a delete is exhibited (`IdCollisionAfterDelete`), not repaired. Likewise a repeated document number after an update that changes an invoice's type is exhibited (`NumberClashAfterTypeChange`), not repaired: numbering counts the invoices of a type as they are now, so the uniqueness results hold for create-only histories.
- **Item totals on update.** `updateInvoice` (server/storage.ts:190-202) recomputes the three document totals only when items are supplied. It stores supplied items verbatim, without new ids or item totals (`MergeInvoice`, `UpdateKeepsSuppliedItemTotals`).
- **Shapes the routes would enforce.** Invoice type and status are kept as strings, because the store never checks them. Patches are modelled per field: an absent key is `None`, and an optional key supplied as `undefined` is `Some(None)`.
- **Other files.** `client/src/components/CustomerModal.tsx`, `client/src/App.tsx` and `client/src/components/Layout.tsx` are not part of this model: they are form plumbing and route composition.
- CustomersPage.Split: its contract states only that there is at least one piece. What the pieces are is stated through `FirstCharsAreWordStarts`, which is what `getInitials` uses.
