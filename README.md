# Invoice app core in Dafny

A model of the invoice front end's core. It has three parts.

- **Form schemas.** The login schema and the invoice schema check form values and report one message per failing field path. The invoice schema covers the bank account, the customer with contact and addresses, documents, custom fields, extensions and items, and each item's own custom fields and extensions.
- **Create-invoice dialog.** This covers the form values and what each input does to them, plus the defaults of appended rows. It also covers the dirty-form close alert with its Continue and Cancel buttons, and the submit handler. The handler validates, creates the invoice, then shows a toast, refreshes the list, closes and resets.
- **Invoice list.** The invoice provider keeps the shared list state:
  - the page, page size, search term, sort and ordering;
  - the refresh counter;
  - loading and error;
  - the fetched page and its totals.

  The list view has search, sort, refresh, page and page-size handlers and a details selection. The pagination bar has previous, next, page buttons and a page-size select. The "Paid" badge predicate is modelled too.

Modules:

- `Wrappers`: Option.
- `FieldNames`: the schema's keys.
- `InvoiceForm`: the form's value records.
- `Validation`: the schema as a relation `Reports(part, syntax, path, message)`. `Passes` means nothing is reported. `ValidX` are independent reference predicates.
- `ValidationProperties`: `Passes` is equivalent to the reference predicates.
- `ValidationMessages`: exactly which messages each record reports, and where.
- `InvoiceDraft`: the dialog's inputs, as getters and setters over the form values, and the appended-row defaults.
- `DraftProperties`: round trips and frames of the inputs, the issues of fresh rows, and what the rendered inputs can reach.
- `InvoiceDialog`: the dialog as a class.
- `InvoiceContext`: the provider as a class.
- `InvoicePagination`: the bar as functions.
- `InvoiceList`: the list view as a class.

The e-mail and URL syntax checks are parameters (`Syntax`, two predicates on strings). The outcome of a network request is an argument of the method that consumes it (`Reply`). The dialog records its outside calls in order in `calls`:
- create;
- toast;
- refresh;
- `onClose`;
- `reset`.

The page mounts the dialog only while it is open (src/pages/Invoice/index.tsx:36-41). So the dialog's constructor is its mount with `isOpen` true, and `onClose` ends its life. The provider's refetch on a dependency change is the flag `fetchDue`. A state setter that stores the value already held does not set it. A fetch is split into `BeginFetch` (the request goes out) and `CompleteFetch` (it settles).

## Model

| member | source | states |
|---|---|---|
| Validation.Check | src/utils/validation.ts:4-5 | a check reports its message exactly when its condition fails |
| Validation.Required | src/utils/validation.ts:4 | `min(1, msg)` on a string: no issue iff the string is non-empty, otherwise exactly the given message |
| Validation.Utf16Length | src/utils/validation.ts:29-30 | the length zod's `min`/`max` measure: UTF-16 code units, equal to the character count for Basic Multilingual Plane text and twice it for text entirely outside it |
| Validation.CountryCodeCheck | src/utils/validation.ts:28-31 | no issue iff the code is 2 or 3 UTF-16 code units long; shorter gives "Country code is required", longer "Country code should be 2-3 characters" |
| Validation.EnumCheck | src/utils/validation.ts:66-68 | an enum field passes iff it is one of its two values; otherwise the library's enum message naming the received value |
| Validation.LoginOwn | src/utils/validation.ts:3-6 | only username and password carry a check, and a failing check reports a non-empty message |
| Validation.BankAccountOwn | src/utils/validation.ts:11-16 | only sort code, account number and account name carry a check; bankId has none |
| Validation.ContactOwn | src/utils/validation.ts:20-23 | only the e-mail and mobile number carry a check |
| Validation.AddressOwn | src/utils/validation.ts:26-36 | only the six address keys carry a check |
| Validation.CustomerOwn | src/utils/validation.ts:17-39 | only the two names and the address list carry a check of their own |
| Validation.DocumentOwn | src/utils/validation.ts:42-46 | only the document URL carries a check; the name has none |
| Validation.CustomFieldOwn | src/utils/validation.ts:57-60 | only key and value carry a check |
| Validation.ExtensionOwn | src/utils/validation.ts:65-70 | only addDeduct, value, type and name carry a check |
| Validation.ItemOwn | src/utils/validation.ts:75-81 | only description, quantity, rate, item name and unit carry a check; the reference has none |
| Validation.InvoiceOwn | src/utils/validation.ts:49-104 | only the six strings and the item list carry a check of the invoice's own; currency and dates only `min(1)` |
| Validation.Own | src/utils/validation.ts:10-105 | the check on a key of any schema object reports a non-empty message when it fails |
| ValidationProperties.ObjectKeysHaveNoOwnCheck | src/utils/validation.ts:17-39 | a key holding a nested object (contact, bank account, customer) has no check of its own and is not an array |
| ValidationProperties.ReportsAtKey | src/utils/validation.ts:10-105 | the messages reported at a key are exactly that key's own check |
| ValidationProperties.ReportsBelowKey | src/utils/validation.ts:17-39 | issues below a nested object's key are exactly the nested object's issues, prefixed by the key |
| ValidationProperties.ReportsBelowIndex | src/utils/validation.ts:24-38 | issues below `key.i` are exactly element i's issues when the element exists, none otherwise |
| ValidationProperties.LeafReports | src/utils/validation.ts:3-6 | an object with no nested parts reports only one-key paths, each its key's own check |
| ValidationProperties.IssuesEndAtKeys | src/utils/validation.ts:10-105 | every issue path ends at a key, never at a bare index, and every message is non-empty |
| ValidationProperties.PassesIff | src/utils/validation.ts:10-105 | an object passes iff each own check passes, each nested object passes and each array element passes |
| ValidationProperties.LoginPasses | src/utils/validation.ts:3-6 | login data passes iff username and password are both non-empty |
| ValidationProperties.BankAccountPasses | src/utils/validation.ts:11-16 | a bank account passes iff sort code, account number and account name are non-empty, with bankId optional |
| ValidationProperties.ContactPasses | src/utils/validation.ts:20-23 | a contact passes iff the e-mail has e-mail syntax and the mobile number is non-empty |
| ValidationProperties.AddressPasses | src/utils/validation.ts:26-36 | an address passes iff premise, postcode, county, city and address type are non-empty and the country code has 2-3 UTF-16 code units |
| ValidationProperties.DocumentPasses | src/utils/validation.ts:42-46 | a document passes iff its URL is absent or has URL syntax; the document name is optional and unchecked |
| ValidationProperties.CustomFieldPasses | src/utils/validation.ts:57-60 | a custom field passes iff key and value are non-empty |
| ValidationProperties.ExtensionChecks | src/utils/validation.ts:65-70 | an extension's own checks all pass iff it is valid |
| ValidationProperties.ExtensionPasses | src/utils/validation.ts:65-70 | an extension passes iff addDeduct is ADD/DEDUCT, type is FIXED_VALUE/PERCENTAGE, the value is at least 0 and the name is non-empty |
| ValidationProperties.DocumentsPass | src/utils/validation.ts:40-48 | an optional document list passes element-wise iff it is absent or every document is valid |
| ValidationProperties.CustomFieldsPass | src/utils/validation.ts:55-62 | an optional custom-field list passes element-wise iff it is absent or every field is valid |
| ValidationProperties.ExtensionsPass | src/utils/validation.ts:63-72 | an optional extension list passes element-wise iff it is absent or every extension is valid |
| ValidationProperties.AddressesPass | src/utils/validation.ts:24-38 | the addresses pass element-wise iff every address is valid |
| ValidationProperties.CustomerPasses | src/utils/validation.ts:17-39 | a customer passes iff the names are non-empty, the contact passes, there is at least one address and every address passes |
| ValidationProperties.ItemChecks | src/utils/validation.ts:75-81 | an item's own checks pass iff its texts are non-empty, quantity is at least 1 and rate is at least 0 |
| ValidationProperties.ItemArraysPass | src/utils/validation.ts:82-101 | an item's arrays pass element-wise iff its custom fields and extensions are each absent or all valid |
| ValidationProperties.ItemPasses | src/utils/validation.ts:75-102 | an item passes iff its own checks pass and its optional custom fields and extensions are valid |
| ValidationProperties.ItemsPass | src/utils/validation.ts:73-104 | the items pass element-wise iff every item is valid |
| ValidationProperties.InvoiceChecks | src/utils/validation.ts:49-104 | the invoice's own checks pass iff its six strings are non-empty and it has at least one item |
| ValidationProperties.InvoiceArraysPass | src/utils/validation.ts:40-104 | the invoice's arrays pass element-wise iff its documents, custom fields, extensions and items are valid |
| ValidationProperties.InvoicePasses | src/utils/validation.ts:10-105 | the invoice schema accepts a form iff the independent reference predicate `ValidInvoice` holds |
| ValidationProperties.PassesIffValid | src/utils/validation.ts:3-105 | for every schema object, passing is equivalent to the reference predicate |
| ValidationMessages.LoginIssues | src/utils/validation.ts:3-6 | login reports exactly "Username is required" at username when empty and "Password is required" at password when empty |
| ValidationMessages.BankAccountIssues | src/utils/validation.ts:11-16 | the exact (path, message) pairs a bank account reports, one per empty required field |
| ValidationMessages.ContactIssues | src/utils/validation.ts:20-23 | the exact pairs a contact reports: "Invalid email address" for bad syntax, the mobile message when empty |
| ValidationMessages.AddressIssues | src/utils/validation.ts:26-36 | the exact pairs an address reports, the two country-code messages included |
| ValidationMessages.DocumentIssues | src/utils/validation.ts:42-46 | a document reports exactly "Invalid document URL" at `documentUrl`, when a URL is present and fails the syntax check |
| ValidationMessages.CustomFieldIssues | src/utils/validation.ts:57-60 | the exact pairs a custom field reports: key and value required |
| ValidationMessages.ExtensionIssues | src/utils/validation.ts:65-70 | the exact pairs an extension reports: the enum messages and the name message |
| ValidationMessages.CustomerKeyIssues | src/utils/validation.ts:17-39 | at a customer's own keys: the name messages when empty, "At least one address is required" for no addresses, nothing else |
| ValidationMessages.ItemKeyIssues | src/utils/validation.ts:75-81 | at an item's own keys: the text messages when empty, "Quantity must be at least 1" below 1, "Rate must be a positive number" below 0 |
| ValidationMessages.InvoiceKeyIssues | src/utils/validation.ts:49-104 | at the invoice's own keys: its six required-string messages and "At least one item is required" |
| ValidationMessages.InvoiceItemIssues | src/utils/validation.ts:73-104 | issues below `items.i` are exactly item i's issues |
| ValidationMessages.QuantityIssue | src/utils/validation.ts:78 | `items.i.quantity` reports iff item i exists and its quantity is below 1 |
| ValidationMessages.AstralCountryCodes | src/utils/validation.ts:29-30 | one emoji (two code units) is an acceptable country code, two emoji (four) are too long, one letter is too short |
| ValidationMessages.CountryCodeIssue | src/utils/validation.ts:28-31 | `customer.addresses.i.countryCode` reports "required" iff fewer than 2 UTF-16 code units, "2-3 characters" iff more than 3 |
| ValidationMessages.EmailIssue | src/utils/validation.ts:21 | `customer.contact.email` reports "Invalid email address" iff the syntax check fails; only syntax is checked |
| ValidationMessages.EmptyEmailIssue | src/utils/validation.ts:21 | an empty e-mail address reports exactly "Invalid email address", for an e-mail check that rejects the empty text |
| ValidationMessages.ExtensionRulesShared | src/utils/validation.ts:63-101 | invoice-level and item-level extensions report exactly the issues of the same extension rules |
| ValidationMessages.AbsentInvoiceArrays | src/utils/validation.ts:40-72 | absent documents, custom fields or extensions report nothing |
| ValidationMessages.AbsentItemArrays | src/utils/validation.ts:82-101 | an item's absent custom fields or extensions report nothing |
| ValidationMessages.CurrencyAndDatesUnchecked | src/utils/validation.ts:51-53 | currency and dates are only required non-empty: any non-empty values keep a passing invoice passing |
| InvoiceDraft.EmptyDraft | src/components/invoice/CreateInvoiceDialog/index.tsx:53-55 | with no default values every input on the form shows empty text, and there are no number inputs because there are no rows |
| InvoiceDraft.NewItem | src/components/invoice/CreateInvoiceDialog/index.tsx:590-599 | the item "Add Item" appends shows empty texts and passes the quantity and rate rules |
| InvoiceDraft.NewCustomField | src/components/invoice/CreateInvoiceDialog/index.tsx:630 | the custom field "Add Custom Field" appends shows an empty key and value |
| InvoiceDraft.NewExtension | src/components/invoice/CreateInvoiceDialog/index.tsx:709-714 | the extension "Add Extension" appends has options its selects offer, a value of at least 0 and an empty name |
| InvoiceDraft.SetText | src/components/invoice/CreateInvoiceDialog/index.tsx:140-697 | an input on the form shows the text last set into it; an input whose row does not exist changes nothing |
| InvoiceDraft.SetNumber | src/components/invoice/CreateInvoiceDialog/index.tsx:528-689 | a number input holds the number last entered; one whose row does not exist changes nothing |
| InvoiceDraft.Apply | src/components/invoice/CreateInvoiceDialog/index.tsx:90-103 | no action removes an item, address, custom field or extension |
| InvoiceDraft.Rendered | src/components/invoice/CreateInvoiceDialog/index.tsx:320-400 | every input is rendered except the address type |
| InvoiceDraft.Offers | src/components/invoice/CreateInvoiceDialog/index.tsx:184-186 | the currency and extension selects never give an empty value; other inputs take any text |
| InvoiceDraft.WithFirstAddress | src/components/invoice/CreateInvoiceDialog/index.tsx:327-394 | the address inputs write the first address, creating it when there is none |
| InvoiceDraft.SetInvoiceText | src/components/invoice/CreateInvoiceDialog/index.tsx:140-232 | an invoice-level input reads back what was set, and every other input and nested part is unchanged |
| InvoiceDraft.SetCustomerText | src/components/invoice/CreateInvoiceDialog/index.tsx:252-303 | a customer input reads back, the others and the addresses are unchanged |
| InvoiceDraft.SetAddressText | src/components/invoice/CreateInvoiceDialog/index.tsx:327-394 | an address input reads back, the others are unchanged |
| InvoiceDraft.SetBankText | src/components/invoice/CreateInvoiceDialog/index.tsx:418-462 | a bank input reads back, the others are unchanged, and an absent bank id stays absent unless its own input is set |
| InvoiceDraft.SetItemText | src/components/invoice/CreateInvoiceDialog/index.tsx:488-573 | an item text input reads back; the other texts, quantity, rate, the item's custom fields and extensions are unchanged, and an absent reference stays absent unless its own input is set |
| InvoiceDraft.SetCustomFieldText | src/components/invoice/CreateInvoiceDialog/index.tsx:612-619 | a custom-field input reads back, the other is unchanged |
| InvoiceDraft.SetExtensionText | src/components/invoice/CreateInvoiceDialog/index.tsx:642-697 | an extension text input reads back; the others and the value are unchanged |
| InvoiceDraft.AppendItem | src/components/invoice/CreateInvoiceDialog/index.tsx:589-600 | "Add Item" appends the default item at the end and changes nothing else |
| InvoiceDraft.AppendCustomField | src/components/invoice/CreateInvoiceDialog/index.tsx:630 | "Add Custom Field" appends an empty key/value pair at the end and changes nothing else |
| InvoiceDraft.AppendExtension | src/components/invoice/CreateInvoiceDialog/index.tsx:708-715 | "Add Extension" appends the default extension at the end and changes nothing else |
| DraftProperties.TextFrame | src/components/invoice/CreateInvoiceDialog/index.tsx:140-697 | setting one input leaves every other text input as it was |
| DraftProperties.TextKeepsNumbers | src/components/invoice/CreateInvoiceDialog/index.tsx:528-557 | setting a text input leaves every number input as it was |
| DraftProperties.NumberFrame | src/components/invoice/CreateInvoiceDialog/index.tsx:528-689 | entering a number changes no other number input and no text input |
| DraftProperties.AppendKeepsInputs | src/components/invoice/CreateInvoiceDialog/index.tsx:90-103 | the form has append but no remove: appending keeps every existing input's value |
| DraftProperties.AppendedItemShows | src/components/invoice/CreateInvoiceDialog/index.tsx:589-600 | a new item row shows empty texts, quantity 1 and rate 0 |
| DraftProperties.AppendedRowsShow | src/components/invoice/CreateInvoiceDialog/index.tsx:630-715 | a new extension is ADD, FIXED_VALUE, 0 with no name; a new custom field has empty key and value |
| DraftProperties.NewItemIssues | src/components/invoice/CreateInvoiceDialog/index.tsx:589-600 | a fresh item fails exactly for its empty description, name and unit; quantity and rate pass |
| DraftProperties.NewExtensionIssues | src/components/invoice/CreateInvoiceDialog/index.tsx:708-715 | a fresh extension fails exactly for its empty name |
| DraftProperties.NewCustomFieldIssues | src/components/invoice/CreateInvoiceDialog/index.tsx:630 | a fresh custom field fails exactly for its empty key and value |
| DraftProperties.ExtensionEditKeepsAsRendered | src/components/invoice/CreateInvoiceDialog/index.tsx:642-660 | the extension selects keep every extension's addDeduct and type among the offered options |
| DraftProperties.AddressEditKeepsAsRendered | src/components/invoice/CreateInvoiceDialog/index.tsx:327-394 | the rendered address inputs never set an address type |
| DraftProperties.ApplyKeepsAsRendered | src/components/invoice/CreateInvoiceDialog/index.tsx:140-715 | every action the form offers keeps currency, extension enums and address types as the rendered inputs allow |
| DraftProperties.ReplayKeepsAsRendered | src/components/invoice/CreateInvoiceDialog/index.tsx:140-715 | the same holds for any sequence of offered actions |
| DraftProperties.AsWrittenNeverValid | src/components/invoice/CreateInvoiceDialog/index.tsx:320-400 | whatever the user does with the rendered inputs, the schema rejects the draft for a missing address or address type |
| DraftProperties.AsRenderedFails | src/utils/validation.ts:24-38 | a draft whose addresses have no address type fails the schema, at the first address's type or for having no address |
| DraftProperties.FirstAddressStep | src/components/invoice/CreateInvoiceDialog/index.tsx:327 | the first address edit starts from the address the inputs show |
| DraftProperties.NextAddressStep | src/components/invoice/CreateInvoiceDialog/index.tsx:344-394 | each further address edit overwrites only the first address |
| DraftProperties.FillAddressOffered | src/components/invoice/CreateInvoiceDialog/index.tsx:327-394 | filling an address uses only offered actions once an address-type input exists |
| DraftProperties.FillAddressReplays | src/components/invoice/CreateInvoiceDialog/index.tsx:327-394 | filling an address makes the first address exactly that address and changes nothing else |
| DraftProperties.AddressInputsReachAnyAddress | src/utils/validation.ts:26-36 | with an address-type input, the address inputs reach any address, so every valid address is reachable |
| InvoiceDialog.AddInvoiceAsWritten | src/hooks/useInvoice.ts:25-40 | the create hook as written always resolves, a failed request included |
| InvoiceDialog.AddInvoice | src/components/invoice/CreateInvoiceDialog/index.tsx:105-123 | the hook the submit handler expects rejects iff the request failed |
| InvoiceDialog.AfterCreate | src/components/invoice/CreateInvoiceDialog/index.tsx:105-123 | a toast always comes first, destructive exactly on rejection; refresh, `onClose` and `reset` happen exactly when the call resolved |
| InvoiceDialog.CreateInvoiceDialog.ShowsError | src/components/invoice/CreateInvoiceDialog/index.tsx:146-149 | no error is shown before the first submit, and an error shown means the values fail the schema |
| InvoiceDialog.CreateInvoiceDialog.constructor | src/components/invoice/CreateInvoiceDialog/index.tsx:64-68 | the dialog opens with empty values, no alert, not dirty and no errors shown |
| InvoiceDialog.CreateInvoiceDialog.CloseAndReset | src/components/invoice/CreateInvoiceDialog/index.tsx:79-80 | `onClose` then `reset`: closed, values empty, clean, errors hidden |
| InvoiceDialog.CreateInvoiceDialog.Change | src/components/invoice/CreateInvoiceDialog/index.tsx:70-73 | an edit applies to the values and makes the form dirty |
| InvoiceDialog.CreateInvoiceDialog.RequestClose | src/components/invoice/CreateInvoiceDialog/index.tsx:75-82 | dirty: only the alert shows and nothing else changes; clean: `onClose` then `reset` |
| InvoiceDialog.CreateInvoiceDialog.ConfirmClose | src/components/invoice/CreateInvoiceDialog/index.tsx:84-88 | Continue hides the alert, calls `onClose` then `reset` |
| InvoiceDialog.CreateInvoiceDialog.CancelClose | src/components/invoice/CreateInvoiceDialog/index.tsx:738-740 | Cancel hides the alert and changes nothing else |
| InvoiceDialog.CreateInvoiceDialog.Submit | src/components/invoice/CreateInvoiceDialog/index.tsx:105-123 | `addInvoice` is called iff the schema accepts the values. Then it depends on how the call settled: resolved gives toast, refresh, `onClose`, `reset`; rejected gives only the error toast and keeps the form open. Invalid values only show errors. The settled outcome is an argument: `AddInvoiceAsWritten(reply)` for the app as written, `AddInvoice(reply)` for the intended hook |
| InvoiceContext.CeilDiv | src/contexts/InvoiceContext.tsx:64 | `Math.ceil(n / d)`: the least r with r·d ≥ n; zero exactly for zero records |
| InvoiceContext.GetInvoicesAsWritten | src/hooks/useInvoice.ts:10-23 | the list hook as written never throws: a failed request yields no response |
| InvoiceContext.GetInvoices | src/contexts/InvoiceContext.tsx:62-68 | the hook the fetch expects throws iff the request failed, and otherwise returns the page |
| InvoiceContext.ErrorAfter | src/contexts/InvoiceContext.tsx:67-68 | a throw sets "Failed to fetch invoices"; the error changes only on a throw |
| InvoiceContext.InvoiceProvider.constructor | src/contexts/InvoiceContext.tsx:39-49 | initial state: no invoices, page 1 of 1, size 10, empty search, newest first by created date, refresh 0 |
| InvoiceContext.InvoiceProvider.SetCurrentPage | src/contexts/InvoiceContext.tsx:72-76 | stores the page; a fetch becomes due iff the page changed |
| InvoiceContext.InvoiceProvider.SetPageSize | src/contexts/InvoiceContext.tsx:72-76 | stores the size; a fetch becomes due iff it changed |
| InvoiceContext.InvoiceProvider.SetSearchTerm | src/contexts/InvoiceContext.tsx:72-76 | stores the term; a fetch becomes due iff it changed |
| InvoiceContext.InvoiceProvider.SetSortBy | src/contexts/InvoiceContext.tsx:72-76 | stores the sort; a fetch becomes due iff it changed |
| InvoiceContext.InvoiceProvider.SetOrdering | src/contexts/InvoiceContext.tsx:72-76 | stores the ordering; a fetch becomes due iff it changed |
| InvoiceContext.InvoiceProvider.RefreshInvoices | src/contexts/InvoiceContext.tsx:78 | adds one to the refresh counter, which always makes a fetch due |
| InvoiceContext.InvoiceProvider.BeginFetch | src/contexts/InvoiceContext.tsx:51-61 | loading on, error cleared, and the params are exactly the current page, size, sort, ordering and search term |
| InvoiceContext.InvoiceProvider.CompleteFetch | src/contexts/InvoiceContext.tsx:62-71 | a response sets the invoices, the total and the page count `ceil(total/size)`; no response changes none of them; error is set only on a throw; loading ends |
| InvoicePagination.PageButtons | src/components/invoice/InvoicePagination.tsx:41-46 | one button per page, numbered 1 to totalPages in order |
| InvoicePagination.PageSizes | src/components/invoice/InvoicePagination.tsx:64-78 | the select offers five positive, ascending sizes starting at 10 |
| InvoicePagination.Click | src/components/invoice/InvoicePagination.tsx:33-58 | a page button asks for a page exactly when it is one of the drawn buttons, and then for its own page |
| InvoicePagination.PreviousAndNext | src/components/invoice/InvoicePagination.tsx:33-58 | while buttons are drawn, previous is disabled exactly on the first button's page and next exactly on the last button's page |
| InvoicePagination.ButtonsAreThePages | src/components/invoice/InvoicePagination.tsx:41-46 | a page has a button iff it lies in 1..totalPages, and that button asks for it from any current page |
| InvoicePagination.ClicksStayInRange | src/components/invoice/InvoicePagination.tsx:33-58 | from a page in range, every enabled control asks for a page in range |
| InvoicePagination.OneButtonHighlighted | src/components/invoice/InvoicePagination.tsx:44 | exactly the current page's button is highlighted, and one is highlighted iff the current page is in range |
| InvoicePagination.PastTheLastPage | src/components/invoice/InvoicePagination.tsx:33-58 | past the last page, previous and next stay enabled and ask for pages that do not exist |
| InvoiceList.IsPaid | src/components/invoice/InvoiceList/index.tsx:160-169 | paid iff some status entry has key PAID and value true |
| InvoiceList.PaidEntries | src/components/invoice/InvoiceDetailsDialog/index.tsx:17 | paid-ness of joined status lists is the disjunction; an unpaid PAID entry changes nothing |
| InvoiceList.EmptyListNextEnabled | src/components/invoice/InvoicePagination.tsx:57-58 | with zero records there are no page buttons, previous is disabled on page 1, and next asks for page 2 |
| InvoiceList.PageSizesCountPages | src/components/invoice/InvoicePagination.tsx:64-78 | every offered size is positive, so the page count covers every record; the initial size 10 is offered |
| InvoiceList.InvoiceListView.constructor | src/components/invoice/InvoiceList/index.tsx:48-49 | the list starts with no invoice selected |
| InvoiceList.InvoiceListView.HandleSearch | src/components/invoice/InvoiceList/index.tsx:51-55 | search goes to page 1 and bumps the refresh counter, so a fetch is due even on page 1 |
| InvoiceList.InvoiceListView.TypeSearchTerm | src/components/invoice/InvoiceList/index.tsx:80 | typing stores the term; a fetch is due iff it changed |
| InvoiceList.InvoiceListView.SelectSortBy | src/components/invoice/InvoiceList/index.tsx:86-97 | the sort select stores its value; a fetch is due iff it changed |
| InvoiceList.InvoiceListView.SelectOrdering | src/components/invoice/InvoiceList/index.tsx:98-109 | the ordering select stores its value; a fetch is due iff it changed |
| InvoiceList.InvoiceListView.PressRefresh | src/components/invoice/InvoiceList/index.tsx:110 | Refresh bumps the counter and makes a fetch due |
| InvoiceList.InvoiceListView.HandlePageChange | src/components/invoice/InvoiceList/index.tsx:61-63 | the requested page is stored unchanged |
| InvoiceList.InvoiceListView.HandlePageSizeChange | src/components/invoice/InvoiceList/index.tsx:65-68 | the size is stored and the page goes back to 1 |
| InvoiceList.InvoiceListView.ViewDetails | src/components/invoice/InvoiceList/index.tsx:57-59 | "View Details" selects that invoice |
| InvoiceList.InvoiceListView.CloseDetails | src/components/invoice/InvoiceList/index.tsx:198-203 | closing the details dialog clears the selection |

## Left out

- Issue order and duplicates: the schema's issues are a set of (path, message) pairs, not zod's ordered list.
- A field never touched is `undefined` in the form library, and zod then reports its own "Required". The model stores such a field as "" and reports the schema's "... is required" message instead. The same holds for whole untouched objects and arrays (`customer`, `customer.contact`, `bankAccount`, `customer.addresses`, `items`). zod reports one "Required" at that key. The model reports the per-field messages below it, or "At least one address is required" / "At least one item is required" at the key. Whether the values pass is the same either way, provided the e-mail check rejects the empty text (`EmailRejectsEmpty`, as in `EmptyEmailIssue`).
- Validation.CountryCodeCheck: one message per path. No code can fail both `min(2)` and `max(3)`, so nothing is lost.
- E-mail and URL syntax: these are the library's own checks and appear as the `Syntax` parameter.
- `Number(...)` on the quantity, rate and value inputs: numbers are reals, and NaN and the empty input's 0 are not modelled.
- InvoiceDialog.CreateInvoiceDialog.Change: any edit makes the form dirty. The form library's comparison against default values is not modelled, so editing a field back to its default still counts as dirty.
- ValidationMessages.EmailIssue: the e-mail check is a parameter, so the lemma alone does not say that an empty address fails; `EmptyEmailIssue` states that under the assumption `EmailRejectsEmpty`, which the library's check meets.
- Errors under the inputs: `ShowsError` gives the schema's current issues after the first submit, as far as an input displays them. No message is displayed for the address type, for `customer.addresses` or for `items`. The library's re-validation timing and per-field rendering are left out.
- While the alert shows, the modal blocks the form. Escape or a click outside the alert acts like Cancel; the model has only Cancel.
- Documents have no input on the form, so they stay absent.
- Rendering (JSX, layout, icons, loading and error display) is left out, and so are HTTP, services and authentication.
- InvoiceContext.InvoiceProvider.CompleteFetch: fetches do not overlap. A stale response arriving after a newer fetch began is not modelled, because `CompleteFetch` accepts whatever params it is given.
- InvoiceContext.InvoiceProvider.CompleteFetch: requires a positive page size. Every size the select offers is positive, and the initial size is 10; with size 0, JavaScript's `Infinity` page count is not modelled.
- The hooks' own `loading` and `error` state (src/hooks/useInvoice.ts) is not read by the dialog or the provider, so it is not modelled.
- How the page, provider and dialog compose (the dialog's refresh reaching the provider) is not modelled; the dialog records the call instead.
- The sort and ordering selects' option lists are the enums `SortBy` and `Ordering`; the values sent to the server are not modelled.

## Findings

| source | as written | input that shows it | evidently intended | confidence | as-written member | corrected member |
|---|---|---|---|---|---|---|
| src/components/invoice/CreateInvoiceDialog/index.tsx:320-400 | the address section renders premise, country code, postcode, county and city, but no address-type input, while the schema requires a non-empty address type (src/utils/validation.ts:35) | any sequence of actions on the rendered inputs; the draft always fails. In the app, zod reports "Required" at `customer.addresses.0.addressType`, because the field is never written, and no input displays that message; or, with no address, "Required" at `customer.addresses`. The model reports "Address type is required" or "At least one address is required" in their place | an address-type input, so a complete address can be entered | not executed | DraftProperties.AsWrittenNeverValid | DraftProperties.AddressInputsReachAnyAddress |
| src/hooks/useInvoice.ts:35-39 | `addInvoice` catches a failed request and resolves with null, so the dialog's catch never runs | a create request that fails: the dialog shows "Invoice created successfully", refreshes, closes and resets the form | the failure reaches the submit handler, which shows "Failed to create invoice. Please try again." and keeps the form | not executed | InvoiceDialog.AddInvoiceAsWritten | InvoiceDialog.AddInvoice |
| src/hooks/useInvoice.ts:18-22 | `getInvoices` catches a failed request and returns null, so the provider's catch never sets its error | a list request that fails: the error stays cleared and the old page stays on screen | the provider's error becomes "Failed to fetch invoices" | not executed | InvoiceContext.GetInvoicesAsWritten | InvoiceContext.GetInvoices |
