/**
  The values held by the create-invoice form and how its inputs change them.

  The form is created without default values, so every text the user has not
  typed is the empty string here, every optional list the user has not started
  is absent and there are no items. Each address input edits the first address
  of the customer and creates it when there is none yet. Row inputs (items,
  custom fields, extensions) exist only for rows that have been appended, so an
  edit of a row that does not exist changes nothing.
*/
module InvoiceDraft {
  import opened Wrappers
  import opened InvoiceForm

  /** The text inputs of the invoice itself. */
  datatype InvoiceText = InvoiceNumber | InvoiceReference | Currency | InvoiceDate | DueDate | Description

  /** The customer's name and contact inputs. */
  datatype CustomerText = FirstName | LastName | Email | MobileNumber

  /** The inputs of the first address; `AddressType` is the one the form does not render. */
  datatype AddressText = Premise | CountryCode | Postcode | County | City | AddressType

  datatype BankText = BankId | SortCode | AccountNumber | AccountName

  datatype ItemText = ItemName | ItemReference | ItemDescription | ItemUOM

  datatype CustomFieldText = FieldKey | FieldValue

  datatype ExtensionText = AddDeduct | ExtensionType | ExtensionName

  /** A text input of the form; row inputs carry the index of their row. */
  datatype TextInput =
    | InvoiceInput(invoiceText: InvoiceText)
    | CustomerInput(customerText: CustomerText)
    | AddressInput(addressText: AddressText)
    | BankInput(bankText: BankText)
    | ItemInput(row: nat, itemText: ItemText)
    | CustomFieldInput(row: nat, fieldText: CustomFieldText)
    | ExtensionInput(row: nat, extensionText: ExtensionText)

  /** The number inputs; their text is converted with `Number` before it is stored. */
  datatype NumberInput = ItemQuantity(row: nat) | ItemRate(row: nat) | ExtensionValue(row: nat)

  /** One user action on the form. */
  datatype Edit =
    | TextEdit(input: TextInput, text: string)
    | NumberEdit(field: NumberInput, number: real)
    | ItemAdded
    | CustomFieldAdded
    | ExtensionAdded

  // ------------------------------------------------------------ the values

  /** The form's values before any input is touched. */
  function EmptyDraft(): (r: Invoice)
    ensures forall input :: TextOf(r, input) == None || TextOf(r, input) == Some("")
    ensures forall field :: NumberOf(r, field).None?
  {
    Invoice(BankAccount(None, "", "", ""), Customer("", "", Contact("", ""), []),
            None, "", "", "", "", "", "", None, None, [])
  }

  function BlankAddress(): Address
  {
    Address("", "", "", "", "", "")
  }

  /** The row the "Add Item" button appends. */
  function NewItem(): (r: Item)
    ensures forall t :: ItemTextOf(r, t) == ""
    ensures r.quantity >= 1.0 && r.rate >= 0.0
  {
    Item(Some(""), "", 1.0, 0.0, "", "", Some([]), Some([]))
  }

  /** The row the "Add Custom Field" button appends. */
  function NewCustomField(): (r: CustomField)
    ensures forall t :: CustomFieldTextOf(r, t) == ""
  {
    CustomField("", "")
  }

  /** The row the "Add Extension" button appends. */
  function NewExtension(): (r: Extension)
    ensures Offers(ExtensionInput(0, AddDeduct), ExtensionTextOf(r, AddDeduct))
    ensures Offers(ExtensionInput(0, ExtensionType), ExtensionTextOf(r, ExtensionType))
    ensures r.value >= 0.0 && ExtensionTextOf(r, ExtensionName) == ""
  {
    Extension("ADD", 0.0, "FIXED_VALUE", "")
  }

  /** What the address inputs show: the first address, or blanks before there is one. */
  function FirstAddress(d: Invoice): Address
  {
    if |d.customer.addresses| == 0 then BlankAddress() else d.customer.addresses[0]
  }

  function WithFirstAddress(d: Invoice, a: Address): (r: Invoice)
    ensures FirstAddress(r) == a
    ensures |r.customer.addresses| == if |d.customer.addresses| == 0 then 1 else |d.customer.addresses|
  {
    var addresses := d.customer.addresses;
    d.(customer := d.customer.(addresses := if |addresses| == 0 then [a] else addresses[0 := a]))
  }

  function Rows<T>(xs: Option<seq<T>>): seq<T>
  {
    if xs.Some? then xs.value else []
  }

  function WithItem(d: Invoice, i: nat, it: Item): Invoice
    requires i < |d.items|
  {
    d.(items := d.items[i := it])
  }

  function WithCustomField(d: Invoice, i: nat, f: CustomField): Invoice
    requires i < |Rows(d.customFields)|
  {
    d.(customFields := Some(Rows(d.customFields)[i := f]))
  }

  function WithExtension(d: Invoice, i: nat, x: Extension): Invoice
    requires i < |Rows(d.extensions)|
  {
    d.(extensions := Some(Rows(d.extensions)[i := x]))
  }

  // ------------------------------------------------------------ one record's inputs

  function InvoiceTextOf(d: Invoice, t: InvoiceText): string
  {
    match t
    case InvoiceNumber => d.invoiceNumber
    case InvoiceReference => d.invoiceReference
    case Currency => d.currency
    case InvoiceDate => d.invoiceDate
    case DueDate => d.dueDate
    case Description => d.description
  }

  /** Setting one of the invoice's own inputs: it reads back, the others and the nested parts keep their values. */
  function SetInvoiceText(d: Invoice, t: InvoiceText, s: string): (r: Invoice)
    ensures InvoiceTextOf(r, t) == s
    ensures forall u :: u != t ==> InvoiceTextOf(r, u) == InvoiceTextOf(d, u)
    ensures r.bankAccount == d.bankAccount && r.customer == d.customer && r.documents == d.documents
    ensures r.customFields == d.customFields && r.extensions == d.extensions && r.items == d.items
  {
    match t
    case InvoiceNumber => d.(invoiceNumber := s)
    case InvoiceReference => d.(invoiceReference := s)
    case Currency => d.(currency := s)
    case InvoiceDate => d.(invoiceDate := s)
    case DueDate => d.(dueDate := s)
    case Description => d.(description := s)
  }

  function CustomerTextOf(c: Customer, t: CustomerText): string
  {
    match t
    case FirstName => c.firstName
    case LastName => c.lastName
    case Email => c.contact.email
    case MobileNumber => c.contact.mobileNumber
  }

  function SetCustomerText(c: Customer, t: CustomerText, s: string): (r: Customer)
    ensures CustomerTextOf(r, t) == s
    ensures forall u :: u != t ==> CustomerTextOf(r, u) == CustomerTextOf(c, u)
    ensures r.addresses == c.addresses
  {
    match t
    case FirstName => c.(firstName := s)
    case LastName => c.(lastName := s)
    case Email => c.(contact := c.contact.(email := s))
    case MobileNumber => c.(contact := c.contact.(mobileNumber := s))
  }

  function AddressTextOf(a: Address, t: AddressText): string
  {
    match t
    case Premise => a.premise
    case CountryCode => a.countryCode
    case Postcode => a.postcode
    case County => a.county
    case City => a.city
    case AddressType => a.addressType
  }

  function SetAddressText(a: Address, t: AddressText, s: string): (r: Address)
    ensures AddressTextOf(r, t) == s
    ensures forall u :: u != t ==> AddressTextOf(r, u) == AddressTextOf(a, u)
  {
    match t
    case Premise => a.(premise := s)
    case CountryCode => a.(countryCode := s)
    case Postcode => a.(postcode := s)
    case County => a.(county := s)
    case City => a.(city := s)
    case AddressType => a.(addressType := s)
  }

  /** An absent bank id shows as an empty input. */
  function BankTextOf(b: BankAccount, t: BankText): string
  {
    match t
    case BankId => if b.bankId.Some? then b.bankId.value else ""
    case SortCode => b.sortCode
    case AccountNumber => b.accountNumber
    case AccountName => b.accountName
  }

  function SetBankText(b: BankAccount, t: BankText, s: string): (r: BankAccount)
    ensures BankTextOf(r, t) == s
    ensures forall u :: u != t ==> BankTextOf(r, u) == BankTextOf(b, u)
    ensures t != BankId ==> r.bankId == b.bankId
  {
    match t
    case BankId => b.(bankId := Some(s))
    case SortCode => b.(sortCode := s)
    case AccountNumber => b.(accountNumber := s)
    case AccountName => b.(accountName := s)
  }

  /** An absent item reference shows as an empty input. */
  function ItemTextOf(it: Item, t: ItemText): string
  {
    match t
    case ItemName => it.itemName
    case ItemReference => if it.itemReference.Some? then it.itemReference.value else ""
    case ItemDescription => it.description
    case ItemUOM => it.itemUOM
  }

  function SetItemText(it: Item, t: ItemText, s: string): (r: Item)
    ensures ItemTextOf(r, t) == s
    ensures forall u :: u != t ==> ItemTextOf(r, u) == ItemTextOf(it, u)
    ensures r.quantity == it.quantity && r.rate == it.rate
    ensures r.customFields == it.customFields && r.extensions == it.extensions
    ensures t != ItemReference ==> r.itemReference == it.itemReference
  {
    match t
    case ItemName => it.(itemName := s)
    case ItemReference => it.(itemReference := Some(s))
    case ItemDescription => it.(description := s)
    case ItemUOM => it.(itemUOM := s)
  }

  function CustomFieldTextOf(f: CustomField, t: CustomFieldText): string
  {
    match t
    case FieldKey => f.key
    case FieldValue => f.value
  }

  function SetCustomFieldText(f: CustomField, t: CustomFieldText, s: string): (r: CustomField)
    ensures CustomFieldTextOf(r, t) == s
    ensures forall u :: u != t ==> CustomFieldTextOf(r, u) == CustomFieldTextOf(f, u)
  {
    match t
    case FieldKey => f.(key := s)
    case FieldValue => f.(value := s)
  }

  function ExtensionTextOf(x: Extension, t: ExtensionText): string
  {
    match t
    case AddDeduct => x.addDeduct
    case ExtensionType => x.kind
    case ExtensionName => x.name
  }

  function SetExtensionText(x: Extension, t: ExtensionText, s: string): (r: Extension)
    ensures ExtensionTextOf(r, t) == s
    ensures forall u :: u != t ==> ExtensionTextOf(r, u) == ExtensionTextOf(x, u)
    ensures r.value == x.value
  {
    match t
    case AddDeduct => x.(addDeduct := s)
    case ExtensionType => x.(kind := s)
    case ExtensionName => x.(name := s)
  }

  // ------------------------------------------------------------ the whole form

  /** The text an input shows, or None when the input is not on the form (its row does not exist). */
  function TextOf(d: Invoice, input: TextInput): Option<string>
  {
    match input
    case InvoiceInput(t) => Some(InvoiceTextOf(d, t))
    case CustomerInput(t) => Some(CustomerTextOf(d.customer, t))
    case AddressInput(t) => Some(AddressTextOf(FirstAddress(d), t))
    case BankInput(t) => Some(BankTextOf(d.bankAccount, t))
    case ItemInput(i, t) => if i < |d.items| then Some(ItemTextOf(d.items[i], t)) else None
    case CustomFieldInput(i, t) =>
      if i < |Rows(d.customFields)| then Some(CustomFieldTextOf(Rows(d.customFields)[i], t)) else None
    case ExtensionInput(i, t) =>
      if i < |Rows(d.extensions)| then Some(ExtensionTextOf(Rows(d.extensions)[i], t)) else None
  }

  /** The number an input holds, or None when its row does not exist. */
  function NumberOf(d: Invoice, field: NumberInput): Option<real>
  {
    match field
    case ItemQuantity(i) => if i < |d.items| then Some(d.items[i].quantity) else None
    case ItemRate(i) => if i < |d.items| then Some(d.items[i].rate) else None
    case ExtensionValue(i) =>
      if i < |Rows(d.extensions)| then Some(Rows(d.extensions)[i].value) else None
  }

  /** The values after the user sets `input` to `s`. */
  function SetText(d: Invoice, input: TextInput, s: string): (r: Invoice)
    ensures TextOf(d, input).Some? ==> TextOf(r, input) == Some(s)
    ensures TextOf(d, input).None? ==> r == d
  {
    match input
    case InvoiceInput(t) => SetInvoiceText(d, t, s)
    case CustomerInput(t) => d.(customer := SetCustomerText(d.customer, t, s))
    case AddressInput(t) => WithFirstAddress(d, SetAddressText(FirstAddress(d), t, s))
    case BankInput(t) => d.(bankAccount := SetBankText(d.bankAccount, t, s))
    case ItemInput(i, t) => if i < |d.items| then WithItem(d, i, SetItemText(d.items[i], t, s)) else d
    case CustomFieldInput(i, t) =>
      if i < |Rows(d.customFields)| then
        WithCustomField(d, i, SetCustomFieldText(Rows(d.customFields)[i], t, s))
      else d
    case ExtensionInput(i, t) =>
      if i < |Rows(d.extensions)| then
        WithExtension(d, i, SetExtensionText(Rows(d.extensions)[i], t, s))
      else d
  }

  /** The values after the user enters `x` in a number input. */
  function SetNumber(d: Invoice, field: NumberInput, x: real): (r: Invoice)
    ensures NumberOf(d, field).Some? ==> NumberOf(r, field) == Some(x)
    ensures NumberOf(d, field).None? ==> r == d
  {
    match field
    case ItemQuantity(i) => if i < |d.items| then WithItem(d, i, d.items[i].(quantity := x)) else d
    case ItemRate(i) => if i < |d.items| then WithItem(d, i, d.items[i].(rate := x)) else d
    case ExtensionValue(i) =>
      if i < |Rows(d.extensions)| then WithExtension(d, i, Rows(d.extensions)[i].(value := x)) else d
  }

  function AppendItem(d: Invoice): (r: Invoice)
    ensures r.items == d.items + [NewItem()]
    ensures r == d.(items := r.items)
  {
    d.(items := d.items + [NewItem()])
  }

  function AppendCustomField(d: Invoice): (r: Invoice)
    ensures r.customFields == Some(Rows(d.customFields) + [NewCustomField()])
    ensures r == d.(customFields := r.customFields)
  {
    d.(customFields := Some(Rows(d.customFields) + [NewCustomField()]))
  }

  function AppendExtension(d: Invoice): (r: Invoice)
    ensures r.extensions == Some(Rows(d.extensions) + [NewExtension()])
    ensures r == d.(extensions := r.extensions)
  {
    d.(extensions := Some(Rows(d.extensions) + [NewExtension()]))
  }

  /** One action; none removes a row or an address. */
  function Apply(d: Invoice, e: Edit): (r: Invoice)
    ensures |r.items| >= |d.items| && |r.customer.addresses| >= |d.customer.addresses|
    ensures |Rows(r.customFields)| >= |Rows(d.customFields)| && |Rows(r.extensions)| >= |Rows(d.extensions)|
  {
    match e
    case TextEdit(input, s) => SetText(d, input, s)
    case NumberEdit(field, x) => SetNumber(d, field, x)
    case ItemAdded => AppendItem(d)
    case CustomFieldAdded => AppendCustomField(d)
    case ExtensionAdded => AppendExtension(d)
  }

  /** The values after a sequence of user actions, in order. */
  function Replay(d: Invoice, edits: seq<Edit>): Invoice
    decreases |edits|
  {
    if |edits| == 0 then d else Replay(Apply(d, edits[0]), edits[1..])
  }

  // ------------------------------------------------------------ what the inputs offer

  /** The inputs the form renders: every one but the address type. */
  predicate Rendered(input: TextInput)
    ensures !input.AddressInput? ==> Rendered(input)
    ensures input.AddressInput? && input.addressText != AddressType ==> Rendered(input)
    ensures input == AddressInput(AddressType) ==> !Rendered(input)
  {
    input != AddressInput(AddressType)
  }

  /** The values an input can give: the selects offer fixed options, the other inputs any text. */
  predicate Offers(input: TextInput, s: string)
    ensures (&& Offers(input, s)
             && (input == InvoiceInput(Currency) || input.ExtensionInput?)
             && !(input.ExtensionInput? && input.extensionText == ExtensionName)) ==> s != ""
  {
    match input
    case InvoiceInput(Currency) => s == "GBP" || s == "USD" || s == "EUR"
    case ExtensionInput(_, AddDeduct) => s == "ADD" || s == "DEDUCT"
    case ExtensionInput(_, ExtensionType) => s == "FIXED_VALUE" || s == "PERCENTAGE"
    case _ => true
  }

  /** An action the form as written lets the user take. */
  predicate OfferedAsWritten(e: Edit)
  {
    e.TextEdit? ==> Rendered(e.input) && Offers(e.input, e.text)
  }

  /** An action the form lets the user take once it has an address-type input. */
  predicate Offered(e: Edit)
  {
    e.TextEdit? ==> Offers(e.input, e.text)
  }
}
