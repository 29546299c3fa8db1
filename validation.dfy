/**
  The login and invoice validation schemas.

  A schema reports issues, each a message at a path of record keys and array
  indices (`customer.addresses.0.countryCode`). zod checks every field of an
  object and every element of an array, so the issues an object reports are
  those its fields' own checks report at the field's key, plus those every
  nested object reports below its key and every array element below its key
  and index. The model states that set as the relation `Reports(part, syntax,
  path, message)`, walked one path segment at a time:

    - `Own(part, syntax, f)`: the message the check on key `f` reports at `f`
      itself (a string, number or enum check, or an array's minimum length);
    - `Sub(part, f)`: the object nested at key `f`;
    - `Elem(part, f, i)`: element `i` of the array at key `f`.

  The e-mail and URL syntax checks belong to the schema library and are
  parameters (`Syntax`).
*/
module Validation {
  import opened Wrappers
  import opened FieldNames
  import opened InvoiceForm

  /** One step of an issue path: an object key or an array index. */
  datatype Segment = Key(field: FieldName) | At(index: nat)

  type Path = seq<Segment>

  /** The library's e-mail and URL syntax checks. */
  datatype Syntax = Syntax(isEmail: string -> bool, isUrl: string -> bool)

  /** The library's e-mail check, like any real one, rejects the empty text. */
  predicate EmailRejectsEmpty(syntax: Syntax)
  {
    !syntax.isEmail("")
  }

  /** A record the schemas check, tagged with the schema object it belongs to. */
  datatype Part =
    | LoginPart(login: LoginData)
    | BankAccountPart(bankAccount: BankAccount)
    | ContactPart(contact: Contact)
    | AddressPart(address: Address)
    | CustomerPart(customer: Customer)
    | DocumentPart(document: Document)
    | CustomFieldPart(customField: CustomField)
    | ExtensionPart(extension: Extension)
    | ItemPart(item: Item)
    | InvoicePart(invoice: Invoice)

  /** A check that reports `message` exactly when it fails. */
  function Check(ok: bool, message: string): (r: Option<string>)
    ensures r.None? <==> ok
    ensures r.Some? ==> r.value == message
  {
    if ok then None else Some(message)
  }

  /** zod `.string().min(1, message)`. */
  function Required(s: string, message: string): (r: Option<string>)
    ensures r.None? <==> s != ""
    ensures r.Some? ==> r.value == message
  {
    Check(|s| >= 1, message)
  }

  /**
    The length JavaScript gives a string: its UTF-16 code units, so a
    character outside the Basic Multilingual Plane counts twice.
  */
  function Utf16Length(s: string): (n: nat)
    ensures |s| <= n <= 2 * |s|
    ensures (forall k :: 0 <= k < |s| ==> s[k] as int <= 0xFFFF) ==> n == |s|
    ensures (forall k :: 0 <= k < |s| ==> s[k] as int > 0xFFFF) ==> n == 2 * |s|
  {
    if |s| == 0 then 0
    else (if s[0] as int > 0xFFFF then 2 else 1) + Utf16Length(s[1..])
  }

  /**
    zod `.string().min(2, ...).max(3, ...)`, on the UTF-16 length: both checks
    run, and no code can fail both, so at most one message is reported.
  */
  function CountryCodeCheck(code: string): (r: Option<string>)
    ensures r.None? <==> 2 <= Utf16Length(code) <= 3
    ensures Utf16Length(code) < 2 ==> r == Some("Country code is required")
    ensures Utf16Length(code) > 3 ==> r == Some("Country code should be 2-3 characters")
  {
    var n := Utf16Length(code);
    if n < 2 then Some("Country code is required")
    else if n > 3 then Some("Country code should be 2-3 characters")
    else None
  }

  /** The library's message for a value outside `z.enum([a, b])`. */
  function EnumMessage(a: string, b: string, received: string): string
  {
    "Invalid enum value. Expected '" + a + "' | '" + b + "', received '" + received + "'"
  }

  /** zod `z.enum([a, b])`. */
  function EnumCheck(s: string, a: string, b: string): (r: Option<string>)
    ensures r.None? <==> s == a || s == b
    ensures r.Some? ==> r.value == EnumMessage(a, b, s)
  {
    Check(s == a || s == b, EnumMessage(a, b, s))
  }

  // ------------------------------------------------------ the own checks

  function LoginOwn(d: LoginData, f: FieldName): (r: Option<string>)
    ensures r.Some? ==> (f == username || f == password) && r.value != ""
  {
    if f == username then Required(d.username, "Username is required")
    else if f == password then Required(d.password, "Password is required")
    else None
  }

  function BankAccountOwn(b: BankAccount, f: FieldName): (r: Option<string>)
    ensures r.Some? ==> (f == sortCode || f == accountNumber || f == accountName) && r.value != ""
  {
    if f == sortCode then Required(b.sortCode, "Sort code is required")
    else if f == accountNumber then Required(b.accountNumber, "Account number is required")
    else if f == accountName then Required(b.accountName, "Account name is required")
    else None
  }

  function ContactOwn(c: Contact, syntax: Syntax, f: FieldName): (r: Option<string>)
    ensures r.Some? ==> (f == email || f == mobileNumber) && r.value != ""
  {
    if f == email then Check(syntax.isEmail(c.email), "Invalid email address")
    else if f == mobileNumber then Required(c.mobileNumber, "Mobile number is required")
    else None
  }

  function AddressOwn(a: Address, f: FieldName): (r: Option<string>)
    ensures r.Some? ==> (f == premise || f == countryCode || f == postcode || f == county || f == city || f == addressType) && r.value != ""
  {
    if f == premise then Required(a.premise, "Premise is required")
    else if f == countryCode then CountryCodeCheck(a.countryCode)
    else if f == postcode then Required(a.postcode, "Postcode is required")
    else if f == county then Required(a.county, "County is required")
    else if f == city then Required(a.city, "City is required")
    else if f == addressType then Required(a.addressType, "Address type is required")
    else None
  }

  function CustomerOwn(c: Customer, f: FieldName): (r: Option<string>)
    ensures r.Some? ==> (f == firstName || f == lastName || f == addresses) && r.value != ""
  {
    if f == firstName then Required(c.firstName, "First name is required")
    else if f == lastName then Required(c.lastName, "Last name is required")
    else if f == addresses then Check(|c.addresses| >= 1, "At least one address is required")
    else None
  }

  function DocumentOwn(d: Document, syntax: Syntax, f: FieldName): (r: Option<string>)
    ensures r.Some? ==> f == documentUrl && r.value != ""
  {
    if f == documentUrl then
      (match d.documentUrl
       case None => None
       case Some(u) => Check(syntax.isUrl(u), "Invalid document URL"))
    else None
  }

  function CustomFieldOwn(c: CustomField, f: FieldName): (r: Option<string>)
    ensures r.Some? ==> (f == key || f == value) && r.value != ""
  {
    if f == key then Required(c.key, "Custom field key is required")
    else if f == value then Required(c.value, "Custom field value is required")
    else None
  }

  function ExtensionOwn(x: Extension, f: FieldName): (r: Option<string>)
    ensures r.Some? ==> (f == addDeduct || f == value || f == type_ || f == name) && r.value != ""
  {
    if f == addDeduct then EnumCheck(x.addDeduct, "ADD", "DEDUCT")
    else if f == value then Check(x.value >= 0.0, "Extension value must be a positive number")
    else if f == type_ then EnumCheck(x.kind, "FIXED_VALUE", "PERCENTAGE")
    else if f == name then Required(x.name, "Extension name is required")
    else None
  }

  function ItemOwn(it: Item, f: FieldName): (r: Option<string>)
    ensures r.Some? ==> (f == description || f == quantity || f == rate || f == itemName || f == itemUOM) && r.value != ""
  {
    if f == description then Required(it.description, "Item description is required")
    else if f == quantity then Check(it.quantity >= 1.0, "Quantity must be at least 1")
    else if f == rate then Check(it.rate >= 0.0, "Rate must be a positive number")
    else if f == itemName then Required(it.itemName, "Item name is required")
    else if f == itemUOM then Required(it.itemUOM, "Unit of Measure is required")
    else None
  }

  function InvoiceOwn(inv: Invoice, f: FieldName): (r: Option<string>)
    ensures r.Some? ==> (f == invoiceReference || f == invoiceNumber || f == currency || f == invoiceDate || f == dueDate || f == description || f == items) && r.value != ""
  {
    if f == invoiceReference then Required(inv.invoiceReference, "Invoice reference is required")
    else if f == invoiceNumber then Required(inv.invoiceNumber, "Invoice number is required")
    else if f == currency then Required(inv.currency, "Currency is required")
    else if f == invoiceDate then Required(inv.invoiceDate, "Invoice date is required")
    else if f == dueDate then Required(inv.dueDate, "Due date is required")
    else if f == description then Required(inv.description, "Description is required")
    else if f == items then Check(|inv.items| >= 1, "At least one item is required")
    else None
  }

  /** The message the check on key `f` of `part` reports at `f` itself, if any. */
  function Own(part: Part, syntax: Syntax, f: FieldName): (r: Option<string>)
    ensures r.Some? ==> r.value != ""
  {
    match part
    case LoginPart(d) => LoginOwn(d, f)
    case BankAccountPart(b) => BankAccountOwn(b, f)
    case ContactPart(c) => ContactOwn(c, syntax, f)
    case AddressPart(a) => AddressOwn(a, f)
    case CustomerPart(c) => CustomerOwn(c, f)
    case DocumentPart(d) => DocumentOwn(d, syntax, f)
    case CustomFieldPart(c) => CustomFieldOwn(c, f)
    case ExtensionPart(x) => ExtensionOwn(x, f)
    case ItemPart(it) => ItemOwn(it, f)
    case InvoicePart(inv) => InvoiceOwn(inv, f)
  }

  // ------------------------------------------- nested objects and arrays

  /** The object nested at key `f` of `part`, if there is one. */
  function Sub(part: Part, f: FieldName): (r: Option<Part>)
  {
    match part
    case CustomerPart(c) => if f == contact then Some(ContactPart(c.contact)) else None
    case InvoicePart(inv) =>
      if f == bankAccount then Some(BankAccountPart(inv.bankAccount))
      else if f == customer then Some(CustomerPart(inv.customer))
      else None
    case _ => None
  }

  function AddressAt(addresses: seq<Address>, i: nat): Option<Part>
  {
    if i < |addresses| then Some(AddressPart(addresses[i])) else None
  }

  function DocumentAt(ds: Option<seq<Document>>, i: nat): Option<Part>
  {
    if ds.Some? && i < |ds.value| then Some(DocumentPart(ds.value[i])) else None
  }

  function CustomFieldAt(fs: Option<seq<CustomField>>, i: nat): Option<Part>
  {
    if fs.Some? && i < |fs.value| then Some(CustomFieldPart(fs.value[i])) else None
  }

  function ExtensionAt(xs: Option<seq<Extension>>, i: nat): Option<Part>
  {
    if xs.Some? && i < |xs.value| then Some(ExtensionPart(xs.value[i])) else None
  }

  function ItemAt(items: seq<Item>, i: nat): Option<Part>
  {
    if i < |items| then Some(ItemPart(items[i])) else None
  }

  /**
    Element `i` of the array at key `f` of `part`, if the array is present
    and has one; an absent optional array has no elements to check.
  */
  function Elem(part: Part, f: FieldName, i: nat): (r: Option<Part>)
  {
    match part
    case CustomerPart(c) => if f == addresses then AddressAt(c.addresses, i) else None
    case ItemPart(it) =>
      if f == customFields then CustomFieldAt(it.customFields, i)
      else if f == extensions then ExtensionAt(it.extensions, i)
      else None
    case InvoicePart(inv) =>
      if f == documents then DocumentAt(inv.documents, i)
      else if f == customFields then CustomFieldAt(inv.customFields, i)
      else if f == extensions then ExtensionAt(inv.extensions, i)
      else if f == items then ItemAt(inv.items, i)
      else None
    case _ => None
  }

  // ------------------------------------------------------------ issues

  /**
    The schema of `part` reports `message` at `path`: the path's first key
    `f` either ends the path and `f`'s own check reports the message, or
    leads into the object at `f`, or, followed by an index `i`, into element
    `i` of the array at `f`, which reports the message at the rest of the path.
  */
  predicate Reports(part: Part, syntax: Syntax, path: Path, message: string)
    decreases |path|
  {
    |path| >= 1 && path[0].Key?
    && (|| (|path| == 1 && Own(part, syntax, path[0].field) == Some(message))
        || (Sub(part, path[0].field).Some?
            && Reports(Sub(part, path[0].field).value, syntax, path[1..], message))
        || (|path| >= 2 && path[1].At? && Elem(part, path[0].field, path[1].index).Some?
            && Reports(Elem(part, path[0].field, path[1].index).value, syntax, path[2..], message)))
  }

  /** The schema accepts `part`: it reports no issue at any path. */
  ghost predicate Passes(part: Part, syntax: Syntax)
  {
    forall path, message :: !Reports(part, syntax, path, message)
  }

  // ------------------------------------------- validity, stated directly

  predicate ValidLogin(d: LoginData)
  {
    d.username != "" && d.password != ""
  }

  predicate ValidAddress(a: Address)
  {
    a.premise != "" && 2 <= Utf16Length(a.countryCode) <= 3 && a.postcode != ""
    && a.county != "" && a.city != "" && a.addressType != ""
  }

  predicate ValidCustomField(f: CustomField)
  {
    f.key != "" && f.value != ""
  }

  predicate ValidExtension(x: Extension)
  {
    (x.addDeduct == "ADD" || x.addDeduct == "DEDUCT")
    && (x.kind == "FIXED_VALUE" || x.kind == "PERCENTAGE")
    && x.value >= 0.0 && x.name != ""
  }

  predicate ValidCustomFields(fs: Option<seq<CustomField>>)
  {
    fs.Some? ==> forall k :: 0 <= k < |fs.value| ==> ValidCustomField(fs.value[k])
  }

  predicate ValidExtensions(xs: Option<seq<Extension>>)
  {
    xs.Some? ==> forall k :: 0 <= k < |xs.value| ==> ValidExtension(xs.value[k])
  }

  predicate ValidItem(it: Item)
  {
    it.description != "" && it.quantity >= 1.0 && it.rate >= 0.0
    && it.itemName != "" && it.itemUOM != ""
    && ValidCustomFields(it.customFields) && ValidExtensions(it.extensions)
  }

  predicate ValidDocument(d: Document, syntax: Syntax)
  {
    d.documentUrl.Some? ==> syntax.isUrl(d.documentUrl.value)
  }

  predicate ValidBankAccount(b: BankAccount)
  {
    b.sortCode != "" && b.accountNumber != "" && b.accountName != ""
  }

  predicate ValidContact(c: Contact, syntax: Syntax)
  {
    syntax.isEmail(c.email) && c.mobileNumber != ""
  }

  predicate ValidCustomer(c: Customer, syntax: Syntax)
  {
    c.firstName != "" && c.lastName != "" && ValidContact(c.contact, syntax)
    && |c.addresses| >= 1
    && forall k :: 0 <= k < |c.addresses| ==> ValidAddress(c.addresses[k])
  }

  predicate ValidDocuments(ds: Option<seq<Document>>, syntax: Syntax)
  {
    ds.Some? ==> forall k :: 0 <= k < |ds.value| ==> ValidDocument(ds.value[k], syntax)
  }

  /** Every rule of the invoice schema, written as one predicate over the record. */
  predicate ValidInvoice(inv: Invoice, syntax: Syntax)
  {
    && ValidBankAccount(inv.bankAccount)
    && ValidCustomer(inv.customer, syntax)
    && ValidDocuments(inv.documents, syntax)
    && inv.invoiceReference != "" && inv.invoiceNumber != "" && inv.currency != ""
    && inv.invoiceDate != "" && inv.dueDate != "" && inv.description != ""
    && ValidCustomFields(inv.customFields)
    && ValidExtensions(inv.extensions)
    && |inv.items| >= 1
    && (forall k :: 0 <= k < |inv.items| ==> ValidItem(inv.items[k]))
  }

  /** The direct statement of validity for each kind of record. */
  predicate Valid(part: Part, syntax: Syntax)
  {
    match part
    case LoginPart(d) => ValidLogin(d)
    case BankAccountPart(b) => ValidBankAccount(b)
    case ContactPart(c) => ValidContact(c, syntax)
    case AddressPart(a) => ValidAddress(a)
    case CustomerPart(c) => ValidCustomer(c, syntax)
    case DocumentPart(d) => ValidDocument(d, syntax)
    case CustomFieldPart(c) => ValidCustomField(c)
    case ExtensionPart(x) => ValidExtension(x)
    case ItemPart(it) => ValidItem(it)
    case InvoicePart(inv) => ValidInvoice(inv, syntax)
  }
}
