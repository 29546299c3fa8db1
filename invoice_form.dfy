/**
  The invoice record the create form edits and the validation schema checks,
  field for field, with the parts the schema marks optional as `Option`s.
  Quantities, rates and extension values are `real`s.
*/
module InvoiceForm {
  import opened Wrappers

  datatype LoginData = LoginData(username: string, password: string)

  datatype BankAccount = BankAccount(
    bankId: Option<string>,
    sortCode: string,
    accountNumber: string,
    accountName: string)

  datatype Contact = Contact(email: string, mobileNumber: string)

  datatype Address = Address(
    premise: string,
    countryCode: string,
    postcode: string,
    county: string,
    city: string,
    addressType: string)

  datatype Customer = Customer(
    firstName: string,
    lastName: string,
    contact: Contact,
    addresses: seq<Address>)

  datatype Document = Document(
    documentId: Option<string>,
    documentName: Option<string>,
    documentUrl: Option<string>)

  datatype CustomField = CustomField(key: string, value: string)

  /** A charge or discount; `kind` is the record's `type` field. */
  datatype Extension = Extension(addDeduct: string, value: real, kind: string, name: string)

  datatype Item = Item(
    itemReference: Option<string>,
    description: string,
    quantity: real,
    rate: real,
    itemName: string,
    itemUOM: string,
    customFields: Option<seq<CustomField>>,
    extensions: Option<seq<Extension>>)

  datatype Invoice = Invoice(
    bankAccount: BankAccount,
    customer: Customer,
    documents: Option<seq<Document>>,
    invoiceReference: string,
    invoiceNumber: string,
    currency: string,
    invoiceDate: string,
    dueDate: string,
    description: string,
    customFields: Option<seq<CustomField>>,
    extensions: Option<seq<Extension>>,
    items: seq<Item>)
}
