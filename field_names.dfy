/**
  The keys of the login and invoice records, as they appear in validation
  paths. The keys are numbered, one constant per key, named after the record
  key it stands for; the extension's `type` key, a reserved word here, is
  `type_`. A key shared by several records (`description`, `customFields`,
  `extensions`, `value`) is one constant.
*/
module FieldNames {

  newtype FieldName = k: int | 0 <= k < 43

  // login
  const username: FieldName := 0
  const password: FieldName := 1

  // invoice
  const bankAccount: FieldName := 2
  const customer: FieldName := 3
  const documents: FieldName := 4
  const invoiceReference: FieldName := 5
  const invoiceNumber: FieldName := 6
  const currency: FieldName := 7
  const invoiceDate: FieldName := 8
  const dueDate: FieldName := 9
  const description: FieldName := 10
  const customFields: FieldName := 11
  const extensions: FieldName := 12
  const items: FieldName := 13

  // bank account
  const bankId: FieldName := 14
  const sortCode: FieldName := 15
  const accountNumber: FieldName := 16
  const accountName: FieldName := 17

  // customer, contact and address
  const firstName: FieldName := 18
  const lastName: FieldName := 19
  const contact: FieldName := 20
  const addresses: FieldName := 21
  const email: FieldName := 22
  const mobileNumber: FieldName := 23
  const premise: FieldName := 24
  const countryCode: FieldName := 25
  const postcode: FieldName := 26
  const county: FieldName := 27
  const city: FieldName := 28
  const addressType: FieldName := 29

  // document
  const documentId: FieldName := 30
  const documentName: FieldName := 31
  const documentUrl: FieldName := 32

  // custom field
  const key: FieldName := 33
  const value: FieldName := 34

  // extension
  const addDeduct: FieldName := 35
  const type_: FieldName := 36
  const name: FieldName := 37

  // item (its `description`, `customFields` and `extensions` are listed above)
  const itemReference: FieldName := 38
  const quantity: FieldName := 39
  const rate: FieldName := 40
  const itemName: FieldName := 41
  const itemUOM: FieldName := 42
}
