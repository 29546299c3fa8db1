/**
  Which message each schema reports, and where.
*/
module ValidationMessages {
  import opened Wrappers
  import opened FieldNames
  import opened InvoiceForm
  import opened Validation
  import opened ValidationProperties

  // --------------------------------------- records without nested parts

  /** The login schema reports a missing username and a missing password, each at its key. */
  lemma LoginIssues(d: LoginData, syntax: Syntax, p: Path, m: string)
    ensures Reports(LoginPart(d), syntax, p, m) <==>
      || (p == [Key(username)] && d.username == "" && m == "Username is required")
      || (p == [Key(password)] && d.password == "" && m == "Password is required")
  {
    LeafReports(LoginPart(d), syntax, p, m);
    if |p| == 1 {
      assert p == [p[0]];
    }
  }

  lemma BankAccountIssues(b: BankAccount, syntax: Syntax, p: Path, m: string)
    ensures Reports(BankAccountPart(b), syntax, p, m) <==>
      || (p == [Key(sortCode)] && b.sortCode == "" && m == "Sort code is required")
      || (p == [Key(accountNumber)] && b.accountNumber == "" && m == "Account number is required")
      || (p == [Key(accountName)] && b.accountName == "" && m == "Account name is required")
  {
    LeafReports(BankAccountPart(b), syntax, p, m);
    if |p| == 1 {
      assert p == [p[0]];
    }
  }

  /** The e-mail address has only a syntax check: an empty one is "Invalid email address". */
  lemma ContactIssues(c: Contact, syntax: Syntax, p: Path, m: string)
    ensures Reports(ContactPart(c), syntax, p, m) <==>
      || (p == [Key(email)] && !syntax.isEmail(c.email) && m == "Invalid email address")
      || (p == [Key(mobileNumber)] && c.mobileNumber == "" && m == "Mobile number is required")
  {
    LeafReports(ContactPart(c), syntax, p, m);
    if |p| == 1 {
      assert p == [p[0]];
    }
  }

  /** A country code shorter than two or longer than three characters is reported, with different messages. */
  lemma AddressIssues(a: Address, syntax: Syntax, p: Path, m: string)
    ensures Reports(AddressPart(a), syntax, p, m) <==>
      || (p == [Key(premise)] && a.premise == "" && m == "Premise is required")
      || (p == [Key(countryCode)] && Utf16Length(a.countryCode) < 2 && m == "Country code is required")
      || (p == [Key(countryCode)] && Utf16Length(a.countryCode) > 3
          && m == "Country code should be 2-3 characters")
      || (p == [Key(postcode)] && a.postcode == "" && m == "Postcode is required")
      || (p == [Key(county)] && a.county == "" && m == "County is required")
      || (p == [Key(city)] && a.city == "" && m == "City is required")
      || (p == [Key(addressType)] && a.addressType == "" && m == "Address type is required")
  {
    LeafReports(AddressPart(a), syntax, p, m);
    if |p| == 1 {
      assert p == [p[0]];
    }
  }

  /** Only a present document URL is checked, and only its syntax. */
  lemma DocumentIssues(d: Document, syntax: Syntax, p: Path, m: string)
    ensures Reports(DocumentPart(d), syntax, p, m) <==>
      p == [Key(documentUrl)] && d.documentUrl.Some? && !syntax.isUrl(d.documentUrl.value)
      && m == "Invalid document URL"
  {
    LeafReports(DocumentPart(d), syntax, p, m);
    if |p| == 1 {
      assert p == [p[0]];
    }
  }

  /** A custom field needs both its key and its value. */
  lemma CustomFieldIssues(c: CustomField, syntax: Syntax, p: Path, m: string)
    ensures Reports(CustomFieldPart(c), syntax, p, m) <==>
      || (p == [Key(key)] && c.key == "" && m == "Custom field key is required")
      || (p == [Key(value)] && c.value == "" && m == "Custom field value is required")
  {
    LeafReports(CustomFieldPart(c), syntax, p, m);
    if |p| == 1 {
      assert p == [p[0]];
    }
  }

  lemma ExtensionIssues(x: Extension, syntax: Syntax, p: Path, m: string)
    ensures Reports(ExtensionPart(x), syntax, p, m) <==>
      || (p == [Key(addDeduct)] && x.addDeduct != "ADD" && x.addDeduct != "DEDUCT"
          && m == EnumMessage("ADD", "DEDUCT", x.addDeduct))
      || (p == [Key(value)] && x.value < 0.0 && m == "Extension value must be a positive number")
      || (p == [Key(type_)] && x.kind != "FIXED_VALUE" && x.kind != "PERCENTAGE"
          && m == EnumMessage("FIXED_VALUE", "PERCENTAGE", x.kind))
      || (p == [Key(name)] && x.name == "" && m == "Extension name is required")
  {
    var part := ExtensionPart(x);
    LeafReports(part, syntax, p, m);
    if |p| == 1 {
      assert p == [p[0]];
    }
  }

  // ------------------------------------ own keys of the nesting records

  lemma CustomerKeyIssues(c: Customer, syntax: Syntax, f: FieldName, m: string)
    ensures Reports(CustomerPart(c), syntax, [Key(f)], m) <==>
      || (f == firstName && c.firstName == "" && m == "First name is required")
      || (f == lastName && c.lastName == "" && m == "Last name is required")
      || (f == addresses && |c.addresses| == 0 && m == "At least one address is required")
  {
    ReportsAtKey(CustomerPart(c), syntax, f, m);
  }

  lemma ItemKeyIssues(it: Item, syntax: Syntax, f: FieldName, m: string)
    ensures Reports(ItemPart(it), syntax, [Key(f)], m) <==>
      || (f == description && it.description == "" && m == "Item description is required")
      || (f == quantity && it.quantity < 1.0 && m == "Quantity must be at least 1")
      || (f == rate && it.rate < 0.0 && m == "Rate must be a positive number")
      || (f == itemName && it.itemName == "" && m == "Item name is required")
      || (f == itemUOM && it.itemUOM == "" && m == "Unit of Measure is required")
  {
    ReportsAtKey(ItemPart(it), syntax, f, m);
  }

  lemma InvoiceKeyIssues(inv: Invoice, syntax: Syntax, f: FieldName, m: string)
    ensures Reports(InvoicePart(inv), syntax, [Key(f)], m) <==>
      || (f == invoiceReference && inv.invoiceReference == "" && m == "Invoice reference is required")
      || (f == invoiceNumber && inv.invoiceNumber == "" && m == "Invoice number is required")
      || (f == currency && inv.currency == "" && m == "Currency is required")
      || (f == invoiceDate && inv.invoiceDate == "" && m == "Invoice date is required")
      || (f == dueDate && inv.dueDate == "" && m == "Due date is required")
      || (f == description && inv.description == "" && m == "Description is required")
      || (f == items && |inv.items| == 0 && m == "At least one item is required")
  {
    ReportsAtKey(InvoicePart(inv), syntax, f, m);
  }

  // --------------------------------------------- from the invoice's root

  /** The issues below `items[i]` are exactly item `i`'s issues. */
  lemma InvoiceItemIssues(inv: Invoice, syntax: Syntax, i: nat, rest: Path, m: string)
    ensures Reports(InvoicePart(inv), syntax, [Key(items), At(i)] + rest, m) <==>
            i < |inv.items| && Reports(ItemPart(inv.items[i]), syntax, rest, m)
  {
    ReportsBelowIndex(InvoicePart(inv), syntax, items, i, rest, m);
  }

  lemma QuantityIssue(inv: Invoice, syntax: Syntax, i: nat, m: string)
    ensures Reports(InvoicePart(inv), syntax, [Key(items), At(i), Key(quantity)], m) <==>
            i < |inv.items| && inv.items[i].quantity < 1.0 && m == "Quantity must be at least 1"
  {
    InvoiceItemIssues(inv, syntax, i, [Key(quantity)], m);
    if i < |inv.items| {
      ItemKeyIssues(inv.items[i], syntax, quantity, m);
    }
  }

  lemma CountryCodeIssue(inv: Invoice, syntax: Syntax, i: nat, m: string)
    ensures Reports(InvoicePart(inv), syntax,
                    [Key(customer), Key(addresses), At(i), Key(countryCode)], m) <==>
      && i < |inv.customer.addresses|
      && ((Utf16Length(inv.customer.addresses[i].countryCode) < 2 && m == "Country code is required")
          || (Utf16Length(inv.customer.addresses[i].countryCode) > 3
              && m == "Country code should be 2-3 characters"))
  {
    var c := inv.customer;
    var rest := [Key(addresses), At(i), Key(countryCode)];
    assert [Key(customer), Key(addresses), At(i), Key(countryCode)] == [Key(customer)] + rest;
    ReportsBelowKey(InvoicePart(inv), syntax, customer, rest, m);
    ReportsBelowIndex(CustomerPart(c), syntax, addresses, i, [Key(countryCode)], m);
    if i < |c.addresses| {
      AddressIssues(c.addresses[i], syntax, [Key(countryCode)], m);
    }
  }

  /**
    The country-code bounds count UTF-16 code units: one character outside the
    Basic Multilingual Plane is already two, and two such characters are four.
  */
  lemma AstralCountryCodes()
    ensures CountryCodeCheck("\U{1F600}") == None
    ensures CountryCodeCheck("\U{1F600}\U{1F600}") == Some("Country code should be 2-3 characters")
    ensures CountryCodeCheck("G") == Some("Country code is required")
  {
    assert Utf16Length("\U{1F600}") == 2 by {
      assert "\U{1F600}"[1..] == "";
    }
    assert Utf16Length("\U{1F600}\U{1F600}") == 4 by {
      assert "\U{1F600}\U{1F600}"[1..] == "\U{1F600}";
      assert "\U{1F600}"[1..] == "";
    }
  }

  /** An e-mail address that fails the syntax check is "Invalid email address". */
  lemma EmailIssue(inv: Invoice, syntax: Syntax, m: string)
    ensures Reports(InvoicePart(inv), syntax, [Key(customer), Key(contact), Key(email)], m) <==>
            !syntax.isEmail(inv.customer.contact.email) && m == "Invalid email address"
  {
    var rest := [Key(contact), Key(email)];
    assert [Key(customer), Key(contact), Key(email)] == [Key(customer)] + rest;
    ReportsBelowKey(InvoicePart(inv), syntax, customer, rest, m);
    assert rest == [Key(contact)] + [Key(email)];
    ReportsBelowKey(CustomerPart(inv.customer), syntax, contact, [Key(email)], m);
    ContactIssues(inv.customer.contact, syntax, [Key(email)], m);
  }

  /**
    An empty e-mail address is reported as "Invalid email address" and
    nothing else, under an e-mail check that rejects the empty text.
  */
  lemma EmptyEmailIssue(inv: Invoice, syntax: Syntax, m: string)
    requires EmailRejectsEmpty(syntax)
    requires inv.customer.contact.email == ""
    ensures Reports(InvoicePart(inv), syntax, [Key(customer), Key(contact), Key(email)], m) <==>
            m == "Invalid email address"
  {
    EmailIssue(inv, syntax, m);
  }

  /**
    Extensions are checked by the same rules at invoice level and at item
    level: the issues below either are exactly that extension's issues.
  */
  lemma ExtensionRulesShared(inv: Invoice, syntax: Syntax, i: nat, j: nat, rest: Path, m: string)
    ensures Reports(InvoicePart(inv), syntax, [Key(extensions), At(j)] + rest, m) <==>
            ExtensionAt(inv.extensions, j).Some?
            && Reports(ExtensionAt(inv.extensions, j).value, syntax, rest, m)
    ensures Reports(InvoicePart(inv), syntax,
                    [Key(items), At(i), Key(extensions), At(j)] + rest, m) <==>
            i < |inv.items| && ExtensionAt(inv.items[i].extensions, j).Some?
            && Reports(ExtensionAt(inv.items[i].extensions, j).value, syntax, rest, m)
  {
    ReportsBelowIndex(InvoicePart(inv), syntax, extensions, j, rest, m);
    var below := [Key(extensions), At(j)] + rest;
    assert [Key(items), At(i), Key(extensions), At(j)] + rest == [Key(items), At(i)] + below;
    InvoiceItemIssues(inv, syntax, i, below, m);
    if i < |inv.items| {
      ReportsBelowIndex(ItemPart(inv.items[i]), syntax, extensions, j, rest, m);
    }
  }

  /** An absent optional array of the invoice reports nothing below its key. */
  lemma AbsentInvoiceArrays(inv: Invoice, syntax: Syntax, rest: Path, m: string)
    ensures inv.documents.None? ==> !Reports(InvoicePart(inv), syntax, [Key(documents)] + rest, m)
    ensures inv.customFields.None? ==> !Reports(InvoicePart(inv), syntax, [Key(customFields)] + rest, m)
    ensures inv.extensions.None? ==> !Reports(InvoicePart(inv), syntax, [Key(extensions)] + rest, m)
  {
    ReportsStep(InvoicePart(inv), syntax, documents, rest, m);
    ReportsStep(InvoicePart(inv), syntax, customFields, rest, m);
    ReportsStep(InvoicePart(inv), syntax, extensions, rest, m);
  }

  /** An absent optional array of an item reports nothing below its key. */
  lemma AbsentItemArrays(inv: Invoice, syntax: Syntax, i: nat, rest: Path, m: string)
    requires i < |inv.items|
    ensures inv.items[i].customFields.None? ==>
            !Reports(InvoicePart(inv), syntax, [Key(items), At(i), Key(customFields)] + rest, m)
    ensures inv.items[i].extensions.None? ==>
            !Reports(InvoicePart(inv), syntax, [Key(items), At(i), Key(extensions)] + rest, m)
  {
    assert [Key(items), At(i), Key(customFields)] + rest
        == [Key(items), At(i)] + ([Key(customFields)] + rest);
    assert [Key(items), At(i), Key(extensions)] + rest
        == [Key(items), At(i)] + ([Key(extensions)] + rest);
    InvoiceItemIssues(inv, syntax, i, [Key(customFields)] + rest, m);
    InvoiceItemIssues(inv, syntax, i, [Key(extensions)] + rest, m);
    ReportsStep(ItemPart(inv.items[i]), syntax, customFields, rest, m);
    ReportsStep(ItemPart(inv.items[i]), syntax, extensions, rest, m);
  }

  /**
    Currency and dates are checked only for being non-empty: any non-empty
    values keep a passing invoice passing.
  */
  lemma CurrencyAndDatesUnchecked(inv: Invoice, syntax: Syntax, cur: string, issued: string, due: string)
    requires Passes(InvoicePart(inv), syntax)
    requires cur != "" && issued != "" && due != ""
    ensures Passes(InvoicePart(inv.(currency := cur, invoiceDate := issued, dueDate := due)), syntax)
  {
    InvoicePasses(inv, syntax);
    InvoicePasses(inv.(currency := cur, invoiceDate := issued, dueDate := due), syntax);
  }
}
