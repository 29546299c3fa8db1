/**
  What the login and invoice schemas promise: a record passes exactly when
  every rule holds, each check reports its own message at its own key, the
  issues below a nested object or array element are exactly that part's
  issues, and optional parts may be left out.
*/
module ValidationProperties {
  import opened Wrappers
  import opened FieldNames
  import opened InvoiceForm
  import opened Validation

  // ----------------------------------------------------- walking a path

  /** One step of `Reports`, for a path that starts with key `f`. */
  lemma ReportsStep(part: Part, syntax: Syntax, f: FieldName, rest: Path, m: string)
    ensures Reports(part, syntax, [Key(f)] + rest, m) <==>
      || (rest == [] && Own(part, syntax, f) == Some(m))
      || (Sub(part, f).Some? && Reports(Sub(part, f).value, syntax, rest, m))
      || (|rest| >= 1 && rest[0].At? && Elem(part, f, rest[0].index).Some?
          && Reports(Elem(part, f, rest[0].index).value, syntax, rest[1..], m))
  {
    var p := [Key(f)] + rest;
    assert p[0] == Key(f) && p[1..] == rest;
    if |rest| >= 1 {
      assert p[1] == rest[0] && p[2..] == rest[1..];
    }
  }

  /** A key holds either a nested object or a checked value or array, never both. */
  lemma ObjectKeysHaveNoOwnCheck(part: Part, syntax: Syntax, f: FieldName, i: nat)
    requires Sub(part, f).Some?
    ensures Own(part, syntax, f).None? && Elem(part, f, i).None?
  {
  }

  /** A path that stops at key `f` reports exactly `f`'s own message. */
  lemma ReportsAtKey(part: Part, syntax: Syntax, f: FieldName, m: string)
    ensures Reports(part, syntax, [Key(f)], m) <==> Own(part, syntax, f) == Some(m)
  {
    ReportsStep(part, syntax, f, [], m);
    assert [Key(f)] + [] == [Key(f)];
  }

  /** Below the key of a nested object, the issues are that object's issues. */
  lemma ReportsBelowKey(part: Part, syntax: Syntax, f: FieldName, rest: Path, m: string)
    requires Sub(part, f).Some?
    ensures Reports(part, syntax, [Key(f)] + rest, m) <==> Reports(Sub(part, f).value, syntax, rest, m)
  {
    ReportsStep(part, syntax, f, rest, m);
    if |rest| >= 1 && rest[0].At? {
      ObjectKeysHaveNoOwnCheck(part, syntax, f, rest[0].index);
    }
  }

  /** Below an array key and index, the issues are that element's issues. */
  lemma ReportsBelowIndex(part: Part, syntax: Syntax, f: FieldName, i: nat, rest: Path, m: string)
    requires Sub(part, f).None?
    ensures Reports(part, syntax, [Key(f), At(i)] + rest, m) <==>
            Elem(part, f, i).Some? && Reports(Elem(part, f, i).value, syntax, rest, m)
  {
    ReportsStep(part, syntax, f, [At(i)] + rest, m);
    assert [Key(f), At(i)] + rest == [Key(f)] + ([At(i)] + rest);
    assert ([At(i)] + rest)[0] == At(i) && ([At(i)] + rest)[1..] == rest;
  }

  /** A record with no nested object and no array reports only at one-key paths. */
  lemma LeafReports(part: Part, syntax: Syntax, p: Path, m: string)
    requires forall f :: Sub(part, f).None?
    requires forall f, i :: Elem(part, f, i).None?
    ensures Reports(part, syntax, p, m) <==>
            |p| == 1 && p[0].Key? && Own(part, syntax, p[0].field) == Some(m)
  {
  }

  /** Every issue sits at a key, never at a bare array index, and carries a non-empty message. */
  lemma {:induction false} IssuesEndAtKeys(part: Part, syntax: Syntax, p: Path, m: string)
    requires Reports(part, syntax, p, m)
    ensures |p| >= 1 && p[|p| - 1].Key? && m != ""
    decreases |p|
  {
    var f := p[0].field;
    if |p| == 1 {
    } else if Sub(part, f).Some? && Reports(Sub(part, f).value, syntax, p[1..], m) {
      IssuesEndAtKeys(Sub(part, f).value, syntax, p[1..], m);
      assert p[|p| - 1] == p[1..][|p[1..]| - 1];
    } else {
      IssuesEndAtKeys(Elem(part, f, p[1].index).value, syntax, p[2..], m);
      assert p[|p| - 1] == p[2..][|p[2..]| - 1];
    }
  }

  // ------------------------------------------------ passing, structurally

  /**
    A record passes exactly when no own check of it fails, every nested
    object passes and every element of every present array passes.
  */
  lemma PassesIff(part: Part, syntax: Syntax)
    ensures Passes(part, syntax) <==>
      && (forall f :: Own(part, syntax, f).None?)
      && (forall f :: Sub(part, f).Some? ==> Passes(Sub(part, f).value, syntax))
      && (forall f, i :: Elem(part, f, i).Some? ==> Passes(Elem(part, f, i).value, syntax))
  {
    if f :| Own(part, syntax, f).Some? {
      ReportsAtKey(part, syntax, f, Own(part, syntax, f).value);
    } else if f :| Sub(part, f).Some? && !Passes(Sub(part, f).value, syntax) {
      var p, m :| Reports(Sub(part, f).value, syntax, p, m);
      ReportsBelowKey(part, syntax, f, p, m);
    } else if f, i :| Elem(part, f, i).Some? && !Passes(Elem(part, f, i).value, syntax) {
      var p, m :| Reports(Elem(part, f, i).value, syntax, p, m);
      assert Sub(part, f).None?;
      ReportsBelowIndex(part, syntax, f, i, p, m);
    } else {
      forall p: Path, m: string ensures !Reports(part, syntax, p, m) {
        if |p| >= 1 && p[0].Key? {
          assert p == [p[0]] + p[1..];
          ReportsStep(part, syntax, p[0].field, p[1..], m);
        }
      }
    }
  }

  /** A record with no nested object and no array passes exactly when its own checks do. */
  lemma LeafPasses(part: Part, syntax: Syntax)
    requires forall f :: Sub(part, f).None?
    requires forall f, i :: Elem(part, f, i).None?
    ensures Passes(part, syntax) <==> forall f :: Own(part, syntax, f).None?
  {
    PassesIff(part, syntax);
  }

  // ---------------------------------------------- passing, kind by kind

  lemma LoginPasses(d: LoginData, syntax: Syntax)
    ensures Passes(LoginPart(d), syntax) <==> ValidLogin(d)
  {
    var part := LoginPart(d);
    LeafPasses(part, syntax);
    assert Own(part, syntax, username).None? && Own(part, syntax, password).None?
      ==> ValidLogin(d);
  }

  lemma BankAccountPasses(b: BankAccount, syntax: Syntax)
    ensures Passes(BankAccountPart(b), syntax) <==> ValidBankAccount(b)
  {
    var part := BankAccountPart(b);
    LeafPasses(part, syntax);
    assert Own(part, syntax, sortCode).None? && Own(part, syntax, accountNumber).None?
      && Own(part, syntax, accountName).None?
      ==> ValidBankAccount(b);
  }

  lemma ContactPasses(c: Contact, syntax: Syntax)
    ensures Passes(ContactPart(c), syntax) <==> ValidContact(c, syntax)
  {
    var part := ContactPart(c);
    LeafPasses(part, syntax);
    assert Own(part, syntax, email).None? && Own(part, syntax, mobileNumber).None?
      ==> ValidContact(c, syntax);
  }

  lemma AddressPasses(a: Address, syntax: Syntax)
    ensures Passes(AddressPart(a), syntax) <==> ValidAddress(a)
  {
    var part := AddressPart(a);
    LeafPasses(part, syntax);
    assert Own(part, syntax, premise).None? && Own(part, syntax, countryCode).None?
      && Own(part, syntax, postcode).None? && Own(part, syntax, county).None?
      && Own(part, syntax, city).None? && Own(part, syntax, addressType).None?
      ==> ValidAddress(a);
  }

  lemma DocumentPasses(d: Document, syntax: Syntax)
    ensures Passes(DocumentPart(d), syntax) <==> ValidDocument(d, syntax)
  {
    var part := DocumentPart(d);
    LeafPasses(part, syntax);
    assert Own(part, syntax, documentUrl).None? ==> ValidDocument(d, syntax);
  }

  lemma CustomFieldPasses(c: CustomField, syntax: Syntax)
    ensures Passes(CustomFieldPart(c), syntax) <==> ValidCustomField(c)
  {
    var part := CustomFieldPart(c);
    LeafPasses(part, syntax);
    assert Own(part, syntax, key).None? && Own(part, syntax, value).None?
      ==> ValidCustomField(c);
  }

  lemma ExtensionChecks(x: Extension, syntax: Syntax)
    ensures (forall f :: Own(ExtensionPart(x), syntax, f).None?) <==> ValidExtension(x)
  {
    var part := ExtensionPart(x);
    assert Own(part, syntax, addDeduct).None? && Own(part, syntax, value).None?
      && Own(part, syntax, type_).None? && Own(part, syntax, name).None?
      ==> ValidExtension(x);
  }

  lemma ExtensionPasses(x: Extension, syntax: Syntax)
    ensures Passes(ExtensionPart(x), syntax) <==> ValidExtension(x)
  {
    LeafPasses(ExtensionPart(x), syntax);
    ExtensionChecks(x, syntax);
  }

  lemma DocumentsPass(ds: Option<seq<Document>>, syntax: Syntax)
    ensures (forall i :: DocumentAt(ds, i).Some? ==> Passes(DocumentAt(ds, i).value, syntax))
            <==> ValidDocuments(ds, syntax)
  {
    if ds.Some? {
      forall k | 0 <= k < |ds.value|
        ensures Passes(DocumentPart(ds.value[k]), syntax) <==> ValidDocument(ds.value[k], syntax)
        ensures DocumentAt(ds, k) == Some(DocumentPart(ds.value[k]))
      {
        DocumentPasses(ds.value[k], syntax);
      }
    }
  }

  lemma CustomFieldsPass(fs: Option<seq<CustomField>>, syntax: Syntax)
    ensures (forall i :: CustomFieldAt(fs, i).Some? ==> Passes(CustomFieldAt(fs, i).value, syntax))
            <==> ValidCustomFields(fs)
  {
    if fs.Some? {
      forall k | 0 <= k < |fs.value|
        ensures Passes(CustomFieldPart(fs.value[k]), syntax) <==> ValidCustomField(fs.value[k])
        ensures CustomFieldAt(fs, k) == Some(CustomFieldPart(fs.value[k]))
      {
        CustomFieldPasses(fs.value[k], syntax);
      }
    }
  }

  lemma ExtensionsPass(xs: Option<seq<Extension>>, syntax: Syntax)
    ensures (forall i :: ExtensionAt(xs, i).Some? ==> Passes(ExtensionAt(xs, i).value, syntax))
            <==> ValidExtensions(xs)
  {
    if xs.Some? {
      forall k | 0 <= k < |xs.value|
        ensures Passes(ExtensionPart(xs.value[k]), syntax) <==> ValidExtension(xs.value[k])
        ensures ExtensionAt(xs, k) == Some(ExtensionPart(xs.value[k]))
      {
        ExtensionPasses(xs.value[k], syntax);
      }
    }
  }

  lemma AddressesPass(addresses: seq<Address>, syntax: Syntax)
    ensures (forall i :: AddressAt(addresses, i).Some? ==> Passes(AddressAt(addresses, i).value, syntax))
            <==> forall k :: 0 <= k < |addresses| ==> ValidAddress(addresses[k])
  {
    forall k | 0 <= k < |addresses|
      ensures Passes(AddressPart(addresses[k]), syntax) <==> ValidAddress(addresses[k])
      ensures AddressAt(addresses, k) == Some(AddressPart(addresses[k]))
    {
      AddressPasses(addresses[k], syntax);
    }
  }

  lemma CustomerPasses(c: Customer, syntax: Syntax)
    ensures Passes(CustomerPart(c), syntax) <==> ValidCustomer(c, syntax)
  {
    var part := CustomerPart(c);
    PassesIff(part, syntax);
    ContactPasses(c.contact, syntax);
    AddressesPass(c.addresses, syntax);
    assert forall i :: Elem(part, addresses, i) == AddressAt(c.addresses, i);
    assert Own(part, syntax, firstName).None? && Own(part, syntax, lastName).None?
      && Own(part, syntax, addresses).None?
      && Passes(Sub(part, contact).value, syntax)
      ==> c.firstName != "" && c.lastName != "" && |c.addresses| >= 1
          && ValidContact(c.contact, syntax);
  }

  lemma ItemChecks(it: Item, syntax: Syntax)
    ensures (forall f :: Own(ItemPart(it), syntax, f).None?) <==>
      && it.description != "" && it.quantity >= 1.0 && it.rate >= 0.0
      && it.itemName != "" && it.itemUOM != ""
  {
    var part := ItemPart(it);
    assert Own(part, syntax, description).None? && Own(part, syntax, quantity).None?
      && Own(part, syntax, rate).None? && Own(part, syntax, itemName).None?
      && Own(part, syntax, itemUOM).None?
      ==> it.description != "" && it.quantity >= 1.0 && it.rate >= 0.0
          && it.itemName != "" && it.itemUOM != "";
  }

  lemma ItemArraysPass(it: Item, syntax: Syntax)
    ensures (forall f, i :: Elem(ItemPart(it), f, i).Some? ==>
                            Passes(Elem(ItemPart(it), f, i).value, syntax))
      <==> ValidCustomFields(it.customFields) && ValidExtensions(it.extensions)
  {
    var part := ItemPart(it);
    CustomFieldsPass(it.customFields, syntax);
    ExtensionsPass(it.extensions, syntax);
    assert forall i :: Elem(part, customFields, i) == CustomFieldAt(it.customFields, i);
    assert forall i :: Elem(part, extensions, i) == ExtensionAt(it.extensions, i);
  }

  lemma ItemPasses(it: Item, syntax: Syntax)
    ensures Passes(ItemPart(it), syntax) <==> ValidItem(it)
  {
    PassesIff(ItemPart(it), syntax);
    ItemChecks(it, syntax);
    ItemArraysPass(it, syntax);
  }

  lemma ItemsPass(items: seq<Item>, syntax: Syntax)
    ensures (forall i :: ItemAt(items, i).Some? ==> Passes(ItemAt(items, i).value, syntax))
            <==> forall k :: 0 <= k < |items| ==> ValidItem(items[k])
  {
    forall k | 0 <= k < |items|
      ensures Passes(ItemPart(items[k]), syntax) <==> ValidItem(items[k])
      ensures ItemAt(items, k) == Some(ItemPart(items[k]))
    {
      ItemPasses(items[k], syntax);
    }
  }

  /** The invoice's own checks: its six required strings and its non-empty item list. */
  lemma InvoiceChecks(inv: Invoice, syntax: Syntax)
    ensures (forall f :: Own(InvoicePart(inv), syntax, f).None?) <==>
      && inv.invoiceReference != "" && inv.invoiceNumber != "" && inv.currency != ""
      && inv.invoiceDate != "" && inv.dueDate != "" && inv.description != ""
      && |inv.items| >= 1
  {
    var part := InvoicePart(inv);
    assert Own(part, syntax, invoiceReference).None? && Own(part, syntax, invoiceNumber).None?
      && Own(part, syntax, currency).None? && Own(part, syntax, invoiceDate).None?
      && Own(part, syntax, dueDate).None? && Own(part, syntax, description).None?
      && Own(part, syntax, items).None?
      ==> inv.invoiceReference != "" && inv.invoiceNumber != "" && inv.currency != ""
          && inv.invoiceDate != "" && inv.dueDate != "" && inv.description != ""
          && |inv.items| >= 1;
  }

  lemma InvoiceArraysPass(inv: Invoice, syntax: Syntax)
    ensures (forall f, i :: Elem(InvoicePart(inv), f, i).Some? ==>
                            Passes(Elem(InvoicePart(inv), f, i).value, syntax))
      <==> && ValidDocuments(inv.documents, syntax)
           && ValidCustomFields(inv.customFields)
           && ValidExtensions(inv.extensions)
           && (forall k :: 0 <= k < |inv.items| ==> ValidItem(inv.items[k]))
  {
    var part := InvoicePart(inv);
    DocumentsPass(inv.documents, syntax);
    CustomFieldsPass(inv.customFields, syntax);
    ExtensionsPass(inv.extensions, syntax);
    ItemsPass(inv.items, syntax);
    assert forall i :: Elem(part, documents, i) == DocumentAt(inv.documents, i);
    assert forall i :: Elem(part, customFields, i) == CustomFieldAt(inv.customFields, i);
    assert forall i :: Elem(part, extensions, i) == ExtensionAt(inv.extensions, i);
    assert forall i :: Elem(part, items, i) == ItemAt(inv.items, i);
  }

  lemma InvoicePasses(inv: Invoice, syntax: Syntax)
    ensures Passes(InvoicePart(inv), syntax) <==> ValidInvoice(inv, syntax)
  {
    var part := InvoicePart(inv);
    PassesIff(part, syntax);
    InvoiceChecks(inv, syntax);
    InvoiceArraysPass(inv, syntax);
    BankAccountPasses(inv.bankAccount, syntax);
    CustomerPasses(inv.customer, syntax);
    assert Sub(part, bankAccount) == Some(BankAccountPart(inv.bankAccount));
    assert Sub(part, customer) == Some(CustomerPart(inv.customer));
  }

  /** The schema accepts a record exactly when every rule of it holds. */
  lemma PassesIffValid(part: Part, syntax: Syntax)
    ensures Passes(part, syntax) <==> Valid(part, syntax)
  {
    match part
    case LoginPart(d) => LoginPasses(d, syntax);
    case BankAccountPart(b) => BankAccountPasses(b, syntax);
    case ContactPart(c) => ContactPasses(c, syntax);
    case AddressPart(a) => AddressPasses(a, syntax);
    case CustomerPart(c) => CustomerPasses(c, syntax);
    case DocumentPart(d) => DocumentPasses(d, syntax);
    case CustomFieldPart(c) => CustomFieldPasses(c, syntax);
    case ExtensionPart(x) => ExtensionPasses(x, syntax);
    case ItemPart(it) => ItemPasses(it, syntax);
    case InvoicePart(inv) => InvoicePasses(inv, syntax);
  }
}
