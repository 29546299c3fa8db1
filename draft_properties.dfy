/**
  What the create-invoice form's inputs do to its values: an input shows what
  was last typed into it and nothing else changes, appending never disturbs
  the rows already there, and the appended rows fail only the checks the user
  still has to fill in. Also the gap between the inputs the form renders and
  the fields the invoice schema requires.
*/
module DraftProperties {
  import opened Wrappers
  import opened FieldNames
  import opened InvoiceForm
  import opened Validation
  import opened ValidationProperties
  import opened ValidationMessages
  import opened InvoiceDraft

  // ------------------------------------------------ one input at a time

  /** Setting one input leaves every other input showing what it showed before. */
  lemma TextFrame(d: Invoice, input: TextInput, other: TextInput, s: string)
    requires input != other
    ensures TextOf(SetText(d, input, s), other) == TextOf(d, other)
  {
  }

  /** Setting a text input leaves every number input as it was. */
  lemma TextKeepsNumbers(d: Invoice, input: TextInput, s: string, field: NumberInput)
    ensures NumberOf(SetText(d, input, s), field) == NumberOf(d, field)
  {
  }

  /** Entering a number changes no other number input and no text input. */
  lemma NumberFrame(d: Invoice, field: NumberInput, x: real, other: NumberInput, input: TextInput)
    ensures other != field ==> NumberOf(SetNumber(d, field, x), other) == NumberOf(d, other)
    ensures TextOf(SetNumber(d, field, x), input) == TextOf(d, input)
  {
  }

  // ------------------------------------------------------------ appending

  /** There is no remove: appending keeps every input of the rows already there. */
  lemma AppendKeepsInputs(d: Invoice, input: TextInput, field: NumberInput)
    ensures TextOf(d, input).Some? ==>
      && TextOf(AppendItem(d), input) == TextOf(d, input)
      && TextOf(AppendCustomField(d), input) == TextOf(d, input)
      && TextOf(AppendExtension(d), input) == TextOf(d, input)
    ensures NumberOf(d, field).Some? ==>
      && NumberOf(AppendItem(d), field) == NumberOf(d, field)
      && NumberOf(AppendCustomField(d), field) == NumberOf(d, field)
      && NumberOf(AppendExtension(d), field) == NumberOf(d, field)
  {
  }

  /** An appended item shows empty texts, quantity 1 and rate 0. */
  lemma AppendedItemShows(d: Invoice)
    ensures var r, n := AppendItem(d), |d.items|;
      && TextOf(r, ItemInput(n, ItemName)) == Some("") && TextOf(r, ItemInput(n, ItemReference)) == Some("")
      && TextOf(r, ItemInput(n, ItemDescription)) == Some("") && TextOf(r, ItemInput(n, ItemUOM)) == Some("")
      && NumberOf(r, ItemQuantity(n)) == Some(1.0) && NumberOf(r, ItemRate(n)) == Some(0.0)
      && TextOf(r, ItemInput(n + 1, ItemName)).None?
  {
  }

  /** An appended extension adds a fixed value of 0 with no name. */
  lemma AppendedRowsShow(d: Invoice)
    ensures var r, n := AppendExtension(d), |Rows(d.extensions)|;
      && TextOf(r, ExtensionInput(n, AddDeduct)) == Some("ADD")
      && TextOf(r, ExtensionInput(n, ExtensionType)) == Some("FIXED_VALUE")
      && NumberOf(r, ExtensionValue(n)) == Some(0.0)
      && TextOf(r, ExtensionInput(n, ExtensionName)) == Some("")
    ensures var r, n := AppendCustomField(d), |Rows(d.customFields)|;
      TextOf(r, CustomFieldInput(n, FieldKey)) == Some("") && TextOf(r, CustomFieldInput(n, FieldValue)) == Some("")
  {
  }

  /** A fresh item passes the quantity and rate rules; it fails only for its empty texts. */
  lemma NewItemIssues(syntax: Syntax, p: Path, m: string)
    ensures Reports(ItemPart(NewItem()), syntax, p, m) <==>
      || (p == [Key(description)] && m == "Item description is required")
      || (p == [Key(itemName)] && m == "Item name is required")
      || (p == [Key(itemUOM)] && m == "Unit of Measure is required")
  {
    var part := ItemPart(NewItem());
    assert forall f, i :: Elem(part, f, i).None?;
    LeafReports(part, syntax, p, m);
    if |p| == 1 {
      assert p == [p[0]];
    }
  }

  /** A fresh extension passes its enum and value rules; it fails only for its empty name. */
  lemma NewExtensionIssues(syntax: Syntax, p: Path, m: string)
    ensures Reports(ExtensionPart(NewExtension()), syntax, p, m) <==>
      p == [Key(name)] && m == "Extension name is required"
  {
    ExtensionIssues(NewExtension(), syntax, p, m);
  }

  /** A fresh custom field fails for its empty key and its empty value. */
  lemma NewCustomFieldIssues(syntax: Syntax, p: Path, m: string)
    ensures Reports(CustomFieldPart(NewCustomField()), syntax, p, m) <==>
      || (p == [Key(key)] && m == "Custom field key is required")
      || (p == [Key(value)] && m == "Custom field value is required")
  {
    CustomFieldIssues(NewCustomField(), syntax, p, m);
  }

  // ------------------------------------- what the rendered inputs can reach

  /**
    What holds of every draft the rendered inputs can produce: the currency is
    empty or one of the offered codes, every extension's add/deduct and type
    are offered values, and no address has an address type.
  */
  predicate AsRendered(d: Invoice)
  {
    && (d.currency == "" || Offers(InvoiceInput(Currency), d.currency))
    && (forall k :: 0 <= k < |Rows(d.extensions)| ==>
          Offers(ExtensionInput(k, AddDeduct), Rows(d.extensions)[k].addDeduct)
          && Offers(ExtensionInput(k, ExtensionType), Rows(d.extensions)[k].kind))
    && (forall k :: 0 <= k < |d.customer.addresses| ==> d.customer.addresses[k].addressType == "")
  }

  /** An offered extension edit keeps every extension's add/deduct and type offered. */
  lemma ExtensionEditKeepsAsRendered(d: Invoice, i: nat, t: ExtensionText, s: string)
    requires AsRendered(d) && Offers(ExtensionInput(i, t), s)
    ensures AsRendered(SetText(d, ExtensionInput(i, t), s))
  {
    if i < |Rows(d.extensions)| {
      var r := SetText(d, ExtensionInput(i, t), s);
      forall k | 0 <= k < |Rows(r.extensions)|
        ensures Offers(ExtensionInput(k, AddDeduct), Rows(r.extensions)[k].addDeduct)
        ensures Offers(ExtensionInput(k, ExtensionType), Rows(r.extensions)[k].kind)
      {
        assert Offers(ExtensionInput(k, AddDeduct), Rows(d.extensions)[k].addDeduct);
        assert Offers(ExtensionInput(k, ExtensionType), Rows(d.extensions)[k].kind);
      }
    }
  }

  /** The rendered address inputs never touch an address type. */
  lemma AddressEditKeepsAsRendered(d: Invoice, t: AddressText, s: string)
    requires AsRendered(d) && t != AddressType
    ensures AsRendered(SetText(d, AddressInput(t), s))
  {
    var r := SetText(d, AddressInput(t), s);
    assert AddressTextOf(FirstAddress(r), AddressType) == AddressTextOf(FirstAddress(d), AddressType);
  }

  lemma ApplyKeepsAsRendered(d: Invoice, e: Edit)
    requires AsRendered(d) && OfferedAsWritten(e)
    ensures AsRendered(Apply(d, e))
  {
    if e.TextEdit? {
      match e.input
      case ExtensionInput(i, t) => ExtensionEditKeepsAsRendered(d, i, t, e.text);
      case AddressInput(t) => AddressEditKeepsAsRendered(d, t, e.text);
      case _ =>
    }
  }

  lemma {:induction false} ReplayKeepsAsRendered(d: Invoice, edits: seq<Edit>)
    requires AsRendered(d)
    requires forall k :: 0 <= k < |edits| ==> OfferedAsWritten(edits[k])
    ensures AsRendered(Replay(d, edits))
    decreases |edits|
  {
    if |edits| > 0 {
      ApplyKeepsAsRendered(d, edits[0]);
      ReplayKeepsAsRendered(Apply(d, edits[0]), edits[1..]);
    }
  }

  /**
    Whatever the user does with the rendered inputs, the schema rejects the
    draft: either the customer has no address, or the first address has no
    address type.
  */
  lemma AsWrittenNeverValid(edits: seq<Edit>, syntax: Syntax)
    requires forall k :: 0 <= k < |edits| ==> OfferedAsWritten(edits[k])
    ensures var d := Replay(EmptyDraft(), edits);
      && !ValidInvoice(d, syntax)
      && (|| Reports(InvoicePart(d), syntax, [Key(customer), Key(addresses)],
                     "At least one address is required")
          || Reports(InvoicePart(d), syntax, [Key(customer), Key(addresses), At(0), Key(addressType)],
                     "Address type is required"))
  {
    ReplayKeepsAsRendered(EmptyDraft(), edits);
    AsRenderedFails(Replay(EmptyDraft(), edits), syntax);
  }

  /** A draft with no address type anywhere fails at the first address, or for having none. */
  lemma AsRenderedFails(d: Invoice, syntax: Syntax)
    requires AsRendered(d)
    ensures !ValidInvoice(d, syntax)
    ensures || Reports(InvoicePart(d), syntax, [Key(customer), Key(addresses)],
                       "At least one address is required")
            || Reports(InvoicePart(d), syntax, [Key(customer), Key(addresses), At(0), Key(addressType)],
                       "Address type is required")
  {
    var part := InvoicePart(d);
    var c := CustomerPart(d.customer);
    assert Sub(part, customer) == Some(c);
    if |d.customer.addresses| == 0 {
      ReportsBelowKey(part, syntax, customer, [Key(addresses)], "At least one address is required");
      ReportsAtKey(c, syntax, addresses, "At least one address is required");
      assert [Key(customer)] + [Key(addresses)] == [Key(customer), Key(addresses)];
    } else {
      var rest := [Key(addressType)];
      ReportsBelowKey(part, syntax, customer, [Key(addresses), At(0)] + rest, "Address type is required");
      ReportsBelowIndex(c, syntax, addresses, 0, rest, "Address type is required");
      AddressIssues(d.customer.addresses[0], syntax, rest, "Address type is required");
      assert [Key(customer)] + ([Key(addresses), At(0)] + rest)
          == [Key(customer), Key(addresses), At(0), Key(addressType)];
    }
  }

  // ------------------------------------- with an address-type input

  /** The edits that type address `a` into the address inputs, the address type included. */
  function FillAddress(a: Address): seq<Edit>
  {
    [TextEdit(AddressInput(Premise), a.premise)]
    + ([TextEdit(AddressInput(CountryCode), a.countryCode)]
    + ([TextEdit(AddressInput(Postcode), a.postcode)]
    + ([TextEdit(AddressInput(County), a.county)]
    + ([TextEdit(AddressInput(City), a.city)]
    + [TextEdit(AddressInput(AddressType), a.addressType)]))))
  }

  /** The first of a run of address edits starts from the address the inputs show. */
  lemma FirstAddressStep(d: Invoice, t: AddressText, s: string, rest: seq<Edit>)
    ensures Replay(d, [TextEdit(AddressInput(t), s)] + rest)
         == Replay(WithFirstAddress(d, SetAddressText(FirstAddress(d), t, s)), rest)
  {
    assert ([TextEdit(AddressInput(t), s)] + rest)[1..] == rest;
  }

  /** Each further address edit overwrites the first address again and nothing else. */
  lemma NextAddressStep(d: Invoice, b: Address, t: AddressText, s: string, rest: seq<Edit>)
    ensures Replay(WithFirstAddress(d, b), [TextEdit(AddressInput(t), s)] + rest)
         == Replay(WithFirstAddress(d, SetAddressText(b, t, s)), rest)
  {
    assert ([TextEdit(AddressInput(t), s)] + rest)[1..] == rest;
    assert SetText(WithFirstAddress(d, b), AddressInput(t), s) == WithFirstAddress(d, SetAddressText(b, t, s));
  }

  /** Every edit of `FillAddress` is one the form offers once it has an address-type input. */
  lemma FillAddressOffered(a: Address)
    ensures forall k :: 0 <= k < |FillAddress(a)| ==> Offered(FillAddress(a)[k])
  {
  }

  lemma FillAddressReplays(d: Invoice, a: Address)
    ensures Replay(d, FillAddress(a)) == WithFirstAddress(d, a)
  {
    var e5 := [TextEdit(AddressInput(AddressType), a.addressType)];
    var e4 := [TextEdit(AddressInput(City), a.city)] + e5;
    var e3 := [TextEdit(AddressInput(County), a.county)] + e4;
    var e2 := [TextEdit(AddressInput(Postcode), a.postcode)] + e3;
    var e1 := [TextEdit(AddressInput(CountryCode), a.countryCode)] + e2;
    var b1 := FirstAddress(d).(premise := a.premise);
    var b2 := b1.(countryCode := a.countryCode);
    var b3 := b2.(postcode := a.postcode);
    var b4 := b3.(county := a.county);
    var b5 := b4.(city := a.city);
    FirstAddressStep(d, Premise, a.premise, e1);
    NextAddressStep(d, b1, CountryCode, a.countryCode, e2);
    NextAddressStep(d, b2, Postcode, a.postcode, e3);
    NextAddressStep(d, b3, County, a.county, e4);
    NextAddressStep(d, b4, City, a.city, e5);
    NextAddressStep(d, b5, AddressType, a.addressType, []);
    assert e5 == [TextEdit(AddressInput(AddressType), a.addressType)] + [];
  }

  /**
    With an address-type input the address inputs can produce any address,
    and in particular one the schema accepts, while nothing else in the
    draft changes.
  */
  lemma AddressInputsReachAnyAddress(d: Invoice, a: Address)
    ensures forall k :: 0 <= k < |FillAddress(a)| ==> Offered(FillAddress(a)[k])
    ensures Replay(d, FillAddress(a)) == WithFirstAddress(d, a)
    ensures ValidAddress(FirstAddress(Replay(d, FillAddress(a)))) <==> ValidAddress(a)
  {
    FillAddressOffered(a);
    FillAddressReplays(d, a);
  }
}
