/**
  The create-invoice dialog: a form over an `Invoice` draft, a confirmation
  alert for closing with unsaved changes, and the submit handler.

  The page mounts the dialog only while it is open, so the component's
  lifetime is one opening: the constructor is mounting with `isOpen` true
  (whose effect clears `isDirty`), and `onClose` ends it. The calls the
  dialog makes outside itself are recorded, in order, in `calls`.
*/
module InvoiceDialog {
  import opened Wrappers
  import opened InvoiceForm
  import opened Validation
  import opened ValidationProperties
  import opened InvoiceDraft

  /** A call the dialog makes outside its own state. */
  datatype Call =
    | CreateInvoice(invoice: Invoice)
    | ShowToast(title: string, description: string, destructive: bool)
    | RefreshInvoices
    | OnClose
    | ResetForm

  /** How the create request itself ends. */
  datatype Reply = Created | RequestFailed

  /** How `await addInvoice(data)` ends inside the submit handler. */
  datatype Settled = Resolved | Rejected

  const SuccessToast: Call := ShowToast("Success", "Invoice created successfully", false)
  const FailureToast: Call := ShowToast("Error", "Failed to create invoice. Please try again.", true)

  /** The create hook as written: it catches a failed request and resolves with null. */
  function AddInvoiceAsWritten(reply: Reply): (r: Settled)
    ensures r == Resolved
  {
    Resolved
  }

  /** The create hook as its caller expects it: a failed request rejects. */
  function AddInvoice(reply: Reply): (r: Settled)
    ensures r == Rejected <==> reply == RequestFailed
  {
    match reply
    case Created => Resolved
    case RequestFailed => Rejected
  }

  /**
    The calls the submit handler makes once `addInvoice` has settled: a toast
    always comes first, and only a resolved call closes and resets the dialog.
  */
  function AfterCreate(settled: Settled): (r: seq<Call>)
    ensures |r| >= 1 && r[0].ShowToast? && (r[0].destructive <==> settled == Rejected)
    ensures (OnClose in r) <==> settled == Resolved
    ensures (ResetForm in r) <==> settled == Resolved
    ensures (RefreshInvoices in r) <==> settled == Resolved
  {
    match settled
    case Resolved => [SuccessToast, RefreshInvoices, OnClose, ResetForm]
    case Rejected => [FailureToast]
  }

  /** As written, a failed request is reported exactly like a created invoice, and the draft is thrown away. */
  lemma FailedCreateReportedAsSuccess()
    ensures AfterCreate(AddInvoiceAsWritten(RequestFailed)) == AfterCreate(AddInvoiceAsWritten(Created))
    ensures SuccessToast in AfterCreate(AddInvoiceAsWritten(RequestFailed))
    ensures ResetForm in AfterCreate(AddInvoiceAsWritten(RequestFailed))
  {
  }

  /**
    With a rejecting hook, only a created invoice closes the dialog and
    refreshes the list; a failure shows the destructive toast and nothing else.
  */
  lemma FailedCreateReported(reply: Reply)
    ensures (OnClose in AfterCreate(AddInvoice(reply))) <==> reply == Created
    ensures (RefreshInvoices in AfterCreate(AddInvoice(reply))) <==> reply == Created
    ensures reply == RequestFailed ==> AfterCreate(AddInvoice(reply)) == [FailureToast]
  {
  }

  class CreateInvoiceDialog {
    /** The e-mail and URL syntax checks the schema delegates to. */
    const syntax: Syntax
    /** The page's `isOpen`; the dialog exists only while it is true. */
    var open: bool
    var showAlert: bool
    var isDirty: bool
    /** The form's values. */
    var draft: Invoice
    /** A submit was tried since the last reset: the form now shows its errors and keeps them current. */
    var submitted: bool
    var calls: seq<Call>

    /**
      The error messages under the inputs: none before the first submit, then
      the schema's current issues, as far as an input displays them.
    */
    predicate ShowsError(path: Path, message: string)
      reads this
      ensures !submitted ==> !ShowsError(path, message)
      ensures ShowsError(path, message) ==> !ValidInvoice(draft, syntax)
    {
      InvoicePasses(draft, syntax);
      submitted && Reports(InvoicePart(draft), syntax, path, message)
    }

    /** Mounting the open dialog: an empty form, no alert, not dirty. */
    constructor (syntax: Syntax)
      ensures this.syntax == syntax
      ensures open && !showAlert && !isDirty && !submitted
      ensures draft == EmptyDraft() && calls == []
    {
      this.syntax := syntax;
      open := true;
      showAlert := false;
      draft := EmptyDraft();
      submitted := false;
      calls := [];
      isDirty := false;
    }

    /** `onClose` then `reset()`: the page closes the dialog, and the form is empty and clean again. */
    method CloseAndReset()
      requires open
      modifies this
      ensures calls == old(calls) + [OnClose, ResetForm]
      ensures !open && draft == EmptyDraft() && !isDirty && !submitted
      ensures showAlert == old(showAlert)
    {
      calls := calls + [OnClose, ResetForm];
      open := false;
      draft := EmptyDraft();
      isDirty := false;
      submitted := false;
    }

    /** The user changes an input or appends a row; any change makes the form dirty. */
    method Change(e: Edit)
      requires open
      modifies this`draft, this`isDirty
      ensures draft == Apply(old(draft), e) && isDirty
    {
      draft := Apply(draft, e);
      isDirty := true;
    }

    /** The dialog asks to close: a dirty form only raises the alert; a clean one closes and resets. */
    method RequestClose()
      requires open
      modifies this
      ensures old(isDirty) ==> showAlert && open && calls == old(calls)
      ensures old(isDirty) ==> draft == old(draft) && isDirty && submitted == old(submitted)
      ensures !old(isDirty) ==> calls == old(calls) + [OnClose, ResetForm]
      ensures !old(isDirty) ==> !open && draft == EmptyDraft() && !submitted && showAlert == old(showAlert)
      ensures !isDirty <==> !old(isDirty)
    {
      if isDirty {
        showAlert := true;
      } else {
        CloseAndReset();
      }
    }

    /** "Continue" in the alert: hide it, then close and reset. */
    method ConfirmClose()
      requires open && showAlert
      modifies this
      ensures !showAlert
      ensures calls == old(calls) + [OnClose, ResetForm]
      ensures !open && draft == EmptyDraft() && !isDirty && !submitted
    {
      showAlert := false;
      CloseAndReset();
    }

    /** "Cancel" in the alert: hide it and keep everything else. */
    method CancelClose()
      requires open && showAlert
      modifies this`showAlert
      ensures !showAlert
    {
      showAlert := false;
    }

    /**
      Submitting: the schema checks the draft first and `addInvoice` is called
      only when it passes; then how that call settles decides between the
      success path (toast, refresh, close, reset) and the failure toast. The
      hook as written settles every request as `AddInvoiceAsWritten(reply)`,
      the hook the handler expects as `AddInvoice(reply)`.
    */
    method Submit(settled: Settled)
      requires open
      modifies this
      ensures |calls| > |old(calls)| <==> Passes(InvoicePart(old(draft)), syntax)
      ensures !ValidInvoice(old(draft), syntax) ==>
        && calls == old(calls) && submitted && open && draft == old(draft)
        && isDirty == old(isDirty) && showAlert == old(showAlert)
      ensures ValidInvoice(old(draft), syntax) ==>
        calls == old(calls) + [CreateInvoice(old(draft))] + AfterCreate(settled)
      ensures ValidInvoice(old(draft), syntax) && settled == Resolved ==>
        !open && draft == EmptyDraft() && !isDirty && !submitted && showAlert == old(showAlert)
      ensures ValidInvoice(old(draft), syntax) && settled == Rejected ==>
        open && draft == old(draft) && submitted && isDirty == old(isDirty) && showAlert == old(showAlert)
    {
      InvoicePasses(draft, syntax);
      if !ValidInvoice(draft, syntax) {
        submitted := true;
      } else {
        calls := calls + [CreateInvoice(draft)];
        if settled == Resolved {
          calls := calls + [SuccessToast, RefreshInvoices];
          CloseAndReset();
        } else {
          calls := calls + [FailureToast];
          submitted := true;
        }
      }
    }
  }
}
