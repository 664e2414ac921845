/** The invoice details dialog: the status buttons it offers, what pressing one
    does (confirmation, request, callbacks or alert), and how dates are shown. */
module InvoiceDetails {
  import opened Values
  import opened Entities
  import opened InvoiceStatus

  /** The target statuses of the three buttons, in the order they are laid out. */
  const TARGETS: seq<Status> := [Sent, Paid, Void]

  /** The buttons shown for an invoice whose status is `current`: each of
      Sent, Paid and Void unless it is the current status, so two buttons from
      `sent`, `paid` or `void` and three from `draft` or an unknown status. Draft
      is never a target. */
  function OfferedActions(current: string): (r: seq<Status>)
    ensures forall st :: st in r <==> st != Draft && Name(st) != current
    ensures forall i, j :: 0 <= i < j < |r| ==> r[i] != r[j]
    ensures |r| == (if current == "sent" || current == "paid" || current == "void" then 2 else 3)
  {
    (if current != "sent" then [Sent] else []) +
    (if current != "paid" then [Paid] else []) +
    (if current != "void" then [Void] else [])
  }

  /** The buttons are the three targets less the current status. */
  lemma OfferedSet(current: string)
    ensures (set st | st in OfferedActions(current)) ==
      {Sent, Paid, Void} - (if Parse(current).Some? then {Parse(current).value} else {})
  {
  }

  /** The callbacks the dialog invokes after a successful update. */
  datatype Callback = OnUpdate | OnClose

  /** The outcome of pressing a status button: the update request sent (invoice id
      and target), the callbacks invoked in order, the alert shown, and the
      loading flag afterwards. */
  datatype StatusEffect = StatusEffect(
    request: Option<(int, Status)>,
    callbacks: seq<Callback>,
    alert: Option<string>,
    loading: bool)

  const UPDATE_FAILED := "Failed to update status"

  /** `handleStatusChange` behind a button: a disabled button (`loading`) or a
      declined confirmation does nothing; otherwise the update is requested, and
      success calls `onUpdate` then `onClose` while failure alerts the server's
      detail or the fallback. Either way loading ends false. */
  function PressStatus(invoice: Invoice, target: Status, loading: bool, confirmed: bool, reply: Reply<Invoice>)
    : (e: StatusEffect)
    ensures e.request.Some? <==> !loading && confirmed
    ensures e.request.Some? ==> e.request.value == (invoice.invoice_id, target) && !e.loading
    ensures e.request.None? ==> e.callbacks == [] && e.alert.None? && e.loading == loading
    ensures e.callbacks != [] <==> e.request.Some? && reply.Ok?
    ensures e.callbacks != [] ==> e.callbacks == [OnUpdate, OnClose]
    ensures e.alert.Some? <==> e.request.Some? && reply.Failed?
    ensures e.alert.Some? ==> e.alert.value == ErrorText(reply.error, UPDATE_FAILED)
  {
    if loading || !confirmed then StatusEffect(None, [], None, loading)
    else
      match reply
      case Ok(_) => StatusEffect(Some((invoice.invoice_id, target)), [OnUpdate, OnClose], None, false)
      case Failed(err) => StatusEffect(Some((invoice.invoice_id, target)), [], Some(ErrorText(err, UPDATE_FAILED)), false)
  }

  /** Through the buttons, the dialog never asks the server to move an invoice to
      the status it already has, nor back to draft. */
  lemma ButtonsNeverRequestCurrent(invoice: Invoice, target: Status, loading: bool, confirmed: bool, reply: Reply<Invoice>)
    requires target in OfferedActions(invoice.status)
    ensures PressStatus(invoice, target, loading, confirmed, reply).request.Some? ==>
      Name(PressStatus(invoice, target, loading, confirmed, reply).request.value.1) != invoice.status &&
      PressStatus(invoice, target, loading, confirmed, reply).request.value.1 != Draft
  {
  }

  const NOT_AVAILABLE := "N/A"

  /** `formatDate`: 'N/A' for a missing or empty date, otherwise the long
      US-English date that `longDate` renders (the locale formatting itself is
      outside the model). When the renderer never yields 'N/A', 'N/A' is shown
      exactly for a missing date. */
  function FormatDate(date: Option<string>, longDate: string -> string): (r: string)
    ensures !Present(date) ==> r == NOT_AVAILABLE
    ensures Present(date) ==> r == longDate(date.value)
    ensures (forall d :: longDate(d) != NOT_AVAILABLE) ==> (r == NOT_AVAILABLE <==> !Present(date))
  {
    if !Present(date) then NOT_AVAILABLE else longDate(date.value)
  }

  /** The notes panel is drawn exactly when the invoice has non-empty notes. */
  function ShowsNotes(invoice: Invoice): (r: bool)
    ensures r <==> invoice.notes.Some? && invoice.notes.value != ""
  {
    Present(invoice.notes)
  }
}
