/** The dashboard's three counters, computed from the three collections it loads
    at once. */
module Dashboard {
  import opened Values
  import opened Seqs
  import opened Entities
  import InvoiceStatus

  datatype Stats = Stats(totalCustomers: nat, activeProperties: nat, pendingInvoices: nat)

  /** The page's state: the counters and the loading flag. */
  datatype DashState = DashState(stats: Stats, loading: bool)

  /** Before the first load every counter is zero. */
  const INITIAL := DashState(Stats(0, 0, 0), true)

  /** A property counts as active only when its flag is the number 1. */
  predicate IsActive(p: Property) {
    p.is_active == 1
  }

  /** An invoice is pending while it is sent or still a draft. */
  predicate IsPending(inv: Invoice) {
    inv.status == "sent" || inv.status == "draft"
  }

  /** `properties.filter(p => p.is_active === 1).length`. */
  function ActiveCount(properties: seq<Property>): (n: nat)
    ensures n <= |properties|
    ensures n == |properties| <==> forall i :: 0 <= i < |properties| ==> IsActive(properties[i])
  {
    FilterKeepsAll(properties, IsActive);
    |Filter(properties, IsActive)|
  }

  /** The sent and draft invoices: a count no larger than the list. */
  function PendingCount(invoices: seq<Invoice>): (n: nat)
    ensures n <= |invoices|
    ensures n == |invoices| <==> forall i :: 0 <= i < |invoices| ==> IsPending(invoices[i])
  {
    FilterKeepsAll(invoices, IsPending);
    |Filter(invoices, IsPending)|
  }

  /** The counters for one load. */
  function ComputeStats(customers: seq<Customer>, properties: seq<Property>, invoices: seq<Invoice>): (s: Stats)
    ensures s.totalCustomers == |customers|
    ensures s.activeProperties == ActiveCount(properties) && s.pendingInvoices == PendingCount(invoices)
    ensures s.activeProperties <= |properties| && s.pendingInvoices <= |invoices|
  {
    Stats(|customers|, ActiveCount(properties), PendingCount(invoices))
  }

  /** `fetchStats`: on success the counters are recomputed from the three lists; a
      failure is only logged, so the previous counters stay. Loading ends false. */
  function FetchStats(s: DashState, reply: Reply<(seq<Customer>, seq<Property>, seq<Invoice>)>): (r: DashState)
    ensures !r.loading
    ensures reply.Failed? ==> r.stats == s.stats
    ensures reply.Ok? ==> r.stats.totalCustomers == |reply.value.0|
    ensures reply.Ok? ==> r.stats == ComputeStats(reply.value.0, reply.value.1, reply.value.2)
  {
    match reply
    case Ok(data) => DashState(ComputeStats(data.0, data.1, data.2), false)
    case Failed(_) => DashState(s.stats, false)
  }

  /** A failed first load leaves the dashboard showing zeros. */
  lemma FailedFirstLoadShowsZeros(err: ApiError)
    ensures FetchStats(INITIAL, Failed(err)).stats == Stats(0, 0, 0)
  {
  }

  /** One more property raises the active counter exactly when it is active. */
  lemma ActiveCountAppend(properties: seq<Property>, p: Property)
    ensures ActiveCount(properties + [p]) == ActiveCount(properties) + (if IsActive(p) then 1 else 0)
  {
    FilterAppend(properties, [p], IsActive);
  }

  /** One more invoice raises the pending counter exactly when it is sent or a
      draft; paid, void and unknown statuses never count. */
  lemma PendingCountAppend(invoices: seq<Invoice>, inv: Invoice)
    ensures PendingCount(invoices + [inv]) == PendingCount(invoices) + (if IsPending(inv) then 1 else 0)
  {
    FilterAppend(invoices, [inv], IsPending);
  }

  /** The pending invoices are those whose status reads as Sent or Draft. */
  lemma PendingMeansSentOrDraft(inv: Invoice)
    ensures IsPending(inv) <==>
      InvoiceStatus.Parse(inv.status) == Some(InvoiceStatus.Sent) ||
      InvoiceStatus.Parse(inv.status) == Some(InvoiceStatus.Draft)
  {
  }

  /** An invoice the pending counter leaves out: paid, void or unknown. */
  predicate IsSettled(inv: Invoice) {
    !IsPending(inv)
  }

  /** The pending counter plus the invoices it leaves out account for every invoice. */
  lemma {:induction false} PendingAndSettledSplit(invoices: seq<Invoice>)
    ensures PendingCount(invoices) + |Filter(invoices, IsSettled)| == |invoices|
  {
    FilterSplitsLength(invoices, IsPending, IsSettled);
  }
}
