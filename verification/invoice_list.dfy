/** The invoice list page: its three filters and the query they produce, the
    reload and filter handlers, and how the table is rendered from the loaded
    collections (names and labels resolved through the id lookups, a placeholder
    row for an empty result, and the count below the table). */
module InvoiceList {
  import opened Values
  import opened Entities
  import InvoiceStatus

  datatype FilterKey = StatusFilter | CustomerFilter | PropertyFilter

  /** `filters`: the value of each select, `''` meaning "all". */
  datatype Filters = Filters(status: string, customer_id: string, property_id: string)

  const NO_FILTERS := Filters("", "", "")

  const FILTER_KEYS: set<FilterKey> := {StatusFilter, CustomerFilter, PropertyFilter}

  function Get(f: Filters, k: FilterKey): string {
    match k
    case StatusFilter => f.status
    case CustomerFilter => f.customer_id
    case PropertyFilter => f.property_id
  }

  /** `{ ...filters, [name]: value }`: one filter takes the new value and the other
      two keep theirs. */
  function Set(f: Filters, k: FilterKey, v: string): (r: Filters)
    ensures Get(r, k) == v
    ensures forall j :: j != k ==> Get(r, j) == Get(f, j)
  {
    match k
    case StatusFilter => f.(status := v)
    case CustomerFilter => f.(customer_id := v)
    case PropertyFilter => f.(property_id := v)
  }

  /** `cleanFilters`: the filters without the entries whose value is `''`; this is
      the query the server receives. */
  function Clean(f: Filters): (m: map<FilterKey, string>)
    ensures forall k :: k in m <==> Get(f, k) != ""
    ensures forall k :: k in m ==> m[k] == Get(f, k)
  {
    map k | k in FILTER_KEYS && Get(f, k) != "" :: Get(f, k)
  }

  /** Reads a query back into the three selects, a missing entry meaning `''`. */
  function Restore(m: map<FilterKey, string>): Filters {
    Filters(
      if StatusFilter in m then m[StatusFilter] else "",
      if CustomerFilter in m then m[CustomerFilter] else "",
      if PropertyFilter in m then m[PropertyFilter] else "")
  }

  /** Cleaning loses nothing: the selects can be read back from the query. */
  lemma RestoreClean(f: Filters)
    ensures Restore(Clean(f)) == f
  {
  }

  /** With every select on "all", the query is empty. */
  lemma CleanNoFilters()
    ensures Clean(NO_FILTERS) == map[]
  {
  }

  /** The page's state. */
  datatype ListState = ListState(
    invoices: seq<Invoice>,
    customers: seq<Customer>,
    properties: seq<Property>,
    filters: Filters,
    loading: bool,
    error: Option<string>)

  const LOAD_FAILED := "Failed to load data"
  const FILTER_FAILED := "Failed to filter invoices"

  /** `fetchData`: load the three collections together, the invoices without any
      filter (the query, returned alongside the new state, is empty) while the
      selects keep what they show; on failure keep what was shown and report the
      error. */
  function Load(s: ListState, reply: Reply<(seq<Invoice>, seq<Customer>, seq<Property>)>)
    : (r: (ListState, map<FilterKey, string>))
    ensures r.1 == map[]
    ensures !r.0.loading && r.0.filters == s.filters
    ensures reply.Ok? ==>
      r.0.invoices == reply.value.0 && r.0.customers == reply.value.1 &&
      r.0.properties == reply.value.2 && r.0.error.None?
    ensures reply.Failed? ==>
      r.0.invoices == s.invoices && r.0.customers == s.customers && r.0.properties == s.properties &&
      r.0.error == Some(ErrorText(reply.error, LOAD_FAILED))
  {
    var next := s.(loading := false);
    match reply
    case Ok(data) => (next.(invoices := data.0, customers := data.1, properties := data.2, error := None), map[])
    case Failed(err) => (next.(error := Some(ErrorText(err, LOAD_FAILED))), map[])
  }

  /** `handleFilterChange`: store the new filter value, query the server with the
      cleaned filters (returned alongside the new state), and replace the shown
      invoices wholesale with the answer. A failure keeps the shown invoices; a
      success does not clear an earlier error. */
  function FilterChange(s: ListState, k: FilterKey, v: string, reply: Reply<seq<Invoice>>)
    : (r: (ListState, map<FilterKey, string>))
    ensures r.0.filters == Set(s.filters, k, v)
    ensures r.1 == Clean(r.0.filters)
    ensures !r.0.loading && r.0.customers == s.customers && r.0.properties == s.properties
    ensures reply.Ok? ==> r.0.invoices == reply.value && r.0.error == s.error
    ensures reply.Failed? ==>
      r.0.invoices == s.invoices && r.0.error == Some(ErrorText(reply.error, FILTER_FAILED))
  {
    var filters := Set(s.filters, k, v);
    var next := s.(filters := filters, loading := false);
    match reply
    case Ok(data) => (next.(invoices := data), Clean(filters))
    case Failed(err) => (next.(error := Some(ErrorText(err, FILTER_FAILED))), Clean(filters))
  }

  /** `handleFormSuccess`: the create dialog closes and the page reloads; the
      dialog flag is returned alongside the reload's state and query. */
  function FormSuccess(s: ListState, reply: Reply<(seq<Invoice>, seq<Customer>, seq<Property>)>)
    : (r: (ListState, map<FilterKey, string>, bool))
    ensures !r.2
    ensures (r.0, r.1) == Load(s, reply)
    ensures reply.Ok? ==> r.0.invoices == reply.value.0
  {
    var loaded := Load(s, reply);
    (loaded.0, loaded.1, false)
  }

  /** A reload after a filter change (a created invoice, or a status change in the
      details dialog) keeps the selects showing the chosen filter but asks for every
      invoice: the query matches the selects only when every select shows "all". */
  lemma ReloadIgnoresFilters(
    s: ListState, k: FilterKey, v: string,
    filtered: Reply<seq<Invoice>>, reloaded: Reply<(seq<Invoice>, seq<Customer>, seq<Property>)>)
    ensures var after := Load(FilterChange(s, k, v, filtered).0, reloaded);
      Get(after.0.filters, k) == v && after.1 == map[] &&
      (after.1 == Clean(after.0.filters) <==> after.0.filters == NO_FILTERS)
  {
    var f := Load(FilterChange(s, k, v, filtered).0, reloaded).0.filters;
    if Clean(f) == map[] {
      RestoreClean(f);
      assert f == Restore(map[]);
    }
  }

  /** One table row: id, customer, property, status text and status badge. */
  datatype Row = Row(invoice_id: int, customer: string, property: string, status: string, badge: string)

  function RowOf(s: ListState, inv: Invoice): Row {
    Row(
      inv.invoice_id,
      CustomerName(s.customers, inv.customer_id),
      PropertyLabel(s.properties, inv.property_id),
      InvoiceStatus.Capitalize(inv.status),
      InvoiceStatus.Badge(inv.status))
  }

  const EMPTY_MESSAGE := "No invoices found. Click \"Create Invoice\" to add one."

  datatype Body = EmptyRow(message: string) | Rows(rows: seq<Row>)

  /** What the page shows: the spinner, or the table with the count beneath it. */
  datatype View = Spinner | Page(body: Body, count: nat)

  /** The page: a spinner only while the first load is pending; otherwise the table,
      whose body is the placeholder row exactly when there are no invoices and one
      row per invoice in order otherwise, and whose count is the number of invoices. */
  function Render(s: ListState): (v: View)
    ensures v.Spinner? <==> s.loading && |s.invoices| == 0
    ensures v.Page? ==> v.count == |s.invoices|
    ensures v.Page? ==> (v.body == EmptyRow(EMPTY_MESSAGE) <==> |s.invoices| == 0)
    ensures v.Page? && v.body.Rows? ==>
      |v.body.rows| == |s.invoices| &&
      forall i :: 0 <= i < |s.invoices| ==> v.body.rows[i] == RowOf(s, s.invoices[i])
  {
    if s.loading && |s.invoices| == 0 then Spinner
    else if |s.invoices| == 0 then Page(EmptyRow(EMPTY_MESSAGE), 0)
    else Page(Rows(seq(|s.invoices|, i requires 0 <= i < |s.invoices| => RowOf(s, s.invoices[i]))), |s.invoices|)
  }

  /** A row never fails to render: an invoice whose customer is not loaded shows
      'Unknown', and otherwise shows that customer's name. */
  lemma RowCustomerIsUnknownIffMissing(s: ListState, inv: Invoice)
    ensures RowOf(s, inv).customer == UNKNOWN <==>
      forall i :: 0 <= i < |s.customers| ==> s.customers[i].customer_id != inv.customer_id
  {
    CustomerNameUnknownIff(s.customers, inv.customer_id);
  }
}
