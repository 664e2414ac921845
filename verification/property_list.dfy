/** The property list page: the owner filter and the query it sends, the row
    rendering (address lines, owner name, active badge), the dialogs it opens,
    and the delete confirmation. */
module PropertyList {
  import opened Values
  import opened Entities
  import PropertyForm

  /** The page's state. `formMode` is `'create'` or `'edit'`; `selected` is the
      property the open dialog works on. */
  datatype ListState = ListState(
    properties: seq<Property>,
    customers: seq<Customer>,
    loading: bool,
    error: Option<string>,
    selectedCustomerId: string,
    showForm: bool,
    showDelete: bool,
    selected: Option<Property>,
    formMode: string)

  /** The state before the first load: nothing shown, loading, no dialog. */
  const INITIAL := ListState([], [], true, None, "", false, false, None, "create")

  const CUSTOMER_ID_PARAM := "customer_id"

  /** `propertyService.getAll(customerId)`: the query carries `customer_id` exactly
      when the argument is truthy, and nothing else. */
  function QueryParams(customerId: Option<string>): (q: map<string, string>)
    ensures CUSTOMER_ID_PARAM in q <==> Present(customerId)
    ensures CUSTOMER_ID_PARAM in q ==> q[CUSTOMER_ID_PARAM] == customerId.value
    ensures forall key :: key in q ==> key == CUSTOMER_ID_PARAM
  {
    if Present(customerId) then map[CUSTOMER_ID_PARAM := customerId.value] else map[]
  }

  /** Selecting "All Customers" (`''`) asks for every property, and selecting a
      customer asks for that customer's: the `|| null` of the handler and the
      truthiness test of the service agree. */
  lemma FilterQuery(selected: string)
    ensures QueryParams(OrNull(selected)) ==
      (if selected == "" then map[] else map[CUSTOMER_ID_PARAM := selected])
  {
  }

  const LOAD_FAILED := "Failed to load data"
  const FILTER_FAILED := "Failed to filter properties"

  /** `fetchData`: clears the error and loads properties and customers together,
      the properties through `getAll()` without an owner (the query, returned
      alongside the new state, is that of a null argument) while the select keeps
      its choice; a failure keeps what was shown. */
  function Load(s: ListState, reply: Reply<(seq<Property>, seq<Customer>)>): (r: (ListState, map<string, string>))
    ensures r.1 == QueryParams(None) && CUSTOMER_ID_PARAM !in r.1
    ensures !r.0.loading && r.0.selectedCustomerId == s.selectedCustomerId
    ensures r.0.showForm == s.showForm && r.0.showDelete == s.showDelete &&
      r.0.selected == s.selected && r.0.formMode == s.formMode
    ensures reply.Ok? ==> r.0.properties == reply.value.0 && r.0.customers == reply.value.1 && r.0.error.None?
    ensures reply.Failed? ==>
      r.0.properties == s.properties && r.0.customers == s.customers &&
      r.0.error == Some(ErrorText(reply.error, LOAD_FAILED))
  {
    var next := s.(loading := false);
    match reply
    case Ok(data) => (next.(properties := data.0, customers := data.1, error := None), QueryParams(None))
    case Failed(err) => (next.(error := Some(ErrorText(err, LOAD_FAILED))), QueryParams(None))
  }

  /** A reload after choosing an owner (a saved form or a confirmed delete) keeps
      the select on that owner but asks for every property: once an owner is
      chosen, the query no longer matches the select. */
  lemma ReloadIgnoresOwnerFilter(
    s: ListState, value: string,
    filtered: Reply<seq<Property>>, reloaded: Reply<(seq<Property>, seq<Customer>)>)
    ensures var after := Load(FilterChange(s, value, filtered).0, reloaded);
      after.0.selectedCustomerId == value && after.1 == map[] &&
      (value != "" <==> after.1 != QueryParams(OrNull(after.0.selectedCustomerId)))
  {
    var after := Load(FilterChange(s, value, filtered).0, reloaded);
    if value != "" {
      assert CUSTOMER_ID_PARAM in QueryParams(OrNull(value));
    }
  }

  /** `handleFilterChange`: remembers the selection, queries with `value || null`
      (the query is returned alongside the new state) and shows the answer; a
      failure keeps the shown properties, and a success leaves any earlier error. */
  function FilterChange(s: ListState, value: string, reply: Reply<seq<Property>>)
    : (r: (ListState, map<string, string>))
    ensures r.0.selectedCustomerId == value && !r.0.loading && r.0.customers == s.customers
    ensures r.0.showForm == s.showForm && r.0.showDelete == s.showDelete &&
      r.0.selected == s.selected && r.0.formMode == s.formMode
    ensures r.1 == QueryParams(OrNull(value))
    ensures reply.Ok? ==> r.0.properties == reply.value && r.0.error == s.error
    ensures reply.Failed? ==>
      r.0.properties == s.properties && r.0.error == Some(ErrorText(reply.error, FILTER_FAILED))
  {
    var next := s.(selectedCustomerId := value, loading := false);
    var query := QueryParams(OrNull(value));
    match reply
    case Ok(data) => (next.(properties := data), query)
    case Failed(err) => (next.(error := Some(ErrorText(err, FILTER_FAILED))), query)
  }

  /** "Add Property": the form opens in create mode with no property. */
  function AddClick(s: ListState): (r: ListState)
    ensures r.showForm && r.formMode == "create" && r.selected.None?
    ensures r.properties == s.properties && r.showDelete == s.showDelete
    ensures r.customers == s.customers && r.loading == s.loading &&
      r.error == s.error && r.selectedCustomerId == s.selectedCustomerId
  {
    s.(formMode := "create", selected := None, showForm := true)
  }

  /** "Edit" on a row: the form opens in edit mode on that row's property. */
  function EditClick(s: ListState, p: Property): (r: ListState)
    ensures r.showForm && r.formMode == "edit" && r.selected == Some(p)
    ensures r.properties == s.properties && r.showDelete == s.showDelete
    ensures r.customers == s.customers && r.loading == s.loading &&
      r.error == s.error && r.selectedCustomerId == s.selectedCustomerId
  {
    s.(formMode := "edit", selected := Some(p), showForm := true)
  }

  /** "Delete" on a row: the confirmation opens on that row's property. */
  function DeleteClick(s: ListState, p: Property): (r: ListState)
    ensures r.showDelete && r.selected == Some(p)
    ensures r.properties == s.properties && r.showForm == s.showForm && r.formMode == s.formMode
    ensures r.customers == s.customers && r.loading == s.loading &&
      r.error == s.error && r.selectedCustomerId == s.selectedCustomerId
  {
    s.(selected := Some(p), showDelete := true)
  }

  /** The form opened from "Edit" always has its property, so its submission
      updates exactly the row that was clicked; opened from "Add" it creates. */
  lemma DialogsSendTheRightRequest(s: ListState, p: Property, f: PropertyForm.FormData)
    ensures var e := EditClick(s, p);
      PropertyForm.SubmitRequest(f, e.formMode, e.selected) ==
        Some(PropertyForm.Update(p.property_id, PropertyForm.Clean(f)))
    ensures var a := AddClick(s);
      PropertyForm.SubmitRequest(f, a.formMode, a.selected) == Some(PropertyForm.Create(PropertyForm.Clean(f)))
  {
  }

  /** The outcome of confirming a delete: the id whose deletion was requested,
      the state afterwards, whether the list is reloaded, and the alert shown. */
  datatype DeleteEffect = DeleteEffect(request: Option<int>, state: ListState, reload: bool, alert: Option<string>)

  const DELETE_FAILED := "Failed to delete property"

  /** `handleDeleteConfirm`: deletes the selected property; success closes the
      confirmation and reloads, failure (including a missing selection, which
      throws before any request) leaves the confirmation open and alerts. */
  function DeleteConfirm(s: ListState, reply: Reply<()>): (e: DeleteEffect)
    ensures s.selected.Some? <==> e.request.Some?
    ensures e.request.Some? ==> e.request.value == s.selected.value.property_id
    ensures e.reload <==> e.request.Some? && reply.Ok?
    ensures e.reload ==> e.state == s.(showDelete := false) && e.alert.None?
    ensures !e.reload ==> e.state == s && e.alert.Some?
    ensures e.request.Some? && reply.Failed? ==> e.alert == Some(ErrorText(reply.error, DELETE_FAILED))
    ensures e.request.None? ==> e.alert == Some(DELETE_FAILED)
  {
    match s.selected
    case None => DeleteEffect(None, s, false, Some(DELETE_FAILED))
    case Some(p) =>
      match reply
      case Ok(_) => DeleteEffect(Some(p.property_id), s.(showDelete := false), true, None)
      case Failed(err) => DeleteEffect(Some(p.property_id), s, false, Some(ErrorText(err, DELETE_FAILED)))
  }

  /** `handleFormSuccess`: the form closes and the list is reloaded. */
  function FormSuccess(s: ListState, reply: Reply<(seq<Property>, seq<Customer>)>): (r: (ListState, map<string, string>))
    ensures !r.0.showForm
    ensures r == Load(s.(showForm := false), reply)
    ensures reply.Ok? ==> r.0.properties == reply.value.0
  {
    Load(s.(showForm := false), reply)
  }

  /** The active badge's text: 'Active' exactly when the flag is the number 1. */
  function ActiveLabel(is_active: int): (r: string)
    ensures r == "Active" <==> is_active == 1
    ensures r != "Active" ==> r == "Inactive"
  {
    if is_active == 1 then "Active" else "Inactive"
  }

  /** The second address line, drawn only when `address2` is truthy. */
  function Address2Line(p: Property): (r: Option<string>)
    ensures r.Some? <==> Present(p.address2)
    ensures r.Some? ==> r.value == p.address2.value
  {
    if Present(p.address2) then Some(p.address2.value) else None
  }

  /** `{city}, {state} {postal_code}`, drawn only when city and state are both
      truthy; a null postal code renders as nothing. */
  function CityStateLine(p: Property): (r: Option<string>)
    ensures r.Some? <==> Present(p.city) && Present(p.state)
    ensures r.Some? ==> r.value == p.city.value + ", " + p.state.value + " " + OrEmpty(p.postal_code)
  {
    if Present(p.city) && Present(p.state) then
      Some(p.city.value + ", " + p.state.value + " " + OrEmpty(p.postal_code))
    else None
  }

  /** One table row. */
  datatype Row = Row(
    property_id: int,
    label_text: string,
    address1: string,
    address2: Option<string>,
    cityState: Option<string>,
    owner: string,
    active: string)

  function RowOf(s: ListState, p: Property): Row {
    Row(p.property_id, p.label_text, p.address1, Address2Line(p), CityStateLine(p),
        CustomerName(s.customers, p.customer_id), ActiveLabel(p.is_active))
  }

  const EMPTY_MESSAGE := "No properties found. Click \"Add Property\" to create one."

  datatype Body = EmptyRow(message: string) | Rows(rows: seq<Row>)

  datatype View = Spinner | Page(body: Body, count: nat)

  /** The page: a spinner while loading with nothing to show; otherwise the table,
      with the placeholder row exactly when there are no properties, one row per
      property in order otherwise, and the count of properties beneath. */
  function Render(s: ListState): (v: View)
    ensures v.Spinner? <==> s.loading && |s.properties| == 0
    ensures v.Page? ==> v.count == |s.properties|
    ensures v.Page? ==> (v.body == EmptyRow(EMPTY_MESSAGE) <==> |s.properties| == 0)
    ensures v.Page? && v.body.Rows? ==>
      |v.body.rows| == |s.properties| &&
      forall i :: 0 <= i < |s.properties| ==> v.body.rows[i] == RowOf(s, s.properties[i])
  {
    if s.loading && |s.properties| == 0 then Spinner
    else if |s.properties| == 0 then Page(EmptyRow(EMPTY_MESSAGE), 0)
    else Page(Rows(seq(|s.properties|, i requires 0 <= i < |s.properties| => RowOf(s, s.properties[i]))), |s.properties|)
  }

  /** Before the first load answers, the page shows only the spinner. */
  lemma FirstRenderIsSpinner()
    ensures Render(INITIAL) == Spinner
  {
  }
}
