/** The invoice composition dialog: its form state, the customer selection that
    narrows the property choices, the field edits that keep `total` equal to
    `subtotal + tax`, and the payload sent to the server on submit. */
module InvoiceForm {
  import opened Values
  import opened JsNumber
  import opened Seqs
  import opened Entities

  /** `formData`. Every field holds the string its input delivered, except
      `customer_id`, which holds the result of `parseInt` once a customer is chosen. */
  datatype FormData = FormData(
    customer_id: Scalar,
    property_id: string,
    period_start: string,
    period_end: string,
    issued_date: string,
    due_date: string,
    subtotal: string,
    tax: string,
    total: string,
    status: string,
    notes: string)

  /** The inputs wired to the generic change handler. The customer select has a
      handler of its own and the total input is read-only, so neither is here. */
  datatype Field = PropertyId | PeriodStart | PeriodEnd | IssuedDate | DueDate | Subtotal | Tax | Status | Notes

  function Get(f: FormData, k: Field): string {
    match k
    case PropertyId => f.property_id
    case PeriodStart => f.period_start
    case PeriodEnd => f.period_end
    case IssuedDate => f.issued_date
    case DueDate => f.due_date
    case Subtotal => f.subtotal
    case Tax => f.tax
    case Status => f.status
    case Notes => f.notes
  }

  /** `{ ...f, [k]: v }`. */
  function With(f: FormData, k: Field, v: string): (r: FormData)
    ensures Get(r, k) == v
    ensures forall j :: j != k ==> Get(r, j) == Get(f, j)
    ensures r.customer_id == f.customer_id && r.total == f.total
  {
    match k
    case PropertyId => f.(property_id := v)
    case PeriodStart => f.(period_start := v)
    case PeriodEnd => f.(period_end := v)
    case IssuedDate => f.(issued_date := v)
    case DueDate => f.(due_date := v)
    case Subtotal => f.(subtotal := v)
    case Tax => f.(tax := v)
    case Status => f.(status := v)
    case Notes => f.(notes := v)
  }

  /** The form as the dialog opens; `today` is the date part of the current
      instant's ISO text, which the clock supplies. */
  function Initial(today: string): (f: FormData)
    ensures f.status == "sent" && f.issued_date == today
    ensures forall k :: k != Status && k != IssuedDate ==> Get(f, k) == ""
    ensures f.customer_id == Str("") && f.total == ""
  {
    FormData(Str(""), "", "", "", today, "", "", "", "", "sent", "")
  }

  /** The dialog's state: the form and the property choices (`customerProperties`). */
  datatype Composer = Composer(form: FormData, options: seq<Property>)

  function Begin(today: string): (c: Composer)
    ensures c.form == Initial(today) && c.options == []
  {
    Composer(Initial(today), [])
  }

  /** `parseInt` applied to whatever a field holds; a number is first turned into
      its decimal text, as JavaScript does. */
  function ScalarInt(v: Scalar): (r: Option<int>)
    ensures v.Num? ==> r == Some(v.n)
    ensures v.NaN? ==> r.None?
    ensures v == Str("") ==> r.None?
  {
    match v
    case Str(s) => ParseInt(s)
    case Num(n) => ParseIntRoundTrip(n); ParseInt(IntToString(n))
    case NaN => None
  }

  /** `handleCustomerChange`: record the parsed customer id, clear the chosen
      property, and offer only that customer's properties. A value that does not
      parse (`NaN`) matches no property. */
  function SelectCustomer(c: Composer, properties: seq<Property>, value: string): (r: Composer)
    ensures r.form.customer_id == ParsedInt(value)
    ensures r.form.property_id == ""
    ensures forall k :: k != PropertyId ==> Get(r.form, k) == Get(c.form, k)
    ensures r.form.total == c.form.total
    ensures forall p :: p in r.options <==> p in properties && Some(p.customer_id) == ParseInt(value)
    ensures forall p :: multiset(r.options)[p] == (if Some(p.customer_id) == ParseInt(value) then multiset(properties)[p] else 0)
    ensures SubsequenceOf(r.options, properties)
  {
    var form := c.form.(customer_id := ParsedInt(value), property_id := "");
    match ParseInt(value)
    case Some(id) => Composer(form, PropertiesOf(properties, id))
    case None => Composer(form, [])
  }

  /** Choosing a customer from the list: the option value is the id's text, so the
      form records exactly that customer's id and offers exactly that customer's
      properties, in the server's order. */
  lemma ChooseListedCustomer(c: Composer, properties: seq<Property>, customer: Customer)
    ensures SelectCustomer(c, properties, IntToString(customer.customer_id)).form.customer_id
      == Num(customer.customer_id)
    ensures SelectCustomer(c, properties, IntToString(customer.customer_id)).options
      == PropertiesOf(properties, customer.customer_id)
  {
    ParseIntRoundTrip(customer.customer_id);
  }

  /** The total for a subtotal and a tax, as `(parseFloat(s) || 0) + (parseFloat(t) || 0)`
      written with `toFixed(2)`. */
  function TotalText(subtotal: string, tax: string): string {
    FormatCents(AmountSum(subtotal, tax))
  }

  /** The sum of two amounts, each counted as zero when empty or not a number. */
  function AmountSum(subtotal: string, tax: string): int {
    ParseOrZero(subtotal) + ParseOrZero(tax)
  }

  /** The recomputed total reads back, through `parseFloat`, as exactly the sum of
      the two amounts, each counted as zero when empty or not a number. */
  lemma TotalIsSum(subtotal: string, tax: string)
    ensures ParseCents(TotalText(subtotal, tax)) == Some(ParseOrZero(subtotal) + ParseOrZero(tax))
  {
    ParseCentsRoundTrip(AmountSum(subtotal, tax));
  }

  /** `f` with a new total and every other field as it was. */
  function WithTotal(f: FormData, t: string): (r: FormData)
    ensures forall j :: Get(r, j) == Get(f, j)
    ensures r.customer_id == f.customer_id && r.total == t
  {
    f.(total := t)
  }

  /** `handleChange`: store the value under its field; when the field is the
      subtotal or the tax, recompute the total from the new pair. */
  function Edit(f: FormData, k: Field, v: string): (r: FormData)
    ensures Get(r, k) == v
    ensures forall j :: j != k ==> Get(r, j) == Get(f, j)
    ensures r.customer_id == f.customer_id
    ensures k != Subtotal && k != Tax ==> r.total == f.total
    ensures k == Subtotal || k == Tax ==> r.total == TotalText(r.subtotal, r.tax)
  {
    var g := With(f, k, v);
    if k == Subtotal || k == Tax then WithTotal(g, TotalText(g.subtotal, g.tax)) else g
  }

  /** The body of the create request. `None` in a numeric field is `NaN` (sent as
      `null`); `None` in a text field is `null`. */
  datatype Payload = Payload(
    customer_id: Option<int>,
    property_id: Option<int>,
    period_start: string,
    period_end: string,
    issued_date: string,
    due_date: Option<string>,
    subtotal: Option<int>,
    tax: Option<int>,
    total: Option<int>,
    status: string,
    notes: Option<string>)

  /** `submitData`: ids through `parseInt`, amounts through `parseFloat`, blank
      due date and notes as `null`, everything else verbatim. No field is checked. */
  function BuildPayload(f: FormData): (p: Payload)
    ensures p.period_start == f.period_start && p.period_end == f.period_end
    ensures p.issued_date == f.issued_date && p.status == f.status
    ensures p.due_date.None? <==> f.due_date == ""
    ensures p.due_date.Some? ==> p.due_date.value == f.due_date
    ensures p.notes.None? <==> f.notes == ""
    ensures p.notes.Some? ==> p.notes.value == f.notes
    ensures f.customer_id.Num? ==> p.customer_id == Some(f.customer_id.n)
    ensures f.customer_id == Str("") || f.customer_id.NaN? ==> p.customer_id.None?
    ensures f.property_id == "" ==> p.property_id.None?
    ensures f.subtotal == "" ==> p.subtotal.None?
    ensures f.tax == "" ==> p.tax.None?
    ensures f.total == "" ==> p.total.None?
  {
    Payload(
      ScalarInt(f.customer_id),
      ParseInt(f.property_id),
      f.period_start,
      f.period_end,
      f.issued_date,
      OrNull(f.due_date),
      ParseCents(f.subtotal),
      ParseCents(f.tax),
      ParseCents(f.total),
      f.status,
      OrNull(f.notes))
  }

  /** What submitting leaves behind: the request made, whether `onSuccess` ran,
      the error shown, and the loading flag. */
  datatype SubmitEffect = SubmitEffect(request: Payload, succeeded: bool, error: Option<string>, loading: bool)

  const CREATE_FAILED := "Failed to create invoice"

  /** `handleSubmit`: send the payload; on success call `onSuccess`, on failure show
      the server's detail or the fallback message; clear `loading` either way. */
  function Submit(f: FormData, reply: Reply<Invoice>): (e: SubmitEffect)
    ensures e.request == BuildPayload(f)
    ensures e.succeeded <==> reply.Ok?
    ensures e.error.Some? <==> reply.Failed?
    ensures reply.Failed? && Present(reply.error.detail) ==> e.error == reply.error.detail
    ensures reply.Failed? && !Present(reply.error.detail) ==> e.error == Some(CREATE_FAILED)
    ensures !e.loading
  {
    match reply
    case Ok(_) => SubmitEffect(BuildPayload(f), true, None, false)
    case Failed(err) => SubmitEffect(BuildPayload(f), false, Some(ErrorText(err, CREATE_FAILED)), false)
  }

  /** A user interaction with the dialog's inputs. */
  datatype Event = ChooseCustomer(value: string) | Change(field: Field, value: string)

  function Step(c: Composer, properties: seq<Property>, e: Event): Composer {
    match e
    case ChooseCustomer(value) => SelectCustomer(c, properties, value)
    case Change(k, v) => Composer(Edit(c.form, k, v), c.options)
  }

  function Run(c: Composer, properties: seq<Property>, events: seq<Event>): Composer
    decreases |events|
  {
    if |events| == 0 then c else Run(Step(c, properties, events[0]), properties, events[1..])
  }

  /** The property select only delivers its placeholder `''` or an offered property's id. */
  predicate Offered(c: Composer, e: Event) {
    e.Change? && e.field == PropertyId ==>
      e.value == "" || exists p :: p in c.options && e.value == IntToString(p.property_id)
  }

  ghost predicate AllOffered(c: Composer, properties: seq<Property>, events: seq<Event>)
    decreases |events|
  {
    |events| == 0 ||
    (Offered(c, events[0]) && AllOffered(Step(c, properties, events[0]), properties, events[1..]))
  }

  /** The total shown is the sum of the amounts, unless no amount was ever touched. */
  ghost predicate TotalAgrees(f: FormData) {
    (f.subtotal == "" && f.tax == "" && f.total == "") ||
    f.total == TotalText(f.subtotal, f.tax)
  }

  /** Every offered property belongs to the chosen customer, and the chosen property
      is one of the offered ones. */
  ghost predicate PropertyAgrees(c: Composer, properties: seq<Property>) {
    (forall p :: p in c.options ==> p in properties && c.form.customer_id == Num(p.customer_id)) &&
    (c.form.property_id == "" ||
     exists p :: p in c.options && c.form.property_id == IntToString(p.property_id))
  }

  lemma EditKeepsTotal(f: FormData, k: Field, v: string)
    requires TotalAgrees(f)
    ensures TotalAgrees(Edit(f, k, v))
  {
  }

  lemma EditKeepsProperty(c: Composer, properties: seq<Property>, k: Field, v: string)
    requires PropertyAgrees(c, properties) && Offered(c, Change(k, v))
    ensures PropertyAgrees(Composer(Edit(c.form, k, v), c.options), properties)
  {
  }

  lemma SelectKeepsAgreement(c: Composer, properties: seq<Property>, value: string)
    requires TotalAgrees(c.form)
    ensures TotalAgrees(SelectCustomer(c, properties, value).form)
    ensures PropertyAgrees(SelectCustomer(c, properties, value), properties)
  {
  }

  lemma StepKeepsAgreement(c: Composer, properties: seq<Property>, e: Event)
    requires TotalAgrees(c.form) && PropertyAgrees(c, properties) && Offered(c, e)
    ensures TotalAgrees(Step(c, properties, e).form)
    ensures PropertyAgrees(Step(c, properties, e), properties)
  {
    match e
    case ChooseCustomer(value) =>
      SelectKeepsAgreement(c, properties, value);
    case Change(k, v) =>
      EditKeepsTotal(c.form, k, v);
      EditKeepsProperty(c, properties, k, v);
  }

  lemma {:induction false} RunKeepsAgreement(c: Composer, properties: seq<Property>, events: seq<Event>)
    requires TotalAgrees(c.form) && PropertyAgrees(c, properties)
    requires AllOffered(c, properties, events)
    ensures TotalAgrees(Run(c, properties, events).form)
    ensures PropertyAgrees(Run(c, properties, events), properties)
    decreases |events|
  {
    if |events| > 0 {
      StepKeepsAgreement(c, properties, events[0]);
      RunKeepsAgreement(Step(c, properties, events[0]), properties, events[1..]);
    }
  }

  /** The submitted total is the sum of the submitted amounts whenever both parse
      (amounts taken with at most two decimals). */
  ghost predicate SumsUp(p: Payload) {
    p.subtotal.Some? && p.tax.Some? ==> p.total == Some(p.subtotal.value + p.tax.value)
  }

  /** A submitted property id names a loaded property of the submitted customer. */
  ghost predicate PropertyOfCustomer(p: Payload, properties: seq<Property>) {
    p.property_id.Some? ==>
      exists q :: q in properties && p.property_id == Some(q.property_id) && p.customer_id == Some(q.customer_id)
  }

  /** A form whose total agrees with its amounts submits `total = subtotal + tax`
      whenever both amounts parse, amounts being taken with at most two decimals. */
  lemma PayloadTotalIsSum(f: FormData)
    requires TotalAgrees(f)
    ensures SumsUp(BuildPayload(f))
  {
    var p := BuildPayload(f);
    if p.subtotal.Some? && p.tax.Some? {
      assert f.subtotal != "";
      TotalIsSum(f.subtotal, f.tax);
    }
  }

  /** A chosen property submits together with its owner's id. */
  lemma PayloadPropertyIsOwned(c: Composer, properties: seq<Property>)
    requires PropertyAgrees(c, properties)
    ensures PropertyOfCustomer(BuildPayload(c.form), properties)
  {
    var p := BuildPayload(c.form);
    if p.property_id.Some? {
      assert c.form.property_id != "";
      var q :| q in c.options && c.form.property_id == IntToString(q.property_id);
      ParseIntRoundTrip(q.property_id);
      assert q in properties && p.property_id == Some(q.property_id) && p.customer_id == Some(q.customer_id);
    }
  }

  /** Whatever the user does from the moment the dialog opens, the payload keeps
      `total = subtotal + tax` whenever both amounts parse (with at most two decimals), and a chosen property
      is one of the chosen customer's properties. */
  lemma ComposedPayloadIsCoherent(today: string, properties: seq<Property>, events: seq<Event>)
    requires AllOffered(Begin(today), properties, events)
    ensures SumsUp(BuildPayload(Run(Begin(today), properties, events).form))
    ensures PropertyOfCustomer(BuildPayload(Run(Begin(today), properties, events).form), properties)
  {
    var c := Run(Begin(today), properties, events);
    RunKeepsAgreement(Begin(today), properties, events);
    PayloadTotalIsSum(c.form);
    PayloadPropertyIsOwned(c, properties);
  }
}
