/** The property create/edit dialog: its form state, the prefill from an existing
    property, the change handler, the removal of empty optional fields before
    submission, and which request the submission sends. */
module PropertyForm {
  import opened Values
  import opened JsNumber
  import opened Entities

  datatype Field = CustomerId | Label | Address1 | Address2 | City | State | PostalCode | Notes | IsActive

  const FIELDS: set<Field> := {CustomerId, Label, Address1, Address2, City, State, PostalCode, Notes, IsActive}

  /** The optional columns, which are dropped from the payload when empty. */
  predicate Optional(k: Field) {
    k == Address2 || k == City || k == State || k == PostalCode || k == Notes
  }

  /** `formData`: every field holds whatever value its input last delivered. */
  datatype FormData = FormData(
    customer_id: Scalar,
    label_text: Scalar,
    address1: Scalar,
    address2: Scalar,
    city: Scalar,
    state: Scalar,
    postal_code: Scalar,
    notes: Scalar,
    is_active: Scalar)

  function Get(f: FormData, k: Field): Scalar {
    match k
    case CustomerId => f.customer_id
    case Label => f.label_text
    case Address1 => f.address1
    case Address2 => f.address2
    case City => f.city
    case State => f.state
    case PostalCode => f.postal_code
    case Notes => f.notes
    case IsActive => f.is_active
  }

  /** `{ ...prev, [name]: v }`. */
  function With(f: FormData, k: Field, v: Scalar): (r: FormData)
    ensures Get(r, k) == v
    ensures forall j :: j != k ==> Get(r, j) == Get(f, j)
  {
    match k
    case CustomerId => f.(customer_id := v)
    case Label => f.(label_text := v)
    case Address1 => f.(address1 := v)
    case Address2 => f.(address2 := v)
    case City => f.(city := v)
    case State => f.(state := v)
    case PostalCode => f.(postal_code := v)
    case Notes => f.(notes := v)
    case IsActive => f.(is_active := v)
  }

  /** The empty form: every field `''` except `is_active`, which starts as the number 1. */
  function Initial(): (f: FormData)
    ensures f.is_active == Num(1)
    ensures forall k :: k != IsActive ==> Get(f, k) == Str("")
  {
    FormData(Str(""), Str(""), Str(""), Str(""), Str(""), Str(""), Str(""), Str(""), Num(1))
  }

  /** An optional column of a property. */
  function OptionalColumn(p: Property, k: Field): Option<string>
    requires Optional(k)
  {
    match k
    case Address2 => p.address2
    case City => p.city
    case State => p.state
    case PostalCode => p.postal_code
    case Notes => p.notes
  }

  /** The form showing an existing property: the id and flag as numbers, the
      required texts as they are, and each optional column with null shown as `''`. */
  function FromProperty(p: Property): (f: FormData)
    ensures f.customer_id == Num(p.customer_id) && f.is_active == Num(p.is_active)
    ensures f.label_text == Str(p.label_text) && f.address1 == Str(p.address1)
    ensures forall k :: Optional(k) ==> Get(f, k) == Str(OrEmpty(OptionalColumn(p, k)))
  {
    FormData(
      Num(p.customer_id),
      Str(p.label_text),
      Str(p.address1),
      Str(OrEmpty(p.address2)),
      Str(OrEmpty(p.city)),
      Str(OrEmpty(p.state)),
      Str(OrEmpty(p.postal_code)),
      Str(OrEmpty(p.notes)),
      Num(p.is_active))
  }

  /** The mount effect: in edit mode with a property the whole form is replaced by
      that property's values; in any other case the form is left alone. */
  function Prefill(f: FormData, mode: string, property: Option<Property>): (r: FormData)
    ensures mode == "edit" && property.Some? ==> r == FromProperty(property.value)
    ensures !(mode == "edit" && property.Some?) ==> r == f
  {
    if mode == "edit" && property.Some? then FromProperty(property.value) else f
  }

  /** `handleChange`: a number input stores `parseInt` of its text (possibly NaN),
      every other input (the status select included) stores the raw text; no other
      field changes. */
  function Change(f: FormData, k: Field, value: string, inputType: string): (r: FormData)
    ensures inputType == "number" ==> Get(r, k) == ParsedInt(value)
    ensures inputType != "number" ==> Get(r, k) == Str(value)
    ensures forall j :: j != k ==> Get(r, j) == Get(f, j)
  {
    With(f, k, if inputType == "number" then ParsedInt(value) else Str(value))
  }

  /** `cleanData`: the form as a payload, without the optional fields whose value
      is falsy. Required fields are sent whatever they hold. */
  function Clean(f: FormData): (m: map<Field, Scalar>)
    ensures forall k :: k in m <==> !Optional(k) || Truthy(Get(f, k))
    ensures forall k :: k in m ==> m[k] == Get(f, k)
  {
    map k | k in FIELDS && (!Optional(k) || Truthy(Get(f, k))) :: Get(f, k)
  }

  /** The payload entry a stored property gives one column: the four required
      columns always, each optional column only when it is set and non-empty. */
  function SavedColumn(p: Property, k: Field): Option<Scalar> {
    match k
    case CustomerId => Some(Num(p.customer_id))
    case Label => Some(Str(p.label_text))
    case Address1 => Some(Str(p.address1))
    case IsActive => Some(Num(p.is_active))
    case Address2 => if Present(p.address2) then Some(Str(p.address2.value)) else None
    case City => if Present(p.city) then Some(Str(p.city.value)) else None
    case State => if Present(p.state) then Some(Str(p.state.value)) else None
    case PostalCode => if Present(p.postal_code) then Some(Str(p.postal_code.value)) else None
    case Notes => if Present(p.notes) then Some(Str(p.notes.value)) else None
  }

  /** The payload that describes a stored property, column by column. */
  function Saved(p: Property): map<Field, Scalar> {
    map k | k in FIELDS && SavedColumn(p, k).Some? :: SavedColumn(p, k).value
  }

  /** Every field is one of the nine. */
  lemma AllFields(k: Field)
    ensures k in FIELDS
  {
  }

  /** Column by column, the prefilled-then-cleaned form agrees with the stored
      property: the field is sent exactly when the column is stored, with its value. */
  lemma SaveUnchangedAt(p: Property, k: Field)
    ensures k in Clean(FromProperty(p)) <==> SavedColumn(p, k).Some?
    ensures k in Clean(FromProperty(p)) ==> Clean(FromProperty(p))[k] == SavedColumn(p, k).value
  {
  }

  /** Opening a property for editing and saving it untouched sends exactly its
      stored columns: the `|| ''` of the prefill and the removal of empty fields
      cancel out, so a null column is omitted rather than sent as `''`. */
  lemma SaveUnchanged(p: Property)
    ensures Clean(Prefill(Initial(), "edit", Some(p))) == Saved(p)
  {
    var m := Clean(FromProperty(p));
    var s := Saved(p);
    forall k
      ensures k in m <==> k in s
      ensures k in m ==> m[k] == s[k]
    {
      AllFields(k);
      SaveUnchangedAt(p, k);
    }
  }

  /** What the submission sends: a create with the cleaned form, or an update of
      the edited property's id. */
  datatype Request = Create(data: map<Field, Scalar>) | Update(id: int, data: map<Field, Scalar>)

  /** The request for a submission. Any mode other than `create` updates; without a
      property, reading its id throws before any request is made. */
  function SubmitRequest(f: FormData, mode: string, property: Option<Property>): (r: Option<Request>)
    ensures mode == "create" ==> r == Some(Create(Clean(f)))
    ensures mode != "create" && property.Some? ==> r == Some(Update(property.value.property_id, Clean(f)))
    ensures mode != "create" && property.None? ==> r.None?
  {
    if mode == "create" then Some(Create(Clean(f)))
    else if property.Some? then Some(Update(property.value.property_id, Clean(f)))
    else None
  }

  /** The outcome of a submission: the request sent, whether `onSuccess` ran, the
      error shown, and the loading flag. */
  datatype SubmitEffect = SubmitEffect(request: Option<Request>, succeeded: bool, error: Option<string>, loading: bool)

  const OPERATION_FAILED := "Operation failed"

  /** `handleSubmit`: clears the error, sends the request, and either calls
      `onSuccess` or shows the server's detail (else 'Operation failed'); the
      missing-property throw lands in the same handler. Loading ends false. */
  function Submit(f: FormData, mode: string, property: Option<Property>, reply: Reply<Property>): (e: SubmitEffect)
    ensures e.request == SubmitRequest(f, mode, property)
    ensures e.succeeded <==> e.request.Some? && reply.Ok?
    ensures e.error.None? <==> e.succeeded
    ensures e.request.Some? && reply.Failed? ==> e.error == Some(ErrorText(reply.error, OPERATION_FAILED))
    ensures e.request.None? ==> e.error == Some(OPERATION_FAILED)
    ensures !e.loading
  {
    var request := SubmitRequest(f, mode, property);
    if request.None? then SubmitEffect(None, false, Some(OPERATION_FAILED), false)
    else
      match reply
      case Ok(_) => SubmitEffect(request, true, None, false)
      case Failed(err) => SubmitEffect(request, false, Some(ErrorText(err, OPERATION_FAILED)), false)
  }

  /** The status select is not a number input, so whichever option is chosen the
      flag is stored and sent as its text (`'0'` or `'1'`), never as a number. */
  lemma StatusSelectSendsText(f: FormData, value: string, inputType: string)
    requires inputType != "number"
    ensures IsActive in Clean(Change(f, IsActive, value, inputType))
    ensures Clean(Change(f, IsActive, value, inputType))[IsActive] == Str(value)
    ensures !Clean(Change(f, IsActive, value, inputType))[IsActive].Num?
  {
  }
}
