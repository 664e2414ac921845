/** The records the server returns, and the id lookups the lists use to turn a
    reference into a display string without ever failing on a stale id. */
module Entities {
  import opened Values
  import opened Seqs

  datatype Customer = Customer(customer_id: int, first_name: string, last_name: string)

  /** A property; the optional columns come back as `null` when unset. */
  datatype Property = Property(
    property_id: int,
    customer_id: int,
    label_text: string,
    address1: string,
    address2: Option<string>,
    city: Option<string>,
    state: Option<string>,
    postal_code: Option<string>,
    notes: Option<string>,
    is_active: int)

  /** An invoice; amounts are whole cents and `status` is the string the server sent. */
  datatype Invoice = Invoice(
    invoice_id: int,
    customer_id: int,
    property_id: int,
    period_start: string,
    period_end: string,
    issued_date: string,
    due_date: Option<string>,
    subtotal: int,
    tax: int,
    total: int,
    status: string,
    notes: Option<string>)

  /** The label shown for an id that no loaded record carries. */
  const UNKNOWN := "Unknown"

  /** `${first_name} ${last_name}`. */
  function FullName(c: Customer): string {
    c.first_name + " " + c.last_name
  }

  /** `customers.find(c => c.customer_id === id)`, rendered as a full name or 'Unknown'. */
  function CustomerName(customers: seq<Customer>, id: int): (r: string)
    ensures (forall i :: 0 <= i < |customers| ==> customers[i].customer_id != id) ==> r == UNKNOWN
    ensures forall i :: (0 <= i < |customers| && customers[i].customer_id == id &&
                         forall j :: 0 <= j < i ==> customers[j].customer_id != id)
                         ==> r == FullName(customers[i])
  {
    match FirstIndex(customers, (c: Customer) => c.customer_id == id)
    case None => UNKNOWN
    case Some(i) => FullName(customers[i])
  }

  /** `properties.find(p => p.property_id === id)`, rendered as its label or 'Unknown'. */
  function PropertyLabel(properties: seq<Property>, id: int): (r: string)
    ensures (forall i :: 0 <= i < |properties| ==> properties[i].property_id != id) ==> r == UNKNOWN
    ensures forall i :: (0 <= i < |properties| && properties[i].property_id == id &&
                         forall j :: 0 <= j < i ==> properties[j].property_id != id)
                         ==> r == properties[i].label_text
  {
    match FirstIndex(properties, (p: Property) => p.property_id == id)
    case None => UNKNOWN
    case Some(i) => properties[i].label_text
  }

  /** A full name always holds a space and 'Unknown' does not, so the customer
      lookup reads 'Unknown' exactly when the id is missing: the fallback can never
      be mistaken for a real customer. */
  lemma CustomerNameUnknownIff(customers: seq<Customer>, id: int)
    ensures CustomerName(customers, id) == UNKNOWN <==>
      forall i :: 0 <= i < |customers| ==> customers[i].customer_id != id
  {
    match FirstIndex(customers, (c: Customer) => c.customer_id == id)
    case None =>
    case Some(i) =>
      var c := customers[i];
      assert FullName(c)[|c.first_name|] == ' ';
      assert ' ' !in UNKNOWN;
  }

  /** The properties owned by one customer, in the order the server listed them,
      each as often as the server listed it. */
  function PropertiesOf(properties: seq<Property>, customerId: int): (r: seq<Property>)
    ensures forall p :: p in r <==> p in properties && p.customer_id == customerId
    ensures forall p :: multiset(r)[p] == (if p.customer_id == customerId then multiset(properties)[p] else 0)
    ensures SubsequenceOf(r, properties)
  {
    var keep := (p: Property) => p.customer_id == customerId;
    FilterIsSubsequence(properties, keep);
    FilterExactly(properties, keep);
    forall p ensures multiset(Filter(properties, keep))[p] == if keep(p) then multiset(properties)[p] else 0 {
      FilterCount(properties, keep, p);
    }
    Filter(properties, keep)
  }
}
