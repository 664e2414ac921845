/** The four invoice statuses, their wire names, and the colour badge both invoice
    views draw for a status string (the same `badges[status] || badges.draft` table
    appears in the list and in the details dialog). */
module InvoiceStatus {
  import opened Values

  datatype Status = Draft | Sent | Paid | Void

  /** The status as the server spells it. */
  function Name(st: Status): string {
    match st
    case Draft => "draft"
    case Sent => "sent"
    case Paid => "paid"
    case Void => "void"
  }

  /** Reads a status string; anything but the four names is unknown. */
  function Parse(s: string): (r: Option<Status>)
    ensures r.Some? ==> Name(r.value) == s
    ensures forall st :: Name(st) == s ==> r == Some(st)
  {
    if s == "draft" then Some(Draft)
    else if s == "sent" then Some(Sent)
    else if s == "paid" then Some(Paid)
    else if s == "void" then Some(Void)
    else None
  }

  /** The badge table. */
  function BadgeClass(st: Status): string {
    match st
    case Draft => "bg-gray-100 text-gray-800"
    case Sent => "bg-blue-100 text-blue-800"
    case Paid => "bg-green-100 text-green-800"
    case Void => "bg-red-100 text-red-800"
  }

  /** `badges[status] || badges.draft`: the badge of a known status, else the draft badge. */
  function Badge(status: string): (r: string)
    ensures Parse(status).Some? ==> r == BadgeClass(Parse(status).value)
    ensures Parse(status).None? ==> r == BadgeClass(Draft)
  {
    match Parse(status)
    case Some(st) => BadgeClass(st)
    case None => BadgeClass(Draft)
  }

  /** Each status has a badge of its own. */
  lemma BadgeClassInjective(a: Status, b: Status)
    ensures BadgeClass(a) == BadgeClass(b) <==> a == b
  {
  }

  /** The badge identifies the status: a string gets the sent, paid or void badge
      exactly when it is that status, and the draft badge when it is `draft` or
      anything unknown. */
  lemma BadgeIdentifiesStatus(status: string, st: Status)
    ensures Badge(status) == BadgeClass(st) <==>
      (Parse(status) == Some(st) || (st == Draft && Parse(status).None?))
  {
  }

  /** Upper-cases an ASCII lower-case letter. */
  function UpperCase(c: char): char {
    if 'a' <= c <= 'z' then (c as int - 32) as char else c
  }

  /** The status text as shown: `s.charAt(0).toUpperCase() + s.slice(1)`. */
  function Capitalize(s: string): (r: string)
    ensures |r| == |s|
    ensures |s| > 0 ==> r[0] == UpperCase(s[0]) && r[1..] == s[1..]
  {
    if |s| == 0 then "" else [UpperCase(s[0])] + s[1..]
  }
}
