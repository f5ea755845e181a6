/** The shared record types of the issue tracker: the Issue entity, its
    three-valued status, and the request bodies of create and update. */
module Types {

  /** An optional value: a JavaScript `undefined` (or an absent JSON key) is None. */
  datatype Option<+T> = None | Some(value: T)

  /** JavaScript truthiness of an optional string: `undefined` and `""` are falsy. */
  predicate Truthy(o: Option<string>)
  {
    o.Some? && o.value != ""
  }

  /** `o || d` on an optional string: the value when it is truthy, else the
      default. */
  function OrDefault(o: Option<string>, d: string): (s: string)
    ensures Truthy(o) ==> s == o.value
    ensures !Truthy(o) ==> s == d
  {
    if Truthy(o) then o.value else d
  }

  /** The status of an issue. */
  datatype Status = Open | InProgress | Closed

  /** The literal string a status is serialized as. */
  function StatusName(s: Status): string
  {
    match s
    case Open => "open"
    case InProgress => "in-progress"
    case Closed => "closed"
  }

  /** Reads a status back from its literal string; anything else is None. */
  function ParseStatus(v: string): (r: Option<Status>)
    ensures r.Some? ==> StatusName(r.value) == v
    ensures r.None? ==> v != "open" && v != "in-progress" && v != "closed"
  {
    if v == "open" then Some(Open)
    else if v == "in-progress" then Some(InProgress)
    else if v == "closed" then Some(Closed)
    else None
  }

  /** Serializing a status and reading it back gives the same status. */
  lemma ParseStatusName(s: Status)
    ensures ParseStatus(StatusName(s)) == Some(s)
  {
  }

  /** One row of the issues table; a null description is None. */
  datatype Issue = Issue(
    id: int,
    title: string,
    description: Option<string>,
    status: Status,
    createdAt: string,
    updatedAt: string)

  /** The body of a create request. The title is declared mandatory, but the
      handler must cope with it being absent, so it is optional here too.
      The status is whatever string the client sent: nothing checks it. */
  datatype CreateIssueRequest = CreateIssueRequest(
    title: Option<string>,
    description: Option<string>,
    status: Option<string>)

  /** The body of an update request: every field may be absent. */
  datatype UpdateIssueRequest = UpdateIssueRequest(
    title: Option<string>,
    description: Option<string>,
    status: Option<string>)
}
