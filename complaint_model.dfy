/** The complaint schema: an owner reference, three required strings, a status
    restricted to three values with default Pending, and timestamps. */
module ComplaintModel {
  import opened Wrappers

  datatype ComplaintStatus = Pending | InProgress | Resolved

  /** The string the schema's enum stores for each status. */
  function StatusName(st: ComplaintStatus): string {
    match st
    case Pending => "Pending"
    case InProgress => "In-Progress"
    case Resolved => "Resolved"
  }

  /** The enum check applied when a status string is saved: exactly the three
      listed strings are accepted, each as the status it names. */
  function ParseStatus(s: string): (r: Option<ComplaintStatus>)
    ensures r.Some? <==> s == "Pending" || s == "In-Progress" || s == "Resolved"
    ensures r.Some? ==> StatusName(r.value) == s
  {
    if s == "Pending" then Some(Pending)
    else if s == "In-Progress" then Some(InProgress)
    else if s == "Resolved" then Some(Resolved)
    else None
  }

  lemma StatusRoundTrip(st: ComplaintStatus)
    ensures ParseStatus(StatusName(st)) == Some(st)
  {
  }

  /** The schema fields; `user` is the owner's identifier. */
  datatype ComplaintFields = ComplaintFields(
    user: nat, category: string, description: string, roomNumber: string, status: ComplaintStatus)

  /** The required-path check for the three strings, in schema order. A required
      string path fails when it is missing or empty. */
  function MissingPaths(category: Option<string>, description: Option<string>, roomNumber: Option<string>): (r: seq<string>)
    ensures "category" in r <==> !Truthy(category)
    ensures "description" in r <==> !Truthy(description)
    ensures "roomNumber" in r <==> !Truthy(roomNumber)
    ensures r == [] <==> Truthy(category) && Truthy(description) && Truthy(roomNumber)
  {
    (if Truthy(category) then [] else ["category"])
    + (if Truthy(description) then [] else ["description"])
    + (if Truthy(roomNumber) then [] else ["roomNumber"])
  }

  /** `Complaint.create` for `user` with the given strings: the new complaint has
      exactly those fields and the default status Pending, or creation fails
      naming every missing required path. */
  function NewComplaint(user: nat, category: Option<string>, description: Option<string>, roomNumber: Option<string>)
    : (r: Result<ComplaintFields, seq<string>>)
    ensures r.Success? <==> Truthy(category) && Truthy(description) && Truthy(roomNumber)
    ensures r.Success? ==>
      && r.value.user == user && r.value.status == Pending
      && r.value.category == category.value && r.value.description == description.value
      && r.value.roomNumber == roomNumber.value
    ensures r.Failure? ==> r.error != [] && r.error == MissingPaths(category, description, roomNumber)
  {
    var missing := MissingPaths(category, description, roomNumber);
    if missing == [] then
      Success(ComplaintFields(user, category.value, description.value, roomNumber.value, Pending))
    else
      Failure(missing)
  }
}
