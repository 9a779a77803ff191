/** The leave schema: owner, two required dates and two required strings, a status
    restricted to three values with default Pending, a comment defaulting to "",
    and timestamps. */
module LeaveModel {
  import opened Wrappers

  datatype LeaveStatus = Pending | Approved | Rejected

  function StatusName(st: LeaveStatus): string {
    match st
    case Pending => "Pending"
    case Approved => "Approved"
    case Rejected => "Rejected"
  }

  /** The enum check applied when a status string is saved. */
  function ParseStatus(s: string): (r: Option<LeaveStatus>)
    ensures r.Some? <==> s == "Pending" || s == "Approved" || s == "Rejected"
    ensures r.Some? ==> StatusName(r.value) == s
  {
    if s == "Pending" then Some(Pending)
    else if s == "Approved" then Some(Approved)
    else if s == "Rejected" then Some(Rejected)
    else None
  }

  lemma StatusRoundTrip(st: LeaveStatus)
    ensures ParseStatus(StatusName(st)) == Some(st)
  {
  }

  /** Calendar dates are day numbers; the schema relates neither to the other. */
  type Day = int

  datatype LeaveFields = LeaveFields(
    user: nat, fromDate: Day, toDate: Day, reason: string, destinationAddress: string,
    status: LeaveStatus, wardenComment: string)

  /** The required-path check, in schema order. A date is None when it is missing
      or cannot be read as a date; a required string fails when missing or empty. */
  function MissingPaths(fromDate: Option<Day>, toDate: Option<Day>, reason: Option<string>, destinationAddress: Option<string>)
    : (r: seq<string>)
    ensures "fromDate" in r <==> fromDate.None?
    ensures "toDate" in r <==> toDate.None?
    ensures "reason" in r <==> !Truthy(reason)
    ensures "destinationAddress" in r <==> !Truthy(destinationAddress)
    ensures r == [] <==> fromDate.Some? && toDate.Some? && Truthy(reason) && Truthy(destinationAddress)
  {
    (if fromDate.Some? then [] else ["fromDate"])
    + (if toDate.Some? then [] else ["toDate"])
    + (if Truthy(reason) then [] else ["reason"])
    + (if Truthy(destinationAddress) then [] else ["destinationAddress"])
  }

  /** `Leave.create` for `user`: the new leave carries the given dates and strings,
      status Pending and an empty warden comment, whatever the order of the two
      dates; or creation fails naming every missing required path. */
  function NewLeave(user: nat, fromDate: Option<Day>, toDate: Option<Day>, reason: Option<string>, destinationAddress: Option<string>)
    : (r: Result<LeaveFields, seq<string>>)
    ensures r.Success? <==> fromDate.Some? && toDate.Some? && Truthy(reason) && Truthy(destinationAddress)
    ensures r.Success? ==>
      && r.value.user == user && r.value.status == Pending && r.value.wardenComment == ""
      && r.value.fromDate == fromDate.value && r.value.toDate == toDate.value
      && r.value.reason == reason.value && r.value.destinationAddress == destinationAddress.value
    ensures r.Failure? ==> r.error != [] && r.error == MissingPaths(fromDate, toDate, reason, destinationAddress)
  {
    var missing := MissingPaths(fromDate, toDate, reason, destinationAddress);
    if missing == [] then
      Success(LeaveFields(user, fromDate.value, toDate.value, reason.value, destinationAddress.value, Pending, ""))
    else
      Failure(missing)
  }

  /** A leave ending before it starts is accepted like any other. */
  lemma ReversedDatesAccepted(user: nat, from: Day, to: Day, reason: string, address: string)
    requires to < from && reason != "" && address != ""
    ensures NewLeave(user, Some(from), Some(to), Some(reason), Some(address)).Success?
  {
  }
}
