/** The client's warden dashboard state: the summary, the recent activity, and
    one `loading` flag shared by both requests. The payloads are kept as the
    server sends them. */
module WardenSlice {
  import opened Wrappers

  class WardenState<Summary, Recent> {
    var summary: Option<Summary>
    var recent: Option<Recent>
    var loading: bool
    var error: Option<string>

    /** The initial state: nothing loaded, not loading, no error. */
    constructor ()
      ensures summary == None && recent == None && !loading && error == None
    {
      summary, recent, loading, error := None, None, false, None;
    }

    /** summary, pending. */
    method SummaryPending()
      modifies this
      ensures loading && summary == old(summary) && recent == old(recent) && error == old(error)
    {
      loading := true;
    }

    /** summary, fulfilled: sets the summary and clears the shared flag. */
    method SummaryFulfilled(payload: Summary)
      modifies this
      ensures !loading && summary == Some(payload)
      ensures recent == old(recent) && error == old(error)
    {
      loading := false;
      summary := Some(payload);
    }

    /** summary, rejected. */
    method SummaryRejected(payload: string)
      modifies this
      ensures !loading && error == Some(payload)
      ensures summary == old(summary) && recent == old(recent)
    {
      loading := false;
      error := Some(payload);
    }

    /** recent activity, pending. */
    method RecentPending()
      modifies this
      ensures loading && summary == old(summary) && recent == old(recent) && error == old(error)
    {
      loading := true;
    }

    /** recent activity, fulfilled: sets the activity and clears the shared flag. */
    method RecentFulfilled(payload: Recent)
      modifies this
      ensures !loading && recent == Some(payload)
      ensures summary == old(summary) && error == old(error)
    {
      loading := false;
      recent := Some(payload);
    }

    /** recent activity, rejected. */
    method RecentRejected(payload: string)
      modifies this
      ensures !loading && error == Some(payload)
      ensures summary == old(summary) && recent == old(recent)
    {
      loading := false;
      error := Some(payload);
    }
  }

  /** Both requests started, the summary answered first: the shared flag already
      says "not loading" while the recent activity is still missing. */
  method SharedLoadingFlag<Summary, Recent>(s: Summary) returns (loading: bool, recent: Option<Recent>)
    ensures !loading && recent == None
  {
    var state := new WardenState<Summary, Recent>();
    state.SummaryPending();
    state.RecentPending();
    state.SummaryFulfilled(s);
    loading, recent := state.loading, state.recent;
  }
}
