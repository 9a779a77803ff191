/** The client's student dashboard state. The summary payload is kept as the
    server sends it. */
module StudentSlice {
  import opened Wrappers

  class StudentState<Summary> {
    var summary: Option<Summary>
    var loading: bool
    var error: Option<string>

    /** The initial state: no summary, not loading, no error. */
    constructor ()
      ensures summary == None && !loading && error == None
    {
      summary, loading, error := None, false, None;
    }

    /** pending: only `loading` changes. */
    method SummaryPending()
      modifies this
      ensures loading && summary == old(summary) && error == old(error)
    {
      loading := true;
    }

    /** fulfilled: the summary becomes the payload; a former error is not cleared. */
    method SummaryFulfilled(payload: Summary)
      modifies this
      ensures !loading && summary == Some(payload) && error == old(error)
    {
      loading := false;
      summary := Some(payload);
    }

    /** rejected: the error is recorded, the summary kept. */
    method SummaryRejected(payload: string)
      modifies this
      ensures !loading && error == Some(payload) && summary == old(summary)
    {
      loading := false;
      error := Some(payload);
    }
  }

  /** No case clears an error: once a load failed, a later successful load still
      shows the error. */
  method ErrorSticks<Summary>(s: Summary, failure: string) returns (error: Option<string>, summary: Option<Summary>)
    ensures error == Some(failure) && summary == Some(s)
  {
    var state := new StudentState<Summary>();
    state.SummaryPending();
    state.SummaryRejected(failure);
    state.SummaryPending();
    state.SummaryFulfilled(s);
    error, summary := state.error, state.summary;
  }
}
