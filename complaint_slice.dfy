/** The client's complaint state and the transitions its reducer cases make. */
module ComplaintSlice {
  import opened Wrappers
  import opened Documents
  import opened ComplaintModel

  class ComplaintState {
    var complaints: seq<Doc<ComplaintFields>>
    var loading: bool
    var error: Option<string>

    /** The initial state: no complaints, not loading, no error. */
    constructor ()
      ensures complaints == [] && !loading && error == None
    {
      complaints, loading, error := [], false, None;
    }

    /** fetch my complaints, pending: only `loading` changes. */
    method FetchMyPending()
      modifies this
      ensures loading && complaints == old(complaints) && error == old(error)
    {
      loading := true;
    }

    /** fetch my complaints, fulfilled: the list becomes the payload; an earlier
        error is kept. */
    method FetchMyFulfilled(payload: seq<Doc<ComplaintFields>>)
      modifies this
      ensures !loading && complaints == payload && error == old(error)
    {
      loading := false;
      complaints := payload;
    }

    /** fetch my complaints, rejected: the error is recorded, the list kept. */
    method FetchMyRejected(payload: string)
      modifies this
      ensures !loading && error == Some(payload) && complaints == old(complaints)
    {
      loading := false;
      error := Some(payload);
    }

    /** create, fulfilled: the new complaint goes to the front. */
    method CreateFulfilled(complaint: Doc<ComplaintFields>)
      modifies this
      ensures complaints == [complaint] + old(complaints)
      ensures |complaints| == |old(complaints)| + 1
      ensures forall k :: 0 <= k < |old(complaints)| ==> complaints[k + 1] == old(complaints)[k]
      ensures loading == old(loading) && error == old(error)
    {
      complaints := [complaint] + complaints;
    }

    /** fetch all complaints, fulfilled: the list is replaced, `loading` untouched. */
    method FetchAllFulfilled(payload: seq<Doc<ComplaintFields>>)
      modifies this
      ensures complaints == payload && loading == old(loading) && error == old(error)
    {
      complaints := payload;
    }

    /** update status, fulfilled: the first complaint with the payload's identifier
        is replaced by the payload; with no such complaint nothing changes. */
    method UpdateStatusFulfilled(payload: Doc<ComplaintFields>)
      modifies this
      ensures complaints == ReplaceFirst(old(complaints), payload)
      ensures loading == old(loading) && error == old(error)
    {
      var index := FindById(complaints, payload.id);
      if index != -1 {
        complaints := complaints[index := payload];
      }
    }
  }
}
