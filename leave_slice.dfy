/** The client's leave state and the transitions its reducer cases make. */
module LeaveSlice {
  import opened Wrappers
  import opened Documents
  import opened LeaveModel

  class LeaveState {
    var leaves: seq<Doc<LeaveFields>>
    var loading: bool
    var error: Option<string>

    /** The initial state: no leaves, not loading, no error. */
    constructor ()
      ensures leaves == [] && !loading && error == None
    {
      leaves, loading, error := [], false, None;
    }

    /** fetch my leaves, pending: only `loading` changes. */
    method FetchMyPending()
      modifies this
      ensures loading && leaves == old(leaves) && error == old(error)
    {
      loading := true;
    }

    /** fetch my leaves, fulfilled: the list becomes the payload; an earlier
        error is kept. */
    method FetchMyFulfilled(payload: seq<Doc<LeaveFields>>)
      modifies this
      ensures !loading && leaves == payload && error == old(error)
    {
      loading := false;
      leaves := payload;
    }

    /** fetch my leaves, rejected: the error is recorded, the list kept. */
    method FetchMyRejected(payload: string)
      modifies this
      ensures !loading && error == Some(payload) && leaves == old(leaves)
    {
      loading := false;
      error := Some(payload);
    }

    /** apply, fulfilled: the new leave goes to the front. */
    method ApplyFulfilled(leave: Doc<LeaveFields>)
      modifies this
      ensures leaves == [leave] + old(leaves)
      ensures |leaves| == |old(leaves)| + 1
      ensures forall k :: 0 <= k < |old(leaves)| ==> leaves[k + 1] == old(leaves)[k]
      ensures loading == old(loading) && error == old(error)
    {
      leaves := [leave] + leaves;
    }

    /** fetch all leaves, fulfilled: the list is replaced, `loading` untouched. */
    method FetchAllFulfilled(payload: seq<Doc<LeaveFields>>)
      modifies this
      ensures leaves == payload && loading == old(loading) && error == old(error)
    {
      leaves := payload;
    }

    /** update status, fulfilled: the first leave with the payload's identifier
        is replaced by the payload; with no such leave nothing changes. */
    method UpdateStatusFulfilled(payload: Doc<LeaveFields>)
      modifies this
      ensures leaves == ReplaceFirst(old(leaves), payload)
      ensures loading == old(loading) && error == old(error)
    {
      var index := FindById(leaves, payload.id);
      if index != -1 {
        leaves := leaves[index := payload];
      }
    }
  }
}
