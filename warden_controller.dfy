/** The warden dashboard: eight status counts and the five newest complaints and
    leaves. Both are read-only queries over the store. */
module WardenController {
  import opened Documents
  import CM = ComplaintModel
  import LM = LeaveModel
  import opened Store

  datatype ComplaintCounts = ComplaintCounts(total: nat, pending: nat, inProgress: nat, resolved: nat)
  datatype LeaveCounts = LeaveCounts(total: nat, pending: nat, approved: nat, rejected: nat)
  datatype Summary = Summary(complaints: ComplaintCounts, leaves: LeaveCounts)

  datatype RecentActivity = RecentActivity(
    recentComplaints: seq<Populated<CM.ComplaintFields>>, recentLeaves: seq<Populated<LM.LeaveFields>>)

  /** The filter `{ status: st }` on complaints. */
  function ComplaintHas(st: CM.ComplaintStatus): CM.ComplaintFields -> bool {
    (f: CM.ComplaintFields) => f.status == st
  }

  /** The filter `{ status: st }` on leaves. */
  function LeaveHas(st: LM.LeaveStatus): LM.LeaveFields -> bool {
    (f: LM.LeaveFields) => f.status == st
  }

  /** Every complaint has exactly one of the three statuses. */
  lemma {:induction false} ComplaintCountsPartition(s: seq<Doc<CM.ComplaintFields>>)
    ensures Count(s, ComplaintHas(CM.Pending)) + Count(s, ComplaintHas(CM.InProgress))
          + Count(s, ComplaintHas(CM.Resolved)) == |s|
  {
    if |s| > 0 {
      ComplaintCountsPartition(s[..|s| - 1]);
    }
  }

  /** Every leave has exactly one of the three statuses. */
  lemma {:induction false} LeaveCountsPartition(s: seq<Doc<LM.LeaveFields>>)
    ensures Count(s, LeaveHas(LM.Pending)) + Count(s, LeaveHas(LM.Approved))
          + Count(s, LeaveHas(LM.Rejected)) == |s|
  {
    if |s| > 0 {
      LeaveCountsPartition(s[..|s| - 1]);
    }
  }

  /** GET summary: the totals are the table sizes, each status count counts that
      status, and the three status counts of each table add up to its total. */
  function GetDashboardSummary(db: Database): (r: Summary)
    reads db
    ensures r.complaints.total == |db.complaints| && r.leaves.total == |db.leaves|
    ensures r.complaints.pending == Count(db.complaints, ComplaintHas(CM.Pending))
    ensures r.complaints.inProgress == Count(db.complaints, ComplaintHas(CM.InProgress))
    ensures r.complaints.resolved == Count(db.complaints, ComplaintHas(CM.Resolved))
    ensures r.leaves.pending == Count(db.leaves, LeaveHas(LM.Pending))
    ensures r.leaves.approved == Count(db.leaves, LeaveHas(LM.Approved))
    ensures r.leaves.rejected == Count(db.leaves, LeaveHas(LM.Rejected))
    ensures r.complaints.total == r.complaints.pending + r.complaints.inProgress + r.complaints.resolved
    ensures r.leaves.total == r.leaves.pending + r.leaves.approved + r.leaves.rejected
  {
    ComplaintCountsPartition(db.complaints);
    LeaveCountsPartition(db.leaves);
    Summary(
      ComplaintCounts(|db.complaints|, Count(db.complaints, ComplaintHas(CM.Pending)),
                      Count(db.complaints, ComplaintHas(CM.InProgress)), Count(db.complaints, ComplaintHas(CM.Resolved))),
      LeaveCounts(|db.leaves|, Count(db.leaves, LeaveHas(LM.Pending)),
                  Count(db.leaves, LeaveHas(LM.Approved)), Count(db.leaves, LeaveHas(LM.Rejected))))
  }

  const RecentLimit := 5

  /** GET recent: the five newest complaints and the five newest leaves (fewer
      when a table is smaller), newest first, none left out newer than one shown,
      each joined with its owner's name and email. */
  function GetRecentActivity(db: Database): (r: RecentActivity)
    reads db
    requires db.Valid()
    ensures IsLatest(Docs(r.recentComplaints), db.complaints, RecentLimit)
    ensures IsLatest(Docs(r.recentLeaves), db.leaves, RecentLimit)
    ensures forall k :: 0 <= k < |r.recentComplaints| ==>
      r.recentComplaints[k].owner == OwnerOf(db.users, r.recentComplaints[k].doc.fields.user)
    ensures forall k :: 0 <= k < |r.recentLeaves| ==>
      r.recentLeaves[k].owner == OwnerOf(db.users, r.recentLeaves[k].doc.fields.user)
  {
    LatestIsLatest(db.complaints, RecentLimit, db.clock);
    LatestIsLatest(db.leaves, RecentLimit, db.clock);
    var complaints := Populate(db.users, Latest(db.complaints, RecentLimit), (f: CM.ComplaintFields) => f.user);
    var leaves := Populate(db.users, Latest(db.leaves, RecentLimit), (f: LM.LeaveFields) => f.user);
    RecentActivity(complaints, leaves)
  }
}
