/** The professor dashboard: totals over the fetched assignments,
    submissions and groups, the pending count, the five most recent
    submissions and the list of assignments with their audience. */
module ProfessorDashboardPage {
  import opened Http
  import opened Domain

  const ConfirmedStatus := "confirmed"

  /** `submissions.filter(sub => sub.status !== 'confirmed')`: the
      submissions still waiting for confirmation, in their original order. */
  function Unconfirmed(subs: seq<Submission>): (r: seq<Submission>)
    ensures |r| <= |subs|
    ensures forall s :: s in r <==> s in subs && s.status != ConfirmedStatus
    ensures multiset(r) <= multiset(subs)
  {
    if subs == [] then []
    else
      assert subs == [subs[0]] + subs[1..];
      (if subs[0].status != ConfirmedStatus then [subs[0]] else []) + Unconfirmed(subs[1..])
  }

  /** The submissions already confirmed. */
  function ConfirmedOnly(subs: seq<Submission>): seq<Submission>
  {
    if subs == [] then []
    else (if subs[0].status == ConfirmedStatus then [subs[0]] else []) + ConfirmedOnly(subs[1..])
  }

  /** Every submission is either pending or confirmed, never both: the two
      counts add up to the total. */
  lemma {:induction false} PendingPlusConfirmed(subs: seq<Submission>)
    ensures |Unconfirmed(subs)| + |ConfirmedOnly(subs)| == |subs|
  {
    if subs != [] {
      PendingPlusConfirmed(subs[1..]);
    }
  }

  /** The pending count is additive over concatenation, so a longer list
      never has fewer pending submissions than its prefix. */
  lemma {:induction false} UnconfirmedAppend(a: seq<Submission>, b: seq<Submission>)
    ensures Unconfirmed(a + b) == Unconfirmed(a) + Unconfirmed(b)
  {
    if a == [] {
      assert a + b == b;
    } else {
      assert (a + b)[1..] == a[1..] + b;
      UnconfirmedAppend(a[1..], b);
    }
  }

  /** Nothing is pending exactly when every submission is confirmed. */
  lemma {:induction false} NothingPending(subs: seq<Submission>)
    ensures |Unconfirmed(subs)| == 0 <==> forall i :: 0 <= i < |subs| ==> subs[i].status == ConfirmedStatus
  {
    if exists i :: 0 <= i < |subs| && subs[i].status != ConfirmedStatus {
      var i :| 0 <= i < |subs| && subs[i].status != ConfirmedStatus;
      assert subs[i] in Unconfirmed(subs);
    }
    if |Unconfirmed(subs)| != 0 {
      var s := Unconfirmed(subs)[0];
      assert s in subs && s.status != ConfirmedStatus;
      var i :| 0 <= i < |subs| && subs[i] == s;
    }
  }

  /** `submissions.slice(0, 5)`: the first five submissions, or all of them
      when there are fewer, in original order. */
  function Recent(subs: seq<Submission>): (r: seq<Submission>)
    ensures |r| == if |subs| < 5 then |subs| else 5
    ensures r <= subs
  {
    if |subs| <= 5 then subs else subs[..5]
  }

  /** The four counters of the dashboard. */
  datatype Stats = Stats(totalAssignments: nat, totalSubmissions: nat, totalGroups: nat, pendingSubmissions: nat)

  const InitialStats := Stats(0, 0, 0, 0)

  /** The counters for one successful fetch. */
  function ComputeStats(assignments: seq<Assignment>, submissions: seq<Submission>, groups: seq<Group>): (st: Stats)
    ensures st.totalAssignments == |assignments| && st.totalGroups == |groups|
    ensures st.totalSubmissions == |submissions|
    ensures st.pendingSubmissions <= st.totalSubmissions
    ensures st.pendingSubmissions == |submissions| - |ConfirmedOnly(submissions)|
  {
    PendingPlusConfirmed(submissions);
    Stats(|assignments|, |submissions|, |groups|, |Unconfirmed(submissions)|)
  }

  const StatusBadges: map<string, string> := map[
    "pending" := "Pending",
    "submitted" := "Submitted",
    "confirmed" := "Confirmed"
  ]

  /** `getStatusBadge(status)`: 'submitted' reads "Submitted", 'confirmed'
      reads "Confirmed", and 'pending' and every unknown status read
      "Pending". */
  function Badge(status: string): (text: string)
    ensures text in {"Pending", "Submitted", "Confirmed"}
    ensures text == "Submitted" <==> status == "submitted"
    ensures text == "Confirmed" <==> status == "confirmed"
    ensures text == "Pending" <==> status != "submitted" && status != "confirmed"
  {
    if status in StatusBadges then StatusBadges[status] else StatusBadges["pending"]
  }

  /** The three known statuses have three distinct badges. */
  lemma BadgeDistinguishes(status: string, status': string)
    requires status in StatusBadges && status' in StatusBadges
    ensures Badge(status) == Badge(status') <==> status == status'
  {
  }

  /** The audience caption of an assignment. */
  function AudienceLabel(assignedTo: string): (caption: string)
    ensures caption == "All Students" <==> assignedTo == "all"
    ensures caption != "All Students" ==> caption == "Specific Groups"
  {
    if assignedTo == "all" then "All Students" else "Specific Groups"
  }

  class ProfessorDashboard {
    var stats: Stats
    var recentSubmissions: seq<Submission>
    var assignments: seq<Assignment>
    var loading: bool

    constructor ()
      ensures stats == InitialStats && recentSubmissions == [] && assignments == [] && loading
    {
      stats, recentSubmissions, assignments, loading := InitialStats, [], [], true;
    }

    /** The counters never claim more pending than total submissions. */
    predicate Consistent()
      reads this
    {
      stats.pendingSubmissions <= stats.totalSubmissions && |recentSubmissions| <= 5
    }

    /** `fetchDashboardData`: the three requests succeed or fail together;
        on failure everything keeps its value (zeros at first) and loading
        ends either way. */
    method FetchDashboardData(assignmentsResponse: Response<seq<Assignment>>,
                              submissionsResponse: Response<seq<Submission>>,
                              groupsResponse: Response<seq<Group>>)
      modifies this
      ensures !loading
      ensures old(Consistent()) ==> Consistent()
      ensures assignmentsResponse.Ok? && submissionsResponse.Ok? && groupsResponse.Ok? ==>
        && stats == ComputeStats(assignmentsResponse.data, submissionsResponse.data, groupsResponse.data)
        && recentSubmissions == Recent(submissionsResponse.data)
        && assignments == assignmentsResponse.data
        && Consistent()
      ensures !(assignmentsResponse.Ok? && submissionsResponse.Ok? && groupsResponse.Ok?) ==>
        stats == old(stats) && recentSubmissions == old(recentSubmissions) && assignments == old(assignments)
    {
      var all := All3(assignmentsResponse, submissionsResponse, groupsResponse);
      if all.Ok? {
        var (fetchedAssignments, submissions, groups) := all.data;
        stats := ComputeStats(fetchedAssignments, submissions, groups);
        recentSubmissions := Recent(submissions);
        assignments := fetchedAssignments;
      }
      loading := false;
    }
  }
}
