/** The home dashboard: counts of groups, assignments and (for professors)
    submissions. */
module DashboardPage {
  import opened Http
  import opened Domain

  /** The three counters. */
  datatype Stats = Stats(groups: nat, assignments: nat, submissions: nat)

  const InitialStats := Stats(0, 0, 0)

  /** The third request of `fetchStats`: professors ask the backend for
      the submissions; anyone else gets an immediately resolved empty list
      and no request is made. */
  function SubmissionsRequest(role: string, response: Response<seq<Submission>>): Response<seq<Submission>>
  {
    if role == Professor then response else Ok([])
  }

  /** The "Professor Tools" card. */
  predicate ProfessorToolsOffered(role: string)
  {
    role == Professor
  }

  class Dashboard {
    var stats: Stats
    var loading: bool

    constructor ()
      ensures stats == InitialStats && loading
    {
      stats, loading := InitialStats, true;
    }

    /** `fetchStats` for a user with role `role`: the requests succeed or
        fail together; only a professor's submissions response is ever read,
        so anyone else's submissions counter is 0 after a successful fetch.
        On failure the counters keep their values; loading ends either way. */
    method FetchStats(role: string, groupsResponse: Response<seq<Group>>,
                      assignmentsResponse: Response<seq<Assignment>>,
                      submissionsResponse: Response<seq<Submission>>)
      modifies this
      ensures !loading
      ensures var ok := groupsResponse.Ok? && assignmentsResponse.Ok? && (role == Professor ==> submissionsResponse.Ok?);
        && (ok ==> stats.groups == |groupsResponse.data| && stats.assignments == |assignmentsResponse.data|)
        && (ok ==> stats.submissions == if role == Professor then |submissionsResponse.data| else 0)
        && (!ok ==> stats == old(stats))
    {
      var all := All3(groupsResponse, assignmentsResponse, SubmissionsRequest(role, submissionsResponse));
      if all.Ok? {
        var (groups, assignments, submissions) := all.data;
        stats := Stats(|groups|, |assignments|, |submissions|);
      }
      loading := false;
    }
  }
}
