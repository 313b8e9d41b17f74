/** The assignments page: the list with due dates and audiences, and the
    professor's create form. */
module AssignmentsPage {
  import opened Http
  import opened Domain
  import opened Text

  /** `new Date(dueDate) < new Date()`: strictly before now. A date that
      does not parse compares false, so it is never overdue. */
  predicate IsOverdue(dueDate: Option<int>, now: int)
  {
    dueDate.Some? && dueDate.value < now
  }

  /** Overdue is a strict comparison: an assignment due exactly now is not
      overdue, and once overdue it stays overdue as time passes. */
  lemma OverdueBoundary(due: int, now: int, later: int)
    requires now <= later
    ensures !IsOverdue(Some(due), due)
    ensures IsOverdue(Some(due), now) ==> IsOverdue(Some(due), later)
    ensures IsOverdue(Some(due), now) <==> now > due
    ensures !IsOverdue(None, now)
  {
  }

  /** How the due date is drawn: in red, and with an "Overdue" chip. */
  datatype DueStyle = DueStyle(red: bool, overdueChip: bool)

  /** The two overdue tests of one render. Each reads the clock anew: the
      red class at `now`, the chip afterwards at `now'`. A date that falls
      due between the readings gets the chip without the red colour, never
      the other way round; with one reading both agree. */
  function DueDisplay(a: Assignment, now: int, now': int): (style: DueStyle)
    requires now <= now'
    ensures style.red <==> IsOverdue(a.dueDate, now)
    ensures style.overdueChip <==> IsOverdue(a.dueDate, now')
    ensures style.red ==> style.overdueChip
    ensures now == now' ==> style.red == style.overdueChip
  {
    DueStyle(IsOverdue(a.dueDate, now), IsOverdue(a.dueDate, now'))
  }

  /** The names of an assignment's groups, in order. */
  function GroupNames(groups: seq<GroupRef>): (names: seq<string>)
    ensures |names| == |groups|
    ensures forall i :: 0 <= i < |groups| ==> names[i] == groups[i].name
  {
    if groups == [] then [] else [groups[0].name] + GroupNames(groups[1..])
  }

  /** The "Assigned to: ..." line: shown only for an assignment to
      specific groups that lists at least one, naming them joined by ", ". */
  function AssignedToLine(a: Assignment): (line: Option<string>)
    ensures line.Some? <==> a.assignedTo == "specific" && |a.assignedGroups| > 0
    ensures line.Some? ==> line.value == "Assigned to: " + Join(GroupNames(a.assignedGroups), ", ")
  {
    if a.assignedTo == "specific" && |a.assignedGroups| > 0
    then Some("Assigned to: " + Join(GroupNames(a.assignedGroups), ", "))
    else None
  }

  /** The create form's fields; `assignedGroups` holds group ids. */
  datatype AssignmentForm = AssignmentForm(
    title: string, description: string, dueDate: string, oneDriveLink: string,
    assignedTo: string, assignedGroups: seq<string>)

  const DefaultForm := AssignmentForm("", "", "", "", "all", [])

  /** The group multi-select appears only for an assignment to specific
      groups. */
  predicate GroupSelectShown(form: AssignmentForm)
  {
    form.assignedTo == "specific"
  }

  /** The "Create Assignment" buttons. */
  predicate CreateOffered(role: string)
  {
    role == Professor
  }

  /** A freshly reset form assigns to everyone, so it hides the group
      multi-select and names no groups. */
  lemma DefaultFormHidesGroups()
    ensures !GroupSelectShown(DefaultForm) && DefaultForm.assignedGroups == []
    ensures DefaultForm.title == DefaultForm.description == DefaultForm.dueDate == DefaultForm.oneDriveLink == ""
  {
  }

  class Assignments {
    var assignments: seq<Assignment>
    var showCreateForm: bool
    var formData: AssignmentForm
    var groups: seq<Group>
    var loading: bool
    var error: string

    constructor ()
      ensures assignments == [] && !showCreateForm && formData == DefaultForm
      ensures groups == [] && !loading && error == ""
    {
      assignments, showCreateForm, formData := [], false, DefaultForm;
      groups, loading, error := [], false, "";
    }

    /** `fetchAssignments`. */
    method FetchAssignments(response: Response<seq<Assignment>>)
      modifies this
      ensures response.Ok? ==> assignments == response.data && error == old(error)
      ensures response.Fail? ==> assignments == old(assignments) && error == "Failed to fetch assignments"
      ensures showCreateForm == old(showCreateForm) && formData == old(formData)
      ensures groups == old(groups) && loading == old(loading)
    {
      if response.Ok? {
        assignments := response.data;
      } else {
        error := "Failed to fetch assignments";
      }
    }

    /** `fetchGroups`: a failure is only logged, it never sets `error`. */
    method FetchGroups(response: Response<seq<Group>>)
      modifies this
      ensures groups == if response.Ok? then response.data else old(groups)
      ensures assignments == old(assignments) && showCreateForm == old(showCreateForm)
      ensures formData == old(formData) && loading == old(loading) && error == old(error)
    {
      if response.Ok? {
        groups := response.data;
      }
    }

    /** The mount effect for a user of role `role`: assignments are always
        fetched, groups only for a professor. */
    method Mount(role: string, assignmentsResponse: Response<seq<Assignment>>, groupsResponse: Response<seq<Group>>)
      returns (groupsFetched: bool)
      modifies this
      ensures groupsFetched <==> role == Professor
      ensures groups == if groupsFetched && groupsResponse.Ok? then groupsResponse.data else old(groups)
      ensures assignments == if assignmentsResponse.Ok? then assignmentsResponse.data else old(assignments)
      ensures error == if assignmentsResponse.Ok? then old(error) else "Failed to fetch assignments"
      ensures showCreateForm == old(showCreateForm) && formData == old(formData) && loading == old(loading)
    {
      FetchAssignments(assignmentsResponse);
      groupsFetched := role == Professor;
      if groupsFetched {
        FetchGroups(groupsResponse);
      }
    }

    /** "Create Assignment" and "Cancel". */
    method SetCreateFormOpen(open: bool)
      modifies this`showCreateForm
      ensures showCreateForm == open
    {
      showCreateForm := open;
    }

    /** Choosing the audience; the other fields are kept. */
    method SetAssignedTo(assignedTo: string)
      modifies this`formData
      ensures formData == old(formData).(assignedTo := assignedTo)
      ensures GroupSelectShown(formData) <==> assignedTo == "specific"
    {
      formData := formData.(assignedTo := assignedTo);
    }

    /** `handleCreateAssignment`: posts the form; on success the form goes
        back to its defaults, closes, and the list is re-fetched; on failure
        the error shows the server's message or the default and the form is
        kept. Loading is over afterwards either way. */
    method HandleCreateAssignment(post: Response<()>, refetch: Response<seq<Assignment>>)
      returns (request: AssignmentForm, refetched: bool)
      modifies this
      ensures request == old(formData)
      ensures !loading && groups == old(groups)
      ensures refetched <==> post.Ok?
      ensures post.Ok? ==> formData == DefaultForm && !showCreateForm
      ensures post.Ok? ==> assignments == (if refetch.Ok? then refetch.data else old(assignments))
      ensures post.Ok? ==> error == (if refetch.Ok? then "" else "Failed to fetch assignments")
      ensures post.Fail? ==> formData == old(formData) && showCreateForm == old(showCreateForm) && assignments == old(assignments)
      ensures post.Fail? ==> error == ErrorText(post.message, "Failed to create assignment")
    {
      loading := true;
      error := "";
      request := formData;
      if post.Ok? {
        formData := DefaultForm;
        showCreateForm := false;
        refetched := true;
        FetchAssignments(refetch);
      } else {
        error := ErrorText(post.message, "Failed to create assignment");
        refetched := false;
      }
      loading := false;
    }
  }
}
