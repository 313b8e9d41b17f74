/** The submissions page: a group's submissions with their two-step
    confirmation display, the submit form and the confirm action. The
    pending -> submitted -> confirmed transition itself happens on the
    backend; this page only gates and displays it and re-fetches. */
module SubmissionsPage {
  import opened Http
  import opened Domain
  import opened Text

  const Pending := "pending"
  const Submitted := "submitted"
  const Confirmed := "confirmed"

  /** The badge texts of `getStatusBadge`, keyed by status. */
  const StatusBadges: map<string, string> := map[
    Pending := "Not Submitted",
    Submitted := "Step 1: Submitted",
    Confirmed := "Step 2: Confirmed"
  ]

  /** `statusConfig[status] || statusConfig.pending`. */
  function Badge(status: string): (text: string)
    ensures text in StatusBadges.Values
  {
    if status in StatusBadges then StatusBadges[status] else StatusBadges[Pending]
  }

  /** Each known status has its own badge; every other status shows the
      badge of `pending`. */
  lemma BadgeTexts(status: string)
    ensures status == Pending <==> Badge(status) == "Not Submitted" && status in StatusBadges
    ensures Badge(status) == "Step 1: Submitted" <==> status == Submitted
    ensures Badge(status) == "Step 2: Confirmed" <==> status == Confirmed
    ensures status !in {Pending, Submitted, Confirmed} ==> Badge(status) == Badge(Pending)
  {
  }

  /** The confirm prompt with its button. */
  predicate ConfirmOffered(s: Submission)
  {
    s.status == Submitted && s.confirmationStep == 1
  }

  /** The "Submission confirmed" banner. */
  predicate ConfirmedBanner(s: Submission)
  {
    s.status == Confirmed
  }

  /** The width of the progress bar, in percent: `confirmationStep / 2`
      of the full bar. */
  function ProgressPercent(step: int): (p: int)
    ensures 0 <= step <= 2 ==> 0 <= p <= 100 && (p == 100 <==> step == 2)
  {
    step * 50
  }

  /** The progress caption, "{confirmationStep}/2 steps". */
  function ProgressLabel(step: int): (caption: string)
    ensures step >= 0 ==> caption == Digits(step) + "/2 steps"
    ensures step < 0 ==> caption == "-" + Digits(-step) + "/2 steps"
  {
    (if step < 0 then "-" + Digits(-step) else Digits(step)) + "/2 steps"
  }

  /** The lock-step rule of the lifecycle: pending is step 0, submitted
      step 1, confirmed step 2. */
  predicate LockStep(s: Submission)
  {
    (s.status == Pending && s.confirmationStep == 0) ||
    (s.status == Submitted && s.confirmationStep == 1) ||
    (s.status == Confirmed && s.confirmationStep == 2)
  }

  /** For a submission in lock-step, the page shows exactly one of: the
      confirm prompt (submitted), the banner (confirmed), neither (pending);
      the bar reads 0, 50 or 100 percent accordingly, and the caption names
      the step. */
  lemma LockStepDisplay(s: Submission)
    requires LockStep(s)
    ensures ConfirmOffered(s) <==> s.status == Submitted
    ensures ConfirmedBanner(s) <==> s.status == Confirmed
    ensures !(ConfirmOffered(s) && ConfirmedBanner(s))
    ensures ProgressPercent(s.confirmationStep) == (if s.status == Pending then 0 else if s.status == Submitted then 50 else 100)
    ensures ProgressLabel(s.confirmationStep) == [DigitChar(s.confirmationStep)] + "/2 steps"
  {
  }

  /** The progress bar only grows along the lifecycle. */
  lemma ProgressMonotonic(step: int, step': int)
    requires step <= step'
    ensures ProgressPercent(step) <= ProgressPercent(step')
  {
  }

  /** The submit form's fields. */
  datatype SubmitData = SubmitData(assignmentId: string, submissionLink: string)

  const EmptySubmitData := SubmitData("", "")

  /** The body posted to create a submission. */
  datatype SubmitRequest = SubmitRequest(assignmentId: string, groupId: string, submissionLink: string)

  /** The URL the confirmation of a submission is posted to. */
  function ConfirmEndpoint(submissionId: string): (url: string)
    ensures |url| == |submissionId| + 25
    ensures url[..17] == "/api/submissions/" && url[|url| - 8..] == "/confirm"
    ensures url[17..|url| - 8] == submissionId
  {
    "/api/submissions/" + submissionId + "/confirm"
  }

  /** Different submissions are confirmed at different URLs. */
  lemma ConfirmEndpointInjective(id: string, id': string)
    requires ConfirmEndpoint(id) == ConfirmEndpoint(id')
    ensures id == id'
  {
    var u := ConfirmEndpoint(id);
    assert id == u[17..|u| - 8];
  }

  class Submissions {
    var submissions: seq<Submission>
    var assignments: seq<Assignment>
    var groups: seq<Group>
    /** The selected group's id; "" when none is selected. */
    var selectedGroup: string
    /** Whether the submit form is open (`null` and `false` both close it). */
    var showSubmitForm: bool
    var submitData: SubmitData
    var loading: bool
    var error: string

    constructor ()
      ensures submissions == [] && assignments == [] && groups == []
      ensures selectedGroup == "" && !showSubmitForm && submitData == EmptySubmitData
      ensures !loading && error == ""
    {
      submissions, assignments, groups := [], [], [];
      selectedGroup, showSubmitForm, submitData := "", false, EmptySubmitData;
      loading, error := false, "";
    }

    /** The submit section is shown only while a group is selected. */
    predicate SubmitSectionShown()
      reads this
    {
      selectedGroup != ""
    }

    /** `fetchAssignments`. */
    method FetchAssignments(response: Response<seq<Assignment>>)
      modifies this
      ensures response.Ok? ==> assignments == response.data && error == old(error)
      ensures response.Fail? ==> assignments == old(assignments) && error == "Failed to fetch assignments"
      ensures submissions == old(submissions) && groups == old(groups) && selectedGroup == old(selectedGroup)
      ensures showSubmitForm == old(showSubmitForm) && submitData == old(submitData) && loading == old(loading)
    {
      if response.Ok? {
        assignments := response.data;
      } else {
        error := "Failed to fetch assignments";
      }
    }

    /** `fetchGroups`: the list is replaced and, when it is not empty, its
        first group becomes the selected one. */
    method FetchGroups(response: Response<seq<Group>>)
      modifies this
      ensures response.Ok? ==> groups == response.data && error == old(error)
      ensures response.Ok? ==> selectedGroup == if response.data == [] then old(selectedGroup) else response.data[0].id
      ensures response.Fail? ==> groups == old(groups) && selectedGroup == old(selectedGroup) && error == "Failed to fetch groups"
      ensures submissions == old(submissions) && assignments == old(assignments)
      ensures showSubmitForm == old(showSubmitForm) && submitData == old(submitData) && loading == old(loading)
    {
      if response.Ok? {
        groups := response.data;
        if |response.data| > 0 {
          selectedGroup := response.data[0].id;
        }
      } else {
        error := "Failed to fetch groups";
      }
    }

    /** `fetchSubmissions(groupId)`: the list is replaced by the group's
        submissions as the backend reports them. */
    method FetchSubmissions(response: Response<seq<Submission>>)
      modifies this
      ensures response.Ok? ==> submissions == response.data && error == old(error)
      ensures response.Fail? ==> submissions == old(submissions) && error == "Failed to fetch submissions"
      ensures assignments == old(assignments) && groups == old(groups) && selectedGroup == old(selectedGroup)
      ensures showSubmitForm == old(showSubmitForm) && submitData == old(submitData) && loading == old(loading)
    {
      if response.Ok? {
        submissions := response.data;
      } else {
        error := "Failed to fetch submissions";
      }
    }

    /** The effect on `selectedGroup`: after a render in which the selection
        changed from `previous`, a non-empty selection is fetched. */
    method SelectedGroupEffect(previous: string, response: Response<seq<Submission>>) returns (fetched: bool)
      modifies this
      ensures fetched <==> selectedGroup != previous && selectedGroup != ""
      ensures fetched ==> (if response.Ok? then submissions == response.data && error == old(error)
                           else submissions == old(submissions) && error == "Failed to fetch submissions")
      ensures !fetched ==> submissions == old(submissions) && error == old(error)
      ensures assignments == old(assignments) && groups == old(groups) && selectedGroup == old(selectedGroup)
      ensures showSubmitForm == old(showSubmitForm) && submitData == old(submitData) && loading == old(loading)
    {
      fetched := selectedGroup != previous && selectedGroup != "";
      if fetched {
        FetchSubmissions(response);
      }
    }

    /** Mounting the page: assignments and groups are fetched, and the first
        group, if any, is selected and its submissions fetched. */
    method Mount(assignmentsResponse: Response<seq<Assignment>>, groupsResponse: Response<seq<Group>>,
                 submissionsResponse: Response<seq<Submission>>) returns (fetched: bool)
      modifies this
      ensures fetched <==> groupsResponse.Ok? && groupsResponse.data != [] && groupsResponse.data[0].id != old(selectedGroup)
                           && groupsResponse.data[0].id != ""
      ensures assignments == if assignmentsResponse.Ok? then assignmentsResponse.data else old(assignments)
      ensures groups == if groupsResponse.Ok? then groupsResponse.data else old(groups)
      ensures selectedGroup == if groupsResponse.Ok? && groupsResponse.data != [] then groupsResponse.data[0].id
                               else old(selectedGroup)
      ensures groupsResponse.Ok? && groupsResponse.data != [] && groupsResponse.data[0].id != "" ==> SubmitSectionShown()
      ensures submissions == if fetched && submissionsResponse.Ok? then submissionsResponse.data else old(submissions)
      ensures error == if fetched && submissionsResponse.Fail? then "Failed to fetch submissions"
                       else if groupsResponse.Fail? then "Failed to fetch groups"
                       else if assignmentsResponse.Fail? then "Failed to fetch assignments"
                       else old(error)
      ensures showSubmitForm == old(showSubmitForm) && submitData == old(submitData) && loading == old(loading)
    {
      var previous := selectedGroup;
      FetchAssignments(assignmentsResponse);
      FetchGroups(groupsResponse);
      fetched := SelectedGroupEffect(previous, submissionsResponse);
    }

    /** Choosing a group in the selector. */
    method SelectGroup(groupId: string, response: Response<seq<Submission>>) returns (fetched: bool)
      modifies this
      ensures selectedGroup == groupId
      ensures SubmitSectionShown() <==> groupId != ""
      ensures fetched <==> groupId != old(selectedGroup) && groupId != ""
      ensures fetched && response.Ok? ==> submissions == response.data && error == old(error)
      ensures fetched && response.Fail? ==> submissions == old(submissions) && error == "Failed to fetch submissions"
      ensures !fetched ==> submissions == old(submissions) && error == old(error)
      ensures assignments == old(assignments) && groups == old(groups)
      ensures showSubmitForm == old(showSubmitForm) && submitData == old(submitData) && loading == old(loading)
    {
      var previous := selectedGroup;
      selectedGroup := groupId;
      fetched := SelectedGroupEffect(previous, response);
    }

    /** "New Submission" and "Cancel". */
    method SetSubmitFormOpen(open: bool)
      modifies this`showSubmitForm
      ensures showSubmitForm == open
    {
      showSubmitForm := open;
    }

    /** Editing one field of the submit form leaves the other unchanged. */
    method EditSubmitData(assignmentId: Option<string>, submissionLink: Option<string>)
      modifies this`submitData
      ensures submitData.assignmentId == if assignmentId.Some? then assignmentId.value else old(submitData.assignmentId)
      ensures submitData.submissionLink == if submissionLink.Some? then submissionLink.value else old(submitData.submissionLink)
    {
      if assignmentId.Some? {
        submitData := submitData.(assignmentId := assignmentId.value);
      }
      if submissionLink.Some? {
        submitData := submitData.(submissionLink := submissionLink.value);
      }
    }

    /** `handleSubmitAssignment`: posts the form with the selected group;
        on success the form is reset and closed and the same group's
        submissions are re-fetched with `refetch`; on failure the error shows
        the server's message or the default and the form is kept. Loading
        is over afterwards either way. */
    method HandleSubmitAssignment(post: Response<()>, refetch: Response<seq<Submission>>)
      returns (request: SubmitRequest, refetched: Option<string>)
      modifies this
      ensures request == SubmitRequest(old(submitData.assignmentId), old(selectedGroup), old(submitData.submissionLink))
      ensures !loading
      ensures post.Ok? ==> submitData == EmptySubmitData && !showSubmitForm && refetched == Some(old(selectedGroup))
      ensures post.Ok? && refetch.Ok? ==> submissions == refetch.data && error == ""
      ensures post.Ok? && refetch.Fail? ==> submissions == old(submissions) && error == "Failed to fetch submissions"
      ensures post.Fail? ==> refetched == None && submitData == old(submitData) && showSubmitForm == old(showSubmitForm)
      ensures post.Fail? ==> submissions == old(submissions) && error == ErrorText(post.message, "Failed to submit assignment")
      ensures assignments == old(assignments) && groups == old(groups) && selectedGroup == old(selectedGroup)
    {
      loading := true;
      error := "";
      request := SubmitRequest(submitData.assignmentId, selectedGroup, submitData.submissionLink);
      if post.Ok? {
        submitData := EmptySubmitData;
        showSubmitForm := false;
        refetched := Some(selectedGroup);
        FetchSubmissions(refetch);
      } else {
        error := ErrorText(post.message, "Failed to submit assignment");
        refetched := None;
      }
      loading := false;
    }

    /** `handleConfirmSubmission(submissionId)`: the confirmation is posted
        to the submission's own confirm endpoint; on success the list is
        re-fetched; on failure a fixed message is shown and the local list is
        left as it was. The local list never advances by itself. */
    method HandleConfirmSubmission(submissionId: string, post: Response<()>, refetch: Response<seq<Submission>>)
      returns (endpoint: string, refetched: Option<string>)
      modifies this
      ensures endpoint == ConfirmEndpoint(submissionId)
      ensures post.Ok? ==> refetched == Some(selectedGroup)
      ensures post.Ok? && refetch.Ok? ==> submissions == refetch.data && error == old(error)
      ensures post.Ok? && refetch.Fail? ==> submissions == old(submissions) && error == "Failed to fetch submissions"
      ensures post.Fail? ==> refetched == None && submissions == old(submissions) && error == "Failed to confirm submission"
      ensures assignments == old(assignments) && groups == old(groups) && selectedGroup == old(selectedGroup)
      ensures showSubmitForm == old(showSubmitForm) && submitData == old(submitData) && loading == old(loading)
    {
      endpoint := ConfirmEndpoint(submissionId);
      if post.Ok? {
        refetched := Some(selectedGroup);
        FetchSubmissions(refetch);
      } else {
        error := "Failed to confirm submission";
        refetched := None;
      }
    }
  }
}
