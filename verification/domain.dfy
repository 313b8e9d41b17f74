/** The records the backend sends to the pages, reduced to the fields the
    pages read. Identifiers, roles and statuses stay strings because the
    pages compare them as strings. */
module Domain {
  import opened Http

  const Professor := "professor"

  /** The logged-in user as returned by the authentication endpoints. */
  datatype User = User(id: string, name: string, email: string, role: string)

  /** A member of a group as listed on the groups page. */
  datatype Member = Member(id: string, name: string, studentId: string)

  /** A group; `createdBy` is the id of its creator. */
  datatype Group = Group(id: string, name: string, description: string, createdBy: string, members: seq<Member>)

  /** A group as embedded in an assignment's `assignedGroups`. */
  datatype GroupRef = GroupRef(id: string, name: string)

  /** An assignment. `dueDate` is a timestamp, `None` when the stored date
      string does not parse (JavaScript's invalid date). `assignedTo` is
      'all' or 'specific'. */
  datatype Assignment = Assignment(
    id: string, title: string, description: string, dueDate: Option<int>,
    oneDriveLink: string, createdBy: string, assignedTo: string, assignedGroups: seq<GroupRef>)

  /** A submission as listed for a group; `status` and `confirmationStep`
      are whatever the backend reports. */
  datatype Submission = Submission(
    id: string, assignmentTitle: string, submittedBy: string, submissionLink: string,
    status: string, confirmationStep: int, submittedAt: int, confirmedAt: Option<int>)
}
