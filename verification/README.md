# Classroom assignment tracker: client-side rules in Dafny

This project models the browser side of a classroom assignment tracker.
Students join groups. Professors post assignments. Groups submit links to
their work, and each submission moves through a two-step confirmation
(pending, then submitted, then confirmed). The real rules live in a backend
that the client only calls over HTTP. What this project models are the
client's own decisions and state updates:

- the authentication session: local storage, the Authorization header of
  the shared HTTP client, and the `user`/`loading` state;
- the `ProtectedRoute` guard and the route table;
- each page's React state as the fields of a class, with its handlers
  as methods.

Every HTTP call is a parameter of type `Http.Response<T>`: success with the
body, or failure with the server's optional message. The clock ("now") is a
parameter too. The code is organised as one module per source file:

- `Http` and `Domain` hold the shared result type and the records.
- `Text` holds number printing and `join`.
- `AuthContext`, `App`, `SubmissionsPage`, `ProfessorDashboardPage`,
  `DashboardPage`, `AssignmentsPage`, `GroupsPage` and `LoginPage` follow
  the source files of the same names.
- `Roles` states the one role rule shared across pages.

The central invariant is `AuthContext.Session.Valid()`. An Authorization
header is present exactly when a token is stored, and then it is
`"Bearer " + token`. Login, register, logout and fetching the user all
preserve it. A successful login or register, and logout, establish it from
any state; a failed login or register changes nothing, so it leaves the
state as it was.
There is one exception. The startup effect tests the stored token for
truthiness, so an empty stored token stays in storage with no header. The
mount constructor's contract says that the invariant holds after startup
exactly when the stored token is not the empty string.

The page's JavaScript does not validate links. It leaves that to the
browser's form validation and does not check group eligibility, reject
duplicate submissions or refuse a second confirmation. It posts and
re-fetches, so the status is whatever the backend reports.

## Model

| member | source | states |
|---|---|---|
| `Http.ErrorText` | src/pages/Submissions.jsx:75 | the shown error is the server's message when it is a non-empty string, else the page's default; never empty when the default is not |
| `Http.All3` | src/pages/ProfessorDashboard.jsx:24-28 | `Promise.all` over three requests succeeds exactly when all three do, with their three bodies |
| `AuthContext.Bearer` | src/context/AuthContext.jsx:50 | the header is the 7 characters "Bearer " followed by the token itself |
| `AuthContext.ExpectedHeader` | src/context/AuthContext.jsx:25 | the header the invariant asks for: present exactly when a token is stored, carrying that token |
| `AuthContext.UserJson` | src/context/AuthContext.jsx:49 | the string stored under the `user` key, standing in for `JSON.stringify(user)` |
| `AuthContext.Session.Valid` | src/context/AuthContext.jsx:25 | the header invariant: the Authorization header is present iff a token is stored, and is then "Bearer " + token; kept by src/context/AuthContext.jsx:37-38, 48-50 and 65-67 |
| `AuthContext.Session.RendersChildren` | src/context/AuthContext.jsx:81 | the provider renders its children only once loading is over |
| `AuthContext.Session.Mount` | src/context/AuthContext.jsx:13-30 | after startup, children are rendered (loading false); a truthy stored token sets the header and fetches the user; failure drops the token and header; without a token, the user is null and nothing else changes; the invariant holds exactly when the stored token is not "" |
| `AuthContext.Session.FetchUser` | src/context/AuthContext.jsx:32-42 | success sets `user`; failure removes only the `token` key and the header, keeping the stored `user` key and `user`; loading false either way; preserves the invariant |
| `AuthContext.Session.Establish` | src/context/AuthContext.jsx:48-51 | stores token and user, sets header to "Bearer " + token, sets `user`; establishes the invariant |
| `AuthContext.Session.Login` | src/context/AuthContext.jsx:44-52 | a failing request rejects with the server's message and changes nothing; success stores token and user, sets the header and `user`, and leaves the invariant holding |
| `AuthContext.Session.Register` | src/context/AuthContext.jsx:54-62 | exactly the same post-state as `Login` for its own response |
| `AuthContext.Session.Logout` | src/context/AuthContext.jsx:64-69 | removes `token` and `user` from storage, deletes the header, `user` null; the invariant holds |
| `App.Guard` | src/App.jsx:14-26 | no user: redirect to /login whatever the role; renders iff there is a user and either no truthy role is asked or the roles are equal; redirects to / iff a user's role differs from a required one |
| `App.GuardRoleOnlyNarrows` | src/App.jsx:17-25 | a role argument only narrows who passes; the redirect to /login does not depend on it |
| `App.Match` | src/App.jsx:35-62 | the route found has the visited path; no route is found only when no route has that path |
| `App.RoutesMatch` | src/App.jsx:35-62 | every path in the table is served by its own route |
| `App.RoleRequired` | src/App.jsx:21 | a role argument is in force when it is given and non-empty, as JavaScript's truthiness gives |
| `App.Routes` | src/App.jsx:35-61 | the route table in source order: path, page, whether `ProtectedRoute` wraps it, and its role argument |
| `App.Visit` | src/App.jsx:35-62 | what a location shows: no route, an unguarded page, or the guard's decision for a guarded one |
| `App.VisitGuards` | src/App.jsx:14-62 | an unknown path shows nothing; without a user only /login and /register show a page; only a professor is shown the professor dashboard |
| `App.RouteRequirements` | src/App.jsx:35-62 | only /professor requires a role, and that role is 'professor'; /login and /register are the only unguarded routes |
| `App.VisitByRole` | src/App.jsx:14-62 | without a user, every guarded path redirects to /login; a logged-in user sees every guarded page except /professor, which only a professor sees; everyone else is sent to / |
| `App.RedirectsLand` | src/App.jsx:14-62 | following any redirect once reaches a page that is shown, so there are no redirect loops |
| `Roles.ProfessorOnly` | src/pages/Dashboard.jsx:218 | "Professor Tools", the create-assignment buttons and the /professor route are offered exactly when the role is 'professor' |
| `Text.DigitChar` | src/pages/Submissions.jsx:325 | a digit prints as the character whose offset from '0' is its value |
| `Text.Digits` | src/pages/Submissions.jsx:325 | a number prints as a non-empty string of decimal digits, one digit exactly for numbers below 10, with no leading zero (only 0 itself starts with '0') |
| `Text.DigitsRoundTrip` | src/pages/Submissions.jsx:325 | the printed number reads back as the same number |
| `Text.Join` | src/pages/Assignments.jsx:309 | `Array.prototype.join`: the parts in order with the separator between neighbours; its properties are `JoinSnoc` and `JoinLength` |
| `Text.JoinSnoc` | src/pages/Assignments.jsx:309 | joining one more name appends the separator and that name |
| `Text.JoinLength` | src/pages/Assignments.jsx:309 | a joined list is as long as its parts plus one separator between each neighbouring pair |
| `SubmissionsPage.Badge` | src/pages/Submissions.jsx:90-106 | the badge text is always one of the three configured texts |
| `SubmissionsPage.BadgeTexts` | src/pages/Submissions.jsx:91-106 | pending → "Not Submitted", submitted → "Step 1: Submitted", confirmed → "Step 2: Confirmed", each text for its status only; any other status gets the pending badge |
| `SubmissionsPage.ProgressPercent` | src/pages/Submissions.jsx:330 | for steps 0..2 the bar lies between 0 and 100 percent and is full exactly at step 2 |
| `SubmissionsPage.ProgressMonotonic` | src/pages/Submissions.jsx:330 | the bar never shrinks as the step grows |
| `SubmissionsPage.ProgressLabel` | src/pages/Submissions.jsx:325 | the caption is the step in decimal followed by "/2 steps" |
| `SubmissionsPage.ConfirmOffered` | src/pages/Submissions.jsx:299 | the confirm prompt appears iff the status is 'submitted' and the step is 1 |
| `SubmissionsPage.ConfirmedBanner` | src/pages/Submissions.jsx:313 | the "Submission confirmed" banner appears iff the status is 'confirmed' |
| `SubmissionsPage.LockStepDisplay` | src/pages/Submissions.jsx:299-330 | for a submission whose status and step agree: the confirm prompt appears iff it is submitted, the banner iff it is confirmed, never both; the bar reads 0/50/100 and the caption "k/2 steps" |
| `SubmissionsPage.Submissions.constructor` | src/pages/Submissions.jsx:7-17 | initial state: empty lists, no group selected, form closed, empty form, not loading, no error |
| `SubmissionsPage.Submissions.FetchAssignments` | src/pages/Submissions.jsx:30-37 | success replaces the assignments; failure sets 'Failed to fetch assignments'; nothing else changes |
| `SubmissionsPage.Submissions.FetchGroups` | src/pages/Submissions.jsx:39-49 | success replaces the groups and selects the first group when there is one; failure sets 'Failed to fetch groups' |
| `SubmissionsPage.Submissions.FetchSubmissions` | src/pages/Submissions.jsx:51-58 | success replaces the list with the backend's; failure sets 'Failed to fetch submissions' and keeps the list |
| `SubmissionsPage.Submissions.SelectedGroupEffect` | src/pages/Submissions.jsx:24-28 | submissions are fetched exactly when the selection changed to a non-empty group |
| `SubmissionsPage.Submissions.Mount` | src/pages/Submissions.jsx:19-58 | on mount assignments and groups are fetched; the first fetched group becomes selected, and its submissions are fetched exactly when that changes the selection; the error is that of the last failing fetch in source order; the form is untouched; the submit section is shown once a fetched first group with a non-empty id is selected |
| `SubmissionsPage.Submissions.SelectGroup` | src/pages/Submissions.jsx:173 | choosing a group selects it and fetches its submissions iff it differs from the current one and is not empty; a failed fetch sets 'Failed to fetch submissions'; assignments, groups and the form are untouched; the submit section is shown iff the chosen id is not empty |
| `SubmissionsPage.Submissions.SubmitSectionShown` | src/pages/Submissions.jsx:185 | the submit section appears only while a group is selected |
| `SubmissionsPage.Submissions.SetSubmitFormOpen` | src/pages/Submissions.jsx:245-254 | "New Submission" opens the form; "Cancel" closes it |
| `SubmissionsPage.Submissions.EditSubmitData` | src/pages/Submissions.jsx:201-220 | editing one field of the submit form leaves the other unchanged |
| `SubmissionsPage.Submissions.HandleSubmitAssignment` | src/pages/Submissions.jsx:60-79 | posts the chosen assignment, the selected group and the link; success empties and closes the form and re-fetches the same group; failure shows the server's message or 'Failed to submit assignment' and keeps the form; loading false afterwards |
| `SubmissionsPage.ConfirmEndpoint` | src/pages/Submissions.jsx:83 | the confirmation goes to "/api/submissions/" + id + "/confirm", and the id can be read back from it |
| `SubmissionsPage.ConfirmEndpointInjective` | src/pages/Submissions.jsx:83 | different submissions are confirmed at different URLs |
| `SubmissionsPage.Submissions.HandleConfirmSubmission` | src/pages/Submissions.jsx:81-88 | posts to the submission's own confirm URL; success re-fetches the selected group's list; failure sets 'Failed to confirm submission' and leaves the local list as it was |
| `ProfessorDashboardPage.Unconfirmed` | src/pages/ProfessorDashboard.jsx:31 | the filter keeps exactly the submissions whose status is not 'confirmed', drawn from the input without duplication |
| `ProfessorDashboardPage.PendingPlusConfirmed` | src/pages/ProfessorDashboard.jsx:31-35 | pending and confirmed counts add up to the total |
| `ProfessorDashboardPage.UnconfirmedAppend` | src/pages/ProfessorDashboard.jsx:31 | the filter distributes over concatenation, so it keeps the original order |
| `ProfessorDashboardPage.NothingPending` | src/pages/ProfessorDashboard.jsx:31 | the pending count is 0 exactly when every submission is confirmed |
| `ProfessorDashboardPage.Recent` | src/pages/ProfessorDashboard.jsx:40 | the recent list is a prefix of the submissions of length min(5, n) |
| `ProfessorDashboardPage.ComputeStats` | src/pages/ProfessorDashboard.jsx:30-38 | totals are the three list lengths; pending is the total minus the confirmed ones, so it never exceeds the total |
| `ProfessorDashboardPage.Badge` | src/pages/ProfessorDashboard.jsx:49-65 | 'submitted' and only it reads "Submitted", 'confirmed' and only it reads "Confirmed", and 'pending' and every unknown status read "Pending" |
| `ProfessorDashboardPage.BadgeDistinguishes` | src/pages/ProfessorDashboard.jsx:50-63 | the three known statuses have three different badges |
| `ProfessorDashboardPage.AudienceLabel` | src/pages/ProfessorDashboard.jsx:246 | "All Students" iff the audience is 'all', otherwise "Specific Groups" |
| `ProfessorDashboardPage.ProfessorDashboard.constructor` | src/pages/ProfessorDashboard.jsx:8-16 | counters start at zero, lists empty, loading |
| `ProfessorDashboardPage.ProfessorDashboard.Consistent` | src/pages/ProfessorDashboard.jsx:30-40 | the pending count never exceeds the total, and the recent list holds at most five submissions; `FetchDashboardData` keeps it and sets it up on success |
| `ProfessorDashboardPage.ProfessorDashboard.FetchDashboardData` | src/pages/ProfessorDashboard.jsx:22-47 | when all three requests succeed, stats are those of the fetched lists, recent is the first five, and assignments are the fetched ones; otherwise nothing changes (zeros at first); loading false; pending never exceeds total |
| `DashboardPage.Dashboard.constructor` | src/pages/Dashboard.jsx:8-13 | counters start at zero, loading |
| `DashboardPage.Dashboard.FetchStats` | src/pages/Dashboard.jsx:19-39 | when the requests succeed, groups and assignments are the list lengths and submissions is the fetched length for a professor, 0 for any other role; on failure the counters keep their values; loading false |
| `DashboardPage.SubmissionsRequest` | src/pages/Dashboard.jsx:24-26 | the third request: a professor's goes to the backend, anyone else's is an immediately resolved empty list |
| `DashboardPage.ProfessorToolsOffered` | src/pages/Dashboard.jsx:218 | the "Professor Tools" card appears iff the role is 'professor' |
| `AssignmentsPage.OverdueBoundary` | src/pages/Assignments.jsx:78-80 | overdue iff the due time is strictly before now: due exactly now is not overdue, overdue stays overdue as time passes, an unparseable date is never overdue |
| `AssignmentsPage.IsOverdue` | src/pages/Assignments.jsx:78-80 | overdue iff the due date parses and is strictly before the clock reading |
| `AssignmentsPage.DueDisplay` | src/pages/Assignments.jsx:279-288 | the red date follows the first overdue test and the "Overdue" chip the second, later clock reading; so red implies the chip, and with one reading they agree |
| `AssignmentsPage.GroupSelectShown` | src/pages/Assignments.jsx:212 | the group multi-select appears iff the audience is 'specific' |
| `AssignmentsPage.CreateOffered` | src/pages/Assignments.jsx:121 | the create buttons appear iff the role is 'professor' (also src/pages/Assignments.jsx:333) |
| `AssignmentsPage.GroupNames` | src/pages/Assignments.jsx:309 | the names are those of the assigned groups, one per group, in order |
| `AssignmentsPage.AssignedToLine` | src/pages/Assignments.jsx:307-309 | the "Assigned to" line appears iff the audience is 'specific' and at least one group is listed; it names them joined by ", " |
| `AssignmentsPage.DefaultFormHidesGroups` | src/pages/Assignments.jsx:53-60 | the reset form has empty text fields, audience 'all', no groups, so the group select is hidden |
| `AssignmentsPage.Assignments.constructor` | src/pages/Assignments.jsx:7-19 | initial state: empty lists, form closed with defaults, not loading, no error |
| `AssignmentsPage.Assignments.FetchAssignments` | src/pages/Assignments.jsx:28-35 | success replaces the list; failure sets 'Failed to fetch assignments' |
| `AssignmentsPage.Assignments.FetchGroups` | src/pages/Assignments.jsx:37-44 | success replaces the groups; a failure changes nothing, `error` included |
| `AssignmentsPage.Assignments.Mount` | src/pages/Assignments.jsx:21-26 | assignments are always fetched; groups are fetched iff the role is 'professor' |
| `AssignmentsPage.Assignments.SetCreateFormOpen` | src/pages/Assignments.jsx:121-123 | "Create Assignment" opens the form; "Cancel" closes it |
| `AssignmentsPage.Assignments.SetAssignedTo` | src/pages/Assignments.jsx:206-212 | choosing the audience changes only that field; the group select is shown iff it is 'specific' |
| `AssignmentsPage.Assignments.HandleCreateAssignment` | src/pages/Assignments.jsx:46-68 | posts the form; success resets it to defaults, hides it and re-fetches; failure shows the server's message or 'Failed to create assignment' and keeps the form; loading false afterwards |
| `GroupsPage.SingleSlot` | src/pages/Groups.jsx:9 | at most one group has its add-member form open; an empty slot opens none |
| `GroupsPage.FormOpenFor` | src/pages/Groups.jsx:223 | a group's add-member form is open iff the single slot holds its id |
| `GroupsPage.MembersHeading` | src/pages/Groups.jsx:204 | "Members (" + the member count in decimal + ")"; `MembersHeadingCount` reads the count back |
| `GroupsPage.AddMemberControls` | src/pages/Groups.jsx:221 | the add-member controls belong to groups the user created |
| `GroupsPage.AddMemberFormShown` | src/pages/Groups.jsx:221-223 | a group's add-member form is drawn iff the user created it and the single slot names it |
| `GroupsPage.FormsShown` | src/pages/Groups.jsx:190-223 | the groups showing their add-member form are exactly the listed groups the user created whose id the slot names; none when the slot is empty |
| `GroupsPage.NoneShownElsewhere` | src/pages/Groups.jsx:221-223 | groups whose id the slot does not name show no form |
| `GroupsPage.AtMostOneFormShown` | src/pages/Groups.jsx:190-223 | with distinct group ids, at most one group on the page shows its add-member form |
| `GroupsPage.DescriptionShown` | src/pages/Groups.jsx:195 | the description line is drawn only for a non-empty description |
| `GroupsPage.MembersHeadingCount` | src/pages/Groups.jsx:204 | the number in "Members (n)" reads back as the number of members |
| `GroupsPage.Groups.constructor` | src/pages/Groups.jsx:7-18 | initial state: no groups, both forms closed and empty, not loading, no error |
| `GroupsPage.Groups.FetchGroups` | src/pages/Groups.jsx:24-31 | success replaces the groups; failure sets 'Failed to fetch groups' |
| `GroupsPage.Groups.OpenAddMemberForm` | src/pages/Groups.jsx:252 | opening a group's form opens it and closes every other one |
| `GroupsPage.Groups.CancelAddMemberForm` | src/pages/Groups.jsx:243 | cancel leaves no form open |
| `GroupsPage.Groups.SetCreateFormOpen` | src/pages/Groups.jsx:107 | "Create Group" opens the form; "Cancel" closes it |
| `GroupsPage.Groups.EditGroupForm` | src/pages/Groups.jsx:140-152 | typing in one field of the create form leaves the other unchanged |
| `GroupsPage.Groups.EditAddMemberEmail` | src/pages/Groups.jsx:231 | typing replaces the email |
| `GroupsPage.Groups.HandleCreateGroup` | src/pages/Groups.jsx:33-48 | posts the form; success empties name and description, hides the form and re-fetches; failure shows the server's message or 'Failed to create group'; loading false afterwards |
| `GroupsPage.Groups.HandleAddMember` | src/pages/Groups.jsx:50-65 | posts the email for the group; success clears the email, closes the form and re-fetches; failure shows the server's message or 'Failed to add member' and keeps the form open; loading false afterwards |
| `LoginPage.Login.constructor` | src/pages/Login.jsx:6-11 | both fields empty, no error, not loading |
| `LoginPage.Login.HandleChange` | src/pages/Login.jsx:16-21 | the field named by the input takes the typed value; every other field is unchanged |
| `LoginPage.Login.BeginSubmit` | src/pages/Login.jsx:25-26 | submitting first sets loading and clears the error |
| `LoginPage.Login.HandleSubmit` | src/pages/Login.jsx:23-36 | sends the form's email and password; navigation to '/' happens only after login resolves, and then the session holds the user and header; failure shows the server's message or 'Login failed' and leaves the session unchanged; loading false afterwards |

## Left out

- Markup and styling: class strings, keyframe CSS and the decorative particles placed with `Math.random()` are presentation and are not modelled.
- src/components/Navbar.jsx: presentation only. Its role test is the same `role == 'professor'` test that `Roles.ProfessorOnly` states.
- src/pages/Register.jsx is not part of this model. The session's `register` is modelled; the page that calls it is not.
- Transport: base-URL configuration (src/context/AuthContext.jsx:17-20), the choice between bare `axios` and the shared instance, and the fact that pages which use bare `axios` do not send the shared header. Requests are abstract results.
- JSON serialisation: `AuthContext.UserJson` stands in for `JSON.stringify(user)` over the modelled fields. It does no string escaping.
- Concurrency: `Promise.all` is one all-or-nothing result. Un-awaited re-fetches are treated as finishing inside their handler, and concurrent fetches on mount are taken in source order, so when the error messages of racing failures land in another order, that order is not modelled.
- Dates: parsing and `toLocaleDateString` formatting. Timestamps are integers, an unparseable date is `None`, and each clock reading is a parameter.
- `AssignmentsPage.DueDisplay` assumes the clock does not run backwards between the two overdue tests of one render (`now <= now'`). A system clock set back in between is not modelled.
- The progress bar width is the integer `step * 50` percent instead of a floating-point value. A non-integer `confirmationStep` is not modelled.
- Status lookups that hit inherited object properties (a status such as "constructor") are not modelled. The status tables are plain maps, so every unknown status falls back to the pending badge.
- The Assignments mount effect re-runs when the user's role changes (src/pages/Assignments.jsx:26). Only the first run is modelled.
- Path matching: `App.Match` compares paths exactly. React Router matches case-insensitively and ignores a trailing slash, so "/groups/" or "/Groups" shows the groups page in the application but `Blank` in the model. Path normalisation is not modelled.
- Group ids: `GroupsPage.AtMostOneFormShown` assumes the backend's group ids are distinct; the client does not check this.
- `showSubmitForm` is `null`, `true` or `false` in the source and a `bool` here. `null` and `false` both hide the form.
- Backend-only rules: group eligibility, duplicate submissions, double confirmation and enforcing authorisation. The client does not check them.
- Browser form validation: the `required`, `type="url"` and `type="email"` attributes stop the browser from calling a submit handler on an empty or malformed field. The handlers here accept any form contents.
- LoginPage.Login.HandleSubmit: after a successful login it states the session's user, header and invariant but not its storage; `AuthContext.Session.Login` states the storage.
