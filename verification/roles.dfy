/** The role test 'professor' as the pages and the route table apply it. */
module Roles {
  import opened Http
  import opened Domain
  import App
  import DashboardPage
  import AssignmentsPage

  /** One rule everywhere: the dashboard's "Professor Tools", the create
      buttons on the assignments page and the /professor route are offered
      to a user exactly when the role is 'professor'. */
  lemma ProfessorOnly(u: User)
    ensures DashboardPage.ProfessorToolsOffered(u.role) <==> u.role == Professor
    ensures AssignmentsPage.CreateOffered(u.role) <==> u.role == Professor
    ensures App.Visit("/professor", Some(u)).Shows? <==> u.role == Professor
    ensures App.Visit("/professor", None) == App.Redirect("/login")
  {
    App.RoutesMatch(6);
    App.VisitByRole("/professor", Some(u));
    App.VisitByRole("/professor", None);
  }
}
