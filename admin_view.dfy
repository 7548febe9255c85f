/** The admin dashboard's list: every project with a display label for its status. */
module AdminView {
  import opened JsValues
  import opened Jurisdiction
  import opened Projects
  import opened Workflow

  /** A project as the admin list shows it: `{ ...project, statusLabel }`. */
  datatype LabelledProject = LabelledProject(project: Project, statusLabel: string)

  /** The four statuses the workflow knows. */
  predicate IsKnownStatus(status: string) {
    status == Pending || status == PendingCentral || status == Approved || status == Declined
  }

  /** The display labels of the four known statuses. */
  predicate IsDisplayLabel(shown: string) {
    shown == "Pending State Approval" || shown == "Pending Central Approval" ||
    shown == "Approved" || shown == "Declined"
  }

  /** The label chain of `getAdminProjects`: a known status gets its display
      label, any other status is shown as it is. */
  function StatusLabel(status: string): (shown: string)
    ensures IsKnownStatus(status) ==> IsDisplayLabel(shown)
    ensures !IsKnownStatus(status) ==> shown == status
    ensures status == Pending ==> shown == "Pending State Approval"
    ensures status == PendingCentral ==> shown == "Pending Central Approval"
    ensures status == Approved ==> shown == "Approved"
    ensures status == Declined ==> shown == "Declined"
  {
    if status == Pending then "Pending State Approval"
    else if status == PendingCentral then "Pending Central Approval"
    else if status == Approved then "Approved"
    else if status == Declined then "Declined"
    else status
  }

  /** Distinct known statuses get distinct labels, so the label never merges
      two stages of the workflow. */
  lemma StatusLabelSeparatesKnown(s1: string, s2: string)
    requires IsKnownStatus(s1) && IsKnownStatus(s2) && s1 != s2
    ensures StatusLabel(s1) != StatusLabel(s2)
  {
  }

  /** `getAdminProjects`: nothing for a non-admin; otherwise every project, in
      order, with its status label. */
  function AdminProjects(u: User, ps: seq<Project>): (r: seq<LabelledProject>)
    ensures !IsAdmin(u) ==> r == []
    ensures IsAdmin(u) ==> |r| == |ps|
    ensures IsAdmin(u) ==> forall k :: 0 <= k < |ps| ==>
              r[k].project == ps[k] && r[k].statusLabel == StatusLabel(ps[k].status)
  {
    if u.role != Text("admin") then []
    else seq(|ps|, k requires 0 <= k < |ps| => LabelledProject(ps[k], StatusLabel(ps[k].status)))
  }

  /** A button pressed on a row of the admin list acts on the project of that
      row whenever its id is not repeated earlier in the list, and only the
      jurisdiction check can still turn it down. */
  lemma AdminRowButtons(mapping: Table, u: User, ps: seq<Project>, k: int, action: string)
    requires IsAdmin(u) && 0 <= k < |ps| && IsFirstWithId(ps, ps[k].id, k)
    requires ShowsActionButtons(u, AdminProjects(u, ps)[k].project.status)
    requires action == Approved || action == Declined
    ensures Decide(mapping, u, ps, ps[k].id, action).Proceeds? ==> Decide(mapping, u, ps, ps[k].id, action).project == ps[k]
    ensures Decide(mapping, u, ps, ps[k].id, action).Rejected? ==>
              IsStateAdmin(u) && Decide(mapping, u, ps, ps[k].id, action).message == OutsideStateMessage
    ensures ps[k].status == Pending || ps[k].status == PendingCentral
  {
    FindByIdIsFirst(ps, ps[k].id, k);
    ButtonsPassStatusGuards(mapping, u, ps, ps[k], action);
  }
}
