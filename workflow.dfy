/** The approval workflow as the client enforces it: the status a new project
    starts in, the guards the approve/decline handler checks before it sends
    the new status to the backend, when the approve and decline buttons are
    shown, and whether signup sends a home state. */
module Workflow {
  import opened Wrappers
  import opened JsValues
  import opened Jurisdiction
  import opened Projects

  /** `userData.role === 'admin'`. */
  predicate IsAdmin(u: User) {
    u.role == Text("admin")
  }

  /** An admin whose `admin_level` is `'state'`. */
  predicate IsStateAdmin(u: User) {
    IsAdmin(u) && u.adminLevel == Text("state")
  }

  /** An admin whose `admin_level` is `'central'`. */
  predicate IsCentralAdmin(u: User) {
    IsAdmin(u) && u.adminLevel == Text("central")
  }

  /** The status `handleCreateProject` puts in the new project's details:
      `"pending"` by default, replaced through the admin if-chain. */
  method InitialStatus(u: User) returns (status: string)
    ensures status == Approved <==> IsCentralAdmin(u)
    ensures status == PendingCentral <==> IsStateAdmin(u)
    ensures status == Pending <==> !IsCentralAdmin(u) && !IsStateAdmin(u)
  {
    status := Pending;
    if u.role == Text("admin") {
      if u.adminLevel == Text("central") {
        status := Approved;
      } else if u.adminLevel == Text("state") {
        status := PendingCentral;
      }
    }
  }

  // The messages the approval handler shows when it rejects a request.
  const NotAdminMessage: string := "Error: Only Administrators can perform project actions."
  const NotFoundMessage: string := "Error: Project not found"
  const StatePendingOnlyMessage: string := "Only pending projects can be approved at state level"
  const OutsideStateMessage: string := "You can only approve projects in your state"
  const CentralPendingOnlyMessage: string := "Only projects pending central approval can be approved at central level"

  /** The outcome of the guards of `handleProjectAction`: a rejection with the
      message shown, or the go-ahead to send the action for the project found. */
  datatype Decision = Rejected(message: string) | Proceeds(project: Project)

  /** The guards of `handleProjectAction(projectId, action)`, in the order the
      handler checks them, with `mapping` the component's state table.
      `action` is sent to the backend as the new status. */
  function Decide(mapping: Table, u: User, ps: seq<Project>, projectId: nat, action: string): (d: Decision)
    ensures d.Proceeds? ==> IsAdmin(u) && FindById(ps, projectId) == Some(d.project)
  {
    if u.role != Text("admin") then Rejected(NotAdminMessage)
    else match FindById(ps, projectId)
      case None => Rejected(NotFoundMessage)
      case Some(p) =>
        if u.adminLevel == Text("state") && action == Approved && p.status != Pending then
          Rejected(StatePendingOnlyMessage)
        else if u.adminLevel == Text("state") && ProjectStateOf(mapping, p.location) != u.state then
          Rejected(OutsideStateMessage)
        else if u.adminLevel == Text("central") && action == Approved && p.status != PendingCentral then
          Rejected(CentralPendingOnlyMessage)
        else
          Proceeds(p)
  }

  /** A non-admin is turned away before the project list is consulted, and an
      admin naming an id the list does not hold is turned away next. */
  lemma DecideRejectsFirst(mapping: Table, u: User, ps: seq<Project>, projectId: nat, action: string)
    ensures !IsAdmin(u) ==> Decide(mapping, u, ps, projectId, action) == Rejected(NotAdminMessage)
    ensures IsAdmin(u) && !HasId(ps, projectId) ==> Decide(mapping, u, ps, projectId, action) == Rejected(NotFoundMessage)
  {
    FindByIdNone(ps, projectId);
  }

  /** A state admin gets through exactly when the action is not `"approved"`
      or the project is `"pending"`, and the project's state, as the inline
      lookup resolves it, is strictly equal to the admin's `state`. The status
      is checked first, so an approval of a project that is not pending is
      turned down for its status even outside the admin's state. */
  lemma DecideStateAdmin(mapping: Table, u: User, ps: seq<Project>, p: Project, action: string)
    requires IsStateAdmin(u) && FindById(ps, p.id) == Some(p)
    ensures Decide(mapping, u, ps, p.id, action).Proceeds? <==>
              (action == Approved ==> p.status == Pending) && ProjectStateOf(mapping, p.location) == u.state
    ensures action == Approved && p.status != Pending ==>
              Decide(mapping, u, ps, p.id, action) == Rejected(StatePendingOnlyMessage)
    ensures (action == Approved ==> p.status == Pending) && ProjectStateOf(mapping, p.location) != u.state ==>
              Decide(mapping, u, ps, p.id, action) == Rejected(OutsideStateMessage)
  {
  }

  /** A central admin gets through exactly when the action is not
      `"approved"` or the project is `"pending central approval"`; there is
      no jurisdiction check. */
  lemma DecideCentralAdmin(mapping: Table, u: User, ps: seq<Project>, p: Project, action: string)
    requires IsCentralAdmin(u) && FindById(ps, p.id) == Some(p)
    ensures Decide(mapping, u, ps, p.id, action).Proceeds? <==> (action == Approved ==> p.status == PendingCentral)
    ensures Decide(mapping, u, ps, p.id, action).Rejected? ==>
              Decide(mapping, u, ps, p.id, action) == Rejected(CentralPendingOnlyMessage)
  {
  }

  /** An admin whose level is neither `'state'` nor `'central'` passes every
      guard once the project is found. */
  lemma DecideOtherAdmin(mapping: Table, u: User, ps: seq<Project>, projectId: nat, action: string)
    requires IsAdmin(u) && !IsStateAdmin(u) && !IsCentralAdmin(u) && HasId(ps, projectId)
    ensures Decide(mapping, u, ps, projectId, action).Proceeds?
  {
    FindByIdNone(ps, projectId);
  }

  /** A project in a city no state lists resolves to `undefined`, so it clears
      the state-level jurisdiction check exactly for an admin whose `state`
      is itself absent (`undefined`, not `null`). */
  lemma UnlistedLocationJurisdiction(mapping: Table, u: User, ps: seq<Project>, p: Project)
    requires IsStateAdmin(u) && FindById(ps, p.id) == Some(p)
    requires forall i :: 0 <= i < |mapping| ==> p.location !in mapping[i].1
    ensures Decide(mapping, u, ps, p.id, Declined).Proceeds? <==> u.state == Undefined
  {
    FirstStateOfNone(mapping, p.location);
  }

  /** The handler itself does not check the status of a project being
      declined: a state admin in the project's state, and any central admin,
      get a decline through whatever the status. Only the button condition
      (`ShowsActionButtons`) keeps the decline button off projects that are
      not waiting for that admin. */
  lemma DeclineNotStatusGated(mapping: Table, u: User, ps: seq<Project>, p: Project)
    requires IsAdmin(u) && FindById(ps, p.id) == Some(p)
    requires IsStateAdmin(u) ==> ProjectStateOf(mapping, p.location) == u.state
    ensures Decide(mapping, u, ps, p.id, Declined).Proceeds?
  {
  }

  /** The button condition of the admin list. The buttons appear only on a
      project waiting for this admin's level: `"pending"` for a state admin,
      `"pending central approval"` for a central admin; an admin of any other
      level never sees them. */
  function ShowsActionButtons(u: User, status: string): (shown: bool)
    ensures shown ==> status == Pending || status == PendingCentral
    ensures shown ==> IsStateAdmin(u) || IsCentralAdmin(u)
    ensures shown && status == Pending ==> IsStateAdmin(u)
    ensures shown && status == PendingCentral ==> IsCentralAdmin(u)
  {
    (status == Pending && u.role == Text("admin") && u.adminLevel == Text("state")) ||
    (status == PendingCentral && u.role == Text("admin") && u.adminLevel == Text("central"))
  }

  /** Whenever the buttons are shown for the project that `find` returns for
      its id, the status guards pass for both buttons: a central admin always
      gets through, and a state admin can only be stopped by the
      jurisdiction check. */
  lemma ButtonsPassStatusGuards(mapping: Table, u: User, ps: seq<Project>, p: Project, action: string)
    requires FindById(ps, p.id) == Some(p) && ShowsActionButtons(u, p.status)
    requires action == Approved || action == Declined
    ensures IsCentralAdmin(u) ==> Decide(mapping, u, ps, p.id, action) == Proceeds(p)
    ensures IsStateAdmin(u) ==>
              Decide(mapping, u, ps, p.id, action) ==
                (if ProjectStateOf(mapping, p.location) == u.state then Proceeds(p) else Rejected(OutsideStateMessage))
    ensures Decide(mapping, u, ps, p.id, action).Rejected? ==> Decide(mapping, u, ps, p.id, action).message == OutsideStateMessage
  {
  }

  /** A pending project in Lucknow is out of reach for a Maharashtra state
      admin and within reach of an Uttar Pradesh one. */
  lemma LucknowScenario(p: Project, name: Attr, email: Attr)
    requires p.location == "Lucknow" && p.status == Pending
    ensures Decide(StateMapping, User(name, email, Text("admin"), Text("Maharashtra"), Text("state")), [p], p.id, Approved)
              == Rejected(OutsideStateMessage)
    ensures Decide(StateMapping, User(name, email, Text("admin"), Text("Uttar Pradesh"), Text("state")), [p], p.id, Approved)
              == Proceeds(p)
  {
    assert StateMapping[0].1[0] == "Lucknow";
    ListedResolves(StateMapping, 0, "Lucknow") by { StateMappingWellFormed(); }
  }

  /** The buttons act through `find`, so when an id is repeated in the list a
      decline pressed on a later `"pending"` row reaches the earlier project
      with that id, here one already `"approved"`. */
  lemma RepeatedIdDecline(p: Project, q: Project, u: User)
    requires p.location == "Lucknow" && p.status == Approved
    requires q.id == p.id && q.status == Pending
    requires IsStateAdmin(u) && u.state == Text("Uttar Pradesh")
    ensures ShowsActionButtons(u, [p, q][1].status)
    ensures Decide(StateMapping, u, [p, q], [p, q][1].id, Declined) == Proceeds(p)
  {
    assert StateMapping[0].1[0] == "Lucknow";
    ListedResolves(StateMapping, 0, "Lucknow") by { StateMappingWellFormed(); }
  }

  /** The fields `handleSignup` posts; `state` is `Undefined` when the key is left out. */
  datatype SignupData = SignupData(
    name: string,
    email: string,
    password: string,
    role: string,
    adminLevel: Attr,
    state: Attr)

  /** `handleSignup`'s payload. `levelField` is the form's admin-level
      control, if the form has one (`null` is sent otherwise); the state is
      added only for an employee or a state admin. */
  function SignupPayload(name: string, email: string, password: string, role: string,
                         levelField: Option<string>, formState: string): (r: SignupData)
    ensures r.state != Undefined <==> role == "employee" || (role == "admin" && r.adminLevel == Text("state"))
    ensures r.state != Undefined ==> r.state == Text(formState)
    ensures r.adminLevel == (match levelField case Some(v) => Text(v) case None => Null)
    ensures r.name == name && r.email == email && r.password == password && r.role == role
  {
    var adminLevel := match levelField case Some(v) => Text(v) case None => Null;
    var data := SignupData(name, email, password, role, adminLevel, Undefined);
    if role == "employee" || (role == "admin" && adminLevel == Text("state")) then
      data.(state := Text(formState))
    else
      data
  }

  /** A central admin's signup never carries a state, and neither does one
      whose form has no admin-level control. */
  lemma SignupStateOmitted(name: string, email: string, password: string, formState: string)
    ensures SignupPayload(name, email, password, "admin", Some("central"), formState).state == Undefined
    ensures SignupPayload(name, email, password, "admin", None, formState).state == Undefined
  {
  }
}
