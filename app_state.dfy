/** The application's component state and the handlers that change it. The
    backend is not modelled: each request's outcome is an input to the
    handler that sends it. */
module AppState {
  import opened Wrappers
  import opened JsValues
  import opened Jurisdiction
  import opened Projects
  import opened Workflow

  /** How a request to the backend ended: it failed with an error message,
      or it succeeded and the list was fetched again (`None` when that
      fetch failed and left the list as it was). */
  datatype RequestOutcome = Failed(error: string) | Succeeded(refetched: Option<seq<Project>>)

  /** The list after `fetchProjects(email)`: cleared when there is no email,
      replaced by the fetched list, or left alone when the fetch failed. */
  function AfterRefetch(email: Attr, fetched: Option<seq<Project>>, current: seq<Project>): (r: seq<Project>)
    ensures !Truthy(email) ==> r == []
    ensures Truthy(email) && fetched.Some? ==> r == fetched.value
    ensures Truthy(email) && fetched.None? ==> r == current
  {
    if !Truthy(email) then []
    else match fetched
      case Some(list) => list
      case None => current
  }

  /** The word the success message and the log use for an action: a
      decline, or any other action, is reported as `'rejected'`. */
  function ActionText(action: string): (r: string)
    ensures r == "approved" <==> action == Approved
    ensures r != "approved" ==> r == "rejected"
  {
    if action == Approved then "approved" else "rejected"
  }

  /** The activity-log entry of a successful approve or decline: it opens
      with the action's word and closes with the project's id in decimal. */
  function ActionLogEntry(action: string, projectId: nat): (r: string)
    ensures |r| > |ActionText(action)| + |DecimalString(projectId)|
    ensures r[..|ActionText(action)|] == ActionText(action)
    ensures r[|r| - |DecimalString(projectId)|..] == DecimalString(projectId)
  {
    ActionText(action) + " project ID: " + DecimalString(projectId)
  }

  /** Entries for different projects never coincide, so the log tells the
      projects apart. */
  lemma ActionLogEntriesDistinct(action: string, id1: nat, id2: nat)
    requires id1 != id2
    ensures ActionLogEntry(action, id1) != ActionLogEntry(action, id2)
  {
    var prefix := ActionText(action) + " project ID: ";
    assert ActionLogEntry(action, id1) == prefix + DecimalString(id1);
    assert ActionLogEntry(action, id2) == prefix + DecimalString(id2);
    assert (prefix + DecimalString(id1))[|prefix|..] == DecimalString(id1);
    assert (prefix + DecimalString(id2))[|prefix|..] == DecimalString(id2);
    DecimalStringInjective(id1, id2);
  }

  const DetailsNotFoundMessage: string := "Error: Could not find project details."

  class App {
    /** The component's state-to-cities table. */
    const stateMapping: Table := StateMapping
    var user: User
    var projects: seq<Project>
    var activityLog: seq<string>
    var currentProjectIndex: Option<nat>
    var detailsOpen: bool
    var message: string

    /** A session after sign-in and the first fetch of the user's projects. */
    constructor (signedIn: User, fetched: seq<Project>)
      ensures user == signedIn && projects == fetched && activityLog == []
      ensures currentProjectIndex == None && !detailsOpen && message == ""
    {
      user := signedIn;
      projects := fetched;
      activityLog := [];
      currentProjectIndex := None;
      detailsOpen := false;
      message := "";
    }

    /** `logActivity`: the newest entry goes first. */
    method LogActivity(msg: string)
      modifies this`activityLog
      ensures activityLog == [msg] + old(activityLog)
    {
      activityLog := [msg] + activityLog;
    }

    /** `handleProjectAction(projectId, action)`: the guards in order, each
        returning early with its message; then the PUT, whose outcome is
        `put`. On failure the list is patched locally, giving every project
        with that id the action as its status. */
    method HandleProjectAction(projectId: nat, action: string, put: RequestOutcome)
      modifies this`projects, this`activityLog, this`message
      ensures Decide(stateMapping, user, old(projects), projectId, action).Rejected? ==>
                projects == old(projects) && activityLog == old(activityLog) &&
                message == Decide(stateMapping, user, old(projects), projectId, action).message
      ensures Decide(stateMapping, user, old(projects), projectId, action).Proceeds? && put.Failed? ==>
                projects == WithStatusWhere(old(projects), projectId, action) &&
                activityLog == old(activityLog) && message == "Error: " + put.error
      ensures Decide(stateMapping, user, old(projects), projectId, action).Proceeds? && put.Succeeded? ==>
                projects == AfterRefetch(user.email, put.refetched, old(projects)) &&
                activityLog == [ActionLogEntry(action, projectId)] + old(activityLog) &&
                message == "Project " + ActionText(action) + " successfully!"
    {
      if user.role != Text("admin") {
        message := NotAdminMessage;
        return;
      }
      var found := FindById(projects, projectId);
      if found.None? {
        message := NotFoundMessage;
        return;
      }
      var project := found.value;
      if user.adminLevel == Text("state") {
        if action == Approved && project.status != Pending {
          message := StatePendingOnlyMessage;
          return;
        }
        var projectState := ProjectStateOf(stateMapping, project.location);
        if projectState != user.state {
          message := OutsideStateMessage;
          return;
        }
      }
      if user.adminLevel == Text("central") && action == Approved && project.status != PendingCentral {
        message := CentralPendingOnlyMessage;
        return;
      }
      match put
      case Failed(error) =>
        message := "Error: " + error;
        projects := WithStatusWhere(projects, projectId, action);
      case Succeeded(refetched) =>
        projects := AfterRefetch(user.email, refetched, projects);
        var actionText := ActionText(action);
        LogActivity(ActionLogEntry(action, projectId));
        message := "Project " + actionText + " successfully!";
    }

    /** `handleOpenProjectDetails`: select the first project carrying the id
        and open the details view, or report that it is missing. */
    method OpenProjectDetails(projectId: nat)
      modifies this`currentProjectIndex, this`detailsOpen, this`message
      ensures !HasId(projects, projectId) ==>
                message == DetailsNotFoundMessage &&
                currentProjectIndex == old(currentProjectIndex) && detailsOpen == old(detailsOpen)
      ensures HasId(projects, projectId) ==>
                currentProjectIndex.Some? && IsFirstWithId(projects, projectId, currentProjectIndex.value) &&
                detailsOpen && message == old(message)
    {
      var index := FindIndexById(projects, projectId);
      if index == -1 {
        message := DetailsNotFoundMessage;
        return;
      }
      currentProjectIndex := Some(index);
      detailsOpen := true;
    }

    /** `handleDeleteProject`, with the DELETE's outcome `del`. Nothing happens
        without a selection; a selection past the end of the list makes the
        handler throw (`threw`) before it changes anything. */
    method HandleDeleteProject(del: RequestOutcome) returns (threw: bool)
      modifies this`projects, this`activityLog, this`currentProjectIndex, this`detailsOpen, this`message
      ensures threw <==> old(currentProjectIndex).Some? && old(currentProjectIndex).value >= |old(projects)|
      ensures old(currentProjectIndex).None? || threw ==>
                projects == old(projects) && activityLog == old(activityLog) &&
                currentProjectIndex == old(currentProjectIndex) && detailsOpen == old(detailsOpen) &&
                message == old(message)
      ensures old(currentProjectIndex).Some? && !threw && del.Failed? ==>
                projects == old(projects) && activityLog == old(activityLog) &&
                currentProjectIndex == old(currentProjectIndex) && detailsOpen == old(detailsOpen) &&
                message == "Error: " + del.error
      ensures old(currentProjectIndex).Some? && !threw && del.Succeeded? ==>
                var gone := old(projects)[old(currentProjectIndex).value];
                projects == AfterRefetch(user.email, del.refetched, old(projects)) &&
                activityLog == ["Deleted project ID " + DecimalString(gone.id) + " for: " + gone.location] + old(activityLog) &&
                currentProjectIndex == None && !detailsOpen &&
                message == "Project ID " + DecimalString(gone.id) + " deleted successfully."
    {
      if currentProjectIndex.None? {
        return false;
      }
      var index := currentProjectIndex.value;
      if index >= |projects| {
        return true;
      }
      threw := false;
      var toDelete := projects[index];
      match del
      case Failed(error) =>
        message := "Error: " + error;
      case Succeeded(refetched) =>
        projects := AfterRefetch(user.email, refetched, projects);
        LogActivity("Deleted project ID " + DecimalString(toDelete.id) + " for: " + toDelete.location);
        detailsOpen := false;
        currentProjectIndex := None;
        message := "Project ID " + DecimalString(toDelete.id) + " deleted successfully.";
    }
  }

  /** When the PUT of a state admin's approval fails, the local fallback
      shows the project as `"approved"`, the final status, although the
      project has not been through central approval. */
  method StateApprovalFallback(p: Project, email: Attr, home: string)
  {
    var stateAdmin := User(Text("Asha"), email, Text("admin"), Text(home), Text("state"));
    ListedResolves(StateMapping, 0, "Lucknow") by { StateMappingWellFormed(); }
    var app := new App(stateAdmin, [p.(location := "Lucknow", status := Pending)]);
    app.HandleProjectAction(p.id, Approved, Failed("Failed to approved project."));
    if home == "Uttar Pradesh" {
      assert app.projects == [p.(location := "Lucknow", status := Approved)];
    } else {
      assert app.projects == [p.(location := "Lucknow", status := Pending)];
      assert app.message == OutsideStateMessage;
    }
  }

  /** A central admin's decline goes through, and when the PUT fails the
      local list shows the project as `"declined"`; a later approval by the
      same admin is then turned down by the status guard. */
  method CentralDeclineThenApprove(p: Project, email: Attr)
  {
    var central := User(Text("Ravi"), email, Text("admin"), Undefined, Text("central"));
    var app := new App(central, [p.(status := PendingCentral)]);
    app.HandleProjectAction(p.id, Declined, Failed("Failed to declined project."));
    assert app.projects == [p.(status := Declined)];
    app.HandleProjectAction(p.id, Approved, Failed("Failed to approved project."));
    assert app.projects == [p.(status := Declined)];
    assert app.message == CentralPendingOnlyMessage;
  }
}
