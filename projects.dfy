/** Projects and users as the client holds them, and the list operations the
    application performs on its `projects` state. */
module Projects {
  import opened Wrappers
  import opened JsValues

  /** A forecasting project as the backend returns it. Only the fields the
      workflow reads are named; the rest (name, budget, tower and substation
      type, geography, taxes, creation time, forecasts) is opaque payload. */
  datatype Project = Project(
    id: nat,
    location: string,
    createdBy: string,
    status: string,
    details: map<string, string>)

  /** The signed-in user (`userData`); every property may be absent. */
  datatype User = User(
    name: Attr,
    email: Attr,
    role: Attr,
    state: Attr,
    adminLevel: Attr)

  const Pending: string := "pending"
  const PendingCentral: string := "pending central approval"
  const Approved: string := "approved"
  const Declined: string := "declined"

  /** Some project in `ps` carries `id`. */
  predicate HasId(ps: seq<Project>, id: nat) {
    exists k :: 0 <= k < |ps| && ps[k].id == id
  }

  /** `k` is the first position in `ps` whose project carries `id`. */
  predicate IsFirstWithId(ps: seq<Project>, id: nat, k: int) {
    0 <= k < |ps| && ps[k].id == id && forall j :: 0 <= j < k ==> ps[j].id != id
  }

  /** `projects.find(p => p.id === id)`: the first project carrying `id`. */
  function FindById(ps: seq<Project>, id: nat): (r: Option<Project>)
    ensures r.Some? ==> r.value in ps && r.value.id == id
    decreases |ps|
  {
    if ps == [] then None
    else if ps[0].id == id then Some(ps[0])
    else FindById(ps[1..], id)
  }

  /** `find` comes back empty exactly when no project carries the id. */
  lemma {:induction false} FindByIdNone(ps: seq<Project>, id: nat)
    ensures FindById(ps, id) == None <==> !HasId(ps, id)
    decreases |ps|
  {
    if ps != [] && ps[0].id != id {
      FindByIdNone(ps[1..], id);
      assert forall k :: 0 < k < |ps| ==> ps[k] == ps[1..][k - 1];
    }
  }

  /** What `find` returns is the project at the first position carrying `id`. */
  lemma {:induction false} FindByIdIsFirst(ps: seq<Project>, id: nat, k: int)
    requires IsFirstWithId(ps, id, k)
    ensures FindById(ps, id) == Some(ps[k])
    decreases |ps|
  {
    if k > 0 {
      FindByIdIsFirst(ps[1..], id, k - 1);
    }
  }

  /** Whatever `find` returns sits at the first position carrying `id`. */
  lemma {:induction false} FindByIdFound(ps: seq<Project>, id: nat)
    requires FindById(ps, id).Some?
    ensures exists k :: IsFirstWithId(ps, id, k) && FindById(ps, id) == Some(ps[k])
    decreases |ps|
  {
    if ps[0].id == id {
      assert IsFirstWithId(ps, id, 0);
    } else {
      FindByIdFound(ps[1..], id);
      var k :| IsFirstWithId(ps[1..], id, k) && FindById(ps[1..], id) == Some(ps[1..][k]);
      assert IsFirstWithId(ps, id, k + 1);
    }
  }

  /** `projects.findIndex(p => p.id === id)`: the first position carrying
      `id`, or -1 when there is none. */
  method FindIndexById(ps: seq<Project>, id: nat) returns (index: int)
    ensures -1 <= index < |ps|
    ensures index == -1 <==> !HasId(ps, id)
    ensures index != -1 ==> IsFirstWithId(ps, id, index)
  {
    for i := 0 to |ps|
      invariant forall j :: 0 <= j < i ==> ps[j].id != id
    {
      if ps[i].id == id {
        return i;
      }
    }
    return -1;
  }

  /** The list after the local fallback of the approval handler:
      `prev.map(p => p.id === id ? { ...p, status } : p)`. */
  function WithStatusWhere(ps: seq<Project>, id: nat, status: string): (r: seq<Project>)
    ensures |r| == |ps|
    decreases |ps|
  {
    if ps == [] then []
    else [if ps[0].id == id then ps[0].(status := status) else ps[0]] + WithStatusWhere(ps[1..], id, status)
  }

  /** The fallback keeps the length and the order: projects carrying `id`
      get `status`, every other project stays as it was. */
  lemma {:induction false} WithStatusWhereSpec(ps: seq<Project>, id: nat, status: string)
    ensures |WithStatusWhere(ps, id, status)| == |ps|
    ensures forall k :: 0 <= k < |ps| ==>
              WithStatusWhere(ps, id, status)[k] == (if ps[k].id == id then ps[k].(status := status) else ps[k])
    decreases |ps|
  {
    if ps != [] {
      WithStatusWhereSpec(ps[1..], id, status);
    }
  }

  /** The fallback keeps every id, in order. */
  lemma {:induction false} WithStatusWhereKeepsIds(ps: seq<Project>, id: nat, status: string)
    ensures |WithStatusWhere(ps, id, status)| == |ps|
    ensures forall k :: 0 <= k < |ps| ==> WithStatusWhere(ps, id, status)[k].id == ps[k].id
  {
    WithStatusWhereSpec(ps, id, status);
  }

  /** For an id the list does not hold the fallback changes nothing. */
  lemma {:induction false} WithStatusWhereAbsent(ps: seq<Project>, id: nat, status: string)
    requires !HasId(ps, id)
    ensures WithStatusWhere(ps, id, status) == ps
  {
    WithStatusWhereSpec(ps, id, status);
  }

  /** Applying the fallback twice is applying it once. */
  lemma {:induction false} WithStatusWhereIdempotent(ps: seq<Project>, id: nat, status: string)
    ensures WithStatusWhere(WithStatusWhere(ps, id, status), id, status) == WithStatusWhere(ps, id, status)
  {
    var once := WithStatusWhere(ps, id, status);
    WithStatusWhereSpec(ps, id, status);
    WithStatusWhereSpec(once, id, status);
  }

  /** After the fallback, `find` on that id sees the new status. */
  lemma {:induction false} WithStatusWhereFind(ps: seq<Project>, id: nat, status: string, k: int)
    requires IsFirstWithId(ps, id, k)
    ensures FindById(WithStatusWhere(ps, id, status), id) == Some(ps[k].(status := status))
  {
    WithStatusWhereSpec(ps, id, status);
    FindByIdIsFirst(WithStatusWhere(ps, id, status), id, k);
  }

  /** After the fallback, `find` on another id still finds the project at
      the first position carrying that id. */
  lemma {:induction false} WithStatusWhereFindOtherAt(ps: seq<Project>, id: nat, status: string, other: nat, k: int)
    requires other != id && IsFirstWithId(ps, other, k)
    ensures FindById(WithStatusWhere(ps, id, status), other) == Some(ps[k])
  {
    WithStatusWhereSpec(ps, id, status);
    FindByIdIsFirst(WithStatusWhere(ps, id, status), other, k);
  }

  /** After the fallback, `find` on any other id returns what it did before:
      nothing for an id the list does not hold, the same project otherwise. */
  lemma {:induction false} WithStatusWhereFindOther(ps: seq<Project>, id: nat, status: string, other: nat)
    requires other != id
    ensures FindById(WithStatusWhere(ps, id, status), other) == FindById(ps, other)
  {
    if FindById(ps, other).Some? {
      FindByIdFound(ps, other);
      var k :| IsFirstWithId(ps, other, k) && FindById(ps, other) == Some(ps[k]);
      WithStatusWhereFindOtherAt(ps, id, status, other, k);
    } else {
      var patched := WithStatusWhere(ps, id, status);
      WithStatusWhereKeepsIds(ps, id, status);
      FindByIdNone(ps, other);
      FindByIdNone(patched, other);
    }
  }

  /** `projects.filter(p => p.createdBy === email)`. */
  function ProjectsBy(ps: seq<Project>, email: Attr): (r: seq<Project>)
    ensures |r| <= |ps|
    ensures forall p :: p in r <==> p in ps && Text(p.createdBy) == email
    decreases |ps|
  {
    if ps == [] then []
    else
      var rest := ProjectsBy(ps[1..], email);
      assert forall p :: p in ps <==> p == ps[0] || p in ps[1..];
      if Text(ps[0].createdBy) == email then [ps[0]] + rest else rest
  }

  /** Filtering distributes over appending one project. */
  lemma {:induction false} ProjectsByAppend(ps: seq<Project>, p: Project, email: Attr)
    ensures ProjectsBy(ps + [p], email) ==
              ProjectsBy(ps, email) + (if Text(p.createdBy) == email then [p] else [])
    decreases |ps|
  {
    if ps != [] {
      assert (ps + [p])[1..] == ps[1..] + [p];
      ProjectsByAppend(ps[1..], p, email);
    }
  }

  /** The dashboard's project: the last of the user's own projects, if any. */
  function LastProjectOf(ps: seq<Project>, email: Attr): (r: Option<Project>)
    ensures r.None? <==> forall p :: p in ps ==> Text(p.createdBy) != email
    ensures r.Some? ==> r.value in ps && Text(r.value.createdBy) == email
  {
    var mine := ProjectsBy(ps, email);
    if |mine| > 0 then
      assert mine[|mine| - 1] in mine;
      Some(mine[|mine| - 1])
    else None
  }

  /** A project appended to the list becomes the user's dashboard project when
      the user created it, and leaves the selection alone otherwise. */
  lemma LastProjectOfAppend(ps: seq<Project>, p: Project, email: Attr)
    ensures LastProjectOf(ps + [p], email) ==
              (if Text(p.createdBy) == email then Some(p) else LastProjectOf(ps, email))
  {
    ProjectsByAppend(ps, p, email);
  }
}
