/** The project store (src/store/useProjectStore.ts) and the project record
    (src/lib/types.ts). Like the task store it changes the local list only
    after the backend call succeeded; every action first raises `isLoading`
    and clears `error`. */
module Projects {
  import opened Common

  datatype ProjectStatus = Running | Stalled | CriticalStatus

  /** A project; `color` is the UI accent, stored as `color_accent`. */
  datatype Project = Project(
    id: string,
    technicalId: string,
    name: string,
    description: Option<string>,
    status: ProjectStatus,
    progress: int,
    totalTasks: int,
    completedTasks: int,
    tags: seq<string>,
    color: Option<string>)

  /** A row of the `projects` table. */
  datatype ProjectRow = ProjectRow(
    id: string,
    technicalId: Option<string>,
    name: string,
    description: Option<string>,
    status: ProjectStatus,
    progress: int,
    totalTasks: Option<int>,
    completedTasks: Option<int>,
    tags: Option<seq<string>>,
    color_accent: Option<string>)

  /** What `addProject` is given: a project without id. */
  datatype ProjectDraft = ProjectDraft(
    technicalId: string,
    name: string,
    description: Option<string>,
    status: ProjectStatus,
    progress: int,
    totalTasks: int,
    completedTasks: int,
    tags: seq<string>,
    color: Option<string>)

  /** A `Partial<Project>`: `None` is a key the patch does not have. */
  datatype ProjectPatch = ProjectPatch(
    id: Option<string>,
    technicalId: Option<string>,
    name: Option<string>,
    description: Option<string>,
    status: Option<ProjectStatus>,
    progress: Option<int>,
    totalTasks: Option<int>,
    completedTasks: Option<int>,
    tags: Option<seq<string>>,
    color: Option<string>)

  const FetchedDefaultId := "PROJ-000"
  const AddedDefaultId := "PROJ-NEW"

  function StatusText(s: ProjectStatus): string {
    match s
    case Running => "running"
    case Stalled => "stalled"
    case CriticalStatus => "critical"
  }

  function ProjectId(p: Project): string { p.id }

  /** `x || d` on a `string | null`. */
  function OrDefault(x: Option<string>, d: string): (r: string)
    ensures Truthy(x) ==> r == x.value
    ensures !Truthy(x) ==> r == d
  {
    if Truthy(x) then x.value else d
  }

  /** A row as the store holds it, with `technicalId` defaulting to `dflt`
      (a missing or empty one), missing counters to 0 and missing tags to
      none. */
  function FromRow(row: ProjectRow, dflt: string): (p: Project)
    ensures p.id == row.id && p.name == row.name && p.status == row.status && p.progress == row.progress
    ensures p.technicalId == if Truthy(row.technicalId) then row.technicalId.value else dflt
    ensures p.totalTasks == (if row.totalTasks.Some? then row.totalTasks.value else 0)
    ensures p.completedTasks == (if row.completedTasks.Some? then row.completedTasks.value else 0)
    ensures p.tags == (if row.tags.Some? then row.tags.value else [])
    ensures p.color == row.color_accent
  {
    Project(row.id, OrDefault(row.technicalId, dflt), row.name, row.description, row.status, row.progress,
            row.totalTasks.GetOr(0), row.completedTasks.GetOr(0), row.tags.GetOr([]), row.color_accent)
  }

  function FromRows(rows: seq<ProjectRow>): (r: seq<Project>)
    ensures |r| == |rows| && forall i :: 0 <= i < |rows| ==> r[i] == FromRow(rows[i], FetchedDefaultId)
  {
    if rows == [] then [] else [FromRow(rows[0], FetchedDefaultId)] + FromRows(rows[1..])
  }

  /** The row `addProject` inserts: only five columns are sent, the accent
      under its column name. */
  function InsertPayload(d: ProjectDraft): (p: map<string, Json>)
    ensures p.Keys <= {"name", "description", "status", "progress", "color_accent"}
    ensures "color_accent" in p <==> d.color.Some?
    ensures d.color.Some? ==> p["color_accent"] == JStr(d.color.value)
  {
    var m := map["name" := JStr(d.name), "status" := JStr(StatusText(d.status)), "progress" := JNum(d.progress)];
    var m1 := if d.description.Some? then m["description" := JStr(d.description.value)] else m;
    if d.color.Some? then m1["color_accent" := JStr(d.color.value)] else m1
  }

  /** `{ ...p, ...updates }`. */
  function Merge(p: Project, u: ProjectPatch): Project {
    Project(
      u.id.GetOr(p.id),
      u.technicalId.GetOr(p.technicalId),
      u.name.GetOr(p.name),
      if u.description.Some? then u.description else p.description,
      u.status.GetOr(p.status),
      u.progress.GetOr(p.progress),
      u.totalTasks.GetOr(p.totalTasks),
      u.completedTasks.GetOr(p.completedTasks),
      u.tags.GetOr(p.tags),
      if u.color.Some? then u.color else p.color)
  }

  function PatchMatching(ps: seq<Project>, id: string, u: ProjectPatch): (r: seq<Project>)
    ensures |r| == |ps|
    ensures forall i :: 0 <= i < |ps| ==> r[i] == if ps[i].id == id then Merge(ps[i], u) else ps[i]
  {
    MapMatching(ps, ProjectId, id, p => Merge(p, u))
  }

  /** The patch's keys under their own names (`{ ...updates }`). */
  function PatchFields(u: ProjectPatch): map<string, Json> {
    var m0: map<string, Json> := map[];
    var m1 := if u.id.Some? then m0["id" := JStr(u.id.value)] else m0;
    var m2 := if u.technicalId.Some? then m1["technicalId" := JStr(u.technicalId.value)] else m1;
    var m3 := if u.name.Some? then m2["name" := JStr(u.name.value)] else m2;
    var m4 := if u.description.Some? then m3["description" := JStr(u.description.value)] else m3;
    var m5 := if u.status.Some? then m4["status" := JStr(StatusText(u.status.value))] else m4;
    var m6 := if u.progress.Some? then m5["progress" := JNum(u.progress.value)] else m5;
    var m7 := if u.totalTasks.Some? then m6["totalTasks" := JNum(u.totalTasks.value)] else m6;
    var m8 := if u.completedTasks.Some? then m7["completedTasks" := JNum(u.completedTasks.value)] else m7;
    var m9 := if u.tags.Some? then m8["tags" := JStrs(u.tags.value)] else m8;
    if u.color.Some? then m9["color" := JStr(u.color.value)] else m9
  }

  /** The body `updateProject` sends. */
  function UpdatePayload(u: ProjectPatch): map<string, Json> {
    var p := PatchFields(u);
    if Truthy(u.color) then (p - {"color"})["color_accent" := JStr(u.color.value)] else p
  }

  /** A non-empty `color` is sent as `color_accent`; an empty one passes
      through as `color`; every other key is sent as it is. */
  lemma UpdatePayloadColor(u: ProjectPatch, k: string)
    requires k != "color" && k != "color_accent"
    ensures "color_accent" in UpdatePayload(u) <==> Truthy(u.color)
    ensures Truthy(u.color) ==> UpdatePayload(u)["color_accent"] == JStr(u.color.value)
    ensures "color" in UpdatePayload(u) <==> u.color == Some("")
    ensures k in UpdatePayload(u) <==> k in PatchFields(u)
    ensures k in UpdatePayload(u) ==> UpdatePayload(u)[k] == PatchFields(u)[k]
  {
  }

  class ProjectStore {
    var projects: seq<Project>
    var selectedProjectId: Option<string>
    var isLoading: bool
    var error: Option<string>

    constructor ()
      ensures projects == [] && selectedProjectId == None && !isLoading && error == None
    {
      projects, selectedProjectId, isLoading, error := [], None, false, None;
    }

    /** Shared ending of every remote action: the spinner stops, and the
        error is the call's, or none. */
    ghost predicate Settled(outcomeFailed: bool, message: string)
      reads this
    {
      !isLoading && error == if outcomeFailed then Some(message) else None
    }

    method FetchProjects(outcome: Remote<seq<ProjectRow>>)
      modifies this
      ensures Settled(outcome.Err?, if outcome.Err? then outcome.message else "")
      ensures projects == if outcome.Ok? then FromRows(outcome.value) else old(projects)
      ensures selectedProjectId == old(selectedProjectId)
    {
      isLoading, error := true, None;
      match outcome
      case Ok(rows) =>
        projects, isLoading := FromRows(rows), false;
      case Err(message) =>
        error, isLoading := Some(message), false;
    }

    /** The returned row goes first, its `technicalId` defaulting to 'PROJ-NEW'. */
    method AddProject(draft: ProjectDraft, outcome: Remote<ProjectRow>) returns (sent: map<string, Json>)
      modifies this
      ensures sent == InsertPayload(draft)
      ensures Settled(outcome.Err?, if outcome.Err? then outcome.message else "")
      ensures projects == if outcome.Ok? then [FromRow(outcome.value, AddedDefaultId)] + old(projects) else old(projects)
      ensures selectedProjectId == old(selectedProjectId)
    {
      isLoading, error := true, None;
      sent := InsertPayload(draft);
      match outcome
      case Ok(row) =>
        projects, isLoading := [FromRow(row, AddedDefaultId)] + projects, false;
      case Err(message) =>
        error, isLoading := Some(message), false;
    }

    method UpdateProject(id: string, updates: ProjectPatch, outcome: Outcome) returns (sent: map<string, Json>)
      modifies this
      ensures sent == UpdatePayload(updates)
      ensures Settled(outcome.Fail?, if outcome.Fail? then outcome.message else "")
      ensures projects == if outcome.Pass? then PatchMatching(old(projects), id, updates) else old(projects)
      ensures selectedProjectId == old(selectedProjectId)
    {
      isLoading, error := true, None;
      sent := UpdatePayload(updates);
      match outcome
      case Pass =>
        projects, isLoading := PatchMatching(projects, id, updates), false;
      case Fail(message) =>
        error, isLoading := Some(message), false;
    }

    method DeleteProject(id: string, outcome: Outcome)
      modifies this
      ensures Settled(outcome.Fail?, if outcome.Fail? then outcome.message else "")
      ensures projects == if outcome.Pass? then FilterOut(old(projects), ProjectId, id) else old(projects)
      ensures (forall i :: 0 <= i < |old(projects)| ==> old(projects)[i].id != id) ==> projects == old(projects)
      ensures selectedProjectId == old(selectedProjectId)
    {
      isLoading, error := true, None;
      match outcome
      case Pass =>
        projects, isLoading := FilterOut(projects, ProjectId, id), false;
      case Fail(message) =>
        error, isLoading := Some(message), false;
    }

    method SetSelectedProjectId(id: Option<string>)
      modifies this
      ensures selectedProjectId == id
      ensures projects == old(projects) && isLoading == old(isLoading) && error == old(error)
    {
      selectedProjectId := id;
    }
  }

  /** A fetched row without an identifier, counters or tags. */
  lemma FetchedDefaults(row: ProjectRow)
    requires !Truthy(row.technicalId) && row.totalTasks == None && row.completedTasks == None && row.tags == None
    ensures var p := FromRow(row, FetchedDefaultId);
      p.technicalId == "PROJ-000" && p.totalTasks == 0 && p.completedTasks == 0 && p.tags == []
  {
  }
}
