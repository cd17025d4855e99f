/** The quick search over the loaded tasks and projects
    (src/store/useOmniSearchStore.ts). The task and project lists are read
    from the other two stores; here they are parameters. */
module OmniSearch {
  import opened Common
  import Tasks
  import Projects

  datatype HitKind = TaskHit | ProjectHit

  datatype OmniResult = OmniResult(id: string, kind: HitKind, title: string, subtitle: string)

  const GeneralCap := 10

  /** `t.title.toLowerCase().includes(q)`. */
  predicate TaskMatches(t: Tasks.Task, q: string) {
    Contains(ToLower(t.title), q)
  }

  predicate ProjectMatches(p: Projects.Project, q: string) {
    Contains(ToLower(p.name), q)
  }

  /** The direct id lookup: a task whose lowercased id contains the query.
      The source also compares `(t as any).technicalId`; the Task type
      declares no such field and the task store never sets one, so that
      comparison is always false and is not modelled. */
  predicate TaskIdMatches(t: Tasks.Task, q: string) {
    Contains(ToLower(t.id), q)
  }

  /** A project whose lowercased id contains the query, or whose lowercased
      technical id is the query. */
  predicate ProjectIdMatches(p: Projects.Project, q: string) {
    Contains(ToLower(p.id), q) || ToLower(p.technicalId) == q
  }

  /** The matching tasks, each with the given subtitle maker. */
  function TaskHits(ts: seq<Tasks.Task>, q: string, statusSubtitle: bool): (r: seq<OmniResult>)
    ensures |r| <= |ts|
    ensures forall i :: 0 <= i < |r| ==> r[i].kind == TaskHit && Contains(ToLower(r[i].title), q)
    ensures forall k :: 0 <= k < |ts| && TaskMatches(ts[k], q) ==> TaskResult(ts[k], statusSubtitle) in r
    ensures (forall k :: 0 <= k < |ts| ==> TaskMatches(ts[k], q)) ==> |r| == |ts|
  {
    if ts == [] then []
    else if TaskMatches(ts[0], q) then [TaskResult(ts[0], statusSubtitle)] + TaskHits(ts[1..], q, statusSubtitle)
    else TaskHits(ts[1..], q, statusSubtitle)
  }

  /** Each task hit is the result of a matching task. */
  lemma {:induction false} TaskHitFrom(ts: seq<Tasks.Task>, q: string, statusSubtitle: bool, i: int)
    requires 0 <= i < |TaskHits(ts, q, statusSubtitle)|
    ensures exists k :: 0 <= k < |ts| && TaskMatches(ts[k], q) && TaskHits(ts, q, statusSubtitle)[i] == TaskResult(ts[k], statusSubtitle)
  {
    var rest := TaskHits(ts[1..], q, statusSubtitle);
    var i' := i;
    if TaskMatches(ts[0], q) {
      assert TaskHits(ts, q, statusSubtitle) == [TaskResult(ts[0], statusSubtitle)] + rest;
      if i == 0 {
        assert TaskMatches(ts[0], q) && TaskHits(ts, q, statusSubtitle)[0] == TaskResult(ts[0], statusSubtitle);
        return;
      }
      i' := i - 1;
    } else {
      assert TaskHits(ts, q, statusSubtitle) == rest;
    }
    assert TaskHits(ts, q, statusSubtitle)[i] == rest[i'];
    TaskHitFrom(ts[1..], q, statusSubtitle, i');
    var k :| 0 <= k < |ts[1..]| && TaskMatches(ts[1..][k], q) && rest[i'] == TaskResult(ts[1..][k], statusSubtitle);
    assert ts[1..][k] == ts[k + 1];
  }

  /** The task hits keep the order and multiplicity of the task list: they
      distribute over concatenation, and one task gives one hit iff its
      title matches. */
  lemma {:induction false} TaskHitsAppend(a: seq<Tasks.Task>, b: seq<Tasks.Task>, q: string, statusSubtitle: bool)
    ensures TaskHits(a + b, q, statusSubtitle) == TaskHits(a, q, statusSubtitle) + TaskHits(b, q, statusSubtitle)
  {
    if a == [] {
      assert a + b == b;
    } else {
      assert (a + b)[0] == a[0];
      assert (a + b)[1..] == a[1..] + b;
      TaskHitsAppend(a[1..], b, q, statusSubtitle);
    }
  }

  lemma TaskHitsSingle(t: Tasks.Task, q: string, statusSubtitle: bool)
    ensures TaskHits([t], q, statusSubtitle) == if TaskMatches(t, q) then [TaskResult(t, statusSubtitle)] else []
  {
  }

  function TaskResult(t: Tasks.Task, statusSubtitle: bool): OmniResult {
    OmniResult(t.id, TaskHit, t.title, if statusSubtitle then "STATUS: " + Tasks.StatusText(t.status) else "TASK")
  }

  function ProjectResult(p: Projects.Project, codeSubtitle: bool): OmniResult {
    OmniResult(p.id, ProjectHit, p.name, if codeSubtitle then "CODE: " + p.technicalId else "PROJECT")
  }

  function ProjectHits(ps: seq<Projects.Project>, q: string, codeSubtitle: bool): (r: seq<OmniResult>)
    ensures |r| <= |ps|
    ensures forall i :: 0 <= i < |r| ==> r[i].kind == ProjectHit && Contains(ToLower(r[i].title), q)
    ensures forall k :: 0 <= k < |ps| && ProjectMatches(ps[k], q) ==> ProjectResult(ps[k], codeSubtitle) in r
    ensures (forall k :: 0 <= k < |ps| ==> ProjectMatches(ps[k], q)) ==> |r| == |ps|
  {
    if ps == [] then []
    else if ProjectMatches(ps[0], q) then [ProjectResult(ps[0], codeSubtitle)] + ProjectHits(ps[1..], q, codeSubtitle)
    else ProjectHits(ps[1..], q, codeSubtitle)
  }

  /** Each project hit is the result of a matching project. */
  lemma {:induction false} ProjectHitFrom(ps: seq<Projects.Project>, q: string, codeSubtitle: bool, i: int)
    requires 0 <= i < |ProjectHits(ps, q, codeSubtitle)|
    ensures exists k :: 0 <= k < |ps| && ProjectMatches(ps[k], q) && ProjectHits(ps, q, codeSubtitle)[i] == ProjectResult(ps[k], codeSubtitle)
  {
    var rest := ProjectHits(ps[1..], q, codeSubtitle);
    var i' := i;
    if ProjectMatches(ps[0], q) {
      assert ProjectHits(ps, q, codeSubtitle) == [ProjectResult(ps[0], codeSubtitle)] + rest;
      if i == 0 {
        assert ProjectMatches(ps[0], q) && ProjectHits(ps, q, codeSubtitle)[0] == ProjectResult(ps[0], codeSubtitle);
        return;
      }
      i' := i - 1;
    } else {
      assert ProjectHits(ps, q, codeSubtitle) == rest;
    }
    assert ProjectHits(ps, q, codeSubtitle)[i] == rest[i'];
    ProjectHitFrom(ps[1..], q, codeSubtitle, i');
    var k :| 0 <= k < |ps[1..]| && ProjectMatches(ps[1..][k], q) && rest[i'] == ProjectResult(ps[1..][k], codeSubtitle);
    assert ps[1..][k] == ps[k + 1];
  }

  lemma {:induction false} ProjectHitsAppend(a: seq<Projects.Project>, b: seq<Projects.Project>, q: string, codeSubtitle: bool)
    ensures ProjectHits(a + b, q, codeSubtitle) == ProjectHits(a, q, codeSubtitle) + ProjectHits(b, q, codeSubtitle)
  {
    if a == [] {
      assert a + b == b;
    } else {
      assert (a + b)[0] == a[0];
      assert (a + b)[1..] == a[1..] + b;
      ProjectHitsAppend(a[1..], b, q, codeSubtitle);
    }
  }

  lemma ProjectHitsSingle(p: Projects.Project, q: string, codeSubtitle: bool)
    ensures ProjectHits([p], q, codeSubtitle) == if ProjectMatches(p, q) then [ProjectResult(p, codeSubtitle)] else []
  {
  }

  /** What `performSearch` ends with for the typed query. */
  function OmniResults(raw: string, ts: seq<Tasks.Task>, ps: seq<Projects.Project>): (r: seq<OmniResult>)
    ensures AllSpace(raw) ==> r == []
  {
    var q := ToLower(Trim(raw));
    if q == [] then []
    else if StartsWith(q, "/t ") then TaskHits(ts, q[3..], true)
    else if StartsWith(q, "/p ") then ProjectHits(ps, q[3..], true)
    else Take(ProjectHits(ps, q, false) + TaskHits(ts, q, false), GeneralCap)
  }

  /** A '/t ' query lists every matching task, uncapped, with its status. */
  lemma TaskScopeUncapped(raw: string, ts: seq<Tasks.Task>, ps: seq<Projects.Project>, k: int)
    requires var q := ToLower(Trim(raw)); StartsWith(q, "/t ") && 0 <= k < |ts| && TaskMatches(ts[k], q[3..])
    ensures TaskResult(ts[k], true) in OmniResults(raw, ts, ps)
    ensures forall i :: 0 <= i < |OmniResults(raw, ts, ps)| ==> OmniResults(raw, ts, ps)[i].kind == TaskHit
  {
  }

  /** A '/p ' query lists every matching project, uncapped. */
  lemma ProjectScopeUncapped(raw: string, ts: seq<Tasks.Task>, ps: seq<Projects.Project>, k: int)
    requires var q := ToLower(Trim(raw)); StartsWith(q, "/p ") && !StartsWith(q, "/t ") && 0 <= k < |ps| && ProjectMatches(ps[k], q[3..])
    ensures ProjectResult(ps[k], true) in OmniResults(raw, ts, ps)
    ensures forall i :: 0 <= i < |OmniResults(raw, ts, ps)| ==> OmniResults(raw, ts, ps)[i].kind == ProjectHit
  {
  }

  /** Any other query: the first ten of the project hits followed by the
      task hits, so at most ten results, projects before tasks, each title
      containing the query. */
  lemma GeneralShape(raw: string, ts: seq<Tasks.Task>, ps: seq<Projects.Project>)
    requires var q := ToLower(Trim(raw)); q != [] && !StartsWith(q, "/t ") && !StartsWith(q, "/p ")
    ensures var r := OmniResults(raw, ts, ps); var q := ToLower(Trim(raw));
      && r == Take(ProjectHits(ps, q, false) + TaskHits(ts, q, false), GeneralCap)
      && |r| <= GeneralCap
      && (forall i, j :: 0 <= i < j < |r| && r[i].kind == TaskHit ==> r[j].kind == TaskHit)
      && (forall i :: 0 <= i < |r| ==> Contains(ToLower(r[i].title), q))
  {
    var q := ToLower(Trim(raw));
    var hp := ProjectHits(ps, q, false);
    var ht := TaskHits(ts, q, false);
    var all := hp + ht;
    var r := OmniResults(raw, ts, ps);
    assert r == all[..|r|];
    forall i | 0 <= i < |r| ensures Contains(ToLower(r[i].title), q) && (r[i].kind == TaskHit <==> i >= |hp|) {
      if i < |hp| {
        assert r[i] == hp[i];
      } else {
        assert r[i] == ht[i - |hp|];
      }
    }
  }

  /** With at most ten matches in all, a general query lists every one. */
  lemma GeneralComplete(raw: string, ts: seq<Tasks.Task>, ps: seq<Projects.Project>)
    requires var q := ToLower(Trim(raw)); q != [] && !StartsWith(q, "/t ") && !StartsWith(q, "/p ")
    requires var q := ToLower(Trim(raw)); |ProjectHits(ps, q, false)| + |TaskHits(ts, q, false)| <= GeneralCap
    ensures var q := ToLower(Trim(raw)); var r := OmniResults(raw, ts, ps);
      && r == ProjectHits(ps, q, false) + TaskHits(ts, q, false)
      && (forall k :: 0 <= k < |ps| && ProjectMatches(ps[k], q) ==> ProjectResult(ps[k], false) in r)
      && (forall k :: 0 <= k < |ts| && TaskMatches(ts[k], q) ==> TaskResult(ts[k], false) in r)
  {
  }

  /** The id lookup never shows: every result's title contains the search
      text, so an item found only by its id is not listed. */
  lemma NoIdOnlyResults(raw: string, ts: seq<Tasks.Task>, ps: seq<Projects.Project>, k: int)
    requires 0 <= k < |ts| && !TaskMatches(ts[k], ToLower(Trim(raw)))
    requires var q := ToLower(Trim(raw)); !StartsWith(q, "/t ") && !StartsWith(q, "/p ")
    ensures forall i :: 0 <= i < |OmniResults(raw, ts, ps)| ==> OmniResults(raw, ts, ps)[i] != TaskResult(ts[k], false)
  {
    var q := ToLower(Trim(raw));
    if q != [] {
      GeneralShape(raw, ts, ps);
    }
  }

  class OmniSearchStore {
    var query: string
    var results: seq<OmniResult>
    var isOpen: bool

    constructor ()
      ensures query == "" && results == [] && !isOpen
    {
      query, results, isOpen := "", [], false;
    }

    method SetQuery(q: string)
      modifies this
      ensures query == q && results == old(results) && isOpen == old(isOpen)
    {
      query := q;
    }

    method ToggleSearch(open: Option<bool>)
      modifies this
      ensures isOpen == if open.Some? then open.value else !old(isOpen)
      ensures query == old(query) && results == old(results)
    {
      isOpen := if open.Some? then open.value else !isOpen;
    }

    /** `performSearch` over the current task and project lists. The id
        lookup pushes up to two entries, which every branch then replaces. */
    method PerformSearch(tasks: seq<Tasks.Task>, projects: seq<Projects.Project>) returns (idHits: seq<OmniResult>)
      modifies this
      ensures results == OmniResults(old(query), tasks, projects)
      ensures query == old(query) && isOpen == old(isOpen)
      ensures |idHits| <= 2
    {
      var q := ToLower(Trim(query));
      if q == [] {
        results := [];
        return [];
      }
      var found: seq<OmniResult> := [];
      var idMatchTask := FindFirstTask(tasks, q);
      var idMatchProject := FindFirstProject(projects, q);
      if idMatchTask.Some? {
        var t := idMatchTask.value;
        found := found + [OmniResult(t.id, TaskHit, t.title, "ID: " + t.id)];
      }
      if idMatchProject.Some? {
        var p := idMatchProject.value;
        found := found + [OmniResult(p.id, ProjectHit, p.name, "ID: " + p.technicalId)];
      }
      idHits := found;
      if StartsWith(q, "/t ") {
        found := TaskHits(tasks, q[3..], true);
      } else if StartsWith(q, "/p ") {
        found := ProjectHits(projects, q[3..], true);
      } else {
        found := Take(ProjectHits(projects, q, false) + TaskHits(tasks, q, false), GeneralCap);
      }
      results := found;
    }
  }

  /** `tasks.find(...)` for the id lookup. */
  function FindFirstTask(ts: seq<Tasks.Task>, q: string): (r: Option<Tasks.Task>)
    ensures r.Some? <==> exists k :: 0 <= k < |ts| && TaskIdMatches(ts[k], q)
    ensures r.Some? ==> r.value in ts && TaskIdMatches(r.value, q)
  {
    if ts == [] then None
    else if TaskIdMatches(ts[0], q) then Some(ts[0])
    else
      assert forall k :: 1 <= k < |ts| ==> ts[k] == ts[1..][k - 1];
      FindFirstTask(ts[1..], q)
  }

  function FindFirstProject(ps: seq<Projects.Project>, q: string): (r: Option<Projects.Project>)
    ensures r.Some? <==> exists k :: 0 <= k < |ps| && ProjectIdMatches(ps[k], q)
    ensures r.Some? ==> r.value in ps && ProjectIdMatches(r.value, q)
  {
    if ps == [] then None
    else if ProjectIdMatches(ps[0], q) then Some(ps[0])
    else
      assert forall k :: 1 <= k < |ps| ==> ps[k] == ps[1..][k - 1];
      FindFirstProject(ps[1..], q)
  }

  /** `find` returns the first task whose id matches. */
  lemma {:induction false} FindFirstTaskIsFirst(ts: seq<Tasks.Task>, q: string, i: int)
    requires 0 <= i < |ts| && TaskIdMatches(ts[i], q)
    requires forall j :: 0 <= j < i ==> !TaskIdMatches(ts[j], q)
    ensures FindFirstTask(ts, q) == Some(ts[i])
  {
    if i > 0 {
      assert !TaskIdMatches(ts[0], q);
      assert ts[1..][i - 1] == ts[i];
      forall j | 0 <= j < i - 1 ensures !TaskIdMatches(ts[1..][j], q) {
        assert ts[1..][j] == ts[j + 1];
      }
      FindFirstTaskIsFirst(ts[1..], q, i - 1);
    }
  }

  /** `find` returns the first project whose id or code matches. */
  lemma {:induction false} FindFirstProjectIsFirst(ps: seq<Projects.Project>, q: string, i: int)
    requires 0 <= i < |ps| && ProjectIdMatches(ps[i], q)
    requires forall j :: 0 <= j < i ==> !ProjectIdMatches(ps[j], q)
    ensures FindFirstProject(ps, q) == Some(ps[i])
  {
    if i > 0 {
      assert !ProjectIdMatches(ps[0], q);
      assert ps[1..][i - 1] == ps[i];
      forall j | 0 <= j < i - 1 ensures !ProjectIdMatches(ps[1..][j], q) {
        assert ps[1..][j] == ps[j + 1];
      }
      FindFirstProjectIsFirst(ps[1..], q, i - 1);
    }
  }
}
