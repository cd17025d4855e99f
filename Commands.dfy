/** The keyboard command engine (src/lib/commands.ts): a key press, with
    its modifier flags, issues commands, and each command names the route
    the router is sent to. The listener registration, the console line and
    the confirmation sound are not modelled. */
module Commands {
  import opened Common

  const GlobalSearch := "INITIALIZE_GLOBAL_SEARCH"
  const NeuralEntry := "CREATE_NEURAL_ENTRY"
  const NewTask := "NEW_TASK_INITIALIZATION"
  const ProjectDashboard := "OPEN_PROJECT_DASHBOARD"
  const SystemConfig := "SYSTEM_CONFIG_OPEN"
  const AbortModule := "ABORT_ACTIVE_MODULE"

  /** A key press: `e.key`, `e.metaKey` and `e.ctrlKey`. */
  datatype KeyPress = KeyPress(key: string, meta: bool, ctrl: bool)

  /** The command a shortcut key stands for while meta or ctrl is held. */
  function ShortcutCommand(key: string): (r: Option<string>)
    ensures r.Some? <==> key in {"k", "n", "t", "p", ","}
  {
    if key == "k" then Some(GlobalSearch)
    else if key == "n" then Some(NeuralEntry)
    else if key == "t" then Some(NewTask)
    else if key == "p" then Some(ProjectDashboard)
    else if key == "," then Some(SystemConfig)
    else None
  }

  /** The commands one key press executes, in order: the shortcut (keys
      compared in lower case), then the abort on Escape. */
  function KeyCommands(e: KeyPress): (r: seq<string>)
    ensures |r| <= 1
    ensures e.key == "Escape" ==> r == [AbortModule]
    ensures !(e.meta || e.ctrl) && e.key != "Escape" ==> r == []
  {
    var shortcut := if e.meta || e.ctrl then ShortcutCommand(ToLower(e.key)) else None;
    var first := if shortcut.Some? then [shortcut.value] else [];
    assert e.key == "Escape" ==> ToLower(e.key) == "escape";
    first + (if e.key == "Escape" then [AbortModule] else [])
  }

  /** Where `execute` sends the router; `None` for an unknown command. */
  function Route(commandId: string): (r: Option<string>)
    ensures r.Some? <==> commandId in {GlobalSearch, NeuralEntry, NewTask, ProjectDashboard, SystemConfig, AbortModule}
  {
    if commandId == GlobalSearch then Some("/search")
    else if commandId == NeuralEntry then Some("/notes")
    else if commandId == NewTask then Some("/tasks")
    else if commandId == ProjectDashboard then Some("/projects")
    else if commandId == SystemConfig then Some("/settings")
    else if commandId == AbortModule then Some("/")
    else None
  }

  /** The routes one key press navigates to. */
  function KeyRoutes(e: KeyPress): (r: seq<string>)
    ensures |r| == |KeyCommands(e)|
    ensures forall k :: 0 <= k < |r| ==> Route(KeyCommands(e)[k]) == Some(r[k])
  {
    var cs := KeyCommands(e);
    if cs == [] then [] else [Route(cs[0]).value]
  }

  /** The shortcut table: with meta or ctrl held, in either letter case. */
  lemma ShortcutRoutes(key: string, meta: bool, ctrl: bool)
    requires meta || ctrl
    ensures ToLower(key) == "k" ==> KeyRoutes(KeyPress(key, meta, ctrl)) == ["/search"]
    ensures ToLower(key) == "n" ==> KeyRoutes(KeyPress(key, meta, ctrl)) == ["/notes"]
    ensures ToLower(key) == "t" ==> KeyRoutes(KeyPress(key, meta, ctrl)) == ["/tasks"]
    ensures ToLower(key) == "p" ==> KeyRoutes(KeyPress(key, meta, ctrl)) == ["/projects"]
    ensures ToLower(key) == "," ==> KeyRoutes(KeyPress(key, meta, ctrl)) == ["/settings"]
  {
    if ToLower(key) in {"k", "n", "t", "p", ","} {
      assert key != "Escape";
    }
  }

  /** Ctrl+'K' and Ctrl+'k' do the same. */
  lemma CaseInsensitive()
    ensures KeyCommands(KeyPress("K", false, true)) == KeyCommands(KeyPress("k", false, true)) == [GlobalSearch]
  {
    assert ToLower("K") == "k";
  }

  /** Escape goes home whatever modifiers are held. */
  lemma EscapeGoesHome(meta: bool, ctrl: bool)
    ensures KeyRoutes(KeyPress("Escape", meta, ctrl)) == ["/"]
  {
  }
}
