# arkan-core client stores, modelled in Dafny

arkan-core is a "tactical" productivity dashboard written in TypeScript.
It has tasks on a kanban board, notes with a focus editor, projects, timers
and a metronome, a command palette, a calendar, a logistics list, an
archive and a system log. Its state lives in Zustand stores. Each store is
a record of fields plus actions that replace some of those fields, usually
after a call to the Supabase backend. This project models those stores and
the pure rules around them:

- **Stores are classes.** Each store is a Dafny `class` with the store's
  fields. Every action is a `method` whose `modifies` clause names the
  store and whose `ensures` gives the whole new state.
- **Rules are functions.** Pure rules (the task comparator, the payload
  key mappings, the Markdown line renderer, the key-to-route table, the
  escalation predicate) are functions. Lemmas state what the source
  promises of them.

The outside world becomes parameters:

- **Backend calls.** A call's answer is a `Remote<T>` (`Ok(row)` or
  `Err(message)`) or an `Outcome` (`Pass` or `Fail(message)`).
- **Clock.** `Date.now()` is a `now` parameter, and `toLocaleTimeString()`
  is an opaque `clock` string.
- **Random ids.** `Math.random().toString(36)` is the string of base-36
  `digits` after the leading "0.".
- **Delayed steps.** A `setTimeout` continuation is its own method, called
  after the first one (`FinishCompleteWithDelay`, `FinishEntropy`,
  `FetchSettled`).

Modules (one per source file, plus two shared ones):

| module | models |
|---|---|
| `Common` | JS helpers: `Option`, `Remote`/`Outcome`, truthiness, `trim`, ASCII case mapping, `includes`, `filter`/`map`/`find` by key, decimal printing |
| `Sorting` | a stable insertion sort by two keys: the semantics of `Array.prototype.sort` with a comparator |
| `Chronos` | timers and metronome (`useChronosStore.ts`) |
| `Tasks` | task store and task ordering (`useTaskStore.ts`, `types.ts`) |
| `Notes` | note store with optimistic updates and the focus session (`useNoteStore.ts`) |
| `Projects` | project store (`useProjectStore.ts`) |
| `Search` | command-palette search with an edit distance (`useSearchStore.ts`) |
| `OmniSearch` | quick search over tasks and projects (`useOmniSearchStore.ts`) |
| `Markdown` | per-line Markdown classifier and renderer (`MarkdownAST.ts`) |
| `FileIndex` | path tree index (`useFileIndex.ts`) |
| `Logistics`, `Calendar`, `Archive`, `SystemLog` | the small list stores |
| `Escalation` | the stale high-priority task check (`usePriorityEscalation.ts`) |
| `Operations`, `OperationsModal` | the operations wizard store and dialog |
| `Kanban` | the board's drag and drop (`board.tsx`) |
| `Commands` | keyboard shortcuts and command routes (`commands.ts`) |

Observations the contracts make explicit:

- The quick search's id lookup is computed and then always overwritten, so
  an id-only match never reaches the results (`OmniSearch.NoIdOnlyResults`).
- The command-palette search keeps every unmatched, unarchived node with
  score 0 (`Search.UnarchivedKept`).
- `deManifestItem` removes from the item list, not from the manifest
  (`Logistics.LogisticsStore.DeManifestItem`).
- The in-progress branch of the escalation check does nothing
  (`Escalation.CheckEscalation`).
- The technical id and the priority tag that the operations dialog builds
  are not among the columns the project store sends
  (`OperationsModal.ConfirmPayload`).

## Model

| member | source | states |
|---|---|---|
| Common.Trim | src/store/useSearchStore.ts:53 | `trim()` gives a slice of its input with blank text on both sides and no whitespace at either end; empty iff the input was blank |
| Common.TrimSlice | src/store/useSearchStore.ts:53 | stripping the start and then the end leaves a slice `s[i..j]` with only whitespace before i and after j |
| Common.TrimEmptyIff | src/store/useOmniSearchStore.ts:32-33 | a trimmed string is empty iff it was all whitespace, so a blank query is treated as empty |
| Common.FilterOut | src/store/useCalendarStore.ts:49 | `filter(x => x.id !== id)` keeps exactly the elements with another key; with no match the list is unchanged |
| Common.FilterOutIdempotent | src/store/useCalendarStore.ts:49 | filtering the same id twice is filtering once |
| Common.FilterOutAppend | src/store/useArchiveStore.ts:48 | the filter keeps the order of what it keeps: it distributes over concatenation |
| Common.MapMatching | src/store/useLogisticsStore.ts:67-71 | `map(x => x.id === id ? f(x) : x)` keeps the length, applies `f` to each match and leaves the rest |
| Common.FindBy | src/components/kanban/board.tsx:32 | `find` returns an element iff one has the key; the element it returns is the first with the key |
| Common.NonEmptyAppend | src/store/useFileIndex.ts:32 | `filter(Boolean)` distributes over concatenation, so the kept strings stay in order |
| Common.NonEmptySingle | src/store/useFileIndex.ts:32 | one string is kept iff it is non-empty |
| Common.NonEmptyConcat | src/store/useFileIndex.ts:32 | `filter(Boolean)` drops no characters: the kept strings concatenate to the same text |
| Common.NatToStringValue | src/components/dashboard/OperationsModals.tsx:71 | the decimal text of a number reads back as that number |
| Sorting.SortBy | src/store/useTaskStore.ts:27-34 | `[...tasks].sort(cmp)` is a permutation of its input; ordered and stable by Sorting.SortByOrdered and Sorting.SortByStable |
| Sorting.InsertOrdered | src/store/useTaskStore.ts:27-34 | inserting into an ordered list keeps it ordered and adds exactly that element |
| Sorting.SortByOrdered | src/store/useTaskStore.ts:27-34 | the sort's result is ordered and a permutation of its input |
| Sorting.SortByStable | src/store/useTaskStore.ts:27-34 | elements with equal keys keep their relative order |
| Sorting.SortByOrderedIdentity | src/store/useTaskStore.ts:27-34 | sorting an already ordered list changes nothing |
| Sorting.SortByIdempotent | src/store/useTaskStore.ts:27-34 | sorting twice is sorting once |
| Sorting.TakeOrdered | src/store/useSearchStore.ts:112-113 | a prefix of an ordered list is ordered |
| Sorting.FilterOutOrdered | src/store/useTaskStore.ts:162-178 | removing elements from an ordered list keeps it ordered |
| Chronos.TickAll | src/store/useChronosStore.ts:145-159 | a tick keeps the set of timer ids |
| Chronos.ClampBpm | src/store/useChronosStore.ts:179 | the stored tempo is the rounded value, clamped into 30..300, with each of the three cases stated |
| Chronos.StartThenPause | src/store/useChronosStore.ts:103-120 | started at t0 with R left and paused at t0+d, a timer is paused with `max(0, R-d)` left and no end time |
| Chronos.PauseResumeIgnoresGap | src/store/useChronosStore.ts:96-127 | time spent paused does not count: run d1, pause, wait, run d2, pause leaves `max(0, max(0, R-d1)-d2)` |
| Chronos.TickKeepsDeadline | src/store/useChronosStore.ts:148-156 | a tick before the deadline stores `endTime - now` as the time left and keeps the timer running to the same end time, so pausing later gives the same result |
| Chronos.TickCompletes | src/store/useChronosStore.ts:150-153 | a tick at or past the end time completes the timer with 0 left and no end time |
| Chronos.TickLeavesOthers | src/store/useChronosStore.ts:148 | a tick leaves a timer that is not running with an end time unchanged |
| Chronos.TickIndependent | src/store/useChronosStore.ts:147-159 | each timer ticks independently of the others |
| Chronos.PomodoroExample | src/store/useChronosStore.ts:103-120 | a 25-minute timer paused 90 s after its start has 1,410,000 ms left |
| Chronos.ChronosStore.constructor | src/store/useChronosStore.ts:47-54 | no timers, no active timer, metronome off at 120 BPM in 4/4 with volume 0.8 |
| Chronos.ChronosStore.InitializeTimer | src/store/useChronosStore.ts:57-73 | creates or overwrites the timer: idle, `minutes*60000` ms, no end time; the active id is set only when it was falsy |
| Chronos.ChronosStore.AdjustMainTimer | src/store/useChronosStore.ts:76-92 | resets the active timer to idle with the new duration; without a valid active id nothing changes |
| Chronos.ChronosStore.StartTimer | src/store/useChronosStore.ts:96-111 | an existing timer runs with end time `now + remainingMs`; an unknown id changes nothing |
| Chronos.ChronosStore.PauseTimer | src/store/useChronosStore.ts:115-127 | only a running timer with a truthy end time is paused, with `max(0, endTime-now)` left |
| Chronos.ChronosStore.ResetTimer | src/store/useChronosStore.ts:130-139 | an existing timer is idle again with its full duration; an unknown id changes nothing |
| Chronos.ChronosStore.Tick | src/store/useChronosStore.ts:141-161 | the timers become `TickAll` of the old ones; the update flag is set iff some timer was running with an end time |
| Chronos.ChronosStore.SetMainDisplay | src/store/useChronosStore.ts:164 | only the active id changes |
| Chronos.ChronosStore.ToggleMetronome | src/store/useChronosStore.ts:167-175 | only the metronome's `active` flag flips |
| Chronos.ChronosStore.SetBpm | src/store/useChronosStore.ts:177-186 | the tempo becomes the clamped value and is reported as written only when it differs |
| Chronos.ChronosStore.AdjustBpm | src/store/useChronosStore.ts:188-192 | adjusting by d is setting `bpm + d` |
| Chronos.ChronosStore.SetSignature | src/store/useChronosStore.ts:194-200 | only the time signature changes |
| Chronos.ChronosStore.Persisted | src/store/useChronosStore.ts:209-213 | the stored state has the timers, the active id and the metronome, always inactive |
| Chronos.PomodoroScenario | src/store/useChronosStore.ts:57-127 | initialise, start and pause a 25-minute timer through the store: 1,410,000 ms remain |
| Tasks.StatusOf | src/lib/types.ts:2 | a text is a status iff it is 'todo', 'in-progress' or 'completed', and the status prints back as that text |
| Tasks.PriorityRank | src/store/useTaskStore.ts:20-25 | critical 0, high 1, medium 2, low 3 |
| Tasks.SortTasks | src/store/useTaskStore.ts:27-34 | the result is ordered by rank, then newest first, and is a permutation of the input |
| Tasks.OrderedByRankThenNewest | src/store/useTaskStore.ts:29-32 | in an ordered list a lower rank comes first, and within one priority a later `createdAt` (missing is 0) comes first |
| Tasks.SortTasksStable | src/store/useTaskStore.ts:28 | tasks with equal priority and creation time keep their order |
| Tasks.SortTasksOrderedIdentity | src/store/useTaskStore.ts:27-34 | sorting ordered tasks changes nothing |
| Tasks.AddedCriticalLeads | src/store/useTaskStore.ts:113-116 | after adding a critical task it comes before every task that is not critical |
| Tasks.FromRow | src/store/useTaskStore.ts:58-70 | a fetched row becomes a task with visibility defaulting to true and tags to [] |
| Tasks.FromRows | src/store/useTaskStore.ts:58-70 | every row is mapped, in order |
| Tasks.Merge | src/store/useTaskStore.ts:151 | `{ ...t, ...updates }`: each field the patch holds replaces the task's, the others are kept; used by Tasks.PatchMatching |
| Tasks.UpdatePayload | src/store/useTaskStore.ts:125-138 | the body sent by `updateTask`; stated by Tasks.UpdatePayloadProject, Tasks.UpdatePayloadDates and Tasks.UpdatePayloadPassThrough |
| Tasks.PatchMatching | src/store/useTaskStore.ts:149-153 | each task with the id is merged with the patch, the rest are unchanged |
| Tasks.UpdatePayloadProject | src/store/useTaskStore.ts:127-130 | `project_id` is sent iff the project id is truthy; an empty one stays under `projectId` |
| Tasks.UpdatePayloadDates | src/store/useTaskStore.ts:131-138 | `due_date` is sent as an ISO date and `is_visible` when defined, and the camel-case keys are dropped |
| Tasks.UpdatePayloadPassThrough | src/store/useTaskStore.ts:125 | every other key passes through unchanged |
| Tasks.PatchFieldsKeys | src/store/useTaskStore.ts:125 | the copied patch holds exactly the defined fields under their own names |
| Tasks.InsertPayload | src/store/useTaskStore.ts:83-92 | an inserted task is always visible; `project_id` and `due_date` are sent iff given |
| Tasks.TaskStore.constructor | src/store/useTaskStore.ts:37-40 | no tasks, not loading, no error, no blooming task |
| Tasks.TaskStore.FetchTasks | src/store/useTaskStore.ts:42-76 | success replaces the tasks by the sorted mapped rows and clears the error; failure keeps them and sets the error |
| Tasks.TaskStore.AddTask | src/store/useTaskStore.ts:78-121 | success gives `sortTasks([newTask, ...tasks])`; failure keeps the tasks and sets the error |
| Tasks.TaskStore.UpdateTask | src/store/useTaskStore.ts:123-160 | the mapped payload is sent; the tasks change only after success, to the sorted merge |
| Tasks.TaskStore.DeleteTask | src/store/useTaskStore.ts:162-180 | success removes every task with the id (an absent id changes nothing); failure keeps them |
| Tasks.TaskStore.BeginCompleteWithDelay | src/store/useTaskStore.ts:182-184 | only the blooming id is set |
| Tasks.TaskStore.FinishCompleteWithDelay | src/store/useTaskStore.ts:186-190 | the task is updated to completed and hidden, then the blooming id is cleared |
| Tasks.AddCriticalScenario | src/store/useTaskStore.ts:113-116 | through the store, a new critical task ends up first |
| Notes.FromRow | src/store/useNoteStore.ts:61-70 | a fetched row becomes a note with content defaulting to "" and tags to [] |
| Notes.FromRows | src/store/useNoteStore.ts:61-70 | every row is mapped, in order |
| Notes.InsertPayload | src/store/useNoteStore.ts:82-89 | the insert sends the content, `is_favorite` (default false) and the tags (default []) |
| Notes.Merge | src/store/useNoteStore.ts:123 | `{ ...n, ...updates }`: each field the patch holds replaces the note's, the others are kept; used by Notes.PatchMatching |
| Notes.UpdatePayload | src/store/useNoteStore.ts:127-140 | the body sent by `updateNote`; stated by Notes.UpdatePayloadKeys |
| Notes.PatchMatching | src/store/useNoteStore.ts:122-124 | each note with the id is merged with the patch, the rest are unchanged |
| Notes.UpdatePayloadKeys | src/store/useNoteStore.ts:127-140 | `folder_id`, `is_favorite` and `project_id` are sent iff defined, and their camel-case keys are dropped |
| Notes.SplitSpaces | src/store/useNoteStore.ts:183 | `split(/\s+/)` gives at least one piece and no piece holds whitespace; Notes.SplitSpacesRejoin ties the pieces back to the text |
| Notes.Words | src/store/useNoteStore.ts:183 | the counted tokens are non-empty and hold no whitespace; Notes.WordsOfJoin gives the exact tokens of any text |
| Notes.BlankHasNoWords | src/store/useNoteStore.ts:183 | blank content has no words |
| Notes.TrimStartBlank | src/store/useNoteStore.ts:183 | stripping the start of blank text followed by a word leaves the word's text |
| Notes.TrimEndBlank | src/store/useNoteStore.ts:183 | stripping the end of text ending in a non-space followed by blank text leaves the text |
| Notes.SplitAtSeparator | src/store/useNoteStore.ts:183 | a word, a run of whitespace and the rest split into the word followed by the rest's pieces |
| Notes.SplitJoin | src/store/useNoteStore.ts:183 | splitting words joined by any non-empty runs of whitespace gives back the words |
| Notes.WordsOfJoin | src/store/useNoteStore.ts:183 | words between any runs of whitespace, with blank margins, are exactly the tokens, so n words count as n |
| Notes.WordsExample | src/store/useNoteStore.ts:183 | a text of a space, `a`, two newlines, two spaces, `b` and a tab has the words `a` and `b` |
| Notes.SplitSpacesRejoin | src/store/useNoteStore.ts:183 | the text is its pieces with a non-empty run of whitespace between each two, so only whitespace is lost |
| Notes.NoteStore.constructor | src/store/useNoteStore.ts:38-49 | empty store with a fresh session targeting 1500 words |
| Notes.NoteStore.Persisted | src/store/useNoteStore.ts:250 | only the buffer and the active note are stored |
| Notes.NoteStore.FetchNotes | src/store/useNoteStore.ts:51-75 | success replaces the notes by the mapped rows; failure keeps them and sets the error |
| Notes.NoteStore.AddNote | src/store/useNoteStore.ts:77-117 | success prepends the note and makes it the active note and the buffer; failure sets the error |
| Notes.NoteStore.BeginUpdateNote | src/store/useNoteStore.ts:119-124 | the snapshot is the old list and the patch is applied before the call |
| Notes.NoteStore.FinishWithSnapshot | src/store/useNoteStore.ts:147-170 | success keeps the optimistic list; failure restores the snapshot exactly and sets the error |
| Notes.NoteStore.UpdateNote | src/store/useNoteStore.ts:119-153 | after the call the notes are the merge on success and exactly the old list on failure |
| Notes.NoteStore.BeginDeleteNote | src/store/useNoteStore.ts:155-159 | the snapshot is the old list and the id is filtered out before the call |
| Notes.NoteStore.DeleteNote | src/store/useNoteStore.ts:155-172 | success removes the id, failure restores the list, and an absent id changes nothing |
| Notes.NoteStore.SetNote | src/store/useNoteStore.ts:174-180 | the note becomes active, its content the buffer, and the word count is recomputed |
| Notes.NoteStore.UpdateBuffer | src/store/useNoteStore.ts:182-189 | buffer, word count and character count follow the content; the other session fields stay |
| Notes.NoteStore.BeginSync | src/store/useNoteStore.ts:191-195 | the buffer is sent iff there is an active note and no sync is running |
| Notes.NoteStore.FinishSync | src/store/useNoteStore.ts:196-210 | after success or failure no sync is running and notes and buffer are untouched |
| Notes.NoteStore.UpdateSession | src/store/useNoteStore.ts:213-215 | the given session fields are replaced, the others kept |
| Notes.NoteStore.ResetSession | src/store/useNoteStore.ts:217-224 | a new session at `now` with target 1500 and zero counts |
| Notes.SyncGuardScenario | src/store/useNoteStore.ts:191-211 | a second sync while one runs sends nothing; after it settles a new sync sends the buffer |
| Notes.RollbackScenario | src/store/useNoteStore.ts:119-153 | a failed update shows the patch during the call and the original notes after it |
| Projects.FromRow | src/store/useProjectStore.ts:36-47 | a row becomes a project with the given default technical id, task counts 0, tags [] and `color_accent` as colour |
| Projects.FromRows | src/store/useProjectStore.ts:36-47 | every fetched row is mapped with default 'PROJ-000', in order |
| Projects.FetchedDefaults | src/store/useProjectStore.ts:38-45 | a bare row gets 'PROJ-000', zero counts and no tags |
| Projects.InsertPayload | src/store/useProjectStore.ts:61-69 | only name, description, status, progress and `color_accent` are sent; the colour iff given |
| Projects.Merge | src/store/useProjectStore.ts:113 | `{ ...p, ...updates }`: each field the patch holds replaces the project's, the others are kept; used by Projects.PatchMatching |
| Projects.UpdatePayload | src/store/useProjectStore.ts:99-103 | the body sent by `updateProject`; stated by Projects.UpdatePayloadColor |
| Projects.PatchMatching | src/store/useProjectStore.ts:113 | each project with the id is merged with the patch, the rest are unchanged |
| Projects.UpdatePayloadColor | src/store/useProjectStore.ts:99-103 | `color` is renamed `color_accent` iff truthy; every other key passes through |
| Projects.ProjectStore.constructor | src/store/useProjectStore.ts:21-24 | no projects, no selection, not loading, no error |
| Projects.ProjectStore.FetchProjects | src/store/useProjectStore.ts:26-54 | success replaces the projects by the mapped rows; failure keeps them, sets the error and stops loading |
| Projects.ProjectStore.AddProject | src/store/useProjectStore.ts:56-94 | success prepends the new project (default id 'PROJ-NEW'); failure keeps the list and sets the error |
| Projects.ProjectStore.UpdateProject | src/store/useProjectStore.ts:96-121 | the projects change only after success, to the merge |
| Projects.ProjectStore.DeleteProject | src/store/useProjectStore.ts:123-142 | success removes the id (an absent id changes nothing); failure keeps the list |
| Projects.ProjectStore.SetSelectedProjectId | src/store/useProjectStore.ts:144 | only the selection changes |
| Search.FillRow | src/store/useSearchStore.ts:31-38 | one pass of the inner loop fills a matrix row with the edit distances and touches no other row |
| Search.EditDistance | src/store/useSearchStore.ts:26-41 | the distance to or from "" is the other string's length; symmetry, identity and bounds are Search.EditDistanceSelf, Search.EditDistanceSymmetric and Search.EditDistanceBounds |
| Search.Levenshtein | src/store/useSearchStore.ts:26-41 | the matrix computation returns the edit distance defined by the min(delete, insert, substitute) recurrence |
| Search.EditDistanceEmpty | src/store/useSearchStore.ts:27-28 | the distance to or from "" is the other string's length |
| Search.LevSelf | src/store/useSearchStore.ts:30-38 | every prefix of a string is at distance 0 from itself |
| Search.EditDistanceSelf | src/store/useSearchStore.ts:26-41 | `distance(a, a) = 0` |
| Search.LevSymmetric | src/store/useSearchStore.ts:30-38 | the recurrence is symmetric in the two prefixes |
| Search.EditDistanceSymmetric | src/store/useSearchStore.ts:26-41 | `distance(a, b) = distance(b, a)` |
| Search.LevUpper | src/store/useSearchStore.ts:30-38 | a prefix distance is at most the longer prefix length |
| Search.LevLower | src/store/useSearchStore.ts:30-38 | a prefix distance is at least the difference of the lengths |
| Search.EditDistanceBounds | src/store/useSearchStore.ts:26-41 | `\|\|a\|-\|b\|\| <= distance(a, b) <= max(\|a\|, \|b\|)` |
| Search.SpaceIndex | src/store/useSearchStore.ts:81 | the position of the first space, if there is one |
| Search.FirstWord | src/store/useSearchStore.ts:81-82 | `split(' ')[0]` is a prefix without spaces |
| Search.AfterFirstWord | src/store/useSearchStore.ts:81-83 | `slice(1).join(' ')` is what follows the first space, or "" |
| Search.Normalize | src/store/useSearchStore.ts:53-54 | the trimmed, lowercased query is empty iff the input was blank |
| Search.Parse | src/store/useSearchStore.ts:77-90 | `/t`, `/n` and `/p` narrow the type, any other `/` word keeps all types, and both drop the first word; `>` searches commands with the whole query |
| Search.BaseScore | src/store/useSearchStore.ts:96-104 | the unpenalised score is one of 100, 50, 20 or 0 |
| Search.Score | src/store/useSearchStore.ts:96-109 | 0..100 for an unarchived node, -30..70 for an archived one; each level is Search.ScoreLevels |
| Search.ScoreLevels | src/store/useSearchStore.ts:96-109 | each level: exact title 100, substring 50, close prefix of a query longer than 2 gives 20, otherwise 0, each less 30 when archived; bounds 0..100 or -30..70 |
| Search.ScoreArchivedPenalty | src/store/useSearchStore.ts:107-108 | archiving a node lowers its score by exactly 30 and leaves the title's level alone |
| Search.RankedScores | src/store/useSearchStore.ts:93-112 | every ranked node carries the score of its own title and archive flag |
| Search.Ranked | src/store/useSearchStore.ts:93-112 | scored, filtered and sorted; Search.RankedScores, Search.TopShape and Search.UnarchivedKept state its contents |
| Search.ArchivedRanksLater | src/store/useSearchStore.ts:107-112 | an archived node is ranked after every unarchived node whose title scores at least as well |
| Search.PenaltyOrders | src/store/useSearchStore.ts:107-112 | in a list sorted by descending score, the penalty puts such an archived node behind |
| Search.Scored | src/store/useSearchStore.ts:93-110 | the nodes of the searched types and no others, each with its score |
| Search.ScoredAppend | src/store/useSearchStore.ts:93-110 | scoring distributes over concatenation, so the input order and multiplicity are kept |
| Search.ScoredSingle | src/store/useSearchStore.ts:93-110 | one node gives itself with its score iff its type is searched, else nothing |
| Search.KeepFilter | src/store/useSearchStore.ts:111 | keeps the nodes above -30 and the commands of a '>' query, and no others |
| Search.KeepFilterAppend | src/store/useSearchStore.ts:111 | the filter distributes over concatenation, so order and multiplicity are kept |
| Search.KeepFilterSingle | src/store/useSearchStore.ts:111 | one node is kept iff it passes the test |
| Search.ByScore | src/store/useSearchStore.ts:112 | ordered by descending score and a permutation of its input |
| Search.ByScoreStable | src/store/useSearchStore.ts:112 | the nodes of each score keep their input order (the sort is stable) |
| Search.Results | src/store/useSearchStore.ts:52-116 | a blank input gives no results; otherwise the first five ranked: at most five, best first, each a kept node of a searched type, and no ranked node left out scores higher than one shown |
| Search.TopShape | src/store/useSearchStore.ts:93-113 | the first five of the ranked list are at most five, best first, kept nodes of searched types, and none left out scores higher |
| Search.TopOfRanked | src/store/useSearchStore.ts:93-113 | the same for any scored list of searched types, filtered and sorted |
| Search.UnarchivedKept | src/store/useSearchStore.ts:111 | an unarchived node of a searched type is always ranked, even when it does not match |
| Search.CommandsKept | src/store/useSearchStore.ts:111 | under a '>' query every command node is ranked |
| Search.SearchStore.constructor | src/store/useSearchStore.ts:44-47 | empty query and results, closed, not searching |
| Search.SearchStore.SetQuery | src/store/useSearchStore.ts:49 | only the query changes |
| Search.SearchStore.ToggleSearch | src/store/useSearchStore.ts:50 | opens or closes as told, otherwise flips |
| Search.SearchStore.ExecuteSearch | src/store/useSearchStore.ts:52-116 | the results become `Results` of the input, empty for a blank one, and searching ends |
| Search.SearchStore.ClearResults | src/store/useSearchStore.ts:118 | results and query empty, search closed |
| OmniSearch.TaskHits | src/store/useOmniSearchStore.ts:52-62 | every task whose lowercased title contains the query gives its result, and every result is a task hit whose title contains the query |
| OmniSearch.TaskHitFrom | src/store/useOmniSearchStore.ts:52-62 | each hit is the result of a matching task of the list |
| OmniSearch.TaskHitsAppend | src/store/useOmniSearchStore.ts:52-62 | the hits distribute over concatenation, so the task order and multiplicity are kept |
| OmniSearch.TaskHitsSingle | src/store/useOmniSearchStore.ts:52-62 | one task gives its result iff its title matches, else nothing |
| OmniSearch.ProjectHits | src/store/useOmniSearchStore.ts:57-63 | every project whose lowercased name contains the query gives its result, and every result is a project hit whose title contains the query |
| OmniSearch.ProjectHitFrom | src/store/useOmniSearchStore.ts:57-63 | each hit is the result of a matching project of the list |
| OmniSearch.ProjectHitsAppend | src/store/useOmniSearchStore.ts:57-63 | the hits distribute over concatenation, so the project order and multiplicity are kept |
| OmniSearch.ProjectHitsSingle | src/store/useOmniSearchStore.ts:57-63 | one project gives its result iff its name matches, else nothing |
| OmniSearch.FindFirstTask | src/store/useOmniSearchStore.ts:43 | the id lookup finds a task iff some task's lowercased id contains the query |
| OmniSearch.FindFirstTaskIsFirst | src/store/useOmniSearchStore.ts:43 | the task found is the first one whose id matches |
| OmniSearch.FindFirstProject | src/store/useOmniSearchStore.ts:44 | a project is found iff its lowercased id contains the query or its technical id equals it |
| OmniSearch.FindFirstProjectIsFirst | src/store/useOmniSearchStore.ts:44 | the project found is the first one whose id or code matches |
| OmniSearch.OmniResults | src/store/useOmniSearchStore.ts:31-69 | a blank query gives no results |
| OmniSearch.TaskScopeUncapped | src/store/useOmniSearchStore.ts:50-54 | a '/t ' query lists every matching task, uncapped, with its status, and nothing else |
| OmniSearch.ProjectScopeUncapped | src/store/useOmniSearchStore.ts:55-59 | a '/p ' query lists every matching project, uncapped, and nothing else |
| OmniSearch.GeneralShape | src/store/useOmniSearchStore.ts:60-68 | any other query: the first ten of the project hits followed by the task hits, so at most ten, projects before tasks, each title containing the query |
| OmniSearch.GeneralComplete | src/store/useOmniSearchStore.ts:60-68 | with at most ten matches in all, every matching project and task is listed |
| OmniSearch.NoIdOnlyResults | src/store/useOmniSearchStore.ts:43-65 | a task whose title does not match never appears, even when its id does |
| OmniSearch.OmniSearchStore.constructor | src/store/useOmniSearchStore.ts:24-26 | empty query and results, closed |
| OmniSearch.OmniSearchStore.SetQuery | src/store/useOmniSearchStore.ts:28 | only the query changes |
| OmniSearch.OmniSearchStore.ToggleSearch | src/store/useOmniSearchStore.ts:29 | opens or closes as told, otherwise flips |
| OmniSearch.OmniSearchStore.PerformSearch | src/store/useOmniSearchStore.ts:31-72 | the results become `OmniResults` of the stored query; the id lookup yields at most two entries |
| Markdown.DigitRun | src/lib/markdown/MarkdownAST.ts:25 | the length of the leading run of digits |
| Markdown.ParseLine | src/lib/markdown/MarkdownAST.ts:13-35 | `raw` is the line; headings by '# ', '## ', '### ' drop their marker, in that order |
| Markdown.ParseLineLater | src/lib/markdown/MarkdownAST.ts:25-34 | a non-heading is a list iff it starts with digits and '.', '- ' or '* ', with the whole trimmed line as content; then quote, code and untrimmed text |
| Markdown.FourHashesIsText | src/lib/markdown/MarkdownAST.ts:16-34 | a '####' line is text, kept untrimmed |
| Markdown.CloseAt | src/lib/markdown/MarkdownAST.ts:39-40 | the lazy `(.*?)` stops at the first delimiter on the same line |
| Markdown.ReplaceAbsent | src/lib/markdown/MarkdownAST.ts:39-40 | text without the delimiter's first character is unchanged |
| Markdown.ProcessText | src/lib/markdown/MarkdownAST.ts:37-41 | bold runs first, then italic runs; stated by Markdown.ProcessPlain, Markdown.BoldRun and Markdown.ItalicRun |
| Markdown.ProcessPlain | src/lib/markdown/MarkdownAST.ts:37-41 | text without '*' is unchanged |
| Markdown.ReplaceNone | src/lib/markdown/MarkdownAST.ts:39-40 | text in which the delimiter never occurs is unchanged |
| Markdown.BoldRun | src/lib/markdown/MarkdownAST.ts:39 | `**w**` becomes a bold span around w |
| Markdown.ItalicRun | src/lib/markdown/MarkdownAST.ts:40 | `*w*` becomes an italic span around a non-empty w |
| Markdown.HalfText | src/lib/markdown/MarkdownAST.ts:50-51 | h/2 printed as JavaScript prints a half-integer |
| Markdown.IndentStyle | src/lib/markdown/MarkdownAST.ts:49-51 | no leading space gives `pl-4`; s > 0 gives a padding of s*0.5+1 rem |
| Markdown.IndentExamples | src/lib/markdown/MarkdownAST.ts:49-51 | indents of 0, 1, 2 and 4 spaces print as `pl-4`, 1.5rem, 2rem and 3rem |
| Markdown.IndentValue | src/lib/markdown/MarkdownAST.ts:50-51 | the printed integer part is s/2 + 1 |
| Markdown.ListPrefixLength | src/lib/markdown/MarkdownAST.ts:67-69 | the list marker match ends in a whitespace character |
| Markdown.CodeIsVerbatim | src/lib/markdown/MarkdownAST.ts:74-75 | a fence line shows its trimmed text without `processText` |
| Markdown.EmptyLine | src/lib/markdown/MarkdownAST.ts:76-77 | an empty line renders a paragraph holding `&nbsp;` |
| Markdown.TaskItem | src/lib/markdown/MarkdownAST.ts:62-63 | a '- [ ] ' item shows the processed text after its six-character marker |
| Markdown.ListOpacity | src/lib/markdown/MarkdownAST.ts:60-71 | every list line carries the line's opacity class |
| Markdown.RenderLine | src/lib/markdown/MarkdownAST.ts:45-78 | one line to HTML by its kind; stated by Markdown.OpacityEverywhere, Markdown.InactiveMarkersHidden, Markdown.CodeIsVerbatim, Markdown.EmptyLine, Markdown.TaskItem and Markdown.ListOpacity |
| Markdown.OpacityEverywhere | src/lib/markdown/MarkdownAST.ts:45-78 | every rendered line carries its opacity: `opacity-100` active, `opacity-40` inactive |
| Markdown.InactiveMarkersHidden | src/lib/markdown/MarkdownAST.ts:46-73 | an inactive heading or quote renders its marker with the class `hidden` |
| FileIndex.SplitSlash | src/store/useFileIndex.ts:32 | `split('/')` gives at least one piece, none holding '/'; FileIndex.SplitSlashJoin rejoins them |
| FileIndex.Segments | src/store/useFileIndex.ts:32 | the kept segments are non-empty and hold no '/'; FileIndex.SegmentsConcat ties them to the path |
| FileIndex.SplitSlashJoin | src/store/useFileIndex.ts:32 | `split('/').join('/')` is the path itself |
| FileIndex.DropSlashes | src/store/useFileIndex.ts:32 | the path with every '/' removed holds no '/' |
| FileIndex.SplitSlashConcat | src/store/useFileIndex.ts:32 | the pieces concatenate to the path with its slashes removed |
| FileIndex.SegmentsConcat | src/store/useFileIndex.ts:32 | the segments concatenate to the path with its slashes removed, so no other character is lost |
| FileIndex.SegmentsExample | src/store/useFileIndex.ts:32 | repeated and trailing slashes are dropped: "/a//b/" has segments a, b |
| FileIndex.SplitJoin | src/store/useFileIndex.ts:32-37 | splitting a '/'-joined path gives "" and the segments |
| FileIndex.SegmentsOfPath | src/store/useFileIndex.ts:32-37 | the segments of a node's cumulative path are its segments |
| FileIndex.Latin1Step | src/store/useFileIndex.ts:37-39 | `btoa` accepts the extended path iff it accepts the new segment |
| FileIndex.EntryVisitsAt | src/store/useFileIndex.ts:36-38 | walking an entry visits its cumulative prefixes in order, the last one marked if the entry is a file |
| FileIndex.VisitAppend | src/store/useFileIndex.ts:41 | a visit creates a node only for a path not seen before; the first visit decides the kind |
| FileIndex.FileNodesEndFileEntries | src/store/useFileIndex.ts:46 | a node is a file only when it is the full path of some 'file' entry |
| FileIndex.EveryPrefixVisited | src/store/useFileIndex.ts:31-37 | every segment prefix of every entry is visited |
| FileIndex.AddRoot | src/store/useFileIndex.ts:42-54 | a new root node, appended once to the roots, keeps the forest well formed |
| FileIndex.AddChildParents | src/store/useFileIndex.ts:47 | a new child names the previous segment's node as parent, and its path extends the parent's |
| FileIndex.AddChildChildren | src/store/useFileIndex.ts:51-52 | the child id is appended to its parent's children exactly once |
| FileIndex.AddChild | src/store/useFileIndex.ts:42-52 | creating a child keeps the forest well formed |
| FileIndex.RevisitCovers | src/store/useFileIndex.ts:41 | revisiting an existing path changes nothing |
| FileIndex.CreateCovers | src/store/useFileIndex.ts:41-49 | the first visit of a path creates its node, of the visit's kind |
| FileIndex.Place | src/store/useFileIndex.ts:41-56 | the body of the inner loop keeps the forest well formed and the nodes exactly the visited paths |
| FileIndex.WalkSegment | src/store/useFileIndex.ts:36-58 | one segment step: fails iff `btoa` rejects the segment, otherwise the path and previous node advance |
| FileIndex.WalkEntry | src/store/useFileIndex.ts:31-58 | walking one entry fails iff a segment is not Latin-1, otherwise it visits all its prefixes |
| FileIndex.FileIndexStore.constructor | src/store/useFileIndex.ts:22-24 | empty index, not loading |
| FileIndex.FileIndexStore.InitializeIndex | src/store/useFileIndex.ts:26-62 | rebuilds from scratch: the nodes are exactly the visited paths, of the first visit's kind, in a well-formed forest; a `btoa` failure leaves the old index with loading on |
| FileIndex.FileIndexStore.GetPathMap | src/store/useFileIndex.ts:64-71 | maps each node's path to its id, and only those |
| Logistics.Toggled | src/store/useLogisticsStore.ts:69 | PENDING becomes ACQUIRED; ACQUIRED and LOCATING become PENDING |
| Logistics.ToggleMatching | src/store/useLogisticsStore.ts:65-72 | each item with the id becomes itself with its status toggled; the others are unchanged; length and order are kept |
| Logistics.ToggleTwice | src/store/useLogisticsStore.ts:68-70 | toggling twice restores items that are PENDING or ACQUIRED |
| Logistics.FreshItemAlone | src/store/useLogisticsStore.ts:82-89 | removing an item just added under a fresh id gives back the list, and toggling it changes nothing else |
| Logistics.ResetAll | src/store/useLogisticsStore.ts:104 | every entry is un-manifested, with id, name, weight and order kept |
| Logistics.ResetIdempotent | src/store/useLogisticsStore.ts:102-106 | resetting twice is resetting once, and a clean manifest is unchanged |
| Logistics.RandomId | src/store/useLogisticsStore.ts:87 | at most n characters, the uppercased random digits |
| Logistics.ManifestId | src/store/useLogisticsStore.ts:95 | 'man-' and at most five uppercased digits |
| Logistics.LogisticsStore.constructor | src/store/useLogisticsStore.ts:49-63 | the three sectors, three items and three manifest entries |
| Logistics.LogisticsStore.ToggleItemStatus | src/store/useLogisticsStore.ts:65-74 | the items become `ToggleMatching`; the rest is untouched |
| Logistics.LogisticsStore.DeManifestItem | src/store/useLogisticsStore.ts:76-84 | every item with the id is removed; the manifest is untouched |
| Logistics.LogisticsStore.AddItem | src/store/useLogisticsStore.ts:86-92 | appends the item, PENDING, with the random id |
| Logistics.LogisticsStore.AddManifestItem | src/store/useLogisticsStore.ts:94-100 | appends an entry that is not de-manifested |
| Logistics.LogisticsStore.ResetManifest | src/store/useLogisticsStore.ts:102-106 | the manifest becomes `ResetAll` of itself |
| Calendar.EventIdFrom | src/store/useCalendarStore.ts:45 | the id is the first nine random digits |
| Calendar.FireMatching | src/store/useCalendarStore.ts:55 | events with another id are unchanged; an event with the id becomes itself with `alertFired` true and every other field kept |
| Calendar.FireIdempotent | src/store/useCalendarStore.ts:54-56 | marking an alert twice is marking it once |
| Calendar.DeleteProperties | src/store/useCalendarStore.ts:48-50 | deleting removes every event with the id, an absent id changes nothing, and deleting twice is deleting once |
| Calendar.AddThenDelete | src/store/useCalendarStore.ts:44-50 | deleting an event just added under a fresh id gives back the events |
| Calendar.CalendarStore.constructor | src/store/useCalendarStore.ts:38-40 | no events, not loading, the selected date is `Date.now()` in a browser and 0 otherwise |
| Calendar.CalendarStore.Persisted | src/store/useCalendarStore.ts:66 | only the events are stored |
| Calendar.CalendarStore.SetEvents | src/store/useCalendarStore.ts:42 | the list is replaced |
| Calendar.CalendarStore.AddEvent | src/store/useCalendarStore.ts:44-46 | appends one event with the random id; the others keep their order |
| Calendar.CalendarStore.DeleteEvent | src/store/useCalendarStore.ts:48-50 | every event with the id is removed |
| Calendar.CalendarStore.SetSelectedDate | src/store/useCalendarStore.ts:52 | only the selected date changes, so the stored state does not |
| Calendar.CalendarStore.MarkAlertFired | src/store/useCalendarStore.ts:54-56 | the events become `FireMatching` |
| Archive.RestoreRemoves | src/store/useArchiveStore.ts:48 | a record survives a restore iff its id differs |
| Archive.ArchiveStore.constructor | src/store/useArchiveStore.ts:25-35 | six records, not loading, 4092 indexed, 142 restorations |
| Archive.ArchiveStore.FetchRecords | src/store/useArchiveStore.ts:37-39 | only the loading flag is set |
| Archive.ArchiveStore.FetchSettled | src/store/useArchiveStore.ts:40 | only the loading flag is cleared |
| Archive.ArchiveStore.RestoreRecord | src/store/useArchiveStore.ts:43-51 | records with the id go, the restoration count rises by exactly one even for an absent id, and the indexed total never changes |
| SystemLog.Pushed | src/store/useSystemLogStore.ts:22-30 | the new entry first, the old ones after it, at most 50 in all |
| SystemLog.PushedKeeps | src/store/useSystemLogStore.ts:29-30 | below 50 nothing is dropped; at 50 the oldest entry goes |
| SystemLog.Entry | src/store/useSystemLogStore.ts:21-28 | the message is uppercased, the type defaults to 'system', the timestamp is the clock and the id is the first nine characters of the random text |
| SystemLog.SystemLogStore.constructor | src/store/useSystemLogStore.ts:17-20 | the two start-up entries |
| SystemLog.SystemLogStore.AddLog | src/store/useSystemLogStore.ts:21-31 | the log becomes `Pushed` of the new entry and stays within 50 |
| SystemLog.SystemLogStore.ClearLogs | src/store/useSystemLogStore.ts:32 | the log is empty |
| Escalation.LastUpdate | src/store/usePriorityEscalation.ts:15 | `updatedAt`, else `createdAt`, else 0 |
| Escalation.CheckEscalation | src/store/usePriorityEscalation.ts:10-31 | an id is flagged iff some task with it is high priority, not completed and untouched for more than a day |
| Escalation.StrictDay | src/store/usePriorityEscalation.ts:19 | exactly 24 hours is not overdue; one millisecond more is |
| Escalation.OnlyHighEscalates | src/store/usePriorityEscalation.ts:19-27 | critical, medium, low and completed tasks never escalate |
| Escalation.EscalatedAreCurrent | src/store/usePriorityEscalation.ts:12-30 | only ids of current tasks are flagged |
| Escalation.EscalationMonitor.constructor | src/store/usePriorityEscalation.ts:7 | nothing flagged |
| Escalation.EscalationMonitor.Check | src/store/usePriorityEscalation.ts:10-31 | the flagged set is rebuilt from the current tasks |
| Operations.OperationsStore.constructor | src/store/useOperationsStore.ts:19-23 | the initial state is the opened state, closed |
| Operations.OperationsStore.OpenOperations | src/store/useOperationsStore.ts:25-31 | open, first step, empty directive and name, priority 'MED_02' |
| Operations.OperationsStore.CloseOperations | src/store/useOperationsStore.ts:33 | only `isOpen` changes |
| Operations.OperationsStore.SetStep | src/store/useOperationsStore.ts:35 | only the step changes |
| Operations.OperationsStore.SetDirective | src/store/useOperationsStore.ts:37 | only the directive changes |
| Operations.OperationsStore.SetParsedData | src/store/useOperationsStore.ts:39 | only the parsed name and priority change |
| OperationsModal.ExtractedName | src/components/dashboard/OperationsModals.tsx:42 | the trim of the first 30 characters when that is not blank (so non-empty, at most 30, no edge blanks), otherwise 'UNTITLED_DIRECTIVE' |
| OperationsModal.ExtractedPriority | src/components/dashboard/OperationsModals.tsx:43-44 | CRITICAL iff the lowercased directive contains 'urgent' or 'critical', else ELEVATED |
| OperationsModal.UrgentAnyCase | src/components/dashboard/OperationsModals.tsx:43 | 'URGENT' or 'Critical' anywhere makes the priority CRITICAL |
| OperationsModal.ConfirmDraft | src/components/dashboard/OperationsModals.tsx:68-78 | name uppercased, running, progress 0, no tasks, tags [priority], colour '#ff3333' iff CRITICAL |
| OperationsModal.TechnicalId | src/components/dashboard/OperationsModals.tsx:71 | the first three characters uppercased, then '-' |
| OperationsModal.TechnicalIdRoll | src/components/dashboard/OperationsModals.tsx:71 | the number after the dash reads back as the roll |
| OperationsModal.ConfirmPayload | src/components/dashboard/OperationsModals.tsx:68-78 | the accent sent follows the priority; technical id and tags are not sent |
| OperationsModal.OperationsDialog.constructor | src/components/dashboard/OperationsModals.tsx:15-16 | empty name, priority ELEVATED |
| OperationsModal.OperationsDialog.SyncProtocol | src/components/dashboard/OperationsModals.tsx:23-28 | entering the last step takes the parsed name or 'NEW_OPERATION' and the parsed priority or ELEVATED |
| OperationsModal.OperationsDialog.SetFinalName | src/components/dashboard/OperationsModals.tsx:255 | only the name changes |
| OperationsModal.OperationsDialog.SetFinalPriority | src/components/dashboard/OperationsModals.tsx:265 | only the priority changes |
| OperationsModal.OperationsDialog.HandleTransmit | src/components/dashboard/OperationsModals.tsx:53-60 | a blank directive changes nothing; otherwise only the step becomes ENTROPY |
| OperationsModal.OperationsDialog.FinishEntropy | src/components/dashboard/OperationsModals.tsx:40-46 | the parse is stored and the step becomes PROTOCOL |
| OperationsModal.OperationsDialog.HandleConfirm | src/components/dashboard/OperationsModals.tsx:62-80 | a blank name adds nothing; otherwise the project is sent, prepended on success, loading ends with the call's error or none, and the wizard closes; the selection is kept |
| Kanban.ColumnOfStatus | src/components/kanban/board.tsx:58-59 | a column id names its status, for every status |
| Kanban.TargetStatus | src/components/kanban/board.tsx:56-65 | a column's status, else the card's status, and none iff the id is neither |
| Kanban.DropUpdate | src/components/kanban/board.tsx:48-72 | no target means no update; an update happens iff the target has a status and the dragged task exists with a different one |
| Kanban.DropOnColumn | src/components/kanban/board.tsx:58-72 | a drop on a column moves the task there unless it is already in it |
| Kanban.DropOnSameColumnCard | src/components/kanban/board.tsx:60-72 | a drop on a card of the same column does nothing |
| Kanban.Board.constructor | src/components/kanban/board.tsx:14-15 | nothing dragged, nothing under it |
| Kanban.Board.HandleDragStart | src/components/kanban/board.tsx:30-37 | the dragged task is remembered only when it is found |
| Kanban.Board.HandleDragOver | src/components/kanban/board.tsx:39-41 | `over?.id \|\| null` |
| Kanban.Board.HandleDragEnd | src/components/kanban/board.tsx:43-74 | clears the drag state, then sends the `DropUpdate` status to the task store, whose tasks change only on success (a failure sets its error); its loading flag and blooming id are kept |
| Commands.ShortcutCommand | src/lib/commands.ts:14-35 | a command exists iff the lowercased key is k, n, t, p or ',' |
| Commands.KeyCommands | src/lib/commands.ts:10-41 | at most one command; Escape always aborts; without a modifier no other key does anything |
| Commands.Route | src/lib/commands.ts:54-73 | a route exists iff the command is one of the six known ones |
| Commands.KeyRoutes | src/lib/commands.ts:10-73 | each issued command navigates to its route |
| Commands.ShortcutRoutes | src/lib/commands.ts:11-69 | with meta or ctrl: k /search, n /notes, t /tasks, p /projects, ',' /settings |
| Commands.CaseInsensitive | src/lib/commands.ts:14 | ctrl+'K' acts like ctrl+'k' |
| Commands.EscapeGoesHome | src/lib/commands.ts:38-71 | Escape navigates to '/' whatever the modifiers |

## Left out

- Supabase: backend calls are outcome parameters. Realtime subscriptions (`subscribeTo*`) are not modelled; each one only calls fetch again.
- Audio and haptics (`ArkanAudio`) and console logging are left out. They have no effect on state.
- Rendering is left out: JSX, framer-motion, dnd-kit sensors, the columns and cards of the board, and the entropy step's log lines and progress bar.
- Persistence middleware: only the `partialize` shapes are modelled (`Persisted`), not local storage.
- Timers: `setTimeout` continuations are separate methods called afterwards; cancelling a pending timer is not modelled. The escalation check's one-minute interval is also left out.
- Wall clock: `Date.now()` is a `now` parameter.
- Random numbers: `Math.random()` digits are parameters.
  - Calendar.CalendarStore.AddEvent and Logistics.LogisticsStore.AddItem: the id's freshness is not guaranteed by the store. `Calendar.AddThenDelete` and `Logistics.FreshItemAlone` state what holds when it is fresh.
  - OperationsModal.OperationsDialog.HandleConfirm: requires `roll < 1000`, the range of `Math.floor(Math.random() * 1000)`.
- Common.ToLower, Common.ToUpper: case mapping covers ASCII letters only. Unicode case rules are not modelled.
- Patches: an absent key is `None`. A key present with the value `undefined` is not modelled.
- Tasks: `subtasks` is not modelled (the store never fills it); `description` is carried but not constrained.
- Projects: `createdAt`/`updatedAt` are not part of the model; the store never reads them.
- Notes.NoteStore.AddNote: a missing note content is modelled as "".
- WalkEntry, InitializeIndex: children and roots are stated as sets. The order in which `push` appends siblings (first visit first) is not constrained by the contracts.
- FileIndex: node ids are an injective wrapper of the path. The base64 text of `btoa` is not computed; only the rejection of characters above U+00FF is modelled.
- FileIndex.FileIndexStore.GetPathMap: requires the index to be well formed, which every store operation keeps.
- Numbers: timers, timestamps and counts are unbounded integers, and weights and the metronome tempo input are reals. IEEE double rounding is not modelled; `Math.round` is modelled as rounding half up.
- OmniSearch.OmniSearchStore.PerformSearch: the id lookup's entries are returned as `idHits` only, because the source discards them.
- Commands.KeyCommands: the listener's `preventDefault()` on a recognised shortcut is left out. It stops the browser's own handling of the key and has no effect on state.
- The operations dialog's close button (`handleClose`) is `CloseOperations` plus a sound.
- UpdateBuffer: the character count is the number of characters (code points), not the UTF-16 code units `content.length` counts; they differ on characters outside the Basic Multilingual Plane, such as emoji.
- ExtractedName: `substring(0, 30)` is modelled as the first 30 characters, not 30 UTF-16 code units, for the same reason.
- TechnicalId: `substring(0, 3)` is modelled as the first three characters, not three UTF-16 code units.
- BaseScore: `substring(0, searchQuery.length)` and the query's length count characters, not UTF-16 code units; Score, which subtracts the archived penalty from it, inherits this.
- InitializeTimer: the default `type = 'CUSTOM'` is not modelled; every caller passes the kind.
- BeginCompleteWithDelay: the delay argument (default 2000 ms) is not modelled; `FinishCompleteWithDelay` is the continuation, called whenever the delay has passed.
- Search: the searched nodes are the fixed list the source declares. The result objects' `action` and `description` are carried but not constrained.
