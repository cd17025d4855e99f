/** The note store (src/store/useNoteStore.ts). Unlike the task store it
    updates and deletes optimistically: the local list changes first, and a
    failed remote call puts back the list as it was before the call. Each
    such action is modelled as the step before the remote call and the step
    after it, so the state in between is visible. */
module Notes {
  import opened Common

  datatype Note = Note(
    id: string,
    title: string,
    content: string,
    folderId: Option<string>,
    isFavorite: bool,
    tags: seq<string>,
    projectId: Option<string>,
    updatedAt: Option<int>)

  /** A row of the `notes` table. */
  datatype NoteRow = NoteRow(
    id: string,
    title: string,
    content: Option<string>,
    folder_id: Option<string>,
    is_favorite: bool,
    tags: Option<seq<string>>,
    project_id: Option<string>,
    updated_at: int)

  /** What `addNote` is given: a note without id. */
  datatype NoteDraft = NoteDraft(
    title: string,
    content: string,
    folderId: Option<string>,
    isFavorite: Option<bool>,
    tags: Option<seq<string>>,
    projectId: Option<string>)

  /** A `Partial<Note>`: `None` is a key the patch does not have. */
  datatype NotePatch = NotePatch(
    id: Option<string>,
    title: Option<string>,
    content: Option<string>,
    folderId: Option<string>,
    isFavorite: Option<bool>,
    tags: Option<seq<string>>,
    projectId: Option<string>,
    updatedAt: Option<int>)

  /** The writing session shown by the editor. */
  datatype NoteSession = NoteSession(startTime: int, targetWords: int, currentWords: int, currentChars: int)

  datatype SessionPatch = SessionPatch(
    startTime: Option<int>, targetWords: Option<int>, currentWords: Option<int>, currentChars: Option<int>)

  /** What is kept in local storage. */
  datatype PersistedNotes = PersistedNotes(buffer: string, activeNote: Option<Note>)

  const TargetWords := 1500

  function NoteId(n: Note): string { n.id }

  /** A fetched row: missing content is "", missing tags are none. */
  function FromRow(row: NoteRow): (n: Note)
    ensures n.id == row.id && n.content == row.content.GetOr("") && n.isFavorite == row.is_favorite
    ensures n.folderId == row.folder_id && n.projectId == row.project_id && n.updatedAt == Some(row.updated_at)
    ensures n.tags == if row.tags.Some? then row.tags.value else []
  {
    Note(row.id, row.title, row.content.GetOr(""), row.folder_id, row.is_favorite,
         row.tags.GetOr([]), row.project_id, Some(row.updated_at))
  }

  function FromRows(rows: seq<NoteRow>): (r: seq<Note>)
    ensures |r| == |rows| && forall i :: 0 <= i < |rows| ==> r[i] == FromRow(rows[i])
  {
    if rows == [] then [] else [FromRow(rows[0])] + FromRows(rows[1..])
  }

  /** The row `addNote` inserts: favourite defaults to false, tags to none. */
  function InsertPayload(d: NoteDraft): (p: map<string, Json>)
    ensures "is_favorite" in p && p["is_favorite"] == JBool(d.isFavorite.GetOr(false))
    ensures "tags" in p && p["tags"] == JStrs(d.tags.GetOr([]))
    ensures "content" in p && p["content"] == JStr(d.content)
  {
    var m := map["title" := JStr(d.title), "content" := JStr(d.content),
                 "is_favorite" := JBool(d.isFavorite.GetOr(false)), "tags" := JStrs(d.tags.GetOr([]))];
    var m1 := if d.folderId.Some? then m["folder_id" := JStr(d.folderId.value)] else m;
    if d.projectId.Some? then m1["project_id" := JStr(d.projectId.value)] else m1
  }

  /** `{ ...n, ...updates }`. */
  function Merge(n: Note, u: NotePatch): Note {
    Note(
      u.id.GetOr(n.id),
      u.title.GetOr(n.title),
      u.content.GetOr(n.content),
      if u.folderId.Some? then u.folderId else n.folderId,
      u.isFavorite.GetOr(n.isFavorite),
      u.tags.GetOr(n.tags),
      if u.projectId.Some? then u.projectId else n.projectId,
      if u.updatedAt.Some? then u.updatedAt else n.updatedAt)
  }

  function PatchMatching(ns: seq<Note>, id: string, u: NotePatch): (r: seq<Note>)
    ensures |r| == |ns|
    ensures forall i :: 0 <= i < |ns| ==> r[i] == if ns[i].id == id then Merge(ns[i], u) else ns[i]
  {
    MapMatching(ns, NoteId, id, n => Merge(n, u))
  }

  /** The patch's keys under their own names (`{ ...updates }`). */
  function PatchFields(u: NotePatch): map<string, Json> {
    var m0: map<string, Json> := map[];
    var m1 := if u.id.Some? then m0["id" := JStr(u.id.value)] else m0;
    var m2 := if u.title.Some? then m1["title" := JStr(u.title.value)] else m1;
    var m3 := if u.content.Some? then m2["content" := JStr(u.content.value)] else m2;
    var m4 := if u.folderId.Some? then m3["folderId" := JStr(u.folderId.value)] else m3;
    var m5 := if u.isFavorite.Some? then m4["isFavorite" := JBool(u.isFavorite.value)] else m4;
    var m6 := if u.tags.Some? then m5["tags" := JStrs(u.tags.value)] else m5;
    var m7 := if u.projectId.Some? then m6["projectId" := JStr(u.projectId.value)] else m6;
    if u.updatedAt.Some? then m7["updatedAt" := JIsoDate(u.updatedAt.value)] else m7
  }

  /** The body `updateNote` sends: every present camel-case key of the three
      linked columns is renamed. */
  function UpdatePayload(u: NotePatch): map<string, Json> {
    var p0 := PatchFields(u);
    var p1 := if u.folderId.Some? then (p0 - {"folderId"})["folder_id" := JStr(u.folderId.value)] else p0;
    var p2 := if u.isFavorite.Some? then (p1 - {"isFavorite"})["is_favorite" := JBool(u.isFavorite.value)] else p1;
    if u.projectId.Some? then (p2 - {"projectId"})["project_id" := JStr(u.projectId.value)] else p2
  }

  lemma UpdatePayloadKeys(u: NotePatch)
    ensures "folder_id" in UpdatePayload(u) <==> u.folderId.Some?
    ensures "is_favorite" in UpdatePayload(u) <==> u.isFavorite.Some?
    ensures "project_id" in UpdatePayload(u) <==> u.projectId.Some?
    ensures "folderId" !in UpdatePayload(u) && "isFavorite" !in UpdatePayload(u) && "projectId" !in UpdatePayload(u)
    ensures "content" in UpdatePayload(u) <==> u.content.Some?
    ensures u.content.Some? ==> UpdatePayload(u)["content"] == JStr(u.content.value)
  {
    FolderSent(u);
    FavoriteSent(u);
    ProjectSent(u);
    ContentSent(u);
  }

  lemma FolderSent(u: NotePatch)
    ensures "folder_id" in UpdatePayload(u) <==> u.folderId.Some?
    ensures "folderId" !in UpdatePayload(u)
  {
  }

  lemma FavoriteSent(u: NotePatch)
    ensures "is_favorite" in UpdatePayload(u) <==> u.isFavorite.Some?
    ensures "isFavorite" !in UpdatePayload(u)
  {
  }

  lemma ProjectSent(u: NotePatch)
    ensures "project_id" in UpdatePayload(u) <==> u.projectId.Some?
    ensures "projectId" !in UpdatePayload(u)
  {
  }

  lemma ContentSent(u: NotePatch)
    ensures "content" in UpdatePayload(u) <==> u.content.Some?
    ensures u.content.Some? ==> UpdatePayload(u)["content"] == JStr(u.content.value)
  {
  }

  predicate NoSpace(w: string) {
    forall i :: 0 <= i < |w| ==> !IsSpace(w[i])
  }

  /** A word is a maximal run of non-whitespace characters. */
  predicate IsWord(w: string) {
    w != [] && NoSpace(w)
  }

  /** `split(/\s+/)`: the pieces between the runs of whitespace; a leading
      or trailing run gives an empty piece. */
  function SplitSpaces(s: string): (r: seq<string>)
    ensures |r| >= 1
    ensures forall k :: 0 <= k < |r| ==> NoSpace(r[k])
    decreases |s|
  {
    if s == [] then [""]
    else if IsSpace(s[0]) then [""] + SplitSpaces(TrimStart(s[1..]))
    else
      var rest := SplitSpaces(s[1..]);
      [[s[0]] + rest[0]] + rest[1..]
  }

  /** `content.trim().split(/\s+/).filter(Boolean)`. */
  function Words(content: string): (r: seq<string>)
    ensures forall k :: 0 <= k < |r| ==> IsWord(r[k])
  {
    var trimmed := Trim(content);
    NonEmpty(SplitSpaces(trimmed))
  }

  function WordCount(content: string): nat {
    |Words(content)|
  }

  /** A blank text has no words. */
  lemma BlankHasNoWords(content: string)
    requires AllSpace(content)
    ensures WordCount(content) == 0
  {
  }

  /** The pieces with the given runs of text between each two. */
  function JoinWith(ws: seq<string>, seps: seq<string>): string
    requires ws != [] && |seps| == |ws| - 1
  {
    if |ws| == 1 then ws[0] else ws[0] + seps[0] + JoinWith(ws[1..], seps[1..])
  }

  /** Runs of whitespace, none of them empty. */
  predicate Separators(seps: seq<string>) {
    forall k :: 0 <= k < |seps| ==> seps[k] != "" && AllSpace(seps[k])
  }

  lemma {:induction false} SplitWord(w: string, s: string)
    requires NoSpace(w)
    requires s == [] || IsSpace(s[0])
    ensures SplitSpaces(w + s) == [w + SplitSpaces(s)[0]] + SplitSpaces(s)[1..]
    decreases |w|
  {
    var x := SplitSpaces(s);
    if w == [] {
      assert w + s == s;
      assert [w + x[0]] + x[1..] == x;
    } else {
      assert (w + s)[0] == w[0];
      assert (w + s)[1..] == w[1..] + s;
      assert NoSpace(w[1..]) by {
        forall i | 0 <= i < |w[1..]| ensures !IsSpace(w[1..][i]) {
          assert w[1..][i] == w[i + 1];
        }
      }
      SplitWord(w[1..], s);
      var rest := SplitSpaces(w[1..] + s);
      assert rest == [w[1..] + x[0]] + x[1..];
      assert SplitSpaces(w + s) == [[w[0]] + rest[0]] + rest[1..];
      assert [w[0]] + (w[1..] + x[0]) == w + x[0];
    }
  }

  /** Leading whitespace in front of a text that does not start with
      whitespace is exactly what `trimStart` drops. */
  lemma {:induction false} TrimStartBlank(a: string, j: string)
    requires AllSpace(a) && (j == [] || !IsSpace(j[0]))
    ensures TrimStart(a + j) == j
  {
    if a == [] {
      assert a + j == j;
    } else {
      assert (a + j)[0] == a[0];
      assert (a + j)[1..] == a[1..] + j;
      assert AllSpace(a[1..]) by {
        forall i | 0 <= i < |a[1..]| ensures IsSpace(a[1..][i]) {
          assert a[1..][i] == a[i + 1];
        }
      }
      TrimStartBlank(a[1..], j);
    }
  }

  /** Trailing whitespace after a text that does not end with whitespace
      is exactly what `trimEnd` drops. */
  lemma {:induction false} TrimEndBlank(x: string, b: string)
    requires AllSpace(b) && (x == [] || !IsSpace(x[|x| - 1]))
    ensures TrimEnd(x + b) == x
  {
    if b == [] {
      assert x + b == x;
    } else {
      var b' := b[..|b| - 1];
      assert (x + b)[|x + b| - 1] == b[|b| - 1];
      assert (x + b)[..|x + b| - 1] == x + b';
      assert AllSpace(b') by {
        forall i | 0 <= i < |b'| ensures IsSpace(b'[i]) {
          assert b'[i] == b[i];
        }
      }
      TrimEndBlank(x, b');
    }
  }

  /** One run of whitespace between a word and a text that starts with a
      word is one cut. */
  lemma SplitAtSeparator(w: string, sep: string, j: string)
    requires IsWord(w) && sep != [] && AllSpace(sep)
    requires j == [] || !IsSpace(j[0])
    ensures SplitSpaces(w + (sep + j)) == [w] + SplitSpaces(j)
  {
    var s := sep + j;
    assert s[0] == sep[0] && s[1..] == sep[1..] + j;
    assert AllSpace(sep[1..]) by {
      forall i | 0 <= i < |sep[1..]| ensures IsSpace(sep[1..][i]) {
        assert sep[1..][i] == sep[i + 1];
      }
    }
    TrimStartBlank(sep[1..], j);
    assert SplitSpaces(s) == [""] + SplitSpaces(j);
    SplitWord(w, s);
    assert w + "" == w;
    assert ([""] + SplitSpaces(j))[1..] == SplitSpaces(j);
  }

  lemma SeparatorsTail(seps: seq<string>)
    requires seps != [] && Separators(seps)
    ensures Separators(seps[1..])
  {
    forall k | 0 <= k < |seps[1..]| ensures seps[1..][k] != "" && AllSpace(seps[1..][k]) {
      assert seps[1..][k] == seps[k + 1];
    }
  }

  /** Words separated by any non-empty runs of whitespace split back into
      those words. */
  lemma {:induction false} SplitJoin(ws: seq<string>, seps: seq<string>)
    requires ws != [] && |seps| == |ws| - 1 && Separators(seps)
    requires forall k :: 0 <= k < |ws| ==> IsWord(ws[k])
    ensures SplitSpaces(JoinWith(ws, seps)) == ws
    ensures JoinWith(ws, seps) != [] && !IsSpace(JoinWith(ws, seps)[0])
    ensures !IsSpace(JoinWith(ws, seps)[|JoinWith(ws, seps)| - 1])
  {
    assert IsWord(ws[0]);
    if |ws| == 1 {
      SplitWord(ws[0], "");
      assert ws[0] + "" == ws[0];
      assert [ws[0]] == ws;
    } else {
      var j := JoinWith(ws[1..], seps[1..]);
      assert forall k :: 0 <= k < |ws[1..]| ==> ws[1..][k] == ws[k + 1];
      SeparatorsTail(seps);
      SplitJoin(ws[1..], seps[1..]);
      SplitAtSeparator(ws[0], seps[0], j);
      assert [ws[0]] + ws[1..] == ws;
      assert JoinWith(ws, seps) == ws[0] + (seps[0] + j);
      assert JoinWith(ws, seps)[0] == ws[0][0];
      assert JoinWith(ws, seps)[|JoinWith(ws, seps)| - 1] == j[|j| - 1];
    }
  }

  /** Words between any runs of whitespace, with any blank margin, are
      counted one by one: "a\n\n  b" has two words. */
  lemma WordsOfJoin(lead: string, ws: seq<string>, seps: seq<string>, trail: string)
    requires AllSpace(lead) && AllSpace(trail)
    requires ws != [] && |seps| == |ws| - 1 && Separators(seps)
    requires forall k :: 0 <= k < |ws| ==> IsWord(ws[k])
    ensures Words(lead + JoinWith(ws, seps) + trail) == ws
    ensures WordCount(lead + JoinWith(ws, seps) + trail) == |ws|
  {
    var x := JoinWith(ws, seps);
    SplitJoin(ws, seps);
    assert lead + x + trail == lead + (x + trail);
    TrimStartBlank(lead, x + trail);
    TrimEndBlank(x, trail);
    assert Trim(lead + x + trail) == x;
    assert forall k :: 0 <= k < |ws| ==> ws[k] != "";
  }

  lemma WordsExample()
    ensures Words(" a\n\n  b\t") == ["a", "b"]
  {
    var ws := ["a", "b"];
    var seps := ["\n\n  "];
    assert JoinWith(ws, seps) == "a\n\n  b";
    assert " " + JoinWith(ws, seps) + "\t" == " a\n\n  b\t";
    WordsOfJoin(" ", ws, seps, "\t");
  }

  lemma JoinWithCons(c: char, ws: seq<string>, ws2: seq<string>, seps: seq<string>)
    requires ws != [] && |seps| == |ws| - 1
    requires |ws2| == |ws| && ws2[0] == [c] + ws[0] && ws2[1..] == ws[1..]
    ensures JoinWith(ws2, seps) == [c] + JoinWith(ws, seps)
  {
    if |ws| > 1 {
      var x := JoinWith(ws[1..], seps[1..]);
      assert JoinWith(ws2, seps) == ws2[0] + seps[0] + x;
      ConsAssoc(c, ws[0], seps[0], x);
    }
  }

  lemma ConsAssoc(c: char, a: string, b: string, x: string)
    ensures ([c] + a) + b + x == [c] + (a + b + x)
  {
  }

  lemma JoinWithBlankFirst(sep: string, ws: seq<string>, ws2: seq<string>, seps: seq<string>, seps2: seq<string>)
    requires ws != [] && |seps| == |ws| - 1
    requires |ws2| == |ws| + 1 && ws2[0] == "" && ws2[1..] == ws
    requires |seps2| == |seps| + 1 && seps2[0] == sep && seps2[1..] == seps
    ensures JoinWith(ws2, seps2) == sep + JoinWith(ws, seps)
  {
    assert JoinWith(ws2, seps2) == "" + sep + JoinWith(ws, seps);
    assert "" + sep == sep;
  }

  /** The whitespace `split(/\s+/)` cuts at first: a non-empty run, and
      the text after it starts with a non-blank or is empty. */
  lemma LeadingRun(s: string, u: string)
    requires s != [] && IsSpace(s[0]) && u == TrimStart(s[1..])
    ensures |u| < |s| && s == s[..|s| - |u|] + u && AllSpace(s[..|s| - |u|])
  {
    TrimStartShape(s[1..], u);
    var sep := s[..|s| - |u|];
    var dropped := s[1..][..|s| - 1 - |u|];
    forall i | 0 <= i < |sep| ensures IsSpace(sep[i]) {
      if i > 0 {
        assert sep[i] == dropped[i - 1];
      }
    }
    assert s == sep + u;
  }

  lemma SeparatorsCons(sep: string, seps: seq<string>)
    requires sep != [] && AllSpace(sep) && Separators(seps)
    ensures Separators([sep] + seps)
  {
    var ss := [sep] + seps;
    forall k | 0 <= k < |ss| ensures ss[k] != "" && AllSpace(ss[k]) {
      if k > 0 {
        assert ss[k] == seps[k - 1];
      }
    }
  }

  /** `split(/\s+/)` loses only the whitespace: the text is its pieces with
      a non-empty run of whitespace between each two. */
  lemma {:induction false} SplitSpacesRejoin(s: string)
    ensures exists seps :: |seps| == |SplitSpaces(s)| - 1 && Separators(seps) && JoinWith(SplitSpaces(s), seps) == s
    decreases |s|
  {
    if s == [] {
      assert JoinWith(SplitSpaces(s), []) == s;
    } else if IsSpace(s[0]) {
      var u := TrimStart(s[1..]);
      LeadingRun(s, u);
      SplitSpacesRejoin(u);
      var pu := SplitSpaces(u);
      var seps' :| |seps'| == |pu| - 1 && Separators(seps') && JoinWith(pu, seps') == u;
      var sep := s[..|s| - |u|];
      SeparatorsCons(sep, seps');
      var ps := SplitSpaces(s);
      assert ps == [""] + pu;
      JoinWithBlankFirst(sep, pu, ps, seps', [sep] + seps');
      assert JoinWith(ps, [sep] + seps') == s;
    } else {
      SplitSpacesRejoin(s[1..]);
      var rest := SplitSpaces(s[1..]);
      var seps :| |seps| == |rest| - 1 && Separators(seps) && JoinWith(rest, seps) == s[1..];
      var ps := SplitSpaces(s);
      assert ps == [[s[0]] + rest[0]] + rest[1..];
      JoinWithCons(s[0], rest, ps, seps);
      assert [s[0]] + s[1..] == s;
      assert JoinWith(ps, seps) == s;
    }
  }

  class NoteStore {
    var notes: seq<Note>
    var isLoading: bool
    var error: Option<string>
    var activeNote: Option<Note>
    var buffer: string
    var session: NoteSession
    var isSyncing: bool

    /** The initial state; `now` stands for the clock at creation. */
    constructor (now: int)
      ensures notes == [] && !isLoading && error == None && activeNote == None && buffer == "" && !isSyncing
      ensures session == NoteSession(now, TargetWords, 0, 0)
    {
      notes, isLoading, error, activeNote, buffer, isSyncing := [], false, None, None, "", false;
      session := NoteSession(now, TargetWords, 0, 0);
    }

    function Persisted(): (p: PersistedNotes)
      reads this
      ensures p.buffer == buffer && p.activeNote == activeNote
    {
      PersistedNotes(buffer, activeNote)
    }

    method FetchNotes(outcome: Remote<seq<NoteRow>>)
      modifies this
      ensures !isLoading && activeNote == old(activeNote) && buffer == old(buffer)
      ensures session == old(session) && isSyncing == old(isSyncing)
      ensures outcome.Ok? ==> notes == FromRows(outcome.value) && error == None
      ensures outcome.Err? ==> notes == old(notes) && error == Some(outcome.message)
    {
      isLoading, error := true, None;
      match outcome
      case Ok(rows) =>
        notes, isLoading := FromRows(rows), false;
      case Err(message) =>
        error, isLoading := Some(message), false;
    }

    /** Inserts the draft; the returned note is put first and opened. */
    method AddNote(draft: NoteDraft, outcome: Remote<NoteRow>) returns (sent: map<string, Json>)
      modifies this
      ensures sent == InsertPayload(draft)
      ensures !isLoading && session == old(session) && isSyncing == old(isSyncing)
      ensures outcome.Ok? ==>
        && notes == [FromRow(outcome.value)] + old(notes)
        && activeNote == Some(FromRow(outcome.value))
        && buffer == FromRow(outcome.value).content
        && error == old(error)
      ensures outcome.Err? ==>
        && notes == old(notes) && activeNote == old(activeNote) && buffer == old(buffer)
        && error == Some(outcome.message)
    {
      isLoading := true;
      sent := InsertPayload(draft);
      match outcome
      case Ok(row) =>
        var newNote := FromRow(row);
        notes, activeNote, buffer, isLoading := [newNote] + notes, Some(newNote), newNote.content, false;
      case Err(message) =>
        error, isLoading := Some(message), false;
    }

    /** Before the remote call: the matching notes are patched at once, and
        the list as it was is returned as the snapshot. */
    method BeginUpdateNote(id: string, updates: NotePatch) returns (snapshot: seq<Note>, sent: map<string, Json>)
      modifies this
      ensures snapshot == old(notes) && sent == UpdatePayload(updates)
      ensures notes == PatchMatching(old(notes), id, updates)
      ensures isLoading == old(isLoading) && error == old(error) && activeNote == old(activeNote)
      ensures buffer == old(buffer) && session == old(session) && isSyncing == old(isSyncing)
    {
      snapshot := notes;
      notes := PatchMatching(notes, id, updates);
      sent := UpdatePayload(updates);
    }

    /** After the remote call: on failure the snapshot is put back. */
    method FinishWithSnapshot(snapshot: seq<Note>, outcome: Outcome)
      modifies this
      ensures outcome.Pass? ==> notes == old(notes) && error == old(error)
      ensures outcome.Fail? ==> notes == snapshot && error == Some(outcome.message)
      ensures isLoading == old(isLoading) && activeNote == old(activeNote)
      ensures buffer == old(buffer) && session == old(session) && isSyncing == old(isSyncing)
    {
      if outcome.Fail? {
        notes, error := snapshot, Some(outcome.message);
      }
    }

    /** `updateNote` with nothing else happening during the remote call. */
    method UpdateNote(id: string, updates: NotePatch, outcome: Outcome) returns (sent: map<string, Json>)
      modifies this
      ensures sent == UpdatePayload(updates)
      ensures outcome.Pass? ==> notes == PatchMatching(old(notes), id, updates) && error == old(error)
      ensures outcome.Fail? ==> notes == old(notes) && error == Some(outcome.message)
      ensures isLoading == old(isLoading) && activeNote == old(activeNote)
      ensures buffer == old(buffer) && session == old(session) && isSyncing == old(isSyncing)
    {
      var snapshot;
      snapshot, sent := BeginUpdateNote(id, updates);
      FinishWithSnapshot(snapshot, outcome);
    }

    /** Before the remote call: every note with the id is dropped at once. */
    method BeginDeleteNote(id: string) returns (snapshot: seq<Note>)
      modifies this
      ensures snapshot == old(notes) && notes == FilterOut(old(notes), NoteId, id)
      ensures isLoading == old(isLoading) && error == old(error) && activeNote == old(activeNote)
      ensures buffer == old(buffer) && session == old(session) && isSyncing == old(isSyncing)
    {
      snapshot := notes;
      notes := FilterOut(notes, NoteId, id);
    }

    /** `deleteNote` with nothing else happening during the remote call. */
    method DeleteNote(id: string, outcome: Outcome)
      modifies this
      ensures outcome.Pass? ==> notes == FilterOut(old(notes), NoteId, id) && error == old(error)
      ensures outcome.Fail? ==> notes == old(notes) && error == Some(outcome.message)
      ensures (forall i :: 0 <= i < |old(notes)| ==> old(notes)[i].id != id) ==> notes == old(notes)
      ensures isLoading == old(isLoading) && activeNote == old(activeNote)
      ensures buffer == old(buffer) && session == old(session) && isSyncing == old(isSyncing)
    {
      var snapshot := BeginDeleteNote(id);
      FinishWithSnapshot(snapshot, outcome);
    }

    /** Opens a note in the editor and recounts its words; the character
        count is left as it was. */
    method SetNote(note: Note)
      modifies this
      ensures activeNote == Some(note) && buffer == note.content
      ensures session == old(session).(currentWords := WordCount(note.content))
      ensures notes == old(notes) && isLoading == old(isLoading) && error == old(error) && isSyncing == old(isSyncing)
    {
      activeNote := Some(note);
      buffer := note.content;
      session := session.(currentWords := WordCount(note.content));
    }

    method UpdateBuffer(content: string)
      modifies this
      ensures buffer == content
      ensures session == old(session).(currentWords := WordCount(content), currentChars := |content|)
      ensures notes == old(notes) && activeNote == old(activeNote)
      ensures isLoading == old(isLoading) && error == old(error) && isSyncing == old(isSyncing)
    {
      buffer := content;
      session := session.(currentWords := WordCount(content), currentChars := |content|);
    }

    /** First step of `syncToBackend`: nothing happens without an open note
        or while a sync is running; otherwise the buffer is sent for the
        open note's id. */
    method BeginSync() returns (sent: Option<(string, string)>)
      modifies this
      ensures sent.Some? <==> old(activeNote).Some? && !old(isSyncing)
      ensures sent.Some? ==> sent.value == (old(activeNote).value.id, old(buffer)) && isSyncing
      ensures sent.None? ==> isSyncing == old(isSyncing)
      ensures notes == old(notes) && buffer == old(buffer) && activeNote == old(activeNote)
      ensures session == old(session) && isLoading == old(isLoading) && error == old(error)
    {
      if activeNote.None? || isSyncing {
        return None;
      }
      isSyncing := true;
      sent := Some((activeNote.value.id, buffer));
    }

    /** Second step: the sync ends either way and its error is not stored. */
    method FinishSync(outcome: Outcome)
      modifies this
      ensures !isSyncing
      ensures notes == old(notes) && buffer == old(buffer) && activeNote == old(activeNote)
      ensures session == old(session) && isLoading == old(isLoading) && error == old(error)
    {
      isSyncing := false;
    }

    method UpdateSession(u: SessionPatch)
      modifies this
      ensures session == NoteSession(
        u.startTime.GetOr(old(session).startTime), u.targetWords.GetOr(old(session).targetWords),
        u.currentWords.GetOr(old(session).currentWords), u.currentChars.GetOr(old(session).currentChars))
      ensures notes == old(notes) && buffer == old(buffer) && activeNote == old(activeNote)
      ensures isLoading == old(isLoading) && error == old(error) && isSyncing == old(isSyncing)
    {
      session := NoteSession(
        u.startTime.GetOr(session.startTime), u.targetWords.GetOr(session.targetWords),
        u.currentWords.GetOr(session.currentWords), u.currentChars.GetOr(session.currentChars));
    }

    method ResetSession(now: int)
      modifies this
      ensures session == NoteSession(now, TargetWords, 0, 0)
      ensures notes == old(notes) && buffer == old(buffer) && activeNote == old(activeNote)
      ensures isLoading == old(isLoading) && error == old(error) && isSyncing == old(isSyncing)
    {
      session := NoteSession(now, TargetWords, 0, 0);
    }
  }

  /** A sync started while another is running sends nothing; once the
      first has finished, the next one sends the buffer. */
  method SyncGuardScenario(note: Note, text: string) returns (second: Option<(string, string)>, third: Option<(string, string)>)
    ensures second == None
    ensures third == Some((note.id, text))
  {
    var store := new NoteStore(0);
    store.SetNote(note);
    store.UpdateBuffer(text);
    var first := store.BeginSync();
    second := store.BeginSync();
    store.FinishSync(Fail("offline"));
    third := store.BeginSync();
  }

  /** An update that fails leaves exactly the notes that were there, even
      though they were patched while the call was in flight. */
  method RollbackScenario(rows: seq<NoteRow>, id: string, u: NotePatch) returns (before: seq<Note>, during: seq<Note>, after: seq<Note>)
    ensures before == FromRows(rows) && after == before
    ensures during == PatchMatching(before, id, u)
  {
    var store := new NoteStore(0);
    store.FetchNotes(Ok(rows));
    before := store.notes;
    var snapshot, _ := store.BeginUpdateNote(id, u);
    during := store.notes;
    store.FinishWithSnapshot(snapshot, Fail("denied"));
    after := store.notes;
  }
}
