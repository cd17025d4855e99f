/** The command-palette search (src/store/useSearchStore.ts): an edit
    distance computed by dynamic programming, a query whose first word may
    narrow the node types searched, additive scoring, and a stable sort by
    score that keeps the best five. */
module Search {
  import opened Common
  import opened Sorting

  datatype NodeType = TaskNode | NoteNode | ProjectNode | EventNode | CommandNode

  /** A searchable node; `score` is filled in by the search. */
  datatype SearchNode = SearchNode(
    id: string,
    title: string,
    kind: NodeType,
    description: Option<string>,
    score: int,
    action: Option<string>,
    archived: bool)

  /** The node types a query searches, and the text it looks for. */
  datatype Parsed = Parsed(scope: set<NodeType>, text: string)

  const AllTypes: set<NodeType> := {TaskNode, NoteNode, ProjectNode, EventNode, CommandNode}
  const MaxResults := 5
  const ExactScore := 100
  const IncludesScore := 50
  const FuzzyScore := 20
  const ArchivedPenalty := 30

  function Min3(x: int, y: int, z: int): int {
    if x <= y && x <= z then x else if y <= z then y else z
  }

  function Cost(x: char, y: char): nat {
    if x == y then 0 else 1
  }

  /** The edit distance between the first `i` characters of `a` and the
      first `j` of `b`: the minimum of deleting, inserting and substituting. */
  function Lev(a: string, b: string, i: nat, j: nat): int
    requires i <= |a| && j <= |b|
    decreases i + j
  {
    if i == 0 then j
    else if j == 0 then i
    else Min3(Lev(a, b, i - 1, j) + 1, Lev(a, b, i, j - 1) + 1, Lev(a, b, i - 1, j - 1) + Cost(a[i - 1], b[j - 1]))
  }

  function EditDistance(a: string, b: string): (d: int)
    ensures a == [] ==> d == |b|
    ensures b == [] ==> d == |a|
  {
    Lev(a, b, |a|, |b|)
  }

  /** Row `i` of `m`, up to column `j` (exclusive), holds the distances. */
  ghost predicate RowDone(m: array2<int>, a: string, b: string, i: nat, j: nat)
    reads m
    requires m.Length0 == |a| + 1 && m.Length1 == |b| + 1 && i <= |a| && j <= |b| + 1
  {
    forall k :: 0 <= k < j ==> m[i, k] == Lev(a, b, i, k)
  }

  /** One pass of the inner loop: fills row `i` from the row above it. */
  method FillRow(m: array2<int>, a: string, b: string, i: nat)
    requires m.Length0 == |a| + 1 && m.Length1 == |b| + 1 && 1 <= i <= |a|
    requires RowDone(m, a, b, i - 1, |b| + 1) && m[i, 0] == Lev(a, b, i, 0)
    modifies m
    ensures RowDone(m, a, b, i, |b| + 1)
    ensures forall row, k :: 0 <= row < m.Length0 && 0 <= k < m.Length1 && row != i ==> m[row, k] == old(m[row, k])
  {
    var j := 1;
    while j <= |b|
      invariant 1 <= j <= |b| + 1
      invariant RowDone(m, a, b, i - 1, |b| + 1)
      invariant RowDone(m, a, b, i, j)
      invariant forall row, k :: 0 <= row < m.Length0 && 0 <= k < m.Length1 && row != i ==> m[row, k] == old(m[row, k])
    {
      var cost := if a[i - 1] == b[j - 1] then 0 else 1;
      m[i, j] := Min3(m[i - 1, j] + 1, m[i, j - 1] + 1, m[i - 1, j - 1] + cost);
      j := j + 1;
    }
  }

  /** `getLevenshteinDistance`: fills the matrix row by row. */
  method Levenshtein(a: string, b: string) returns (d: int)
    ensures d == EditDistance(a, b)
  {
    var m := new int[|a| + 1, |b| + 1];
    var r := 0;
    while r <= |a|
      invariant 0 <= r <= |a| + 1
      invariant forall k :: 0 <= k < r ==> m[k, 0] == Lev(a, b, k, 0)
    {
      m[r, 0] := r;
      r := r + 1;
    }
    var c := 1;
    while c <= |b|
      invariant 1 <= c <= |b| + 1
      invariant forall k :: 0 <= k <= |a| ==> m[k, 0] == Lev(a, b, k, 0)
      invariant RowDone(m, a, b, 0, c)
    {
      m[0, c] := c;
      c := c + 1;
    }
    var i := 1;
    while i <= |a|
      invariant 1 <= i <= |a| + 1
      invariant forall k :: i <= k <= |a| ==> m[k, 0] == Lev(a, b, k, 0)
      invariant RowDone(m, a, b, i - 1, |b| + 1)
    {
      FillRow(m, a, b, i);
      i := i + 1;
    }
    assert RowDone(m, a, b, |a|, |b| + 1);
    d := m[|a|, |b|];
  }

  /** Against an empty string the distance is the other string's length. */
  lemma EditDistanceEmpty(a: string)
    ensures EditDistance(a, "") == |a| && EditDistance("", a) == |a|
  {
  }

  lemma {:induction false} LevSelf(a: string, i: nat)
    requires i <= |a|
    ensures Lev(a, a, i, i) == 0
  {
    if i > 0 {
      LevSelf(a, i - 1);
      LevLower(a, a, i - 1, i);
      LevLower(a, a, i, i - 1);
    }
  }

  lemma EditDistanceSelf(a: string)
    ensures EditDistance(a, a) == 0
  {
    LevSelf(a, |a|);
  }

  lemma {:induction false} LevSymmetric(a: string, b: string, i: nat, j: nat)
    requires i <= |a| && j <= |b|
    ensures Lev(a, b, i, j) == Lev(b, a, j, i)
    decreases i + j
  {
    if i > 0 && j > 0 {
      LevSymmetric(a, b, i - 1, j);
      LevSymmetric(a, b, i, j - 1);
      LevSymmetric(a, b, i - 1, j - 1);
    }
  }

  lemma EditDistanceSymmetric(a: string, b: string)
    ensures EditDistance(a, b) == EditDistance(b, a)
  {
    LevSymmetric(a, b, |a|, |b|);
  }

  /** The distance is at most the larger length ... */
  lemma {:induction false} LevUpper(a: string, b: string, i: nat, j: nat)
    requires i <= |a| && j <= |b|
    ensures Lev(a, b, i, j) <= if i <= j then j else i
    decreases i + j
  {
    if i > 0 && j > 0 {
      LevUpper(a, b, i - 1, j - 1);
    }
  }

  /** ... and at least the difference of the lengths. */
  lemma {:induction false} LevLower(a: string, b: string, i: nat, j: nat)
    requires i <= |a| && j <= |b|
    ensures Lev(a, b, i, j) >= if i <= j then j - i else i - j
    decreases i + j
  {
    if i > 0 && j > 0 {
      LevLower(a, b, i - 1, j);
      LevLower(a, b, i, j - 1);
      LevLower(a, b, i - 1, j - 1);
    }
  }

  lemma EditDistanceBounds(a: string, b: string)
    ensures EditDistance(a, b) <= if |a| <= |b| then |b| else |a|
    ensures EditDistance(a, b) >= if |a| <= |b| then |b| - |a| else |a| - |b|
  {
    LevUpper(a, b, |a|, |b|);
    LevLower(a, b, |a|, |b|);
  }

  /** The position of the first ' ', if any. */
  function SpaceIndex(q: string): (r: Option<nat>)
    ensures r.Some? ==> r.value < |q| && q[r.value] == ' ' && forall k :: 0 <= k < r.value ==> q[k] != ' '
    ensures r.None? ==> forall k :: 0 <= k < |q| ==> q[k] != ' '
  {
    if q == [] then None
    else if q[0] == ' ' then Some(0)
    else
      var r := SpaceIndex(q[1..]);
      if r.Some? then Some(r.value + 1) else None
  }

  /** `parts[0]` of `query.split(' ')`. */
  function FirstWord(q: string): (r: string)
    ensures StartsWith(q, r) && ' ' !in r
  {
    var k := SpaceIndex(q);
    if k.Some? then q[..k.value] else q
  }

  /** `parts.slice(1).join(' ')`: everything after the first ' '. */
  function AfterFirstWord(q: string): (r: string)
    ensures ' ' in q ==> q == FirstWord(q) + " " + r
    ensures ' ' !in q ==> r == ""
  {
    var k := SpaceIndex(q);
    if k.Some? then
      assert q == q[..k.value] + " " + q[k.value + 1..];
      q[k.value + 1..]
    else ""
  }

  /** The query the search works on: trimmed and lowercased. */
  function Normalize(raw: string): (q: string)
    ensures q == [] <==> AllSpace(raw)
  {
    ToLower(Trim(raw))
  }

  /** Narrows the scope by the query's prefix. */
  function Parse(query: string): (p: Parsed)
    ensures StartsWith(query, "/") ==> p.text == AfterFirstWord(query)
    ensures StartsWith(query, "/") && FirstWord(query) == "/t" ==> p.scope == {TaskNode}
    ensures StartsWith(query, "/") && FirstWord(query) == "/n" ==> p.scope == {NoteNode}
    ensures StartsWith(query, "/") && FirstWord(query) == "/p" ==> p.scope == {ProjectNode}
    ensures StartsWith(query, "/") && FirstWord(query) !in {"/t", "/n", "/p"} ==> p.scope == AllTypes
    ensures StartsWith(query, ">") ==> p == Parsed({CommandNode}, query)
    ensures !StartsWith(query, "/") && !StartsWith(query, ">") ==> p == Parsed(AllTypes, query)
  {
    if StartsWith(query, "/") then
      var prefix := FirstWord(query);
      var scope := if prefix == "/t" then {TaskNode}
                   else if prefix == "/n" then {NoteNode}
                   else if prefix == "/p" then {ProjectNode}
                   else AllTypes;
      Parsed(scope, AfterFirstWord(query))
    else if StartsWith(query, ">") then Parsed({CommandNode}, query)
    else Parsed(AllTypes, query)
  }

  /** The relevance of a title to the search text before the archive
      penalty: exact, then substring, then fuzzy on the title's prefix of
      the text's length. */
  function BaseScore(node: SearchNode, text: string): (b: int)
    ensures b in {ExactScore, IncludesScore, FuzzyScore, 0}
  {
    var t := ToLower(node.title);
    if t == text then ExactScore
    else if Contains(t, text) then IncludesScore
    else if |text| > 2 && EditDistance(text, Take(t, |text|)) < 2 then FuzzyScore
    else 0
  }

  /** Archived nodes lose 30, so that they come later in the list. */
  function Score(node: SearchNode, text: string): (s: int)
    ensures !node.archived ==> 0 <= s <= ExactScore
    ensures node.archived ==> -ArchivedPenalty <= s <= ExactScore - ArchivedPenalty
  {
    BaseScore(node, text) - (if node.archived then ArchivedPenalty else 0)
  }

  /** Each level of the score, and its bounds. */
  lemma ScoreLevels(node: SearchNode, text: string)
    ensures var t := ToLower(node.title);
      var penalty := if node.archived then ArchivedPenalty else 0;
      && (t == text ==> Score(node, text) == ExactScore - penalty)
      && (t != text && Contains(t, text) ==> Score(node, text) == IncludesScore - penalty)
      && (!Contains(t, text) && |text| <= 2 ==> Score(node, text) == -penalty)
      && (!Contains(t, text) && |text| > 2 && EditDistance(text, Take(t, |text|)) < 2 ==> Score(node, text) == FuzzyScore - penalty)
      && (!Contains(t, text) && EditDistance(text, Take(t, |text|)) >= 2 ==> Score(node, text) == -penalty)
    ensures !node.archived ==> 0 <= Score(node, text) <= ExactScore
    ensures node.archived ==> -ArchivedPenalty <= Score(node, text) <= ExactScore - ArchivedPenalty
  {
    var t := ToLower(node.title);
    if t == text {
      ContainsSelf(t);
    }
  }

  /** Archiving a node costs it exactly the penalty, whatever the title. */
  lemma ScoreArchivedPenalty(node: SearchNode, text: string)
    ensures Score(node.(archived := true), text) + ArchivedPenalty == Score(node.(archived := false), text)
    ensures BaseScore(node.(archived := true), text) == BaseScore(node, text)
  {
  }

  /** `filter(node => scope.includes(node.type)).map(node => ({ ...node, score }))`;
      `ScoredAppend` and `ScoredSingle` give its order and multiplicity. */
  function Scored(nodes: seq<SearchNode>, p: Parsed): (r: seq<SearchNode>)
    ensures |r| <= |nodes|
    ensures forall i :: 0 <= i < |r| ==> r[i].kind in p.scope
    ensures forall i :: 0 <= i < |r| ==> exists k :: 0 <= k < |nodes| && r[i] == nodes[k].(score := Score(nodes[k], p.text))
    ensures forall k :: 0 <= k < |nodes| && nodes[k].kind in p.scope ==> nodes[k].(score := Score(nodes[k], p.text)) in r
  {
    if nodes == [] then []
    else
      var rest := Scored(nodes[1..], p);
      assert forall k :: 1 <= k < |nodes| ==> nodes[k] == nodes[1..][k - 1];
      if nodes[0].kind in p.scope then [nodes[0].(score := Score(nodes[0], p.text))] + rest else rest
  }

  lemma {:induction false} ScoredAppend(a: seq<SearchNode>, b: seq<SearchNode>, p: Parsed)
    ensures Scored(a + b, p) == Scored(a, p) + Scored(b, p)
  {
    if a == [] {
      assert a + b == b;
    } else {
      assert (a + b)[0] == a[0];
      assert (a + b)[1..] == a[1..] + b;
      ScoredAppend(a[1..], b, p);
    }
  }

  lemma ScoredSingle(n: SearchNode, p: Parsed)
    ensures Scored([n], p) == if n.kind in p.scope then [n.(score := Score(n, p.text))] else []
  {
  }

  /** The second filter: nodes that did not lose everything, and every
      command under a '>' query. */
  predicate Kept(node: SearchNode, query: string) {
    node.score > -ArchivedPenalty || (StartsWith(query, ">") && node.kind == CommandNode)
  }

  /** The second `filter`; `KeepFilterAppend` and `KeepFilterSingle` give
      its order and multiplicity. */
  function KeepFilter(ns: seq<SearchNode>, query: string): (r: seq<SearchNode>)
    ensures |r| <= |ns|
    ensures forall i :: 0 <= i < |r| ==> r[i] in ns && Kept(r[i], query)
    ensures forall k :: 0 <= k < |ns| && Kept(ns[k], query) ==> ns[k] in r
  {
    if ns == [] then []
    else if Kept(ns[0], query) then [ns[0]] + KeepFilter(ns[1..], query)
    else KeepFilter(ns[1..], query)
  }

  lemma {:induction false} KeepFilterAppend(a: seq<SearchNode>, b: seq<SearchNode>, query: string)
    ensures KeepFilter(a + b, query) == KeepFilter(a, query) + KeepFilter(b, query)
  {
    if a == [] {
      assert a + b == b;
    } else {
      assert (a + b)[0] == a[0];
      assert (a + b)[1..] == a[1..] + b;
      KeepFilterAppend(a[1..], b, query);
    }
  }

  lemma KeepFilterSingle(n: SearchNode, query: string)
    ensures KeepFilter([n], query) == if Kept(n, query) then [n] else []
  {
  }

  function NegScore(n: SearchNode): int { -n.score }

  function NoTie(n: SearchNode): int { 0 }

  /** `sort((a, b) => b.score - a.score)`, stable. */
  function ByScore(ns: seq<SearchNode>): (r: seq<SearchNode>)
    ensures multiset(r) == multiset(ns)
    ensures forall i, j :: 0 <= i < j < |r| ==> r[i].score >= r[j].score
  {
    SortByOrdered(ns, NegScore, NoTie);
    var r := SortBy(ns, NegScore, NoTie);
    assert forall i, j :: 0 <= i < j < |r| ==> !Precedes(NegScore, NoTie, r[j], r[i]);
    r
  }

  /** The nodes of any one score keep their input order. */
  lemma ByScoreStable(ns: seq<SearchNode>, score: int)
    ensures SameKey(ByScore(ns), NegScore, NoTie, -score, 0) == SameKey(ns, NegScore, NoTie, -score, 0)
  {
    var r := SortBy(ns, NegScore, NoTie);
    SortByStable(ns, NegScore, NoTie, -score, 0);
    assert SameKey(r, NegScore, NoTie, -score, 0) == SameKey(ns, NegScore, NoTie, -score, 0);
    assert ByScore(ns) == r;
  }

  /** The ranked list before truncation. */
  function Ranked(query: string, nodes: seq<SearchNode>): seq<SearchNode> {
    ByScore(KeepFilter(Scored(nodes, Parse(query)), query))
  }

  /** A scored node carries its own score. */
  lemma {:induction false} ScoredScores(nodes: seq<SearchNode>, p: Parsed, x: SearchNode)
    requires x in Scored(nodes, p)
    ensures x.score == Score(x, p.text)
  {
    if nodes[0].kind in p.scope && x == nodes[0].(score := Score(nodes[0], p.text)) {
    } else {
      ScoredScores(nodes[1..], p, x);
    }
  }

  /** Every ranked node carries its own score. */
  lemma RankedScores(nodes: seq<SearchNode>, p: Parsed, query: string, x: SearchNode)
    requires x in ByScore(KeepFilter(Scored(nodes, p), query))
    ensures x.score == Score(x, p.text)
  {
    var kept := KeepFilter(Scored(nodes, p), query);
    assert x in multiset(ByScore(kept));
    var i :| 0 <= i < |kept| && kept[i] == x;
    ScoredScores(nodes, p, x);
  }

  /** The archive penalty at work: an archived node is ranked after every
      unarchived node whose title scores at least as well. */
  lemma ArchivedRanksLater(query: string, nodes: seq<SearchNode>, i: int, j: int)
    requires 0 <= i < |Ranked(query, nodes)| && 0 <= j < |Ranked(query, nodes)|
    requires var r := Ranked(query, nodes);
      r[i].archived && !r[j].archived && BaseScore(r[i], Parse(query).text) <= BaseScore(r[j], Parse(query).text)
    ensures j < i
  {
    var p := Parse(query);
    var r := ByScore(KeepFilter(Scored(nodes, p), query));
    assert r == Ranked(query, nodes);
    RankedScores(nodes, p, query, r[i]);
    RankedScores(nodes, p, query, r[j]);
    PenaltyOrders(r, p.text, i, j);
  }

  /** In a list ordered by descending score, where every node carries its
      own score, the penalty puts an archived node behind. */
  lemma PenaltyOrders(r: seq<SearchNode>, text: string, i: int, j: int)
    requires forall a, b :: 0 <= a < b < |r| ==> r[a].score >= r[b].score
    requires 0 <= i < |r| && 0 <= j < |r| && r[i].score == Score(r[i], text) && r[j].score == Score(r[j], text)
    requires r[i].archived && !r[j].archived && BaseScore(r[i], text) <= BaseScore(r[j], text)
    ensures j < i
  {
  }

  /** `executeSearch`'s results for the raw input: nothing for a blank
      input; otherwise at most five nodes, best first, each a scored node of
      the searched types that passed the filter, and no ranked node left
      out scores higher than one shown. */
  function Results(raw: string, nodes: seq<SearchNode>): (r: seq<SearchNode>)
    ensures AllSpace(raw) ==> r == []
    ensures !AllSpace(raw) ==> r == Take(Ranked(Normalize(raw), nodes), MaxResults)
    ensures |r| <= MaxResults
    ensures forall i, j :: 0 <= i < j < |r| ==> r[i].score >= r[j].score
    ensures forall i :: 0 <= i < |r| ==> r[i].kind in Parse(Normalize(raw)).scope && Kept(r[i], Normalize(raw))
    ensures forall i, k :: 0 <= i < |r| <= k < |Ranked(Normalize(raw), nodes)| ==>
      Ranked(Normalize(raw), nodes)[k].score <= r[i].score
  {
    var query := Normalize(raw);
    TopShape(query, nodes);
    if query == [] then [] else Take(Ranked(query, nodes), MaxResults)
  }

  /** The first five of the ranked list: best first, each a kept node of the
      searched types, and none of the rest scores higher. */
  lemma TopShape(q: string, nodes: seq<SearchNode>)
    ensures var top := Take(Ranked(q, nodes), MaxResults);
      && |top| <= MaxResults
      && (forall i, j :: 0 <= i < j < |top| ==> top[i].score >= top[j].score)
      && (forall i :: 0 <= i < |top| ==> top[i].kind in Parse(q).scope && Kept(top[i], q))
      && (forall i, k :: 0 <= i < |top| <= k < |Ranked(q, nodes)| ==> Ranked(q, nodes)[k].score <= top[i].score)
  {
    var p := Parse(q);
    var scored := Scored(nodes, p);
    var kept := KeepFilter(scored, q);
    var ranked := ByScore(kept);
    assert ranked == Ranked(q, nodes);
    TopOfRanked(scored, kept, ranked, p, q);
  }

  lemma TopOfRanked(scored: seq<SearchNode>, kept: seq<SearchNode>, ranked: seq<SearchNode>, p: Parsed, q: string)
    requires (forall i :: 0 <= i < |scored| ==> scored[i].kind in p.scope)
    requires kept == KeepFilter(scored, q) && ranked == ByScore(kept)
    ensures var top := Take(ranked, MaxResults);
      && |top| <= MaxResults
      && (forall i, j :: 0 <= i < j < |top| ==> top[i].score >= top[j].score)
      && (forall i :: 0 <= i < |top| ==> top[i].kind in p.scope && Kept(top[i], q))
      && (forall i, k :: 0 <= i < |top| <= k < |ranked| ==> ranked[k].score <= top[i].score)
  {
    var top := Take(ranked, MaxResults);
    forall i | 0 <= i < |top|
      ensures top[i].kind in p.scope && Kept(top[i], q)
    {
      assert top[i] == ranked[i];
      assert ranked[i] in multiset(kept);
    }
  }

  /** A node of the searched types, not archived, is never filtered out:
      with no match at all it stays with score 0. */
  lemma UnarchivedKept(query: string, nodes: seq<SearchNode>, k: int)
    requires 0 <= k < |nodes| && nodes[k].kind in Parse(query).scope && !nodes[k].archived
    ensures nodes[k].(score := Score(nodes[k], Parse(query).text)) in Ranked(query, nodes)
  {
    var p := Parse(query);
    var s := Scored(nodes, p);
    var n := nodes[k].(score := Score(nodes[k], p.text));
    ScoreLevels(nodes[k], p.text);
    assert n in s;
    var kept := KeepFilter(s, query);
    assert n in kept;
    assert n in multiset(ByScore(kept));
  }

  /** Under a '>' query every command node is ranked, whatever its score. */
  lemma CommandsKept(query: string, nodes: seq<SearchNode>, k: int)
    requires StartsWith(query, ">") && 0 <= k < |nodes| && nodes[k].kind == CommandNode
    ensures nodes[k].(score := Score(nodes[k], query)) in Ranked(query, nodes)
  {
    var p := Parse(query);
    var s := Scored(nodes, p);
    var n := nodes[k].(score := Score(nodes[k], p.text));
    assert n in s;
    var kept := KeepFilter(s, query);
    assert n in kept;
    assert n in multiset(ByScore(kept));
  }

  /** The simulated index the search runs over. */
  const MockNodes: seq<SearchNode> := [
    SearchNode("1", "OP_SYNC_ALPHA", EventNode, Some("CRITICAL_TEMPORAL_SEQUENCE"), 0, None, false),
    SearchNode("2", "DAILY_RECON", EventNode, Some("ROUTINE_SECURITY_SCAN"), 0, None, false),
    SearchNode("3", "Neural Archive: Core Design", NoteNode, Some("ARCHITECTURAL_MANIFEST"), 0, None, false),
    SearchNode("4", "Fix Appwrite Sync Bug", TaskNode, Some("SYSTEM_MAINTENANCE"), 0, None, false),
    SearchNode("5", "PROJECT: ARKAN_CORE", ProjectNode, Some("PRIMARY_SYSTEM_GOAL"), 0, None, false),
    SearchNode("6", "[ARCHIVED] Legacy Neural Node", NoteNode, Some("RESTORE_TO_ACTIVE_REQUIRED"), 0, None, true),
    SearchNode("7", "[ARCHIVED] Alpha Logistics Record", TaskNode, Some("PAST_OPERATIONAL_DATA"), 0, None, true),
    SearchNode("CMD_THEME_PINK", "> theme pink", CommandNode, Some("SWITCH_TO_MAGENTA_ACCENT"), 0, Some("SET_THEME_PINK"), false),
    SearchNode("CMD_THEME_CYAN", "> theme cyan", CommandNode, Some("SWITCH_TO_CYAN_ACCENT"), 0, Some("SET_THEME_CYAN"), false),
    SearchNode("CMD_LOGOUT", "> logout", CommandNode, Some("TERMINATE_SESSION"), 0, Some("SYSTEM_SHUTDOWN"), false),
    SearchNode("CMD_SYNC", "> sync", CommandNode, Some("MANUAL_DB_SYNCHRONIZATION"), 0, Some("FORCE_HANDSHAKE"), false),
    SearchNode("CMD_BACKUP", "> backup", CommandNode, Some("CLOUD_DATA_BACKUP"), 0, Some("INIT_JSON_EXPORT"), false)
  ]

  class SearchStore {
    var query: string
    var results: seq<SearchNode>
    var isOpen: bool
    var isSearching: bool
    /** The nodes searched: the simulated index `executeSearch` declares. */
    const index: seq<SearchNode>

    constructor ()
      ensures query == "" && results == [] && !isOpen && !isSearching && index == MockNodes
    {
      query, results, isOpen, isSearching := "", [], false, false;
      index := MockNodes;
    }

    method SetQuery(q: string)
      modifies this
      ensures query == q && results == old(results) && isOpen == old(isOpen) && isSearching == old(isSearching)
    {
      query := q;
    }

    /** Sets `isOpen` to `open` when given, otherwise flips it. */
    method ToggleSearch(open: Option<bool>)
      modifies this
      ensures isOpen == if open.Some? then open.value else !old(isOpen)
      ensures query == old(query) && results == old(results) && isSearching == old(isSearching)
    {
      isOpen := if open.Some? then open.value else !isOpen;
    }

    /** Runs the search over the simulated index; a blank input clears the
        results. The typed query is not touched. */
    method ExecuteSearch(raw: string)
      modifies this
      ensures results == Results(raw, index) && !isSearching
      ensures AllSpace(raw) ==> results == []
      ensures query == old(query) && isOpen == old(isOpen)
    {
      if AllSpace(raw) {
        results, isSearching := [], false;
        return;
      }
      isSearching := true;
      results := Results(raw, index);
      isSearching := false;
    }

    method ClearResults()
      modifies this
      ensures results == [] && query == "" && !isOpen && isSearching == old(isSearching)
    {
      results, query, isOpen := [], "", false;
    }
  }
}
