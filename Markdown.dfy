/** The per-line Markdown classifier and renderer of the focus editor
    (src/lib/markdown/MarkdownAST.ts). Each line is classified on its text
    without leading whitespace; inline `**bold**` and `*italic*` runs are
    replaced by spans, as the two global regular-expression replacements do. */
module Markdown {
  import opened Common

  datatype TokenType = H1 | H2 | H3 | List | Quote | Code | Text

  datatype Token = Token(kind: TokenType, content: string, raw: string)

  predicate IsDigit(c: char) {
    '0' <= c <= '9'
  }

  /** The length of the leading run of digits. */
  function DigitRun(s: string): (n: nat)
    ensures n <= |s| && (forall i :: 0 <= i < n ==> IsDigit(s[i])) && (n == |s| || !IsDigit(s[n]))
  {
    if s == [] || !IsDigit(s[0]) then 0 else 1 + DigitRun(s[1..])
  }

  /** `/^\d+\./`. */
  predicate NumberDot(s: string) {
    var n := DigitRun(s);
    n >= 1 && n < |s| && s[n] == '.'
  }

  /** `parseLine`. */
  function ParseLine(line: string): (t: Token)
    ensures t.raw == line
    ensures var tr := TrimStart(line);
      && (StartsWith(tr, "# ") ==> t == Token(H1, tr[2..], line))
      && (!StartsWith(tr, "# ") && StartsWith(tr, "## ") ==> t == Token(H2, tr[3..], line))
      && (!StartsWith(tr, "# ") && !StartsWith(tr, "## ") && StartsWith(tr, "### ") ==> t == Token(H3, tr[4..], line))
  {
    var tr := TrimStart(line);
    if StartsWith(tr, "# ") then Token(H1, tr[2..], line)
    else if StartsWith(tr, "## ") then Token(H2, tr[3..], line)
    else if StartsWith(tr, "### ") then Token(H3, tr[4..], line)
    else if NumberDot(tr) || StartsWith(tr, "- ") || StartsWith(tr, "* ") then Token(List, tr, line)
    else if StartsWith(tr, "> ") then Token(Quote, tr[2..], line)
    else if StartsWith(tr, "```") then Token(Code, tr, line)
    else Token(Text, line, line)
  }

  /** A line that is not a heading is a list item exactly when its trimmed
      text opens with digits and a dot, '- ' or '* ', and then the item's
      content is the whole trimmed text. Past the list rule come quotes,
      fences, and plain text, whose content keeps the leading whitespace. */
  lemma ParseLineLater(line: string)
    ensures var tr := TrimStart(line); var t := ParseLine(line);
      !StartsWith(tr, "# ") && !StartsWith(tr, "## ") && !StartsWith(tr, "### ") ==>
        && (t.kind == List <==> NumberDot(tr) || StartsWith(tr, "- ") || StartsWith(tr, "* "))
        && (t.kind == List ==> t.content == tr)
        && (t.kind != List && StartsWith(tr, "> ") ==> t == Token(Quote, tr[2..], line))
        && (t.kind != List && !StartsWith(tr, "> ") && StartsWith(tr, "```") ==> t == Token(Code, tr, line))
        && (t.kind != List && !StartsWith(tr, "> ") && !StartsWith(tr, "```") ==> t == Token(Text, line, line))
  {
  }

  /** Four hashes make no heading: such a line is plain text, untrimmed. */
  lemma FourHashesIsText(rest: string)
    ensures ParseLine("  ####" + rest) == Token(Text, "  ####" + rest, "  ####" + rest)
  {
    var line := "  ####" + rest;
    assert line[0] == ' ' && line[1..][0] == ' ' && line[2] == '#';
    assert line[1..][1..] == line[2..];
    assert TrimStart(line) == TrimStart(line[1..]) == TrimStart(line[2..]);
    var tr := "####" + rest;
    assert line[2..] == tr;
    assert TrimStart(line) == tr;
    assert tr[0] == '#' && tr[1] == '#' && tr[2] == '#' && tr[3] == '#';
    assert !StartsWith(tr, "# ") && !StartsWith(tr, "## ") && !StartsWith(tr, "### ");
    assert DigitRun(tr) == 0;
    assert !StartsWith(tr, "- ") && !StartsWith(tr, "* ") && !StartsWith(tr, "> ") && !StartsWith(tr, "```");
  }

  predicate IsLineTerminator(c: char) {
    c == '\n' || c == '\r' || c == '\U{2028}' || c == '\U{2029}'
  }

  /** Where the lazy `(.*?)` stops: the first `delim` at or after `j` with
      no line terminator before it (`.` does not match one). */
  function CloseAt(s: string, j: nat, delim: string): (r: Option<nat>)
    requires j <= |s|
    ensures r.Some? ==> j <= r.value && r.value + |delim| <= |s| && StartsWith(s[r.value..], delim)
    ensures r.Some? ==> forall k :: j <= k < r.value ==> !IsLineTerminator(s[k]) && !StartsWith(s[k..], delim)
    decreases |s| - j
  {
    if StartsWith(s[j..], delim) then Some(j)
    else if j == |s| || IsLineTerminator(s[j]) then None
    else CloseAt(s, j + 1, delim)
  }

  /** `s.replace(/D(.*?)D/g, open + '$1' + close)` for the delimiter `D`. */
  function ReplaceDelimited(s: string, delim: string, open: string, close: string): string
    requires delim != ""
    decreases |s|
  {
    if s == [] then []
    else if StartsWith(s, delim) && CloseAt(s, |delim|, delim).Some? then
      var k := CloseAt(s, |delim|, delim).value;
      open + s[|delim|..k] + close + ReplaceDelimited(s[k + |delim|..], delim, open, close)
    else [s[0]] + ReplaceDelimited(s[1..], delim, open, close)
  }

  const BoldOpen := "<span class=\"font-bold text-primary\">"
  const ItalicOpen := "<span class=\"italic text-primary/80\">"
  const SpanClose := "</span>"

  /** `processText`: bold runs first, then italic runs. */
  function ProcessText(text: string): string {
    ReplaceDelimited(ReplaceDelimited(text, "**", BoldOpen, SpanClose), "*", ItalicOpen, SpanClose)
  }

  /** Text whose delimiter's first character never occurs is left as it is. */
  lemma {:induction false} ReplaceAbsent(s: string, delim: string, open: string, close: string)
    requires delim != "" && delim[0] !in s
    ensures ReplaceDelimited(s, delim, open, close) == s
  {
    if s != [] {
      assert s[1..] == s[1..] && delim[0] !in s[1..];
      ReplaceAbsent(s[1..], delim, open, close);
      assert !StartsWith(s, delim) by {
        assert s[0] != delim[0];
      }
    }
  }

  /** Text without '*' is not changed. */
  lemma ProcessPlain(text: string)
    requires '*' !in text
    ensures ProcessText(text) == text
  {
    ReplaceAbsent(text, "**", BoldOpen, SpanClose);
    ReplaceAbsent(text, "*", ItalicOpen, SpanClose);
  }

  /** The lazy match stops at the first delimiter when nothing before it
      ends the line or opens a delimiter. */
  lemma {:induction false} CloseAfter(s: string, j: nat, n: nat, delim: string)
    requires j + n + |delim| <= |s| && StartsWith(s[j + n..], delim)
    requires forall k :: j <= k < j + n ==> !IsLineTerminator(s[k]) && !StartsWith(s[k..], delim)
    ensures CloseAt(s, j, delim) == Some(j + n)
    decreases n
  {
    if n > 0 {
      CloseAfter(s, j + 1, n - 1, delim);
    }
  }

  /** Text in which the delimiter never occurs is left as it is. */
  lemma {:induction false} ReplaceNone(s: string, delim: string, open: string, close: string)
    requires delim != ""
    requires forall k :: 0 <= k <= |s| ==> !StartsWith(s[k..], delim)
    ensures ReplaceDelimited(s, delim, open, close) == s
  {
    if s != [] {
      assert !StartsWith(s[0..], delim);
      assert s[0..] == s;
      forall k | 0 <= k <= |s[1..]|
        ensures !StartsWith(s[1..][k..], delim)
      {
        assert s[1..][k..] == s[k + 1..];
      }
      ReplaceNone(s[1..], delim, open, close);
    }
  }

  lemma SpansPlain()
    ensures '*' !in BoldOpen && '*' !in ItalicOpen && '*' !in SpanClose
  {
  }

  predicate PlainWord(w: string) {
    forall k :: 0 <= k < |w| ==> w[k] != '*' && !IsLineTerminator(w[k])
  }

  /** `**w**` becomes a bold span around `w`. */
  lemma BoldRun(w: string)
    requires PlainWord(w)
    ensures ProcessText("**" + w + "**") == BoldOpen + w + SpanClose
  {
    var s := "**" + w + "**";
    forall k | 2 <= k < 2 + |w|
      ensures !IsLineTerminator(s[k]) && !StartsWith(s[k..], "**")
    {
      assert s[k] == w[k - 2];
      assert s[k..][0] == s[k];
    }
    assert s[2 + |w|..] == "**";
    CloseAfter(s, 2, |w|, "**");
    assert s[2..2 + |w|] == w;
    assert s[|w| + 4..] == [];
    assert ReplaceDelimited(s, "**", BoldOpen, SpanClose) == BoldOpen + w + SpanClose;
    SpansPlain();
    assert '*' !in w by {
      forall k | 0 <= k < |w| ensures w[k] != '*' { }
    }
    assert '*' !in BoldOpen + w + SpanClose;
    ReplaceAbsent(BoldOpen + w + SpanClose, "*", ItalicOpen, SpanClose);
  }

  /** `*w*` holds no `**` when `w` is a non-empty plain word. */
  lemma SingleStars(w: string)
    requires w != "" && PlainWord(w)
    ensures var s := "*" + w + "*"; forall k :: 0 <= k <= |s| ==> !StartsWith(s[k..], "**")
  {
    var s := "*" + w + "*";
    forall k | 0 <= k <= |s|
      ensures !StartsWith(s[k..], "**")
    {
      if k + 2 <= |s| {
        if k == 0 {
          assert s[k..][1] == w[0];
        } else {
          assert s[k..][0] == w[k - 1];
        }
      }
    }
  }

  /** `*w*` for a non-empty `w` becomes an italic span around `w`. */
  lemma ItalicRun(w: string)
    requires w != "" && PlainWord(w)
    ensures ProcessText("*" + w + "*") == ItalicOpen + w + SpanClose
  {
    var s := "*" + w + "*";
    SingleStars(w);
    ReplaceNone(s, "**", BoldOpen, SpanClose);
    ItalicClose(w);
    assert s[1..1 + |w|] == w;
    assert s[|w| + 2..] == [];
    assert StartsWith(s, "*");
    assert ReplaceDelimited(s, "*", ItalicOpen, SpanClose) == ItalicOpen + w + SpanClose;
  }

  lemma ItalicClose(w: string)
    requires PlainWord(w)
    ensures CloseAt("*" + w + "*", 1, "*") == Some(1 + |w|)
  {
    var s := "*" + w + "*";
    forall k | 1 <= k < 1 + |w|
      ensures !IsLineTerminator(s[k]) && !StartsWith(s[k..], "*")
    {
      assert s[k] == w[k - 1];
      assert s[k..][0] == s[k];
    }
    assert s[1 + |w|..] == "*";
    CloseAfter(s, 1, |w|, "*");
  }

  function OpacityClass(active: bool): string {
    if active then "opacity-100" else "opacity-40 transition-opacity duration-500"
  }

  function MarkerVisibility(active: bool): string {
    if active then "opacity-30" else "hidden"
  }

  /** `token.raw.length - token.raw.trimStart().length`. */
  function LeadingSpaces(raw: string): nat {
    |raw| - |TrimStart(raw)|
  }

  /** The decimal text of `h / 2` as JavaScript prints a half-integer. */
  function HalfText(h: nat): (r: string)
    ensures h % 2 == 0 ==> r == NatToString(h / 2)
    ensures h % 2 == 1 ==> r == NatToString(h / 2) + ".5"
  {
    if h % 2 == 0 then NatToString(h / 2) else NatToString(h / 2) + ".5"
  }

  /** The indent of a line with `n` leading whitespace characters:
      `(n * 0.5 + 1)rem` when there are any, the default class otherwise. */
  function IndentStyle(n: nat): (r: string)
    ensures n == 0 ==> r == "class=\"pl-4\""
    ensures n > 0 ==> r == "style=\"padding-left: " + HalfText(n + 2) + "rem;\""
  {
    if n > 0 then "style=\"padding-left: " + HalfText(n + 2) + "rem;\"" else "class=\"pl-4\""
  }

  lemma IndentExamples()
    ensures IndentStyle(0) == "class=\"pl-4\""
    ensures IndentStyle(1) == "style=\"padding-left: 1.5rem;\""
    ensures IndentStyle(2) == "style=\"padding-left: 2rem;\""
    ensures IndentStyle(4) == "style=\"padding-left: 3rem;\""
  {
  }

  /** The integer part of the printed indent is `n / 2 + 1`. */
  lemma IndentValue(n: nat)
    ensures DigitsValue(NatToString((n + 2) / 2)) == n / 2 + 1
  {
    NatToStringValue((n + 2) / 2);
  }

  function MarkerOpen(active: bool): string {
    "<span class=\"" + MarkerVisibility(active) + "\">"
  }

  function Marker(active: bool, m: string): string {
    MarkerOpen(active) + m + "</span>"
  }

  /** An element whose class list ends with the line's opacity:
      `head` opens the tag up to the opacity class. */
  function Element(head: string, opacity: string, inner: string, close: string): string {
    head + opacity + "\">" + inner + close
  }

  /** The list marker `/^(\d+\.|[-*])\s/` matches, with its length. */
  function ListPrefixLength(content: string): (r: Option<nat>)
    ensures r.Some? ==> 2 <= r.value <= |content| && IsSpace(content[r.value - 1])
  {
    if NumberDot(content) then
      var n := DigitRun(content);
      if n + 1 < |content| && IsSpace(content[n + 1]) then Some(n + 2) else None
    else if |content| >= 2 && (content[0] == '-' || content[0] == '*') && IsSpace(content[1]) then Some(2)
    else None
  }

  const TaskHead := "class=\"py-0.5 text-primary/80 font-bold border-l-2 border-primary/20 bg-primary/5 "
  const ListHead := "class=\"py-0.5 text-white/80 monospaced-technical-list "
  const CodeHead := "<pre class=\"bg-black/40 p-2 rounded border border-primary/10 my-2 font-mono text-[10px] text-primary/80 "
  const TextHead := "<p class=\"leading-relaxed text-white/70 "

  function RenderList(content: string, indent: string, active: bool): string {
    if StartsWith(content, "- [ ] ") || StartsWith(content, "* [ ] ") then
      Element("<div " + indent + " " + TaskHead, OpacityClass(active),
        Marker(active, "- [ ] ") + ProcessText(content[6..]), "</div>")
    else
      var m := ListPrefixLength(content);
      var prefix := if m.Some? then content[..m.value] else "- ";
      var text := if m.Some? then content[m.value..] else content;
      Element("<div " + indent + " " + ListHead, OpacityClass(active),
        Marker(active, prefix) + ProcessText(text), "</div>")
  }

  /** `renderLine`. */
  function RenderLine(line: string, active: bool): string {
    RenderToken(ParseLine(line), active)
  }

  /** The tag up to the opacity class, for every kind but lists. */
  function Head(k: TokenType): string {
    match k
    case H1 => "<h1 class=\"text-3xl font-bold text-primary neon-yellow-glow pb-2 "
    case H2 => "<h2 class=\"text-2xl font-bold text-primary/90 pb-1 "
    case H3 => "<h3 class=\"text-xl font-bold text-primary/80 "
    case Quote => "<blockquote class=\"border-l-4 border-primary/30 pl-4 py-1 italic text-primary/60 block-quote-dim "
    case Code => CodeHead
    case _ => TextHead
  }

  function Close(k: TokenType): string {
    match k
    case H1 => "</h1>"
    case H2 => "</h2>"
    case H3 => "</h3>"
    case Quote => "</blockquote>"
    case Code => "</pre>"
    case _ => "</p>"
  }

  /** The marker shown before a heading or quote. */
  function MarkerText(k: TokenType): string {
    match k
    case H1 => "# "
    case H2 => "## "
    case H3 => "### "
    case _ => "> "
  }

  /** The element's content: code as it is, text processed or a
      non-breaking space when that is empty, the rest marker then text. */
  function Inner(t: Token, active: bool): string {
    match t.kind
    case Code => t.content
    case Text =>
      var body := ProcessText(t.content);
      if body == "" then "&nbsp;" else body
    case _ => Marker(active, MarkerText(t.kind)) + ProcessText(t.content)
  }

  /** The HTML of one classified line. */
  function RenderToken(t: Token, active: bool): string {
    if t.kind == List then RenderList(t.content, IndentStyle(LeadingSpaces(t.raw)), active)
    else Element(Head(t.kind), OpacityClass(active), Inner(t, active), Close(t.kind))
  }

  lemma ContainsAt(s: string, sub: string, i: nat)
    requires i + |sub| <= |s| && s[i..i + |sub|] == sub
    ensures Contains(s, sub)
  {
    assert StartsWith(s[i..], sub);
  }

  lemma ContainsTransitive(s: string, mid: string, sub: string)
    requires Contains(s, mid) && Contains(mid, sub)
    ensures Contains(s, sub)
  {
    var i :| 0 <= i <= |s| && StartsWith(s[i..], mid);
    var j :| 0 <= j <= |mid| && StartsWith(mid[j..], sub);
    forall k | 0 <= k < |sub| ensures s[i + j + k] == sub[k] {
      assert s[i + j + k] == s[i..][..|mid|][j + k];
      assert sub[k] == mid[j..][..|sub|][k];
    }
    assert s[i + j..][..|sub|] == sub;
    assert StartsWith(s[i + j..], sub);
  }

  /** An element shows its opacity class and its inner text. */
  lemma ElementContains(head: string, opacity: string, inner: string, close: string)
    ensures Contains(Element(head, opacity, inner, close), opacity)
    ensures Contains(Element(head, opacity, inner, close), inner)
  {
    var e := Element(head, opacity, inner, close);
    var k := |head| + |opacity| + 2;
    assert e[|head|..|head| + |opacity|] == opacity;
    ContainsAt(e, opacity, |head|);
    assert e[k..k + |inner|] == inner;
    ContainsAt(e, inner, k);
  }

  /** A fence line is shown verbatim: its trimmed text, asterisks and all,
      appears in the output unprocessed. */
  lemma CodeIsVerbatim(line: string, active: bool)
    requires ParseLine(line).kind == Code
    ensures Contains(RenderLine(line, active), TrimStart(line))
  {
    ElementContains(CodeHead, OpacityClass(active), TrimStart(line), "</pre>");
  }

  /** An empty line renders as a non-breaking space. */
  lemma EmptyLine(active: bool)
    ensures RenderLine("", active) == Element(TextHead, OpacityClass(active), "&nbsp;", "</p>")
  {
    assert ParseLine("").kind == Text;
  }

  /** A task item drops its six-character marker from the processed text. */
  lemma TaskItem(line: string, active: bool)
    requires StartsWith(TrimStart(line), "- [ ] ")
    ensures RenderLine(line, active)
      == Element("<div " + IndentStyle(LeadingSpaces(line)) + " " + TaskHead, OpacityClass(active),
           Marker(active, "- [ ] ") + ProcessText(TrimStart(line)[6..]), "</div>")
  {
    var tr := TrimStart(line);
    TaskItemParses(line);
    assert RenderLine(line, active) == RenderList(tr, IndentStyle(LeadingSpaces(line)), active);
  }

  lemma TaskItemParses(line: string)
    requires StartsWith(TrimStart(line), "- [ ] ")
    ensures ParseLine(line) == Token(List, TrimStart(line), line)
  {
    var tr := TrimStart(line);
    assert !StartsWith(tr, "# ") by { assert tr[0] == '-'; }
    assert !StartsWith(tr, "## ") by { assert tr[0] == '-'; }
    assert !StartsWith(tr, "### ") by { assert tr[0] == '-'; }
    assert StartsWith(tr, "- ") by { assert tr[..2] == "- "; }
  }

  lemma ListOpacity(c: string, indent: string, active: bool)
    ensures Contains(RenderList(c, indent, active), OpacityClass(active))
  {
    var op := OpacityClass(active);
    if StartsWith(c, "- [ ] ") || StartsWith(c, "* [ ] ") {
      ElementContains("<div " + indent + " " + TaskHead, op, Marker(active, "- [ ] ") + ProcessText(c[6..]), "</div>");
    } else {
      var m := ListPrefixLength(c);
      var prefix := if m.Some? then c[..m.value] else "- ";
      var text := if m.Some? then c[m.value..] else c;
      ElementContains("<div " + indent + " " + ListHead, op, Marker(active, prefix) + ProcessText(text), "</div>");
    }
  }

  /** Every line carries the opacity of its state: full on the line being
      edited, dimmed on the others. */
  lemma OpacityEverywhere(t: Token, active: bool)
    ensures Contains(RenderToken(t, active), OpacityClass(active))
  {
    if t.kind == List {
      ListOpacity(t.content, IndentStyle(LeadingSpaces(t.raw)), active);
    } else {
      ElementContains(Head(t.kind), OpacityClass(active), Inner(t, active), Close(t.kind));
    }
  }

  lemma InnerStartsWithMarker(t: Token, active: bool)
    requires t.kind == H1 || t.kind == H2 || t.kind == H3 || t.kind == Quote
    ensures Contains(Inner(t, active), MarkerOpen(active))
  {
    var inner := Inner(t, active);
    var sp := MarkerOpen(active);
    var m := MarkerText(t.kind);
    var rest := ProcessText(t.content);
    var mk := Marker(active, m);
    assert mk[..|sp|] == sp;
    assert inner == mk + rest;
    assert inner[..|sp|] == mk[..|sp|];
    ContainsAt(inner, sp, 0);
  }

  /** The markers of an inactive heading or quote are hidden. */
  lemma InactiveMarkersHidden(t: Token)
    requires t.kind == H1 || t.kind == H2 || t.kind == H3 || t.kind == Quote
    ensures Contains(RenderToken(t, false), MarkerOpen(false))
  {
    ElementContains(Head(t.kind), OpacityClass(false), Inner(t, false), Close(t.kind));
    InnerStartsWithMarker(t, false);
    ContainsTransitive(RenderToken(t, false), Inner(t, false), MarkerOpen(false));
  }
}
