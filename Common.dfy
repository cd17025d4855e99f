/** Shared vocabulary of the client stores: optional values, the outcome of a
    remote call, and the JavaScript string and list operations the stores use. */
module Common {

  datatype Option<T> = None | Some(value: T) {
    function GetOr(default: T): T {
      match this
      case Some(v) => v
      case None => default
    }
  }

  /** What one call to the hosted backend gave back: the data it returned, or
      the message of the error it reported. */
  datatype Remote<T> = Ok(value: T) | Err(message: string)

  /** A remote call whose data is not used (update, delete). */
  datatype Outcome = Pass | Fail(message: string)

  /** A value of a request body sent to the backend. A `Date` travels as the
      text of its `toISOString()`, represented here by its timestamp. */
  datatype Json = JStr(text: string) | JBool(flag: bool) | JNum(number: int) | JStrs(items: seq<string>) | JIsoDate(ms: int)

  /** JavaScript truthiness of a `string | null`: null and "" are falsy. */
  predicate Truthy(s: Option<string>) {
    s.Some? && s.value != ""
  }

  /** The characters `String.prototype.trim` removes and `\s` matches:
      WhiteSpace (including the Zs category) and LineTerminator. */
  predicate IsSpace(c: char) {
    c == '\t' || c == '\n' || c == '\U{B}' || c == '\U{C}' || c == '\r' || c == ' '
    || c == '\U{A0}' || c == '\U{1680}' || ('\U{2000}' <= c <= '\U{200A}')
    || c == '\U{2028}' || c == '\U{2029}' || c == '\U{202F}' || c == '\U{205F}'
    || c == '\U{3000}' || c == '\U{FEFF}'
  }

  predicate AllSpace(s: string) {
    forall i :: 0 <= i < |s| ==> IsSpace(s[i])
  }

  /** `trimStart`: drops the leading whitespace. */
  function TrimStart(s: string): (r: string)
    ensures |r| <= |s|
    ensures r == [] || !IsSpace(r[0])
  {
    if s == [] || !IsSpace(s[0]) then s else TrimStart(s[1..])
  }

  /** What `trimStart` drops is whitespace, and what it keeps is a suffix. */
  lemma {:induction false} TrimStartShape(s: string, t: string)
    requires t == TrimStart(s)
    ensures |t| <= |s| && t == s[|s| - |t|..]
    ensures AllSpace(s[..|s| - |t|])
  {
    if s != [] && IsSpace(s[0]) {
      TrimStartShape(s[1..], t);
      var dropped := s[1..][..|s| - 1 - |t|];
      var pre := s[..|s| - |t|];
      forall i | 0 <= i < |pre| ensures IsSpace(pre[i]) {
        if i > 0 {
          assert pre[i] == dropped[i - 1];
        }
      }
      assert s[1..][|s| - 1 - |t|..] == s[|s| - |t|..];
    } else {
      assert s[|s| - |s|..] == s;
    }
  }

  function TrimEnd(s: string): (r: string)
    ensures |r| <= |s|
    ensures r == [] || !IsSpace(r[|r| - 1])
  {
    if s == [] || !IsSpace(s[|s| - 1]) then s else TrimEnd(s[..|s| - 1])
  }

  /** What `trimEnd` drops is whitespace, and what it keeps is a prefix. */
  lemma {:induction false} TrimEndShape(t: string, r: string)
    requires r == TrimEnd(t)
    ensures |r| <= |t| && r == t[..|r|]
    ensures AllSpace(t[|r|..])
  {
    if t != [] && IsSpace(t[|t| - 1]) {
      TrimEndShape(t[..|t| - 1], r);
      assert t[..|t| - 1][|r|..] == t[|r|..|t| - 1];
      assert t[..|t| - 1][..|r|] == t[..|r|];
    } else {
      assert t[..|t|] == t;
    }
  }

  /** `trim`. */
  function Trim(s: string): (r: string)
    ensures r == [] || (!IsSpace(r[0]) && !IsSpace(r[|r| - 1]))
    ensures r == [] <==> AllSpace(s)
    ensures exists i, j :: 0 <= i <= j <= |s| && r == s[i..j] && AllSpace(s[..i]) && AllSpace(s[j..])
  {
    var t := TrimStart(s);
    var r := TrimEnd(t);
    TrimEmptyIff(s, t, r);
    TrimSlice(s, t, r);
    TrimFirst(t, r);
    r
  }

  lemma TrimSlice(s: string, t: string, r: string)
    requires t == TrimStart(s) && r == TrimEnd(t)
    ensures exists i, j :: 0 <= i <= j <= |s| && r == s[i..j] && AllSpace(s[..i]) && AllSpace(s[j..])
  {
    TrimStartShape(s, t);
    TrimEndShape(t, r);
    BlankFramed(s, t, r);
    var i := |s| - |t|;
    assert i + |r| <= |s| && r == s[i..i + |r|] && AllSpace(s[..i]) && AllSpace(s[i + |r|..]);
  }

  lemma TrimFirst(t: string, r: string)
    requires (t == [] || !IsSpace(t[0])) && r == TrimEnd(t)
    ensures r == [] || !IsSpace(r[0])
  {
    TrimEndShape(t, r);
    if r != [] {
      assert r[0] == t[0];
    }
  }

  /** A slice that follows an all-blank prefix, cut before an all-blank
      tail, sits between two all-blank runs of the whole text. */
  lemma BlankFramed(s: string, t: string, r: string)
    requires |t| <= |s| && t == s[|s| - |t|..]
    requires |r| <= |t| && r == t[..|r|] && AllSpace(t[|r|..])
    ensures r == s[|s| - |t|..|s| - |t| + |r|] && AllSpace(s[|s| - |t| + |r|..])
  {
    SliceOfSuffix(s, |s| - |t|, |r|);
  }

  lemma SliceOfSuffix(s: string, i: nat, n: nat)
    requires i + n <= |s|
    ensures s[i..][..n] == s[i..i + n] && s[i..][n..] == s[i + n..]
  {
  }

  lemma TrimEmptyIff(s: string, t: string, r: string)
    requires t == TrimStart(s) && r == TrimEnd(t)
    ensures r == [] <==> AllSpace(s)
  {
    TrimStartShape(s, t);
    TrimEndShape(t, r);
    if t == [] {
      assert s[..|s|] == s;
    } else {
      assert !IsSpace(t[0]);
    }
  }

  /** `toLowerCase` on the ASCII letters. */
  function ToLowerChar(c: char): char {
    if 'A' <= c <= 'Z' then (c as int + 32) as char else c
  }

  /** `toUpperCase` on the ASCII letters. */
  function ToUpperChar(c: char): char {
    if 'a' <= c <= 'z' then (c as int - 32) as char else c
  }

  function ToLower(s: string): (r: string)
    ensures |r| == |s| && forall i :: 0 <= i < |s| ==> r[i] == ToLowerChar(s[i])
  {
    if s == [] then [] else [ToLowerChar(s[0])] + ToLower(s[1..])
  }

  function ToUpper(s: string): (r: string)
    ensures |r| == |s| && forall i :: 0 <= i < |s| ==> r[i] == ToUpperChar(s[i])
  {
    if s == [] then [] else [ToUpperChar(s[0])] + ToUpper(s[1..])
  }

  predicate StartsWith(s: string, p: string) {
    |p| <= |s| && s[..|p|] == p
  }

  /** `includes`: `sub` occurs in `s` at some position. */
  predicate Contains(s: string, sub: string) {
    exists i :: 0 <= i <= |s| && StartsWith(s[i..], sub)
  }

  lemma ContainsEmpty(s: string)
    ensures Contains(s, "")
  {
    assert StartsWith(s[0..], "");
  }

  lemma ContainsSelf(s: string)
    ensures Contains(s, s)
  {
    assert s[0..] == s;
    assert StartsWith(s[0..], s);
  }

  /** `substring(0, n)` (and `slice(0, n)`) for n >= 0. */
  function Take<T>(s: seq<T>, n: nat): (r: seq<T>)
    ensures |r| == if n <= |s| then n else |s|
    ensures r == s[..|r|]
  {
    if n <= |s| then s[..n] else s
  }

  /** `s.filter(x => key(x) !== k)`. */
  function FilterOut<T>(s: seq<T>, key: T -> string, k: string): (r: seq<T>)
    ensures |r| <= |s|
    ensures forall i :: 0 <= i < |r| ==> r[i] in s && key(r[i]) != k
    ensures forall i :: 0 <= i < |s| && key(s[i]) != k ==> s[i] in r
    ensures (forall i :: 0 <= i < |s| ==> key(s[i]) != k) ==> r == s
  {
    if s == [] then []
    else if key(s[0]) == k then FilterOut(s[1..], key, k)
    else [s[0]] + FilterOut(s[1..], key, k)
  }

  /** `s.map(x => key(x) === k ? f(x) : x)`. */
  function MapMatching<T>(s: seq<T>, key: T -> string, k: string, f: T -> T): (r: seq<T>)
    ensures |r| == |s|
    ensures forall i :: 0 <= i < |s| ==> r[i] == if key(s[i]) == k then f(s[i]) else s[i]
    ensures (forall i :: 0 <= i < |s| ==> key(s[i]) != k) ==> r == s
  {
    if s == [] then []
    else [if key(s[0]) == k then f(s[0]) else s[0]] + MapMatching(s[1..], key, k, f)
  }

  /** Filtering twice by the same key is filtering once. */
  lemma {:induction false} FilterOutIdempotent<T>(s: seq<T>, key: T -> string, k: string)
    ensures FilterOut(FilterOut(s, key, k), key, k) == FilterOut(s, key, k)
  {
    var r := FilterOut(s, key, k);
  }

  /** Filtering keeps the order of what it keeps: it distributes over
      concatenation. */
  lemma {:induction false} FilterOutAppend<T>(a: seq<T>, b: seq<T>, key: T -> string, k: string)
    ensures FilterOut(a + b, key, k) == FilterOut(a, key, k) + FilterOut(b, key, k)
  {
    if a == [] {
      assert a + b == b;
    } else {
      assert (a + b)[0] == a[0];
      assert (a + b)[1..] == a[1..] + b;
      FilterOutAppend(a[1..], b, key, k);
    }
  }

  /** `s.find(x => key(x) === k)`: the first element with that key. */
  function FindBy<T>(s: seq<T>, key: T -> string, k: string): (r: Option<T>)
    ensures r.Some? <==> exists i :: 0 <= i < |s| && key(s[i]) == k
    ensures r.Some? ==> r.value in s && key(r.value) == k
    ensures forall i :: 0 <= i < |s| && key(s[i]) == k && (forall j :: 0 <= j < i ==> key(s[j]) != k) ==> r == Some(s[i])
  {
    if s == [] then None
    else if key(s[0]) == k then Some(s[0])
    else
      var r := FindBy(s[1..], key, k);
      assert forall i :: 1 <= i < |s| ==> s[i] == s[1..][i - 1];
      r
  }

  /** The keys of a list, in order. */
  function Keys<T>(s: seq<T>, key: T -> string): (r: seq<string>)
    ensures |r| == |s| && forall i :: 0 <= i < |s| ==> r[i] == key(s[i])
  {
    if s == [] then [] else [key(s[0])] + Keys(s[1..], key)
  }

  /** Decimal text of a natural number, as JavaScript prints it. */
  function NatToString(n: nat): (r: string)
    ensures |r| >= 1
    ensures forall i :: 0 <= i < |r| ==> '0' <= r[i] <= '9'
  {
    if n < 10 then [('0' as int + n) as char]
    else NatToString(n / 10) + [('0' as int + n % 10) as char]
  }

  /** The number a decimal text denotes. */
  function DigitsValue(s: string): int
  {
    if s == [] then 0 else 10 * DigitsValue(s[..|s| - 1]) + (s[|s| - 1] as int - '0' as int)
  }

  /** Printing a number and reading it back gives the number. */
  lemma {:induction false} NatToStringValue(n: nat)
    ensures DigitsValue(NatToString(n)) == n
  {
    if n >= 10 {
      NatToStringValue(n / 10);
      var s := NatToString(n);
      assert s[..|s| - 1] == NatToString(n / 10);
    }
  }

  /** `filter(Boolean)` on strings. */
  function NonEmpty(ws: seq<string>): (r: seq<string>)
    ensures |r| <= |ws|
    ensures forall k :: 0 <= k < |r| ==> r[k] != "" && r[k] in ws
    ensures (forall k :: 0 <= k < |ws| ==> ws[k] != "") ==> r == ws
  {
    if ws == [] then []
    else if ws[0] == "" then NonEmpty(ws[1..])
    else [ws[0]] + NonEmpty(ws[1..])
  }

  /** The strings written one after another. */
  function Concat(ws: seq<string>): string {
    if ws == [] then "" else ws[0] + Concat(ws[1..])
  }

  /** Dropping empty strings does not change their concatenation. */
  lemma {:induction false} NonEmptyConcat(ws: seq<string>)
    ensures Concat(NonEmpty(ws)) == Concat(ws)
  {
    if ws != [] {
      NonEmptyConcat(ws[1..]);
      if ws[0] != "" {
        assert ([ws[0]] + NonEmpty(ws[1..]))[1..] == NonEmpty(ws[1..]);
      } else {
        assert ws[0] + Concat(ws[1..]) == Concat(ws[1..]);
      }
    }
  }

  /** `filter(Boolean)` keeps the non-empty strings in order: it distributes
      over concatenation, and a single string is kept iff it is non-empty. */
  lemma {:induction false} NonEmptyAppend(a: seq<string>, b: seq<string>)
    ensures NonEmpty(a + b) == NonEmpty(a) + NonEmpty(b)
  {
    if a == [] {
      assert a + b == b;
    } else {
      assert (a + b)[0] == a[0];
      assert (a + b)[1..] == a[1..] + b;
      NonEmptyAppend(a[1..], b);
    }
  }

  lemma NonEmptySingle(w: string)
    ensures NonEmpty([w]) == if w == "" then [] else [w]
  {
  }
}
