/**
 * String primitives of the two runtimes the site runs on: JavaScript's
 * `trim`, `split` and `padEnd` in the browser and Python's `strip`,
 * `partition` and `splitlines` on the chat server. Strings are sequences
 * of Unicode scalar values; case folding is ASCII only.
 */
module Text {

  /** White space for JavaScript's `String.prototype.trim` and the regular-expression class `\s`. */
  predicate IsJsSpace(c: char) {
    c == ' ' || c == '\t' || c == '\n' || c == '\r' || c == '\U{B}' || c == '\U{C}'
    || c == '\U{A0}' || c == '\U{FEFF}' || c == '\U{1680}' || ('\U{2000}' <= c <= '\U{200A}')
    || c == '\U{2028}' || c == '\U{2029}' || c == '\U{202F}' || c == '\U{205F}' || c == '\U{3000}'
  }

  /** White space for Python's `str.strip()` with no argument (`str.isspace`). */
  predicate IsPySpace(c: char) {
    c == ' ' || c == '\t' || c == '\n' || c == '\r' || c == '\U{B}' || c == '\U{C}'
    || ('\U{1C}' <= c <= '\U{1F}') || c == '\U{85}' || c == '\U{A0}' || c == '\U{1680}'
    || ('\U{2000}' <= c <= '\U{200A}') || c == '\U{2028}' || c == '\U{2029}'
    || c == '\U{202F}' || c == '\U{205F}' || c == '\U{3000}'
  }

  /** Line boundaries recognised by Python's `str.splitlines()`. */
  predicate IsPyLineBreak(c: char) {
    c == '\n' || c == '\r' || c == '\U{B}' || c == '\U{C}' || ('\U{1C}' <= c <= '\U{1E}')
    || c == '\U{85}' || c == '\U{2028}' || c == '\U{2029}'
  }

  /** The characters of Python's `strip("'\"")`. */
  predicate IsQuote(c: char) { c == '\'' || c == '"' }

  /** Index of the first character satisfying `p`, or `|s|` when there is none. */
  function FirstWhere(s: string, p: char -> bool): (i: nat)
    ensures i <= |s|
    ensures forall k :: 0 <= k < i ==> !p(s[k])
    ensures i < |s| ==> p(s[i])
  {
    if s == [] || p(s[0]) then 0 else 1 + FirstWhere(s[1..], p)
  }

  /** `s` without its leading characters that satisfy `drop`. */
  function StripStart(s: string, drop: char -> bool): (r: string)
    ensures |r| <= |s| && r == s[|s| - |r|..]
    ensures r != [] ==> !drop(r[0])
    ensures forall k :: 0 <= k < |s| - |r| ==> drop(s[k])
    ensures s != [] && drop(s[0]) ==> |r| < |s|
  {
    if s != [] && drop(s[0]) then StripStart(s[1..], drop) else s
  }

  /** `s` without its trailing characters that satisfy `drop`. */
  function StripEnd(s: string, drop: char -> bool): (r: string)
    ensures |r| <= |s| && r == s[..|r|]
    ensures r != [] ==> !drop(r[|r| - 1])
    ensures forall k :: |r| <= k < |s| ==> drop(s[k])
  {
    if s != [] && drop(s[|s| - 1]) then StripEnd(s[..|s| - 1], drop) else s
  }

  /** `s` without the characters satisfying `drop` at either end. */
  function Strip(s: string, drop: char -> bool): (r: string)
    ensures |r| <= |s|
    ensures r != [] ==> !drop(r[0]) && !drop(r[|r| - 1])
  {
    StripEnd(StripStart(s, drop), drop)
  }

  /** Stripping leaves nothing exactly when every character is one it drops. */
  lemma StripBlank(s: string, drop: char -> bool)
    ensures Strip(s, drop) == [] <==> forall k :: 0 <= k < |s| ==> drop(s[k])
  {
    var a := StripStart(s, drop);
    var r := StripEnd(a, drop);
    assert r == [] ==> forall k :: 0 <= k < |s| ==> drop(s[k]) by {
      forall k | |s| - |a| <= k < |s| ensures s[k] == a[k - (|s| - |a|)] { }
    }
    assert r != [] ==> !drop(s[|s| - |a|]) by {
      if r != [] { assert r[0] == a[0]; }
    }
  }

  /** A text that neither starts nor ends with a dropped character is left as it is. */
  lemma StripClean(s: string, drop: char -> bool)
    requires s != [] ==> !drop(s[0]) && !drop(s[|s| - 1])
    ensures Strip(s, drop) == s
  {
  }

  /** One dropped character on each side of a clean text is removed, and nothing more. */
  lemma StripWrapped(c: char, v: string, drop: char -> bool)
    requires drop(c) && v != [] && !drop(v[0]) && !drop(v[|v| - 1])
    ensures Strip([c] + v + [c], drop) == v
  {
    var s := [c] + v + [c];
    assert s[1..] == v + [c];
    assert StripStart(s, drop) == v + [c];
    assert (v + [c])[..|v|] == v;
    assert StripEnd(v + [c], drop) == StripEnd(v, drop);
  }

  /** JavaScript's `s.trim()`. */
  function Trim(s: string): string { Strip(s, IsJsSpace) }

  /** Python's `s.strip()`. */
  function PyStrip(s: string): string { Strip(s, IsPySpace) }

  function LowerChar(c: char): char {
    if 'A' <= c <= 'Z' then (c as int + 32) as char else c
  }

  /** `s.toLowerCase()`, restricted to ASCII letters. */
  function Lower(s: string): (r: string)
    ensures |r| == |s|
    ensures forall k :: 0 <= k < |s| ==> r[k] == LowerChar(s[k])
  {
    seq(|s|, k requires 0 <= k < |s| => LowerChar(s[k]))
  }

  function Repeat(c: char, n: nat): (r: string)
    ensures |r| == n && forall k :: 0 <= k < n ==> r[k] == c
  {
    seq(n, _ => c)
  }

  /** `s.padEnd(n)`: right-pad with spaces to width `n`; a longer `s` is left alone. */
  function PadEnd(s: string, n: nat): (r: string)
    ensures |r| == if |s| >= n then |s| else n
    ensures r[..|s|] == s
    ensures forall k :: 0 <= k < |s| ==> r[k] == s[k]
    ensures forall k :: |s| <= k < |r| ==> r[k] == ' '
  {
    if |s| >= n then s else s + Repeat(' ', n - |s|)
  }

  /** `parts.join(sep)` / `sep.join(parts)`. */
  function Join(parts: seq<string>, sep: string): string
  {
    if |parts| == 0 then ""
    else if |parts| == 1 then parts[0]
    else parts[0] + sep + Join(parts[1..], sep)
  }

  /** Joining two lists is joining the first, then the separator and the second when it is not empty. */
  lemma {:induction false} JoinAppend(a: seq<string>, b: seq<string>, sep: string)
    requires a != []
    ensures Join(a + b, sep) == Join(a, sep) + (if b == [] then "" else sep + Join(b, sep))
    decreases |a|
  {
    if b == [] {
      assert a + b == a;
    } else if |a| == 1 {
      assert (a + b)[1..] == b;
    } else {
      assert (a + b)[1..] == a[1..] + b;
      JoinAppend(a[1..], b, sep);
    }
  }

  /** Index of the first `c` in `s`, or `|s|` when there is none. */
  function IndexOf(s: string, c: char): (i: nat)
    ensures i <= |s| && c !in s[..i]
    ensures i < |s| ==> s[i] == c
  {
    if s == [] || s[0] == c then 0 else 1 + IndexOf(s[1..], c)
  }

  /** `s.split(c)` for a one-character separator: every occurrence of `c` is a boundary. */
  function Split(s: string, c: char): (r: seq<string>)
    ensures |r| >= 1
    ensures forall i :: 0 <= i < |r| ==> c !in r[i]
  {
    var i := IndexOf(s, c);
    if i == |s| then [s] else [s[..i]] + Split(s[i + 1..], c)
  }

  /** JavaScript's `s.split(/\s+/)`: the pieces between maximal runs of white space. */
  function SplitSpaceRuns(s: string): (r: seq<string>)
    ensures |r| >= 1
    decreases |s|
  {
    var i := FirstWhere(s, IsJsSpace);
    if i == |s| then [s]
    else [s[..i]] + SplitSpaceRuns(StripStart(s[i..], IsJsSpace))
  }

  /** The pieces of Python's `s.splitlines()`, possibly with extra empty pieces (see `Lines`). */
  function Lines(s: string): (r: seq<string>)
    ensures forall i :: 0 <= i < |r| ==> forall k :: 0 <= k < |r[i]| ==> !IsPyLineBreak(r[i][k])
    decreases |s|
  {
    if s == [] then []
    else
      var i := FirstWhere(s, IsPyLineBreak);
      if i == |s| then [s] else [s[..i]] + Lines(s[i + 1..])
  }

  function DigitChar(d: nat): (c: char)
    requires d < 10
    ensures '0' <= c <= '9' && c as int - '0' as int == d
  {
    ('0' as int + d) as char
  }

  /** Decimal rendering of a natural number, as `String(n)` and `str(n)` give it. */
  function NatToString(n: nat): (r: string)
    ensures r != []
    ensures forall k :: 0 <= k < |r| ==> '0' <= r[k] <= '9'
  {
    if n < 10 then [DigitChar(n)] else NatToString(n / 10) + [DigitChar(n % 10)]
  }

  function IntToString(n: int): string {
    if n < 0 then "-" + NatToString(-n) else NatToString(n)
  }

  /** The split of a joined list returns the list: `Join` is the partner of `Split`. */
  lemma {:induction false} SplitJoin(parts: seq<string>, c: char)
    requires |parts| >= 1
    requires forall i :: 0 <= i < |parts| ==> c !in parts[i]
    ensures Split(Join(parts, [c]), c) == parts
  {
    if |parts| == 1 {
      assert IndexOf(parts[0], c) == |parts[0]|;
    } else {
      var rest := Join(parts[1..], [c]);
      assert Join(parts, [c]) == parts[0] + [c] + rest;
      SplitAt(parts[0], rest, c);
      SplitJoin(parts[1..], c);
      assert parts == [parts[0]] + parts[1..];
    }
  }

  /** A string free of the separator is a single piece. */
  lemma SplitNone(a: string, c: char)
    requires c !in a
    ensures Split(a, c) == [a]
  {
    assert a[..|a|] == a;
  }

  /** The first separator ends the first piece. */
  lemma SplitAt(a: string, b: string, c: char)
    requires c !in a
    ensures Split(a + [c] + b, c) == [a] + Split(b, c)
  {
    var s := a + [c] + b;
    var i := IndexOf(s, c);
    assert s[..|a|] == a;
    assert s[|a|] == c;
    assert i == |a|;
    assert s[i + 1..] == b;
  }

  /** Joining the pieces of a split gives back the original string. */
  lemma {:induction false} JoinSplit(s: string, c: char)
    ensures Join(Split(s, c), [c]) == s
    decreases |s|
  {
    var i := IndexOf(s, c);
    if i < |s| {
      JoinSplit(s[i + 1..], c);
      var tail := Split(s[i + 1..], c);
      assert Split(s, c) == [s[..i]] + tail;
      assert s == s[..i] + [c] + s[i + 1..];
    }
  }

  predicate IsWord(w: string) {
    w != [] && forall k :: 0 <= k < |w| ==> !IsJsSpace(w[k])
  }

  /** Lower-casing a word leaves a word: no letter becomes white space. */
  lemma LowerKeepsWord(w: string)
    requires IsWord(w)
    ensures IsWord(Lower(w))
  {
    forall k | 0 <= k < |w| ensures !IsJsSpace(Lower(w)[k]) {
      assert Lower(w)[k] == LowerChar(w[k]);
    }
  }

  lemma {:induction false} JoinWordsStartsWithWord(ws: seq<string>)
    requires |ws| >= 1 && forall i :: 0 <= i < |ws| ==> IsWord(ws[i])
    ensures ws[0] != [] && Join(ws, " ") != [] && Join(ws, " ")[0] == ws[0][0]
  {
    assert ws[0] != [];
    if |ws| > 1 { assert Join(ws, " ") == ws[0] + (" " + Join(ws[1..], " ")); }
  }

  /**
   * A line trimmed by `trim` splits into words: every piece `split(/\s+/)` yields
   * is a non-empty run of non-space characters.
   */
  lemma {:induction false} SplitTrimmedIntoWords(s: string)
    requires s != [] && !IsJsSpace(s[0]) && !IsJsSpace(s[|s| - 1])
    ensures forall i :: 0 <= i < |SplitSpaceRuns(s)| ==> IsWord(SplitSpaceRuns(s)[i])
    decreases |s|
  {
    var i := FirstWhere(s, IsJsSpace);
    if i < |s| {
      var rest := StripStart(s[i..], IsJsSpace);
      FirstRunOfWord(s);
      TrimmedAfterRun(s, i);
      SplitTrimmedIntoWords(rest);
      assert SplitSpaceRuns(s) == [s[..i]] + SplitSpaceRuns(rest);
      WordsCons(s[..i], SplitSpaceRuns(rest));
    } else {
      FirstRunOfWord(s);
      assert s[..i] == s;
    }
  }

  /** The characters before the first white space of a trimmed text form a word. */
  lemma FirstRunOfWord(s: string)
    requires s != [] && !IsJsSpace(s[0])
    ensures IsWord(s[..FirstWhere(s, IsJsSpace)])
  {
    var i := FirstWhere(s, IsJsSpace);
    assert i > 0;
    forall k | 0 <= k < i ensures !IsJsSpace(s[..i][k]) {
      assert s[..i][k] == s[k];
    }
  }

  /** Past the first run of white space, a text that does not end in white space is non-empty, starts
      with a non-space and keeps its last character. */
  lemma TrimmedAfterRun(s: string, i: nat)
    requires s != [] && !IsJsSpace(s[|s| - 1])
    requires i < |s|
    ensures var rest := StripStart(s[i..], IsJsSpace);
            rest != [] && !IsJsSpace(rest[0]) && !IsJsSpace(rest[|rest| - 1]) && |rest| < |s| - i + 1
  {
    var t := s[i..];
    assert t[|t| - 1] == s[|s| - 1];
    StripStartKeepsLast(t, IsJsSpace);
  }

  /** Stripping leading characters from a text whose last character is kept leaves that character last. */
  lemma StripStartKeepsLast(t: string, drop: char -> bool)
    requires t != [] && !drop(t[|t| - 1])
    ensures var r := StripStart(t, drop); r != [] && r[|r| - 1] == t[|t| - 1]
  {
    var r := StripStart(t, drop);
    var cut := |t| - |r|;
    assert cut < |t|;
    assert r[|r| - 1] == t[cut..][|r| - 1];
  }

  /** A word in front of a list of words is a list of words. */
  lemma WordsCons(w: string, ws: seq<string>)
    requires IsWord(w) && forall j :: 0 <= j < |ws| ==> IsWord(ws[j])
    ensures forall j :: 0 <= j < |[w] + ws| ==> IsWord(([w] + ws)[j])
  {
    forall j | 0 <= j < |[w] + ws| ensures IsWord(([w] + ws)[j]) {
      if j > 0 { assert ([w] + ws)[j] == ws[j - 1]; }
    }
  }

  /** Leading white space before a trimmed text is dropped by `trim`, and nothing else is. */
  lemma {:induction false} TrimPadded(w: string, x: string)
    requires forall k :: 0 <= k < |w| ==> IsJsSpace(w[k])
    requires x != [] && !IsJsSpace(x[0]) && !IsJsSpace(x[|x| - 1])
    ensures Trim(w + x) == x
  {
    StripPadding(w, x);
  }

  lemma {:induction false} StripPadding(w: string, x: string)
    requires forall k :: 0 <= k < |w| ==> IsJsSpace(w[k])
    requires x != [] && !IsJsSpace(x[0])
    ensures StripStart(w + x, IsJsSpace) == x
  {
    var s := w + x;
    if w != [] {
      assert s[0] == w[0];
      assert s[1..] == w[1..] + x;
      StripPadding(w[1..], x);
      assert StripStart(s, IsJsSpace) == StripStart(s[1..], IsJsSpace);
    } else {
      assert s == x;
    }
  }

  lemma StripOneSpace(w: string)
    requires w != [] && !IsJsSpace(w[0])
    ensures StripStart(" " + w, IsJsSpace) == w
  {
    assert (" " + w)[1..] == w;
  }

  lemma FirstSpaceAfterWord(w: string, rest: string)
    requires IsWord(w)
    ensures FirstWhere(w + " " + rest, IsJsSpace) == |w|
  {
    var s := w + " " + rest;
    var i := FirstWhere(s, IsJsSpace);
    assert forall k :: 0 <= k < |w| ==> s[k] == w[k];
    assert s[|w|] == ' ';
    assert !(i < |w|);
  }

  lemma SplitAfterWord(w: string, rest: string)
    requires IsWord(w) && rest != [] && !IsJsSpace(rest[0])
    ensures SplitSpaceRuns(w + " " + rest) == [w] + SplitSpaceRuns(rest)
  {
    var s := w + " " + rest;
    FirstSpaceAfterWord(w, rest);
    assert s[|w|..] == " " + rest;
    StripOneSpace(rest);
    assert s[..|w|] == w;
  }

  /** Splitting words joined by single spaces gives back the words. */
  lemma {:induction false} SplitJoinWords(ws: seq<string>)
    requires |ws| >= 1 && forall i :: 0 <= i < |ws| ==> IsWord(ws[i])
    ensures SplitSpaceRuns(Join(ws, " ")) == ws
  {
    if |ws| == 1 {
      SplitOneWord(ws[0]);
    } else {
      WordsTail(ws);
      SplitJoinWords(ws[1..]);
      JoinWordsStartsWithWord(ws[1..]);
      SplitJoinStep(ws[0], ws[1..]);
      assert [ws[0]] + ws[1..] == ws;
    }
  }

  /** A word put in front of a list that splits back into itself also splits back. */
  lemma SplitJoinStep(w: string, tail: seq<string>)
    requires IsWord(w) && |tail| >= 1
    requires Join(tail, " ") != [] && !IsJsSpace(Join(tail, " ")[0])
    requires SplitSpaceRuns(Join(tail, " ")) == tail
    ensures SplitSpaceRuns(Join([w] + tail, " ")) == [w] + tail
  {
    var ws := [w] + tail;
    assert ws[1..] == tail;
    assert Join(ws, " ") == w + " " + Join(tail, " ");
    SplitAfterWord(w, Join(tail, " "));
  }

  /** A single word is a single piece. */
  lemma SplitOneWord(w: string)
    requires IsWord(w)
    ensures SplitSpaceRuns(w) == [w]
  {
    assert FirstWhere(w, IsJsSpace) == |w|;
  }

  /** The words after the first of a list of words are words. */
  lemma WordsTail(ws: seq<string>)
    requires |ws| >= 1 && forall i :: 0 <= i < |ws| ==> IsWord(ws[i])
    ensures IsWord(ws[0]) && forall i :: 0 <= i < |ws[1..]| ==> IsWord(ws[1..][i])
  {
    forall i | 0 <= i < |ws[1..]| ensures IsWord(ws[1..][i]) { assert ws[1..][i] == ws[i + 1]; }
  }
}
