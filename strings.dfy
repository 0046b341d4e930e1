/** The string primitives the source takes from Python's `str` and `re`:
    character classes, `str.split(sep)`, `sep.join`, `str.strip`, and
    `re.split("\r\n|\n|\r", s)`. */
module Strings {
  import opened Errors

  /** `\w` of a regular expression, restricted to ASCII. */
  predicate IsWordChar(c: char) {
    ('a' <= c <= 'z') || ('A' <= c <= 'Z') || ('0' <= c <= '9') || c == '_'
  }

  predicate IsDigit(c: char) {
    '0' <= c <= '9'
  }

  /** The characters `str.strip()` removes, restricted to ASCII. */
  predicate IsWhitespace(c: char) {
    c == ' ' || c == '\t' || c == '\n' || c == '\r' || c == '\U{0B}' || c == '\U{0C}'
    || ('\U{1C}' <= c <= '\U{1F}')
  }

  predicate IsLineBreak(c: char) {
    c == '\n' || c == '\r'
  }

  predicate AllSpaces(s: string) {
    forall i | 0 <= i < |s| :: s[i] == ' '
  }

  predicate AllWords(s: string) {
    forall i | 0 <= i < |s| :: IsWordChar(s[i])
  }

  predicate AllWhitespace(s: string) {
    forall i | 0 <= i < |s| :: IsWhitespace(s[i])
  }

  predicate StartsWith(s: string, prefix: string) {
    |prefix| <= |s| && s[..|prefix|] == prefix
  }

  predicate EndsWith(s: string, suffix: string) {
    |suffix| <= |s| && s[|s| - |suffix|..] == suffix
  }

  /** `s` without its leading spaces (what ` *` consumes in a pattern). */
  function DropSpaces(s: string): string {
    if s != [] && s[0] == ' ' then DropSpaces(s[1..]) else s
  }

  /** What `DropSpaces` removes is a run of spaces, and it removes all of
      them. */
  lemma {:induction false} DropSpacesSuffix(s: string)
    ensures var r := DropSpaces(s);
            |r| <= |s| && r == s[|s| - |r|..] && AllSpaces(s[..|s| - |r|])
            && (r == [] || r[0] != ' ')
  {
    if s != [] && s[0] == ' ' {
      DropSpacesSuffix(s[1..]);
      var r := DropSpaces(s);
      assert s[..|s| - |r|] == [' '] + s[1..][..|s| - 1 - |r|];
    }
  }

  /** The longest prefix of `s` made of word characters (what `\w+` takes). */
  function TakeWord(s: string): (r: string)
    ensures |r| <= |s| && r == s[..|r|] && AllWords(r)
    ensures |r| == |s| || !IsWordChar(s[|r|])
  {
    if s != [] && IsWordChar(s[0]) then [s[0]] + TakeWord(s[1..]) else []
  }

  /** Index of the first `c` in `s`. */
  function IndexOf(s: string, c: char): (r: Option<nat>)
    ensures r.Some? ==> r.value < |s| && s[r.value] == c && c !in s[..r.value]
    ensures r.None? ==> c !in s
  {
    if s == [] then None
    else if s[0] == c then Some(0)
    else match IndexOf(s[1..], c)
      case None => None
      case Some(i) => Some(i + 1)
  }

  /** `sep.join(parts)`. */
  function Join(parts: seq<string>, sep: string): string {
    if |parts| == 0 then ""
    else if |parts| == 1 then parts[0]
    else parts[0] + sep + Join(parts[1..], sep)
  }

  /** `s.split(c)` for a one-character separator: the pieces between the
      separators, empty pieces included; never empty. */
  function Split(s: string, c: char): (parts: seq<string>)
    ensures |parts| >= 1
    ensures forall i | 0 <= i < |parts| :: c !in parts[i]
    ensures Join(parts, [c]) == s
    decreases |s|
  {
    match IndexOf(s, c)
    case None => [s]
    case Some(i) =>
      var rest := Split(s[i + 1..], c);
      assert s == s[..i] + [c] + s[i + 1..];
      [s[..i]] + rest
  }

  /** `Split` inverts `Join`: the pieces of a joined list are the list. */
  lemma {:induction false} SplitJoin(parts: seq<string>, c: char)
    requires |parts| >= 1
    requires forall i | 0 <= i < |parts| :: c !in parts[i]
    ensures Split(Join(parts, [c]), c) == parts
    decreases |parts|
  {
    if |parts| == 1 {
      assert IndexOf(parts[0], c).None?;
    } else {
      var s := Join(parts, [c]);
      var tail := Join(parts[1..], [c]);
      assert s == parts[0] + [c] + tail;
      IndexOfAfterPrefix(parts[0], c, tail);
      assert s[..|parts[0]|] == parts[0];
      assert s[|parts[0]| + 1..] == tail;
      SplitJoin(parts[1..], c);
    }
  }

  lemma {:induction false} IndexOfAfterPrefix(a: string, c: char, b: string)
    requires c !in a
    ensures IndexOf(a + [c] + b, c) == Some(|a|)
    decreases |a|
  {
    if a != [] {
      assert (a + [c] + b)[1..] == a[1..] + [c] + b;
      IndexOfAfterPrefix(a[1..], c, b);
    }
  }

  /** Index of the first line break character. */
  function FirstBreak(s: string): (r: Option<nat>)
    ensures r.Some? ==> r.value < |s| && IsLineBreak(s[r.value])
                        && forall j | 0 <= j < r.value :: !IsLineBreak(s[j])
    ensures r.None? ==> forall j | 0 <= j < |s| :: !IsLineBreak(s[j])
  {
    if s == [] then None
    else if IsLineBreak(s[0]) then Some(0)
    else match FirstBreak(s[1..])
      case None => None
      case Some(i) => Some(i + 1)
  }

  /** Length of the line break starting at `i`: "\r\n" counts as one break. */
  function BreakWidth(s: string, i: nat): (w: nat)
    requires i < |s| && IsLineBreak(s[i])
    ensures 1 <= w <= 2 && i + w <= |s|
  {
    if s[i] == '\r' && i + 1 < |s| && s[i + 1] == '\n' then 2 else 1
  }

  /** `s` with every "\r\n" and every lone "\r" written as "\n". */
  function UnifyNewlines(s: string): string
    decreases |s|
  {
    if s == [] then []
    else if s[0] == '\r' && |s| > 1 && s[1] == '\n' then "\n" + UnifyNewlines(s[2..])
    else if s[0] == '\r' then "\n" + UnifyNewlines(s[1..])
    else [s[0]] + UnifyNewlines(s[1..])
  }

  /** `re.split("\r\n|\n|\r", s)`: the lines of `s` under any newline
      convention. Joining the lines with "\n" gives `s` with its newlines
      unified, and no line holds a line break character. */
  function SplitLines(s: string): (lines: seq<string>)
    ensures |lines| >= 1
    ensures forall k | 0 <= k < |lines| :: forall j | 0 <= j < |lines[k]| :: !IsLineBreak(lines[k][j])
    ensures Join(lines, "\n") == UnifyNewlines(s)
    decreases |s|
  {
    match FirstBreak(s)
    case None =>
      UnifyPlain(s, []);
      assert s + [] == s;
      [s]
    case Some(i) =>
      var w := BreakWidth(s, i);
      var rest := SplitLines(s[i + w..]);
      LineBeforeBreak(s, i, w, rest);
      [s[..i]] + rest
  }

  /** The text up to the first break, then the lines after that break. */
  lemma LineBeforeBreak(s: string, i: nat, w: nat, rest: seq<string>)
    requires i < |s| && IsLineBreak(s[i]) && forall j | 0 <= j < i :: !IsLineBreak(s[j])
    requires w == BreakWidth(s, i) && |rest| >= 1
    requires forall k | 0 <= k < |rest| :: forall j | 0 <= j < |rest[k]| :: !IsLineBreak(rest[k][j])
    requires Join(rest, "\n") == UnifyNewlines(s[i + w..])
    ensures forall k | 0 <= k < |[s[..i]] + rest| :: forall j | 0 <= j < |([s[..i]] + rest)[k]| :: !IsLineBreak(([s[..i]] + rest)[k][j])
    ensures Join([s[..i]] + rest, "\n") == UnifyNewlines(s)
  {
    var lines := [s[..i]] + rest;
    assert lines[1..] == rest;
    assert forall k | 1 <= k < |lines| :: lines[k] == rest[k - 1];
    assert s == s[..i] + s[i..];
    UnifyPlain(s[..i], s[i..]);
    UnifyBreak(s[i..], w);
    assert s[i..][w..] == s[i + w..];
  }

  lemma {:induction false} UnifyPlain(a: string, b: string)
    requires forall j | 0 <= j < |a| :: !IsLineBreak(a[j])
    ensures UnifyNewlines(a + b) == a + UnifyNewlines(b)
    decreases |a|
  {
    if a != [] {
      assert (a + b)[1..] == a[1..] + b;
      UnifyPlain(a[1..], b);
    } else {
      assert a + b == b;
    }
  }

  lemma UnifyBreak(t: string, w: nat)
    requires t != [] && IsLineBreak(t[0])
    requires w == BreakWidth(t, 0)
    ensures UnifyNewlines(t) == "\n" + UnifyNewlines(t[w..])
  {
  }

  predicate AllLineBreaks(s: string) {
    forall j | 0 <= j < |s| :: IsLineBreak(s[j])
  }

  predicate AllEmpty(lines: seq<string>) {
    forall k | 0 <= k < |lines| :: lines[k] == ""
  }

  lemma AllLineBreaksConcat(a: string, b: string)
    ensures AllLineBreaks(a + b) <==> AllLineBreaks(a) && AllLineBreaks(b)
  {
    if AllLineBreaks(a + b) {
      forall j | 0 <= j < |a| ensures IsLineBreak(a[j]) {
        assert a[j] == (a + b)[j];
      }
      forall j | 0 <= j < |b| ensures IsLineBreak(b[j]) {
        assert b[j] == (a + b)[|a| + j];
      }
    }
    if AllLineBreaks(a) && AllLineBreaks(b) {
      forall j | 0 <= j < |a + b| ensures IsLineBreak((a + b)[j]) {
        if j < |a| {
          assert (a + b)[j] == a[j];
        } else {
          assert (a + b)[j] == b[j - |a|];
        }
      }
    }
  }

  lemma AllEmptyCons(x: string, rest: seq<string>)
    ensures AllEmpty([x] + rest) <==> x == "" && AllEmpty(rest)
  {
    if AllEmpty([x] + rest) {
      assert x == ([x] + rest)[0];
      forall k | 0 <= k < |rest| ensures rest[k] == "" {
        assert rest[k] == ([x] + rest)[k + 1];
      }
    }
  }

  /** Every line is empty exactly when `s` holds nothing but line breaks. */
  lemma {:induction false} SplitLinesAllEmpty(s: string)
    ensures AllEmpty(SplitLines(s)) <==> AllLineBreaks(s)
    decreases |s|
  {
    match FirstBreak(s)
    case None =>
      if s != [] {
        assert !IsLineBreak(s[0]);
      }
    case Some(i) =>
      var w := BreakWidth(s, i);
      var rest := SplitLines(s[i + w..]);
      assert SplitLines(s) == [s[..i]] + rest;
      AllEmptyCons(s[..i], rest);
      SplitLinesAllEmpty(s[i + w..]);
      LineBreaksAround(s, i, w);
  }

  lemma LineBreaksAround(s: string, i: nat, w: nat)
    requires i < |s| && IsLineBreak(s[i]) && forall j | 0 <= j < i :: !IsLineBreak(s[j])
    requires w == BreakWidth(s, i)
    ensures AllLineBreaks(s) <==> i == 0 && AllLineBreaks(s[i + w..])
  {
      assert s == s[..i] + (s[i..i + w] + s[i + w..]);
      AllLineBreaksConcat(s[..i], s[i..i + w] + s[i + w..]);
      AllLineBreaksConcat(s[i..i + w], s[i + w..]);
      assert AllLineBreaks(s[i..i + w]);
      if AllLineBreaks(s[..i]) && i > 0 {
        assert IsLineBreak(s[0]);
      }
  }

  /** `s.lstrip()`. */
  function LStrip(s: string): (r: string)
    ensures |r| <= |s| && r == s[|s| - |r|..]
    ensures AllWhitespace(s[..|s| - |r|])
    ensures r == [] || !IsWhitespace(r[0])
  {
    if s != [] && IsWhitespace(s[0]) then LStrip(s[1..]) else s
  }

  /** `s.rstrip()`. */
  function RStrip(s: string): (r: string)
    ensures |r| <= |s| && r == s[..|r|]
    ensures AllWhitespace(s[|r|..])
    ensures r == [] || !IsWhitespace(r[|r| - 1])
  {
    if s != [] && IsWhitespace(s[|s| - 1]) then RStrip(s[..|s| - 1]) else s
  }

  /** `s.strip()`. */
  function Strip(s: string): string {
    RStrip(LStrip(s))
  }

  /** `s.strip()` is falsy exactly for whitespace-only text. */
  lemma StripEmpty(s: string)
    ensures Strip(s) == "" <==> AllWhitespace(s)
  {
    var l := LStrip(s);
    if AllWhitespace(s) {
      LStripAllWhitespace(s);
    }
    if Strip(s) == "" {
      assert l[0..] == l;
      assert s == s[..|s| - |l|] + l;
    }
  }

  lemma {:induction false} LStripAllWhitespace(s: string)
    requires AllWhitespace(s)
    ensures LStrip(s) == []
    decreases |s|
  {
    if s != [] {
      LStripAllWhitespace(s[1..]);
    }
  }

  /** `t` occurs in `s` at index `j`. */
  predicate OccursAt(s: string, t: string, j: nat) {
    j + |t| <= |s| && s[j..j + |t|] == t
  }

  lemma OccursShift(s: string, t: string, j: nat)
    requires s != [] && j >= 1
    ensures OccursAt(s, t, j) <==> OccursAt(s[1..], t, j - 1)
  {
    if j + |t| <= |s| {
      assert s[1..][j - 1..j - 1 + |t|] == s[j..j + |t|];
    }
  }

  /** Index of the first occurrence of a non-empty `t` in `s`. */
  function FindSub(s: string, t: string): (r: Option<nat>)
    requires |t| > 0
    ensures r.Some? ==> OccursAt(s, t, r.value)
    ensures r.Some? ==> forall j: nat | j < r.value :: !OccursAt(s, t, j)
    ensures r.None? ==> forall j: nat :: !OccursAt(s, t, j)
    decreases |s|
  {
    if |s| < |t| then None
    else if s[..|t|] == t then Some(0)
    else match FindSub(s[1..], t)
      case None =>
        assert forall j: nat :: !OccursAt(s, t, j) by {
          forall j: nat ensures !OccursAt(s, t, j) {
            if j >= 1 {
              OccursShift(s, t, j);
            }
          }
        }
        None
      case Some(i) =>
        assert forall j: nat | j <= i + 1 :: OccursAt(s, t, j) == (j == i + 1) by {
          forall j: nat | j <= i + 1 ensures OccursAt(s, t, j) == (j == i + 1) {
            if j >= 1 {
              OccursShift(s, t, j);
            }
          }
        }
        Some(i + 1)
  }

  /** `s.split(sep)` for a non-empty separator string. */
  function SplitStr(s: string, sep: string): (parts: seq<string>)
    requires |sep| > 0
    ensures |parts| >= 1
    ensures Join(parts, sep) == s
    decreases |s|
  {
    match FindSub(s, sep)
    case None => [s]
    case Some(i) =>
      assert s[i..i + |sep|] == sep;
      assert s == s[..i] + sep + s[i + |sep|..];
      [s[..i]] + SplitStr(s[i + |sep|..], sep)
  }
}
