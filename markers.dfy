/** Tokens and the classification of template markers (`_switch_tokens` and
    the token classes with their fixed patterns). A marker is a `{{…}}` or
    `{*…*}` span found by the scanner; it ends at the first closing delimiter,
    so matching a class pattern at its start is the same as matching it
    whole, and each class is written here as a full-match predicate. */
module Markers {
  import opened Errors
  import opened Strings

  datatype Kind =
    | Text
    | OpenLoop
    | CloseLoop
    | Var
    | OpenCase
    | CloseCase
    | OpenSwitch
    | CloseSwitch
    | Include

  datatype Token = Token(kind: Kind, content: string)

  /** `s[2:-2]`: the text between the two-character delimiters. */
  function Inner(s: string): (r: string)
    ensures |s| >= 4 ==> |r| == |s| - 4 && s == s[..2] + r + s[|s| - 2..]
    ensures |s| < 4 ==> r == ""
  {
    if |s| >= 4 then s[2..|s| - 2] else ""
  }

  predicate IsStarMarker(m: string) {
    |m| >= 4 && m[..2] == "{*" && m[|m| - 2..] == "*}"
  }

  predicate IsBraceMarker(m: string) {
    |m| >= 4 && m[..2] == "{{" && m[|m| - 2..] == "}}"
  }

  /** ` *kw`: what follows the keyword after optional leading spaces. */
  function AfterKeyword(b: string, kw: string): Option<string> {
    var d := DropSpaces(b);
    if StartsWith(d, kw) then Some(d[|kw|..]) else None
  }

  /** ` +(\w+) *`: the word, when `r` is at least one space, a word and
      optional spaces. */
  function SpacedWord(r: string): (w: Option<string>)
    ensures w.Some? ==> |w.value| > 0 && AllWords(w.value)
  {
    var d := DropSpaces(r);
    var word := TakeWord(d);
    if |d| < |r| && |word| > 0 && AllSpaces(d[|word|..]) then Some(word) else None
  }

  /** `(?: +(\w+))? *`. */
  predicate OptionalName(r: string) {
    AllSpaces(r) || SpacedWord(r).Some?
  }

  /** `{\* *kw +(\w+) *\*}` (OPENLOOP, OPENSWITCH, INCLUDE). */
  predicate NamedOpen(m: string, kw: string) {
    IsStarMarker(m) && var a := AfterKeyword(Inner(m), kw); a.Some? && SpacedWord(a.value).Some?
  }

  /** `{\* *kw *\*}` (CLOSELOOP, CLOSESWITCH, CLOSECASE). */
  predicate Close(m: string, kw: string) {
    IsStarMarker(m) && var a := AfterKeyword(Inner(m), kw); a.Some? && AllSpaces(a.value)
  }

  /** `{\* *case( +\w+)? *\*}` (OPENCASE). */
  predicate CaseOpen(m: string) {
    IsStarMarker(m) && var a := AfterKeyword(Inner(m), "case"); a.Some? && OptionalName(a.value)
  }

  predicate IsQuote(c: char) {
    c == '\'' || c == '"'
  }

  /** `'.+?'` or `".+?"` ending at index `k` of `b`, followed by
      `(?: +(\w+))? *`. */
  predicate QuotedTypeEndsAt(b: string, k: nat) {
    2 <= k < |b| && IsQuote(b[0]) && b[k] == b[0]
    && (forall j | 1 <= j < k :: b[j] != '\n')
    && OptionalName(b[k + 1..])
  }

  /** `{{ *(\w+|'.+?'|".+?")(?: +(\w+))? *}}` (VAR). */
  predicate VarMarker(m: string) {
    IsBraceMarker(m) && var b := DropSpaces(Inner(m));
    var w := TakeWord(b);
    (|w| > 0 && OptionalName(b[|w|..]))
    || (exists k | 2 <= k < |b| :: QuotedTypeEndsAt(b, k))
  }

  /** The pattern of each marker class. */
  predicate Matches(k: Kind, m: string) {
    match k
    case Text => false
    case OpenLoop => NamedOpen(m, "loop")
    case CloseLoop => Close(m, "endloop")
    case Var => VarMarker(m)
    case OpenCase => CaseOpen(m)
    case CloseCase => Close(m, "endcase")
    case OpenSwitch => NamedOpen(m, "switch")
    case CloseSwitch => Close(m, "endswitch")
    case Include => NamedOpen(m, "include")
  }

  /** The order in which the marker classes are tried. */
  const OpOrder: seq<Kind> := [OpenLoop, CloseLoop, Var, OpenCase, CloseCase, OpenSwitch, CloseSwitch, Include]

  /** The suffix of the "could not parse token" message. */
  function Hint(m: string): string {
    if m == "{*switch*}" then " (switch name required)"
    else if m == "{*loop*}" then " (loop name required)"
    else ""
  }

  /** `_switch_tokens`: the first class in `OpOrder` whose pattern the marker
      matches, or a syntax error naming the marker. */
  function Classify(m: string): (r: Result<Token>)
    ensures r.Ok? ==> r.value.content == m && r.value.kind != Text && Matches(r.value.kind, m)
    ensures r.Err? <==> forall k: Kind :: !Matches(k, m)
    ensures r.Err? ==> r.error == SyntaxError("could not parse token " + m + Hint(m))
  {
    if Matches(OpenLoop, m) then Ok(Token(OpenLoop, m))
    else if Matches(CloseLoop, m) then Ok(Token(CloseLoop, m))
    else if Matches(Var, m) then Ok(Token(Var, m))
    else if Matches(OpenCase, m) then Ok(Token(OpenCase, m))
    else if Matches(CloseCase, m) then Ok(Token(CloseCase, m))
    else if Matches(OpenSwitch, m) then Ok(Token(OpenSwitch, m))
    else if Matches(CloseSwitch, m) then Ok(Token(CloseSwitch, m))
    else if Matches(Include, m) then Ok(Token(Include, m))
    else
      assert forall k: Kind :: !Matches(k, m) by {
        forall k: Kind ensures !Matches(k, m) {
          assert k == Text || k in OpOrder;
        }
      }
      Err(SyntaxError("could not parse token " + m + Hint(m)))
  }

  lemma KeywordsDisjoint(b: string, kw1: string, kw2: string)
    requires AfterKeyword(b, kw1).Some? && AfterKeyword(b, kw2).Some?
    requires |kw1| <= |kw2|
    ensures kw2[..|kw1|] == kw1
  {
    var d := DropSpaces(b);
    assert StartsWith(d, kw1) && StartsWith(d, kw2);
    assert kw2[..|kw1|] == d[..|kw2|][..|kw1|] == d[..|kw1|];
  }

  /** At most one class matches any marker, so the order in which the
      classes are tried never decides the outcome. */
  lemma ClassesDisjoint(k1: Kind, k2: Kind, m: string)
    requires Matches(k1, m) && Matches(k2, m)
    ensures k1 == k2
  {
    var b := Inner(m);
    if k1 != k2 && k1 != Var && k2 != Var {
      var w1 := KeywordOf(k1);
      var w2 := KeywordOf(k2);
      if |w1| <= |w2| {
        KeywordsDisjoint(b, w1, w2);
        KeywordsDiffer(k1, k2);
      } else {
        KeywordsDisjoint(b, w2, w1);
        KeywordsDiffer(k2, k1);
      }
    }
  }

  function KeywordOf(k: Kind): string
    requires k != Text && k != Var
  {
    match k
    case OpenLoop => "loop"
    case CloseLoop => "endloop"
    case OpenCase => "case"
    case CloseCase => "endcase"
    case OpenSwitch => "switch"
    case CloseSwitch => "endswitch"
    case Include => "include"
  }

  lemma KeywordsDiffer(k1: Kind, k2: Kind)
    requires k1 != Text && k1 != Var && k2 != Text && k2 != Var
    requires |KeywordOf(k1)| <= |KeywordOf(k2)|
    requires KeywordOf(k2)[..|KeywordOf(k1)|] == KeywordOf(k1)
    ensures k1 == k2
  {
    var a := KeywordOf(k1);
    var b := KeywordOf(k2);
    assert b[0] == a[0];
    if a[0] == 'e' {
      assert b[3] == a[3];
    }
  }

  lemma HintForLoop()
    ensures Classify("{*loop*}") == Err(SyntaxError("could not parse token " + "{*loop*}" + " (loop name required)"))
  {
    var m := "{*loop*}";
    assert |m| == 8 && m != "{*switch*}";
    assert Inner(m) == "loop";
    assert DropSpaces("loop") == "loop";
    assert StartsWith("loop", "loop") && "loop"[4..] == "";
    assert AfterKeyword("loop", "loop") == Some("");
    assert !Matches(OpenLoop, m);
    assert !StartsWith("loop", "endloop") && !StartsWith("loop", "case") && !StartsWith("loop", "endcase");
    assert !Matches(CloseLoop, m) && !Matches(OpenCase, m) && !Matches(CloseCase, m);
    assert !StartsWith("loop", "switch") && !StartsWith("loop", "endswitch") && !StartsWith("loop", "include");
    assert !Matches(OpenSwitch, m) && !Matches(CloseSwitch, m) && !Matches(Include, m);
    assert !IsBraceMarker(m) by {
      assert m[..2][1] == '*';
    }
    assert !Matches(Var, m);
    NoClass(m);
  }

  /** A marker that matches no class is reported with the hint. */
  lemma NoClass(m: string)
    requires !Matches(OpenLoop, m) && !Matches(CloseLoop, m) && !Matches(Var, m) && !Matches(OpenCase, m)
    requires !Matches(CloseCase, m) && !Matches(OpenSwitch, m) && !Matches(CloseSwitch, m) && !Matches(Include, m)
    ensures Classify(m) == Err(SyntaxError("could not parse token " + m + Hint(m)))
  {
  }

  /** "{* loop *}" is no OPENLOOP, and gets no hint: the hint is given only
      for the exact texts "{*loop*}" and "{*switch*}". */
  lemma NoHintWhenPadded()
    ensures Hint("{* loop *}") == ""
    ensures !Matches(OpenLoop, "{* loop *}")
  {
    assert "{* loop *}"[2] != "{*switch*}"[2];
    PaddedInner();
    PaddedKeyword();
    SpaceIsNoName();
  }

  lemma PaddedInner()
    ensures Inner("{* loop *}") == " loop "
  {
  }

  lemma PaddedKeyword()
    ensures AfterKeyword(" loop ", "loop") == Some(" ")
  {
    assert DropSpaces(" loop ") == "loop ";
    assert StartsWith("loop ", "loop") && "loop "[4..] == " ";
  }

  lemma SpaceIsNoName()
    ensures SpacedWord(" ") == None
  {
    assert DropSpaces(" ") == "";
  }

  /** The name of a loop or switch block: `content[2:-2].split(' ')[1]`,
      which is the second space-separated piece of the marker body, not
      necessarily the word after the keyword. */
  function BlockName(content: string): (r: Result<string>)
    ensures r.Ok? <==> ' ' in Inner(content)
    ensures r.Ok? ==> ' ' !in r.value
    ensures r.Err? ==> r.error.BuiltinError?
  {
    var parts := Split(Inner(content), ' ');
    if |parts| >= 2 then
      Ok(parts[1])
    else
      assert Join(parts, " ") == parts[0];
      Err(BuiltinError("list index out of range"))
  }

  lemma AfterKeywordSuffix(b: string, kw: string)
    requires AfterKeyword(b, kw).Some?
    ensures var a := AfterKeyword(b, kw).value; |a| <= |b| && b[|b| - |a|..] == a
  {
    var d := DropSpaces(b);
    DropSpacesSuffix(b);
    assert d[|kw|..] == b[|b| - |d| + |kw|..];
  }

  /** The name lookup never fails on a well-formed OPENLOOP or OPENSWITCH
      marker, since the pattern demands a space after the keyword. */
  lemma BlockNameDefined(m: string, kw: string)
    requires NamedOpen(m, kw)
    ensures BlockName(m).Ok?
  {
    var b := Inner(m);
    var a := AfterKeyword(b, kw).value;
    AfterKeywordSuffix(b, kw);
    assert a[0] == ' ';
    assert b[|b| - |a|] == ' ';
  }

  lemma SecondPiece(b: string, x: string, y: string, z: string)
    requires b == x + " " + y + z
    requires ' ' !in x && ' ' !in y
    requires z == [] || z[0] == ' '
    ensures |Split(b, ' ')| >= 2 && Split(b, ' ')[1] == y
  {
    IndexOfAfterPrefix(x, ' ', y + z);
    assert b == x + [' '] + (y + z);
    assert b[|x| + 1..] == y + z;
    if z == [] {
      assert y + z == y;
      assert IndexOf(y, ' ').None?;
    } else {
      assert y + z == y + [' '] + z[1..];
      IndexOfAfterPrefix(y, ' ', z[1..]);
      assert (y + z)[..|y|] == y;
    }
  }

  /** The name is the piece between the first and the second space of the
      marker body (or after the first space when there is no second). */
  lemma BlockNameIsSecondPiece(m: string, x: string, y: string, z: string)
    requires Inner(m) == x + " " + y + z
    requires ' ' !in x && ' ' !in y
    requires z == [] || z[0] == ' '
    ensures BlockName(m) == Ok(y)
  {
    SecondPiece(Inner(m), x, y, z);
  }

  /** With spaces inside the delimiters the keyword itself is taken as the
      name; without them the word after the keyword is. */
  lemma BlockNameQuirk()
    ensures BlockName("{* loop a *}") == Ok("loop")
    ensures BlockName("{*loop a*}") == Ok("a")
  {
    BlockNamePadded();
    BlockNameTight();
  }

  lemma BlockNamePadded()
    ensures BlockName("{* loop a *}") == Ok("loop")
  {
    assert Inner("{* loop a *}") == "" + " " + "loop" + " a ";
    assert ' ' !in "loop" by {
      assert "loop" == ['l', 'o', 'o', 'p'];
    }
    BlockNameIsSecondPiece("{* loop a *}", "", "loop", " a ");
  }

  lemma BlockNameTight()
    ensures BlockName("{*loop a*}") == Ok("a")
  {
    assert Inner("{*loop a*}") == "loop" + " " + "a" + "";
    assert ' ' !in "loop" by {
      assert "loop" == ['l', 'o', 'o', 'p'];
    }
    assert ' ' !in "a" by {
      assert "a" == ['a'];
    }
    BlockNameIsSecondPiece("{*loop a*}", "loop", "a", "");
  }

  /** The label of a case marker: the word of `( +\w+)`, if present. */
  function CaseLabel(content: string): (r: Option<string>)
    ensures r.Some? ==> |r.value| > 0 && AllWords(r.value)
    ensures CaseOpen(content) ==> (r.Some? <==> !AllSpaces(AfterKeyword(Inner(content), "case").value))
  {
    var a := AfterKeyword(Inner(content), "case");
    if a.Some? then
      assert SpacedWord(a.value).Some? ==> a.value[0] == ' ' && !AllSpaces(a.value) by {
        if SpacedWord(a.value).Some? {
          var d := DropSpaces(a.value);
          DropSpacesSuffix(a.value);
          var w := TakeWord(d);
          assert d[0] == w[0] && d[0] != ' ';
          assert a.value[|a.value| - |d|] != ' ';
        }
      }
      SpacedWord(a.value)
    else None
  }

  /** The template name of an include marker: group 1 of its pattern. */
  function IncludeName(content: string): (r: Option<string>)
    ensures NamedOpen(content, "include") ==> r.Some?
    ensures r.Some? ==> |r.value| > 0 && AllWords(r.value)
  {
    var a := AfterKeyword(Inner(content), "include");
    if a.Some? then SpacedWord(a.value) else None
  }

  /** A marker token carries text its class pattern matches. */
  predicate WellFormed(t: Token) {
    t.kind == Text || Matches(t.kind, t.content)
  }

  /** The template text a token list stands for. */
  function Contents(ts: seq<Token>): string {
    if ts == [] then "" else ts[0].content + Contents(ts[1..])
  }

  lemma {:induction false} ContentsConcat(a: seq<Token>, b: seq<Token>)
    ensures Contents(a + b) == Contents(a) + Contents(b)
    decreases |a|
  {
    if a == [] {
      assert a + b == b;
    } else {
      assert (a + b)[1..] == a[1..] + b;
      ContentsConcat(a[1..], b);
    }
  }

  /** The number of INCLUDE tokens in a list. */
  function CountIncludes(ts: seq<Token>): nat {
    if ts == [] then 0 else (if ts[0].kind == Include then 1 else 0) + CountIncludes(ts[1..])
  }

  predicate NoIncludes(ts: seq<Token>) {
    forall i | 0 <= i < |ts| :: ts[i].kind != Include
  }

  lemma {:induction false} CountIncludesConcat(a: seq<Token>, b: seq<Token>)
    ensures CountIncludes(a + b) == CountIncludes(a) + CountIncludes(b)
    decreases |a|
  {
    if a == [] {
      assert a + b == b;
    } else {
      assert (a + b)[1..] == a[1..] + b;
      CountIncludesConcat(a[1..], b);
    }
  }

  lemma {:induction false} NoIncludesCount(ts: seq<Token>)
    ensures NoIncludes(ts) <==> CountIncludes(ts) == 0
    decreases |ts|
  {
    if ts != [] {
      NoIncludesCount(ts[1..]);
      if NoIncludes(ts[1..]) && ts[0].kind != Include {
        forall i | 0 <= i < |ts| ensures ts[i].kind != Include {
          if i > 0 {
            assert ts[i] == ts[1..][i - 1];
          }
        }
      }
    }
  }
}
