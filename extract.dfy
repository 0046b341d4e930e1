/** Matching a compiled template against a string: `Dict.parse`,
    `Case.parse` and the callbacks of loops and switches. The regular
    expression engine is not modelled: `Engine` supplies what `re.match`
    and `re.search` answer, and the functions of the value runtime. */
module Extract {
  import opened Errors
  import opened Strings
  import opened Values
  import opened Types
  import opened Ast

  /** What the model asks of the regular expression engine. `reMatch(p, s)`
      is `re.match(p, s, re.DOTALL)`: the groups of the match, or `None`
      when it fails; `reSearch(p, s)` says whether `re.search(p, s,
      re.DOTALL)` finds `p` anywhere in `s`. */
  datatype Engine = Engine(
    reMatch: (string, string) -> Option<seq<string>>,
    reSearch: (string, string) -> bool,
    rt: Runtime)

  type Record = map<string, Value>

  /** The literal text the pattern is cut at for the error message; `split`
      takes it as a plain string, not as a regular expression. */
  const SectionSep := "(?P<.*?>.*?)"

  const Unlocated := "Unexpected error finding where the string doesn't match"

  /** The first section that `re.search` does not find in `s`. */
  function FirstMissing(sections: seq<string>, s: string, eng: Engine): (r: Option<string>)
    ensures r.Some? ==> exists k | 0 <= k < |sections| ::
              sections[k] == r.value && !eng.reSearch(sections[k], s)
              && forall j | 0 <= j < k :: eng.reSearch(sections[j], s)
    ensures r.None? <==> forall k | 0 <= k < |sections| :: eng.reSearch(sections[k], s)
  {
    if sections == [] then None
    else if !eng.reSearch(sections[0], s) then Some(sections[0])
    else
      var r := FirstMissing(sections[1..], s, eng);
      assert forall k | 1 <= k < |sections| :: sections[k] == sections[1..][k - 1];
      if r.Some? then
        var k :| 0 <= k < |sections[1..]| && sections[1..][k] == r.value && !eng.reSearch(sections[1..][k], s)
                 && forall j | 0 <= j < k :: eng.reSearch(sections[1..][j], s);
        assert forall j | 1 <= j < k + 1 :: eng.reSearch(sections[j], s) by {
          forall j | 1 <= j < k + 1 ensures eng.reSearch(sections[j], s) {
            assert sections[j] == sections[1..][j - 1];
          }
        }
        r
      else
        r
  }

  /** The error `Dict.parse` raises when the whole pattern does not match:
      the first section not found anywhere in the string; if every section
      is found, a ValueError in the packaged copy and the unexpected error
      in the root copy. */
  function Mismatch(v: Variant, d: Dict, s: string, eng: Engine): Error {
    match FirstMissing(SplitStr(d.patt, SectionSep), s, eng)
    case Some(section) => ValueError(section + " is unmatched for string " + s)
    case None => if v == Packaged then ValueError(s + " is unmatched") else UnexpectedError(Unlocated)
  }

  /** The text of the `k`-th window of lines: the first `k` lines joined. */
  function Window(lines: seq<string>, k: nat): string
    requires k <= |lines|
  {
    Join(lines[..k], "\n")
  }

  function Listing(cases: seq<Case>): string {
    "[" + Join(CasePatterns(cases), ", ") + "]"
  }

  function LoopUnmatched(text: string, name: string, cases: seq<Case>): Error {
    ValueError(text + " unmatched for loop " + name + ": " + Listing(cases))
  }

  function SwitchUnmatched(text: string, name: string, cases: seq<Case>): Error {
    ValueError(text + " unmatched for switch " + name + ": " + Listing(cases))
  }

  /** `Dict.parse(s, do_error)`: `None` for a failed match when `do_error`
      is false, the mismatch error when it is true, and otherwise the record
      of the entries' callbacks applied to the groups. */
  function DictParse(v: Variant, d: Dict, s: string, doError: bool, eng: Engine): Result<Option<Record>>
    decreases DictSize(d), 0, 0
  {
    match eng.reMatch(d.patt, s)
    case None => if doError then Err(Mismatch(v, d, s, eng)) else Ok(None)
    case Some(groups) =>
      var m :- Assign(v, d.entries, groups, map[], eng);
      Ok(Some(m))
  }

  /** The `zip` loop of `Dict.parse`: entry `i` takes the callback of its
      entry applied to group `i`, stopping at the shorter of the two lists;
      a later entry of the same name overwrites an earlier one. */
  function Assign(v: Variant, es: seq<Entry>, groups: seq<string>, acc: Record, eng: Engine): Result<Record>
    decreases EntriesSize(es), 0, 0
  {
    if es == [] || groups == [] then Ok(acc)
    else
      var val :- ApplyCb(v, es[0].cb, groups[0], eng);
      Assign(v, es[1..], groups[1..], acc[es[0].name := val], eng)
  }

  /** The callback of an entry applied to its captured text. */
  function ApplyCb(v: Variant, cb: Callback, s: string, eng: Engine): Result<Value>
    decreases CallbackSize(cb), 0, 0
  {
    match cb
    case Decode(dec) => Values.Decode(dec, s, eng.rt)
    case LoopCb(name, cases) =>
      var rs :- LoopParse(v, name, cases, s, eng);
      Ok(Records(rs))
    case SwitchCb(name, cases) =>
      var r :- SwitchParse(v, name, cases, s, eng);
      Ok(Record(r))
  }

  /** `Case.parse`: the dict parsed without raising on a mismatch, with the
      case's label recorded under "case". */
  function CaseParse(v: Variant, c: Case, s: string, eng: Engine): Result<Option<Record>>
    decreases CaseSize(c), 0, 0
  {
    var r :- DictParse(v, c.body, s, false, eng);
    if r.Some? && c.tag.Some? then Ok(Some(r.value["case" := Str(c.tag.value)])) else Ok(r)
  }

  /** The first case, in order, whose parse is not `None`. */
  function FirstCase(v: Variant, cs: seq<Case>, s: string, eng: Engine): Result<Option<Record>>
    decreases CasesSize(cs), 1, 0
  {
    if cs == [] then Ok(None)
    else
      var r :- CaseParse(v, cs[0], s, eng);
      if r.Some? then Ok(r) else FirstCase(v, cs[1..], s, eng)
  }

  /** `Switch.cb`. */
  function SwitchParse(v: Variant, name: string, cases: seq<Case>, s: string, eng: Engine): Result<Record>
    decreases CasesSize(cases), 2, 0
  {
    var r :- FirstCase(v, cases, s, eng);
    if r.Some? then Ok(r.value) else Err(SwitchUnmatched(s, name, cases))
  }

  /** `Loop.cb`: the lines of the captured text, or no record at all when
      every line is empty; the packaged copy then takes the lines in the
      smallest windows some case matches, the root copy line by line. */
  function LoopParse(v: Variant, name: string, cases: seq<Case>, s: string, eng: Engine): Result<seq<Record>>
    decreases CasesSize(cases), 4, 0
  {
    var lines := SplitLines(s);
    if AllEmpty(lines) then Ok([])
    else if v == Packaged then Combs(v, name, cases, lines, eng)
    else PerLine(v, name, cases, lines, eng)
  }

  /** The `while string_lines` loop of the packaged `Loop.cb`. */
  function Combs(v: Variant, name: string, cases: seq<Case>, lines: seq<string>, eng: Engine): Result<seq<Record>>
    decreases CasesSize(cases), 3, |lines|
  {
    if lines == [] then Ok([])
    else
      var w :- SmallestWindow(v, cases, lines, 1, eng);
      match w
      case None => Err(LoopUnmatched(Join(lines, "\n"), name, cases))
      case Some((k, rec)) =>
        var rest :- Combs(v, name, cases, lines[k..], eng);
        Ok([rec] + rest)
  }

  /** `_generate_combs` from window size `i` on: the first window size, and
      the record of the first case, that parses the window. */
  function SmallestWindow(v: Variant, cases: seq<Case>, lines: seq<string>, i: nat, eng: Engine): (r: Result<Option<(nat, Record)>>)
    requires 1 <= i
    ensures r.Ok? && r.value.Some? ==> i <= r.value.value.0 <= |lines|
    decreases CasesSize(cases), 2, |lines| + 1 - i
  {
    if i > |lines| then Ok(None)
    else
      var r :- FirstCase(v, cases, Window(lines, i), eng);
      if r.Some? then Ok(Some((i, r.value))) else SmallestWindow(v, cases, lines, i + 1, eng)
  }

  /** The loop over the lines of the root `Loop.cb`. */
  function PerLine(v: Variant, name: string, cases: seq<Case>, lines: seq<string>, eng: Engine): Result<seq<Record>>
    decreases CasesSize(cases), 3, |lines|
  {
    if lines == [] then Ok([])
    else
      var r :- FirstCase(v, cases, lines[0], eng);
      if r.None? then Err(LoopUnmatched(lines[0], name, cases))
      else
        var rest :- PerLine(v, name, cases, lines[1..], eng);
        Ok([r.value] + rest)
  }

  // Properties of `Dict.parse`.

  /** A dict parse gives `None` exactly for a failed match without
      `do_error`; with `do_error` a failed match raises the mismatch error;
      a successful match gives the record the entries assign, or the first
      callback error. */
  lemma DictParseOutcomes(v: Variant, d: Dict, s: string, doError: bool, eng: Engine)
    ensures DictParse(v, d, s, doError, eng) == Ok(None) <==> eng.reMatch(d.patt, s).None? && !doError
    ensures eng.reMatch(d.patt, s).None? && doError ==> DictParse(v, d, s, doError, eng) == Err(Mismatch(v, d, s, eng))
    ensures eng.reMatch(d.patt, s).Some? ==>
              var a := Assign(v, d.entries, eng.reMatch(d.patt, s).value, map[], eng);
              DictParse(v, d, s, doError, eng) == if a.Ok? then Ok(Some(a.value)) else Err(a.error)
  {
  }

  /** Where the mismatch error points: at the first section not found,
      with a ValueError; when every section is found, the packaged copy
      still raises a ValueError and the root copy the unexpected error. */
  lemma MismatchKinds(v: Variant, d: Dict, s: string, eng: Engine)
    ensures var sections := SplitStr(d.patt, SectionSep);
            (Mismatch(v, d, s, eng).ValueError? <==>
               v == Packaged || exists k | 0 <= k < |sections| :: !eng.reSearch(sections[k], s))
            && (Mismatch(v, d, s, eng).UnexpectedError? ==> Mismatch(v, d, s, eng) == UnexpectedError(Unlocated))
            && (forall k | 0 <= k < |sections| :: !eng.reSearch(sections[k], s)
                  && (forall j | 0 <= j < k :: eng.reSearch(sections[j], s))
                  ==> Mismatch(v, d, s, eng) == ValueError(sections[k] + " is unmatched for string " + s))
  {
    var sections := SplitStr(d.patt, SectionSep);
    forall k | 0 <= k < |sections| && !eng.reSearch(sections[k], s) && (forall j | 0 <= j < k :: eng.reSearch(sections[j], s))
      ensures Mismatch(v, d, s, eng) == ValueError(sections[k] + " is unmatched for string " + s)
    {
      FirstMissingAt(sections, s, eng, k);
    }
    MismatchValueError(v, d, s, eng, sections);
  }

  /** Which kind of error a failed match raises, by copy and by whether
      some section is missing. */
  lemma MismatchValueError(v: Variant, d: Dict, s: string, eng: Engine, sections: seq<string>)
    requires sections == SplitStr(d.patt, SectionSep)
    ensures Mismatch(v, d, s, eng).ValueError? <==>
              v == Packaged || exists k | 0 <= k < |sections| :: !eng.reSearch(sections[k], s)
    ensures Mismatch(v, d, s, eng).UnexpectedError? ==> Mismatch(v, d, s, eng) == UnexpectedError(Unlocated)
  {
    var f := FirstMissing(sections, s, eng);
    if f.Some? {
      assert Mismatch(v, d, s, eng) == ValueError(f.value + " is unmatched for string " + s);
    } else {
      assert Mismatch(v, d, s, eng) == if v == Packaged then ValueError(s + " is unmatched") else UnexpectedError(Unlocated);
    }
  }

  /** The first section not found is the one every earlier section
      precedes in being found. */
  lemma FirstMissingAt(sections: seq<string>, s: string, eng: Engine, k: nat)
    requires k < |sections| && !eng.reSearch(sections[k], s)
    requires forall j | 0 <= j < k :: eng.reSearch(sections[j], s)
    ensures FirstMissing(sections, s, eng) == Some(sections[k])
  {
    var f := FirstMissing(sections, s, eng);
    assert f.Some?;
    var k' :| 0 <= k' < |sections| && sections[k'] == f.value && !eng.reSearch(sections[k'], s)
              && forall j | 0 <= j < k' :: eng.reSearch(sections[j], s);
    assert k' == k;
  }

  // Properties of the `zip` loop.

  /** Some entry among the first `min(|es|, |groups|)` is named `k`. */
  predicate Named(es: seq<Entry>, groups: seq<string>, k: string) {
    exists i | 0 <= i < |es| && i < |groups| :: es[i].name == k
  }

  lemma NamedCons(es: seq<Entry>, groups: seq<string>, k: string)
    requires es != [] && groups != []
    ensures Named(es, groups, k) <==> es[0].name == k || Named(es[1..], groups[1..], k)
  {
    if Named(es, groups, k) {
      var i :| 0 <= i < |es| && i < |groups| && es[i].name == k;
      if i > 0 {
        assert es[1..][i - 1].name == k;
      }
    }
    if Named(es[1..], groups[1..], k) {
      var i :| 0 <= i < |es[1..]| && i < |groups[1..]| && es[1..][i].name == k;
      assert es[i + 1].name == k;
    }
  }

  /** The record holds the names of the paired entries and what it held
      before. */
  lemma {:induction false} AssignKeys(v: Variant, es: seq<Entry>, groups: seq<string>, acc: Record, eng: Engine, k: string)
    requires Assign(v, es, groups, acc, eng).Ok?
    ensures k in Assign(v, es, groups, acc, eng).value <==> k in acc || Named(es, groups, k)
    decreases |es|
  {
    if es != [] && groups != [] {
      var val := ApplyCb(v, es[0].cb, groups[0], eng).value;
      AssignKeys(v, es[1..], groups[1..], acc[es[0].name := val], eng, k);
      NamedCons(es, groups, k);
    }
  }

  /** A name no paired entry carries keeps its earlier value. */
  lemma {:induction false} AssignKeeps(v: Variant, es: seq<Entry>, groups: seq<string>, acc: Record, eng: Engine, k: string)
    requires Assign(v, es, groups, acc, eng).Ok?
    requires k in acc && !Named(es, groups, k)
    ensures k in Assign(v, es, groups, acc, eng).value && Assign(v, es, groups, acc, eng).value[k] == acc[k]
    decreases |es|
  {
    if es != [] && groups != [] {
      var val := ApplyCb(v, es[0].cb, groups[0], eng).value;
      NamedCons(es, groups, k);
      AssignKeeps(v, es[1..], groups[1..], acc[es[0].name := val], eng, k);
    }
  }

  /** Entry `i`, when no later paired entry has its name, gets its
      callback's value on group `i`: the last entry of a name wins. */
  lemma {:induction false} AssignValue(v: Variant, es: seq<Entry>, groups: seq<string>, acc: Record, eng: Engine, i: nat)
    requires Assign(v, es, groups, acc, eng).Ok?
    requires i < |es| && i < |groups|
    requires forall j | i < j < |es| && j < |groups| :: es[j].name != es[i].name
    ensures ApplyCb(v, es[i].cb, groups[i], eng).Ok?
    ensures es[i].name in Assign(v, es, groups, acc, eng).value
    ensures Assign(v, es, groups, acc, eng).value[es[i].name] == ApplyCb(v, es[i].cb, groups[i], eng).value
    decreases i
  {
    var val := ApplyCb(v, es[0].cb, groups[0], eng).value;
    var acc' := acc[es[0].name := val];
    if i == 0 {
      forall j | 0 <= j < |es[1..]| && j < |groups[1..]| ensures es[1..][j].name != es[0].name {
        assert es[1..][j] == es[j + 1];
      }
      AssignKeeps(v, es[1..], groups[1..], acc', eng, es[0].name);
    } else {
      forall j | i - 1 < j < |es[1..]| && j < |groups[1..]| ensures es[1..][j].name != es[1..][i - 1].name {
        assert es[1..][j] == es[j + 1];
      }
      AssignValue(v, es[1..], groups[1..], acc', eng, i - 1);
    }
  }

  /** The first callback that fails is the error of the whole record. */
  lemma {:induction false} AssignFirstError(v: Variant, es: seq<Entry>, groups: seq<string>, acc: Record, eng: Engine, k: nat)
    requires k < |es| && k < |groups|
    requires forall j | 0 <= j < k :: ApplyCb(v, es[j].cb, groups[j], eng).Ok?
    requires ApplyCb(v, es[k].cb, groups[k], eng).Err?
    ensures Assign(v, es, groups, acc, eng) == Err(ApplyCb(v, es[k].cb, groups[k], eng).error)
    decreases k
  {
    if k > 0 {
      assert ApplyCb(v, es[0].cb, groups[0], eng).Ok?;
      var val := ApplyCb(v, es[0].cb, groups[0], eng).value;
      forall j | 0 <= j < k - 1 ensures ApplyCb(v, es[1..][j].cb, groups[1..][j], eng).Ok? {
        assert es[1..][j] == es[j + 1] && groups[1..][j] == groups[j + 1];
      }
      AssignFirstError(v, es[1..], groups[1..], acc[es[0].name := val], eng, k - 1);
    }
  }

  /** When every paired callback succeeds, so does the record. */
  lemma {:induction false} AssignAllOk(v: Variant, es: seq<Entry>, groups: seq<string>, acc: Record, eng: Engine)
    requires forall j | 0 <= j < |es| && j < |groups| :: ApplyCb(v, es[j].cb, groups[j], eng).Ok?
    ensures Assign(v, es, groups, acc, eng).Ok?
    decreases |es|
  {
    if es != [] && groups != [] {
      var val := ApplyCb(v, es[0].cb, groups[0], eng).value;
      forall j | 0 <= j < |es[1..]| && j < |groups[1..]| ensures ApplyCb(v, es[1..][j].cb, groups[1..][j], eng).Ok? {
        assert es[1..][j] == es[j + 1] && groups[1..][j] == groups[j + 1];
      }
      AssignAllOk(v, es[1..], groups[1..], acc[es[0].name := val], eng);
    }
  }

  // Properties of cases, switches and loops.

  /** A case parses exactly when its dict does, never raising the mismatch
      error; a labelled case adds its label under "case" and changes no
      other field. */
  lemma CaseParseSpec(v: Variant, c: Case, s: string, eng: Engine)
    ensures var r := CaseParse(v, c, s, eng);
            var dr := DictParse(v, c.body, s, false, eng);
            (r.Err? <==> dr.Err?)
            && (r.Err? ==> r.error == dr.error && eng.reMatch(c.body.patt, s).Some?)
            && (r.Ok? ==> (r.value.None? <==> dr.value.None?))
            && (r.Ok? && r.value.Some? ==>
                  (c.tag.None? ==> r.value.value == dr.value.value)
                  && (c.tag.Some? ==> r.value.value["case"] == Str(c.tag.value)
                                      && r.value.value.Keys == dr.value.value.Keys + {"case"}
                                      && forall k | k in dr.value.value && k != "case" :: r.value.value[k] == dr.value.value[k]))
  {
  }

  /** The first case, in order, that does not give `None` decides: its
      record, or its error. */
  lemma {:induction false} FirstCaseAt(v: Variant, cs: seq<Case>, s: string, eng: Engine, k: nat)
    requires k < |cs|
    requires forall j | 0 <= j < k :: CaseParse(v, cs[j], s, eng) == Ok(None)
    requires CaseParse(v, cs[k], s, eng) != Ok(None)
    ensures FirstCase(v, cs, s, eng) == CaseParse(v, cs[k], s, eng)
    decreases k
  {
    if k > 0 {
      assert CaseParse(v, cs[0], s, eng) == Ok(None);
      forall j | 0 <= j < k - 1 ensures CaseParse(v, cs[1..][j], s, eng) == Ok(None) {
        assert cs[1..][j] == cs[j + 1];
      }
      FirstCaseAt(v, cs[1..], s, eng, k - 1);
    }
  }

  /** When no case parses, neither does the list. */
  lemma {:induction false} FirstCaseNone(v: Variant, cs: seq<Case>, s: string, eng: Engine)
    requires forall j | 0 <= j < |cs| :: CaseParse(v, cs[j], s, eng) == Ok(None)
    ensures FirstCase(v, cs, s, eng) == Ok(None)
    decreases |cs|
  {
    if cs != [] {
      assert CaseParse(v, cs[0], s, eng) == Ok(None);
      forall j | 0 <= j < |cs| - 1 ensures CaseParse(v, cs[1..][j], s, eng) == Ok(None) {
        assert cs[1..][j] == cs[j + 1];
      }
      FirstCaseNone(v, cs[1..], s, eng);
    }
  }

  /** A switch gives the record of its first matching case. */
  lemma SwitchPicksFirst(v: Variant, name: string, cs: seq<Case>, s: string, eng: Engine, k: nat)
    requires k < |cs|
    requires forall j | 0 <= j < k :: CaseParse(v, cs[j], s, eng) == Ok(None)
    requires CaseParse(v, cs[k], s, eng).Ok? && CaseParse(v, cs[k], s, eng).value.Some?
    ensures SwitchParse(v, name, cs, s, eng) == Ok(CaseParse(v, cs[k], s, eng).value.value)
  {
    FirstCaseAt(v, cs, s, eng, k);
  }

  /** A switch none of whose cases matches raises the ValueError that
      lists the cases' patterns. */
  lemma SwitchNoCase(v: Variant, name: string, cs: seq<Case>, s: string, eng: Engine)
    requires forall j | 0 <= j < |cs| :: CaseParse(v, cs[j], s, eng) == Ok(None)
    ensures SwitchParse(v, name, cs, s, eng) == Err(SwitchUnmatched(s, name, cs))
  {
    FirstCaseNone(v, cs, s, eng);
  }

  /** A loop over text made only of line breaks yields no record, whatever
      its cases. */
  lemma LoopBlankInput(v: Variant, name: string, cases: seq<Case>, s: string, eng: Engine)
    requires AllLineBreaks(s)
    ensures LoopParse(v, name, cases, s, eng) == Ok([])
  {
    SplitLinesAllEmpty(s);
  }

  /** `_generate_combs` picks the smallest window some case parses, from
      size `i` on. */
  lemma {:induction false} SmallestWindowAt(v: Variant, cases: seq<Case>, lines: seq<string>, i: nat, k: nat, eng: Engine)
    requires 1 <= i <= k <= |lines|
    requires forall j | i <= j < k :: FirstCase(v, cases, Window(lines, j), eng) == Ok(None)
    requires FirstCase(v, cases, Window(lines, k), eng) != Ok(None)
    ensures var r := FirstCase(v, cases, Window(lines, k), eng);
            SmallestWindow(v, cases, lines, i, eng) == if r.Ok? then Ok(Some((k, r.value.value))) else Err(r.error)
    decreases k - i
  {
    if i < k {
      assert FirstCase(v, cases, Window(lines, i), eng) == Ok(None);
      SmallestWindowAt(v, cases, lines, i + 1, k, eng);
    }
  }

  /** No window from size `i` on parses: `_generate_combs` gives `None`. */
  lemma {:induction false} SmallestWindowNone(v: Variant, cases: seq<Case>, lines: seq<string>, i: nat, eng: Engine)
    requires 1 <= i
    requires forall j | i <= j <= |lines| :: FirstCase(v, cases, Window(lines, j), eng) == Ok(None)
    ensures SmallestWindow(v, cases, lines, i, eng) == Ok(None)
    decreases |lines| + 1 - i
  {
    if i <= |lines| {
      assert FirstCase(v, cases, Window(lines, i), eng) == Ok(None);
      SmallestWindowNone(v, cases, lines, i + 1, eng);
    }
  }

  /** Lines no window of which parses raise the ValueError that quotes
      all of them. */
  lemma CombsUnmatched(v: Variant, name: string, cases: seq<Case>, lines: seq<string>, eng: Engine)
    requires lines != []
    requires forall j | 1 <= j <= |lines| :: FirstCase(v, cases, Window(lines, j), eng) == Ok(None)
    ensures Combs(v, name, cases, lines, eng) == Err(LoopUnmatched(Join(lines, "\n"), name, cases))
  {
    SmallestWindowNone(v, cases, lines, 1, eng);
  }

  /** Every window holds at least one line, so the packaged loop yields at
      least one record and at most one per line. */
  lemma {:induction false} CombsCount(v: Variant, name: string, cases: seq<Case>, lines: seq<string>, eng: Engine)
    requires Combs(v, name, cases, lines, eng).Ok?
    ensures |Combs(v, name, cases, lines, eng).value| <= |lines|
    ensures lines != [] ==> |Combs(v, name, cases, lines, eng).value| >= 1
    decreases |lines|
  {
    if lines != [] {
      var (k, _) := SmallestWindow(v, cases, lines, 1, eng).value.value;
      CombsCount(v, name, cases, lines[k..], eng);
    }
  }

  /** The window `_generate_combs` returns is parsed by some case and is
      the smallest: every smaller window from size `i` on gives `None`. */
  lemma {:induction false} SmallestWindowSpec(v: Variant, cases: seq<Case>, lines: seq<string>, i: nat, eng: Engine)
    requires 1 <= i
    requires SmallestWindow(v, cases, lines, i, eng).Ok? && SmallestWindow(v, cases, lines, i, eng).value.Some?
    ensures var (k, rec) := SmallestWindow(v, cases, lines, i, eng).value.value;
            FirstCase(v, cases, Window(lines, k), eng) == Ok(Some(rec))
            && forall j | i <= j < k :: FirstCase(v, cases, Window(lines, j), eng) == Ok(None)
    decreases |lines| + 1 - i
  {
    if FirstCase(v, cases, Window(lines, i), eng) == Ok(None) {
      SmallestWindowSpec(v, cases, lines, i + 1, eng);
    }
  }

  /** The lines concatenated in order. */
  function Flatten(chunks: seq<seq<string>>): seq<string> {
    if chunks == [] then [] else chunks[0] + Flatten(chunks[1..])
  }

  /** The windows the packaged loop consumes, one per record. */
  function Chunks(v: Variant, name: string, cases: seq<Case>, lines: seq<string>, eng: Engine): seq<seq<string>>
    requires Combs(v, name, cases, lines, eng).Ok?
    decreases |lines|
  {
    if lines == [] then []
    else
      var k := SmallestWindow(v, cases, lines, 1, eng).value.value.0;
      [lines[..k]] + Chunks(v, name, cases, lines[k..], eng)
  }

  /** A chunk of lines that some case parses, as a whole, into `rec`,
      while no case parses any shorter prefix of it. */
  predicate ChunkParsed(v: Variant, cases: seq<Case>, c: seq<string>, rec: Record, eng: Engine) {
    c != []
    && FirstCase(v, cases, Window(c, |c|), eng) == Ok(Some(rec))
    && forall j | 1 <= j < |c| :: FirstCase(v, cases, Window(c, j), eng) == Ok(None)
  }

  /** The packaged loop cuts the lines, in order, into non-empty windows,
      one per record: each window is parsed by some case into its record,
      and no shorter prefix of it is parsed by any case. */
  lemma {:induction false} CombsPartition(v: Variant, name: string, cases: seq<Case>, lines: seq<string>, eng: Engine)
    requires Combs(v, name, cases, lines, eng).Ok?
    ensures var recs := Combs(v, name, cases, lines, eng).value;
            var chunks := Chunks(v, name, cases, lines, eng);
            Flatten(chunks) == lines
            && |chunks| == |recs|
            && forall i | 0 <= i < |chunks| :: ChunkParsed(v, cases, chunks[i], recs[i], eng)
    decreases |lines|
  {
    if lines != [] {
      var k, rec := CombsHead(v, name, cases, lines, eng);
      CombsPartition(v, name, cases, lines[k..], eng);
      var tail := Chunks(v, name, cases, lines[k..], eng);
      FlattenCons(lines[..k], tail);
      assert lines[..k] + lines[k..] == lines;
      ChunksCons(v, cases, lines[..k], rec, tail, Combs(v, name, cases, lines[k..], eng).value, eng);
    }
  }

  /** The first chunk of the packaged loop and the loop on the lines after
      it. */
  lemma CombsHead(v: Variant, name: string, cases: seq<Case>, lines: seq<string>, eng: Engine) returns (k: nat, rec: Record)
    requires Combs(v, name, cases, lines, eng).Ok? && lines != []
    ensures 1 <= k <= |lines| && Combs(v, name, cases, lines[k..], eng).Ok?
    ensures Combs(v, name, cases, lines, eng).value == [rec] + Combs(v, name, cases, lines[k..], eng).value
    ensures Chunks(v, name, cases, lines, eng) == [lines[..k]] + Chunks(v, name, cases, lines[k..], eng)
    ensures ChunkParsed(v, cases, lines[..k], rec, eng)
  {
    CombsUnfold(v, name, cases, lines, eng);
    k, rec := SmallestWindow(v, cases, lines, 1, eng).value.value.0, SmallestWindow(v, cases, lines, 1, eng).value.value.1;
    HeadChunk(v, cases, lines, k, rec, eng);
  }

  lemma ChunksCons(v: Variant, cases: seq<Case>, c: seq<string>, rec: Record, tail: seq<seq<string>>, rest: seq<Record>, eng: Engine)
    requires |tail| == |rest| && ChunkParsed(v, cases, c, rec, eng)
    requires forall i | 0 <= i < |tail| :: ChunkParsed(v, cases, tail[i], rest[i], eng)
    ensures forall i | 0 <= i < |tail| + 1 :: ChunkParsed(v, cases, ([c] + tail)[i], ([rec] + rest)[i], eng)
  {
    forall i | 1 <= i < |tail| + 1
      ensures ([c] + tail)[i] == tail[i - 1] && ([rec] + rest)[i] == rest[i - 1]
    {
    }
  }

  lemma FlattenCons(c: seq<string>, tail: seq<seq<string>>)
    ensures Flatten([c] + tail) == c + Flatten(tail)
  {
    assert ([c] + tail)[1..] == tail;
  }

  /** One step of the packaged loop: the smallest window, its record, and
      the loop on the lines after it. */
  lemma CombsUnfold(v: Variant, name: string, cases: seq<Case>, lines: seq<string>, eng: Engine)
    requires Combs(v, name, cases, lines, eng).Ok? && lines != []
    ensures SmallestWindow(v, cases, lines, 1, eng).Ok? && SmallestWindow(v, cases, lines, 1, eng).value.Some?
    ensures var (k, rec) := SmallestWindow(v, cases, lines, 1, eng).value.value;
            Combs(v, name, cases, lines[k..], eng).Ok?
            && Combs(v, name, cases, lines, eng).value == [rec] + Combs(v, name, cases, lines[k..], eng).value
            && Chunks(v, name, cases, lines, eng) == [lines[..k]] + Chunks(v, name, cases, lines[k..], eng)
  {
  }

  /** The first window, cut off as a chunk of its own, keeps its record
      and the failures of its shorter prefixes. */
  lemma HeadChunk(v: Variant, cases: seq<Case>, lines: seq<string>, k: nat, rec: Record, eng: Engine)
    requires SmallestWindow(v, cases, lines, 1, eng) == Ok(Some((k, rec)))
    ensures 1 <= k <= |lines| && ChunkParsed(v, cases, lines[..k], rec, eng)
  {
    SmallestWindowSpec(v, cases, lines, 1, eng);
    var c := lines[..k];
    assert forall j | 1 <= j <= k :: c[..j] == lines[..j];
    assert forall j | 1 <= j <= k :: Window(c, j) == Window(lines, j);
  }

  /** The root loop yields one record per line: the first case's record
      for that line. */
  lemma {:induction false} PerLineSpec(v: Variant, name: string, cases: seq<Case>, lines: seq<string>, eng: Engine)
    requires PerLine(v, name, cases, lines, eng).Ok?
    ensures var recs := PerLine(v, name, cases, lines, eng).value;
            |recs| == |lines|
            && forall i | 0 <= i < |lines| :: FirstCase(v, cases, lines[i], eng) == Ok(Some(recs[i]))
    decreases |lines|
  {
    if lines != [] {
      PerLineSpec(v, name, cases, lines[1..], eng);
      var recs := PerLine(v, name, cases, lines, eng).value;
      var rest := PerLine(v, name, cases, lines[1..], eng).value;
      assert recs == [FirstCase(v, cases, lines[0], eng).value.value] + rest;
      forall i | 1 <= i < |lines| ensures FirstCase(v, cases, lines[i], eng) == Ok(Some(recs[i])) {
        assert lines[i] == lines[1..][i - 1] && recs[i] == rest[i - 1];
      }
    }
  }

  /** The first line no case parses fails the root loop, naming that line
      alone. */
  lemma {:induction false} PerLineUnmatched(v: Variant, name: string, cases: seq<Case>, lines: seq<string>, eng: Engine, k: nat)
    requires k < |lines|
    requires forall j | 0 <= j < k :: FirstCase(v, cases, lines[j], eng).Ok? && FirstCase(v, cases, lines[j], eng).value.Some?
    requires FirstCase(v, cases, lines[k], eng) == Ok(None)
    ensures PerLine(v, name, cases, lines, eng) == Err(LoopUnmatched(lines[k], name, cases))
    decreases k
  {
    if k > 0 {
      assert FirstCase(v, cases, lines[0], eng).value.Some?;
      forall j | 0 <= j < k - 1 ensures FirstCase(v, cases, lines[1..][j], eng).Ok? && FirstCase(v, cases, lines[1..][j], eng).value.Some? {
        assert lines[1..][j] == lines[j + 1];
      }
      PerLineUnmatched(v, name, cases, lines[1..], eng, k - 1);
    }
  }

  /** When every line is parsed on its own, the packaged windows are the
      single lines and both loops yield the same records. */
  lemma {:induction false} LoopsAgree(v: Variant, name: string, cases: seq<Case>, lines: seq<string>, eng: Engine)
    requires forall j | 0 <= j < |lines| :: FirstCase(v, cases, lines[j], eng).Ok? && FirstCase(v, cases, lines[j], eng).value.Some?
    ensures Combs(v, name, cases, lines, eng) == PerLine(v, name, cases, lines, eng)
    decreases |lines|
  {
    if lines != [] {
      assert lines[..1] == [lines[0]];
      assert Window(lines, 1) == lines[0];
      forall j | 0 <= j < |lines| - 1 ensures FirstCase(v, cases, lines[1..][j], eng).Ok? && FirstCase(v, cases, lines[1..][j], eng).value.Some? {
        assert lines[1..][j] == lines[j + 1];
      }
      LoopsAgree(v, name, cases, lines[1..], eng);
    }
  }

  // The loops of the source.

  /** The `for section in ...` loop of `Dict.parse`. */
  method SearchSections(sections: seq<string>, s: string, eng: Engine) returns (r: Option<string>)
    ensures r == FirstMissing(sections, s, eng)
  {
    for i := 0 to |sections|
      invariant FirstMissing(sections, s, eng) == FirstMissing(sections[i..], s, eng)
    {
      assert sections[i..][1..] == sections[i + 1..];
      if !eng.reSearch(sections[i], s) {
        return Some(sections[i]);
      }
    }
    return None;
  }

  /** `Dict.parse`; the callbacks of the entries are applied as
      `ApplyCb` states them. */
  method ParseDict(v: Variant, d: Dict, s: string, doError: bool, eng: Engine) returns (r: Result<Option<Record>>)
    ensures r == DictParse(v, d, s, doError, eng)
  {
    var m := eng.reMatch(d.patt, s);
    if m.None? {
      if !doError {
        return Ok(None);
      }
      var missing := SearchSections(SplitStr(d.patt, SectionSep), s, eng);
      if missing.Some? {
        return Err(ValueError(missing.value + " is unmatched for string " + s));
      }
      return if v == Packaged then Err(ValueError(s + " is unmatched")) else Err(UnexpectedError(Unlocated));
    }
    var groups := m.value;
    var ret: Record := map[];
    var i := 0;
    while i < |d.entries| && i < |groups|
      invariant i <= |d.entries| && i <= |groups|
      invariant Assign(v, d.entries, groups, map[], eng) == Assign(v, d.entries[i..], groups[i..], ret, eng)
    {
      var e := d.entries[i];
      var val := ApplyCb(v, e.cb, groups[i], eng);
      if val.Err? {
        return Err(val.error);
      }
      assert d.entries[i..][1..] == d.entries[i + 1..] && groups[i..][1..] == groups[i + 1..];
      ret := ret[e.name := val.value];
      i := i + 1;
    }
    return Ok(Some(ret));
  }

  /** The `for case_obj in self.cases` loop shared by both callbacks. */
  method FindCase(v: Variant, cases: seq<Case>, s: string, eng: Engine) returns (r: Result<Option<Record>>)
    ensures r == FirstCase(v, cases, s, eng)
  {
    for i := 0 to |cases|
      invariant FirstCase(v, cases, s, eng) == FirstCase(v, cases[i..], s, eng)
    {
      assert cases[i..][1..] == cases[i + 1..];
      var parsed := CaseParse(v, cases[i], s, eng);
      if parsed.Err? {
        return Err(parsed.error);
      }
      if parsed.value.Some? {
        return parsed;
      }
    }
    return Ok(None);
  }

  /** `_generate_combs`: windows of growing size until a case parses one. */
  method GenerateCombs(v: Variant, cases: seq<Case>, lines: seq<string>, eng: Engine) returns (r: Result<Option<(nat, Record)>>)
    ensures r == SmallestWindow(v, cases, lines, 1, eng)
  {
    var i := 1;
    while i <= |lines|
      invariant 1 <= i <= |lines| + 1
      invariant SmallestWindow(v, cases, lines, 1, eng) == SmallestWindow(v, cases, lines, i, eng)
      decreases |lines| + 1 - i
    {
      var parsed := FindCase(v, cases, Join(lines[..i], "\n"), eng);
      if parsed.Err? {
        return Err(parsed.error);
      }
      if parsed.value.Some? {
        return Ok(Some((i, parsed.value.value)));
      }
      i := i + 1;
    }
    return Ok(None);
  }

  /** `Loop.cb` of either copy. */
  method LoopCallback(v: Variant, name: string, cases: seq<Case>, s: string, eng: Engine) returns (r: Result<seq<Record>>)
    ensures r == LoopParse(v, name, cases, s, eng)
  {
    var lines := SplitLines(s);
    if AllEmpty(lines) {
      return Ok([]);
    }
    var ret: seq<Record> := [];
    if v == Packaged {
      PrependNothing(Combs(v, name, cases, lines, eng));
      var all := lines;
      while lines != []
        invariant Combs(v, name, cases, all, eng) == Prepend(ret, Combs(v, name, cases, lines, eng))
        decreases |lines|
      {
        var step := GenerateCombs(v, cases, lines, eng);
        if step.Err? {
          return Err(step.error);
        }
        if step.value.None? {
          return Err(LoopUnmatched(Join(lines, "\n"), name, cases));
        }
        var (k, rec) := step.value.value;
        PrependAssoc(ret, [rec], Combs(v, name, cases, lines[k..], eng));
        ret := ret + [rec];
        lines := lines[k..];
      }
    } else {
      PrependNothing(PerLine(v, name, cases, lines, eng));
      for i := 0 to |lines|
        invariant PerLine(v, name, cases, lines, eng) == Prepend(ret, PerLine(v, name, cases, lines[i..], eng))
      {
        assert lines[i..][1..] == lines[i + 1..];
        var parsed := FindCase(v, cases, lines[i], eng);
        if parsed.Err? {
          return Err(parsed.error);
        }
        if parsed.value.None? {
          return Err(LoopUnmatched(lines[i], name, cases));
        }
        PrependAssoc(ret, [parsed.value.value], PerLine(v, name, cases, lines[i + 1..], eng));
        ret := ret + [parsed.value.value];
      }
    }
    assert ret + [] == ret;
    return Ok(ret);
  }

  /** `Switch.cb`. */
  method SwitchCallback(v: Variant, name: string, cases: seq<Case>, s: string, eng: Engine) returns (r: Result<Record>)
    ensures r == SwitchParse(v, name, cases, s, eng)
  {
    var parsed := FindCase(v, cases, s, eng);
    if parsed.Err? {
      return Err(parsed.error);
    }
    if parsed.value.None? {
      return Err(SwitchUnmatched(s, name, cases));
    }
    return Ok(parsed.value.value);
  }
}
