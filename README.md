# sparser in Dafny

Sparser is a "reverse templating" engine. A template such as
`the {{animal who}} says {{str sound}}` is compiled into a regular
expression with named groups, plus an ordered list of entries that know how
to decode each captured group. Matching a string against the template gives
back a record such as `{"who": "dog", "sound": "bwak"}`.

Templates are made of:
- literal text;
- variables `{{type name}}`;
- loops `{*loop name*} … {*endloop*}` and switches
  `{*switch name*} … {*endswitch*}`, whose bodies hold cases
  `{*case label*} … {*endcase*}`;
- includes `{*include name*}`, which splice in another template.

The repository ships two copies of the engine, and the model covers both
as two variants (`Types.Variant`) over shared datatypes:

- **Packaged copy** (`sparser/sparser.py`):
  - blocks do not nest;
  - an include name may be used any number of times;
  - loops capture lazily;
  - a loop's text is cut into the smallest windows of lines some case
    matches.
- **Root copy** (`sparser.py`):
  - blocks nest, tracked by depth counters;
  - each include name is deleted from the caller's map once used;
  - loops capture greedily and are matched line by line;
  - a failed parse whose sections are all found raises the unexpected
    error.

The modules follow the pipeline:

| module | what it models |
|---|---|
| `Errors` | the three exception kinds, plus `BuiltinError` for the Python built-in exceptions the code can raise; `Option` and `Result` |
| `Strings` | `split`, `join`, `strip` and line splitting |
| `Markers` | the token classes and `_switch_tokens` |
| `Scanner` | the `_tokenize` scan loop |
| `Includes`, `PackagedIncludes`, `RootIncludes` | `_preprocess` in each copy |
| `Merge` | the TEXT merge of `_root_tokenize` |
| `Types` | `BUILT_IN_TYPE_MAP`, `_assert_no_group_syntax` and the compilation context |
| `Values` | the decoders, including `_intify` |
| `TextNode` | `Text` |
| `VarNode` | `Var` |
| `Ast` | `Dict`, `Case` and their `_set_pattern` |
| `Blocks` | what both builders share |
| `PackagedBuild`, `RootBuild` | `Dict.__init__`, `_make_*` and the `Loop`/`Switch`/`Case` constructors |
| `Extract` | `Dict.parse`, `Case.parse`, `Loop.cb` and `Switch.cb` |
| `Api` | `compile`, `parse`, `match` and the compiled object |

The regular expression engine applied to compiled patterns is a parameter,
`Extract.Engine`. It holds:
- `reMatch`: the groups of an anchored match;
- `reSearch`: whether a search finds the pattern;
- a `Runtime` holding the callbacks the model cannot compute.

Every property of matching is proved relative to that engine. The escaping
of literal text is a parameter `esc` of the builders.

Each loop of the source is a method proved equal to a specification
function (`ensures r == …`). The properties the source promises are lemmas
about those functions.

## Model

Paths are relative to the repository root. A row citing only `sparser/sparser.py` describes behaviour both copies share: the root copy has the same code at the corresponding lines of `sparser.py`.

| member | source | states |
|---|---|---|
| Markers.Classify | sparser/sparser.py:129-145 | a marker is classified as a non-TEXT kind whose pattern it matches; it is rejected exactly when no class pattern matches, with the "could not parse token" SyntaxError plus the hint |
| Markers.ClassesDisjoint | sparser/sparser.py:68-122 | at most one marker class matches any marker, so the order of OP_TOKENS never decides the class |
| Markers.HintForLoop | sparser/sparser.py:140-145 | `{*loop*}` is rejected with the "(loop name required)" hint |
| Markers.NoClass | sparser/sparser.py:137-145 | a marker that fails all eight class patterns raises the SyntaxError with its hint |
| Markers.NoHintWhenPadded | sparser/sparser.py:140-145 | `{* loop *}` matches no class and gets no hint, because the hint needs the exact text |
| Markers.SpacedWord | sparser/sparser.py:69 | the ` +(\w+) *` tail yields a non-empty word |
| Markers.BlockName | sparser/sparser.py:369 | `content[2:-2].split(' ')[1]` succeeds exactly when the inner text holds a space, and the name holds no space; otherwise the IndexError |
| Markers.BlockNameDefined | sparser/sparser.py:367-369 | the name lookup never fails on a well-formed OPENLOOP or OPENSWITCH |
| Markers.BlockNameIsSecondPiece | sparser/sparser.py:369 | the name is the piece between the first and the second space of the inner text |
| Markers.BlockNameQuirk | sparser/sparser.py:369 | `{* loop a *}` is named `loop` and `{*loop a*}` is named `a` |
| Markers.CaseLabel | sparser/sparser.py:343-347 | a case label is a non-empty word, present exactly when the case marker has text after `case` |
| Markers.IncludeName | sparser/sparser.py:159 | a well-formed include marker always has a name, and that name is a non-empty word |
| Scanner.FirstDelim | sparser/sparser.py:181 | the first occurrence of a delimiter from a position on: it occurs there, and not before |
| Scanner.MarkerEnd | sparser/sparser.py:181 | a marker ends at the first matching close delimiter after its opening one (the lazy `.*?` body) |
| Scanner.FindMarker | sparser/sparser.py:181 | the marker chosen is the earliest complete marker, and no earlier position starts one |
| Scanner.ScanShape | sparser/sparser.py:178-188 | the tokens alternate TEXT and marker, start and end with TEXT, and their contents concatenate to the template; a failure is a SyntaxError |
| Scanner.ScanWellFormed | sparser/sparser.py:185-186 | every marker token carries text its class pattern matches |
| Scanner.ScanPlain | sparser/sparser.py:183-188 | a template without markers is one TEXT token |
| Scanner.ScanTemplate | sparser/sparser.py:178-188 | the scan loop computes the token list of the scan function |
| Scanner.Scan | sparser/sparser.py:170-188 | the scan loop of `_tokenize` before `_preprocess`: the token list whose shape, contents and marker classes `Scanner.ScanShape`, `Scanner.ScanWellFormed` and `Scanner.ScanPlain` state |
| Includes.FirstInclude | sparser/sparser.py:157-158 | the index of the first INCLUDE, or none when the list holds no INCLUDE |
| Includes.NameOf | sparser/sparser.py:159 | an include's name is group 1 of its marker pattern |
| Includes.NameOfDefined | sparser/sparser.py:159 | the name lookup never fails on a well-formed INCLUDE |
| Includes.SpliceCount | sparser/sparser.py:163 | splicing an include-free expansion over an INCLUDE removes exactly one INCLUDE |
| Includes.FindInclude | sparser/sparser.py:157-166 | the `enumerate` search returns the first INCLUDE's index, or the length when there is none |
| PackagedIncludes.LibraryOf | sparser/sparser.py:162-163 | every template of the includes map, scanned, under the same names |
| PackagedIncludes.Expand | sparser/sparser.py:148-167 | a successful `_preprocess` leaves no INCLUDE token |
| PackagedIncludes.TokenizeNoIncludes | sparser/sparser.py:170-190 | every result of the packaged `_tokenize` is free of INCLUDE tokens |
| PackagedIncludes.ExpandOne | sparser/sparser.py:159-163 | one include's expansion holds no INCLUDE |
| PackagedIncludes.ExpandOneCases | sparser/sparser.py:159-163 | an unknown name raises "not provided"; a known one is tokenized recursively with the same map |
| PackagedIncludes.ExpandFails | sparser/sparser.py:157-164 | a failing first include fails the whole `_preprocess` with its error |
| PackagedIncludes.ExpandSplices | sparser/sparser.py:163-164 | one round replaces the first INCLUDE by its expansion and starts over |
| PackagedIncludes.ExpandIsEach | sparser/sparser.py:156-167 | rescanning after every splice equals expanding each INCLUDE in place, left to right, keeping the other tokens in order |
| PackagedIncludes.ReuseAllowed | sparser/sparser.py:160-163 | names are never used up: if every include expands on its own, the whole list expands, even with repeated names |
| PackagedIncludes.SelfExpandDiverges | sparser/sparser.py:163 | an include naming its own template never terminates (the recursion limit, with any fuel) |
| PackagedIncludes.SelfIncludeDiverges | sparser/sparser.py:170-190 | a template whose first include names the template itself cannot be tokenized |
| PackagedIncludes.ExpandMoreFuel | sparser/sparser.py:148-167 | one more level of recursion never changes an expansion that did not hit the recursion limit |
| PackagedIncludes.ExpandOneMoreFuel | sparser/sparser.py:158-163 | the same for the expansion of a single INCLUDE |
| PackagedIncludes.TokenizeMoreFuel | sparser/sparser.py:170-190 | a higher recursion limit leaves every `_tokenize` result that did not hit the limit unchanged |
| PackagedIncludes.MissingIncludeFails | sparser/sparser.py:160-161 | an include whose name is absent raises "not provided", unless an earlier include fails first |
| PackagedIncludes.TokenizeTemplate | sparser/sparser.py:170-190 | the packaged `_tokenize` computes the scan followed by the expansion |
| PackagedIncludes.ExpandToken | sparser/sparser.py:158-163 | the loop body on an INCLUDE computes the one-include expansion |
| PackagedIncludes.PreprocessTokens | sparser/sparser.py:156-167 | the `while True` loop computes `_preprocess` |
| RootIncludes.Tokenize | sparser.py:171-191 | the root `_tokenize` leaves no INCLUDE and only ever removes entries from the map |
| RootIncludes.Preprocess | sparser.py:148-168 | the root `_preprocess` leaves no INCLUDE and leaves a sub-map of the map it was given |
| RootIncludes.ExpandOne | sparser.py:159-164 | a successful expansion holds no INCLUDE and strictly shrinks the map, which gives termination |
| RootIncludes.ExpandOneRemoves | sparser.py:163 | once expanded, a name is gone from the map |
| RootIncludes.PreprocessFails | sparser.py:157-164 | a failing first include fails `_preprocess` with its error and the map as it left it |
| RootIncludes.PreprocessSplices | sparser.py:163-165 | one round splices the expansion in and continues with the smaller map |
| RootIncludes.PreprocessIsExpandEach | sparser.py:156-168 | rescanning after every splice equals expanding each INCLUDE in place with the map threaded left to right |
| RootIncludes.ExpandEachFailsOnAbsent | sparser.py:160-161 | an INCLUDE whose name is absent makes the expansion fail |
| RootIncludes.ReuseRejected | sparser.py:160-164 | two INCLUDEs of the same name make `_preprocess` fail |
| RootIncludes.ExpandEachUsesEntries | sparser.py:163-164 | every successful expansion uses up one map entry |
| RootIncludes.PreprocessUsesEntries | sparser.py:163-168 | the entries left plus the INCLUDEs expanded are at most the entries given |
| RootIncludes.ExpandEachConcat | sparser.py:156-166 | expanding two token lists one after the other is expanding the first, then the second on the map the first leaves |
| RootIncludes.ExpandEachErrAt | sparser.py:156-166 | once every token before an INCLUDE expands, the whole expansion fails with exactly that INCLUDE's error |
| RootIncludes.ExpandEachRemovesName | sparser.py:162-164 | a name whose INCLUDE has been expanded is absent from the map the expansion leaves |
| RootIncludes.AbsentNotProvided | sparser.py:160-161 | an INCLUDE of a name the map never held raises the "not provided" ValueError for that name once everything before it expands |
| RootIncludes.ReuseNotProvided | sparser.py:160-164 | the second INCLUDE of a name raises the "not provided" ValueError for that name once everything before it expands |
| RootIncludes.NestedSelfFails | sparser.py:160-164 | an INCLUDE of a name inside that name's own template raises the "not provided" ValueError, since the name was deleted first |
| RootIncludes.SelfIncludeFails | sparser.py:160-191 | a template whose first INCLUDE names itself makes the root `_tokenize` raise the "not provided" ValueError for that name |
| RootIncludes.IncludeTable.constructor | sparser.py:177 | the table holds the caller's map |
| RootIncludes.IncludeTable.TokenizeTemplate | sparser.py:171-191 | tokenizing on the caller's table gives the result and the new map of the functional model |
| RootIncludes.IncludeTable.ExpandToken | sparser.py:158-164 | the name is deleted from the caller's table before its template is tokenized |
| RootIncludes.IncludeTable.PreprocessTokens | sparser.py:156-168 | the `while True` loop computes `_preprocess` and leaves the caller's table as the model says |
| Merge.PushProperties | sparser/sparser.py:204-207 | one merge step keeps the list free of adjacent TEXT, appends the token's non-TEXT part and its text |
| Merge.MergedProperties | sparser/sparser.py:202-208 | the merged list has no two adjacent TEXT tokens, keeps the non-TEXT tokens in order, keeps the concatenated text, and keeps well-formedness |
| Merge.MergedNoOp | sparser/sparser.py:202-208 | a list without adjacent TEXT tokens is unchanged |
| Merge.MergedIdempotent | sparser/sparser.py:202-208 | merging twice equals merging once |
| Merge.MergeTexts | sparser/sparser.py:202-208 | the merge loop computes the merged list |
| Merge.Merged | sparser/sparser.py:202-208 | the merge of adjacent TEXT tokens in `_root_tokenize`; `Merge.MergedProperties`, `Merge.MergedNoOp` and `Merge.MergedIdempotent` state what it keeps and what it joins |
| Types.BuiltInsAgree | sparser.py:47-57 | the two copies register the same type names and differ only in `spstr` (`.+` against `.*`) |
| Types.CloseFrom | sparser/sparser.py:21 | `.*?\)` from a position: a `)` follows with no newline before it |
| Types.FindGroup | sparser/sparser.py:21 | the first position where the group pattern matches; no earlier position matches |
| Types.CheckNoGroups | sparser/sparser.py:587-592 | the check fails exactly when the group pattern matches somewhere, with the fixed SyntaxError |
| Types.NonCapturingPasses | sparser/sparser.py:587-592 | a pattern whose every `(` starts `(?` passes |
| Types.CapturingRejected | sparser/sparser.py:21 | a `(`, a non-`?`, a non-`:`, text without newline and `)` is rejected |
| Types.GroupCheckQuirks | tests/python_tests.py:144-155 | the capturing alternation of animal names is rejected and its `(?:` form passes; the one-character group `(a)` and the named group `(?P<x>ab)` slip through |
| Types.Context | sparser/sparser.py:541-553 | the registry fails exactly when some custom type has a capturing group, with the group SyntaxError |
| Types.ContextContents | sparser/sparser.py:550-551 | the merged registry holds all built-in and custom names; custom types override same-named built-ins and leave the others unchanged |
| Types.OverrideInt | sparser/sparser.py:550-551 | redefining `int` replaces the built-in caster |
| Values.Keep | sparser/sparser.py:42 | the clean-up before `int()` is no longer than the input and leaves only word characters, `.` and `-` |
| Values.KeepConcat | sparser/sparser.py:42 | the clean-up works character by character |
| Values.IntParse | sparser/sparser.py:42 | `int()` accepts an optional minus followed by decimal digits only |
| Values.IntParseShow | sparser/sparser.py:42 | printing an integer and parsing it back gives the integer |
| Values.IntCast | sparser/sparser.py:36-44 | `_intify` gives the integer of the cleaned text; it fails exactly when that text is no integer, with the "Could not perform sparser int" ValueError |
| Values.FloatCast | sparser/sparser.py:25-33 | `_floatify` gives the runtime's float of the cleaned text, or the "Could not perform sparser float" ValueError exactly when there is none |
| Values.FloatCastPadded | sparser/sparser.py:25-33 | characters the clean-up removes around the number change neither whether the float cast succeeds nor its value |
| Values.FloatCastCurrency | sparser/sparser.py:25-33 | `"$1,234.50"` is cast as the float of `"1234.50"` |
| Values.IntCastShow | sparser/sparser.py:36-44 | any rendering of an integer surrounded by removed characters casts back to the integer |
| Values.IntCastSeparators | sparser/sparser.py:48 | `"-1,234"` casts to -1234 |
| Values.IntCastRejectsLetters | sparser/sparser.py:42-44 | `"12a"` raises the ValueError, because letters survive the clean-up |
| TextNode.CollapseNoRun | sparser/sparser.py:481-482 | after `re.sub(c + '+', c, …)` no two `c` are adjacent |
| TextNode.CollapseKeepsNoRun | sparser/sparser.py:481-482 | collapsing newlines creates no run of spaces |
| TextNode.CollapseOnlyRemoves | sparser/sparser.py:481-482 | the collapse removes only copies of the collapsed character |
| TextNode.CollapseIdempotent | sparser/sparser.py:481-482 | collapsing twice equals collapsing once |
| TextNode.NoRunFixed | sparser/sparser.py:481-482 | text without a run is unchanged by the collapse |
| TextNode.CollapsedNoRuns | sparser/sparser.py:481-482 | after the first two substitutions there are no two consecutive spaces and no two consecutive newlines |
| TextNode.TrimLastLineNoRun | sparser/sparser.py:483 | dropping the space after a final newline creates no run of spaces |
| TextNode.TrimFirstLineNoRun | sparser/sparser.py:484 | dropping a leading space before a newline creates no run of spaces |
| TextNode.NormaliseNoDoubleSpace | sparser/sparser.py:480-484 | the normalised text never holds two spaces in a row |
| TextNode.NormaliseDoubleNewline | sparser/sparser.py:482-483 | `"\n $"` also matches before a trailing newline, so `"a\n \n"` normalises to `"a\n\n"` |
| TextNode.NormaliseExample | sparser/sparser.py:480-484 | `" \nA  B\n\n"` normalises to `"\nA B\n"` |
| TextNode.Normalise | sparser/sparser.py:480-484 | the four substitutions `Text` applies before escaping; `TextNode.NormaliseNoDoubleSpace`, `TextNode.NormaliseDoubleNewline` and `TextNode.NormaliseExample` state their effect |
| TextNode.MakeText | sparser/sparser.py:492-496 | a text member has no entry name and its pattern is the escape of the normalised text |
| VarNode.VarOutcomes | sparser/sparser.py:505-532 | more than two space-separated pieces give the UnexpectedError; otherwise the type lookup decides success and a failure is a SyntaxError; the member is named exactly when there are two pieces, with the type's decoder |
| VarNode.LookupErrors | sparser/sparser.py:515-524 | the registry is tried before the quoted form; the lookup fails only for an unregistered type that is unquoted or whose quoted regex has a group, and always with a SyntaxError |
| VarNode.NamedVar | sparser/sparser.py:515-530 | `{{type name}}` gives `(?P<name>patt)` with the type's decoder |
| VarNode.AnonymousVar | sparser/sparser.py:509-532 | `{{type}}` gives the bare type pattern and no entry |
| VarNode.QuotedVar | sparser/sparser.py:517-530 | `{{'re' name}}` for an unregistered quoted type gives `(?P<name>(?:re))` with the identity callback |
| VarNode.PaddedVar | sparser/sparser.py:506-513 | `{{ int x }}` splits into four pieces and raises the UnexpectedError |
| VarNode.UnknownType | sparser/sparser.py:522-524 | an unregistered, unquoted type raises the "not a known type" SyntaxError |
| VarNode.Lookup | sparser/sparser.py:515-530 | the type lookup of `Var`: a registered type first, then a quoted expression checked for groups; `VarNode.LookupErrors`, `VarNode.QuotedVar` and `VarNode.UnknownType` state its outcomes |
| VarNode.MakeVar | sparser/sparser.py:499-538 | `Var.__init__` with `translate`: the member of a VAR token, whose outcomes `VarNode.VarOutcomes`, `VarNode.NamedVar`, `VarNode.AnonymousVar` and `VarNode.PaddedVar` state |
| Ast.PatternConcat | sparser/sparser.py:305-307 | the pattern of concatenated members is the concatenation of their patterns |
| Ast.EntriesConcat | sparser/sparser.py:305-309 | the entries of concatenated members are the concatenation of their entries |
| Ast.EntriesOfMembers | sparser/sparser.py:305-309 | an entry is in the dict exactly when some member carries it |
| Ast.UnnamedAddsNoEntry | sparser/sparser.py:308-310 | a member without a name extends the pattern and adds no entry |
| Ast.SetPattern | sparser/sparser.py:299-310 | the `_set_pattern` loop computes the member fragments concatenated in order, then `$`, and the named members' entries in order |
| Ast.Translate | sparser/sparser.py:299-310 | the dict `_set_pattern` builds: the members' fragments followed by `$` and their entries, as `Ast.PatternConcat`, `Ast.EntriesConcat` and `Ast.EntriesOfMembers` state |
| Blocks.GreedyOnlyRootLoop | sparser.py:376-380 | only a root loop translates to the greedy `(?P<name>.*)`; every other block is lazy `(?P<name>.*?)` |
| PackagedBuild.Collect | sparser/sparser.py:217-260 | a collected block is non-empty, and the block followed by what is left is the input |
| PackagedBuild.OpenBlock | sparser/sparser.py:217-246 | building a loop or switch consumes at least its opening marker |
| PackagedBuild.OpenCaseBlock | sparser/sparser.py:249-260 | building a case consumes at least its opening marker |
| PackagedBuild.CollectStopsAt | sparser/sparser.py:219-229 | a block ends at the first token that is its close marker or a refused opening marker; the refused marker raises its SyntaxError |
| PackagedBuild.CollectNotClosed | sparser/sparser.py:228-229 | tokens that run out first raise the "not closed" SyntaxError |
| PackagedBuild.CollectClean | sparser/sparser.py:219-229 | a collected block ends with its close marker and holds no refused or close marker before it |
| PackagedBuild.NestedLoopRefused | sparser/sparser.py:222-223 | an OPENLOOP inside a loop raises "Nested loops are not supported" |
| PackagedBuild.CasesWithoutCase | sparser/sparser.py:372-381 | a body without case markers is accepted only when it is all blank text, and then holds no case |
| PackagedBuild.BlockWithoutCase | sparser/sparser.py:372-383 | a loop or switch without cases raises "at least one case" when blank and "only cases" otherwise |
| PackagedBuild.CasesCount | sparser/sparser.py:372-375 | cases do not nest, so a body has exactly one case per case marker |
| PackagedBuild.CannotBeHereQuirk | sparser/sparser.py:294-295 | a stray marker first in a dict hits the unbound local `token`; after a TEXT it names that TEXT, not the stray marker |
| PackagedBuild.MakeDictTranslates | sparser/sparser.py:275-310 | the dict's pattern is its members' fragments then `$`, and its entries are exactly the named members' |
| PackagedBuild.CollectTokens | sparser/sparser.py:218-229 | the `while True` pop loop computes the collection |
| PackagedBuild.BuildDict | sparser/sparser.py:275-297 | the `while tokens` loop of `Dict.__init__` computes the dict |
| PackagedBuild.BuildBlock | sparser/sparser.py:217-246 | `_make_loop` and `_make_switch` compute the block and the tokens after it |
| PackagedBuild.BuildBlockNode | sparser/sparser.py:361-383 | the `Loop` and `Switch` constructors compute the node |
| PackagedBuild.BuildCase | sparser/sparser.py:249-260 | `_make_case` and `Case.__init__` compute the case and the tokens after it |
| PackagedBuild.Members | sparser/sparser.py:275-297 | the `while tokens` dispatch of the packaged `Dict.__init__`: the members of a token list, which `PackagedBuild.BuildDict` computes and `PackagedBuild.CannotBeHereQuirk` and `PackagedBuild.NestedLoopRefused` constrain |
| PackagedBuild.MakeDict | sparser/sparser.py:275-310 | the packaged `Dict(tokens, ctx)`, whose pattern and entries `PackagedBuild.MakeDictTranslates` states |
| PackagedBuild.BlockNode | sparser/sparser.py:361-390 | the packaged `Loop` and `Switch` members, computed by `PackagedBuild.BuildBlockNode`; `PackagedBuild.CasesWithoutCase`, `PackagedBuild.BlockWithoutCase` and `PackagedBuild.CasesCount` state when they fail |
| RootBuild.CollectNested | sparser.py:239-251 | a collected block is non-empty, and the block followed by what is left is the input |
| RootBuild.OpenBlock | sparser.py:238-267 | building a loop or switch consumes at least its opening marker |
| RootBuild.OpenCaseBlock | sparser.py:353-367 | building a case consumes at least its opening marker |
| RootBuild.CollectEndsAt | sparser.py:241-249 | with a depth counter raised by same-kind opens and lowered by same-kind closes, the block ends exactly where the depth first returns to zero |
| RootBuild.CollectNestedNotClosed | sparser.py:250-251 | tokens that never bring the depth back to zero raise the "not closed" SyntaxError |
| RootBuild.CollectBalanced | sparser.py:239-251 | every collected block is balanced: it ends with its close marker at depth zero and stays positive before |
| RootBuild.NestedLoopAccepted | sparser.py:244-249 | a loop inside a loop is accepted: the outer block ends at the second close marker |
| RootBuild.CasesWithoutCase | sparser.py:351-372 | a body without case markers is accepted only when it is all blank text |
| RootBuild.CannotBeHereNamesToken | sparser.py:272-273 | a stray marker raises the SyntaxError naming that marker itself |
| RootBuild.MakeDictTranslates | sparser.py:275-289 | the dict's pattern is its members' fragments then `$`, and its entries are exactly the named members' |
| RootBuild.CollectBlock | sparser.py:239-251 | the `nested` counter loop computes the collection |
| RootBuild.BuildDict | sparser.py:230-275 | the `while tokens` loop of `Dict.__init__` computes the dict |
| RootBuild.BuildBlock | sparser.py:238-267 | the inner loop for a loop or switch computes the block and the tokens after it |
| RootBuild.BuildBlockNode | sparser.py:340-374 | the `Loop` and `Switch` constructors compute the node |
| RootBuild.BuildCase | sparser.py:353-367 | the case loop and `Case.__init__` compute the case and the tokens after it |
| RootBuild.Members | sparser.py:230-275 | the `while tokens` dispatch of the root `Dict.__init__`: the members of a token list, which `RootBuild.BuildDict` computes and `RootBuild.CannotBeHereNamesToken` and `RootBuild.NestedLoopAccepted` constrain |
| RootBuild.MakeDict | sparser.py:230-289 | the root `Dict(tokens, ctx)`, whose pattern and entries `RootBuild.MakeDictTranslates` states |
| RootBuild.BlockNode | sparser.py:340-381 | the root `Loop` and `Switch` members, computed by `RootBuild.BuildBlockNode`; `RootBuild.CasesWithoutCase` states when they fail |
| Extract.FirstMissing | sparser/sparser.py:322-324 | the first section the search does not find; none exactly when every section is found |
| Extract.FirstMissingAt | sparser/sparser.py:322-324 | the section reported is the first one not found, after every earlier one is found |
| Extract.DictParseOutcomes | sparser/sparser.py:312-334 | a parse gives None exactly on a failed match without `do_error`; with it a failed match raises the mismatch error; a match gives the record the entries assign, or the first callback error |
| Extract.MismatchKinds | sparser.py:296-304 | the mismatch error names the first section not found; when all are found the packaged copy still raises a ValueError and the root copy the unexpected error |
| Extract.MismatchValueError | sparser.py:296-304 | the mismatch error is a ValueError exactly in the packaged copy or when some section is not found; otherwise it is the unexpected error |
| Extract.AssignKeys | sparser/sparser.py:327-330 | the record holds exactly the earlier keys plus the names of the entries `zip` pairs with a group |
| Extract.AssignKeeps | sparser/sparser.py:328-330 | a name no paired entry carries keeps its value |
| Extract.AssignValue | sparser/sparser.py:328-330 | each entry's name maps to its callback applied to the positionally corresponding group, unless a later entry reuses the name |
| Extract.AssignFirstError | sparser/sparser.py:328-330 | the first failing callback's error is the error of the parse |
| Extract.AssignAllOk | sparser/sparser.py:328-330 | when every paired callback succeeds, so does the record |
| Extract.CaseParseSpec | sparser/sparser.py:350-358 | a case gives None exactly when its dict does and never raises the mismatch error; a labelled case sets `"case"` to its label and changes nothing else |
| Extract.FirstCaseAt | sparser/sparser.py:461-464 | the first case in declaration order that does not give None decides |
| Extract.FirstCaseNone | sparser/sparser.py:461-464 | when no case parses, the scan gives None |
| Extract.SwitchPicksFirst | sparser/sparser.py:456-464 | a switch gives the record of its first matching case |
| Extract.SwitchNoCase | sparser/sparser.py:465-468 | a switch whose cases all fail raises the "unmatched for switch" ValueError listing the case patterns |
| Extract.LoopBlankInput | sparser/sparser.py:397-399 | a loop over text that is only line breaks gives `[]` |
| Extract.SmallestWindow | sparser/sparser.py:414-423 | the window size returned lies between the starting size and the number of lines |
| Extract.SmallestWindowAt | sparser/sparser.py:414-423 | `_generate_combs` returns the smallest window size any case parses, with the first case's record |
| Extract.SmallestWindowSpec | sparser/sparser.py:414-423 | the window returned is parsed by a case into its record, and every smaller window gives None |
| Extract.SmallestWindowNone | sparser/sparser.py:414-423 | when no window parses, `_generate_combs` gives None |
| Extract.CombsUnmatched | sparser/sparser.py:402-411 | lines no window of which parses raise the "unmatched for loop" ValueError quoting them all |
| Extract.CombsCount | sparser/sparser.py:401-412 | each step consumes at least one line: at least one record, and at most one per line |
| Extract.CombsPartition | sparser/sparser.py:401-423 | the consumed windows partition the lines in order, one per record; each is the smallest prefix some case parses, and it yields that case's record |
| Extract.PerLineSpec | sparser.py:391-403 | the root loop yields exactly one record per line, in order: the first matching case's record |
| Extract.PerLineUnmatched | sparser.py:392-402 | the first line no case parses, even an empty one, raises the ValueError naming that line |
| Extract.LoopsAgree | sparser.py:382-403 | when every single line is parsed, the packaged windows and the root per-line loop give the same records |
| Extract.SearchSections | sparser/sparser.py:322-324 | the section loop finds the first missing section |
| Extract.ParseDict | sparser/sparser.py:312-334 | `Dict.parse` with its `zip` loop computes the dict parse |
| Extract.FindCase | sparser/sparser.py:461-464 | the `for case_obj` loop computes the first-case scan |
| Extract.GenerateCombs | sparser/sparser.py:414-423 | the `_generate_combs` loop computes the smallest window |
| Extract.LoopCallback | sparser/sparser.py:392-412 | `Loop.cb` of either copy computes the loop parse |
| Extract.SwitchCallback | sparser/sparser.py:456-468 | `Switch.cb` computes the switch parse |
| Extract.Mismatch | sparser/sparser.py:318-325 | the error of a failed match with errors on; `Extract.MismatchKinds`, `Extract.MismatchValueError` and `Extract.FirstMissingAt` state which error and which section |
| Extract.DictParse | sparser/sparser.py:312-334 | `Dict.parse` in either copy, computed by `Extract.ParseDict`, with its outcomes stated by `Extract.DictParseOutcomes` |
| Extract.Assign | sparser/sparser.py:328-332 | the `zip` loop of `Dict.parse`, whose keys, values and errors `Extract.AssignKeys`, `Extract.AssignKeeps`, `Extract.AssignValue`, `Extract.AssignFirstError` and `Extract.AssignAllOk` state |
| Extract.CaseParse | sparser/sparser.py:350-358 | `Case.parse`, whose outcomes `Extract.CaseParseSpec` states |
| Extract.FirstCase | sparser/sparser.py:461-464 | the first case whose parse is a record, as `Extract.FirstCaseAt` and `Extract.FirstCaseNone` state and `Extract.FindCase` computes |
| Extract.SwitchParse | sparser/sparser.py:456-468 | `Switch.cb`, computed by `Extract.SwitchCallback`; `Extract.SwitchPicksFirst` and `Extract.SwitchNoCase` state its outcomes |
| Extract.LoopParse | sparser/sparser.py:392-412 | `Loop.cb` of either copy, computed by `Extract.LoopCallback`; `Extract.LoopBlankInput` and `Extract.LoopsAgree` state its outcomes |
| Extract.Combs | sparser/sparser.py:401-423 | the `while string_lines` loop of the packaged `Loop.cb`, computed by `Extract.GenerateCombs` and described by `Extract.CombsUnmatched`, `Extract.CombsCount` and `Extract.CombsPartition` |
| Extract.PerLine | sparser.py:382-403 | the line loop of the root `Loop.cb`, described by `Extract.PerLineSpec` and `Extract.PerLineUnmatched` |
| Api.ParseOutcomes | sparser/sparser.py:568-573 | `parse` raises the mismatch error on a failed match, and otherwise gives the assigned record or the first callback error |
| Api.MatchSpec | sparser/sparser.py:575-584 | `match` is True exactly when `parse` succeeds, False exactly when it raises a ValueError, and raises every other error unchanged |
| Api.PackagedMismatchIsFalse | sparser/sparser.py:575-584 | in the packaged copy a failed match is always False |
| Api.RootUnexpectedEscapesMatch | sparser.py:301-304 | in the root copy a failed match whose sections are all found raises the unexpected error out of `match` |
| Api.CompileErrorsEscapeMatch | sparser/sparser.py:625-636 | compile errors of the one-shot `match` are raised, never turned into False |
| Api.CompileRejectsGroups | sparser/sparser.py:546-548 | a custom type with a capturing group fails the compile of any template that tokenizes |
| Api.PlainTemplate | sparser/sparser.py:595-605 | a template without markers compiles in either copy to its normalised, escaped text followed by `$`, with no entries |
| Api.RootTokenize | sparser/sparser.py:193-208 | `_root_tokenize` of either copy: the include expansion of that copy, then the merge of adjacent TEXT tokens; `Api.PlainTemplate` states its result on a template without markers |
| Api.Build | sparser/sparser.py:541-566 | `SparserCompiledObject(tokens, custom_types)`: the registry, then the dict; `Api.CompileRejectsGroups` states the registry check that runs first and `Api.PlainTemplate` the dict of a single TEXT token |
| Api.Compile | sparser/sparser.py:595-605 | `compile`: tokenize, then build; `Api.CompileRejectsGroups` and `Api.PlainTemplate` state its outcomes |
| Api.Parse | sparser/sparser.py:568-573 | `SparserCompiledObject.parse`, whose outcomes `Api.ParseOutcomes` states |
| Api.Match | sparser/sparser.py:575-584 | `SparserCompiledObject.match`, whose outcomes `Api.MatchSpec`, `Api.PackagedMismatchIsFalse` and `Api.RootUnexpectedEscapesMatch` state |
| Api.ParseTemplate | sparser/sparser.py:608-622 | the module-level `parse`: compile, then parse |
| Api.MatchTemplate | sparser/sparser.py:625-636 | the module-level `match`: compile, then match; `Api.CompileErrorsEscapeMatch` states that compile errors are raised |

## Left out

- The command-line entry point `_main` reads files and prints JSON; it is pure I/O.
- The regular expression engine applied to compiled patterns is a parameter (`Extract.Engine`).
  - The model does not interpret regular expressions.
  - Matching is proved relative to that parameter.
  - The marker classes and the capturing-group check are defined as string predicates.
- `re.escape` and the whitespace relaxations applied after it in `Text` are one escape function passed to the builders, because their output depends on the Python version.
  - `TextNode.MakeText`: only the four substitutions before escaping are modelled; what the escape does to them is not.
- Python's `float()`, and with it `_floatify` and the `float` and `currency` types, are a runtime function. Floating point is out of scope.
- User callbacks such as `str.upper` are foreign functions, modelled as a runtime function keyed by the type name.
- `int()` accepts underscores and Unicode digits; the model accepts only an optional minus followed by ASCII digits.
- `\w` and whitespace are ASCII only. The rules of `str.strip()` and `\w` for Unicode text are not modelled.
- The Python 2 `unicode` retry in `Dict.parse` (a NameError on Python 3) is not modelled.
- The debug `print` in the root `Text` is not modelled.
- Messages built with `%r` use the raw text instead of Python's `repr` quoting and escaping.
- The unknown-type message omits the JSON listing of the supported types: the message is `"<type> not a known type"`.
- The unbound-local NameError wording follows Python 3.10 and earlier ("local variable 'token' referenced before assignment"); later versions word it differently.
- `setup.py`, `__init__.py` and the test harness driven by the tests data file are not part of this model.
- The root `sparser.py` imports `SparserUnexpectedError`, which the root `sparser_exceptions.py` does not define. This is an import-time failure, not logic. The model gives the root copy the packaged copy's three error kinds.
- Tokens are immutable values, and the builders consume a `seq` rather than popping from a shared list.
  - In-place mutation of `ret_tokens[-1].content` is modelled on values.
  - Aliasing between token lists is not modelled.
- PackagedIncludes.Tokenize takes a `Fuel` bound for the include recursion: a count of the nested expansions still allowed, written as a chain of `Deeper` ending in `Exhausted`. Running out of fuel stands for Python's RecursionError on a self-including template. More fuel never changes a result that did not hit the limit (`PackagedIncludes.TokenizeMoreFuel`). That every acyclic set of includes finishes for some fuel is not proved.
- Groups that do not participate in the match (Python's `None` captures) are not modelled: the engine returns text for every group.
- The builder and parse methods apply nested loops, switches and cases through the specification functions rather than through further methods.
- Values.Decode: its contract only restates itself for the identity, strip and user decoders, so it has no row of its own. Its meaning is covered through `Values.IntCast`, `Values.FloatCast` and the lemmas about them (`Values.IntCastShow`, `Values.FloatCastPadded`).
