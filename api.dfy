/** The public entry points: `compile`, `SparserCompiledObject.parse` and
    `.match`, and the one-shot `parse` and `match`. A template is
    tokenized (includes expanded, adjacent text merged), the type registry
    is built, and the top-level dict is translated; parsing then runs that
    dict on the whole string with errors enabled. */
module Api {
  import opened Errors
  import opened Strings
  import opened Markers
  import opened Values
  import opened Types
  import opened Ast
  import opened Merge
  import opened Extract
  import Scanner
  import Includes
  import TextNode
  import PackagedIncludes
  import RootIncludes
  import PackagedBuild
  import RootBuild

  /** `SparserCompiledObject`: which copy built it, and its dict. */
  datatype Compiled = Compiled(v: Variant, dict: Dict)

  /** `_root_tokenize`: the includes are expanded, then adjacent TEXT tokens
      are merged. `fuel` bounds the packaged include recursion. */
  function RootTokenize(v: Variant, raw: string, includes: map<string, string>, fuel: PackagedIncludes.Fuel): Result<seq<Token>> {
    var ts :- if v == Packaged then PackagedIncludes.Tokenize(raw, includes, fuel) else RootIncludes.Tokenize(raw, includes).0;
    Ok(Merged(ts))
  }

  /** `SparserCompiledObject(tokens, custom_types)`: the registry first,
      then the dict. */
  function Build(v: Variant, tokens: seq<Token>, custom: Option<map<string, Custom>>, esc: string -> string): Result<Compiled> {
    var ctx :- Context(v, custom);
    var d :- if v == Packaged then PackagedBuild.MakeDict(tokens, ctx, esc) else RootBuild.MakeDict(tokens, ctx, esc);
    Ok(Compiled(v, d))
  }

  /** `compile(patt, custom_types, includes)`. */
  function Compile(v: Variant, patt: string, custom: Option<map<string, Custom>>, includes: map<string, string>,
                   fuel: PackagedIncludes.Fuel, esc: string -> string): Result<Compiled> {
    var tokens :- RootTokenize(v, patt, includes, fuel);
    Build(v, tokens, custom, esc)
  }

  /** `SparserCompiledObject.parse`: the dict parsed with errors enabled,
      which never gives `None`. */
  function Parse(c: Compiled, s: string, eng: Engine): Result<Record> {
    match DictParse(c.v, c.dict, s, true, eng)
    case Ok(Some(m)) => Ok(m)
    case Ok(None) => assert false; Err(BuiltinError(""))
    case Err(e) => Err(e)
  }

  /** `SparserCompiledObject.match`: a ValueError means no match; any other
      error escapes. */
  function Match(c: Compiled, s: string, eng: Engine): Result<bool> {
    var r := Parse(c, s, eng);
    if r.Ok? then Ok(true)
    else if r.error.ValueError? then Ok(false)
    else Err(r.error)
  }

  /** The module-level `parse(pattern, string, ...)`. */
  function ParseTemplate(v: Variant, patt: string, s: string, custom: Option<map<string, Custom>>,
                         includes: map<string, string>, fuel: PackagedIncludes.Fuel, esc: string -> string, eng: Engine): Result<Record> {
    var c :- Compile(v, patt, custom, includes, fuel, esc);
    Parse(c, s, eng)
  }

  /** The module-level `match(pattern, string, ...)`: compiling happens
      outside the `try`, so its errors escape. */
  function MatchTemplate(v: Variant, patt: string, s: string, custom: Option<map<string, Custom>>,
                         includes: map<string, string>, fuel: PackagedIncludes.Fuel, esc: string -> string, eng: Engine): Result<bool> {
    var c :- Compile(v, patt, custom, includes, fuel, esc);
    Match(c, s, eng)
  }

  /** A parse succeeds exactly when the pattern matches and every callback
      succeeds, giving the record the entries assign; a failed match raises
      the mismatch error. */
  lemma ParseOutcomes(c: Compiled, s: string, eng: Engine)
    ensures eng.reMatch(c.dict.patt, s).None? ==> Parse(c, s, eng) == Err(Mismatch(c.v, c.dict, s, eng))
    ensures eng.reMatch(c.dict.patt, s).Some? ==>
              var a := Assign(c.v, c.dict.entries, eng.reMatch(c.dict.patt, s).value, map[], eng);
              Parse(c, s, eng) == if a.Ok? then Ok(a.value) else Err(a.error)
  {
    DictParseOutcomes(c.v, c.dict, s, true, eng);
  }

  /** `match` is true exactly when `parse` succeeds, false exactly when it
      raises a ValueError, and raises every other error of `parse`. */
  lemma MatchSpec(c: Compiled, s: string, eng: Engine)
    ensures Match(c, s, eng) == Ok(true) <==> Parse(c, s, eng).Ok?
    ensures Match(c, s, eng) == Ok(false) <==> Parse(c, s, eng).Err? && Parse(c, s, eng).error.ValueError?
    ensures Match(c, s, eng).Err? <==> Parse(c, s, eng).Err? && !Parse(c, s, eng).error.ValueError?
    ensures Match(c, s, eng).Err? ==> Match(c, s, eng).error == Parse(c, s, eng).error
  {
  }

  /** A failed match of the packaged copy is always a plain `False`. */
  lemma PackagedMismatchIsFalse(d: Dict, s: string, eng: Engine)
    requires eng.reMatch(d.patt, s).None?
    ensures Match(Compiled(Packaged, d), s, eng) == Ok(false)
  {
    ParseOutcomes(Compiled(Packaged, d), s, eng);
    MismatchKinds(Packaged, d, s, eng);
  }

  /** In the root copy, a failed match whose sections are each found
      somewhere in the string raises the unexpected error out of `match`
      instead of giving `False`. */
  lemma RootUnexpectedEscapesMatch(d: Dict, s: string, eng: Engine)
    requires eng.reMatch(d.patt, s).None?
    requires forall k | 0 <= k < |SplitStr(d.patt, SectionSep)| :: eng.reSearch(SplitStr(d.patt, SectionSep)[k], s)
    ensures Match(Compiled(Root, d), s, eng) == Err(UnexpectedError(Unlocated))
  {
    ParseOutcomes(Compiled(Root, d), s, eng);
  }

  /** Compile errors are not turned into `False` by `match`. */
  lemma CompileErrorsEscapeMatch(v: Variant, patt: string, s: string, custom: Option<map<string, Custom>>,
                                 includes: map<string, string>, fuel: PackagedIncludes.Fuel, esc: string -> string, eng: Engine)
    requires Compile(v, patt, custom, includes, fuel, esc).Err?
    ensures MatchTemplate(v, patt, s, custom, includes, fuel, esc, eng) == Err(Compile(v, patt, custom, includes, fuel, esc).error)
  {
  }

  /** A custom type with a capturing group fails the compile of any
      template that tokenizes, before the template's own markers are
      looked at. */
  lemma CompileRejectsGroups(v: Variant, patt: string, custom: map<string, Custom>, includes: map<string, string>,
                             fuel: PackagedIncludes.Fuel, esc: string -> string)
    requires RootTokenize(v, patt, includes, fuel).Ok? && SomeGroup(custom)
    ensures Compile(v, patt, Some(custom), includes, fuel, esc) == Err(SyntaxError(GroupMessage))
  {
  }

  /** A template without markers compiles, in either copy, to its
      normalised and escaped text anchored at the end, with no entries. */
  lemma PlainTemplate(v: Variant, raw: string, includes: map<string, string>, fuel: PackagedIncludes.Fuel, esc: string -> string)
    requires forall q: nat | q < |raw| :: !Scanner.OpensAt(raw, q)
    ensures Compile(v, raw, None, includes, fuel, esc) ==
            Ok(Compiled(v, Dict(esc(TextNode.Normalise(raw)) + "$", [])))
  {
    PlainTokenizes(v, raw, includes, fuel);
    PlainBuilds(v, raw, esc);
  }

  lemma PlainTokenizes(v: Variant, raw: string, includes: map<string, string>, fuel: PackagedIncludes.Fuel)
    requires forall q: nat | q < |raw| :: !Scanner.OpensAt(raw, q)
    ensures RootTokenize(v, raw, includes, fuel) == Ok([Token(Text, raw)])
  {
    var t := Token(Text, raw);
    Scanner.ScanPlain(raw);
    assert Includes.FirstInclude([t]).None?;
    if v == Packaged {
      assert PackagedIncludes.Expand([t], PackagedIncludes.LibraryOf(includes), fuel) == Ok([t]);
    } else {
      assert RootIncludes.Preprocess([t], includes) == (Ok([t]), includes);
    }
    assert Merged([t]) == [t] by {
      assert [t][..0] == [];
    }
  }

  lemma PlainBuilds(v: Variant, raw: string, esc: string -> string)
    ensures Build(v, [Token(Text, raw)], None, esc) == Ok(Compiled(v, Dict(esc(TextNode.Normalise(raw)) + "$", [])))
  {
    var t := Token(Text, raw);
    var m := TextNode.MakeText(t, esc);
    assert Pattern([m]) == m.patt + Pattern([]);
    assert Entries([m]) == [] + Entries([]);
    assert [t][1..] == [];
    assert [m] + [] == [m];
    if v == Packaged {
      assert PackagedBuild.Members([], Some(t), BuiltIns(v), esc) == Ok([]);
      assert PackagedBuild.Members([t], None, BuiltIns(v), esc) == Ok([m]);
    } else {
      assert RootBuild.Members([], BuiltIns(v), esc) == Ok([]);
      assert RootBuild.Members([t], BuiltIns(v), esc) == Ok([m]);
    }
    assert Context(v, None) == Ok(BuiltIns(v));
    assert Translate([m]) == Dict(esc(TextNode.Normalise(raw)) + "$", []);
  }
}
