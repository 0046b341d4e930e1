/** What both copies of `_preprocess` share: finding the first INCLUDE
    token, reading its template name, and splicing an expansion in. */
module Includes {
  import opened Errors
  import opened Markers

  /** The index of the first INCLUDE token. */
  function FirstInclude(ts: seq<Token>): (r: Option<nat>)
    ensures r.Some? ==> r.value < |ts| && ts[r.value].kind == Include
                        && NoIncludes(ts[..r.value])
    ensures r.None? ==> NoIncludes(ts)
  {
    if ts == [] then None
    else if ts[0].kind == Include then Some(0)
    else match FirstInclude(ts[1..])
      case None =>
        assert forall j | 1 <= j < |ts| :: ts[j] == ts[1..][j - 1];
        None
      case Some(i) =>
        assert forall j | 1 <= j < i + 1 :: ts[j] == ts[1..][j - 1];
        Some(i + 1)
  }

  /** `token.group(1)` of an INCLUDE token; a token whose text does not
      match the pattern makes `group` fail on Python's `None`. */
  function NameOf(t: Token): (r: Result<string>)
    ensures r.Ok? ==> Some(r.value) == IncludeName(t.content)
  {
    match IncludeName(t.content)
    case Some(n) => Ok(n)
    case None => Err(BuiltinError("'NoneType' object has no attribute 'group'"))
  }

  /** The lookup never fails on a well-formed INCLUDE. */
  lemma NameOfDefined(t: Token)
    requires WellFormed(t) && t.kind == Include
    ensures NameOf(t).Ok?
  {
  }

  function NotProvided(name: string): Error {
    ValueError("Includes template " + name + " not provided")
  }

  /** `tokens[:i] + sub + tokens[i+1:]`. */
  function Splice(ts: seq<Token>, i: nat, sub: seq<Token>): seq<Token>
    requires i < |ts|
  {
    ts[..i] + sub + ts[i + 1..]
  }

  /** Splicing an include-free expansion over an INCLUDE removes exactly one
      INCLUDE. */
  lemma SpliceCount(ts: seq<Token>, i: nat, sub: seq<Token>)
    requires i < |ts| && ts[i].kind == Include && NoIncludes(sub)
    ensures CountIncludes(Splice(ts, i, sub)) == CountIncludes(ts) - 1
  {
    assert ts == ts[..i] + [ts[i]] + ts[i + 1..];
    CountIncludesConcat(ts[..i] + [ts[i]], ts[i + 1..]);
    CountIncludesConcat(ts[..i], [ts[i]]);
    CountIncludesConcat(ts[..i] + sub, ts[i + 1..]);
    CountIncludesConcat(ts[..i], sub);
    NoIncludesCount(sub);
    assert CountIncludes([ts[i]]) == 1;
  }

  lemma NoIncludesConcat(a: seq<Token>, b: seq<Token>)
    ensures NoIncludes(a + b) <==> NoIncludes(a) && NoIncludes(b)
  {
    if NoIncludes(a + b) {
      assert forall j | 0 <= j < |a| :: a[j] == (a + b)[j];
      assert forall j | 0 <= j < |b| :: b[j] == (a + b)[|a| + j];
    }
  }

  /** The `for i, token in enumerate(tokens)` search of `_preprocess`:
      the index of the first INCLUDE, or the length when there is none. */
  method FindInclude(tokens: seq<Token>) returns (i: nat)
    ensures i <= |tokens|
    ensures FirstInclude(tokens) == if i == |tokens| then None else Some(i)
  {
    i := 0;
    while i < |tokens| && tokens[i].kind != Include
      invariant 0 <= i <= |tokens|
      invariant NoIncludes(tokens[..i])
    {
      assert tokens[..i + 1] == tokens[..i] + [tokens[i]];
      NoIncludesConcat(tokens[..i], [tokens[i]]);
      i := i + 1;
    }
    if i == |tokens| {
      assert tokens[..i] == tokens;
    }
  }
}
