/** `_tokenize` and `_preprocess` of the packaged copy: the includes map is
    never changed, so a name may be included any number of times, and a
    template that includes itself recurses until Python's recursion limit.
    The `fuel` parameter stands for that limit: each nested expansion uses
    one unit, and running out is the RecursionError.

    Scanning is a pure function of the template text, so scanning every
    template of the map up front (`Library`) and consulting the result only
    when an INCLUDE names it raises the same errors in the same order as
    scanning the template at the moment it is included. */
module PackagedIncludes {
  import opened Errors
  import opened Markers
  import opened Scanner
  import opened Includes

  const RecursionLimit: Error := BuiltinError("maximum recursion depth exceeded")

  /** How many more nested expansions Python's recursion limit allows. */
  datatype Fuel = Exhausted | Deeper(rest: Fuel)

  type Library = map<string, Result<seq<Token>>>

  /** The scan of every template in the includes map. */
  function LibraryOf(inc: map<string, string>): (lib: Library)
    ensures lib.Keys == inc.Keys
    ensures forall n | n in inc :: lib[n] == Scan(inc[n])
  {
    map n | n in inc :: Scan(inc[n])
  }

  /** `_tokenize(raw, includes_dict)`: scan, then expand the includes. */
  function Tokenize(raw: string, inc: map<string, string>, fuel: Fuel): Result<seq<Token>> {
    var ts :- Scan(raw);
    Expand(ts, LibraryOf(inc), fuel)
  }

  /** `_preprocess`: replace the first INCLUDE by the tokenized template it
      names, and start over, until no INCLUDE is left. */
  function Expand(ts: seq<Token>, lib: Library, fuel: Fuel): (r: Result<seq<Token>>)
    ensures r.Ok? ==> NoIncludes(r.value)
    decreases fuel, 1, CountIncludes(ts)
  {
    match FirstInclude(ts)
    case None => Ok(ts)
    case Some(i) =>
      var sub :- ExpandOne(ts[i], lib, fuel);
      SpliceCount(ts, i, sub);
      Expand(Splice(ts, i, sub), lib, fuel)
  }

  /** Every result of the packaged `_tokenize` is free of INCLUDE tokens. */
  lemma TokenizeNoIncludes(raw: string, inc: map<string, string>, fuel: Fuel)
    requires Tokenize(raw, inc, fuel).Ok?
    ensures NoIncludes(Tokenize(raw, inc, fuel).value)
  {
  }

  /** The expansion of one INCLUDE token: look its name up and expand the
      template it names with one unit of fuel less. */
  function ExpandOne(t: Token, lib: Library, fuel: Fuel): (r: Result<seq<Token>>)
    ensures r.Ok? ==> NoIncludes(r.value)
    decreases fuel, 0, 0
  {
    var name :- NameOf(t);
    if name !in lib then Err(NotProvided(name))
    else if fuel.Exhausted? then Err(RecursionLimit)
    else
      var scanned :- lib[name];
      Expand(scanned, lib, fuel.rest)
  }

  /** Reference definition: every INCLUDE replaced by its expansion, token
      by token from the left, everything else kept in place. */
  function ExpandEach(ts: seq<Token>, lib: Library, fuel: Fuel): Result<seq<Token>>
    decreases |ts|
  {
    if ts == [] then Ok([])
    else if ts[0].kind == Include then
      var sub :- ExpandOne(ts[0], lib, fuel);
      Prepend(sub, ExpandEach(ts[1..], lib, fuel))
    else Prepend([ts[0]], ExpandEach(ts[1..], lib, fuel))
  }

  lemma {:induction false} ExpandEachPlain(a: seq<Token>, b: seq<Token>, lib: Library, fuel: Fuel)
    requires NoIncludes(a)
    ensures ExpandEach(a + b, lib, fuel) == Prepend(a, ExpandEach(b, lib, fuel))
    decreases |a|
  {
    if a == [] {
      assert a + b == b;
      PrependNothing(ExpandEach(b, lib, fuel));
    } else {
      assert (a + b)[0] == a[0];
      assert (a + b)[1..] == a[1..] + b;
      ExpandEachPlain(a[1..], b, lib, fuel);
      PrependAssoc([a[0]], a[1..], ExpandEach(b, lib, fuel));
      assert [a[0]] + a[1..] == a;
    }
  }

  /** One round of `_preprocess` on the first INCLUDE, at index `i`, when
      its expansion fails or cannot start. */
  lemma ExpandFails(ts: seq<Token>, lib: Library, fuel: Fuel, i: nat)
    requires FirstInclude(ts) == Some(i) && ExpandOne(ts[i], lib, fuel).Err?
    ensures Expand(ts, lib, fuel) == ExpandOne(ts[i], lib, fuel)
  {
  }

  /** One round of `_preprocess` when the first INCLUDE expands. */
  lemma ExpandSplices(ts: seq<Token>, lib: Library, fuel: Fuel, i: nat, sub: seq<Token>)
    requires FirstInclude(ts) == Some(i) && ExpandOne(ts[i], lib, fuel) == Ok(sub)
    ensures NoIncludes(sub)
    ensures Expand(ts, lib, fuel) == Expand(Splice(ts, i, sub), lib, fuel)
  {
  }

  /** `_preprocess`, rescanning from the start after every expansion, is
      the same as expanding each INCLUDE in place from left to right: the
      tokens around the includes keep their order. */
  lemma {:induction false} ExpandIsEach(ts: seq<Token>, lib: Library, fuel: Fuel)
    ensures Expand(ts, lib, fuel) == ExpandEach(ts, lib, fuel)
    decreases CountIncludes(ts)
  {
    match FirstInclude(ts)
    case None =>
      assert ts + [] == ts;
      ExpandEachPlain(ts, [], lib, fuel);
    case Some(i) =>
      var pre := ts[..i];
      var post := ts[i + 1..];
      assert ts == pre + ([ts[i]] + post);
      ExpandEachPlain(pre, [ts[i]] + post, lib, fuel);
      assert ([ts[i]] + post)[1..] == post;
      var one := ExpandOne(ts[i], lib, fuel);
      if one.Ok? {
        var sub := one.value;
        ExpandSplices(ts, lib, fuel, i, sub);
        SpliceCount(ts, i, sub);
        ExpandIsEach(Splice(ts, i, sub), lib, fuel);
        NoIncludesConcat(pre, sub);
        assert Splice(ts, i, sub) == (pre + sub) + post;
        ExpandEachPlain(pre + sub, post, lib, fuel);
        PrependAssoc(pre, sub, ExpandEach(post, lib, fuel));
      } else {
        ExpandFails(ts, lib, fuel, i);
      }
  }

  /** Include names are never used up: every INCLUDE whose name is present
      and whose template expands with the fuel left is expanded, however
      often the name recurs. */
  lemma {:induction false} ReuseAllowed(ts: seq<Token>, lib: Library, fuel: Fuel)
    requires forall j | 0 <= j < |ts| && ts[j].kind == Include :: ExpandOne(ts[j], lib, fuel).Ok?
    ensures Expand(ts, lib, fuel).Ok?
    decreases |ts|
  {
    ExpandIsEach(ts, lib, fuel);
    if ts != [] {
      assert forall j | 0 <= j < |ts[1..]| :: ts[1..][j] == ts[j + 1];
      ReuseAllowed(ts[1..], lib, fuel);
      ExpandIsEach(ts[1..], lib, fuel);
    }
  }

  /** An INCLUDE naming a template whose own first INCLUDE names it again
      exhausts the recursion limit, whatever the limit is. */
  lemma {:induction false} SelfExpandDiverges(ts: seq<Token>, lib: Library, fuel: Fuel, i: nat, name: string)
    requires FirstInclude(ts) == Some(i) && NameOf(ts[i]) == Ok(name)
    requires name in lib && lib[name] == Ok(ts)
    ensures Expand(ts, lib, fuel) == Err(RecursionLimit)
    decreases fuel
  {
    if fuel.Deeper? {
      SelfExpandDiverges(ts, lib, fuel.rest, i, name);
    }
    ExpandFails(ts, lib, fuel, i);
  }

  /** A template whose first include names the template itself never
      finishes expanding: it fails with the recursion limit. */
  lemma SelfIncludeDiverges(raw: string, inc: map<string, string>, fuel: Fuel, name: string)
    requires Scan(raw).Ok? && FirstInclude(Scan(raw).value).Some?
    requires NameOf(Scan(raw).value[FirstInclude(Scan(raw).value).value]) == Ok(name)
    requires name in inc && inc[name] == raw
    ensures Tokenize(raw, inc, fuel) == Err(RecursionLimit)
  {
    var ts := Scan(raw).value;
    SelfExpandDiverges(ts, LibraryOf(inc), fuel, FirstInclude(ts).value, name);
  }

  lemma {:induction false} ExpandEachFailsAt(ts: seq<Token>, lib: Library, fuel: Fuel, i: nat)
    requires i < |ts| && ts[i].kind == Include && ExpandOne(ts[i], lib, fuel).Err?
    requires forall j | 0 <= j < i && ts[j].kind == Include :: ExpandOne(ts[j], lib, fuel).Ok?
    ensures ExpandEach(ts, lib, fuel) == Err(ExpandOne(ts[i], lib, fuel).error)
    decreases i
  {
    if i > 0 {
      var rest := ts[1..];
      assert forall j | 0 <= j < i - 1 :: rest[j] == ts[j + 1];
      ExpandEachFailsAt(rest, lib, fuel, i - 1);
    }
  }

  /** An include whose name is absent fails with a ValueError, unless an
      earlier include fails first. */
  lemma MissingIncludeFails(ts: seq<Token>, lib: Library, fuel: Fuel, i: nat)
    requires i < |ts| && ts[i].kind == Include && WellFormed(ts[i])
    requires IncludeName(ts[i].content).value !in lib
    requires forall j | 0 <= j < i && ts[j].kind == Include :: ExpandOne(ts[j], lib, fuel).Ok?
    ensures Expand(ts, lib, fuel) == Err(NotProvided(IncludeName(ts[i].content).value))
  {
    NameOfDefined(ts[i]);
    ExpandIsEach(ts, lib, fuel);
    ExpandEachFailsAt(ts, lib, fuel, i);
  }

  /** More fuel never changes an expansion that did not run out of it: the
      recursion limit only cuts expansions short. */
  lemma {:induction false} ExpandMoreFuel(ts: seq<Token>, lib: Library, fuel: Fuel)
    ensures Expand(ts, lib, fuel) != Err(RecursionLimit) ==>
              Expand(ts, lib, Deeper(fuel)) == Expand(ts, lib, fuel)
    decreases fuel, 1, CountIncludes(ts)
  {
    match FirstInclude(ts)
    case None =>
    case Some(i) =>
      ExpandOneMoreFuel(ts[i], lib, fuel);
      var one := ExpandOne(ts[i], lib, fuel);
      if one.Ok? {
        ExpandSplices(ts, lib, fuel, i, one.value);
        SpliceCount(ts, i, one.value);
        ExpandMoreFuel(Splice(ts, i, one.value), lib, fuel);
        if one != Err(RecursionLimit) && Expand(ts, lib, fuel) != Err(RecursionLimit) {
          ExpandSplices(ts, lib, Deeper(fuel), i, one.value);
        }
      } else {
        ExpandFails(ts, lib, fuel, i);
        if one != Err(RecursionLimit) {
          ExpandFails(ts, lib, Deeper(fuel), i);
        }
      }
  }

  lemma {:induction false} ExpandOneMoreFuel(t: Token, lib: Library, fuel: Fuel)
    ensures ExpandOne(t, lib, fuel) != Err(RecursionLimit) ==>
              ExpandOne(t, lib, Deeper(fuel)) == ExpandOne(t, lib, fuel)
    decreases fuel, 0, 0
  {
    if NameOf(t).Ok? && NameOf(t).value in lib && fuel.Deeper? && lib[NameOf(t).value].Ok? {
      ExpandMoreFuel(lib[NameOf(t).value].value, lib, fuel.rest);
    }
  }

  /** The packaged `_tokenize` gives the same answer under any higher
      recursion limit, unless it hit the limit. */
  lemma TokenizeMoreFuel(raw: string, inc: map<string, string>, fuel: Fuel)
    ensures Tokenize(raw, inc, fuel) != Err(RecursionLimit) ==>
              Tokenize(raw, inc, Deeper(fuel)) == Tokenize(raw, inc, fuel)
  {
    if Scan(raw).Ok? {
      ExpandMoreFuel(Scan(raw).value, LibraryOf(inc), fuel);
    }
  }

  /** The packaged `_tokenize`: the scan loop, then `_preprocess`. */
  method TokenizeTemplate(raw: string, inc: map<string, string>, fuel: Fuel) returns (r: Result<seq<Token>>)
    ensures r == Tokenize(raw, inc, fuel)
    decreases fuel, 2
  {
    var scanned := ScanTemplate(raw);
    if scanned.Err? {
      return Err(scanned.error);
    }
    r := PreprocessTokens(scanned.value, inc, fuel);
  }

  /** The body of the search loop on an INCLUDE token: look the name up
      and tokenize the template it names. */
  method ExpandToken(t: Token, inc: map<string, string>, fuel: Fuel) returns (r: Result<seq<Token>>)
    ensures r == ExpandOne(t, LibraryOf(inc), fuel)
    decreases fuel, 0
  {
    var name := NameOf(t);
    if name.Err? {
      return Err(name.error);
    }
    if name.value !in inc {
      return Err(NotProvided(name.value));
    }
    if fuel.Exhausted? {
      return Err(RecursionLimit);
    }
    r := TokenizeTemplate(inc[name.value], inc, fuel.rest);
    ExpandOneCases(t, inc, fuel);
  }

  /** The cases of one expansion, with the templates scanned on demand. */
  lemma ExpandOneCases(t: Token, inc: map<string, string>, fuel: Fuel)
    ensures NameOf(t).Err? ==> ExpandOne(t, LibraryOf(inc), fuel) == Err(NameOf(t).error)
    ensures NameOf(t).Ok? && NameOf(t).value !in inc ==> ExpandOne(t, LibraryOf(inc), fuel) == Err(NotProvided(NameOf(t).value))
    ensures NameOf(t).Ok? && NameOf(t).value in inc && fuel.Exhausted? ==> ExpandOne(t, LibraryOf(inc), fuel) == Err(RecursionLimit)
    ensures NameOf(t).Ok? && NameOf(t).value in inc && fuel.Deeper? ==>
              ExpandOne(t, LibraryOf(inc), fuel) == Tokenize(inc[NameOf(t).value], inc, fuel.rest)
  {
  }

  /** The packaged `_preprocess` loop. */
  method PreprocessTokens(ts: seq<Token>, inc: map<string, string>, fuel: Fuel) returns (r: Result<seq<Token>>)
    ensures r == Expand(ts, LibraryOf(inc), fuel)
    decreases fuel, 1
  {
    ghost var lib := LibraryOf(inc);
    var tokens := ts;
    while true
      invariant Expand(tokens, lib, fuel) == Expand(ts, lib, fuel)
      decreases CountIncludes(tokens)
    {
      var i := FindInclude(tokens);
      if i == |tokens| {
        break;
      }
      var sub := ExpandToken(tokens[i], inc, fuel);
      if sub.Err? {
        ExpandFails(tokens, lib, fuel, i);
        return sub;
      }
      ExpandSplices(tokens, lib, fuel, i, sub.value);
      SpliceCount(tokens, i, sub.value);
      tokens := Splice(tokens, i, sub.value);
    }
    r := Ok(tokens);
  }
}
