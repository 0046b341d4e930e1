/** `_tokenize` and `_preprocess` of the root copy: each include name is
    deleted from the includes map as soon as it is expanded, and the map is
    the caller's own object, so the caller sees the deletions, even when an
    error is raised half way. The map shrinks with every expansion, which is
    what makes the recursion terminate. */
module RootIncludes {
  import opened Errors
  import opened Markers
  import opened Scanner
  import opened Includes

  type Table = map<string, string>

  /** `b` holds some of `a`'s entries, unchanged. */
  predicate SubMap(b: Table, a: Table) {
    b.Keys <= a.Keys && forall k | k in b :: b[k] == a[k]
  }

  lemma SubMapSize(b: Table, a: Table)
    requires SubMap(b, a)
    ensures |b| <= |a|
  {
    assert |b.Keys| <= |a.Keys| by {
      SubsetSize(b.Keys, a.Keys);
    }
  }

  lemma {:induction false} SubsetSize<T>(x: set<T>, y: set<T>)
    requires x <= y
    ensures |x| <= |y|
    decreases |x|
  {
    if x != {} {
      var e :| e in x;
      SubsetSize(x - {e}, y - {e});
    }
  }

  lemma SubMapTrans(c: Table, b: Table, a: Table)
    requires SubMap(c, b) && SubMap(b, a)
    ensures SubMap(c, a)
  {
  }

  /** `_tokenize(raw, includes_dict)`: the result and the map as the call
      leaves it. */
  function Tokenize(raw: string, inc: Table): (r: (Result<seq<Token>>, Table))
    ensures SubMap(r.1, inc)
    ensures r.0.Ok? ==> NoIncludes(r.0.value)
    decreases |inc|, 2, 0
  {
    match Scan(raw)
    case Err(e) => (Err(e), inc)
    case Ok(ts) => Preprocess(ts, inc)
  }

  /** `_preprocess`: expand the first INCLUDE, deleting its name from the
      map before tokenizing the template it names, and start over. */
  function Preprocess(ts: seq<Token>, inc: Table): (r: (Result<seq<Token>>, Table))
    ensures SubMap(r.1, inc)
    ensures r.0.Ok? ==> NoIncludes(r.0.value)
    decreases |inc|, 1, CountIncludes(ts)
  {
    match FirstInclude(ts)
    case None => (Ok(ts), inc)
    case Some(i) =>
      var (sub, left) := ExpandOne(ts[i], inc);
      if sub.Err? then (Err(sub.error), left)
      else
        SpliceCount(ts, i, sub.value);
        var r := Preprocess(Splice(ts, i, sub.value), left);
        SubMapTrans(r.1, left, inc);
        r
  }

  /** The expansion of one INCLUDE token and the map it leaves: the name
      is deleted before the template it names is tokenized. */
  function ExpandOne(t: Token, inc: Table): (r: (Result<seq<Token>>, Table))
    ensures SubMap(r.1, inc)
    ensures r.0.Ok? ==> NoIncludes(r.0.value) && |r.1| < |inc|
    decreases |inc|, 0, 0
  {
    match NameOf(t)
    case Err(e) => (Err(e), inc)
    case Ok(name) =>
      if name !in inc then (Err(NotProvided(name)), inc)
      else
        var rest := inc - {name};
        assert |rest| < |inc|;
        var r := Tokenize(inc[name], rest);
        SubMapTrans(r.1, rest, inc);
        SubMapSize(r.1, rest);
        r
  }

  /** Reference definition: each INCLUDE expanded in place from left to
      right, the map threaded from one expansion to the next. */
  function ExpandEach(ts: seq<Token>, inc: Table): (r: (Result<seq<Token>>, Table))
    decreases |ts|
  {
    if ts == [] then (Ok([]), inc)
    else if ts[0].kind == Include then
      var (sub, left) := ExpandOne(ts[0], inc);
      if sub.Err? then (Err(sub.error), left)
      else
        var (rest, final) := ExpandEach(ts[1..], left);
        (Prepend(sub.value, rest), final)
    else
      var (rest, final) := ExpandEach(ts[1..], inc);
      (Prepend([ts[0]], rest), final)
  }

  lemma {:induction false} ExpandEachSubMap(ts: seq<Token>, inc: Table)
    ensures SubMap(ExpandEach(ts, inc).1, inc)
    decreases |ts|
  {
    if ts != [] {
      if ts[0].kind == Include {
        var (sub, left) := ExpandOne(ts[0], inc);
        if sub.Ok? {
          ExpandEachSubMap(ts[1..], left);
          SubMapTrans(ExpandEach(ts[1..], left).1, left, inc);
        }
      } else {
        ExpandEachSubMap(ts[1..], inc);
      }
    }
  }

  lemma {:induction false} ExpandEachPlain(a: seq<Token>, b: seq<Token>, inc: Table)
    requires NoIncludes(a)
    ensures ExpandEach(a + b, inc).1 == ExpandEach(b, inc).1
    ensures ExpandEach(a + b, inc).0 == Prepend(a, ExpandEach(b, inc).0)
    decreases |a|
  {
    if a == [] {
      assert a + b == b;
      PrependNothing(ExpandEach(b, inc).0);
    } else {
      assert (a + b)[0] == a[0];
      assert (a + b)[1..] == a[1..] + b;
      ExpandEachPlain(a[1..], b, inc);
      PrependAssoc([a[0]], a[1..], ExpandEach(b, inc).0);
      assert [a[0]] + a[1..] == a;
    }
  }

  /** One round of `_preprocess` when the first INCLUDE fails to expand. */
  lemma PreprocessFails(ts: seq<Token>, inc: Table, i: nat)
    requires FirstInclude(ts) == Some(i) && ExpandOne(ts[i], inc).0.Err?
    ensures Preprocess(ts, inc) == ExpandOne(ts[i], inc)
  {
  }

  /** One round of `_preprocess` when the first INCLUDE expands. */
  lemma PreprocessSplices(ts: seq<Token>, inc: Table, i: nat, sub: seq<Token>, left: Table)
    requires FirstInclude(ts) == Some(i) && ExpandOne(ts[i], inc) == (Ok(sub), left)
    ensures NoIncludes(sub) && |left| < |inc|
    ensures Preprocess(ts, inc) == Preprocess(Splice(ts, i, sub), left)
  {
    var name := NameOf(ts[i]).value;
    assert |inc - {name}| < |inc|;
  }

  /** Rescanning from the start after every expansion is the same as
      expanding each INCLUDE in place, left to right: same tokens, same map
      left behind. */
  lemma {:induction false} PreprocessIsExpandEach(ts: seq<Token>, inc: Table)
    ensures Preprocess(ts, inc) == ExpandEach(ts, inc)
    decreases |inc|, CountIncludes(ts)
  {
    match FirstInclude(ts)
    case None =>
      assert ts + [] == ts;
      ExpandEachPlain(ts, [], inc);
    case Some(i) =>
      var pre := ts[..i];
      var post := ts[i + 1..];
      assert ts == pre + ([ts[i]] + post);
      ExpandEachPlain(pre, [ts[i]] + post, inc);
      assert ([ts[i]] + post)[1..] == post;
      var (one, left) := ExpandOne(ts[i], inc);
      if one.Ok? {
        var sub := one.value;
        PreprocessSplices(ts, inc, i, sub, left);
        SpliceCount(ts, i, sub);
        PreprocessIsExpandEach(Splice(ts, i, sub), left);
        NoIncludesConcat(pre, sub);
        assert Splice(ts, i, sub) == (pre + sub) + post;
        ExpandEachPlain(pre + sub, post, left);
        PrependAssoc(pre, sub, ExpandEach(post, left).0);
      } else {
        PreprocessFails(ts, inc, i);
      }
  }

  /** Once expanded, a name is gone from the map for good. */
  lemma ExpandOneRemoves(t: Token, inc: Table)
    requires NameOf(t).Ok?
    ensures NameOf(t).value !in ExpandOne(t, inc).1
  {
  }

  /** An INCLUDE whose name is absent fails, after the map threaded so far. */
  lemma {:induction false} ExpandEachFailsOnAbsent(ts: seq<Token>, inc: Table, k: nat, name: string)
    requires k < |ts| && ts[k].kind == Include && NameOf(ts[k]) == Ok(name)
    requires name !in inc
    ensures ExpandEach(ts, inc).0.Err?
    decreases k
  {
    ExpandEachTail(ts, inc);
    if k == 0 {
      assert ExpandOne(ts[0], inc).0 == Err(NotProvided(name));
    } else {
      var rest := ts[1..];
      assert rest[k - 1] == ts[k];
      var left := After(ts[0], inc);
      assert SubMap(left, inc);
      ExpandEachFailsOnAbsent(rest, left, k - 1, name);
    }
  }

  /** The map the expansion of the head token leaves for the rest. */
  function After(t: Token, inc: Table): Table {
    if t.kind == Include then ExpandOne(t, inc).1 else inc
  }

  /** `ExpandEach` fails when the head token's expansion fails, or when the
      rest fails on the map the head leaves. */
  lemma ExpandEachTail(ts: seq<Token>, inc: Table)
    requires ts != []
    ensures ts[0].kind == Include && ExpandOne(ts[0], inc).0.Err? ==> ExpandEach(ts, inc).0.Err?
    ensures ExpandEach(ts[1..], After(ts[0], inc)).0.Err? ==> ExpandEach(ts, inc).0.Err?
  {
  }

  /** Two INCLUDEs of the same name cannot both be expanded: the expansion
      fails, at the second of them or earlier (`ReuseNotProvided` names the
      error when nothing before the second fails). */
  lemma {:induction false} ExpandEachReuseRejected(ts: seq<Token>, inc: Table, j: nat, k: nat, name: string)
    requires j < k < |ts| && ts[j].kind == Include && ts[k].kind == Include
    requires NameOf(ts[j]) == Ok(name) && NameOf(ts[k]) == Ok(name)
    ensures ExpandEach(ts, inc).0.Err?
    decreases j, 1
  {
    if j == 0 {
      ReuseAtHead(ts, inc, k, name);
    } else {
      ReuseLater(ts, inc, j, k, name);
    }
  }

  lemma {:induction false} ReuseLater(ts: seq<Token>, inc: Table, j: nat, k: nat, name: string)
    requires 0 < j < k < |ts| && ts[j].kind == Include && ts[k].kind == Include
    requires NameOf(ts[j]) == Ok(name) && NameOf(ts[k]) == Ok(name)
    ensures ExpandEach(ts, inc).0.Err?
    decreases j, 0
  {
    var rest, left := ts[1..], After(ts[0], inc);
    TailIndex(ts, j);
    TailIndex(ts, k);
    ExpandEachReuseRejected(rest, left, j - 1, k - 1, name);
    ExpandEachTail(ts, inc);
  }

  lemma TailIndex(ts: seq<Token>, k: nat)
    requires 0 < k < |ts|
    ensures ts[1..][k - 1] == ts[k]
  {
  }

  lemma ReuseAtHead(ts: seq<Token>, inc: Table, k: nat, name: string)
    requires 0 < k < |ts| && ts[0].kind == Include && ts[k].kind == Include
    requires NameOf(ts[0]) == Ok(name) && NameOf(ts[k]) == Ok(name)
    ensures ExpandEach(ts, inc).0.Err?
  {
    var rest := ts[1..];
    assert rest[k - 1] == ts[k];
    var (sub, left) := ExpandOne(ts[0], inc);
    if sub.Ok? {
      ExpandOneRemoves(ts[0], inc);
      ExpandEachFailsOnAbsent(rest, left, k - 1, name);
    }
  }

  /** Reusing an include name raises, whatever else the template holds. */
  lemma ReuseRejected(ts: seq<Token>, inc: Table, j: nat, k: nat, name: string)
    requires j < k < |ts| && ts[j].kind == Include && ts[k].kind == Include
    requires NameOf(ts[j]) == Ok(name) && NameOf(ts[k]) == Ok(name)
    ensures Preprocess(ts, inc).0.Err?
  {
    PreprocessIsExpandEach(ts, inc);
    ExpandEachReuseRejected(ts, inc, j, k, name);
  }

  /** Every successful expansion uses up one entry of the map. */
  lemma {:induction false} ExpandEachUsesEntries(ts: seq<Token>, inc: Table)
    requires ExpandEach(ts, inc).0.Ok?
    ensures |ExpandEach(ts, inc).1| + CountIncludes(ts) <= |inc|
    decreases |ts|
  {
    if ts != [] {
      assert ts == [ts[0]] + ts[1..];
      CountIncludesConcat([ts[0]], ts[1..]);
      if ts[0].kind == Include {
        var (sub, left) := ExpandOne(ts[0], inc);
        var name := NameOf(ts[0]).value;
        assert |inc - {name}| < |inc|;
        assert |left| <= |inc - {name}|;
        ExpandEachUsesEntries(ts[1..], left);
      } else {
        ExpandEachUsesEntries(ts[1..], inc);
      }
    }
  }

  /** The caller's map loses one entry per INCLUDE expanded, so no
      expansion holds more INCLUDEs than the map has entries. */
  lemma PreprocessUsesEntries(ts: seq<Token>, inc: Table)
    requires Preprocess(ts, inc).0.Ok?
    ensures |Preprocess(ts, inc).1| + CountIncludes(ts) <= |inc|
  {
    PreprocessIsExpandEach(ts, inc);
    ExpandEachUsesEntries(ts, inc);
  }

  /** Expanding `a + b` is expanding `a`, then `b` on the map `a` leaves. */
  lemma {:induction false} ExpandEachConcat(a: seq<Token>, b: seq<Token>, inc: Table)
    requires ExpandEach(a, inc).0.Ok?
    ensures ExpandEach(a + b, inc).0
            == Prepend(ExpandEach(a, inc).0.value, ExpandEach(b, ExpandEach(a, inc).1).0)
    ensures ExpandEach(a + b, inc).1 == ExpandEach(b, ExpandEach(a, inc).1).1
    decreases |a|
  {
    if a == [] {
      assert a + b == b;
      PrependNothing(ExpandEach(b, inc).0);
    } else {
      assert (a + b)[0] == a[0];
      assert (a + b)[1..] == a[1..] + b;
      var head := if a[0].kind == Include then ExpandOne(a[0], inc).0.value else [a[0]];
      var left := After(a[0], inc);
      ExpandEachConcat(a[1..], b, left);
      PrependAssoc(head, ExpandEach(a[1..], left).0.value, ExpandEach(b, ExpandEach(a, inc).1).0);
    }
  }

  lemma PrefixSplit(ts: seq<Token>, k: nat)
    requires k < |ts|
    ensures ts == ts[..k] + ts[k..] && ts[k..][0] == ts[k]
  {
  }

  /** When everything before position `k` expands, `ExpandEach` fails with
      exactly the error the INCLUDE at `k` raises on the map left so far. */
  lemma ExpandEachErrAt(ts: seq<Token>, inc: Table, k: nat, e: Error)
    requires k < |ts| && ts[k].kind == Include && ExpandEach(ts[..k], inc).0.Ok?
    requires ExpandOne(ts[k], ExpandEach(ts[..k], inc).1).0 == Err(e)
    ensures ExpandEach(ts, inc).0 == Err(e)
  {
    PrefixSplit(ts, k);
    ExpandEachConcat(ts[..k], ts[k..], inc);
  }

  /** Once an INCLUDE of `name` has been expanded, `name` is gone from the
      map that the whole expansion leaves. */
  lemma {:induction false} ExpandEachRemovesName(ts: seq<Token>, inc: Table, j: nat, name: string)
    requires j < |ts| && ts[j].kind == Include && NameOf(ts[j]) == Ok(name)
    requires ExpandEach(ts, inc).0.Ok?
    ensures name !in ExpandEach(ts, inc).1
    decreases j
  {
    var left := After(ts[0], inc);
    assert ExpandEach(ts[1..], left).0.Ok? && ExpandEach(ts, inc).1 == ExpandEach(ts[1..], left).1;
    if j == 0 {
      ExpandOneRemoves(ts[0], inc);
      ExpandEachSubMap(ts[1..], left);
    } else {
      TailIndex(ts, j);
      ExpandEachRemovesName(ts[1..], left, j - 1, name);
    }
  }

  /** An INCLUDE whose name was never in the map raises `NotProvided` for
      that name, once everything before it has expanded. */
  lemma AbsentNotProvided(ts: seq<Token>, inc: Table, k: nat, name: string)
    requires k < |ts| && ts[k].kind == Include && NameOf(ts[k]) == Ok(name)
    requires name !in inc && Preprocess(ts[..k], inc).0.Ok?
    ensures Preprocess(ts, inc).0 == Err(NotProvided(name))
  {
    PreprocessIsExpandEach(ts, inc);
    PreprocessIsExpandEach(ts[..k], inc);
    ExpandEachSubMap(ts[..k], inc);
    ExpandEachErrAt(ts, inc, k, NotProvided(name));
  }

  /** The second INCLUDE of a name raises `NotProvided` for that name, once
      everything before it, the first INCLUDE included, has expanded. */
  lemma ReuseNotProvided(ts: seq<Token>, inc: Table, j: nat, k: nat, name: string)
    requires j < k < |ts| && ts[j].kind == Include && ts[k].kind == Include
    requires NameOf(ts[j]) == Ok(name) && NameOf(ts[k]) == Ok(name)
    requires Preprocess(ts[..k], inc).0.Ok?
    ensures Preprocess(ts, inc).0 == Err(NotProvided(name))
  {
    PreprocessIsExpandEach(ts, inc);
    PreprocessIsExpandEach(ts[..k], inc);
    assert ts[..k][j] == ts[j];
    ExpandEachRemovesName(ts[..k], inc, j, name);
    ExpandEachErrAt(ts, inc, k, NotProvided(name));
  }

  /** An INCLUDE of `name` met while `name`'s own template is being expanded
      raises `NotProvided`: the name was deleted before that template was
      tokenized. */
  lemma NestedSelfFails(t: Token, m: Table, inc: Table, name: string)
    requires t.kind == Include && NameOf(t) == Ok(name) && SubMap(m, inc)
    requires name in inc && Scan(inc[name]).Ok?
    requires FirstInclude(Scan(inc[name]).value).Some?
    requires NameOf(Scan(inc[name]).value[FirstInclude(Scan(inc[name]).value).value]) == Ok(name)
    ensures ExpandOne(t, m).0 == Err(NotProvided(name))
  {
    if name in m {
      var rest := m - {name};
      var us := Scan(inc[name]).value;
      var p := FirstInclude(us).value;
      assert m[name] == inc[name];
      assert ExpandOne(us[p], rest).0 == Err(NotProvided(name));
      PreprocessFails(us, rest, p);
      assert ExpandOne(t, m) == Tokenize(inc[name], rest);
    }
  }

  /** A template whose first INCLUDE names itself cannot be included: the
      root copy raises `NotProvided` for its name, where the packaged copy
      recurses until the recursion limit. */
  lemma SelfIncludeFails(raw: string, inc: Table, k: nat, name: string)
    requires Scan(raw).Ok? && k < |Scan(raw).value|
    requires Scan(raw).value[k].kind == Include && NameOf(Scan(raw).value[k]) == Ok(name)
    requires Preprocess(Scan(raw).value[..k], inc).0.Ok?
    requires name in inc && Scan(inc[name]).Ok?
    requires FirstInclude(Scan(inc[name]).value).Some?
    requires NameOf(Scan(inc[name]).value[FirstInclude(Scan(inc[name]).value).value]) == Ok(name)
    ensures Tokenize(raw, inc).0 == Err(NotProvided(name))
  {
    var ts := Scan(raw).value;
    PreprocessIsExpandEach(ts, inc);
    PreprocessIsExpandEach(ts[..k], inc);
    ExpandEachSubMap(ts[..k], inc);
    NestedSelfFails(ts[k], ExpandEach(ts[..k], inc).1, inc, name);
    ExpandEachErrAt(ts, inc, k, NotProvided(name));
  }

  /** The includes map the caller passes in and `_preprocess` deletes from. */
  class IncludeTable {
    var entries: Table

    constructor(m: Table)
      ensures entries == m
    {
      entries := m;
    }

    /** The root `_tokenize`: the scan loop, then `_preprocess` on this map. */
    method TokenizeTemplate(raw: string) returns (r: Result<seq<Token>>)
      modifies this
      ensures (r, entries) == Tokenize(raw, old(entries))
      decreases |entries|, 2
    {
      var scanned := ScanTemplate(raw);
      if scanned.Err? {
        return Err(scanned.error);
      }
      r := PreprocessTokens(scanned.value);
    }

    /** Expanding one INCLUDE token: the name is deleted before its template
        is tokenized. */
    method ExpandToken(t: Token) returns (r: Result<seq<Token>>)
      modifies this
      ensures (r, entries) == ExpandOne(t, old(entries))
      decreases |entries|, 0
    {
      var name := NameOf(t);
      if name.Err? {
        return Err(name.error);
      }
      if name.value !in entries {
        return Err(NotProvided(name.value));
      }
      var patt := entries[name.value];
      entries := entries - {name.value};
      r := TokenizeTemplate(patt);
    }

    /** The root `_preprocess` loop. */
    method PreprocessTokens(ts: seq<Token>) returns (r: Result<seq<Token>>)
      modifies this
      ensures (r, entries) == Preprocess(ts, old(entries))
      decreases |entries|, 1
    {
      var tokens := ts;
      while true
        invariant Preprocess(tokens, entries) == Preprocess(ts, old(entries))
        invariant SubMap(entries, old(entries))
        decreases |entries|, CountIncludes(tokens)
      {
        var i := FindInclude(tokens);
        if i == |tokens| {
          break;
        }
        ghost var before := entries;
        var sub := ExpandToken(tokens[i]);
        if sub.Err? {
          PreprocessFails(tokens, before, i);
          return sub;
        }
        PreprocessSplices(tokens, before, i, sub.value, entries);
        SubMapTrans(entries, before, old(entries));
        SpliceCount(tokens, i, sub.value);
        tokens := Splice(tokens, i, sub.value);
      }
      r := Ok(tokens);
    }
  }
}
