/** The type registry: the built-in types, the check `_assert_no_group_syntax`
    applies to custom patterns, and the compilation context that merges
    custom types over the built-ins. */
module Types {
  import opened Errors
  import opened Values

  /** The two copies of the engine: the packaged `sparser/sparser.py` and the
      older top-level `sparser.py`. */
  datatype Variant = Packaged | Root

  /** A registered type: its regular expression and its callback. */
  datatype TypeDef = TypeDef(patt: string, dec: Decoder)

  /** A custom type as the caller supplies it: a pattern and, optionally, a
      callback (`hasCallback == false` stands for `None`). */
  datatype Custom = Custom(patt: string, hasCallback: bool)

  /** The regular expression of `spstr`, the one built-in that differs. */
  function SpstrPattern(v: Variant): string {
    match v
    case Packaged => ".+"
    case Root => ".*"
  }

  /** `BUILT_IN_TYPE_MAP`. */
  function BuiltIns(v: Variant): map<string, TypeDef> {
    map[
      "int" := TypeDef("-? ?[0-9,]+", Intify),
      "float" := TypeDef("-? ?[0-9,.]+", Floatify),
      "currency" := TypeDef("-? ?[$-]*[0-9,.]+", Floatify),
      "str" := TypeDef("\\S+", Stripped),
      "spstr" := TypeDef(SpstrPattern(v), Stripped),
      "alpha" := TypeDef("[a-zA-Z]+", Stripped),
      "spalpha" := TypeDef("[a-zA-Z ]+", Stripped),
      "alphanum" := TypeDef("[a-zA-Z0-9_]+", Stripped),
      "spalphanum" := TypeDef("[a-zA-Z0-9_ ]+", Stripped)
    ]
  }

  /** The two copies register the same names and differ only in the
      pattern of `spstr`. */
  lemma BuiltInsAgree()
    ensures BuiltIns(Packaged).Keys == BuiltIns(Root).Keys
    ensures forall n | n in BuiltIns(Packaged) && n != "spstr" :: BuiltIns(Packaged)[n] == BuiltIns(Root)[n]
    ensures BuiltIns(Packaged)["spstr"].patt == ".+" && BuiltIns(Root)["spstr"].patt == ".*"
  {
  }

  /** `[^\n]` throughout `p[a..b]`. */
  predicate NoNewline(p: string, a: nat, b: nat)
    requires a <= b <= |p|
  {
    forall m | a <= m < b :: p[m] != '\n'
  }

  /** `MATCHING_GROUP_RE` = `\(([^\?][^:].*?)\)` matches at index `i`: an
      opening parenthesis not followed by `?`, a second character that is not
      `:`, then a closing parenthesis on the same line. */
  predicate GroupAt(p: string, i: nat) {
    i + 3 < |p| && p[i] == '(' && p[i + 1] != '?' && p[i + 2] != ':'
    && exists j | i + 3 <= j < |p| :: p[j] == ')' && NoNewline(p, i + 3, j)
  }

  /** `.*?\)` from index `k`: a closing parenthesis before any newline. */
  function CloseFrom(p: string, k: nat): (r: bool)
    ensures r <==> exists j | k <= j < |p| :: p[j] == ')' && NoNewline(p, k, j)
    decreases |p| - k
  {
    if k >= |p| then false
    else if p[k] == ')' then
      assert NoNewline(p, k, k);
      true
    else if p[k] == '\n' then false
    else
      var r := CloseFrom(p, k + 1);
      assert r ==> exists j | k <= j < |p| :: p[j] == ')' && NoNewline(p, k, j) by {
        if r {
          var j :| k + 1 <= j < |p| && p[j] == ')' && NoNewline(p, k + 1, j);
          assert NoNewline(p, k, j);
        }
      }
      assert (exists j | k <= j < |p| :: p[j] == ')' && NoNewline(p, k, j)) ==> r by {
        if exists j | k <= j < |p| :: p[j] == ')' && NoNewline(p, k, j) {
          var j :| k <= j < |p| && p[j] == ')' && NoNewline(p, k, j);
          assert j != k;
          assert NoNewline(p, k + 1, j);
        }
      }
      r
  }

  /** `MATCHING_GROUP_RE.search(p)` from index `i` on: the first index where
      the pattern matches. */
  function FindGroup(p: string, i: nat): (r: Option<nat>)
    ensures r.Some? ==> i <= r.value && GroupAt(p, r.value)
    ensures r.Some? ==> forall q | i <= q < r.value :: !GroupAt(p, q)
    ensures r.None? ==> forall q | i <= q :: !GroupAt(p, q)
    decreases |p| - i
  {
    if i + 3 >= |p| then None
    else if p[i] == '(' && p[i + 1] != '?' && p[i + 2] != ':' && CloseFrom(p, i + 3) then Some(i)
    else FindGroup(p, i + 1)
  }

  const GroupMessage := "Matching groups are not allowed in custom types. Use (?: ) style non-matching groups"

  /** `_assert_no_group_syntax`: a SyntaxError exactly when the pattern has
      a match of `MATCHING_GROUP_RE` somewhere. */
  function CheckNoGroups(p: string): (r: Result<()>)
    ensures r.Err? <==> exists i | 0 <= i < |p| :: GroupAt(p, i)
    ensures r.Err? ==> r.error == SyntaxError(GroupMessage)
  {
    if FindGroup(p, 0).Some? then Err(SyntaxError(GroupMessage)) else Ok(())
  }

  /** A pattern whose every parenthesis starts a `(?` construct passes. */
  lemma NonCapturingPasses(p: string)
    requires forall i | 0 <= i < |p| && p[i] == '(' :: i + 1 < |p| && p[i + 1] == '?'
    ensures CheckNoGroups(p).Ok?
  {
  }

  /** A capturing group of at least two characters on one line is rejected,
      wherever it sits. */
  lemma CapturingRejected(a: string, x: char, y: char, body: string, b: string)
    requires x != '?' && y != ':' && '\n' !in body
    ensures CheckNoGroups(a + "(" + [x, y] + body + ")" + b).Err?
  {
    var p := a + "(" + [x, y] + body + ")" + b;
    var i := |a|;
    var j := i + 3 + |body|;
    assert p[i] == '(' && p[i + 1] == x && p[i + 2] == y && p[j] == ')';
    assert forall m | i + 3 <= m < j :: p[m] == body[m - i - 3];
    assert NoNewline(p, i + 3, j);
    assert GroupAt(p, i);
  }

  /** The check is blind to one-character groups and to groups that start
      with `?`, such as named groups. */
  lemma GroupCheckQuirks()
    ensures CheckNoGroups("(a)").Ok?
    ensures CheckNoGroups("(?P<x>ab)").Ok?
    ensures CheckNoGroups("(cat|dog|horse)").Err?
    ensures CheckNoGroups("(?:cat|dog|horse)").Ok?
  {
    AlternationRejected();
    NamedGroupPasses();
    NonCapturingExample();
  }

  lemma AlternationRejected()
    ensures CheckNoGroups("(cat|dog|horse)").Err?
  {
    CapturingRejected("", 'c', 'a', "t|dog|horse", "");
    AlternationLiteral();
  }

  lemma AlternationLiteral()
    ensures "" + "(" + ['c', 'a'] + "t|dog|horse" + ")" + "" == "(cat|dog|horse)"
  {
  }

  lemma NamedGroupPasses()
    ensures CheckNoGroups("(?P<x>ab)").Ok?
  {
    var q := "(?P<x>ab)";
    assert forall i | 0 <= i < |q| && q[i] == '(' :: i == 0;
    NonCapturingPasses(q);
  }

  lemma NonCapturingExample()
    ensures CheckNoGroups("(?:cat|dog|horse)").Ok?
  {
    var r := "(?:cat|dog|horse)";
    assert forall i | 0 <= i < |r| && r[i] == '(' :: i == 0;
    NonCapturingPasses(r);
  }

  /** The decoder a custom type named `n` contributes: its own callback, or
      the identity when it has none. */
  function CustomDef(n: string, c: Custom): TypeDef {
    TypeDef(c.patt, if c.hasCallback then User(n) else Identity)
  }

  function CustomDefs(custom: map<string, Custom>): map<string, TypeDef> {
    map n | n in custom :: CustomDef(n, custom[n])
  }

  predicate SomeGroup(custom: map<string, Custom>) {
    exists n | n in custom :: CheckNoGroups(custom[n].patt).Err?
  }

  /** `SparserCompilationContext`: without custom types the built-ins;
      otherwise every custom pattern is checked, then the custom types are
      laid over a copy of the built-ins. */
  function Context(v: Variant, custom: Option<map<string, Custom>>): (r: Result<map<string, TypeDef>>)
    ensures r.Err? <==> custom.Some? && SomeGroup(custom.value)
    ensures r.Err? ==> r.error == SyntaxError(GroupMessage)
  {
    match custom
    case None => Ok(BuiltIns(v))
    case Some(c) =>
      if SomeGroup(c) then Err(SyntaxError(GroupMessage))
      else Ok(BuiltIns(v) + CustomDefs(c))
  }

  /** The merged registry holds every built-in and every custom name; a
      custom type replaces a built-in of the same name, and the built-ins it
      does not name are unchanged. */
  lemma ContextContents(v: Variant, custom: map<string, Custom>)
    requires !SomeGroup(custom)
    ensures var ctx := Context(v, Some(custom)).value;
            ctx.Keys == BuiltIns(v).Keys + custom.Keys
            && (forall n | n in custom :: ctx[n] == CustomDef(n, custom[n]))
            && (forall n | n in BuiltIns(v) && n !in custom :: ctx[n] == BuiltIns(v)[n])
  {
  }

  /** Redefining `int` with a callback replaces the built-in caster. */
  lemma OverrideInt(v: Variant)
    ensures Context(v, Some(map["int" := Custom("[0-9]+", true)])) ==
            Ok(BuiltIns(v)["int" := TypeDef("[0-9]+", User("int"))])
  {
    var c := map["int" := Custom("[0-9]+", true)];
    assert !SomeGroup(c) by {
      NonCapturingPasses("[0-9]+");
    }
    ContextContents(v, c);
    assert BuiltIns(v) + CustomDefs(c) == BuiltIns(v)["int" := TypeDef("[0-9]+", User("int"))];
  }
}
