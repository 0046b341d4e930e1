/** The compiled form of a template: a `Dict` holds the regular expression
    its members translate to and the named entries whose callbacks turn the
    captured groups into values. Loops and switches hold their cases, and
    each case holds a `Dict` of its own. */
module Ast {
  import opened Errors
  import opened Values

  /** The callback of a dict entry: a type's decoder, or the `cb` of a loop
      or a switch over its cases. */
  datatype Callback =
    | Decode(dec: Decoder)
    | LoopCb(name: string, cases: seq<Case>)
    | SwitchCb(name: string, cases: seq<Case>)

  /** `DictEntry`. */
  datatype Entry = Entry(name: string, cb: Callback)

  /** `Dict` after `_set_pattern`: the translated pattern and the entries. */
  datatype Dict = Dict(patt: string, entries: seq<Entry>)

  /** `Case`: the optional label of its marker and its dict. */
  datatype Case = Case(tag: Option<string>, body: Dict)

  /** What a member's `translate()` gives: its pattern fragment and, when
      it has a name, the entry for it. */
  datatype Member = Member(patt: string, entry: Option<Entry>)

  /** A named group of the pattern: `(?P<name>patt)`. */
  function NamedGroup(name: string, patt: string): string {
    "(?P<" + name + ">" + patt + ")"
  }

  /** The fragments of the members, in order. */
  function Pattern(ms: seq<Member>): string {
    if ms == [] then "" else ms[0].patt + Pattern(ms[1..])
  }

  /** The entries of the named members, in order. */
  function Entries(ms: seq<Member>): seq<Entry> {
    if ms == [] then []
    else (if ms[0].entry.Some? then [ms[0].entry.value] else []) + Entries(ms[1..])
  }

  /** The dict `_set_pattern` produces from the members: their fragments
      followed by `$`, and their entries. */
  function Translate(ms: seq<Member>): Dict {
    Dict(Pattern(ms) + "$", Entries(ms))
  }

  lemma {:induction false} PatternConcat(a: seq<Member>, b: seq<Member>)
    ensures Pattern(a + b) == Pattern(a) + Pattern(b)
  {
    if a == [] {
      assert a + b == b;
    } else {
      assert (a + b)[1..] == a[1..] + b;
      PatternConcat(a[1..], b);
    }
  }

  lemma {:induction false} EntriesConcat(a: seq<Member>, b: seq<Member>)
    ensures Entries(a + b) == Entries(a) + Entries(b)
  {
    if a == [] {
      assert a + b == b;
    } else {
      var head := if a[0].entry.Some? then [a[0].entry.value] else [];
      assert (a + b)[0] == a[0] && (a + b)[1..] == a[1..] + b;
      assert Entries(a + b) == head + Entries(a[1..] + b);
      assert Entries(a) == head + Entries(a[1..]);
      EntriesConcat(a[1..], b);
      assert head + (Entries(a[1..]) + Entries(b)) == (head + Entries(a[1..])) + Entries(b);
    }
  }

  /** An entry is in the dict exactly when some member carries it. */
  lemma {:induction false} EntriesOfMembers(ms: seq<Member>, e: Entry)
    ensures e in Entries(ms) <==> exists i | 0 <= i < |ms| :: ms[i].entry == Some(e)
  {
    if ms != [] {
      EntriesOfMembers(ms[1..], e);
      if e in Entries(ms[1..]) {
        var i :| 0 <= i < |ms[1..]| && ms[1..][i].entry == Some(e);
        assert ms[i + 1].entry == Some(e);
      }
      if exists i | 0 <= i < |ms| :: ms[i].entry == Some(e) {
        var i :| 0 <= i < |ms| && ms[i].entry == Some(e);
        if i > 0 {
          assert ms[1..][i - 1].entry == Some(e);
        }
      }
    }
  }

  /** Members without a name, such as text, add to the pattern and not to
      the entries. */
  lemma UnnamedAddsNoEntry(ms: seq<Member>, m: Member)
    requires m.entry.None?
    ensures Translate(ms + [m]) == Dict(Pattern(ms) + m.patt + "$", Entries(ms))
  {
    PatternConcat(ms, [m]);
    EntriesConcat(ms, [m]);
    assert Pattern([m]) == m.patt + Pattern([]);
    assert Entries([m]) == [] + Entries([]);
  }

  /** `_set_pattern`: appends each member's fragment to the pattern and its
      entry, if it has a name, to the entries, then closes with `$`. */
  method SetPattern(members: seq<Member>) returns (d: Dict)
    ensures d == Translate(members)
  {
    var patt := "";
    var entries: seq<Entry> := [];
    for i := 0 to |members|
      invariant patt == Pattern(members[..i])
      invariant entries == Entries(members[..i])
    {
      var m := members[i];
      PatternConcat(members[..i], [m]);
      EntriesConcat(members[..i], [m]);
      assert members[..i + 1] == members[..i] + [m];
      assert Pattern([m]) == m.patt + Pattern([]);
      assert Entries([m]) == (if m.entry.Some? then [m.entry.value] else []) + Entries([]);
      patt := patt + m.patt;
      if m.entry.Some? {
        entries := entries + [m.entry.value];
      }
    }
    assert members[..|members|] == members;
    d := Dict(patt + "$", entries);
  }

  /** A size on the tree, used as the termination measure of the parse. */
  function DictSize(d: Dict): nat
    decreases d, 0
  {
    1 + EntriesSize(d.entries)
  }

  function EntriesSize(es: seq<Entry>): nat
    decreases es, 1
  {
    if es == [] then 0 else 1 + CallbackSize(es[0].cb) + EntriesSize(es[1..])
  }

  function CallbackSize(cb: Callback): nat
    decreases cb, 2
  {
    match cb
    case Decode(_) => 1
    case LoopCb(_, cases) => 1 + CasesSize(cases)
    case SwitchCb(_, cases) => 1 + CasesSize(cases)
  }

  function CasesSize(cs: seq<Case>): nat
    decreases cs, 1
  {
    if cs == [] then 0 else CaseSize(cs[0]) + CasesSize(cs[1..])
  }

  function CaseSize(c: Case): nat
    decreases c, 1
  {
    1 + DictSize(c.body)
  }

  /** The patterns of the cases, as the loop and switch error messages list
      them. */
  function CasePatterns(cs: seq<Case>): seq<string> {
    if cs == [] then [] else [cs[0].body.patt] + CasePatterns(cs[1..])
  }
}
