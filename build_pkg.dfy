/** The grammar builder of the packaged copy: `Dict.__init__`, `_make_loop`,
    `_make_switch`, `_make_case` and the `Loop`, `Switch` and `Case`
    constructors. Blocks do not nest: a block ends at the first close marker
    of its kind, and the markers of the forbidden inner blocks are errors.
    The functions state what the builder produces; the methods are the
    `pop(0)` loops of the source, each proved equal to its function. */
module PackagedBuild {
  import opened Errors
  import opened Strings
  import opened Markers
  import opened Types
  import opened Ast
  import opened Blocks
  import opened TextNode
  import opened VarNode

  type Ctx = map<string, TypeDef>

  /** What `Dict.__init__` raises for an unexpected token when no VAR or
      TEXT token has been taken yet: `token` is then an unbound local. */
  const Unbound := "local variable 'token' referenced before assignment"

  /** The markers each block refuses, with their messages. */
  function Ban(b: Block, k: Kind): Option<string> {
    match b
    case LoopBlock =>
      if k == OpenLoop then Some("Nested loops are not supported in Sparser v0.1")
      else if k == OpenSwitch then Some("Switches in loops are not supported in Sparser v0.1")
      else None
    case SwitchBlock =>
      if k == OpenSwitch then Some("Nested switches are not supported in Sparser v0.1")
      else if k == OpenLoop then Some("Loops in switches are not supported in Sparser v0.1")
      else None
    case CaseBlock =>
      if k == OpenCase then Some("Sparser v0.1 does not support nesting") else None
  }

  /** A token that ends the collection of a block: its close marker or a
      refused marker. */
  predicate Stops(b: Block, t: Token) {
    t.kind == CloseKind(b) || Ban(b, t.kind).Some?
  }

  /** The `while True` loop of `_make_loop`, `_make_switch` and `_make_case`
      on the tokens after the opening marker: the tokens up to and including
      the close marker, and the tokens left. */
  function Collect(rest: seq<Token>, b: Block): (r: Result<(seq<Token>, seq<Token>)>)
    ensures r.Ok? ==> r.value.0 != [] && r.value.0 + r.value.1 == rest
    decreases |rest|
  {
    if rest == [] then Err(BuiltinError(PopEmpty))
    else
      var t := rest[0];
      if Ban(b, t.kind).Some? then Err(SyntaxError(Ban(b, t.kind).value))
      else if t.kind == CloseKind(b) then Ok(([t], rest[1..]))
      else if |rest| == 1 then Err(SyntaxError(NotClosed(b)))
      else
        var (c, left) :- Collect(rest[1..], b);
        assert [t] + (c + left) == rest;
        Ok(([t] + c, left))
  }

  /** The members of a dict, in order. `last` is the VAR or TEXT token taken
      most recently, which the "cannot be here" message names. */
  function Members(toks: seq<Token>, last: Option<Token>, ctx: Ctx, esc: string -> string): Result<seq<Member>>
    decreases |toks|, 3
  {
    if toks == [] then Ok([])
    else
      var t := toks[0];
      if t.kind == OpenLoop || t.kind == OpenSwitch then
        var (left, m) :- OpenBlock(if t.kind == OpenLoop then LoopBlock else SwitchBlock, toks, ctx, esc);
        var rest :- Members(left, last, ctx, esc);
        Ok([m] + rest)
      else if t.kind == Var then
        var m :- MakeVar(t, ctx);
        var rest :- Members(toks[1..], Some(t), ctx, esc);
        Ok([m] + rest)
      else if t.kind == Text then
        var rest :- Members(toks[1..], Some(t), ctx, esc);
        Ok([MakeText(t, esc)] + rest)
      else
        match last
        case None => Err(BuiltinError(Unbound))
        case Some(p) => Err(SyntaxError(CannotBeHere(p)))
  }

  /** One turn of the `while tokens` loop of `Dict.__init__`. */
  lemma MembersStep(toks: seq<Token>, last: Option<Token>, ctx: Ctx, esc: string -> string)
    requires toks != []
    ensures var t := toks[0];
            var b := if t.kind == OpenLoop then LoopBlock else SwitchBlock;
            (t.kind == OpenLoop || t.kind == OpenSwitch) && OpenBlock(b, toks, ctx, esc).Err? ==>
              Members(toks, last, ctx, esc) == Err(OpenBlock(b, toks, ctx, esc).error)
    ensures var t := toks[0];
            var b := if t.kind == OpenLoop then LoopBlock else SwitchBlock;
            (t.kind == OpenLoop || t.kind == OpenSwitch) && OpenBlock(b, toks, ctx, esc).Ok? ==>
              var (left, m) := OpenBlock(b, toks, ctx, esc).value;
              Members(toks, last, ctx, esc) == Prepend([m], Members(left, last, ctx, esc))
    ensures toks[0].kind == Var && MakeVar(toks[0], ctx).Err? ==> Members(toks, last, ctx, esc) == Err(MakeVar(toks[0], ctx).error)
    ensures toks[0].kind == Var && MakeVar(toks[0], ctx).Ok? ==>
              Members(toks, last, ctx, esc) == Prepend([MakeVar(toks[0], ctx).value], Members(toks[1..], Some(toks[0]), ctx, esc))
    ensures toks[0].kind == Text ==>
              Members(toks, last, ctx, esc) == Prepend([MakeText(toks[0], esc)], Members(toks[1..], Some(toks[0]), ctx, esc))
    ensures toks[0].kind !in {OpenLoop, OpenSwitch, Var, Text} ==>
              Members(toks, last, ctx, esc) == if last.None? then Err(BuiltinError(Unbound)) else Err(SyntaxError(CannotBeHere(last.value)))
  {
    if toks[0].kind == OpenLoop || toks[0].kind == OpenSwitch {
      MembersBlockStep(toks, last, ctx, esc);
    } else if toks[0].kind == Var {
      MembersVarStep(toks, last, ctx, esc);
    }
  }

  lemma MembersBlockStep(toks: seq<Token>, last: Option<Token>, ctx: Ctx, esc: string -> string)
    requires toks != [] && (toks[0].kind == OpenLoop || toks[0].kind == OpenSwitch)
    ensures var b := if toks[0].kind == OpenLoop then LoopBlock else SwitchBlock;
            OpenBlock(b, toks, ctx, esc).Err? ==> Members(toks, last, ctx, esc) == Err(OpenBlock(b, toks, ctx, esc).error)
    ensures var b := if toks[0].kind == OpenLoop then LoopBlock else SwitchBlock;
            OpenBlock(b, toks, ctx, esc).Ok? ==>
              var (left, m) := OpenBlock(b, toks, ctx, esc).value;
              Members(toks, last, ctx, esc) == Prepend([m], Members(left, last, ctx, esc))
  {
  }

  lemma MembersVarStep(toks: seq<Token>, last: Option<Token>, ctx: Ctx, esc: string -> string)
    requires toks != [] && toks[0].kind == Var
    ensures MakeVar(toks[0], ctx).Err? ==> Members(toks, last, ctx, esc) == Err(MakeVar(toks[0], ctx).error)
    ensures MakeVar(toks[0], ctx).Ok? ==>
              Members(toks, last, ctx, esc) == Prepend([MakeVar(toks[0], ctx).value], Members(toks[1..], Some(toks[0]), ctx, esc))
  {
  }

  /** `Dict(tokens, ctx)`. */
  function MakeDict(toks: seq<Token>, ctx: Ctx, esc: string -> string): Result<Dict>
    decreases |toks|, 4
  {
    var ms :- Members(toks, None, ctx, esc);
    Ok(Translate(ms))
  }

  /** `_make_loop` / `_make_switch`: the block's tokens are collected, then
      the node is built; the tokens after the block are returned. */
  function OpenBlock(b: Block, toks: seq<Token>, ctx: Ctx, esc: string -> string): (r: Result<(seq<Token>, Member)>)
    requires toks != [] && b != CaseBlock
    ensures r.Ok? ==> |r.value.0| < |toks|
    decreases |toks|, 2
  {
    var (c, left) :- Collect(toks[1..], b);
    var m :- BlockNode(b, [toks[0]] + c, ctx, esc);
    Ok((left, m))
  }

  /** `Loop(tokens, ctx)` / `Switch(tokens, ctx)` with `translate`: the name
      comes from the opening marker, the body between the markers must be
      cases and blank text, with at least one case. */
  function BlockNode(b: Block, bt: seq<Token>, ctx: Ctx, esc: string -> string): Result<Member>
    requires |bt| >= 2 && b != CaseBlock
    decreases |bt|, 1
  {
    var name :- BlockName(bt[0].content);
    var cases :- Cases(b, bt[1..|bt| - 1], ctx, esc);
    if cases == [] then Err(SyntaxError(AtLeastOneCase(b)))
    else Ok(Member(BlockFragment(Packaged, b, name), Some(Entry(name, BlockCallback(b, name, cases)))))
  }

  /** The `while tokens` loop of the `Loop` and `Switch` constructors. */
  function Cases(b: Block, toks: seq<Token>, ctx: Ctx, esc: string -> string): Result<seq<Case>>
    decreases |toks|, 2
  {
    if toks == [] then Ok([])
    else if toks[0].kind == OpenCase then
      var (left, c) :- OpenCaseBlock(toks, ctx, esc);
      var rest :- Cases(b, left, ctx, esc);
      Ok([c] + rest)
    else if Blank(toks[0]) then Cases(b, toks[1..], ctx, esc)
    else Err(SyntaxError(OnlyCases(b)))
  }

  /** One turn of the `while tokens` loop. */
  lemma CasesStep(b: Block, toks: seq<Token>, ctx: Ctx, esc: string -> string)
    requires toks != []
    ensures toks[0].kind == OpenCase && OpenCaseBlock(toks, ctx, esc).Err? ==>
              Cases(b, toks, ctx, esc) == Err(OpenCaseBlock(toks, ctx, esc).error)
    ensures toks[0].kind == OpenCase && OpenCaseBlock(toks, ctx, esc).Ok? ==>
              var (left, c) := OpenCaseBlock(toks, ctx, esc).value;
              Cases(b, toks, ctx, esc) == Prepend([c], Cases(b, left, ctx, esc))
    ensures toks[0].kind != OpenCase && Blank(toks[0]) ==> Cases(b, toks, ctx, esc) == Cases(b, toks[1..], ctx, esc)
    ensures toks[0].kind != OpenCase && !Blank(toks[0]) ==> Cases(b, toks, ctx, esc) == Err(SyntaxError(OnlyCases(b)))
  {
  }

  /** `_make_case`. */
  function OpenCaseBlock(toks: seq<Token>, ctx: Ctx, esc: string -> string): (r: Result<(seq<Token>, Case)>)
    requires toks != []
    ensures r.Ok? ==> |r.value.0| < |toks|
    decreases |toks|, 1
  {
    var (c, left) :- Collect(toks[1..], CaseBlock);
    var node :- CaseNode([toks[0]] + c, ctx, esc);
    Ok((left, node))
  }

  /** `Case(tokens, ctx)`: the label of the opening marker and the dict of
      the tokens between the markers. */
  function CaseNode(ct: seq<Token>, ctx: Ctx, esc: string -> string): Result<Case>
    requires |ct| >= 2
    decreases |ct|, 0
  {
    var d :- MakeDict(ct[1..|ct| - 1], ctx, esc);
    Ok(Case(CaseLabel(ct[0].content), d))
  }

  // Properties of the block collection.

  /** A block ends at the first token that stops it: its close marker,
      giving the tokens up to it and those after it, or a refused marker,
      giving that marker's SyntaxError. */
  lemma {:induction false} CollectStopsAt(rest: seq<Token>, b: Block, k: nat)
    requires k < |rest| && Stops(b, rest[k])
    requires forall j | 0 <= j < k :: !Stops(b, rest[j])
    ensures Collect(rest, b) ==
            if Ban(b, rest[k].kind).Some? then Err(SyntaxError(Ban(b, rest[k].kind).value))
            else Ok((rest[..k + 1], rest[k + 1..]))
    decreases k
  {
    if k == 0 {
      assert rest[..1] == [rest[0]];
    } else {
      CollectStopsAt(rest[1..], b, k - 1);
      CollectStep(rest, b);
      SliceAfterHead(rest, k);
    }
  }

  /** One turn of the loop that neither stops nor runs out. */
  lemma CollectStep(rest: seq<Token>, b: Block)
    requires |rest| >= 2 && !Stops(b, rest[0])
    ensures Collect(rest, b) == PrependPair([rest[0]], Collect(rest[1..], b))
  {
  }

  /** Tokens that run out before any stopping token give "not closed". */
  lemma {:induction false} CollectNotClosed(rest: seq<Token>, b: Block)
    requires rest != []
    requires forall j | 0 <= j < |rest| :: !Stops(b, rest[j])
    ensures Collect(rest, b) == Err(SyntaxError(NotClosed(b)))
    decreases |rest|
  {
    if |rest| > 1 {
      CollectNotClosed(rest[1..], b);
    }
  }

  /** A collected block is clean: no refused marker, and its close marker
      only at the end. */
  lemma {:induction false} CollectClean(rest: seq<Token>, b: Block)
    requires Collect(rest, b).Ok?
    ensures var c := Collect(rest, b).value.0;
            c[|c| - 1].kind == CloseKind(b)
            && forall j | 0 <= j < |c| - 1 :: !Stops(b, c[j])
    decreases |rest|
  {
    var t := rest[0];
    if !Stops(b, t) {
      CollectClean(rest[1..], b);
      var c := Collect(rest, b).value.0;
      var c' := Collect(rest[1..], b).value.0;
      assert c == [t] + c';
      assert forall j | 1 <= j < |c| :: c[j] == c'[j - 1];
    }
  }

  /** A loop body holding a nested loop is refused, whatever follows it:
      the collection of the outer loop stops at the inner opening marker. */
  lemma NestedLoopRefused(prefix: seq<Token>, inner: Token, suffix: seq<Token>)
    requires inner.kind == OpenLoop
    requires forall j | 0 <= j < |prefix| :: !Stops(LoopBlock, prefix[j])
    ensures Collect(prefix + [inner] + suffix, LoopBlock) ==
            Err(SyntaxError("Nested loops are not supported in Sparser v0.1"))
  {
    var rest := prefix + [inner] + suffix;
    assert rest[|prefix|] == inner;
    assert forall j | 0 <= j < |prefix| :: rest[j] == prefix[j];
    CollectStopsAt(rest, LoopBlock, |prefix|);
  }

  // Properties of the body rules.

  /** A body without case markers is accepted only when all of it is blank
      text, and then holds no case. */
  lemma {:induction false} CasesWithoutCase(b: Block, toks: seq<Token>, ctx: Ctx, esc: string -> string)
    requires NoCaseMarker(toks)
    ensures Cases(b, toks, ctx, esc) == if AllBlank(toks) then Ok([]) else Err(SyntaxError(OnlyCases(b)))
    decreases |toks|
  {
    if toks != [] {
      BodyCons(toks);
      if Blank(toks[0]) {
        CasesWithoutCase(b, toks[1..], ctx, esc);
      }
    }
  }

  /** A loop or switch without any case marker is refused: "at least one
      case" when its body is blank, "only cases" otherwise. */
  lemma BlockWithoutCase(b: Block, bt: seq<Token>, ctx: Ctx, esc: string -> string)
    requires |bt| >= 2 && b != CaseBlock && BlockName(bt[0].content).Ok?
    requires NoCaseMarker(bt[1..|bt| - 1])
    ensures BlockNode(b, bt, ctx, esc) ==
            Err(SyntaxError(if AllBlank(bt[1..|bt| - 1]) then AtLeastOneCase(b) else OnlyCases(b)))
  {
    CasesWithoutCase(b, bt[1..|bt| - 1], ctx, esc);
  }

  /** Cases do not nest, so a body has exactly one case per case marker. */
  lemma {:induction false} CasesCount(b: Block, toks: seq<Token>, ctx: Ctx, esc: string -> string)
    requires Cases(b, toks, ctx, esc).Ok?
    ensures |Cases(b, toks, ctx, esc).value| == CountKind(toks, OpenCase)
    decreases |toks|
  {
    if toks != [] {
      CasesStep(b, toks, ctx, esc);
      if toks[0].kind == OpenCase {
        var left := CaseMarkerCount(toks, ctx, esc);
        CasesCount(b, left, ctx, esc);
      } else {
        CasesCount(b, toks[1..], ctx, esc);
      }
    }
  }

  /** A case consumes its own opening marker and no other. */
  lemma CaseMarkerCount(toks: seq<Token>, ctx: Ctx, esc: string -> string) returns (left: seq<Token>)
    requires toks != [] && toks[0].kind == OpenCase && OpenCaseBlock(toks, ctx, esc).Ok?
    ensures left == OpenCaseBlock(toks, ctx, esc).value.0
    ensures CountKind(toks, OpenCase) == 1 + CountKind(left, OpenCase)
  {
    left := OpenCaseBlock(toks, ctx, esc).value.0;
    assert left == Collect(toks[1..], CaseBlock).value.1;
    CollectKeepsCases(toks[1..]);
  }

  /** A collected case holds no case marker, so all of them are left. */
  lemma CollectKeepsCases(rest: seq<Token>)
    requires Collect(rest, CaseBlock).Ok?
    ensures CountKind(rest, OpenCase) == CountKind(Collect(rest, CaseBlock).value.1, OpenCase)
  {
    var (c, left) := Collect(rest, CaseBlock).value;
    CollectClean(rest, CaseBlock);
    CountKindNone(c, OpenCase);
    CountKindConcat(c, left, OpenCase);
  }

  // Properties of the dict builder.

  /** An out-of-place marker first in a dict hits the unbound local; after
      a TEXT or VAR token the message names that earlier token, not the
      offending one. */
  lemma CannotBeHereQuirk(ctx: Ctx, esc: string -> string, pre: Token, bad: Token)
    requires bad.kind == CloseLoop && pre.kind == Text
    ensures Members([bad], None, ctx, esc) == Err(BuiltinError(Unbound))
    ensures Members([pre, bad], None, ctx, esc) == Err(SyntaxError(CannotBeHere(pre)))
  {
    assert [pre, bad][1..] == [bad];
  }

  /** The dict's pattern is its members' fragments followed by `$`, and its
      entries are those of the named members, in order. */
  lemma MakeDictTranslates(toks: seq<Token>, ctx: Ctx, esc: string -> string)
    requires MakeDict(toks, ctx, esc).Ok?
    ensures var ms := Members(toks, None, ctx, esc).value;
            var d := MakeDict(toks, ctx, esc).value;
            d.patt == Pattern(ms) + "$"
            && (forall e :: e in d.entries <==> exists i | 0 <= i < |ms| :: ms[i].entry == Some(e))
  {
    var ms := Members(toks, None, ctx, esc).value;
    forall e ensures e in Entries(ms) <==> exists i | 0 <= i < |ms| :: ms[i].entry == Some(e) {
      EntriesOfMembers(ms, e);
    }
  }

  // The builder loops.

  /** The `while True` loop of `_make_*`: pops a token, appends it, and
      stops at a refused marker, the close marker, or the end of the list. */
  method CollectTokens(tokens: seq<Token>, b: Block) returns (r: Result<(seq<Token>, seq<Token>)>)
    ensures r == Collect(tokens, b)
  {
    var rest := tokens;
    var collected: seq<Token> := [];
    PrependPairAssoc([], [], Collect(tokens, b));
    while true
      invariant Collect(tokens, b) == PrependPair(collected, Collect(rest, b))
      decreases |rest|
    {
      if rest == [] {
        return Err(BuiltinError(PopEmpty));
      }
      var t := rest[0];
      var before := rest;
      rest := rest[1..];
      if Ban(b, t.kind).Some? {
        return Err(SyntaxError(Ban(b, t.kind).value));
      }
      if t.kind == CloseKind(b) {
        collected := collected + [t];
        break;
      }
      if rest == [] {
        return Err(SyntaxError(NotClosed(b)));
      }
      assert Collect(before, b) == PrependPair([t], Collect(rest, b));
      PrependPairAssoc(collected, [t], Collect(rest, b));
      collected := collected + [t];
    }
    r := Ok((collected, rest));
  }

  /** `Dict.__init__` followed by `_set_pattern`: takes the tokens from the
      front one member at a time. */
  method BuildDict(tokens: seq<Token>, ctx: Ctx, esc: string -> string) returns (r: Result<Dict>)
    ensures r == MakeDict(tokens, ctx, esc)
    decreases |tokens|, 4
  {
    var rest := tokens;
    var members: seq<Member> := [];
    var last: Option<Token> := None;
    PrependNothing(Members(tokens, None, ctx, esc));
    while rest != []
      invariant |rest| <= |tokens|
      invariant Members(tokens, None, ctx, esc) == Prepend(members, Members(rest, last, ctx, esc))
      decreases |rest|
    {
      MembersStep(rest, last, ctx, esc);
      var t := rest[0];
      if t.kind == OpenLoop || t.kind == OpenSwitch {
        var b := if t.kind == OpenLoop then LoopBlock else SwitchBlock;
        var step := BuildBlock(b, rest, ctx, esc);
        if step.Err? {
          return Err(step.error);
        }
        var (left, m) := step.value;
        PrependAssoc(members, [m], Members(left, last, ctx, esc));
        members := members + [m];
        rest := left;
      } else if t.kind == Var {
        var m := MakeVar(t, ctx);
        if m.Err? {
          return Err(m.error);
        }
        PrependAssoc(members, [m.value], Members(rest[1..], Some(t), ctx, esc));
        members := members + [m.value];
        last := Some(t);
        rest := rest[1..];
      } else if t.kind == Text {
        PrependAssoc(members, [MakeText(t, esc)], Members(rest[1..], Some(t), ctx, esc));
        members := members + [MakeText(t, esc)];
        last := Some(t);
        rest := rest[1..];
      } else if last.None? {
        return Err(BuiltinError(Unbound));
      } else {
        return Err(SyntaxError(CannotBeHere(last.value)));
      }
    }
    assert members + [] == members;
    var d := SetPattern(members);
    return Ok(d);
  }

  /** `_make_loop` / `_make_switch`. */
  method BuildBlock(b: Block, tokens: seq<Token>, ctx: Ctx, esc: string -> string) returns (r: Result<(seq<Token>, Member)>)
    requires tokens != [] && b != CaseBlock
    ensures r == OpenBlock(b, tokens, ctx, esc)
    decreases |tokens|, 2
  {
    var collected := CollectTokens(tokens[1..], b);
    if collected.Err? {
      return Err(collected.error);
    }
    var (c, left) := collected.value;
    var node := BuildBlockNode(b, [tokens[0]] + c, ctx, esc);
    if node.Err? {
      return Err(node.error);
    }
    return Ok((left, node.value));
  }

  /** The `Loop` and `Switch` constructors: the name, then the body taken
      from the front, case by case. */
  method BuildBlockNode(b: Block, bt: seq<Token>, ctx: Ctx, esc: string -> string) returns (r: Result<Member>)
    requires |bt| >= 2 && b != CaseBlock
    ensures r == BlockNode(b, bt, ctx, esc)
    decreases |bt|, 1
  {
    var name := BlockName(bt[0].content);
    if name.Err? {
      return Err(name.error);
    }
    var body := bt[1..|bt| - 1];
    var rest := body;
    var cases: seq<Case> := [];
    PrependNothing(Cases(b, body, ctx, esc));
    while rest != []
      invariant |rest| <= |body|
      invariant Cases(b, body, ctx, esc) == Prepend(cases, Cases(b, rest, ctx, esc))
      decreases |rest|
    {
      CasesStep(b, rest, ctx, esc);
      if rest[0].kind == OpenCase {
        var step := BuildCase(rest, ctx, esc);
        if step.Err? {
          return Err(step.error);
        }
        var (left, c) := step.value;
        PrependAssoc(cases, [c], Cases(b, left, ctx, esc));
        cases := cases + [c];
        rest := left;
      } else if rest[0].kind == Text {
        if Strip(rest[0].content) != "" {
          return Err(SyntaxError(OnlyCases(b)));
        }
        rest := rest[1..];
      } else {
        return Err(SyntaxError(OnlyCases(b)));
      }
    }
    assert cases + [] == cases;
    if cases == [] {
      return Err(SyntaxError(AtLeastOneCase(b)));
    }
    return Ok(Member(BlockFragment(Packaged, b, name.value), Some(Entry(name.value, BlockCallback(b, name.value, cases)))));
  }

  /** `_make_case` followed by the `Case` constructor. */
  method BuildCase(tokens: seq<Token>, ctx: Ctx, esc: string -> string) returns (r: Result<(seq<Token>, Case)>)
    requires tokens != []
    ensures r == OpenCaseBlock(tokens, ctx, esc)
    decreases |tokens|, 1
  {
    var collected := CollectTokens(tokens[1..], CaseBlock);
    if collected.Err? {
      return Err(collected.error);
    }
    var (c, left) := collected.value;
    var ct := [tokens[0]] + c;
    var tag := CaseLabel(ct[0].content);
    var d := BuildDict(ct[1..|ct| - 1], ctx, esc);
    if d.Err? {
      return Err(d.error);
    }
    return Ok((left, Case(tag, d.value)));
  }
}
