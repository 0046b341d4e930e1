/** The grammar builder of the root copy: `Dict.__init__` and the `Loop`,
    `Switch` and `Case` constructors. Unlike the packaged copy, blocks of
    the same kind may nest: a block is collected with a depth counter and
    ends at the close marker that brings the depth back to zero; markers of
    other kinds are collected without counting. */
module RootBuild {
  import opened Errors
  import opened Strings
  import opened Markers
  import opened Types
  import opened Ast
  import opened Blocks
  import opened TextNode
  import opened VarNode

  type Ctx = map<string, TypeDef>

  /** How a token moves the depth of a block of kind `b`. */
  function Step(t: Token, b: Block): int {
    if t.kind == OpenKind(b) then 1 else if t.kind == CloseKind(b) then -1 else 0
  }

  /** The `while True` loop with the `nested` counter, on the tokens after
      the opening marker: the tokens up to and including the close marker
      that ends the block, and the tokens left. */
  function CollectNested(rest: seq<Token>, b: Block, depth: nat): (r: Result<(seq<Token>, seq<Token>)>)
    requires depth >= 1
    ensures r.Ok? ==> r.value.0 != [] && r.value.0 + r.value.1 == rest
    decreases |rest|
  {
    if rest == [] then Err(BuiltinError(PopEmpty))
    else
      var t := rest[0];
      if t.kind == CloseKind(b) && depth == 1 then Ok(([t], rest[1..]))
      else if |rest| == 1 then Err(SyntaxError(NotClosed(b)))
      else
        var (c, left) :- CollectNested(rest[1..], b, depth + Step(t, b));
        assert [t] + (c + left) == rest;
        Ok(([t] + c, left))
  }

  /** One turn of the loop that neither ends the block nor runs out. */
  lemma CollectNestedStep(rest: seq<Token>, b: Block, depth: nat, next: nat)
    requires depth >= 1 && next >= 1 && |rest| >= 2
    requires !(rest[0].kind == CloseKind(b) && depth == 1)
    requires next == depth + Step(rest[0], b)
    ensures CollectNested(rest, b, depth) == PrependPair([rest[0]], CollectNested(rest[1..], b, next))
  {
  }

  /** The members of a dict, in order. */
  function Members(toks: seq<Token>, ctx: Ctx, esc: string -> string): Result<seq<Member>>
    decreases |toks|, 3
  {
    if toks == [] then Ok([])
    else
      var t := toks[0];
      if t.kind == OpenLoop || t.kind == OpenSwitch then
        var (left, m) :- OpenBlock(if t.kind == OpenLoop then LoopBlock else SwitchBlock, toks, ctx, esc);
        var rest :- Members(left, ctx, esc);
        Ok([m] + rest)
      else if t.kind == Var then
        var m :- MakeVar(t, ctx);
        var rest :- Members(toks[1..], ctx, esc);
        Ok([m] + rest)
      else if t.kind == Text then
        var rest :- Members(toks[1..], ctx, esc);
        Ok([MakeText(t, esc)] + rest)
      else Err(SyntaxError(CannotBeHere(t)))
  }

  /** One turn of the `while tokens` loop of `Dict.__init__`. */
  lemma MembersStep(toks: seq<Token>, ctx: Ctx, esc: string -> string)
    requires toks != []
    ensures var t := toks[0];
            var b := if t.kind == OpenLoop then LoopBlock else SwitchBlock;
            (t.kind == OpenLoop || t.kind == OpenSwitch) && OpenBlock(b, toks, ctx, esc).Err? ==>
              Members(toks, ctx, esc) == Err(OpenBlock(b, toks, ctx, esc).error)
    ensures var t := toks[0];
            var b := if t.kind == OpenLoop then LoopBlock else SwitchBlock;
            (t.kind == OpenLoop || t.kind == OpenSwitch) && OpenBlock(b, toks, ctx, esc).Ok? ==>
              var (left, m) := OpenBlock(b, toks, ctx, esc).value;
              Members(toks, ctx, esc) == Prepend([m], Members(left, ctx, esc))
    ensures toks[0].kind == Var && MakeVar(toks[0], ctx).Err? ==> Members(toks, ctx, esc) == Err(MakeVar(toks[0], ctx).error)
    ensures toks[0].kind == Var && MakeVar(toks[0], ctx).Ok? ==>
              Members(toks, ctx, esc) == Prepend([MakeVar(toks[0], ctx).value], Members(toks[1..], ctx, esc))
    ensures toks[0].kind == Text ==> Members(toks, ctx, esc) == Prepend([MakeText(toks[0], esc)], Members(toks[1..], ctx, esc))
    ensures toks[0].kind !in {OpenLoop, OpenSwitch, Var, Text} ==> Members(toks, ctx, esc) == Err(SyntaxError(CannotBeHere(toks[0])))
  {
    if toks[0].kind == OpenLoop || toks[0].kind == OpenSwitch {
      MembersBlockStep(toks, ctx, esc);
    } else if toks[0].kind == Var {
      MembersVarStep(toks, ctx, esc);
    }
  }

  lemma MembersBlockStep(toks: seq<Token>, ctx: Ctx, esc: string -> string)
    requires toks != [] && (toks[0].kind == OpenLoop || toks[0].kind == OpenSwitch)
    ensures var b := if toks[0].kind == OpenLoop then LoopBlock else SwitchBlock;
            OpenBlock(b, toks, ctx, esc).Err? ==> Members(toks, ctx, esc) == Err(OpenBlock(b, toks, ctx, esc).error)
    ensures var b := if toks[0].kind == OpenLoop then LoopBlock else SwitchBlock;
            OpenBlock(b, toks, ctx, esc).Ok? ==>
              var (left, m) := OpenBlock(b, toks, ctx, esc).value;
              Members(toks, ctx, esc) == Prepend([m], Members(left, ctx, esc))
  {
  }

  lemma MembersVarStep(toks: seq<Token>, ctx: Ctx, esc: string -> string)
    requires toks != [] && toks[0].kind == Var
    ensures MakeVar(toks[0], ctx).Err? ==> Members(toks, ctx, esc) == Err(MakeVar(toks[0], ctx).error)
    ensures MakeVar(toks[0], ctx).Ok? ==>
              Members(toks, ctx, esc) == Prepend([MakeVar(toks[0], ctx).value], Members(toks[1..], ctx, esc))
  {
  }

  /** `Dict(tokens, ctx)`. */
  function MakeDict(toks: seq<Token>, ctx: Ctx, esc: string -> string): Result<Dict>
    decreases |toks|, 4
  {
    var ms :- Members(toks, ctx, esc);
    Ok(Translate(ms))
  }

  /** The inner loop of `Dict.__init__` for a loop or a switch: the block's
      tokens are collected, then the node is built; the tokens after the
      block are returned. */
  function OpenBlock(b: Block, toks: seq<Token>, ctx: Ctx, esc: string -> string): (r: Result<(seq<Token>, Member)>)
    requires toks != [] && b != CaseBlock
    ensures r.Ok? ==> |r.value.0| < |toks|
    decreases |toks|, 2
  {
    var (c, left) :- CollectNested(toks[1..], b, 1);
    var m :- BlockNode(b, [toks[0]] + c, ctx, esc);
    Ok((left, m))
  }

  /** `Loop(tokens, ctx)` / `Switch(tokens, ctx)` with `translate`. */
  function BlockNode(b: Block, bt: seq<Token>, ctx: Ctx, esc: string -> string): Result<Member>
    requires |bt| >= 2 && b != CaseBlock
    decreases |bt|, 1
  {
    var name :- BlockName(bt[0].content);
    var cases :- Cases(b, bt[1..|bt| - 1], ctx, esc);
    if cases == [] then Err(SyntaxError(AtLeastOneCase(b)))
    else Ok(Member(BlockFragment(Root, b, name), Some(Entry(name, BlockCallback(b, name, cases)))))
  }

  /** The `while tokens` loop of the `Loop` and `Switch` constructors. */
  function Cases(b: Block, toks: seq<Token>, ctx: Ctx, esc: string -> string): Result<seq<Case>>
    decreases |toks|, 2
  {
    if toks == [] then Ok([])
    else if toks[0].kind == OpenCase then
      var (left, c) :- OpenCaseBlock(toks, ctx, esc);
      var rest :- Cases(b, left, ctx, esc);
      Ok([c] + rest)
    else if Blank(toks[0]) then Cases(b, toks[1..], ctx, esc)
    else Err(SyntaxError(OnlyCases(b)))
  }

  /** One turn of the `while tokens` loop. */
  lemma CasesStep(b: Block, toks: seq<Token>, ctx: Ctx, esc: string -> string)
    requires toks != []
    ensures toks[0].kind == OpenCase && OpenCaseBlock(toks, ctx, esc).Err? ==>
              Cases(b, toks, ctx, esc) == Err(OpenCaseBlock(toks, ctx, esc).error)
    ensures toks[0].kind == OpenCase && OpenCaseBlock(toks, ctx, esc).Ok? ==>
              var (left, c) := OpenCaseBlock(toks, ctx, esc).value;
              Cases(b, toks, ctx, esc) == Prepend([c], Cases(b, left, ctx, esc))
    ensures toks[0].kind != OpenCase && Blank(toks[0]) ==> Cases(b, toks, ctx, esc) == Cases(b, toks[1..], ctx, esc)
    ensures toks[0].kind != OpenCase && !Blank(toks[0]) ==> Cases(b, toks, ctx, esc) == Err(SyntaxError(OnlyCases(b)))
  {
  }

  /** The inner loop of the `Loop` and `Switch` constructors for a case. */
  function OpenCaseBlock(toks: seq<Token>, ctx: Ctx, esc: string -> string): (r: Result<(seq<Token>, Case)>)
    requires toks != []
    ensures r.Ok? ==> |r.value.0| < |toks|
    decreases |toks|, 1
  {
    var (c, left) :- CollectNested(toks[1..], CaseBlock, 1);
    var node :- CaseNode([toks[0]] + c, ctx, esc);
    Ok((left, node))
  }

  /** `Case(tokens, ctx)`. */
  function CaseNode(ct: seq<Token>, ctx: Ctx, esc: string -> string): Result<Case>
    requires |ct| >= 2
    decreases |ct|, 0
  {
    var d :- MakeDict(ct[1..|ct| - 1], ctx, esc);
    Ok(Case(CaseLabel(ct[0].content), d))
  }

  // Properties of the nested collection.

  /** Opening markers of the block's kind less its close markers. */
  function Balance(ts: seq<Token>, b: Block): int {
    if ts == [] then 0 else Step(ts[0], b) + Balance(ts[1..], b)
  }

  lemma BalanceCons(t: Token, ts: seq<Token>, b: Block)
    ensures Balance([t] + ts, b) == Step(t, b) + Balance(ts, b)
  {
    assert ([t] + ts)[1..] == ts;
  }

  /** The depth after the first `j + 1` tokens, starting from `depth`. */
  function DepthAfter(rest: seq<Token>, b: Block, depth: int, j: nat): int
    requires j < |rest|
  {
    depth + Balance(rest[..j + 1], b)
  }

  lemma DepthAfterHead(rest: seq<Token>, b: Block, depth: int)
    requires rest != []
    ensures DepthAfter(rest, b, depth, 0) == depth + Step(rest[0], b)
  {
    assert rest[..1] == [rest[0]] + [];
    BalanceCons(rest[0], [], b);
  }

  lemma DepthAfterTail(rest: seq<Token>, b: Block, depth: int, j: nat)
    requires j + 1 < |rest|
    ensures DepthAfter(rest, b, depth, j + 1) == DepthAfter(rest[1..], b, DepthAfter(rest, b, depth, 0), j)
  {
    assert rest[..j + 2] == [rest[0]] + rest[1..][..j + 1];
    BalanceCons(rest[0], rest[1..][..j + 1], b);
    DepthAfterHead(rest, b, depth);
  }

  /** A block ends at the first token that brings the depth back to zero:
      the tokens up to it are the block, those after it are left. */
  lemma {:induction false} CollectEndsAt(rest: seq<Token>, b: Block, depth: nat, k: nat)
    requires depth >= 1 && k < |rest|
    requires DepthAfter(rest, b, depth, k) == 0
    requires forall j | 0 <= j < k :: DepthAfter(rest, b, depth, j) >= 1
    ensures CollectNested(rest, b, depth) == Ok((rest[..k + 1], rest[k + 1..]))
    decreases k
  {
    DepthAfterHead(rest, b, depth);
    if k == 0 {
      assert rest[..1] == [rest[0]];
    } else {
      assert DepthAfter(rest, b, depth, 0) >= 1;
      var d: nat := depth + Step(rest[0], b);
      forall j | 0 <= j <= k - 1
        ensures DepthAfter(rest[1..], b, d, j) == DepthAfter(rest, b, depth, j + 1)
      {
        DepthAfterTail(rest, b, depth, j);
      }
      CollectEndsAt(rest[1..], b, d, k - 1);
      CollectNestedStep(rest, b, depth, d);
      SliceAfterHead(rest, k);
    }
  }

  /** Tokens that never bring the depth back to zero give "not closed". */
  lemma {:induction false} CollectNestedNotClosed(rest: seq<Token>, b: Block, depth: nat)
    requires depth >= 1 && rest != []
    requires forall j | 0 <= j < |rest| :: DepthAfter(rest, b, depth, j) >= 1
    ensures CollectNested(rest, b, depth) == Err(SyntaxError(NotClosed(b)))
    decreases |rest|
  {
    DepthAfterHead(rest, b, depth);
    assert DepthAfter(rest, b, depth, 0) >= 1;
    if |rest| > 1 {
      var d: nat := depth + Step(rest[0], b);
      forall j | 0 <= j < |rest| - 1
        ensures DepthAfter(rest[1..], b, d, j) >= 1
      {
        DepthAfterTail(rest, b, depth, j);
      }
      CollectNestedNotClosed(rest[1..], b, d);
    }
  }

  /** `c`, a prefix of `rest`, is a balanced block: it ends with the close
      marker, the depth stays positive before it and is zero after it. */
  predicate Balanced(rest: seq<Token>, b: Block, depth: int, c: seq<Token>) {
    0 < |c| <= |rest|
    && c[|c| - 1].kind == CloseKind(b)
    && DepthAfter(rest, b, depth, |c| - 1) == 0
    && forall j | 0 <= j < |c| - 1 :: DepthAfter(rest, b, depth, j) >= 1
  }

  lemma BalancedCons(rest: seq<Token>, b: Block, depth: nat, c: seq<Token>)
    requires depth >= 1 && |rest| >= 2 && !(rest[0].kind == CloseKind(b) && depth == 1)
    requires Balanced(rest[1..], b, depth + Step(rest[0], b), c)
    ensures Balanced(rest, b, depth, [rest[0]] + c)
  {
    var c2 := [rest[0]] + c;
    DepthAfterHead(rest, b, depth);
    assert c2[|c2| - 1] == c[|c| - 1];
    DepthAfterTail(rest, b, depth, |c| - 1);
    forall j | 0 <= j < |c2| - 1 ensures DepthAfter(rest, b, depth, j) >= 1 {
      if j > 0 {
        DepthAfterTail(rest, b, depth, j - 1);
      }
    }
  }

  /** Every collected block is balanced. */
  lemma {:induction false} CollectBalanced(rest: seq<Token>, b: Block, depth: nat)
    requires depth >= 1 && CollectNested(rest, b, depth).Ok?
    ensures Balanced(rest, b, depth, CollectNested(rest, b, depth).value.0)
    decreases |rest|
  {
    var t := rest[0];
    DepthAfterHead(rest, b, depth);
    if !(t.kind == CloseKind(b) && depth == 1) {
      var d: nat := depth + Step(t, b);
      CollectBalanced(rest[1..], b, d);
      var c' := CollectNested(rest[1..], b, d).value.0;
      BalancedCons(rest, b, depth, c');
      assert CollectNested(rest, b, depth).value.0 == [t] + c';
    }
  }

  /** A loop inside a loop is accepted: the outer loop ends at the second
      close marker. */
  lemma NestedLoopAccepted(o: Token, c1: Token, c2: Token, suffix: seq<Token>)
    requires o.kind == OpenLoop && c1.kind == CloseLoop && c2.kind == CloseLoop
    ensures CollectNested([o, c1, c2] + suffix, LoopBlock, 1) == Ok(([o, c1, c2], suffix))
  {
    var rest := [o, c1, c2] + suffix;
    assert rest[1..] == [c1, c2] + suffix && rest[1..][1..] == [c2] + suffix;
    assert rest[1..][1..][1..] == suffix;
    assert CollectNested([c2] + suffix, LoopBlock, 1) == Ok(([c2], suffix));
    assert CollectNested([c1, c2] + suffix, LoopBlock, 2) == Ok(([c1] + [c2], suffix));
    assert [o] + ([c1] + [c2]) == [o, c1, c2];
  }

  // Properties of the body rules and the dict builder.

  /** A body without case markers is accepted only when all of it is blank
      text, and then holds no case. */
  lemma {:induction false} CasesWithoutCase(b: Block, toks: seq<Token>, ctx: Ctx, esc: string -> string)
    requires NoCaseMarker(toks)
    ensures Cases(b, toks, ctx, esc) == if AllBlank(toks) then Ok([]) else Err(SyntaxError(OnlyCases(b)))
    decreases |toks|
  {
    if toks != [] {
      BodyCons(toks);
      if Blank(toks[0]) {
        CasesWithoutCase(b, toks[1..], ctx, esc);
      }
    }
  }

  /** A stray marker in a dict is a SyntaxError naming that marker itself,
      wherever it stands (after any number of text tokens). */
  lemma {:induction false} CannotBeHereNamesToken(pre: seq<Token>, bad: Token, post: seq<Token>, ctx: Ctx, esc: string -> string)
    requires forall j | 0 <= j < |pre| :: pre[j].kind == Text
    requires bad.kind !in {Text, Var, OpenLoop, OpenSwitch}
    ensures Members(pre + [bad] + post, ctx, esc) == Err(SyntaxError(CannotBeHere(bad)))
    decreases |pre|
  {
    if pre != [] {
      assert (pre + [bad] + post)[1..] == pre[1..] + [bad] + post;
      CannotBeHereNamesToken(pre[1..], bad, post, ctx, esc);
    } else {
      assert pre + [bad] + post == [bad] + post;
    }
  }

  /** The dict's pattern is its members' fragments followed by `$`, and its
      entries are those of the named members, in order. */
  lemma MakeDictTranslates(toks: seq<Token>, ctx: Ctx, esc: string -> string)
    requires MakeDict(toks, ctx, esc).Ok?
    ensures var ms := Members(toks, ctx, esc).value;
            var d := MakeDict(toks, ctx, esc).value;
            d.patt == Pattern(ms) + "$"
            && (forall e :: e in d.entries <==> exists i | 0 <= i < |ms| :: ms[i].entry == Some(e))
  {
    var ms := Members(toks, ctx, esc).value;
    forall e ensures e in Entries(ms) <==> exists i | 0 <= i < |ms| :: ms[i].entry == Some(e) {
      EntriesOfMembers(ms, e);
    }
  }

  // The builder loops.

  /** The `while True` loop with the `nested` counter, shared by the dict
      (for loops and switches) and the loop and switch bodies (for cases). */
  method CollectBlock(tokens: seq<Token>, b: Block) returns (r: Result<(seq<Token>, seq<Token>)>)
    ensures r == CollectNested(tokens, b, 1)
  {
    var rest := tokens;
    var collected: seq<Token> := [];
    var nested: nat := 1;
    PrependPairAssoc([], [], CollectNested(tokens, b, 1));
    while true
      invariant nested >= 1
      invariant CollectNested(tokens, b, 1) == PrependPair(collected, CollectNested(rest, b, nested))
      decreases |rest|
    {
      if rest == [] {
        return Err(BuiltinError(PopEmpty));
      }
      var t := rest[0];
      var before := rest;
      var depth := nested;
      rest := rest[1..];
      if t.kind == OpenKind(b) {
        nested := nested + 1;
      } else if t.kind == CloseKind(b) {
        if nested == 1 {
          collected := collected + [t];
          break;
        }
        nested := nested - 1;
      }
      if rest == [] {
        return Err(SyntaxError(NotClosed(b)));
      }
      CollectNestedStep(before, b, depth, nested);
      PrependPairAssoc(collected, [t], CollectNested(rest, b, nested));
      collected := collected + [t];
    }
    r := Ok((collected, rest));
  }

  /** `Dict.__init__` followed by `_translate_members`. */
  method BuildDict(tokens: seq<Token>, ctx: Ctx, esc: string -> string) returns (r: Result<Dict>)
    ensures r == MakeDict(tokens, ctx, esc)
    decreases |tokens|, 4
  {
    var rest := tokens;
    var members: seq<Member> := [];
    PrependNothing(Members(tokens, ctx, esc));
    while rest != []
      invariant |rest| <= |tokens|
      invariant Members(tokens, ctx, esc) == Prepend(members, Members(rest, ctx, esc))
      decreases |rest|
    {
      MembersStep(rest, ctx, esc);
      var t := rest[0];
      if t.kind == OpenLoop || t.kind == OpenSwitch {
        var b := if t.kind == OpenLoop then LoopBlock else SwitchBlock;
        var step := BuildBlock(b, rest, ctx, esc);
        if step.Err? {
          return Err(step.error);
        }
        var (left, m) := step.value;
        PrependAssoc(members, [m], Members(left, ctx, esc));
        members := members + [m];
        rest := left;
      } else if t.kind == Var {
        var m := MakeVar(t, ctx);
        if m.Err? {
          return Err(m.error);
        }
        PrependAssoc(members, [m.value], Members(rest[1..], ctx, esc));
        members := members + [m.value];
        rest := rest[1..];
      } else if t.kind == Text {
        PrependAssoc(members, [MakeText(t, esc)], Members(rest[1..], ctx, esc));
        members := members + [MakeText(t, esc)];
        rest := rest[1..];
      } else {
        return Err(SyntaxError(CannotBeHere(t)));
      }
    }
    assert members + [] == members;
    var d := SetPattern(members);
    return Ok(d);
  }

  /** The `Loop` and `Switch` constructors. */
  method BuildBlockNode(b: Block, bt: seq<Token>, ctx: Ctx, esc: string -> string) returns (r: Result<Member>)
    requires |bt| >= 2 && b != CaseBlock
    ensures r == BlockNode(b, bt, ctx, esc)
    decreases |bt|, 1
  {
    var name := BlockName(bt[0].content);
    if name.Err? {
      return Err(name.error);
    }
    var body := bt[1..|bt| - 1];
    var rest := body;
    var cases: seq<Case> := [];
    PrependNothing(Cases(b, body, ctx, esc));
    while rest != []
      invariant |rest| <= |body|
      invariant Cases(b, body, ctx, esc) == Prepend(cases, Cases(b, rest, ctx, esc))
      decreases |rest|
    {
      CasesStep(b, rest, ctx, esc);
      var t := rest[0];
      if t.kind == OpenCase {
        var step := BuildCase(rest, ctx, esc);
        if step.Err? {
          return Err(step.error);
        }
        var (left, c) := step.value;
        PrependAssoc(cases, [c], Cases(b, left, ctx, esc));
        cases := cases + [c];
        rest := left;
      } else if t.kind == Text {
        if Strip(t.content) != "" {
          return Err(SyntaxError(OnlyCases(b)));
        }
        rest := rest[1..];
      } else {
        return Err(SyntaxError(OnlyCases(b)));
      }
    }
    assert cases + [] == cases;
    if cases == [] {
      return Err(SyntaxError(AtLeastOneCase(b)));
    }
    return Ok(Member(BlockFragment(Root, b, name.value), Some(Entry(name.value, BlockCallback(b, name.value, cases)))));
  }

  /** The inner loop of `Dict.__init__` for a loop or a switch. */
  method BuildBlock(b: Block, tokens: seq<Token>, ctx: Ctx, esc: string -> string) returns (r: Result<(seq<Token>, Member)>)
    requires tokens != [] && b != CaseBlock
    ensures r == OpenBlock(b, tokens, ctx, esc)
    decreases |tokens|, 2
  {
    var collected := CollectBlock(tokens[1..], b);
    if collected.Err? {
      return Err(collected.error);
    }
    var (c, left) := collected.value;
    var node := BuildBlockNode(b, [tokens[0]] + c, ctx, esc);
    if node.Err? {
      return Err(node.error);
    }
    return Ok((left, node.value));
  }

  /** The inner loop of the `Loop` and `Switch` constructors for a case,
      followed by the `Case` constructor. */
  method BuildCase(tokens: seq<Token>, ctx: Ctx, esc: string -> string) returns (r: Result<(seq<Token>, Case)>)
    requires tokens != []
    ensures r == OpenCaseBlock(tokens, ctx, esc)
    decreases |tokens|, 1
  {
    var collected := CollectBlock(tokens[1..], CaseBlock);
    if collected.Err? {
      return Err(collected.error);
    }
    var (c, left) := collected.value;
    var ct := [tokens[0]] + c;
    var tag := CaseLabel(ct[0].content);
    var d := BuildDict(ct[1..|ct| - 1], ctx, esc);
    if d.Err? {
      return Err(d.error);
    }
    return Ok((left, Case(tag, d.value)));
  }
}
