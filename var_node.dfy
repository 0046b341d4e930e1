/** `Var`: a `{{type name}}` marker becomes a pattern fragment, named when
    the marker names a variable, with the type's callback as its entry. */
module VarNode {
  import opened Errors
  import opened Strings
  import opened Markers
  import opened Values
  import opened Types
  import opened Ast

  /** `QUOTE_HUGGED_STRING.match(t)` = `^('.*?'|".*?")$`: a quote, text
      without newlines and the same quote, at the end or just before a final
      newline (where `$` also matches). */
  predicate QuoteHugged(t: string) {
    |t| >= 2 && IsQuote(t[0])
    && ((t[|t| - 1] == t[0] && '\n' !in t[1..|t| - 1])
        || (|t| >= 3 && t[|t| - 1] == '\n' && t[|t| - 2] == t[0] && '\n' !in t[1..|t| - 2]))
  }

  const PiecesMessage := "Unexpected error: Variables should be one or two elements."

  /** The pattern and callback of a type: a registered type first, then a
      quoted regular expression (checked for capturing groups and wrapped in
      a non-capturing group, with the identity callback). */
  function Lookup(ty: string, ctx: map<string, TypeDef>): Result<TypeDef> {
    if ty in ctx then Ok(ctx[ty])
    else if QuoteHugged(ty) then
      var inner := ty[1..|ty| - 1];
      var _ :- CheckNoGroups(inner);
      Ok(TypeDef("(?:" + inner + ")", Identity))
    else Err(SyntaxError(ty + " not a known type"))
  }

  /** `Var.__init__` and `Var.translate`: the marker body split on single
      spaces must give one piece (the type) or two (type and name). */
  function MakeVar(t: Token, ctx: map<string, TypeDef>): Result<Member> {
    var pieces := Split(Inner(t.content), ' ');
    if |pieces| == 2 then
      var def :- Lookup(pieces[0], ctx);
      Ok(Member(NamedGroup(pieces[1], def.patt), Some(Entry(pieces[1], Decode(def.dec)))))
    else if |pieces| == 1 then
      var def :- Lookup(pieces[0], ctx);
      Ok(Member(def.patt, None))
    else Err(UnexpectedError(PiecesMessage))
  }

  /** Every outcome of a variable: the piece count decides between the
      unexpected error and the type lookup; a success is named exactly when
      there are two pieces, and carries the looked-up type. */
  lemma VarOutcomes(t: Token, ctx: map<string, TypeDef>)
    ensures var pieces := Split(Inner(t.content), ' ');
            var r := MakeVar(t, ctx);
            (|pieces| != 1 && |pieces| != 2 ==> r == Err(UnexpectedError(PiecesMessage)))
            && ((|pieces| == 1 || |pieces| == 2) ==>
                  (r.Err? <==> Lookup(pieces[0], ctx).Err?)
                  && (r.Err? ==> r.error.SyntaxError?)
                  && (r.Ok? ==> (r.value.entry.Some? <==> |pieces| == 2)))
            && (r.Ok? && |pieces| == 2 ==>
                  r.value.entry.value.name == pieces[1]
                  && r.value.entry.value.cb == Decode(Lookup(pieces[0], ctx).value.dec))
  {
    var pieces := Split(Inner(t.content), ' ');
    if |pieces| == 1 || |pieces| == 2 {
      LookupErrors(pieces[0], ctx);
    }
  }

  /** A failed lookup is a SyntaxError: an unknown type, or a quoted
      pattern with a capturing group. */
  lemma LookupErrors(ty: string, ctx: map<string, TypeDef>)
    ensures Lookup(ty, ctx).Err? <==> ty !in ctx && (!QuoteHugged(ty) || CheckNoGroups(ty[1..|ty| - 1]).Err?)
    ensures Lookup(ty, ctx).Err? ==> Lookup(ty, ctx).error.SyntaxError?
  {
  }

  lemma TwoPieces(x: string, y: string)
    requires ' ' !in x && ' ' !in y
    ensures Split(x + " " + y, ' ') == [x, y]
  {
    assert Join([x, y], [' ']) == x + " " + y by {
      assert [x, y][1..] == [y];
    }
    SplitJoin([x, y], ' ');
  }

  lemma OnePiece(x: string)
    requires ' ' !in x
    ensures Split(x, ' ') == [x]
  {
    SplitJoin([x], ' ');
  }

  lemma InnerOf(body: string, l: string, r: string)
    requires |l| == 2 && |r| == 2
    ensures Inner(l + body + r) == body
  {
    var m := l + body + r;
    assert m[2..|m| - 2] == body;
  }

  /** `{{type name}}` with a registered type: the type's pattern captured
      under the name, decoded by the type's callback. */
  lemma NamedVar(ty: string, name: string, ctx: map<string, TypeDef>)
    requires ty in ctx && ' ' !in ty && ' ' !in name
    ensures MakeVar(Token(Var, "{{" + ty + " " + name + "}}"), ctx) ==
            Ok(Member(NamedGroup(name, ctx[ty].patt), Some(Entry(name, Decode(ctx[ty].dec)))))
  {
    InnerOf(ty + " " + name, "{{", "}}");
    assert "{{" + ty + " " + name + "}}" == "{{" + (ty + " " + name) + "}}";
    TwoPieces(ty, name);
  }

  /** `{{type}}` without a name matches the type's pattern and records
      nothing. */
  lemma AnonymousVar(ty: string, ctx: map<string, TypeDef>)
    requires ty in ctx && ' ' !in ty
    ensures MakeVar(Token(Var, "{{" + ty + "}}"), ctx) == Ok(Member(ctx[ty].patt, None))
  {
    InnerOf(ty, "{{", "}}");
    OnePiece(ty);
  }

  /** `{{'regex' name}}` for an unregistered quoted type: the regular
      expression inside a non-capturing group, kept as captured text. */
  lemma QuotedVar(body: string, name: string, ctx: map<string, TypeDef>)
    requires "'" + body + "'" !in ctx
    requires ' ' !in body && '\n' !in body && ' ' !in name
    requires CheckNoGroups(body).Ok?
    ensures MakeVar(Token(Var, "{{'" + body + "' " + name + "}}"), ctx) ==
            Ok(Member(NamedGroup(name, "(?:" + body + ")"), Some(Entry(name, Decode(Identity)))))
  {
    var ty := "'" + body + "'";
    assert ty[1..|ty| - 1] == body;
    assert QuoteHugged(ty);
    assert ' ' !in ty by {
      assert forall k | 0 <= k < |ty| :: ty[k] == '\'' || ty[k] == body[k - 1];
    }
    assert "{{'" + body + "' " + name + "}}" == "{{" + (ty + " " + name) + "}}";
    InnerOf(ty + " " + name, "{{", "}}");
    TwoPieces(ty, name);
  }

  /** Spaces inside the braces add empty pieces: `{{ int x }}` is the
      unexpected error even though its marker is well formed. */
  lemma PaddedVar(ctx: map<string, TypeDef>)
    ensures MakeVar(Token(Var, "{{ int x }}"), ctx) == Err(UnexpectedError(PiecesMessage))
  {
    assert "{{ int x }}" == "{{" + " int x " + "}}";
    InnerOf(" int x ", "{{", "}}");
    PaddedPieces();
  }

  lemma PaddedPieces()
    ensures Split(" int x ", ' ') == ["", "int", "x", ""]
  {
    var ps := ["", "int", "x", ""];
    assert ps[1..] == ["int", "x", ""] && ps[2..] == ["x", ""] && ps[3..] == [""];
    assert Join(["x", ""], [' ']) == "x ";
    assert Join(["int", "x", ""], [' ']) == "int x ";
    assert Join(ps, [' ']) == " int x ";
    assert ' ' !in "int" && ' ' !in "x";
    SplitJoin(ps, ' ');
  }

  /** An unregistered, unquoted type is a SyntaxError naming it. */
  lemma UnknownType(ty: string, ctx: map<string, TypeDef>)
    requires ty !in ctx && ' ' !in ty && (ty == [] || !IsQuote(ty[0]))
    ensures MakeVar(Token(Var, "{{" + ty + "}}"), ctx) == Err(SyntaxError(ty + " not a known type"))
  {
    InnerOf(ty, "{{", "}}");
    OnePiece(ty);
  }
}
