/** The merge of adjacent TEXT tokens done by `_root_tokenize` after include
    expansion, which leaves TEXT tokens side by side. */
module Merge {
  import opened Markers

  /** One step of the merge loop: extend the last TEXT, or append. */
  function Push(acc: seq<Token>, t: Token): seq<Token> {
    if acc != [] && t.kind == Text && acc[|acc| - 1].kind == Text then
      acc[..|acc| - 1] + [Token(Text, acc[|acc| - 1].content + t.content)]
    else
      acc + [t]
  }

  /** The merged list: the tokens pushed one by one from the left. */
  function Merged(ts: seq<Token>): seq<Token>
    decreases |ts|
  {
    if ts == [] then [] else Push(Merged(ts[..|ts| - 1]), ts[|ts| - 1])
  }

  predicate NoAdjacentTexts(ts: seq<Token>) {
    forall i | 0 <= i < |ts| - 1 :: !(ts[i].kind == Text && ts[i + 1].kind == Text)
  }

  /** The non-TEXT tokens of a list, in order. */
  function NonText(ts: seq<Token>): seq<Token> {
    if ts == [] then [] else (if ts[0].kind == Text then [] else [ts[0]]) + NonText(ts[1..])
  }

  lemma {:induction false} NonTextConcat(a: seq<Token>, b: seq<Token>)
    ensures NonText(a + b) == NonText(a) + NonText(b)
    decreases |a|
  {
    if a == [] {
      assert a + b == b;
    } else {
      assert (a + b)[1..] == a[1..] + b;
      NonTextConcat(a[1..], b);
    }
  }

  lemma NonTextLast(ts: seq<Token>)
    requires ts != []
    ensures NonText(ts) == NonText(ts[..|ts| - 1]) + NonText([ts[|ts| - 1]])
  {
    LastSplit(ts);
    NonTextConcat(ts[..|ts| - 1], [ts[|ts| - 1]]);
  }

  lemma LastSplit(ts: seq<Token>)
    requires ts != []
    ensures ts[..|ts| - 1] + [ts[|ts| - 1]] == ts
  {
  }

  lemma ContentsLast(ts: seq<Token>)
    requires ts != []
    ensures Contents(ts) == Contents(ts[..|ts| - 1]) + ts[|ts| - 1].content
  {
    LastSplit(ts);
    ContentsConcat(ts[..|ts| - 1], [ts[|ts| - 1]]);
    assert Contents([ts[|ts| - 1]]) == ts[|ts| - 1].content;
  }

  /** Pushing onto a list without adjacent TEXT keeps it so, and keeps the
      non-TEXT tokens and the text. */
  lemma PushProperties(m: seq<Token>, t: Token)
    requires NoAdjacentTexts(m)
    ensures NoAdjacentTexts(Push(m, t))
    ensures NonText(Push(m, t)) == NonText(m) + NonText([t])
    ensures Contents(Push(m, t)) == Contents(m) + t.content
  {
    if m != [] && t.kind == Text && m[|m| - 1].kind == Text {
      ExtendLast(m, t);
      ExtendKeeps(m, t);
    } else {
      AppendToken(m, t);
      AppendKeeps(m, t);
    }
  }

  /** The merging branch of `Push`. */
  lemma ExtendLast(m: seq<Token>, t: Token)
    requires NoAdjacentTexts(m) && m != [] && t.kind == Text && m[|m| - 1].kind == Text
    ensures NoAdjacentTexts(m[..|m| - 1] + [Token(Text, m[|m| - 1].content + t.content)])
  {
    var n := |m|;
    var r := m[..n - 1] + [Token(Text, m[n - 1].content + t.content)];
    forall i | 0 <= i < |r| - 1
      ensures !(r[i].kind == Text && r[i + 1].kind == Text)
    {
      assert r[i] == m[i];
      if i + 1 < n - 1 {
        assert r[i + 1] == m[i + 1];
      }
    }
  }

  lemma ExtendKeeps(m: seq<Token>, t: Token)
    requires m != [] && t.kind == Text && m[|m| - 1].kind == Text
    ensures var r := m[..|m| - 1] + [Token(Text, m[|m| - 1].content + t.content)];
            NonText(r) == NonText(m) + NonText([t]) && Contents(r) == Contents(m) + t.content
  {
    var n := |m|;
    var merged := Token(Text, m[n - 1].content + t.content);
    NonTextConcat(m[..n - 1], [merged]);
    NonTextLast(m);
    assert NonText([merged]) == [] == NonText([t]) == NonText([m[n - 1]]);
    ContentsConcat(m[..n - 1], [merged]);
    ContentsLast(m);
    assert Contents([merged]) == merged.content + Contents([]);
  }

  /** The appending branch of `Push`. */
  lemma AppendToken(m: seq<Token>, t: Token)
    requires NoAdjacentTexts(m) && !(m != [] && t.kind == Text && m[|m| - 1].kind == Text)
    ensures NoAdjacentTexts(m + [t])
  {
    var r := m + [t];
    forall i | 0 <= i < |r| - 1
      ensures !(r[i].kind == Text && r[i + 1].kind == Text)
    {
      assert r[i] == m[i];
      if i + 1 < |m| {
        assert r[i + 1] == m[i + 1];
      }
    }
  }

  lemma AppendKeeps(m: seq<Token>, t: Token)
    ensures NonText(m + [t]) == NonText(m) + NonText([t])
    ensures Contents(m + [t]) == Contents(m) + t.content
  {
    NonTextConcat(m, [t]);
    ContentsConcat(m, [t]);
    assert Contents([t]) == t.content + Contents([]);
  }

  lemma PushWellFormed(m: seq<Token>, t: Token)
    requires forall i | 0 <= i < |m| :: WellFormed(m[i])
    requires WellFormed(t)
    ensures forall i | 0 <= i < |Push(m, t)| :: WellFormed(Push(m, t)[i])
  {
    var r := Push(m, t);
    forall i | 0 <= i < |r| ensures WellFormed(r[i]) {
      if i < |m| - 1 || (i < |m| && r == m + [t]) {
        assert r[i] == m[i];
      }
    }
  }

  /** The merged list has no two TEXT tokens side by side, keeps every other
      token in order, keeps the template text, and holds only well-formed
      tokens when the input does. */
  lemma {:induction false} MergedProperties(ts: seq<Token>)
    ensures NoAdjacentTexts(Merged(ts))
    ensures NonText(Merged(ts)) == NonText(ts)
    ensures Contents(Merged(ts)) == Contents(ts)
    ensures (forall i | 0 <= i < |ts| :: WellFormed(ts[i])) ==>
              forall i | 0 <= i < |Merged(ts)| :: WellFormed(Merged(ts)[i])
    decreases |ts|
  {
    if ts != [] {
      var init := ts[..|ts| - 1];
      var t := ts[|ts| - 1];
      MergedProperties(init);
      PushProperties(Merged(init), t);
      NonTextLast(ts);
      ContentsLast(ts);
      if forall i | 0 <= i < |ts| :: WellFormed(ts[i]) {
        assert forall i | 0 <= i < |init| :: init[i] == ts[i];
        PushWellFormed(Merged(init), t);
      }
    }
  }

  /** A list without adjacent TEXT tokens is left as it is. */
  lemma {:induction false} MergedNoOp(ts: seq<Token>)
    requires NoAdjacentTexts(ts)
    ensures Merged(ts) == ts
    decreases |ts|
  {
    if ts != [] {
      var init := ts[..|ts| - 1];
      assert NoAdjacentTexts(init) by {
        forall i | 0 <= i < |init| - 1 ensures !(init[i].kind == Text && init[i + 1].kind == Text) {
          assert init[i] == ts[i] && init[i + 1] == ts[i + 1];
        }
      }
      MergedNoOp(init);
      assert ts == init + [ts[|ts| - 1]];
    }
  }

  /** Merging twice is merging once. */
  lemma MergedIdempotent(ts: seq<Token>)
    ensures Merged(Merged(ts)) == Merged(ts)
  {
    MergedProperties(ts);
    MergedNoOp(Merged(ts));
  }

  /** The merge loop of `_root_tokenize`. */
  method MergeTexts(ts: seq<Token>) returns (ret: seq<Token>)
    ensures ret == Merged(ts)
  {
    ret := [];
    for i := 0 to |ts|
      invariant ret == Merged(ts[..i])
    {
      assert ts[..i + 1][..i] == ts[..i];
      if ret != [] && ts[i].kind == Text && ret[|ret| - 1].kind == Text {
        ret := ret[..|ret| - 1] + [Token(Text, ret[|ret| - 1].content + ts[i].content)];
      } else {
        ret := ret + [ts[i]];
      }
    }
    assert ts[..|ts|] == ts;
  }
}
