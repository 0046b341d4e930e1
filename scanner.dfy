/** The template scan of `_tokenize`: the loop that repeatedly matches
    `^(.*?)({{.*?}}|{\*.*?\*})(.*?)\Z` against the remaining text, emitting
    the text before the marker as a TEXT token and the classified marker. */
module Scanner {
  import opened Errors
  import opened Strings
  import opened Markers

  /** The two-character delimiter `d` occurs at index `k` of `s`. */
  predicate DelimAt(s: string, k: nat, d: string) {
    k + 2 <= |s| && s[k..k + 2] == d
  }

  /** The first index from `j` on where `d` occurs. */
  function FirstDelim(s: string, j: nat, d: string): (r: Option<nat>)
    ensures r.Some? ==> j <= r.value && DelimAt(s, r.value, d)
    ensures r.Some? ==> forall k: nat | j <= k < r.value :: !DelimAt(s, k, d)
    ensures r.None? ==> forall k: nat | j <= k :: !DelimAt(s, k, d)
    decreases |s| - j
  {
    if j + 2 > |s| then None
    else if DelimAt(s, j, d) then Some(j)
    else FirstDelim(s, j + 1, d)
  }

  /** The closing delimiter for the opening one at `p`. */
  function CloseFor(s: string, p: nat): string {
    if DelimAt(s, p, "{{") then "}}" else "*}"
  }

  predicate OpensAt(s: string, p: nat) {
    DelimAt(s, p, "{{") || DelimAt(s, p, "{*")
  }

  /** The end (exclusive) of the marker that starts at `p`: the first
      matching closing delimiter after the opening one. */
  function MarkerEnd(s: string, p: nat): (r: Option<nat>)
    ensures r.Some? ==> OpensAt(s, p) && p + 4 <= r.value <= |s|
                        && DelimAt(s, r.value - 2, CloseFor(s, p))
                        && forall k: nat | p + 2 <= k < r.value - 2 :: !DelimAt(s, k, CloseFor(s, p))
    ensures r.None? ==> !OpensAt(s, p) || forall k: nat | p + 2 <= k :: !DelimAt(s, k, CloseFor(s, p))
  {
    if OpensAt(s, p) then
      match FirstDelim(s, p + 2, CloseFor(s, p))
      case None => None
      case Some(k) => Some(k + 2)
    else None
  }

  /** The earliest marker at or after `p`, as (start, end). */
  function FindMarker(s: string, p: nat): (r: Option<(nat, nat)>)
    ensures r.Some? ==> p <= r.value.0 && MarkerEnd(s, r.value.0) == Some(r.value.1)
    ensures r.Some? ==> forall q: nat | p <= q < r.value.0 :: MarkerEnd(s, q).None?
    ensures r.None? ==> forall q: nat | p <= q :: MarkerEnd(s, q).None?
    decreases |s| - p
  {
    if p + 4 > |s| then None
    else
      match MarkerEnd(s, p)
      case Some(e) => Some((p, e))
      case None => FindMarker(s, p + 1)
  }

  /** Even positions hold TEXT, odd ones markers, and the list has odd length
      (it starts and ends with a possibly empty TEXT). */
  predicate Alternating(ts: seq<Token>) {
    |ts| % 2 == 1 && forall i | 0 <= i < |ts| :: (ts[i].kind == Text) <==> (i % 2 == 0)
  }

  predicate AllWellFormed(ts: seq<Token>) {
    forall i | 0 <= i < |ts| :: WellFormed(ts[i])
  }

  /** All the tokens of a template before include expansion. */
  function Scan(s: string): Result<seq<Token>>
    decreases |s|
  {
    match FindMarker(s, 0)
    case None => Ok([Token(Text, s)])
    case Some((p, e)) =>
      var t :- Classify(s[p..e]);
      var rest :- Scan(s[e..]);
      Ok([Token(Text, s[..p]), t] + rest)
  }

  /** A scan alternates TEXT and markers and gives the template back when
      its contents are concatenated; it fails only with a SyntaxError. */
  lemma {:induction false} ScanShape(s: string)
    ensures Scan(s).Ok? ==> Alternating(Scan(s).value) && Contents(Scan(s).value) == s
    ensures Scan(s).Err? ==> Scan(s).error.SyntaxError?
    decreases |s|
  {
    match FindMarker(s, 0)
    case None =>
      assert Contents([Token(Text, s)]) == s + Contents([]);
    case Some((p, e)) =>
      var t := Classify(s[p..e]);
      if t.Ok? {
        ScanShape(s[e..]);
        if Scan(s[e..]).Ok? {
          ScanStep(s, p, e, t.value, Scan(s[e..]).value);
        }
      }
  }

  /** Every marker token of a scan carries text its class matches. */
  lemma {:induction false} ScanWellFormed(s: string)
    requires Scan(s).Ok?
    ensures AllWellFormed(Scan(s).value)
    decreases |s|
  {
    match FindMarker(s, 0)
    case None =>
    case Some((p, e)) =>
      var t := Classify(s[p..e]).value;
      ScanWellFormed(s[e..]);
      ConsWellFormed(Token(Text, s[..p]), t, Scan(s[e..]).value);
  }

  lemma ScanStep(s: string, p: nat, e: nat, t: Token, rest: seq<Token>)
    requires p <= e <= |s|
    requires t.kind != Text && t.content == s[p..e]
    requires Alternating(rest) && Contents(rest) == s[e..]
    ensures var ts := [Token(Text, s[..p]), t] + rest;
            Alternating(ts) && Contents(ts) == s
  {
    ConsAlternating(Token(Text, s[..p]), t, rest);
    ConsContents(s, p, e, t, rest);
  }

  lemma ConsAlternating(a: Token, t: Token, rest: seq<Token>)
    requires a.kind == Text && t.kind != Text && Alternating(rest)
    ensures Alternating([a, t] + rest)
  {
    var ts := [a, t] + rest;
    forall i | 2 <= i < |ts| ensures ts[i] == rest[i - 2] {
    }
  }

  lemma ConsWellFormed(a: Token, t: Token, rest: seq<Token>)
    requires WellFormed(a) && WellFormed(t) && AllWellFormed(rest)
    ensures AllWellFormed([a, t] + rest)
  {
    var ts := [a, t] + rest;
    forall i | 0 <= i < |ts| ensures WellFormed(ts[i]) {
      if i >= 2 {
        assert ts[i] == rest[i - 2];
      }
    }
  }

  lemma ConsContents(s: string, p: nat, e: nat, t: Token, rest: seq<Token>)
    requires p <= e <= |s| && t.content == s[p..e] && Contents(rest) == s[e..]
    ensures Contents([Token(Text, s[..p]), t] + rest) == s
  {
    ContentsConcat([Token(Text, s[..p]), t], rest);
    assert Contents([Token(Text, s[..p]), t]) == s[..p] + s[p..e] by {
      assert [Token(Text, s[..p]), t][1..] == [t];
      assert [t][1..] == [];
    }
    assert s == s[..p] + s[p..e] + s[e..];
  }

  /** A template without markers is a single TEXT token. */
  lemma ScanPlain(s: string)
    requires forall q: nat | q < |s| :: !OpensAt(s, q)
    ensures Scan(s) == Ok([Token(Text, s)])
  {
    assert FindMarker(s, 0).None?;
  }

  lemma ScanUnfold(s: string)
    ensures FindMarker(s, 0).None? ==> Scan(s) == Ok([Token(Text, s)])
    ensures FindMarker(s, 0).Some? ==>
              var (p, e) := FindMarker(s, 0).value;
              var t := Classify(s[p..e]);
              Scan(s) == if t.Err? then Err(t.error) else Prepend([Token(Text, s[..p]), t.value], Scan(s[e..]))
  {
  }

  /** The scan loop of `_tokenize`. */
  method ScanTemplate(raw: string) returns (r: Result<seq<Token>>)
    ensures r == Scan(raw)
  {
    var remaining := raw;
    var tokens: seq<Token> := [];
    PrependNothing(Scan(raw));
    while true
      invariant Scan(raw) == Prepend(tokens, Scan(remaining))
      decreases |remaining|
    {
      ScanUnfold(remaining);
      var found := FindMarker(remaining, 0);
      if found.None? {
        break;
      }
      var (p, e) := found.value;
      var t := Classify(remaining[p..e]);
      if t.Err? {
        return Err(t.error);
      }
      PrependAssoc(tokens, [Token(Text, remaining[..p]), t.value], Scan(remaining[e..]));
      tokens := tokens + [Token(Text, remaining[..p]), t.value];
      remaining := remaining[e..];
    }
    r := Ok(tokens + [Token(Text, remaining)]);
  }
}
