/** What the two grammar builders share: the three block kinds with their
    markers and messages, the fragments loops and switches translate to,
    and the printed form of a token in the "cannot be here" message. */
module Blocks {
  import opened Errors
  import opened Strings
  import opened Markers
  import opened Types
  import opened Ast

  datatype Block = LoopBlock | SwitchBlock | CaseBlock

  function Keyword(b: Block): string {
    match b
    case LoopBlock => "loop"
    case SwitchBlock => "switch"
    case CaseBlock => "case"
  }

  function OpenKind(b: Block): Kind {
    match b
    case LoopBlock => OpenLoop
    case SwitchBlock => OpenSwitch
    case CaseBlock => OpenCase
  }

  function CloseKind(b: Block): Kind {
    match b
    case LoopBlock => CloseLoop
    case SwitchBlock => CloseSwitch
    case CaseBlock => CloseCase
  }

  function NotClosed(b: Block): string {
    "{*" + Keyword(b) + "*} not closed with a matching {*end" + Keyword(b) + "*}"
  }

  function OnlyCases(b: Block): string {
    "{*" + Keyword(b) + "*} tags can only contain {*case*}s"
  }

  function AtLeastOneCase(b: Block): string {
    "{*" + Keyword(b) + "*} tags must contain at least one {*case*}"
  }

  /** The IndexError of `pop(0)` on an empty list. */
  const PopEmpty := "pop from empty list"

  /** A TEXT token whose `content.strip()` is empty. */
  predicate Blank(t: Token) {
    t.kind == Text && Strip(t.content) == ""
  }

  /** The `__repr__` of a token; `%r` of the content is written as the
      content between single quotes. */
  function Repr(t: Token): string {
    match t.kind
    case Text => "<TEXT '" + t.content + "'>"
    case Var => "<VAR " + t.content + ">"
    case OpenLoop => "<OPENLOOP '" + t.content + "'>"
    case CloseLoop => "<CLOSELOOP '" + t.content + "'>"
    case OpenCase => "<OPENCASE '" + t.content + "'>"
    case CloseCase => "<CLOSECASE '" + t.content + "'>"
    case OpenSwitch => "<OPENSWITCH '" + t.content + "'>"
    case CloseSwitch => "<CLOSESWITCH '" + t.content + "'>"
    case Include => "<INCLUDE '" + t.content + "'>"
  }

  function CannotBeHere(t: Token): string {
    "Token " + Repr(t) + " cannot be here"
  }

  /** `Loop.translate` and `Switch.translate`: a named group around `.*?`,
      except for a loop of the root copy, which captures greedily. */
  function BlockFragment(v: Variant, b: Block, name: string): string {
    if v == Root && b == LoopBlock then NamedGroup(name, ".*") else NamedGroup(name, ".*?")
  }

  /** Only a loop of the root copy captures greedily with `.*`; every other
      block captures lazily with `.*?`. */
  lemma GreedyOnlyRootLoop(v: Variant, b: Block, name: string)
    ensures BlockFragment(v, b, name) == NamedGroup(name, ".*") <==> v == Root && b == LoopBlock
    ensures BlockFragment(v, b, name) != NamedGroup(name, ".*") ==> BlockFragment(v, b, name) == NamedGroup(name, ".*?")
  {
    assert |NamedGroup(name, ".*")| != |NamedGroup(name, ".*?")|;
  }

  /** A body made only of blank text. */
  predicate AllBlank(ts: seq<Token>) {
    forall j | 0 <= j < |ts| :: Blank(ts[j])
  }

  /** A body without any case marker. */
  predicate NoCaseMarker(ts: seq<Token>) {
    forall j | 0 <= j < |ts| :: ts[j].kind != OpenCase
  }

  lemma BodyCons(ts: seq<Token>)
    requires ts != []
    ensures AllBlank(ts) <==> Blank(ts[0]) && AllBlank(ts[1..])
    ensures NoCaseMarker(ts) <==> ts[0].kind != OpenCase && NoCaseMarker(ts[1..])
  {
    assert forall j | 1 <= j < |ts| :: ts[j] == ts[1..][j - 1];
  }

  function BlockCallback(b: Block, name: string, cases: seq<Case>): Callback {
    if b == LoopBlock then LoopCb(name, cases) else SwitchCb(name, cases)
  }

  /** The number of tokens of kind `k`. */
  function CountKind(ts: seq<Token>, k: Kind): nat {
    if ts == [] then 0 else (if ts[0].kind == k then 1 else 0) + CountKind(ts[1..], k)
  }

  lemma {:induction false} CountKindConcat(a: seq<Token>, b: seq<Token>, k: Kind)
    ensures CountKind(a + b, k) == CountKind(a, k) + CountKind(b, k)
  {
    if a == [] {
      assert a + b == b;
    } else {
      assert (a + b)[1..] == a[1..] + b;
      CountKindConcat(a[1..], b, k);
    }
  }

  lemma {:induction false} CountKindNone(ts: seq<Token>, k: Kind)
    requires forall j | 0 <= j < |ts| :: ts[j].kind != k
    ensures CountKind(ts, k) == 0
  {
    if ts != [] {
      CountKindNone(ts[1..], k);
    }
  }

  /** The collected tokens `acc` followed by those of a successful
      collection, or the failure unchanged. */
  function PrependPair(acc: seq<Token>, r: Result<(seq<Token>, seq<Token>)>): Result<(seq<Token>, seq<Token>)> {
    match r
    case Ok((c, left)) => Ok((acc + c, left))
    case Err(e) => Err(e)
  }

  /** The tokens up to position `k` are the head followed by the tail's
      tokens up to `k - 1`. */
  lemma SliceAfterHead(rest: seq<Token>, k: nat)
    requires 0 < k < |rest|
    ensures [rest[0]] + rest[1..][..k] == rest[..k + 1]
    ensures rest[1..][k..] == rest[k + 1..]
  {
    assert rest[1..][..k] == rest[1..k + 1];
  }

  lemma PrependPairAssoc(a: seq<Token>, b: seq<Token>, r: Result<(seq<Token>, seq<Token>)>)
    ensures PrependPair(a, PrependPair(b, r)) == PrependPair(a + b, r)
    ensures PrependPair([], r) == r
  {
    if r.Ok? {
      assert a + (b + r.value.0) == (a + b) + r.value.0;
      assert [] + r.value.0 == r.value.0;
    }
  }
}
