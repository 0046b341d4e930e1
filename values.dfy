/** The values a parse produces and the callbacks that turn a captured
    substring into one: the built-in casters `_intify` and `_floatify`,
    `str.strip`, the identity callback and user callbacks of custom types. */
module Values {
  import opened Errors
  import opened Strings

  /** A parsed value: captured text, a number, the list of a loop or the
      record of a switch. User callbacks may return any of them. */
  datatype Value =
    | Str(s: string)
    | Int(i: int)
    | Float(f: real)
    | Records(items: seq<map<string, Value>>)
    | Record(fields: map<string, Value>)

  /** The callback attached to a type. `User(n)` is the callback the caller
      supplied with the custom type named `n`. */
  datatype Decoder = Identity | Stripped | Intify | Floatify | User(typeName: string)

  /** What the model does not compute itself: Python's `float()` on a
      cleaned-up number, and the callbacks of custom types. */
  datatype Runtime = Runtime(
    toFloat: string -> Option<real>,
    user: (string, string) -> Result<Value>)

  /** The characters `[^\w.-]` does not remove. */
  predicate Kept(c: char) {
    IsWordChar(c) || c == '.' || c == '-'
  }

  /** `re.sub('[^\w.-]', '', raw)`. */
  function Keep(raw: string): (r: string)
    ensures |r| <= |raw|
    ensures forall k | 0 <= k < |r| :: Kept(r[k])
  {
    if raw == [] then []
    else if Kept(raw[0]) then [raw[0]] + Keep(raw[1..])
    else Keep(raw[1..])
  }

  lemma {:induction false} KeepConcat(a: string, b: string)
    ensures Keep(a + b) == Keep(a) + Keep(b)
  {
    if a != [] {
      assert (a + b)[1..] == a[1..] + b;
      KeepConcat(a[1..], b);
    } else {
      assert a + b == b;
    }
  }

  /** Text made only of kept characters is left alone. */
  lemma {:induction false} KeepAllKept(s: string)
    requires forall k | 0 <= k < |s| :: Kept(s[k])
    ensures Keep(s) == s
  {
    if s != [] {
      KeepAllKept(s[1..]);
    }
  }

  predicate AllDigits(s: string) {
    forall k | 0 <= k < |s| :: IsDigit(s[k])
  }

  function DigitValue(c: char): nat
    requires IsDigit(c)
  {
    c as int - '0' as int
  }

  function DigitChar(d: nat): char
    requires d < 10
  {
    ('0' as int + d) as char
  }

  /** The number a string of decimal digits denotes. */
  function Num(ds: string): nat
    requires AllDigits(ds)
  {
    if ds == [] then 0 else 10 * Num(ds[..|ds| - 1]) + DigitValue(ds[|ds| - 1])
  }

  /** The decimal digits of `n`, without leading zeros. */
  function ShowNat(n: nat): (r: string)
    ensures |r| > 0 && AllDigits(r)
  {
    if n < 10 then [DigitChar(n)] else ShowNat(n / 10) + [DigitChar(n % 10)]
  }

  /** `str(n)` for an integer. */
  function Show(n: int): string {
    if n < 0 then "-" + ShowNat(-n) else ShowNat(n)
  }

  lemma {:induction false} NumShowNat(n: nat)
    ensures Num(ShowNat(n)) == n
  {
    if n >= 10 {
      var r := ShowNat(n);
      assert r[..|r| - 1] == ShowNat(n / 10);
      NumShowNat(n / 10);
    }
  }

  /** `int()` on text that `[^\w.-]` has already cleaned: an optional minus
      sign and at least one decimal digit. Anything else is rejected. */
  function IntParse(t: string): (r: Option<int>)
    ensures r.Some? ==> (|t| > 0 && AllDigits(t)) || (|t| > 1 && t[0] == '-' && AllDigits(t[1..]))
  {
    if |t| > 1 && t[0] == '-' && AllDigits(t[1..]) then Some(0 - Num(t[1..]) as int)
    else if |t| > 0 && AllDigits(t) then Some(Num(t))
    else None
  }

  /** Printing an integer and parsing it back gives the integer. */
  lemma IntParseShow(n: int)
    ensures IntParse(Show(n)) == Some(n)
  {
    if n < 0 {
      NumShowNat(-n);
      assert Show(n)[1..] == ShowNat(-n);
    } else {
      NumShowNat(n);
    }
  }

  /** `_intify`: clean the text, then `int()`; a failure is a ValueError
      quoting the original text. */
  function IntCast(raw: string): (r: Result<Value>)
    ensures r.Ok? ==> r.value.Int? && IntParse(Keep(raw)) == Some(r.value.i)
    ensures r.Err? <==> IntParse(Keep(raw)).None?
    ensures r.Err? ==> r.error == ValueError("Could not perform sparser int on \"" + raw + "\"")
  {
    match IntParse(Keep(raw))
    case Some(n) => Ok(Int(n))
    case None => Err(ValueError("Could not perform sparser int on \"" + raw + "\""))
  }

  /** `_floatify`: clean the text, then `float()`. */
  function FloatCast(raw: string, rt: Runtime): (r: Result<Value>)
    ensures r.Ok? ==> r.value.Float? && rt.toFloat(Keep(raw)) == Some(r.value.f)
    ensures r.Err? <==> rt.toFloat(Keep(raw)).None?
    ensures r.Err? ==> r.error == ValueError("Could not perform sparser float on \"" + raw + "\"")
  {
    match rt.toFloat(Keep(raw))
    case Some(x) => Ok(Float(x))
    case None => Err(ValueError("Could not perform sparser float on \"" + raw + "\""))
  }

  /** Applies a type's callback to the captured text. */
  function Decode(d: Decoder, s: string, rt: Runtime): (r: Result<Value>)
    ensures d.Identity? ==> r == Ok(Str(s))
    ensures d.Stripped? ==> r == Ok(Str(Strip(s)))
    ensures d.User? ==> r == rt.user(d.typeName, s)
  {
    match d
    case Identity => Ok(Str(s))
    case Stripped => Ok(Str(Strip(s)))
    case Intify => IntCast(s)
    case Floatify => FloatCast(s, rt)
    case User(n) => rt.user(n, s)
  }

  /** Any decimal rendering of an integer casts back to it, whatever spaces,
      commas or other separators are mixed in. */
  lemma IntCastShow(n: int, pre: string, post: string)
    requires forall k | 0 <= k < |pre| :: !Kept(pre[k])
    requires forall k | 0 <= k < |post| :: !Kept(post[k])
    ensures IntCast(pre + Show(n) + post) == Ok(Int(n))
  {
    var s := Show(n);
    assert forall k | 0 <= k < |s| :: Kept(s[k]) by {
      if n < 0 {
        assert forall k | 1 <= k < |s| :: s[k] == ShowNat(-n)[k - 1];
      }
    }
    KeepConcat(pre + s, post);
    KeepConcat(pre, s);
    KeepAllKept(s);
    NoneKept(pre);
    NoneKept(post);
    assert [] + s + [] == s;
    IntParseShow(n);
  }

  lemma {:induction false} NoneKept(s: string)
    requires forall k | 0 <= k < |s| :: !Kept(s[k])
    ensures Keep(s) == []
  {
    if s != [] {
      NoneKept(s[1..]);
    }
  }

  /** A character `[^\w.-]` removes, such as a thousands separator or a
      space, does not change what the cast sees. */
  lemma DropsSeparator(a: string, c: char, b: string)
    requires !Kept(c)
    ensures Keep(a + [c] + b) == Keep(a + b)
  {
    KeepConcat(a + [c], b);
    KeepConcat(a, [c]);
    KeepConcat(a, b);
    assert Keep([c]) == [];
  }

  /** `"-1,234"` casts to -1234. */
  lemma IntCastSeparators()
    ensures IntCast("-1,234") == Ok(Int(-1234))
  {
    SeparatorDropped();
    ShowExample();
    IntCastShow(-1234, "", "");
    assert "" + "-1234" + "" == "-1234";
  }

  lemma SeparatorDropped()
    ensures Keep("-1,234") == Keep("-1234")
  {
    assert "-1,234" == "-1" + [','] + "234";
    DropsSeparator("-1", ',', "234");
    assert "-1" + "234" == "-1234";
  }

  lemma ShowExample()
    ensures Show(-1234) == "-1234"
  {
    assert ShowNat(1) == "1";
    assert ShowNat(12) == "12";
    assert ShowNat(123) == "123";
    assert ShowNat(1234) == "1234";
  }

  /** Like `_intify`, `_floatify` looks through currency signs, spaces and
      other characters `[^\w.-]` removes around the number: the cast of the
      padded text succeeds exactly when the bare text's does, with the same
      value. */
  lemma FloatCastPadded(t: string, pre: string, post: string, rt: Runtime)
    requires forall k | 0 <= k < |pre| :: !Kept(pre[k])
    requires forall k | 0 <= k < |post| :: !Kept(post[k])
    ensures FloatCast(pre + t + post, rt).Ok? <==> FloatCast(t, rt).Ok?
    ensures FloatCast(pre + t + post, rt).Ok? ==> FloatCast(pre + t + post, rt) == FloatCast(t, rt)
  {
    KeepConcat(pre + t, post);
    KeepConcat(pre, t);
    NoneKept(pre);
    NoneKept(post);
    assert [] + Keep(t) + [] == Keep(t);
  }

  /** `"$1,234.50"` is cast as `float("1234.50")`. */
  lemma FloatCastCurrency(rt: Runtime)
    ensures FloatCast("$1,234.50", rt).Ok? <==> rt.toFloat("1234.50").Some?
    ensures FloatCast("$1,234.50", rt).Ok? ==>
              FloatCast("$1,234.50", rt) == Ok(Float(rt.toFloat("1234.50").value))
  {
    CurrencyKept();
  }

  lemma CurrencyKept()
    ensures Keep("$1,234.50") == "1234.50"
  {
    assert "$1,234.50" == "$" + "1,234.50";
    KeepConcat("$", "1,234.50");
    NoneKept("$");
    SeparatorInAmount();
    PlainAmountKept();
  }

  lemma SeparatorInAmount()
    ensures Keep("1,234.50") == Keep("1234.50")
  {
    assert "1,234.50" == "1" + [','] + "234.50";
    DropsSeparator("1", ',', "234.50");
    assert "1" + "234.50" == "1234.50";
  }

  lemma PlainAmountKept()
    ensures Keep("1234.50") == "1234.50"
  {
    KeepAllKept("1234.50");
  }

  /** Letters are word characters, so they survive the clean-up and make
      the cast fail. */
  lemma IntCastRejectsLetters()
    ensures IntCast("12a") == Err(ValueError("Could not perform sparser int on \"12a\""))
  {
    KeepAllKept("12a");
    assert !IsDigit("12a"[2]);
  }
}
