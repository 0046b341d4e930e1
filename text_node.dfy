/** `Text`: literal template text becomes a pattern fragment. Four
    substitutions normalise the whitespace; the result is then escaped and
    relaxed so that runs of spaces and newlines match flexibly. */
module TextNode {
  import opened Errors
  import opened Markers
  import opened Ast

  /** No two consecutive occurrences of `c`. */
  predicate NoRun(s: string, c: char) {
    forall k | 0 <= k < |s| - 1 :: !(s[k] == c && s[k + 1] == c)
  }

  /** `re.sub(c + '+', c, s)`: every run of `c` becomes one `c`. */
  function Collapse(s: string, c: char): string
    decreases |s|
  {
    if |s| < 2 then s
    else if s[0] == c && s[1] == c then Collapse(s[1..], c)
    else [s[0]] + Collapse(s[1..], c)
  }

  /** `s` with every `c` removed. */
  function Without(s: string, c: char): string {
    if s == [] then [] else (if s[0] == c then [] else [s[0]]) + Without(s[1..], c)
  }

  lemma {:induction false} CollapseHead(s: string, c: char)
    ensures |Collapse(s, c)| <= |s|
    ensures s != [] ==> Collapse(s, c) != [] && Collapse(s, c)[0] == s[0]
    decreases |s|
  {
    if |s| >= 2 {
      CollapseHead(s[1..], c);
    }
  }

  /** After the collapse no `c` follows another. */
  lemma {:induction false} CollapseNoRun(s: string, c: char)
    ensures NoRun(Collapse(s, c), c)
    decreases |s|
  {
    if |s| >= 2 {
      CollapseNoRun(s[1..], c);
      CollapseHead(s[1..], c);
    }
  }

  /** Collapsing one character creates no run of any other. */
  lemma {:induction false} CollapseKeepsNoRun(s: string, c: char, d: char)
    requires NoRun(s, d)
    ensures NoRun(Collapse(s, c), d)
    decreases |s|
  {
    if |s| >= 2 {
      assert NoRun(s[1..], d) by {
        forall k | 0 <= k < |s[1..]| - 1 ensures !(s[1..][k] == d && s[1..][k + 1] == d) {
          assert s[1..][k] == s[k + 1] && s[1..][k + 1] == s[k + 2];
        }
      }
      CollapseKeepsNoRun(s[1..], c, d);
      CollapseHead(s[1..], c);
    }
  }

  /** The collapse removes only copies of `c`: everything else is kept,
      in order. */
  lemma {:induction false} CollapseOnlyRemoves(s: string, c: char)
    ensures Without(Collapse(s, c), c) == Without(s, c)
    decreases |s|
  {
    if |s| >= 2 {
      CollapseOnlyRemoves(s[1..], c);
      if !(s[0] == c && s[1] == c) {
        WithoutCons(s[0], Collapse(s[1..], c), c);
      }
    }
  }

  lemma WithoutCons(x: char, s: string, c: char)
    ensures Without([x] + s, c) == (if x == c then [] else [x]) + Without(s, c)
  {
    assert ([x] + s)[1..] == s;
  }

  /** Collapsing twice is collapsing once. */
  lemma {:induction false} CollapseIdempotent(s: string, c: char)
    ensures Collapse(Collapse(s, c), c) == Collapse(s, c)
  {
    CollapseNoRun(s, c);
    NoRunFixed(Collapse(s, c), c);
  }

  lemma {:induction false} NoRunFixed(s: string, c: char)
    requires NoRun(s, c)
    ensures Collapse(s, c) == s
    decreases |s|
  {
    if |s| >= 2 {
      assert NoRun(s[1..], c) by {
        forall k | 0 <= k < |s[1..]| - 1 ensures !(s[1..][k] == c && s[1..][k + 1] == c) {
          assert s[1..][k] == s[k + 1] && s[1..][k + 1] == s[k + 2];
        }
      }
      NoRunFixed(s[1..], c);
      assert s == [s[0]] + s[1..];
    }
  }

  /** `re.sub('\n $', '\n', s)`: `$` also matches before a final newline,
      so a space is dropped either at the very end or just before a final
      newline, after a newline. */
  function TrimLastLine(s: string): string {
    var n := |s|;
    if n >= 2 && s[n - 2] == '\n' && s[n - 1] == ' ' then s[..n - 1]
    else if n >= 3 && s[n - 3] == '\n' && s[n - 2] == ' ' && s[n - 1] == '\n' then s[..n - 2] + "\n"
    else s
  }

  /** `re.sub('^ \n', '\n', s)`. */
  function TrimFirstLine(s: string): string {
    if |s| >= 2 && s[0] == ' ' && s[1] == '\n' then s[1..] else s
  }

  /** The four substitutions before escaping. */
  function Normalise(s: string): string {
    TrimFirstLine(TrimLastLine(Collapse(Collapse(s, ' '), '\n')))
  }

  /** The escaped and relaxed pattern of a text token; the escaping is the
      `escape` parameter. */
  function MakeText(t: Token, escape: string -> string): (m: Member)
    ensures m.entry.None?
    ensures m.patt == escape(Normalise(t.content))
  {
    Member(escape(Normalise(t.content)), None)
  }

  /** After the first two substitutions neither spaces nor newlines come
      two in a row. */
  lemma CollapsedNoRuns(s: string)
    ensures NoRun(Collapse(Collapse(s, ' '), '\n'), ' ')
    ensures NoRun(Collapse(Collapse(s, ' '), '\n'), '\n')
  {
    CollapseNoRun(s, ' ');
    CollapseKeepsNoRun(Collapse(s, ' '), '\n', ' ');
    CollapseNoRun(Collapse(s, ' '), '\n');
  }

  /** Dropping one space creates no run of spaces. */
  lemma DropSpaceNoRun(s: string, k: nat)
    requires k < |s| && s[k] == ' ' && NoRun(s, ' ')
    requires k == 0 || s[k - 1] != ' '
    ensures NoRun(s[..k] + s[k + 1..], ' ')
  {
    var r := s[..k] + s[k + 1..];
    forall j | 0 <= j < |r| - 1 ensures !(r[j] == ' ' && r[j + 1] == ' ') {
      if j + 1 < k {
        assert r[j] == s[j] && r[j + 1] == s[j + 1];
      } else if j + 1 == k {
        assert r[j] == s[j] && r[j + 1] == s[k + 1];
      } else {
        assert r[j] == s[j + 1] && r[j + 1] == s[j + 2];
      }
    }
  }

  lemma TrimLastLineNoRun(a: string)
    requires NoRun(a, ' ')
    ensures NoRun(TrimLastLine(a), ' ')
  {
    var n := |a|;
    if n >= 2 && a[n - 2] == '\n' && a[n - 1] == ' ' {
      assert TrimLastLine(a) == a[..n - 1] + a[n..];
      DropSpaceNoRun(a, n - 1);
    } else if n >= 3 && a[n - 3] == '\n' && a[n - 2] == ' ' && a[n - 1] == '\n' {
      assert TrimLastLine(a) == a[..n - 2] + a[n - 1..];
      DropSpaceNoRun(a, n - 2);
    }
  }

  lemma TrimFirstLineNoRun(b: string)
    requires NoRun(b, ' ')
    ensures NoRun(TrimFirstLine(b), ' ')
  {
    if |b| >= 2 && b[0] == ' ' && b[1] == '\n' {
      assert TrimFirstLine(b) == b[..0] + b[1..];
      DropSpaceNoRun(b, 0);
    }
  }

  /** The normalised text never holds two spaces in a row. */
  lemma NormaliseNoDoubleSpace(s: string)
    ensures NoRun(Normalise(s), ' ')
  {
    var a := Collapse(Collapse(s, ' '), '\n');
    CollapseNoRun(s, ' ');
    CollapseKeepsNoRun(Collapse(s, ' '), '\n', ' ');
    TrimLastLineNoRun(a);
    TrimFirstLineNoRun(TrimLastLine(a));
  }

  /** The space dropped before a final newline can leave two newlines in a
      row, although the newline runs were collapsed just before. */
  lemma NormaliseDoubleNewline()
    ensures Normalise("a\n \n") == "a\n\n"
  {
    assert Collapse("a\n \n", ' ') == "a\n \n" by {
      NoRunFixed("a\n \n", ' ');
    }
    assert Collapse("a\n \n", '\n') == "a\n \n" by {
      NoRunFixed("a\n \n", '\n');
    }
    assert "a\n \n"[1..] == "\n \n";
  }

  /** Runs of spaces and newlines shrink to one, and a space hugging a
      newline at either end of the text goes. */
  lemma NormaliseExample()
    ensures Normalise(" \nA  B\n\n") == "\nA B\n"
  {
    CollapseSpacesExample();
    CollapseNewlinesExample();
  }

  lemma CollapseSpacesExample()
    ensures Collapse(" \nA  B\n\n", ' ') == " \nA B\n\n"
  {
    SpacesSlices();
    NoRunFixed(" B\n\n", ' ');
    assert Collapse("  B\n\n", ' ') == " B\n\n";
    assert Collapse("A  B\n\n", ' ') == "A B\n\n";
    assert Collapse("\nA  B\n\n", ' ') == "\nA B\n\n";
  }

  lemma SpacesSlices()
    ensures " \nA  B\n\n"[1..] == "\nA  B\n\n"
    ensures "\nA  B\n\n"[1..] == "A  B\n\n"
    ensures "A  B\n\n"[1..] == "  B\n\n"
    ensures "  B\n\n"[1..] == " B\n\n"
    ensures [' '] + "\nA B\n\n" == " \nA B\n\n"
    ensures ['\n'] + "A B\n\n" == "\nA B\n\n"
    ensures ['A'] + " B\n\n" == "A B\n\n"
  {
  }

  lemma CollapseNewlinesExample()
    ensures Collapse(" \nA B\n\n", '\n') == " \nA B\n"
  {
    var t := " \nA B\n\n";
    assert Collapse(t, '\n') == " \nA B\n" by {
      assert t[1..] == "\nA B\n\n";
      assert t[2..] == "A B\n\n";
      assert t[3..] == " B\n\n";
      assert t[4..] == "B\n\n";
      assert t[5..] == "\n\n";
      assert t[6..] == "\n";
    }
  }
}
