/** The JavaScript string operations the day archive uses to build its `details`
    text: `Array.prototype.join`, the `|| 'None'` fallback for an empty string,
    and the decimal rendering of a number inside a template literal. */
module Text {

  import opened Types

  // ---------------------------------------------------------------------------
  // Array.prototype.join
  // ---------------------------------------------------------------------------

  /** `xs.join(sep)`: the elements in order with `sep` between neighbours. */
  function Join(xs: seq<string>, sep: string): string
  {
    if |xs| == 0 then ""
    else if |xs| == 1 then xs[0]
    else Join(xs[..|xs| - 1], sep) + sep + xs[|xs| - 1]
  }

  /** Sum of the lengths of the strings in `xs`. */
  function TotalLength(xs: seq<string>): nat
  {
    if |xs| == 0 then 0 else TotalLength(xs[..|xs| - 1]) + |xs[|xs| - 1]|
  }

  /** A join is as long as its parts plus one separator between each two of them. */
  lemma {:induction false} JoinLength(xs: seq<string>, sep: string)
    requires |xs| > 0
    ensures |Join(xs, sep)| == TotalLength(xs) + (|xs| - 1) * |sep|
  {
    if |xs| > 1 {
      var init, n, k := xs[..|xs| - 1], |xs|, |sep|;
      JoinLength(init, sep);
      assert (n - 1) * k == (n - 2) * k + k;
      assert Join(xs, sep) == Join(init, sep) + sep + xs[n - 1];
      assert TotalLength(xs) == TotalLength(init) + |xs[n - 1]|;
    }
  }

  /** With a non-empty separator, the join is empty exactly when there is nothing
      to join or the only element is itself the empty string. */
  lemma {:induction false} JoinIsEmpty(xs: seq<string>, sep: string)
    requires sep != ""
    ensures Join(xs, sep) == "" <==> |xs| == 0 || (|xs| == 1 && xs[0] == "")
  {
    if |xs| > 1 {
      JoinLength(xs, sep);
    }
  }

  /** Each element of a join shows up in it, and in order: the join of a longer
      list starts with the join of its prefix. */
  lemma {:induction false} JoinExtends(xs: seq<string>, x: string, sep: string)
    requires |xs| > 0
    ensures Join(xs + [x], sep) == Join(xs, sep) + sep + x
  {
    assert (xs + [x])[..|xs|] == xs;
  }

  /** `s || 'None'`: an empty string is replaced by the word None. */
  function OrNone(s: string): (r: string)
    ensures r != ""
    ensures s == "" ==> r == "None"
    ensures s != "" ==> r == s
  {
    if s == "" then "None" else s
  }

  // ---------------------------------------------------------------------------
  // Decimal rendering of numbers
  // ---------------------------------------------------------------------------

  predicate IsDigit(c: char)
  {
    '0' <= c <= '9'
  }

  predicate AllDigits(s: string)
  {
    forall i :: 0 <= i < |s| ==> IsDigit(s[i])
  }

  /** A decimal numeral as JavaScript prints an integer: digits only, at least
      one of them, and no leading zero unless the number is zero itself. */
  predicate Canonical(s: string)
  {
    |s| > 0 && AllDigits(s) && (|s| > 1 ==> s[0] != '0')
  }

  function DigitValue(c: char): (d: nat)
    requires IsDigit(c)
    ensures d < 10
  {
    (c as int) - ('0' as int)
  }

  function DigitChar(d: nat): (c: char)
    requires d < 10
    ensures IsDigit(c) && DigitValue(c) == d
  {
    (('0' as int) + d) as char
  }

  /** The template-literal rendering `${n}` of a non-negative integer. */
  function NatToString(n: nat): (r: string)
    ensures Canonical(r)
    ensures n < 10 <==> |r| == 1
    decreases n
  {
    if n < 10 then [DigitChar(n)] else NatToString(n / 10) + [DigitChar(n % 10)]
  }

  /** The value of a string of decimal digits, most significant digit first. */
  function ParseNat(s: string): nat
    requires AllDigits(s)
  {
    if |s| == 0 then 0 else ParseNat(s[..|s| - 1]) * 10 + DigitValue(s[|s| - 1])
  }

  /** Reading back the rendering of a number gives the number. */
  lemma {:induction false} ParseNatToString(n: nat)
    ensures ParseNat(NatToString(n)) == n
    decreases n
  {
    var r := NatToString(n);
    if n >= 10 {
      ParseNatToString(n / 10);
      assert r[..|r| - 1] == NatToString(n / 10);
    } else {
      assert r[..0] == [];
    }
  }

  /** A canonical numeral with more than one digit stands for at least ten. */
  lemma {:induction false} CanonicalAtLeastTen(s: string)
    requires Canonical(s) && |s| > 1
    ensures ParseNat(s) >= 10
  {
    var p := s[..|s| - 1];
    assert p[0] == s[0];
    if |p| > 1 {
      CanonicalAtLeastTen(p);
    } else {
      assert p[..0] == [];
    }
  }

  /** Rendering the value of a canonical numeral gives the numeral back, so every
      canonical numeral is the rendering of exactly one number. */
  lemma {:induction false} NatToStringOfParse(s: string)
    requires Canonical(s)
    ensures NatToString(ParseNat(s)) == s
    decreases |s|
  {
    var p := s[..|s| - 1];
    if |s| == 1 {
      assert p == [];
    } else {
      assert p[0] == s[0];
      NatToStringOfParse(p);
      CanonicalAtLeastTen(s);
      assert s == p + [s[|s| - 1]];
    }
  }

  /** The rendering `${t / 10}` of a sleep duration held in tenths of an hour:
      whole hours print without a fraction ("7"), others with one decimal ("7.5"). */
  function RenderTenths(t: nat): string
  {
    NatToString(t / 10) + (if t % 10 == 0 then "" else "." + [DigitChar(t % 10)])
  }

  /** Reads a duration written as RenderTenths writes it, in tenths of an hour. */
  function ParseTenths(s: string): Option<nat>
  {
    if |s| >= 3 && s[|s| - 2] == '.' && AllDigits(s[..|s| - 2]) && IsDigit(s[|s| - 1]) then
      Some(ParseNat(s[..|s| - 2]) * 10 + DigitValue(s[|s| - 1]))
    else if |s| > 0 && AllDigits(s) then
      Some(ParseNat(s) * 10)
    else
      None
  }

  /** The duration rendering loses nothing: it reads back as the same number of tenths. */
  lemma ParseRenderTenths(t: nat)
    ensures ParseTenths(RenderTenths(t)) == Some(t)
  {
    var whole := NatToString(t / 10);
    ParseNatToString(t / 10);
    var r := RenderTenths(t);
    if t % 10 == 0 {
      assert r == whole;
      if |r| >= 3 {
        assert IsDigit(r[|r| - 2]);
      }
    } else {
      assert r == whole + ['.', DigitChar(t % 10)];
      assert r[..|r| - 2] == whole;
    }
  }
}
