/** The number conversions the page relies on: `parseInt`, `parseFloat` and
    the decimal rendering of a whole number in a template string. `ParseInt`
    accepts exactly an optional minus sign followed by digits; `ParseFloat`
    accepts exactly an optional minus sign followed by `d+` or `d+.d*`. Every
    other string parses to None, which stands for NaN, even where JavaScript
    would read a number from it (`"3.5"` for `parseInt`, `".5"`, `" 7"` or
    `"12px"` for either). */
module Numbers {
  import opened Wrappers

  predicate IsDigit(c: char) { '0' <= c <= '9' }

  predicate AllDigits(s: string) { forall i :: 0 <= i < |s| ==> IsDigit(s[i]) }

  function DigitValue(c: char): nat
    requires IsDigit(c)
  {
    (c as int) - ('0' as int)
  }

  function DigitChar(d: nat): (c: char)
    requires d < 10
    ensures IsDigit(c) && DigitValue(c) == d
  {
    (('0' as int) + d) as char
  }

  /** The value of a string of decimal digits, most significant first. */
  function DigitsValue(s: string): nat
    requires AllDigits(s)
  {
    if s == [] then 0 else DigitsValue(s[..|s| - 1]) * 10 + DigitValue(s[|s| - 1])
  }

  function Pow10(k: nat): (r: nat)
    ensures r >= 1
  {
    if k == 0 then 1 else 10 * Pow10(k - 1)
  }

  /** A non-empty string of digits read as a natural number. */
  function ParseNat(s: string): (r: Option<nat>)
    ensures r.Some? <==> |s| > 0 && AllDigits(s)
  {
    if |s| > 0 && AllDigits(s) then Some(DigitsValue(s)) else None
  }

  /** `parseInt` on an optionally negative decimal numeral. */
  function ParseInt(s: string): (r: Option<int>)
    ensures s == "" ==> r == None
    ensures ParseNat(s).Some? ==> r == Some(ParseNat(s).value as int)
    ensures |s| > 0 && s[0] == '-' ==>
              r == if ParseNat(s[1..]).Some? then Some(0 - ParseNat(s[1..]).value as int) else None
    ensures (|s| == 0 || s[0] != '-') && ParseNat(s).None? ==> r == None
  {
    if |s| > 0 && s[0] == '-' then
      match ParseNat(s[1..])
      case Some(n) => Some(0 - n as int)
      case None => None
    else
      match ParseNat(s)
      case Some(n) => Some(n)
      case None => None
  }

  /** The index of the first occurrence of `c` in `s`, or `|s|` when there is none. */
  function IndexOf(s: string, c: char): (k: nat)
    ensures k <= |s|
    ensures k < |s| ==> s[k] == c
    ensures forall i :: 0 <= i < k ==> s[i] != c
  {
    if s == [] then 0
    else if s[0] == c then 0
    else 1 + IndexOf(s[1..], c)
  }

  /** The value of the numeral `whole.fraction` whose fraction has `k` digits. */
  function DecimalValue(whole: nat, fraction: nat, k: nat): (r: real)
    ensures r >= whole as real
  {
    whole as real + fraction as real / Pow10(k) as real
  }

  /** An unsigned numeral `d+` or `d+.d*` read as an exact rational. */
  function ParseUnsignedDecimal(s: string): (r: Option<real>)
    ensures r.Some? ==> r.value >= 0.0
  {
    var k := IndexOf(s, '.');
    var whole, fraction := s[..k], if k < |s| then s[k + 1..] else "";
    if |whole| > 0 && AllDigits(whole) && AllDigits(fraction) then
      Some(DecimalValue(DigitsValue(whole), DigitsValue(fraction), |fraction|))
    else
      None
  }

  /** `parseFloat` on an optionally negative decimal numeral. */
  function ParseFloat(s: string): (r: Option<real>)
    ensures s == "" ==> r == None
    ensures |s| == 0 || s[0] != '-' ==> r == ParseUnsignedDecimal(s)
    ensures |s| > 0 && s[0] == '-' && ParseUnsignedDecimal(s[1..]).None? ==> r == None
    ensures |s| > 0 && s[0] == '-' && ParseUnsignedDecimal(s[1..]).Some? ==>
              r == Some(-ParseUnsignedDecimal(s[1..]).value)
  {
    if |s| > 0 && s[0] == '-' then
      match ParseUnsignedDecimal(s[1..])
      case Some(x) => Some(-x)
      case None => None
    else
      ParseUnsignedDecimal(s)
  }

  /** The decimal rendering of a natural number, as `${n}` produces it below
      10^21 (JavaScript switches to exponent form from there on). */
  function NatToString(n: nat): (s: string)
    ensures |s| > 0 && AllDigits(s)
  {
    if n < 10 then [DigitChar(n)] else NatToString(n / 10) + [DigitChar(n % 10)]
  }

  /** Rendering a natural number and reading it back gives the number. */
  lemma {:induction false} NatToStringRoundTrip(n: nat)
    ensures ParseNat(NatToString(n)) == Some(n)
  {
    var s := NatToString(n);
    if n < 10 {
      assert s[..0] == [];
      assert DigitsValue(s) == DigitsValue(s[..0]) * 10 + DigitValue(s[0]);
    } else {
      var p := NatToString(n / 10);
      NatToStringRoundTrip(n / 10);
      assert s[..|s| - 1] == p;
    }
  }

  /** Rendering a whole number and reading it back with `parseInt` gives the
      number, and a leading minus sign negates it. */
  lemma ParseIntOfNat(n: nat)
    ensures ParseInt(NatToString(n)) == Some(n)
    ensures ParseInt("-" + NatToString(n)) == Some(-(n as int))
  {
    var s := NatToString(n);
    NatToStringRoundTrip(n);
    assert s[0] != '-' by { assert IsDigit(s[0]); }
    assert ("-" + s)[1..] == s;
  }

  /** The numeral `w.f` (w rendered in decimal, f any digits) parses to
      `w + f / 10^|f|` exactly. */
  lemma ParseUnsignedOfDecimal(w: nat, f: string)
    requires AllDigits(f)
    ensures ParseUnsignedDecimal(NatToString(w) + "." + f) == Some(DecimalValue(w, DigitsValue(f), |f|))
  {
    var ws := NatToString(w);
    NatToStringRoundTrip(w);
    PointAfterDigits(ws, f);
    var s := ws + "." + f;
    assert s[..|ws|] == ws;
    assert s[|ws| + 1..] == f;
  }

  /** The first point of `ws.f`, for digits `ws`, is the one after `ws`. */
  lemma PointAfterDigits(ws: string, f: string)
    requires AllDigits(ws)
    ensures IndexOf(ws + "." + f, '.') == |ws|
  {
    var s := ws + "." + f;
    assert s[|ws|] == '.';
  }

  /** `parseFloat("1.5")` is 1.5 and `parseFloat("-2")` is -2. */
  lemma ParseFloatExamples()
    ensures ParseFloat("1.5") == Some(1.5)
    ensures ParseFloat("-2") == Some(-2.0)
  {
    assert NatToString(1) == "1";
    assert DigitsValue("5") == 5 by { assert "5"[..0] == []; }
    ParseUnsignedOfDecimal(1, "5");
    assert NatToString(1) + "." + "5" == "1.5";
    assert NatToString(2) == "2";
    ParseFloatOfNat(2);
    assert "-2"[1..] == "2";
  }

  /** A whole-number price or deposit parses to the same value as a float. */
  lemma {:induction false} ParseFloatOfNat(n: nat)
    ensures ParseFloat(NatToString(n)) == Some(n as real)
  {
    var s := NatToString(n);
    NatToStringRoundTrip(n);
    assert IndexOf(s, '.') == |s| by {
      assert forall i :: 0 <= i < |s| ==> s[i] != '.' by {
        forall i | 0 <= i < |s| ensures s[i] != '.' { assert IsDigit(s[i]); }
      }
    }
    assert s[..|s|] == s;
    assert s[0] != '-' by { assert IsDigit(s[0]); }
  }
}
