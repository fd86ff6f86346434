/** Text as the encoder sees it.

    Arguments and filter scripts are strings, but some of their pieces are numbers that the
    program prints with Python's float formatting (`str(total_duration)`, the f-string of the
    volume multiplier).  The model does not reproduce float printing: a printed number is one
    symbol `Num(x)` that carries the exact value, and every other character is a `Ch(c)`. */
module Text {
  import opened Util

  datatype Sym = Ch(c: char) | Num(x: real)

  type Str = seq<Sym>

  /** A literal string as a `Str`. */
  function Lit(s: string): Str
  {
    seq(|s|, i requires 0 <= i < |s| => Ch(s[i]))
  }

  /** The characters of `t`, when `t` holds no printed number. */
  function Plain(t: Str): Option<string>
  {
    if forall i :: 0 <= i < |t| ==> t[i].Ch? then
      Some(seq(|t|, i requires 0 <= i < |t| && t[i].Ch? => t[i].c))
    else
      None
  }

  lemma PlainLit(s: string)
    ensures Plain(Lit(s)) == Some(s)
  {
    var t := Lit(s);
    assert forall i :: 0 <= i < |t| ==> t[i].Ch?;
    var back := seq(|t|, i requires 0 <= i < |t| && t[i].Ch? => t[i].c);
    assert back == s;
  }

  lemma LitAppend(a: string, b: string)
    ensures Lit(a + b) == Lit(a) + Lit(b)
  {
  }

  function DigitChar(d: nat): char
    requires d < 10
  {
    ('0' as int + d) as char
  }

  /** `str(n)` for a non-negative Python int: decimal digits, no leading zero. */
  function NatText(n: nat): (s: string)
    ensures 0 < |s|
    ensures forall i :: 0 <= i < |s| ==> '0' <= s[i] <= '9'
    ensures |s| > 1 ==> s[0] != '0'
  {
    if n < 10 then [DigitChar(n)] else NatText(n / 10) + [DigitChar(n % 10)]
  }

  /** The value of a string of decimal digits: `int(s)`. */
  function DecimalValue(s: string): nat
    requires forall i :: 0 <= i < |s| ==> '0' <= s[i] <= '9'
  {
    if s == [] then 0 else 10 * DecimalValue(s[..|s| - 1]) + (s[|s| - 1] as int - '0' as int)
  }

  /** Reading back the printed index gives the index: `int(str(n)) == n`. */
  lemma {:induction false} DecimalValueNatText(n: nat)
    ensures DecimalValue(NatText(n)) == n
  {
    var s := NatText(n);
    if n >= 10 {
      DecimalValueNatText(n / 10);
      assert s[..|s| - 1] == NatText(n / 10);
    }
  }

  /** Different indices print differently, so names such as `video_0.mp4` and `video_1.mp4`
      never collide. */
  lemma NatTextInjective(m: nat, n: nat)
    requires NatText(m) == NatText(n)
    ensures m == n
  {
    DecimalValueNatText(m);
    DecimalValueNatText(n);
  }
}
