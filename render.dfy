/** Python's `str()` of the scalar values an id can hold, and
    `str.format` on a path template with one named placeholder, as used by
    `get_url` to build `/deals/{deal_id}/associated_contacts`. */
module Render {
  import opened Values

  /** The values whose `str()` the model renders: None, booleans, integers
      and strings. */
  predicate Scalar(v: Value) {
    v.Null? || v.Bool? || v.Int? || v.Str?
  }

  function DigitChar(d: nat): (c: char)
    requires d < 10
    ensures '0' <= c <= '9'
  {
    ('0' as int + d) as char
  }

  function DigitValue(c: char): (d: nat)
    requires '0' <= c <= '9'
    ensures d < 10 && DigitChar(d) == c
  {
    c as int - '0' as int
  }

  predicate AllDigits(s: string) {
    forall i :: 0 <= i < |s| ==> '0' <= s[i] <= '9'
  }

  /** The decimal digits of `n`, most significant first, without leading zeros. */
  function NatText(n: nat): (s: string)
    ensures |s| >= 1 && AllDigits(s)
    ensures n >= 10 ==> s[0] != '0'
    decreases n
  {
    if n < 10 then [DigitChar(n)] else NatText(n / 10) + [DigitChar(n % 10)]
  }

  /** `str(i)` for an int: an optional minus sign, then the digits. */
  function IntText(i: int): string {
    if i < 0 then "-" + NatText(-i) else NatText(i)
  }

  /** `str(v)` for a scalar. */
  function Text(v: Value): string
    requires Scalar(v)
  {
    match v
    case Null => "None"
    case Bool(b) => if b then "True" else "False"
    case Int(i) => IntText(i)
    case Str(s) => s
  }

  /** `int(s)` on a string of decimal digits, optionally signed. */
  function ParseNat(s: string): nat
    requires AllDigits(s)
    decreases |s|
  {
    if s == [] then 0 else ParseNat(s[..|s| - 1]) * 10 + DigitValue(s[|s| - 1])
  }

  function ParseInt(s: string): int
    requires |s| >= 1
    requires s[0] == '-' ==> AllDigits(s[1..])
    requires s[0] != '-' ==> AllDigits(s)
  {
    if s[0] == '-' then -(ParseNat(s[1..]) as int) else ParseNat(s)
  }

  lemma {:induction false} NatTextRoundTrip(n: nat)
    ensures ParseNat(NatText(n)) == n
    decreases n
  {
    var s := NatText(n);
    if n < 10 {
      assert s[..0] == [];
    } else {
      NatTextRoundTrip(n / 10);
      assert s[..|s| - 1] == NatText(n / 10);
      assert DigitValue(s[|s| - 1]) == n % 10;
      assert n == n / 10 * 10 + n % 10;
    }
  }

  /** Reading back the decimal text of an integer gives the integer. */
  lemma IntTextRoundTrip(i: int)
    ensures |IntText(i)| >= 1
    ensures IntText(i)[0] == '-' ==> AllDigits(IntText(i)[1..])
    ensures IntText(i)[0] != '-' ==> AllDigits(IntText(i))
    ensures ParseInt(IntText(i)) == i
  {
    if i < 0 {
      var s := IntText(i);
      NatTextRoundTrip(-i);
      assert s[0] == '-';
      assert s[1..] == NatText(-i);
    } else {
      var s := NatText(i);
      NatTextRoundTrip(i);
      assert '0' <= s[0] <= '9';
    }
  }

  /** Distinct integers have distinct decimal texts. */
  lemma IntTextInjective(i: int, j: int)
    requires IntText(i) == IntText(j)
    ensures i == j
  {
    IntTextRoundTrip(i);
    IntTextRoundTrip(j);
  }

  /** A path template `before{field}after`. */
  datatype Template = Template(before: string, field: string, after: string)

  /** `template.format(field=v)`. */
  function Format(t: Template, v: Value): (s: string)
    requires Scalar(v)
    ensures |s| == |t.before| + |Text(v)| + |t.after|
    ensures s[..|t.before|] == t.before
    ensures s[|s| - |t.after|..] == t.after
    ensures s[|t.before|..|s| - |t.after|] == Text(v)
  {
    t.before + Text(v) + t.after
  }
}
