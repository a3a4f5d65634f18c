/** Go's %d verb, and why a key that embeds one decimal can be read back. */
module Decimal {

  function Digit(d: nat): char
    requires d < 10
  {
    "0123456789"[d]
  }

  function FormatNat(n: nat): (s: string)
    ensures |s| >= 1 && forall c | c in s :: '0' <= c <= '9'
  {
    if n < 10 then [Digit(n)] else FormatNat(n / 10) + [Digit(n % 10)]
  }

  /** fmt.Sprintf("%d", n) */
  function Format(n: int): (s: string)
    ensures |s| >= 1 && forall c | c in s :: '0' <= c <= '9' || c == '-'
  {
    if n < 0 then "-" + FormatNat(-n) else FormatNat(n)
  }

  function ParseNat(s: string): int {
    if s == "" then 0 else 10 * ParseNat(s[..|s| - 1]) + (s[|s| - 1] as int - '0' as int)
  }

  lemma {:induction false} ParseInvertsFormatNat(n: nat)
    ensures ParseNat(FormatNat(n)) == n
  {
    if n >= 10 {
      ParseInvertsFormatNat(n / 10);
      assert FormatNat(n)[..|FormatNat(n)| - 1] == FormatNat(n / 10);
    }
  }

  lemma SignVisible(n: int)
    ensures (n < 0) == (Format(n)[0] == '-')
  {
    if n >= 0 { assert Format(n)[0] in FormatNat(n); }
  }

  lemma FormatInjective(a: int, b: int)
    requires Format(a) == Format(b)
    ensures a == b
  {
    ParseInvertsFormatNat(if a < 0 then -a else a);
    ParseInvertsFormatNat(if b < 0 then -b else b);
    SignVisible(a);
    SignVisible(b);
    assert a < 0 ==> Format(a)[1..] == FormatNat(-a);
    assert b < 0 ==> Format(b)[1..] == FormatNat(-b);
  }

  /** `prefix` + decimal + `suffix` determines the number. */
  lemma EmbeddedInjective(prefix: string, a: int, b: int, suffix: string)
    requires prefix + Format(a) + suffix == prefix + Format(b) + suffix
    ensures a == b
  {
    var s, t := prefix + Format(a) + suffix, prefix + Format(b) + suffix;
    assert Format(a) == s[|prefix|..|s| - |suffix|];
    assert Format(b) == t[|prefix|..|t| - |suffix|];
    FormatInjective(a, b);
  }

  /** In `name`_`number` the last underscore is the separator, whatever the names hold. */
  lemma TaggedInjective(name1: string, n1: int, name2: string, n2: int)
    requires name1 + "_" + Format(n1) == name2 + "_" + Format(n2)
    ensures name1 == name2 && n1 == n2
  {
    if |Format(n1)| < |Format(n2)| {
      SeparatorDiffers(name1, n1, name2, n2);
    } else if |Format(n2)| < |Format(n1)| {
      SeparatorDiffers(name2, n2, name1, n1);
    }
    var s, t := name1 + "_" + Format(n1), name2 + "_" + Format(n2);
    assert name1 == s[..|name1|] && name2 == t[..|name2|];
    assert Format(n1) == s[|name1| + 1..] && Format(n2) == t[|name2| + 1..];
    FormatInjective(n1, n2);
  }

  lemma SeparatorDiffers(name1: string, n1: int, name2: string, n2: int)
    requires |Format(n1)| < |Format(n2)| && |name1| + |Format(n1)| == |name2| + |Format(n2)|
    ensures (name1 + "_" + Format(n1))[|name1|] != (name2 + "_" + Format(n2))[|name1|]
  {
    var t := name2 + "_" + Format(n2);
    assert t[|name1|] == Format(n2)[|name1| - |name2| - 1];
    assert t[|name1|] in Format(n2);
  }
}
