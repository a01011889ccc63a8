/**
 * String building used by the job: `Array.prototype.join`, the decimal
 * form of a non-negative index (what `'' + i` gives in JavaScript), and
 * the facts needed to take such strings apart again.
 */
module Text {

  /** `parts.join(sep)`: the parts with `sep` between neighbouring ones. */
  function Join(parts: seq<string>, sep: string): string
  {
    if |parts| == 0 then ""
    else if |parts| == 1 then parts[0]
    else parts[0] + sep + Join(parts[1..], sep)
  }

  /**
   * A join is empty for no parts; otherwise it starts with the first part,
   * followed by the separator when there is more than one, and ends with
   * the last part.
   */
  lemma {:induction false} JoinEnds(parts: seq<string>, sep: string)
    ensures var r := Join(parts, sep);
      && (parts == [] ==> r == "")
      && (parts != [] ==> |parts[0]| <= |r| && r[..|parts[0]|] == parts[0])
      && (|parts| > 1 ==> |parts[0]| + |sep| <= |r| && r[|parts[0]|..|parts[0]| + |sep|] == sep)
      && (parts != [] ==> |parts[|parts| - 1]| <= |r| && r[|r| - |parts[|parts| - 1]|..] == parts[|parts| - 1])
  {
    if |parts| > 1 {
      var rest := Join(parts[1..], sep);
      JoinEnds(parts[1..], sep);
      assert parts[1..][|parts[1..]| - 1] == parts[|parts| - 1];
      assert Join(parts, sep) == parts[0] + sep + rest;
    }
  }

  /** Joining three parts. */
  lemma Join3(a: string, b: string, c: string, sep: string)
    ensures Join([a, b, c], sep) == a + sep + b + sep + c
  {
    assert [a, b, c][1..] == [b, c];
    assert [b, c][1..] == [c];
    assert Join([b, c], sep) == b + sep + c;
    assert a + sep + (b + sep + c) == a + sep + b + sep + c;
  }

  /** Joining four parts. */
  lemma Join4(a: string, b: string, c: string, d: string, sep: string)
    ensures Join([a, b, c, d], sep) == a + sep + b + sep + c + sep + d
  {
    assert [a, b, c, d][1..] == [b, c, d];
    Join3(b, c, d, sep);
    assert a + sep + (b + sep + c + sep + d) == a + sep + b + sep + c + sep + d;
  }

  function Digit(d: nat): (c: char)
    requires d < 10
    ensures '0' <= c <= '9'
    ensures c as int - '0' as int == d
  {
    ('0' as int + d) as char
  }

  /** The decimal representation of `n`, without leading zeros. */
  function Decimal(n: nat): (r: string)
    ensures 1 <= |r|
    ensures |r| == 1 <==> n < 10
    ensures forall c :: c in r ==> '0' <= c <= '9'
    ensures r[0] == '0' ==> n == 0
  {
    if n < 10 then [Digit(n)] else Decimal(n / 10) + [Digit(n % 10)]
  }

  /** The value of a string of decimal digits (the reading direction of `Decimal`). */
  function DecimalValue(s: string): nat
  {
    if s == [] then 0
    else
      var d := s[|s| - 1] as int - '0' as int;
      DecimalValue(s[..|s| - 1]) * 10 + (if 0 <= d then d else 0)
  }

  /** Reading back a decimal representation gives the number it was made from. */
  lemma {:induction false} DecimalRoundTrip(n: nat)
    ensures DecimalValue(Decimal(n)) == n
  {
    if n >= 10 {
      var s := Decimal(n);
      assert s[..|s| - 1] == Decimal(n / 10);
      DecimalRoundTrip(n / 10);
    }
  }

  /** Different numbers have different decimal representations. */
  lemma DecimalInjective(a: nat, b: nat)
    requires Decimal(a) == Decimal(b)
    ensures a == b
  {
    DecimalRoundTrip(a);
    DecimalRoundTrip(b);
  }

  /** In `a + [sep] + b` with no `sep` in `b`, position `|a|` holds the last `sep`. */
  lemma LastSeparator(a: string, b: string, sep: char)
    requires sep !in b
    ensures (a + [sep] + b)[|a|] == sep
    ensures forall k :: |a| < k < |a + [sep] + b| ==> (a + [sep] + b)[k] != sep
  {
    var s := a + [sep] + b;
    forall k | |a| < k < |s|
      ensures s[k] != sep
    {
      assert s[k] == b[k - |a| - 1];
    }
  }

  /**
   * A string split at the last occurrence of a separator character
   * determines both halves: if neither right-hand part contains `sep`,
   * two such splits of the same string coincide.
   */
  lemma SplitAtLast(a: string, b: string, a': string, b': string, sep: char)
    requires a + [sep] + b == a' + [sep] + b'
    requires sep !in b && sep !in b'
    ensures a == a' && b == b'
  {
    var s := a + [sep] + b;
    LastSeparator(a, b, sep);
    LastSeparator(a', b', sep);
    assert |a| == |a'|;
    assert a == s[..|a|] && a' == s[..|a'|];
    assert b == s[|a| + 1..] && b' == s[|a'| + 1..];
  }
}
