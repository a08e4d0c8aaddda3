/** Shuttle identifiers "S0", "S1", ...: written by the generator with
    Python's `f"S{i}"` and looked up by the reader with `snprintf("S%d")`.
    Both print a non-negative integer in plain decimal. */
module ShuttleKeys {

  function DigitChar(d: nat): (c: char)
    requires d < 10
    ensures '0' <= c <= '9'
  {
    ('0' as int + d) as char
  }

  /** Decimal text of a natural number, without leading zeros. */
  function NatToString(n: nat): (s: string)
    ensures |s| >= 1
    ensures |s| == 1 <==> n < 10
    ensures forall k :: 0 <= k < |s| ==> '0' <= s[k] <= '9'
    decreases n
  {
    if n < 10 then [DigitChar(n)] else NatToString(n / 10) + [DigitChar(n % 10)]
  }

  /** Different numbers print differently. */
  lemma {:induction false} NatToStringInjective(a: nat, b: nat)
    requires NatToString(a) == NatToString(b)
    ensures a == b
    decreases a
  {
    var s := NatToString(a);
    if a < 10 || b < 10 {
      assert a < 10 && b < 10;
      assert s[0] == DigitChar(a) && s[0] == DigitChar(b);
    } else {
      assert s[..|s| - 1] == NatToString(a / 10);
      assert NatToString(b)[..|s| - 1] == NatToString(b / 10);
      assert s[|s| - 1] == DigitChar(a % 10);
      assert NatToString(b)[|s| - 1] == DigitChar(b % 10);
      NatToStringInjective(a / 10, b / 10);
    }
  }

  /** The member name of the i-th shuttle. */
  function ShuttleKey(i: nat): (k: string)
    ensures |k| >= 2 && k[0] == 'S'
  {
    "S" + NatToString(i)
  }

  /** Distinct shuttle indices get distinct member names. */
  lemma ShuttleKeyInjective()
    ensures forall i: nat, j: nat :: ShuttleKey(i) == ShuttleKey(j) ==> i == j
  {
    forall i: nat, j: nat | ShuttleKey(i) == ShuttleKey(j)
      ensures i == j
    {
      assert NatToString(i) == ShuttleKey(i)[1..];
      assert NatToString(j) == ShuttleKey(j)[1..];
      NatToStringInjective(i, j);
    }
  }
}
