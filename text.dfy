// String helpers the storefront relies on: ASCII lower-casing, substring
// search (JavaScript's `includes`) and decimal rendering of numbers.

module Text {

  function LowerChar(c: char): char
  {
    if 'A' <= c <= 'Z' then (c as int + 32) as char else c
  }

  /** `toLowerCase`, restricted to ASCII letters. */
  function Lower(s: string): string
  {
    seq(|s|, i requires 0 <= i < |s| => LowerChar(s[i]))
  }

  /** No ASCII upper-case letter occurs in `s`. */
  predicate IsLowerCase(s: string)
  {
    forall i :: 0 <= i < |s| ==> !('A' <= s[i] <= 'Z')
  }

  lemma LowerIsLowerCase(s: string)
    ensures |Lower(s)| == |s|
    ensures IsLowerCase(Lower(s))
  {
  }

  /** Lower-casing twice is the same as lower-casing once. */
  lemma LowerIdempotent(s: string)
    ensures Lower(Lower(s)) == Lower(s)
  {
    var l := Lower(s);
    assert forall i :: 0 <= i < |l| ==> LowerChar(l[i]) == l[i];
  }

  /** `sub` occurs in `s` starting at position `i`. */
  predicate OccursAt(s: string, sub: string, i: int)
  {
    0 <= i <= |s| - |sub| && s[i..i + |sub|] == sub
  }

  /** `s.includes(sub)`: `sub` occurs in `s` at some position. */
  predicate Includes(s: string, sub: string)
  {
    exists i | 0 <= i <= |s| - |sub| :: OccursAt(s, sub, i)
  }

  /** Every string includes the empty string. */
  lemma IncludesEmpty(s: string)
    ensures Includes(s, "")
  {
    assert OccursAt(s, "", 0);
  }

  function Digit(d: nat): char
    requires d < 10
  {
    (48 + d) as char
  }

  /** The decimal rendering of `n`, as a template literal `${n}` produces it. */
  function NatToString(n: nat): (s: string)
    ensures |s| >= 1
    ensures forall i :: 0 <= i < |s| ==> '0' <= s[i] <= '9'
  {
    if n < 10 then [Digit(n)] else NatToString(n / 10) + [Digit(n % 10)]
  }

  /** Reads a string of decimal digits back as a number. */
  function ParseNat(s: string): nat
    requires forall i :: 0 <= i < |s| ==> '0' <= s[i] <= '9'
  {
    if s == [] then 0 else ParseNat(s[..|s| - 1]) * 10 + (s[|s| - 1] as int - 48)
  }

  /** Decimal rendering round-trips. */
  lemma {:induction false} ParseNatToString(n: nat)
    ensures ParseNat(NatToString(n)) == n
  {
    var s := NatToString(n);
    if n >= 10 {
      assert s[..|s| - 1] == NatToString(n / 10);
      ParseNatToString(n / 10);
    }
  }

  /** Distinct numbers have distinct decimal renderings. */
  lemma NatToStringInjective(m: nat, n: nat)
    requires m != n
    ensures NatToString(m) != NatToString(n)
  {
    ParseNatToString(m);
    ParseNatToString(n);
  }
}
