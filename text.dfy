/** Decimal formatting of natural numbers (Python's f"{n}") and the facts that
    make formatted identifiers unambiguous. */
module Text {

  import opened Seqs

  function DigitChar(d: nat): (c: char)
    requires d < 10
    ensures '0' <= c <= '9'
  {
    (48 + d) as char
  }

  /** The decimal representation of `n`, without leading zeros. */
  function NatToString(n: nat): (s: string)
    ensures |s| >= 1
    ensures n >= 10 ==> |s| >= 2
    ensures forall i :: 0 <= i < |s| ==> '0' <= s[i] <= '9'
  {
    if n < 10 then [DigitChar(n)] else NatToString(n / 10) + [DigitChar(n % 10)]
  }

  /** Distinct numbers print differently. */
  lemma {:induction false} NatToStringInjective(a: nat, b: nat)
    requires NatToString(a) == NatToString(b)
    ensures a == b
  {
    if a >= 10 && b >= 10 {
      var sa, sb := NatToString(a), NatToString(b);
      assert sa[..|sa| - 1] == NatToString(a / 10);
      assert sb[..|sb| - 1] == NatToString(b / 10);
      NatToStringInjective(a / 10, b / 10);
      assert DigitChar(a % 10) == DigitChar(b % 10);
    }
  }

  /** A decimal representation never contains the separator '_'. */
  lemma NoUnderscoreInNumber(n: nat)
    ensures '_' !in NatToString(n)
  {
  }

  /** The first separator of `a + [sep] + r` is the one after `a`. */
  lemma SeparatorPosition(a: string, r: string, sep: char)
    requires sep !in a
    ensures sep in a + [sep] + r && FirstIndex(a + [sep] + r, sep) == |a|
  {
    var s := a + [sep] + r;
    assert s[|a|] == sep;
    var k := FirstIndex(s, sep);
    assert forall j :: 0 <= j < |a| ==> s[j] == a[j];
  }

  /** Splitting at the first occurrence of a separator is unambiguous. */
  lemma SplitAtSeparator(a1: string, r1: string, a2: string, r2: string, sep: char)
    requires sep !in a1 && sep !in a2
    requires a1 + [sep] + r1 == a2 + [sep] + r2
    ensures a1 == a2 && r1 == r2
  {
    var s, t := a1 + [sep] + r1, a2 + [sep] + r2;
    SeparatorPosition(a1, r1, sep);
    SeparatorPosition(a2, r2, sep);
    assert a1 == s[..|a1|];
    assert a2 == t[..|a2|];
    assert r1 == s[|a1| + 1..];
    assert r2 == t[|a2| + 1..];
  }
}
