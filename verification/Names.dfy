/**
 Generated names: a prefix, an underscore and the decimal value of a 32-bit counter.
 */
module Names {

  const WRAP := 0x1_0000_0000

  function Digit(d: nat): char
    requires d < 10
  {
    "0123456789"[d]
  }

  function Decimal(n: nat): (s: string)
    ensures |s| > 0 && '_' !in s
  {
    if n < 10 then [Digit(n)] else Decimal(n / 10) + [Digit(n % 10)]
  }

  lemma {:induction false} DecimalInjective(m: nat, n: nat)
    requires Decimal(m) == Decimal(n)
    ensures m == n
  {
    var s := Decimal(m);
    var last := s[|s| - 1];
    if m < 10 && n < 10 {
      assert Digit(m) == Digit(n);
    } else if m < 10 || n < 10 {
      assert false;
    } else {
      assert s[..|s| - 1] == Decimal(m / 10) && s[..|s| - 1] == Decimal(n / 10);
      DecimalInjective(m / 10, n / 10);
      assert last == Digit(m % 10) == Digit(n % 10);
    }
  }

  function Name(prefix: string, n: nat): string {
    prefix + "_" + Decimal(n)
  }

  /** One of the first `issued` names, whatever its prefix. */
  ghost predicate Generated(name: string, issued: nat) {
    exists prefix: string, k: nat :: k < issued && name == Name(prefix, k)
  }

  lemma UnderscoreAt(prefix: string, n: nat)
    ensures var s, d := Name(prefix, n), Decimal(n);
            s[|s| - |d| - 1] == '_' && s[|s| - |d|..] == d
  {
    assert Name(prefix, n) == prefix + ("_" + Decimal(n));
  }

  /** The digits after the last underscore tell the length of the counter. */
  lemma SameLengths(p: string, m: nat, q: string, n: nat)
    requires Name(p, m) == Name(q, n)
    ensures |Decimal(m)| >= |Decimal(n)|
  {
    UnderscoreAt(p, m);
    UnderscoreAt(q, n);
    SuffixClean(Name(q, n), Decimal(n));
  }

  lemma SuffixClean(s: string, d: string)
    requires |d| <= |s| && s[|s| - |d|..] == d && '_' !in d
    ensures forall i :: |s| - |d| <= i < |s| ==> s[i] != '_'
  {
    forall i | |s| - |d| <= i < |s| ensures s[i] != '_' {
      assert s[i] == d[i - (|s| - |d|)];
    }
  }

  /** Different counter values give different names, whatever the prefixes. */
  lemma NamesDiffer(p: string, m: nat, q: string, n: nat)
    requires m != n
    ensures Name(p, m) != Name(q, n)
  {
    if Name(p, m) == Name(q, n) {
      SameLengths(p, m, q, n);
      SameLengths(q, n, p, m);
      UnderscoreAt(p, m);
      UnderscoreAt(q, n);
      DecimalInjective(m, n);
    }
  }

  /** Different prefixes give different names. */
  lemma PrefixesDiffer(p: string, q: string, n: nat)
    requires p != q
    ensures Name(p, n) != Name(q, n)
  {
    PrefixOf(p, n);
    PrefixOf(q, n);
  }

  lemma PrefixOf(p: string, n: nat)
    ensures |Name(p, n)| > |Decimal(n)| && Name(p, n)[..|Name(p, n)| - |Decimal(n)| - 1] == p
  {
    assert Name(p, n) == p + ("_" + Decimal(n));
  }

  /** The number that digits stand for. */
  function NumberOf(digits: string): nat
    requires forall i :: 0 <= i < |digits| ==> '0' <= digits[i] <= '9'
  {
    if digits == "" then 0 else NumberOf(digits[..|digits| - 1]) * 10 + (digits[|digits| - 1] - '0') as int
  }

  lemma {:induction false} DecimalIsNumber(n: nat)
    ensures forall i :: 0 <= i < |Decimal(n)| ==> '0' <= Decimal(n)[i] <= '9'
    ensures NumberOf(Decimal(n)) == n && (n > 0 ==> Decimal(n)[0] != '0')
  {
    if n >= 10 {
      DecimalIsNumber(n / 10);
      assert Decimal(n)[..|Decimal(n)| - 1] == Decimal(n / 10);
    }
  }

  /** The counter behind the names; `issued` counts all calls, `counter` wraps at 32 bits. */
  class NameGenerator {
    var counter: nat
    ghost var issued: nat

    ghost predicate Valid()
      reads this
    {
      counter == issued % WRAP
    }

    constructor ()
      ensures Valid() && issued == 0
    {
      counter := 0;
      issued := 0;
    }

    method Next(prefix: string) returns (name: string)
      requires Valid()
      modifies this
      ensures Valid() && issued == old(issued) + 1
      ensures name == Name(prefix, old(issued) % WRAP)
    {
      name := Name(prefix, counter);
      counter := (counter + 1) % WRAP;
      issued := issued + 1;
    }
  }
}
