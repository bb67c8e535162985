/** Decimal numerals, as JavaScript spells whole numbers and names array elements. */
module Numerals {

  predicate IsDigits(s: string) {
    forall i :: 0 <= i < |s| ==> '0' <= s[i] <= '9'
  }

  predicate IsIndex(s: string) {
    s == "0" || (|s| > 0 && s[0] != '0' && IsDigits(s))
  }

  function Index(s: string): nat
    requires IsDigits(s)
  {
    if s == [] then 0 else 10 * Index(s[..|s| - 1]) + (s[|s| - 1] as int - '0' as int)
  }

  /** The decimal numeral of a number, as JavaScript names array elements. */
  function Decimal(n: nat): (s: string)
    ensures |s| > 0
  {
    (if n < 10 then [] else Decimal(n / 10)) + [('0' as int + n % 10) as char]
  }

  lemma {:induction false} DecimalIsIndex(n: nat)
    ensures IsIndex(Decimal(n)) && Index(Decimal(n)) == n
    ensures n > 0 ==> Decimal(n)[0] != '0'
  {
    var s := Decimal(n);
    if n >= 10 {
      DecimalIsIndex(n / 10);
      assert s[..|s| - 1] == Decimal(n / 10);
    } else {
      assert s[..0] == [];
    }
  }

  lemma {:induction false} IndexIsDecimal(s: string)
    requires IsIndex(s)
    ensures s[0] != '0' ==> Index(s) > 0
    ensures Decimal(Index(s)) == s
  {
    var front, digit := s[..|s| - 1], s[|s| - 1] as int - '0' as int;
    if |s| == 1 {
      assert Index(front) == 0;
      assert s == [s[0]];
    } else {
      assert front[0] == s[0];
      IndexIsDecimal(front);
      var n := Index(s);
      assert n == 10 * Index(front) + digit && n / 10 == Index(front) && n % 10 == digit;
      assert s == front + [s[|s| - 1]];
    }
  }

  /** An array element is named by the numeral of its number. */
  lemma IndexExactly(s: string, n: nat)
    ensures IsIndex(s) && Index(s) == n <==> s == Decimal(n)
  {
    DecimalIsIndex(n);
    if IsIndex(s) {
      IndexIsDecimal(s);
    }
  }
}
