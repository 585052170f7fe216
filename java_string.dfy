/** The two pieces of `java.lang` the service relies on: `String.compareTo`,
    which orders locations by business name, and `Long.toString`, which writes
    an id into a not-found message. */
module JavaString {

  /** `String.compareTo`: at the first index where the strings differ, the
      difference of the two characters; when one is a prefix of the other, the
      difference of the lengths. A proper prefix therefore sorts first. */
  function CompareTo(a: string, b: string): (r: int)
    ensures a < b ==> r < 0
    ensures b < a ==> r > 0
    decreases |a|
  {
    if |a| == 0 || |b| == 0 then |a| - |b|
    else if a[0] != b[0] then a[0] as int - b[0] as int
    else CompareTo(a[1..], b[1..])
  }

  /** `a` sorts no later than `b` under `String.compareTo`. */
  predicate NotAfter(a: string, b: string)
  {
    CompareTo(a, b) <= 0
  }

  /** `compareTo` is zero exactly on equal strings. */
  lemma {:induction false} CompareToZeroIff(a: string, b: string)
    ensures CompareTo(a, b) == 0 <==> a == b
    decreases |a|
  {
    if |a| != 0 && |b| != 0 && a[0] == b[0] {
      CompareToZeroIff(a[1..], b[1..]);
      if a[1..] == b[1..] {
        assert a == [a[0]] + a[1..] && b == [b[0]] + b[1..];
      }
    }
  }

  /** Swapping the arguments negates the result. */
  lemma {:induction false} CompareToAntisymmetric(a: string, b: string)
    ensures CompareTo(b, a) == -CompareTo(a, b)
    decreases |a|
  {
    if |a| != 0 && |b| != 0 && a[0] == b[0] {
      CompareToAntisymmetric(a[1..], b[1..]);
    }
  }

  /** Any two strings are ordered one way or the other. */
  lemma CompareToTotal(a: string, b: string)
    ensures NotAfter(a, b) || NotAfter(b, a)
  {
    CompareToAntisymmetric(a, b);
  }

  /** `NotAfter` is transitive, so sorting by it is well defined. */
  lemma {:induction false} CompareToTransitive(a: string, b: string, c: string)
    requires NotAfter(a, b) && NotAfter(b, c)
    ensures NotAfter(a, c)
    decreases |a|
  {
    if |a| != 0 && |b| != 0 && |c| != 0 {
      if a[0] == b[0] && b[0] == c[0] {
        CompareToTransitive(a[1..], b[1..], c[1..]);
      }
    }
  }

  /** The decimal digit for `d`. */
  function Digit(d: nat): (c: char)
    requires d < 10
    ensures '0' <= c <= '9' && (c as int) - ('0' as int) == d
  {
    ['0', '1', '2', '3', '4', '5', '6', '7', '8', '9'][d]
  }

  /** The decimal digits of `n`, most significant first, without leading
      zeros. */
  function DecimalDigits(n: nat): (s: string)
    ensures |s| >= 1 && forall i :: 0 <= i < |s| ==> '0' <= s[i] <= '9'
    ensures |s| > 1 ==> s[0] != '0'
  {
    if n < 10 then [Digit(n)] else DecimalDigits(n / 10) + [Digit(n % 10)]
  }

  /** `Long.toString`: an optional minus sign and the decimal digits. */
  function LongToString(n: int): (s: string)
    ensures |s| >= 1
    ensures s[0] == '-' <==> n < 0
  {
    if n < 0 then "-" + DecimalDigits(-n) else DecimalDigits(n)
  }

  /** Distinct numbers have distinct decimal digits. */
  lemma {:induction false} DecimalDigitsInjective(m: nat, n: nat)
    requires DecimalDigits(m) == DecimalDigits(n)
    ensures m == n
    decreases m
  {
    var s := DecimalDigits(m);
    if m < 10 && n < 10 {
      assert s[0] == Digit(m) && s[0] == Digit(n);
    } else if m >= 10 && n >= 10 {
      var pm, pn := DecimalDigits(m / 10), DecimalDigits(n / 10);
      assert s == pm + [Digit(m % 10)] && s == pn + [Digit(n % 10)];
      assert |pm| == |pn|;
      assert pm == s[..|s| - 1] == pn;
      DecimalDigitsInjective(m / 10, n / 10);
      assert Digit(m % 10) == s[|s| - 1] == Digit(n % 10);
    }
  }

  /** Distinct ids are written differently. */
  lemma LongToStringInjective(m: int, n: int)
    requires LongToString(m) == LongToString(n)
    ensures m == n
  {
    var s := LongToString(m);
    if m < 0 {
      assert s[1..] == DecimalDigits(-m) == DecimalDigits(-n);
      DecimalDigitsInjective(-m, -n);
    } else {
      DecimalDigitsInjective(m, n);
    }
  }
}
