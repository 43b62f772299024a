/** Small building blocks shared by every model: optional values, results
    that carry the error the Python code would raise, and the handful of
    Python numeric and text conversions the source relies on. */
module Base {

  datatype Option<+T> = None | Some(value: T)

  /** A value, or the exception the Python code would raise instead. */
  datatype Result<+T, +E> = Ok(value: T) | Err(error: E)

  /** Python's `int(x)` on a float: truncation toward zero. */
  function Trunc(x: real): (r: int)
    ensures 0.0 <= x ==> 0 <= r && r as real <= x < r as real + 1.0
    ensures x < 0.0 ==> r <= 0 && r as real - 1.0 < x <= r as real
  {
    if x >= 0.0 then x.Floor else -((-x).Floor)
  }

  /** A product of non-negative reals is non-negative. */
  lemma MulNonNegative(a: real, b: real)
    requires 0.0 <= a && 0.0 <= b
    ensures 0.0 <= a * b
  {
  }

  /** On non-negative integers `int(a / b)` is integer division. */
  lemma TruncOfQuotient(a: int, b: int)
    requires a >= 0 && b > 0
    ensures Trunc(a as real / b as real) == a / b
  {
    var d, r := a / b, a % b;
    assert a as real == d as real * b as real + r as real;
    var q := a as real / b as real;
    assert q * b as real == a as real;
    assert q == d as real + r as real / b as real;
    assert 0.0 <= r as real / b as real < 1.0;
  }

  /** A prefix one longer is the shorter prefix and the next element. */
  lemma PrefixSnoc<T>(s: seq<T>, n: nat)
    requires 0 < n <= |s|
    ensures s[..n - 1] + [s[n - 1]] == s[..n]
  {
  }

  function Digit(d: nat): (c: char)
    requires d < 10
    ensures '0' <= c <= '9'
  {
    ('0' as int + d) as char
  }

  /** Decimal digits of a natural number, most significant first. */
  function Digits(n: nat): (s: string)
    ensures |s| >= 1
    ensures n < 10 <==> |s| == 1
    ensures forall k :: 0 <= k < |s| ==> '0' <= s[k] <= '9'
    decreases n
  {
    if n < 10 then [Digit(n)] else Digits(n / 10) + [Digit(n % 10)]
  }

  /** Python's `str(n)` for an int. */
  function IntToString(n: int): (s: string)
    ensures |s| >= 1
    ensures s[0] == '-' <==> n < 0
  {
    if n < 0 then "-" + Digits(-n) else Digits(n)
  }

  lemma {:induction false} DigitsInjective(a: nat, b: nat)
    requires Digits(a) == Digits(b)
    ensures a == b
    decreases a
  {
    if a >= 10 && b >= 10 {
      var sa, sb := Digits(a), Digits(b);
      var ha, hb := Digits(a / 10), Digits(b / 10);
      assert sa == ha + [Digit(a % 10)] && sb == hb + [Digit(b % 10)];
      assert |ha| == |hb|;
      assert sa[..|ha|] == ha && sb[..|hb|] == hb;
      DigitsInjective(a / 10, b / 10);
      assert sa[|ha|] == Digit(a % 10) && sb[|hb|] == Digit(b % 10);
    } else if a < 10 && b < 10 {
      assert Digits(a)[0] == Digit(a) && Digits(b)[0] == Digit(b);
    }
  }

  /** Distinct numbers print differently, so ids built from them differ. */
  lemma IntToStringInjective(a: int, b: int)
    requires IntToString(a) == IntToString(b)
    ensures a == b
  {
    var sa, sb := IntToString(a), IntToString(b);
    if a < 0 {
      assert b < 0 by {
        assert sb[0] == sa[0] == '-';
      }
      assert sa == "-" + Digits(-a) && sb == "-" + Digits(-b);
      assert sa[1..] == Digits(-a) && sb[1..] == Digits(-b);
      DigitsInjective(-a, -b);
    } else {
      assert b >= 0 by {
        assert sb[0] == sa[0] != '-';
      }
      DigitsInjective(a, b);
    }
  }
}
