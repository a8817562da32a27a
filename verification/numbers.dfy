/** The two numeric conversions the monitor applies to sensor text: Python's
    `int(s)` for fan speeds and `float(s)` for temperatures, restricted to
    ASCII decimal notation. Both are partial: `None` is the `ValueError`. */
module Numbers {
  import opened Common

  predicate IsDigit(c: char) {
    '0' <= c <= '9'
  }

  predicate AllDigits(s: string) {
    forall i :: 0 <= i < |s| ==> IsDigit(s[i])
  }

  function DigitValue(c: char): nat
    requires IsDigit(c)
  {
    (c as int) - ('0' as int)
  }

  function DigitChar(d: nat): (c: char)
    requires d < 10
    ensures IsDigit(c) && DigitValue(c) == d
  {
    ('0' as int + d) as char
  }

  /** The value of a string of decimal digits, most significant first. */
  function DigitsValue(ds: string): nat
    requires AllDigits(ds)
  {
    if ds == [] then 0 else DigitsValue(ds[..|ds| - 1]) * 10 + DigitValue(ds[|ds| - 1])
  }

  function Pow10(n: nat): (p: nat)
    ensures p >= 1
  {
    if n == 0 then 1 else 10 * Pow10(n - 1)
  }

  /** Python's `str(n)` for a natural number: shortest decimal digits. */
  function NatToDigits(n: nat): (ds: string)
    ensures AllDigits(ds) && ds != []
    decreases n
  {
    if n < 10 then [DigitChar(n)] else NatToDigits(n / 10) + [DigitChar(n % 10)]
  }

  /** Python's `str(n)` for an integer. */
  function FormatInt(n: int): string {
    if n < 0 then "-" + NatToDigits(-n) else NatToDigits(n)
  }

  /** The sign prefix Python accepts in front of a number: its length and factor. */
  function SignLength(s: string): (k: nat)
    ensures k <= 1 && k <= |s|
  {
    if s != [] && (s[0] == '+' || s[0] == '-') then 1 else 0
  }

  function SignFactor(s: string): int {
    if s != [] && s[0] == '-' then -1 else 1
  }

  /** Python's `int(s)` on an already stripped string: an optional sign then
      one or more decimal digits; anything else is a `ValueError` (`None`). */
  function ParseInt(s: string): (r: Option<int>)
    ensures r.Some? <==> (|s| > SignLength(s) && AllDigits(s[SignLength(s)..]))
    ensures r.Some? && SignFactor(s) == 1 ==> r.value >= 0
  {
    var body := s[SignLength(s)..];
    if body != [] && AllDigits(body) then Some(SignFactor(s) * DigitsValue(body)) else None
  }

  /** The position of the first `c` in `s`, or `|s|` when there is none. */
  function IndexOf(s: string, c: char): (k: nat)
    ensures k <= |s|
    ensures forall i :: 0 <= i < k ==> s[i] != c
    ensures k < |s| ==> s[k] == c
  {
    if s == [] then 0 else if s[0] == c then 0 else 1 + IndexOf(s[1..], c)
  }

  /** Plain decimal notation without a sign: digits and at most one point, with
      at least one digit somewhere. */
  predicate DecimalText(b: string) {
    && (exists i :: 0 <= i < |b| && IsDigit(b[i]))
    && (forall i :: 0 <= i < |b| ==> IsDigit(b[i]) || b[i] == '.')
    && (forall i, j :: 0 <= i < j < |b| && b[i] == '.' ==> b[j] != '.')
  }

  /** An unsigned decimal `digits`, `digits.digits`, `digits.` or `.digits`. */
  function ParseUnsignedDecimal(b: string): (r: Option<real>)
    ensures r.Some? ==> r.value >= 0.0
  {
    var k := IndexOf(b, '.');
    if k == |b| then
      if b != [] && AllDigits(b) then Some(DigitsValue(b) as real) else None
    else
      var whole := b[..k];
      var frac := b[k + 1..];
      if (whole != [] || frac != []) && AllDigits(whole) && AllDigits(frac) then
        Some(DigitsValue(whole) as real + (DigitsValue(frac) as real) / (Pow10(|frac|) as real))
      else
        None
  }

  /** Python's `float(s)` on an already stripped string, for plain decimal
      notation: an optional sign, then decimal text. */
  function ParseFloat(s: string): (r: Option<real>)
    ensures r.Some? ==> |s| > SignLength(s)
    ensures r.Some? && SignFactor(s) == 1 ==> r.value >= 0.0
  {
    match ParseUnsignedDecimal(s[SignLength(s)..])
    case None => None
    case Some(v) => Some(SignFactor(s) as real * v)
  }

  /** `float(s)` accepts exactly an optional sign followed by decimal text. */
  lemma ParseFloatAccepts(s: string)
    ensures ParseFloat(s).Some? <==> DecimalText(s[SignLength(s)..])
  {
    var b := s[SignLength(s)..];
    var k := IndexOf(b, '.');
    if k == |b| {
      DecimalWithoutPoint(b);
    } else {
      DecimalAroundPoint(b, k);
    }
  }

  /** Text without a point is decimal text exactly when it is a non-empty digit string. */
  lemma DecimalWithoutPoint(b: string)
    requires IndexOf(b, '.') == |b|
    ensures DecimalText(b) <==> b != [] && AllDigits(b)
  {
    if b != [] && AllDigits(b) {
      assert IsDigit(b[0]);
    }
    if DecimalText(b) {
      forall i | 0 <= i < |b|
        ensures IsDigit(b[i])
      {
        assert b[i] != '.';
      }
    }
  }

  /** Text whose first point is at `k` is decimal text exactly when the two
      sides of the point are digit strings, not both empty. */
  lemma DecimalAroundPoint(b: string, k: nat)
    requires k < |b| && IndexOf(b, '.') == k
    ensures DecimalText(b) <==>
              (b[..k] != [] || b[k + 1..] != []) && AllDigits(b[..k]) && AllDigits(b[k + 1..])
  {
    var whole, frac := b[..k], b[k + 1..];
    if DecimalText(b) {
      DecimalSides(b, k);
    }
    if (whole != [] || frac != []) && AllDigits(whole) && AllDigits(frac) {
      forall i | 0 <= i < |b| && i != k
        ensures IsDigit(b[i])
      {
        if i < k {
          assert b[i] == whole[i];
        } else {
          assert b[i] == frac[i - k - 1];
        }
      }
      if whole != [] {
        assert IsDigit(b[0]);
      } else {
        assert b[k + 1] == frac[0];
      }
    }
  }

  lemma DecimalSides(b: string, k: nat)
    requires k < |b| && IndexOf(b, '.') == k && DecimalText(b)
    ensures b[..k] != [] || b[k + 1..] != []
    ensures AllDigits(b[..k]) && AllDigits(b[k + 1..])
  {
    var whole, frac := b[..k], b[k + 1..];
    forall i | 0 <= i < |whole|
      ensures IsDigit(whole[i])
    {
      assert whole[i] == b[i] != '.';
    }
    forall i | 0 <= i < |frac|
      ensures IsDigit(frac[i])
    {
      assert b[k] == '.' && k < k + 1 + i;
      assert frac[i] == b[k + 1 + i] != '.';
    }
    var d :| 0 <= d < |b| && IsDigit(b[d]);
    if d < k {
      assert whole[d] == b[d];
    } else {
      assert d > k;
      assert frac[d - k - 1] == b[d];
    }
  }

  lemma {:induction false} DigitsValueAppend(ds: string, c: char)
    requires AllDigits(ds) && IsDigit(c)
    ensures AllDigits(ds + [c])
    ensures DigitsValue(ds + [c]) == DigitsValue(ds) * 10 + DigitValue(c)
  {
    assert (ds + [c])[..|ds + [c]| - 1] == ds;
  }

  /** Reading back the digits of a natural number gives the number. */
  lemma {:induction false} NatDigitsRoundTrip(n: nat)
    ensures DigitsValue(NatToDigits(n)) == n
    decreases n
  {
    if n >= 10 {
      NatDigitsRoundTrip(n / 10);
      DigitsValueAppend(NatToDigits(n / 10), DigitChar(n % 10));
    }
  }

  /** `int(str(n)) == n` for every integer. */
  lemma IntRoundTrip(n: int)
    ensures ParseInt(FormatInt(n)) == Some(n)
  {
    var s := FormatInt(n);
    if n < 0 {
      var ds := NatToDigits(-n);
      NatDigitsRoundTrip(-n);
      assert s == "-" + ds;
      assert SignLength(s) == 1 && SignFactor(s) == -1;
      assert s[1..] == ds;
      assert ParseInt(s) == Some(-1 * DigitsValue(ds));
    } else {
      var ds := NatToDigits(n);
      NatDigitsRoundTrip(n);
      assert IsDigit(ds[0]);
      assert SignLength(s) == 0 && SignFactor(s) == 1;
      assert s[0..] == ds;
      assert ParseInt(s) == Some(1 * DigitsValue(ds));
    }
  }

  /** A string without a digit in it never converts. */
  lemma NoDigitNoInt(s: string)
    requires forall i :: 0 <= i < |s| ==> !IsDigit(s[i])
    ensures ParseInt(s) == None
    ensures ParseFloat(s) == None
  {
    var b := s[SignLength(s)..];
    if b != [] {
      assert !IsDigit(b[0]);
      var k := IndexOf(b, '.');
      if k < |b| {
        var whole, frac := b[..k], b[k + 1..];
        if whole != [] {
          assert !IsDigit(whole[0]);
        } else if frac != [] {
          assert frac[0] == b[k + 1];
          assert !IsDigit(frac[0]);
        }
      }
    }
  }

  /** `float(s)` agrees with `int(s)` on every integer literal. */
  lemma FloatAgreesWithInt(s: string)
    requires ParseInt(s).Some?
    ensures ParseFloat(s) == Some(ParseInt(s).value as real)
  {
    var b := s[SignLength(s)..];
    NoDotInDigits(b);
  }

  lemma {:induction false} NoDotInDigits(b: string)
    requires AllDigits(b)
    ensures IndexOf(b, '.') == |b|
    decreases |b|
  {
    if b != [] {
      NoDotInDigits(b[1..]);
    }
  }
}
