/** Prices and amounts. Django's DecimalField holds a Python Decimal, which is
    an integer coefficient scaled by a power of ten; the model keeps exactly
    that pair, so no floating point is involved. */
module Money {
  import opened Base

  /** coefficient × 10^(-places) */
  datatype Decimal = Decimal(coefficient: int, places: nat)

  function Pow10(n: nat): (r: nat)
    ensures r >= 1
  {
    if n == 0 then 1 else 10 * Pow10(n - 1)
  }

  lemma {:induction false} Pow10Add(a: nat, b: nat)
    ensures Pow10(a + b) == Pow10(a) * Pow10(b)
    decreases a
  {
    if a > 0 {
      Pow10Add(a - 1, b);
    }
  }

  predicate IsNegative(d: Decimal) { d.coefficient < 0 }

  /** d <= 0 */
  predicate IsNonPositive(d: Decimal) { d.coefficient <= 0 }

  /** The amount `c` cents, as a two-place Decimal. */
  function Cents(c: int): (d: Decimal)
    ensures d.places == 2
  {
    Decimal(c, 2)
  }

  /** Python's int() of the rational a / b: truncation toward zero, which is
      not Dafny's Euclidean division when a is negative. */
  function TruncDiv(a: int, b: int): (q: int)
    requires b > 0
    ensures a >= 0 ==> 0 <= q && q * b <= a < q * b + b
    ensures a < 0 ==> q <= 0 && q * b - b < a <= q * b
  {
    if a >= 0 then
      DivBounds(a, b);
      a / b
    else
      DivBounds(-a, b);
      NegMul((-a) / b, b);
      -((-a) / b)
  }

  /** Euclidean division of a natural number. */
  lemma DivBounds(n: nat, b: int)
    requires b > 0
    ensures 0 <= n / b && (n / b) * b <= n < (n / b) * b + b
  {
  }

  lemma NegMul(m: int, b: int)
    ensures (-m) * b == -(m * b)
  {
  }

  /** A multiple of `b` other than q * b lies at least `b` away from it. */
  lemma MultiplesApart(q: int, k: int, b: int)
    requires b > 0 && q != k
    ensures q < k ==> q * b + b <= k * b
    ensures q > k ==> k * b + b <= q * b
  {
    if q < k {
      MulDistance(k - q - 1, q, b);
    } else {
      MulDistance(q - k - 1, k, b);
    }
  }

  lemma MulDistance(d: nat, q: int, b: int)
    requires b > 0
    ensures (q + d + 1) * b == q * b + d * b + b && d * b >= 0
  {
  }

  /** int(d * 100): the unit amount in cents that the views send to Stripe. */
  function ToCents(d: Decimal): int
  {
    TruncDiv(d.coefficient * 100, Pow10(d.places))
  }

  lemma TruncDivExact(k: int, b: int)
    requires b > 0
    ensures TruncDiv(k * b, b) == k
  {
    var q := TruncDiv(k * b, b);
    if q != k {
      MultiplesApart(q, k, b);
    }
  }

  /** A Decimal with at most two places converts to cents exactly: no
      truncation happens, and a DecimalField with decimal_places=2 never holds
      anything else. */
  lemma ToCentsOfTwoPlaces(d: Decimal)
    requires d.places <= 2
    ensures ToCents(d) == d.coefficient * Pow10(2 - d.places)
  {
    Pow10Add(2 - d.places, d.places);
    assert Pow10(2) == 100;
    var k := d.coefficient * Pow10(2 - d.places);
    assert d.coefficient * 100 == k * Pow10(d.places);
    TruncDivExact(k, Pow10(d.places));
  }

  /** In particular `c` cents convert back to `c`. */
  lemma ToCentsOfCents(c: int)
    ensures ToCents(Cents(c)) == c
  {
    ToCentsOfTwoPlaces(Cents(c));
  }

  /** With more places the conversion truncates toward zero: the result is
      never larger in magnitude than the exact value and misses it by less
      than one cent. */
  lemma ToCentsTruncates(d: Decimal)
    ensures var c, p := ToCents(d), Pow10(d.places);
      if d.coefficient >= 0 then c * p <= d.coefficient * 100 < (c + 1) * p
      else (c - 1) * p < d.coefficient * 100 <= c * p
  {
  }

  function Zeros(n: nat): (z: string)
    ensures |z| == n && forall i :: 0 <= i < n ==> z[i] == '0'
  {
    seq(n, _ => '0')
  }

  /** Zeros in front of a run of digits do not change its value. */
  lemma {:induction false} LeadingZeros(k: nat, m: string)
    requires forall i :: 0 <= i < |m| ==> IsDigit(m[i])
    ensures DigitsValue(Zeros(k) + m) == DigitsValue(m)
    decreases |m| + k
  {
    var z := Zeros(k) + m;
    if |m| > 0 {
      assert z[..|z| - 1] == Zeros(k) + m[..|m| - 1];
      LeadingZeros(k, m[..|m| - 1]);
    } else if k > 0 {
      assert z == Zeros(k);
      assert z[..|z| - 1] == Zeros(k - 1) + [];
      LeadingZeros(k - 1, []);
    }
  }

  /** The numeral of `n` padded with zeros to more than `places` digits. */
  function PaddedDigits(n: nat, places: nat): (p: string)
    ensures |p| > places && forall i :: 0 <= i < |p| ==> IsDigit(p[i])
    ensures DigitsValue(p) == n
  {
    var magnitude := NatToString(n);
    ParseIdOfNatToString(n);
    if |magnitude| <= places then
      LeadingZeros(places + 1 - |magnitude|, magnitude);
      Zeros(places + 1 - |magnitude|) + magnitude
    else magnitude
  }

  /** The digits str(d) prints before the point. */
  function IntegerDigits(d: Decimal): string
  {
    var m := PaddedDigits(Abs(d.coefficient), d.places);
    m[..|m| - d.places]
  }

  /** The `places` digits str(d) prints after the point. */
  function FractionDigits(d: Decimal): string
  {
    var m := PaddedDigits(Abs(d.coefficient), d.places);
    m[|m| - d.places..]
  }

  /** str(d) for a Decimal in plain notation: an optional minus sign, the
      digits of the coefficient padded with zeros so that one digit stands
      before the point, and exactly `places` digits after it. Read without
      the sign and the point, the digits spell the coefficient's magnitude. */
  function DecimalString(d: Decimal): (r: string)
    ensures |r| > d.places && (r[0] == '-' <==> d.coefficient < 0)
    ensures d.places > 0 ==> |r| > d.places + 1 && r[|r| - d.places - 1] == '.'
    ensures forall i :: |r| - d.places <= i < |r| ==> IsDigit(r[i])
    ensures d.places == 0 ==> forall i :: 0 <= i < |r| ==> r[i] != '.'
    ensures r == (if d.coefficient < 0 then "-" else "") + IntegerDigits(d)
                 + (if d.places == 0 then "" else ".") + FractionDigits(d)
    ensures |IntegerDigits(d)| > 0 && |FractionDigits(d)| == d.places
    ensures AllDigits(IntegerDigits(d) + FractionDigits(d))
    ensures DigitsValue(IntegerDigits(d) + FractionDigits(d)) == Abs(d.coefficient)
  {
    var m := PaddedDigits(Abs(d.coefficient), d.places);
    var k := |m| - d.places;
    assert m[..k] + m[k..] == m;
    var body := if d.places == 0 then m else m[..k] + "." + m[k..];
    assert body[0] != '-';
    (if d.coefficient < 0 then "-" else "") + body
  }

  function Abs(x: int): nat { if x < 0 then -x else x }

  /** The number of digits Decimal.as_tuple() gives the coefficient: zero
      has the one digit 0. */
  function NumDigits(n: nat): (k: nat)
    ensures k >= 1 && n < Pow10(k)
    ensures k > 1 ==> Pow10(k - 1) <= n
  {
    if n < 10 then 1 else 1 + NumDigits(n / 10)
  }

  /** A count of digits is at most `m` exactly when the number is below
      10^m. */
  lemma {:induction false} NumDigitsBound(n: nat, m: nat)
    requires m >= 1
    ensures NumDigits(n) <= m <==> n < Pow10(m)
    decreases m
  {
    if m > 1 && n >= 10 {
      NumDigitsBound(n / 10, m - 1);
    }
  }

  /** The three complaints of Django's DecimalValidator. */
  datatype DecimalError = MaxDigits | MaxDecimalPlaces | MaxWholeDigits

  /** DecimalValidator(max_digits, decimal_places), checked in its order:
      total digits, then places, then digits before the point. A value
      with more places than digits, such as 0.05, counts its places as its
      digits. */
  function DecimalFieldError(d: Decimal, maxDigits: nat, decimalPlaces: nat): (r: Option<DecimalError>)
    requires decimalPlaces <= maxDigits
    ensures r.None? <==> d.places <= decimalPlaces && NumDigits(Abs(d.coefficient)) <= maxDigits - decimalPlaces + d.places
    ensures r == Some(MaxDigits) ==> d.places > maxDigits || NumDigits(Abs(d.coefficient)) > maxDigits
  {
    var len := NumDigits(Abs(d.coefficient));
    var digits := if d.places > len then d.places else len;
    var decimals := d.places;
    if digits > maxDigits then Some(MaxDigits)
    else if decimals > decimalPlaces then Some(MaxDecimalPlaces)
    else if digits - decimals > maxDigits - decimalPlaces then Some(MaxWholeDigits)
    else None
  }

  /** For the money fields of this project (max_digits=10,
      decimal_places=2): a value passes exactly when it has at most two
      places and its magnitude is below 10^8. */
  lemma MoneyFieldBound(d: Decimal)
    ensures DecimalFieldError(d, 10, 2).None? <==>
      d.places <= 2 && Abs(d.coefficient) < Pow10(8 + d.places)
  {
    NumDigitsBound(Abs(d.coefficient), 8 + d.places);
  }
}
