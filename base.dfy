/** Shared vocabulary: optional values, results, uploaded files, and the
    decimal text of primary keys as URL routes and Stripe metadata carry them. */
module Base {

  datatype Option<+T> = None | Some(value: T)

  datatype Result<+T, +E> = Ok(value: T) | Err(error: E)

  /** An uploaded file as Django hands it to a form: its name, its size in
      bytes and the content type the client declared. */
  datatype UploadedFile = UploadedFile(name: string, size: nat, contentType: string)

  /** What forms.FileField rejects before any clean_<field> method runs:
      a file without a name ("No file was submitted"), then an empty file
      ("The submitted file is empty"), allow_empty_file being False. */
  datatype UploadError = NoFileName | EmptyFile

  function FileFieldError(f: UploadedFile): (r: Option<UploadError>)
    ensures r.None? <==> f.name != "" && f.size > 0
    ensures r == Some(NoFileName) <==> f.name == ""
  {
    if f.name == "" then Some(NoFileName)
    else if f.size == 0 then Some(EmptyFile)
    else None
  }

  predicate IsDigit(c: char) { '0' <= c <= '9' }

  predicate AllDigits(s: string) { forall i :: 0 <= i < |s| ==> IsDigit(s[i]) }

  function DigitValue(c: char): nat
    requires IsDigit(c)
  {
    (c as int - '0' as int) as nat
  }

  function DigitChar(d: nat): (c: char)
    requires d < 10
    ensures IsDigit(c) && DigitValue(c) == d
  {
    ('0' as int + d) as char
  }

  /** The decimal numeral of `n`, without leading zeros. */
  function NatToString(n: nat): (s: string)
    ensures |s| > 0
    ensures forall i :: 0 <= i < |s| ==> IsDigit(s[i])
    decreases n
  {
    if n < 10 then [DigitChar(n)] else NatToString(n / 10) + [DigitChar(n % 10)]
  }

  /** Value of a non-empty run of digits. */
  function DigitsValue(s: string): nat
    requires forall i :: 0 <= i < |s| ==> IsDigit(s[i])
  {
    if |s| == 0 then 0 else DigitsValue(s[..|s| - 1]) * 10 + DigitValue(s[|s| - 1])
  }

  /** A primary key written as text: a non-empty run of decimal digits, the
      form in which an integer key arrives from a URL route or Stripe
      metadata. Anything else makes the integer conversion fail. */
  function ParseId(s: string): (r: Option<nat>)
    ensures r.Some? <==> |s| > 0 && forall i :: 0 <= i < |s| ==> IsDigit(s[i])
  {
    if |s| > 0 && forall i :: 0 <= i < |s| ==> IsDigit(s[i]) then Some(DigitsValue(s)) else None
  }

  /** Writing a key and reading it back gives the key. */
  lemma {:induction false} ParseIdOfNatToString(n: nat)
    ensures ParseId(NatToString(n)) == Some(n)
    decreases n
  {
    var s := NatToString(n);
    if n < 10 {
      assert s[..|s| - 1] == [];
      assert DigitsValue(s) == DigitValue(s[0]) == n;
    } else {
      ParseIdOfNatToString(n / 10);
      assert s[..|s| - 1] == NatToString(n / 10);
      assert DigitsValue(s) == DigitsValue(NatToString(n / 10)) * 10 + n % 10;
    }
  }
}
