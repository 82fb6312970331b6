/** strconv.Atoi on a 64-bit platform, which the leaderboard handler uses to
    read its `limit` query parameter, and the decimal spelling it inverts. */
module Numbers {
  import opened Wrappers

  const Int64Min: int := -0x8000_0000_0000_0000
  const Int64Max: int := 0x7fff_ffff_ffff_ffff

  predicate IsDigit(c: char) {
    '0' <= c <= '9'
  }

  predicate AllDigits(s: string) {
    forall i :: 0 <= i < |s| ==> IsDigit(s[i])
  }

  /** The value of a string of decimal digits, most significant first. */
  function DigitsValue(ds: string): nat
    requires AllDigits(ds)
    decreases |ds|
  {
    if |ds| == 0 then 0
    else DigitsValue(ds[..|ds| - 1]) * 10 + (ds[|ds| - 1] - '0') as int
  }

  /** strconv.Atoi: an optional '+' or '-' followed by at least one decimal
      digit, whose value fits in a 64-bit int; anything else is an error. */
  function Atoi(s: string): (r: Option<int>)
    ensures r.Some? ==> Int64Min <= r.value <= Int64Max
    ensures r.Some? ==> |s| >= 1 && (IsDigit(s[0]) || s[0] == '+' || s[0] == '-')
  {
    if |s| == 0 then None
    else
      var digits := if s[0] == '-' || s[0] == '+' then s[1..] else s;
      if |digits| == 0 || !AllDigits(digits) then None
      else
        var v: int := if s[0] == '-' then 0 - DigitsValue(digits) as int else DigitsValue(digits);
        if Int64Min <= v <= Int64Max then Some(v) else None
  }

  /** The digits of a signed spelling: the text after a leading '+' or '-'. */
  function Magnitude(s: string): string
    requires |s| >= 1
  {
    if s[0] == '+' || s[0] == '-' then s[1..] else s
  }

  /** An optional sign followed by one or more decimal digits. */
  predicate IsSignedDigits(s: string) {
    |s| >= 1 && |Magnitude(s)| >= 1 && AllDigits(Magnitude(s))
  }

  /** The number a signed spelling denotes. */
  function SignedValue(s: string): int
    requires IsSignedDigits(s)
  {
    var n: int := DigitsValue(Magnitude(s));
    if s[0] == '-' then -n else n
  }

  /** Atoi accepts exactly the signed digit strings whose value fits in 64
      bits, and yields that value. */
  lemma AtoiSpelling(s: string)
    ensures Atoi(s).Some? <==> IsSignedDigits(s) && Int64Min <= SignedValue(s) <= Int64Max
    ensures Atoi(s).Some? ==> Atoi(s).value == SignedValue(s)
  {
  }

  /** A character that is not a digit anywhere after the first position makes
      Atoi fail: "5x", "1 0" and "+-3" are all refused. */
  lemma AtoiRejectsNonDigit(s: string, i: int)
    requires 1 <= i < |s| && !IsDigit(s[i])
    ensures Atoi(s).None?
  {
    var m := Magnitude(s);
    var j := if s[0] == '+' || s[0] == '-' then i - 1 else i;
    assert m[j] == s[i];
    AtoiSpelling(s);
  }

  function DigitChar(d: nat): char
    requires d < 10
  {
    ('0' as int + d) as char
  }

  /** strconv.Itoa for a non-negative number: its shortest decimal spelling. */
  function Decimal(n: nat): (s: string)
    ensures |s| >= 1 && AllDigits(s)
    decreases n
  {
    if n < 10 then [DigitChar(n)] else Decimal(n / 10) + [DigitChar(n % 10)]
  }

  /** Reading back the decimal spelling of `n` yields `n`. */
  lemma {:induction false} DecimalValue(n: nat)
    ensures DigitsValue(Decimal(n)) == n
    decreases n
  {
    if n >= 10 {
      DecimalValue(n / 10);
      var s := Decimal(n);
      assert s[..|s| - 1] == Decimal(n / 10);
    }
  }

  /** Atoi parses every decimal spelling of a non-negative int back to the
      same number. */
  lemma AtoiDecimal(n: nat)
    requires n <= Int64Max
    ensures Atoi(Decimal(n)) == Some(n)
  {
    DecimalValue(n);
  }
}
