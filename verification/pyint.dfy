/**
 * Python's conversions between integers and decimal text, as the
 * orchestration handler uses them: `int(text)` to read the start id and the
 * loop count from the event, and `str(n)` to build the store key, the prompt
 * and the list of processed ids.
 */
module PyInt {
  import opened Values

  predicate IsDigit(c: char) {
    '0' <= c <= '9'
  }

  predicate AllDigits(s: string) {
    forall i | 0 <= i < |s| :: IsDigit(s[i])
  }

  function DigitChar(d: nat): (c: char)
    requires d < 10
    ensures IsDigit(c) && c as int - '0' as int == d
  {
    (d + '0' as int) as char
  }

  function DigitValue(c: char): nat
    requires IsDigit(c)
  {
    c as int - '0' as int
  }

  /** The decimal digits of `n`, most significant first, without leading zeros. */
  function Digits(n: nat): (r: string)
    ensures |r| > 0 && AllDigits(r)
    ensures r[0] == '0' ==> n == 0
    ensures n < 10 <==> |r| == 1
  {
    if n < 10 then [DigitChar(n)] else Digits(n / 10) + [DigitChar(n % 10)]
  }

  /** `str(n)`: an optional minus sign followed by the digits of `|n|`. */
  function Show(n: int): (r: string)
    ensures |r| > 0
    ensures r[0] == '-' <==> n < 0
  {
    if n < 0 then "-" + Digits(-n) else Digits(n)
  }

  /** The value of a string of decimal digits (leading zeros allowed). */
  function ValueOf(ds: string): nat
    requires AllDigits(ds)
  {
    if ds == [] then 0 else ValueOf(ds[..|ds| - 1]) * 10 + DigitValue(ds[|ds| - 1])
  }

  /**
   * `int(text)`: an optional `+` or `-` sign followed by at least one ASCII
   * digit; anything else raises (`None` here).
   */
  function Parse(text: string): (r: Option<int>)
    ensures r.Some? <==>
      || (|text| > 0 && AllDigits(text))
      || (|text| > 1 && (text[0] == '-' || text[0] == '+') && AllDigits(text[1..]))
    ensures r.Some? && AllDigits(text) ==> r.value == ValueOf(text)
    ensures r.Some? && text[0] == '+' ==> r.value == ValueOf(text[1..])
    ensures r.Some? && text[0] == '-' ==> r.value == -(ValueOf(text[1..]) as int)
  {
    if |text| > 0 && (text[0] == '-' || text[0] == '+') then
      var body := text[1..];
      if |body| > 0 && AllDigits(body) then
        var magnitude: int := ValueOf(body);
        Some(if text[0] == '-' then -magnitude else magnitude)
      else
        None
    else if |text| > 0 && AllDigits(text) then
      Some(ValueOf(text))
    else
      None
  }

  lemma {:induction false} DigitsValue(n: nat)
    ensures ValueOf(Digits(n)) == n
  {
    if n >= 10 {
      var ds := Digits(n);
      assert ds[..|ds| - 1] == Digits(n / 10);
      DigitsValue(n / 10);
    }
  }

  /** `int(str(n)) == n` for every integer `n`. */
  lemma ParseShow(n: int)
    ensures Parse(Show(n)) == Some(n)
  {
    var text := Show(n);
    if n < 0 {
      var body := Digits(-n);
      assert text[1..] == body;
      assert !IsDigit(text[0]);
      DigitsValue(-n);
      assert Parse(text) == Some(-(ValueOf(body) as int));
    } else {
      DigitsValue(n);
      assert Parse(text) == Some(ValueOf(text) as int);
    }
  }

  /** `str(n)` consists of digits and a leading minus sign only. */
  lemma ShowChars(n: int)
    ensures forall i | 0 <= i < |Show(n)| :: Show(n)[i] == '-' || IsDigit(Show(n)[i])
  {
    if n < 0 {
      assert forall i | 1 <= i < |Show(n)| :: Show(n)[i] == Digits(-n)[i - 1];
    }
  }

  /** Distinct integers have distinct decimal texts. */
  lemma ShowInjective(a: int, b: int)
    ensures Show(a) == Show(b) ==> a == b
  {
    ParseShow(a);
    ParseShow(b);
  }
}
