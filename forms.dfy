/** What the entry forms share: the text a number input yields and `Number(value)` on it,
    and JavaScript truthiness of the form's text fields. */
module Forms {
  import opened Seqs

  predicate IsDigit(c: char)
  {
    '0' <= c <= '9'
  }

  predicate AllDigits(s: string)
  {
    forall i :: 0 <= i < |s| ==> IsDigit(s[i])
  }

  /** The decimal value of a digit string, most significant digit first. */
  function DigitsValue(s: string): (v: nat)
    requires AllDigits(s)
  {
    if s == [] then 0 else DigitsValue(s[..|s| - 1]) * 10 + (s[|s| - 1] as int - '0' as int)
  }

  /** A text of n digits has a value below 10^n. */
  lemma {:induction false} DigitsValueBound(s: string)
    requires AllDigits(s)
    ensures DigitsValue(s) < Pow10(|s|)
  {
    if s != [] {
      DigitsValueBound(s[..|s| - 1]);
    }
  }

  function Pow10(n: nat): (p: nat)
    ensures p >= 1
  {
    if n == 0 then 1 else 10 * Pow10(n - 1)
  }

  /** The text a `type="number"` input reports for an integer: empty, or digits with an
      optional leading minus. */
  predicate IsNumericInput(s: string)
  {
    s == "" || AllDigits(s) || (s[0] == '-' && |s| > 1 && AllDigits(s[1..]))
  }

  /** `Number(value)` on such a text; the empty text is 0. */
  function NumberOf(s: string): (n: int)
    requires IsNumericInput(s)
    ensures s == "" ==> n == 0
    ensures AllDigits(s) ==> n == DigitsValue(s)
    ensures s != "" && s[0] != '-' ==> n >= 0
  {
    if s == "" then 0
    else if s[0] == '-' then -(DigitsValue(s[1..]) as int)
    else DigitsValue(s)
  }

  /** `Number(String(n))` gives back n for a non-negative whole number. */
  lemma {:induction false} NumberOfDigits(n: nat)
    ensures IsNumericInput(DecimalText(n)) && NumberOf(DecimalText(n)) == n
  {
    DecimalTextValue(n);
  }

  /** The decimal text of a natural number, without leading zeros. */
  function DecimalText(n: nat): (s: string)
    ensures s != [] && AllDigits(s)
  {
    if n < 10 then [('0' as int + n) as char]
    else DecimalText(n / 10) + [('0' as int + n % 10) as char]
  }

  lemma {:induction false} DecimalTextValue(n: nat)
    ensures DigitsValue(DecimalText(n)) == n
  {
    if n >= 10 {
      DecimalTextValue(n / 10);
      var s := DecimalText(n);
      assert s[..|s| - 1] == DecimalText(n / 10);
    }
  }

  /** `x || undefined` on a text field: the empty text becomes a missing value. */
  function OrUndefined(s: string): (r: Option<string>)
    ensures r.None? <==> s == ""
    ensures r.Some? ==> r.value == s
  {
    if s == "" then None else Some(s)
  }

  /** `x || ''` on an optional text: a missing value shows as the empty text. */
  function OrEmpty(o: Option<string>): (s: string)
    ensures o.None? ==> s == ""
    ensures o.Some? ==> s == o.value
  {
    if o.Some? then o.value else ""
  }

  /** Storing a text field and showing it again gives the text back, and a stored value
      other than the empty text survives being shown and stored again: the two
      conversions are inverse on everything a form can store. */
  lemma {:induction false} OrUndefinedRoundTrip(s: string, o: Option<string>)
    ensures OrEmpty(OrUndefined(s)) == s
    ensures o != Some("") ==> OrUndefined(OrEmpty(o)) == o
    ensures OrUndefined(s) != Some("")
  {
  }
}
