/**
 * Phone numbers (app/utils/phone.py): every accepted input is brought to the
 * form "+7" followed by ten digits.
 */
module Phone {
  import opened Wrappers
  import opened Text

  /**
   * The eleven-digit national number the first part of `normalize_phone`
   * derives from the digits of the input, or `None` when it rejects them.
   */
  function CanonicalDigits(phone: string): (r: Option<string>)
    ensures r.Some? ==> |r.value| == 11 && r.value[0] == '7' && AllDigits(r.value)
  {
    var digits := DigitsOnly(phone);
    if StartsWith(digits, "8") && |digits| == 11 then Some("7" + digits[1..])
    else if StartsWith(digits, "7") && |digits| == 11 then Some(digits)
    else if |digits| == 10 then Some("7" + digits)
    else None
  }

  /** `normalize_phone`, with its two length checks kept as written. */
  function NormalizePhone(phone: string): (r: Option<string>)
    ensures r.Some? ==> |r.value| == 12 && r.value[..2] == "+7" && AllDigits(r.value[1..])
  {
    match CanonicalDigits(phone)
    case None => None
    case Some(digits) =>
      if |digits| < 11 then None
      else if |digits| > 15 then None
      else if StartsWith(digits, "7") && |digits| == 11 then Some("+" + digits)
      else Some("+" + digits)
  }

  /** `validate_phone`. */
  predicate ValidatePhone(phone: string) { NormalizePhone(phone).Some? }

  /** The two length checks never reject: the digits reaching them are always eleven. */
  lemma LengthChecksUnreachable(phone: string)
    ensures CanonicalDigits(phone).Some? ==> 11 <= |CanonicalDigits(phone).value| <= 15
    ensures NormalizePhone(phone).Some? <==> CanonicalDigits(phone).Some?
  {
  }

  /** The accepted digit strings, case by case; every other count of digits is rejected. */
  lemma NormalizeCases(phone: string)
    ensures var d := DigitsOnly(phone);
      NormalizePhone(phone) ==
        if |d| == 11 && d[0] == '8' then Some("+7" + d[1..])
        else if |d| == 11 && d[0] == '7' then Some("+" + d)
        else if |d| == 10 then Some("+7" + d)
        else None
  {
    var d := DigitsOnly(phone);
    if |d| == 11 && d[0] == '8' {
      assert "+" + ("7" + d[1..]) == "+7" + d[1..];
    } else if |d| == 10 {
      assert "+" + ("7" + d) == "+7" + d;
    }
  }

  /** Normalising a normalised number gives it back. */
  lemma NormalizeIdempotent(phone: string)
    requires NormalizePhone(phone).Some?
    ensures NormalizePhone(NormalizePhone(phone).value) == NormalizePhone(phone)
  {
    var p := NormalizePhone(phone).value;
    var d := p[1..];
    assert AllDigits(d);
    DigitsFromOfDigits(p, 1);
    assert DigitsOnly(p) == d;
    assert d[0] == '7' && |d| == 11;
    NormalizeCases(p);
    assert "+" + d == p;
  }

  /** Only the digits of the input matter: spaces, dashes, brackets and a leading "+" are ignored. */
  lemma OnlyDigitsMatter(a: string, b: string)
    requires DigitsOnly(a) == DigitsOnly(b)
    ensures NormalizePhone(a) == NormalizePhone(b)
  {
  }

  /** The national form "8" followed by ten digits. */
  lemma EightPrefixForm(t: string)
    requires |t| == 10 && AllDigits(t)
    ensures NormalizePhone("8" + t) == Some("+7" + t)
  {
    DigitsFromOfDigits("8" + t, 0);
    NormalizeCases("8" + t);
    assert ("8" + t)[1..] == t;
  }

  /** Ten digits without a country code. */
  lemma TenDigitForm(t: string)
    requires |t| == 10 && AllDigits(t)
    ensures NormalizePhone(t) == Some("+7" + t)
  {
    DigitsFromOfDigits(t, 0);
    NormalizeCases(t);
  }

  lemma ExampleTooShort()
    ensures NormalizePhone("12345") == None
  {
  }
}
