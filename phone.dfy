/** Normalisation of Iranian mobile numbers typed by the user, and the patterns the pages test. */
module Phone {
  import opened Text
  import Seqs

  /** `input.replace(/\D/g, '')`: every character other than ASCII 0-9 is dropped. */
  function DigitsOnly(input: string): (r: string)
    ensures AllDigits(r)
    ensures Seqs.IsSubsequence(r, input)
    ensures forall i :: 0 <= i < |input| && IsDigit(input[i]) ==> input[i] in r
    ensures forall c :: multiset(r)[c] == if IsDigit(c) then multiset(input)[c] else 0
  {
    Seqs.KeepCounts(input, (c: char) => IsDigit(c));
    Seqs.Keep(input, (c: char) => IsDigit(c))
  }

  /** `normalizeIranMobile`: country prefixes `0098` and `98` become `0`, a bare 10-digit `9...` gets a `0`. */
  function NormalizeIranMobile(input: string): (r: string)
    ensures AllDigits(r)
  {
    NormalizeDigits(DigitsOnly(input))
  }

  /** The prefix rules of `normalizeIranMobile`, applied to the digits left after stripping. */
  function NormalizeDigits(d: string): (r: string)
    requires AllDigits(d)
    ensures AllDigits(r)
  {
    if StartsWith(d, "0098") then "0" + d[4..]
    else if StartsWith(d, "98") then "0" + d[2..]
    else if StartsWith(d, "9") && |d| == 10 then "0" + d
    else d
  }

  /** `/^0?9\d{9}$/`, the test of the login and mobile pages. */
  predicate LoginMobilePattern(s: string) {
    && AllDigits(s)
    && ((|s| == 10 && s[0] == '9') || (|s| == 11 && s[0] == '0' && s[1] == '9'))
  }

  /** `/^09\d{9}$/`, the test of the user forms. */
  predicate FormMobilePattern(s: string) {
    |s| == 11 && s[0] == '0' && s[1] == '9' && AllDigits(s)
  }

  /** The ten digits after the country code of an Iranian mobile number. */
  predicate NationalNumber(n: string) {
    |n| == 10 && n[0] == '9' && AllDigits(n)
  }

  lemma {:induction false} DigitsOnlyOfDigits(s: string)
    requires AllDigits(s)
    ensures DigitsOnly(s) == s
  {
    Seqs.KeepAll(s, (c: char) => IsDigit(c));
  }

  /** Only the digits of the input matter: separators, `+` and letters are ignored. */
  lemma NormalizeIgnoresNonDigits(input: string)
    ensures NormalizeIranMobile(input) == NormalizeIranMobile(DigitsOnly(input))
  {
    DigitsOnlyOfDigits(DigitsOnly(input));
  }

  /** `0` followed by the national number is already canonical. */
  lemma NormalizeLeadingZero(n: string)
    requires NationalNumber(n)
    ensures NormalizeIranMobile("0" + n) == "0" + n
  {
    NormalizeFixesCanonical("0" + n);
  }

  /** The country code `98` is replaced by `0`. */
  lemma NormalizeCountryCode(n: string)
    requires NationalNumber(n)
    ensures NormalizeIranMobile("98" + n) == "0" + n
  {
    var cc := "98" + n;
    assert AllDigits(cc) by {
      assert forall i :: 2 <= i < |cc| ==> cc[i] == n[i - 2];
    }
    DigitsOnlyOfDigits(cc);
    assert cc[0] == '9' && !StartsWith(cc, "0098");
    assert cc[..2] == "98" && cc[2..] == n;
    assert NormalizeDigits(cc) == "0" + n;
  }

  /** `+98 ...`: the plus sign is dropped, then the country code is replaced by `0`. */
  lemma NormalizePlusCountryCode(n: string)
    requires NationalNumber(n)
    ensures NormalizeIranMobile("+98" + n) == "0" + n
  {
    var cc := "98" + n;
    assert "+98" + n == ['+'] + cc;
    Seqs.KeepAppend(['+'], cc, (c: char) => IsDigit(c));
    assert DigitsOnly("+98" + n) == DigitsOnly(cc);
    NormalizeCountryCode(n);
  }

  /** The international prefix `0098` is replaced by `0`. */
  lemma NormalizeInternationalPrefix(n: string)
    requires NationalNumber(n)
    ensures NormalizeIranMobile("0098" + n) == "0" + n
  {
    var cc00 := "0098" + n;
    DigitsOnlyOfDigits(cc00);
    assert cc00[..4] == "0098" && cc00[4..] == n;
  }

  /** The bare ten digits get a leading `0` unless the second digit is `8` (see below). */
  lemma NormalizeBareNationalNumber(n: string)
    requires NationalNumber(n) && n[1] != '8'
    ensures NormalizeIranMobile(n) == "0" + n
  {
    DigitsOnlyOfDigits(n);
    assert n[..1] == "9" && n[0] != '0';
    assert !StartsWith(n, "0098") && !StartsWith(n, "98") && StartsWith(n, "9");
  }

  /** A ten-digit input beginning `98` is read as a country code and loses two digits. */
  lemma NormalizeTenDigitsStartingNinetyEight(n: string)
    requires NationalNumber(n) && n[1] == '8'
    ensures NormalizeIranMobile(n) == "0" + n[2..]
    ensures !LoginMobilePattern(NormalizeIranMobile(n))
  {
    DigitsOnlyOfDigits(n);
    assert n[..2] == "98" && n[0] != '0';
    assert !StartsWith(n, "0098") && StartsWith(n, "98");
  }

  /** Persian numerals are not ASCII digits, so a number typed in them normalises to nothing. */
  lemma PersianNumeralsAreStripped()
    ensures NormalizeIranMobile("۰۹۱۲۳۴۵۶۷۸۹") == ""
  {
    var s := "۰۹۱۲۳۴۵۶۷۸۹";
    assert forall i :: 0 <= i < |s| ==> !IsDigit(s[i]);
    Seqs.KeepNone(s, (c: char) => IsDigit(c));
  }

  /** A normalised number never relies on the optional `0`: the two patterns agree on it. */
  lemma NormalizedPatternsAgree(input: string)
    ensures LoginMobilePattern(NormalizeIranMobile(input)) <==> FormMobilePattern(NormalizeIranMobile(input))
  {
  }

  /** A number already in canonical form is left unchanged. */
  lemma NormalizeFixesCanonical(m: string)
    requires FormMobilePattern(m)
    ensures NormalizeIranMobile(m) == m
  {
    DigitsOnlyOfDigits(m);
    assert m[1] == '9' && m[0] == '0';
    assert !StartsWith(m, "0098") && !StartsWith(m, "98") && !StartsWith(m, "9");
  }
}
