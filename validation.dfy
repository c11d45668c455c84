/**
 * The two input checks of the shortener (server.js): the short-id check on
 * `GET /api/shorturl/:id` and the scheme-prefix check on `POST /api/shorturl`.
 * Both are plain string predicates. Beside the id check sits its reference
 * definition: the accepted ids are exactly the decimal numerals of the
 * positive integers, which is what the store is queried with.
 */
module Validation {
  import opened Wrappers

  predicate StartsWith(s: string, prefix: string)
  {
    |prefix| <= |s| && s[..|prefix|] == prefix
  }

  /** `\d` of a JavaScript regular expression without the `u` flag: ASCII digits only. */
  predicate IsDigit(c: char)
  {
    '0' <= c <= '9'
  }

  predicate AllDigits(s: string)
  {
    forall i :: 0 <= i < |s| ==> IsDigit(s[i])
  }

  /** `/^\d+$/.test(s)`: one or more digits and nothing else. */
  predicate MatchesDigitsPattern(s: string)
  {
    |s| > 0 && AllDigits(s)
  }

  /**
   * The guard of the resolve route: not `startsWith("0")` and matching
   * `/^\d+$/`. An accepted id is a non-empty run of digits whose first digit
   * is not zero, so it denotes an integer greater than 0.
   */
  predicate IsValidShortId(raw: string): (ok: bool)
    ensures ok <==> |raw| > 0 && raw[0] != '0' && AllDigits(raw)
    ensures ok ==> DecimalValue(raw) > 0
  {
    assert |raw| > 0 ==> raw[..1] == [raw[0]];
    if !StartsWith(raw, "0") && MatchesDigitsPattern(raw) then
      LeadingNonZeroIsPositive(raw);
      true
    else
      false
  }

  /** A run of digits that starts with a non-zero digit denotes a positive number. */
  lemma {:induction false} LeadingNonZeroIsPositive(s: string)
    requires |s| > 0 && s[0] != '0' && AllDigits(s)
    ensures DecimalValue(s) > 0
    decreases |s|
  {
    if |s| > 1 {
      LeadingNonZeroIsPositive(s[..|s| - 1]);
    }
  }

  /** The guard of the create route: the submission must begin with the literal "http". */
  predicate HasHttpPrefix(url: string): (ok: bool)
    ensures ok <==> exists rest :: url == "http" + rest
  {
    if StartsWith(url, "http") then
      assert url == "http" + url[4..];
      true
    else
      false
  }

  function DigitValue(c: char): (d: nat)
    requires IsDigit(c)
    ensures d < 10
  {
    c as int - '0' as int
  }

  function DigitChar(d: nat): (c: char)
    requires d < 10
    ensures IsDigit(c) && DigitValue(c) == d
  {
    ('0' as int + d) as char
  }

  /** The number a string of digits denotes; Mongoose casts the id string to this number. */
  function DecimalValue(s: string): nat
    requires AllDigits(s)
    decreases |s|
  {
    if s == [] then 0 else 10 * DecimalValue(s[..|s| - 1]) + DigitValue(s[|s| - 1])
  }

  /** The canonical decimal numeral of a positive integer: no sign, no leading zero. */
  function DecimalString(n: nat): string
    requires n > 0
    decreases n
  {
    if n < 10 then [DigitChar(n)] else DecimalString(n / 10) + [DigitChar(n % 10)]
  }

  /** The id check followed by the cast the store query performs: a positive id or nothing. */
  function ParseShortId(raw: string): (id: Option<nat>)
    ensures id.Some? <==> IsValidShortId(raw)
    ensures id.Some? ==> id.value > 0 && DecimalString(id.value) == raw
  {
    if IsValidShortId(raw) then
      ValidIdIsCanonicalNumeral(raw);
      Some(DecimalValue(raw))
    else
      None
  }

  /** Every canonical numeral of a positive integer passes the id check and denotes its number. */
  lemma {:induction false} NumeralIsValidId(n: nat)
    requires n > 0
    ensures IsValidShortId(DecimalString(n))
    ensures DecimalValue(DecimalString(n)) == n
  {
    var s := DecimalString(n);
    if n >= 10 {
      var p := DecimalString(n / 10);
      NumeralIsValidId(n / 10);
      assert s == p + [DigitChar(n % 10)];
      assert s[..|s| - 1] == p;
      assert s[..1] == p[..1];
    } else {
      assert s[..1] == [DigitChar(n)];
    }
  }

  /** Every id the check accepts is the numeral of a positive number. */
  lemma {:induction false} ValidIdIsCanonicalNumeral(raw: string)
    requires IsValidShortId(raw)
    ensures DecimalValue(raw) > 0
    ensures DecimalString(DecimalValue(raw)) == raw
    decreases |raw|
  {
    assert raw[..1] == [raw[0]];
    var last := raw[|raw| - 1];
    if |raw| == 1 {
      assert raw == [last];
      assert DigitChar(DigitValue(last)) == last;
    } else {
      var p := raw[..|raw| - 1];
      assert p[..1] == raw[..1];
      ValidIdIsCanonicalNumeral(p);
      var v := DecimalValue(raw);
      assert v == 10 * DecimalValue(p) + DigitValue(last);
      assert v / 10 == DecimalValue(p) && v % 10 == DigitValue(last);
      assert DigitChar(DigitValue(last)) == last;
      assert raw == p + [last];
    }
  }

  /** The exact accept set of the id check: the numerals of the positive integers. */
  lemma ValidIdsAreNumerals(raw: string)
    ensures IsValidShortId(raw) <==> exists n: nat :: n > 0 && DecimalString(n) == raw
  {
    if IsValidShortId(raw) {
      ValidIdIsCanonicalNumeral(raw);
    }
    if exists n: nat :: n > 0 && DecimalString(n) == raw {
      var n: nat :| n > 0 && DecimalString(n) == raw;
      NumeralIsValidId(n);
    }
  }

  /** A leading "0" (so "0" and "01" too), the empty string, or a non-digit anywhere is rejected. */
  lemma RejectedIds(raw: string)
    ensures |raw| > 0 && raw[0] == '0' ==> !IsValidShortId(raw)
    ensures raw == "" ==> !IsValidShortId(raw)
    ensures (exists i :: 0 <= i < |raw| && !IsDigit(raw[i])) ==> !IsValidShortId(raw)
  {
    if |raw| > 0 {
      assert raw[..1] == [raw[0]];
    }
  }
}
