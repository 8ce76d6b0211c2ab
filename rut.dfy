/**
 * Chilean RUT numbers (src/lib/rut.ts): normalisation, splitting into body and check
 * digit, the modulo-11 check digit and validation.
 */
module Rut {
  import opened Wrappers
  import opened Strings

  /** A RUT split into its digits and its check digit. */
  datatype RutParts = RutParts(body: string, dv: string)

  /** The forms `normalizeRut` produces: a `-` somewhere, no dots, no whitespace, no lower-case letter. */
  predicate Normalized(s: string) {
    '-' in s && Clean(s)
  }

  /** No dot, no whitespace and no lower-case letter. */
  predicate Clean(s: string) {
    forall c :: c in s ==> c != '.' && !IsSpace(c) && !IsLowerAscii(c)
  }

  /** The characters left after trimming, upper-casing and removing dots and whitespace. */
  function Cleaned(input: string): (r: string)
    ensures Clean(r)
    ensures forall c :: c in r <==> c in ToUpper(Trim(input)) && c != '.' && !IsSpace(c)
  {
    var raw := ToUpper(Trim(input));
    var r := RemoveSpaces(RemoveChar(raw, '.'));
    RemoveCharMembers(raw, '.');
    RemoveSpacesMembers(RemoveChar(raw, '.'));
    forall c | c in r ensures !IsLowerAscii(c) {
      var i :| 0 <= i < |raw| && raw[i] == c;
    }
    r
  }

  /** `normalizeRut`: trim, upper-case, drop dots and whitespace, and insert `-` before the
      last character when there is none. */
  function NormalizeRut(input: string): (r: string)
    ensures Normalized(r)
    ensures '-' in Cleaned(input) ==> r == Cleaned(input)
    ensures '-' !in Cleaned(input) ==> r == InsertDash(Cleaned(input))
  {
    var cleaned := Cleaned(input);
    if '-' !in cleaned then InsertDash(cleaned) else cleaned
  }

  /** The dash `normalizeRut` inserts before the last character (an empty input becomes `-`). */
  function InsertDash(c: string): (r: string)
    requires Clean(c)
    ensures Normalized(r)
    ensures c == [] ==> r == "-"
    ensures c != [] ==> r == c[..|c| - 1] + "-" + [c[|c| - 1]]
  {
    if c == [] then "-"
    else
      var r := c[..|c| - 1] + "-" + [c[|c| - 1]];
      assert r[|c| - 1] == '-';
      assert forall x :: x in r ==> x == '-' || x in c;
      r
  }

  /** A string with no whitespace, no dot and no lower-case letter is its own cleaning. */
  lemma CleanedOfNormalized(s: string)
    requires Normalized(s)
    ensures Cleaned(s) == s
  {
    if s != [] {
      assert s[0] in s && s[|s| - 1] in s;
    }
    TrimIdentity(s);
    forall i | 0 <= i < |s| ensures ToUpper(s)[i] == s[i] {
      assert s[i] in s;
    }
    assert ToUpper(s) == s;
    RemoveCharIdentity(s, '.');
    RemoveSpacesIdentity(s);
  }

  /** `normalizeRut` is idempotent. */
  lemma NormalizeIdempotent(input: string)
    ensures NormalizeRut(NormalizeRut(input)) == NormalizeRut(input)
  {
    CleanedOfNormalized(NormalizeRut(input));
  }

  predicate IsDvChar(c: char) {
    IsDigit(c) || c == 'K'
  }

  /** `^[0-9]{1,9}-[0-9K]$`. */
  predicate MatchesRutPattern(s: string) {
    3 <= |s| <= 11 && s[|s| - 2] == '-' && AllDigits(s[..|s| - 2]) && IsDvChar(s[|s| - 1])
  }

  /** The pattern, read as "digits, a dash, a check character". */
  lemma MatchesRutPatternIff(body: string, dv: char)
    ensures MatchesRutPattern(body + "-" + [dv]) <==> 1 <= |body| <= 9 && AllDigits(body) && IsDvChar(dv)
  {
    var s := body + "-" + [dv];
    assert s[..|s| - 2] == body;
  }

  /** The body and check digit of a normalised RUT matching the pattern. */
  function SplitNormalized(rut: string): (r: Option<RutParts>)
    ensures r.Some? <==> MatchesRutPattern(rut)
    ensures r.Some? ==> rut == r.value.body + "-" + r.value.dv
                        && 1 <= |r.value.body| <= 9 && AllDigits(r.value.body)
                        && |r.value.dv| == 1 && IsDvChar(r.value.dv[0])
  {
    if MatchesRutPattern(rut) then
      var parts := RutParts(rut[..|rut| - 2], [rut[|rut| - 1]]);
      assert rut == parts.body + "-" + parts.dv;
      Some(parts)
    else
      None
  }

  /** `rutSplit`: the body and check digit when the normalised form matches the pattern, else null. */
  function RutSplit(input: string): (r: Option<RutParts>)
    ensures r.Some? <==> MatchesRutPattern(NormalizeRut(input))
    ensures r.Some? ==> NormalizeRut(input) == r.value.body + "-" + r.value.dv
                        && 1 <= |r.value.body| <= 9 && AllDigits(r.value.body)
                        && |r.value.dv| == 1 && IsDvChar(r.value.dv[0])
  {
    SplitNormalized(NormalizeRut(input))
  }

  /** The empty string does not split. */
  lemma EmptyDoesNotSplit()
    ensures RutSplit("") == None
  {
    assert NormalizeRut("") == "-";
  }

  /** A body of ten or more digits does not split, whatever follows it. */
  lemma LongBodyDoesNotSplit(body: string, dv: char)
    requires |body| >= 10 && AllDigits(body) && IsDvChar(dv)
    ensures RutSplit(body + "-" + [dv]) == None
  {
    var s := body + "-" + [dv];
    assert Normalized(s);
    CleanedOfNormalized(s);
    MatchesRutPatternIff(body, dv);
  }

  /** The weight the check-digit loop gives the digit `k` places from the right: 2,3,4,5,6,7,2,... */
  function Weight(k: nat): (w: nat)
    ensures 2 <= w <= 7
  {
    2 + k % 6
  }

  function DigitValue(c: char): nat
    requires IsDigit(c)
  {
    c as int - '0' as int
  }

  /** `Number(c)` for a one-character string: a digit's value, 0 for whitespace, otherwise NaN. */
  function NumberOf(c: char): (r: Option<nat>)
    ensures r.Some? <==> IsDigit(c) || IsSpace(c)
    ensures IsDigit(c) ==> r == Some(DigitValue(c))
  {
    if IsDigit(c) then Some(DigitValue(c)) else if IsSpace(c) then Some(0) else None
  }

  /** Every character reads as a number, so the weighted sum is not NaN. */
  predicate Numeric(body: string) {
    forall i :: 0 <= i < |body| ==> NumberOf(body[i]).Some?
  }

  /** The weighted digit sum of `body`; the rightmost digit has weight 2. */
  function WeightedSum(body: string): nat
    requires Numeric(body)
  {
    if body == [] then 0 else NumberOf(body[0]).value * Weight(|body| - 1) + WeightedSum(body[1..])
  }

  /** The check digit for a weighted sum: `11 - sum % 11`, with 11 written `0` and 10 written `K`. */
  function DvFromSum(sum: nat): (c: char)
    ensures IsDvChar(c)
  {
    var m := 11 - sum % 11;
    if m == 11 then '0' else if m == 10 then 'K' else DigitChar(m)
  }

  /** The numeric value of a check character (`K` counts as 10). */
  function DvValue(c: char): nat
    requires IsDvChar(c)
  {
    if c == 'K' then 10 else DigitValue(c)
  }

  /** The check digit is the one value that brings the sum to a multiple of 11. */
  lemma DvFromSumIsModulo11(sum: nat, c: char)
    requires IsDvChar(c)
    ensures c == DvFromSum(sum) <==> (sum + DvValue(c)) % 11 == 0
  {
    var m := 11 - sum % 11;
    if c == DvFromSum(sum) {
      if m == 11 { assert DvValue(c) == 0; }
      else if m == 10 { assert DvValue(c) == 10; }
      else { assert DvValue(c) == m; }
    }
    if (sum + DvValue(c)) % 11 == 0 {
      ModuloDeterminesDv(sum, c);
    }
  }

  /** A check character completing the sum to a multiple of 11 is the computed one. */
  lemma ModuloDeterminesDv(sum: nat, c: char)
    requires IsDvChar(c) && (sum + DvValue(c)) % 11 == 0
    ensures c == DvFromSum(sum)
  {
    var v := DvValue(c);
    var m := 11 - sum % 11;
    assert v == (11 - sum % 11) % 11;
    if m == 11 { assert v == 0; }
    else if m == 10 { assert v == 10; }
    else { assert v == m; assert c == DigitChar(m); }
  }

  /** The check digit of a body, as a character. */
  function Dv(body: string): (c: char)
    requires Numeric(body)
    ensures IsDvChar(c)
  {
    DvFromSum(WeightedSum(body))
  }

  /** What `computeRutDv` returns: the check digit, or `String(NaN)` once a character is not a number. */
  function DvOrNaN(body: string): string {
    if Numeric(body) then [Dv(body)] else "NaN"
  }

  /** `computeRutDv`: the loop over the characters from the right with the cycling multiplier. */
  method ComputeRutDv(body: string) returns (dv: string)
    ensures dv == DvOrNaN(body)
    ensures AllDigits(body) ==> dv == [Dv(body)]
  {
    var sum := 0;
    var nan := false;
    var multiplier := 2;
    var i := |body| - 1;
    while i >= 0
      invariant -1 <= i < |body|
      invariant nan <==> !Numeric(body[i + 1..])
      invariant !nan ==> sum == WeightedSum(body[i + 1..])
      invariant multiplier == Weight(|body| - 1 - i)
    {
      assert body[i..][1..] == body[i + 1..];
      assert body[i..][0] == body[i];
      match NumberOf(body[i]) {
        case Some(v) => sum := sum + v * multiplier;
        case None => nan := true;
      }
      multiplier := if multiplier == 7 then 2 else multiplier + 1;
      i := i - 1;
    }
    assert body[0..] == body;
    if nan {
      dv := "NaN";
    } else {
      var m := 11 - sum % 11;
      if m == 11 {
        dv := "0";
      } else if m == 10 {
        dv := "K";
      } else {
        dv := [DigitChar(m)];
      }
    }
  }

  /** `isValidRut`: the input splits and its check digit is the computed one. */
  predicate IsValidRut(input: string): (b: bool)
    ensures b <==> RutSplit(input).Some? && RutSplit(input).value.dv == [Dv(RutSplit(input).value.body)]
  {
    ValidNormalized(NormalizeRut(input))
  }

  /** The check `isValidRut` makes once the input is normalised. */
  predicate ValidNormalized(rut: string) {
    match SplitNormalized(rut)
    case None => false
    case Some(parts) => [Dv(parts.body)] == parts.dv
  }

  /** What `isValidRut` accepts, stated over the normalised form. */
  lemma ValidNormalizedIff(n: string)
    ensures ValidNormalized(n) <==> MatchesRutPattern(n) && n[|n| - 1] == Dv(n[..|n| - 2])
  {
    if MatchesRutPattern(n) {
      assert SplitNormalized(n) == Some(RutParts(n[..|n| - 2], [n[|n| - 1]]));
    }
  }

  /** A normalised string is its own normal form. */
  lemma NormalizeOfNormalized(s: string)
    requires Normalized(s)
    ensures NormalizeRut(s) == s
  {
    CleanedOfNormalized(s);
  }

  /** Appending the computed check digit to any body of one to nine digits gives a valid RUT,
      and any other check character gives an invalid one. */
  lemma ValidIffComputedDv(body: string, dv: char)
    requires 1 <= |body| <= 9 && AllDigits(body) && IsDvChar(dv)
    ensures IsValidRut(body + "-" + [dv]) <==> dv == Dv(body)
  {
    DigitsDashNormalized(body, dv);
    NormalizeOfNormalized(body + "-" + [dv]);
    ValidNormalizedParts(body, dv);
  }

  /** The normalised check on digits, a dash and a check character. */
  lemma ValidNormalizedParts(body: string, dv: char)
    requires AllDigits(body) && IsDvChar(dv)
    ensures ValidNormalized(body + "-" + [dv]) <==> 1 <= |body| <= 9 && dv == Dv(body)
  {
    var s := body + "-" + [dv];
    MatchesRutPatternIff(body, dv);
    assert s[..|s| - 2] == body;
    ValidNormalizedIff(s);
  }

  /** Digits, a dash and a check character are already in normal form. */
  lemma DigitsDashNormalized(body: string, dv: char)
    requires AllDigits(body) && IsDvChar(dv)
    ensures Normalized(body + "-" + [dv])
  {
    var s := body + "-" + [dv];
    assert s[|body|] == '-';
    forall c | c in s ensures c != '.' && !IsSpace(c) && !IsLowerAscii(c) {
      var i :| 0 <= i < |s| && s[i] == c;
      if i < |body| { assert IsDigit(body[i]); }
    }
  }

  /** The round trip of the check digit algorithm. */
  lemma ComputedDvIsValid(body: string)
    requires 1 <= |body| <= 9 && AllDigits(body)
    ensures IsValidRut(body + "-" + [Dv(body)])
  {
    ValidIffComputedDv(body, Dv(body));
  }

  /** The weighted sum of the last four digits of the worked example. */
  lemma ExampleLowSum()
    ensures WeightedSum("5678") == 86
  {
    assert WeightedSum("8") == 16;
    assert "78"[1..] == "8";
    assert WeightedSum("78") == 37;
    assert "678"[1..] == "78";
    assert WeightedSum("678") == 61;
    assert "5678"[1..] == "678";
  }

  /** The worked example 12.345.678-5: the check digit of 12345678 is 5. */
  lemma ExampleDv()
    ensures Dv("12345678") == '5'
  {
    ExampleLowSum();
    assert "45678"[1..] == "5678";
    assert WeightedSum("45678") == 110;
    assert "345678"[1..] == "45678";
    assert WeightedSum("345678") == 131;
    assert "2345678"[1..] == "345678";
    assert WeightedSum("2345678") == 135;
    assert "12345678"[1..] == "2345678";
    assert WeightedSum("12345678") == 138;
  }

  /** ... and `12345678-5` is accepted. */
  lemma ExampleRutValid()
    ensures IsValidRut("12345678-5")
  {
    var body := "12345678";
    assert body + "-" + ['5'] == "12345678-5";
    ExampleDv();
    ComputedDvIsValid(body);
  }
}
