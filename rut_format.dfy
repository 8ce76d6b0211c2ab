/**
 * The older RUT helpers of src/lib/utils.ts: `formatRut`, which prints a RUT with
 * thousands dots, and `validateRut`, a second check-digit test with its own cleaning.
 */
module RutFormat {
  import opened Strings
  import opened Rut

  /** The characters `[0-9kK]` keeps. */
  predicate IsRutChar(c: char) {
    IsDigit(c) || c == 'k' || c == 'K'
  }

  /** Digits and upper-case `K` only. */
  predicate RutChars(s: string) {
    forall i :: 0 <= i < |s| ==> IsDigit(s[i]) || s[i] == 'K'
  }

  /** `rut.replace(/[^0-9kK]/g, "").toUpperCase()`: digits and `K` only. */
  function CleanRut(s: string): (r: string)
    ensures RutChars(r)
    ensures |r| <= |s|
  {
    if s == [] then []
    else (if IsRutChar(s[0]) then [UpperChar(s[0])] else []) + CleanRut(s[1..])
  }

  /** Cleaning a string of digits and `K` leaves it alone. */
  lemma {:induction false} CleanRutIdentity(s: string)
    requires RutChars(s)
    ensures CleanRut(s) == s
  {
    if s != [] {
      CleanRutIdentity(s[1..]);
    }
  }

  /** Cleaning distributes over concatenation. */
  lemma {:induction false} CleanRutAppend(a: string, b: string)
    ensures CleanRut(a + b) == CleanRut(a) + CleanRut(b)
  {
    if a != [] {
      assert (a + b)[0] == a[0];
      assert (a + b)[1..] == a[1..] + b;
      CleanRutAppend(a[1..], b);
      var pre := if IsRutChar(a[0]) then [UpperChar(a[0])] else [];
      assert CleanRut(a + b) == pre + CleanRut(a[1..] + b);
      assert CleanRut(a) == pre + CleanRut(a[1..]);
    } else {
      assert a + b == b;
    }
  }

  /** The length of the run of digits that starts at `p`. */
  function DigitRun(s: string, p: nat): (n: nat)
    requires p <= |s|
    ensures p + n <= |s|
    decreases |s| - p
  {
    if p < |s| && IsDigit(s[p]) then 1 + DigitRun(s, p + 1) else 0
  }

  /** Where `/\B(?=(\d{3})+(?!\d))/g` matches in a body of digits and `K`: not at either end
      (both ends are word boundaries) and where a positive multiple of three digits runs up to
      the next non-digit or the end. */
  predicate DotBefore(body: string, p: nat)
    requires p <= |body|
  {
    0 < p < |body| && DigitRun(body, p) > 0 && DigitRun(body, p) % 3 == 0
  }

  /** The body from position `p` on, with a dot inserted at each match of the pattern. */
  function DottedFrom(body: string, p: nat): string
    requires p <= |body|
    decreases |body| - p
  {
    if p == |body| then []
    else Separator(body, p) + [body[p]] + DottedFrom(body, p + 1)
  }

  /** The text inserted before position `p`: a dot where the pattern matches, nothing elsewhere. */
  function Separator(body: string, p: nat): (r: string)
    requires p <= |body|
    ensures r == "." <==> DotBefore(body, p)
    ensures r == [] <==> !DotBefore(body, p)
  {
    if DotBefore(body, p) then "." else ""
  }

  /** Removing the dots from the dotted body gives the body without its dots. */
  lemma {:induction false} DottedRemovesDots(body: string, p: nat)
    requires p <= |body|
    ensures RemoveChar(DottedFrom(body, p), '.') == RemoveChar(body[p..], '.')
    decreases |body| - p
  {
    if p < |body| {
      DottedRemovesDots(body, p + 1);
      var pre := Separator(body, p);
      var rest := DottedFrom(body, p + 1);
      assert DottedFrom(body, p) == pre + ([body[p]] + rest);
      RemoveCharAppend(pre, [body[p]] + rest, '.');
      RemoveCharAppend([body[p]], rest, '.');
      RemoveCharAppend([body[p]], body[p + 1..], '.');
      assert body[p..] == [body[p]] + body[p + 1..];
    }
  }

  /** `formatRut`: the cleaned body with thousands dots, a dash and the check character;
      fewer than two cleaned characters come back as they are. */
  function FormatRut(rut: string): (r: string)
    ensures |CleanRut(rut)| < 2 ==> r == CleanRut(rut)
    ensures |CleanRut(rut)| >= 2 ==> |r| >= 2 && r[|r| - 2] == '-' && r[|r| - 1] == CleanRut(rut)[|CleanRut(rut)| - 1]
  {
    var clean := CleanRut(rut);
    if |clean| < 2 then clean
    else DottedFrom(clean[..|clean| - 1], 0) + "-" + [clean[|clean| - 1]]
  }

  /** Formatting only inserts dots and the dash: removing the dots gives body, dash and check
      digit. */
  lemma FormatOnlyAddsDots(rut: string)
    requires |CleanRut(rut)| >= 2
    ensures var c := CleanRut(rut);
            RemoveChar(FormatRut(rut), '.') == c[..|c| - 1] + "-" + [c[|c| - 1]]
  {
    var c := CleanRut(rut);
    var body := c[..|c| - 1];
    var tail := "-" + [c[|c| - 1]];
    assert '.' !in body by {
      forall i | 0 <= i < |body| ensures body[i] != '.' {
        assert body[i] == c[i];
      }
    }
    assert FormatRut(rut) == DottedFrom(body, 0) + tail;
    UndotBody(body, tail);
  }

  /** Removing the dots from a dotted body followed by a dot-free tail. */
  lemma UndotBody(body: string, tail: string)
    requires '.' !in body && '.' !in tail
    ensures RemoveChar(DottedFrom(body, 0) + tail, '.') == body + tail
  {
    var d := DottedFrom(body, 0);
    DottedRemovesDots(body, 0);
    assert body[0..] == body;
    RemoveCharAppend(d, tail, '.');
    RemoveCharIdentity(body, '.');
    RemoveCharIdentity(tail, '.');
  }

  /** In a body of digits a dot goes before position `p` exactly when `p` is inside the body and
      a multiple of three digits follows it. */
  lemma {:induction false} DotPositions(body: string, p: nat)
    requires AllDigits(body) && p <= |body|
    ensures DotBefore(body, p) <==> 0 < p < |body| && (|body| - p) % 3 == 0
  {
    DigitRunOfDigits(body, p);
  }

  /** On digits the run from `p` reaches the end. */
  lemma {:induction false} DigitRunOfDigits(body: string, p: nat)
    requires AllDigits(body) && p <= |body|
    ensures DigitRun(body, p) == |body| - p
    decreases |body| - p
  {
    if p < |body| {
      DigitRunOfDigits(body, p + 1);
    }
  }

  /** Formatting is idempotent: the formatted text cleans back to the same characters. */
  lemma FormatIdempotent(rut: string)
    ensures FormatRut(FormatRut(rut)) == FormatRut(rut)
  {
    FormattedCleans(rut);
  }

  /** The formatted text cleans back to the cleaned input. */
  lemma FormattedCleans(rut: string)
    ensures CleanRut(FormatRut(rut)) == CleanRut(rut)
  {
    var c := CleanRut(rut);
    if |c| < 2 {
      CleanRutIdentity(c);
    } else {
      var body := c[..|c| - 1];
      DottedBodyCleans(body, c[|c| - 1]);
      assert body + [c[|c| - 1]] == c;
    }
  }

  /** The dotted body, the dash and the check character clean back to body and check character. */
  lemma DottedBodyCleans(body: string, check: char)
    requires RutChars(body + [check])
    ensures CleanRut(DottedFrom(body, 0) + "-" + [check]) == body + [check]
  {
    var d := DottedFrom(body, 0);
    CleanRutAppend3(d, "-", [check]);
    CleanRutDropped('-');
    DottedCleans(body, 0);
    assert body[0..] == body;
    CleanRutAppend(body, [check]);
    CleanRutIdentity(body + [check]);
  }

  /** Cleaning the dotted body is cleaning the body: the dots are dropped. */
  lemma {:induction false} DottedCleans(body: string, p: nat)
    requires p <= |body|
    ensures CleanRut(DottedFrom(body, p)) == CleanRut(body[p..])
    decreases |body| - p
  {
    if p < |body| {
      DottedCleans(body, p + 1);
      DottedCleansStep(body, p);
      assert body[p..] == [body[p]] + body[p + 1..];
      CleanRutAppend([body[p]], body[p + 1..]);
    }
  }

  /** One position of the dotted body: its separator cleans away. */
  lemma DottedCleansStep(body: string, p: nat)
    requires p < |body|
    ensures CleanRut(DottedFrom(body, p)) == CleanRut([body[p]]) + CleanRut(DottedFrom(body, p + 1))
  {
    assert DottedFrom(body, p) == Separator(body, p) + [body[p]] + DottedFrom(body, p + 1);
    SeparatorCleans(Separator(body, p), body[p], DottedFrom(body, p + 1));
  }

  /** A separator, either one, cleans away in front of what follows it. */
  lemma SeparatorCleans(sep: string, ch: char, rest: string)
    requires sep == "." || sep == ""
    ensures CleanRut(sep + [ch] + rest) == CleanRut([ch]) + CleanRut(rest)
  {
    CleanRutAppend3(sep, [ch], rest);
    if sep == "." {
      CleanRutDropped('.');
    } else {
      assert CleanRut(sep) == [];
    }
  }

  /** Cleaning a three-part concatenation cleans each part. */
  lemma CleanRutAppend3(a: string, b: string, c: string)
    ensures CleanRut(a + b + c) == CleanRut(a) + CleanRut(b) + CleanRut(c)
  {
    CleanRutAppend(a + b, c);
    CleanRutAppend(a, b);
  }

  /** A character outside `[0-9kK]` is removed. */
  lemma CleanRutDropped(ch: char)
    requires !IsRutChar(ch)
    ensures CleanRut([ch]) == []
  {
    assert [ch][1..] == [];
  }

  /** A digit or `K` is kept. */
  lemma CleanRutKept(ch: char)
    requires IsDigit(ch) || ch == 'K'
    ensures CleanRut([ch]) == [ch]
  {
    assert [ch][1..] == [];
  }

  /** Thousands grouping of a digit string, built from the right: the reference the dotting is
      compared with. */
  function Thousands(b: string): string
    decreases |b|
  {
    if |b| <= 3 then b else Thousands(b[..|b| - 3]) + "." + b[|b| - 3..]
  }

  /** The separator before position `p` of a digit string. */
  lemma SeparatorOfDigits(b: string, p: nat)
    requires AllDigits(b) && p <= |b|
    ensures Separator(b, p) == (if 0 < p < |b| && (|b| - p) % 3 == 0 then "." else "")
  {
    DotPositions(b, p);
  }

  /** On digits, the dotting agrees with the grouping from the right. */
  lemma {:induction false} DottedIsThousands(b: string)
    requires AllDigits(b)
    ensures DottedFrom(b, 0) == Thousands(b)
    decreases |b|
  {
    if |b| <= 3 {
      ShortBodyUndotted(b);
    } else {
      var x := b[..|b| - 3];
      assert AllDigits(x);
      calc {
        DottedFrom(b, 0);
      == { DottedPrefix(b, x, 0); }
        DottedFrom(x, 0) + DottedFrom(b, |x|);
      == { DottedIsThousands(x); DottedLastGroup(b); }
        Thousands(x) + ("." + b[|b| - 3..]);
      ==
        Thousands(x) + "." + b[|b| - 3..];
      }
    }
  }

  /** Three digits or fewer get no dot. */
  lemma ShortBodyUndotted(b: string)
    requires AllDigits(b) && |b| <= 3
    ensures DottedFrom(b, 0) == b
  {
    forall k | 0 <= k <= |b| ensures Separator(b, k) == [] {
      SeparatorOfDigits(b, k);
    }
    DottedPlain(b, 0, |b|);
    assert b[0..|b|] == b;
  }

  /** Before the last groups of three the dotting of `b` is the dotting of its prefix. */
  lemma {:induction false} DottedPrefix(b: string, x: string, p: nat)
    requires AllDigits(b) && x <= b && (|b| - |x|) % 3 == 0 && p <= |x|
    ensures DottedFrom(b, p) == DottedFrom(x, p) + DottedFrom(b, |x|)
    decreases |x| - p
  {
    if p < |x| {
      assert AllDigits(x);
      assert Separator(b, p) == Separator(x, p) by {
        SeparatorOfDigits(b, p);
        SeparatorOfDigits(x, p);
        ModThree(|x| - p, |b| - |x|);
      }
      assert b[p] == x[p];
      DottedPrefix(b, x, p + 1);
      var head := Separator(b, p) + [b[p]];
      calc {
        DottedFrom(b, p);
        head + DottedFrom(b, p + 1);
        head + (DottedFrom(x, p + 1) + DottedFrom(b, |x|));
        (head + DottedFrom(x, p + 1)) + DottedFrom(b, |x|);
      }
    }
  }

  lemma {:induction false} ModThree(a: nat, d: nat)
    requires d % 3 == 0
    ensures (a + d) % 3 == a % 3
    decreases d
  {
    if d > 0 {
      ModThree(a, d - 3);
    }
  }

  /** The last three digits of a longer digit string follow a dot. */
  lemma DottedLastGroup(b: string)
    requires AllDigits(b) && |b| > 3
    ensures DottedFrom(b, |b| - 3) == "." + b[|b| - 3..]
  {
    var n := |b|;
    SeparatorOfDigits(b, n - 1);
    SeparatorOfDigits(b, n - 2);
    SeparatorOfDigits(b, n - 3);
    LastGroupAfterDot(b);
  }

  /** Three positions from the end, a dot and then two plain positions. */
  lemma LastGroupAfterDot(b: string)
    requires |b| > 3
    requires Separator(b, |b| - 1) == "" && Separator(b, |b| - 2) == "" && Separator(b, |b| - 3) == "."
    ensures DottedFrom(b, |b| - 3) == "." + b[|b| - 3..]
  {
    var n := |b|;
    DottedPlain(b, n - 2, n);
    assert DottedFrom(b, n) == [];
    DottedAt(b, n - 3, ".");
    assert b[n - 2..n] + [] == b[n - 2..];
    assert b[n - 3..] == [b[n - 3]] + b[n - 2..];
  }

  /** One position of the dotting, its separator known. */
  lemma DottedAt(b: string, p: nat, sep: string)
    requires p < |b| && Separator(b, p) == sep
    ensures DottedFrom(b, p) == sep + [b[p]] + DottedFrom(b, p + 1)
  {
  }

  /** Eight digits and a check character print as `dd.ddd.ddd-v`, as in `12.345.678-5`. */
  lemma FormatEightDigits(b: string, dv: char)
    requires |b| == 8 && AllDigits(b) && (IsDigit(dv) || dv == 'K')
    ensures FormatRut(b + [dv]) == b[..2] + "." + b[2..5] + "." + b[5..] + "-" + [dv]
  {
    var c := b + [dv];
    CleanRutIdentity(c);
    assert c[..|c| - 1] == b;
    DottedIsThousands(b);
    assert b[..5][..2] == b[..2] && b[..5][2..] == b[2..5] && b[..5][..5 - 3] == b[..2];
    assert Thousands(b[..5][..2]) == b[..2];
    assert Thousands(b[..5]) == b[..2] + "." + b[2..5];
    assert Thousands(b) == b[..2] + "." + b[2..5] + "." + b[5..];
    assert FormatRut(c) == DottedFrom(b, 0) + "-" + [dv];
  }

  /** Between positions `p` and `q` with no dot the body is copied unchanged. */
  lemma {:induction false} DottedPlain(b: string, p: nat, q: nat)
    requires p <= q <= |b|
    requires forall k :: p <= k < q ==> Separator(b, k) == []
    ensures DottedFrom(b, p) == b[p..q] + DottedFrom(b, q)
    decreases q - p
  {
    if p < q {
      DottedPlain(b, p + 1, q);
      assert Separator(b, p) == [];
      PlainStep(b[p], b[p + 1..q], DottedFrom(b, p + 1), DottedFrom(b, q));
      assert b[p..q] == [b[p]] + b[p + 1..q];
    }
  }

  /** A character with no dot before it joins the plain stretch that follows it. */
  lemma PlainStep(ch: char, plain: string, rest: string, tail: string)
    requires rest == plain + tail
    ensures "" + [ch] + rest == ([ch] + plain) + tail
  {
  }

  /** What `validateRut` returns: eight or nine cleaned characters, and the last one equal to the
      check digit of the rest (a `K` in the rest parses as NaN and fails the comparison). */
  predicate ValidateRutSpec(rut: string): (b: bool)
    ensures b ==> 8 <= |CleanRut(rut)| <= 9 && IsDvChar(CleanRut(rut)[|CleanRut(rut)| - 1])
  {
    var clean := CleanRut(rut);
    8 <= |clean| <= 9
    && var body := clean[..|clean| - 1];
       AllDigits(body) && clean[|clean| - 1] == Dv(body)
  }

  /** `validateRut`: the length test, then the loop over the body with `parseInt`. */
  method ValidateRut(rut: string) returns (ok: bool)
    ensures ok == ValidateRutSpec(rut)
  {
    var clean := CleanRut(rut);
    if |clean| < 8 || |clean| > 9 {
      return false;
    }
    var body := clean[..|clean| - 1];
    var dv := [clean[|clean| - 1]];
    var sum, nan := ParseIntSum(body);
    if nan {
      ok := dv == "NaN";
    } else {
      var expected := 11 - sum % 11;
      var calculated := if expected == 11 then "0" else if expected == 10 then "K" else [DigitChar(expected)];
      assert calculated == [DvFromSum(sum)];
      ok := dv == calculated;
    }
  }

  /** The loop of `validateRut`: `parseInt` of each character times the cycling multiplier,
      with NaN, once a character is not a digit, kept as a flag. */
  method ParseIntSum(body: string) returns (sum: nat, nan: bool)
    ensures nan <==> !AllDigits(body)
    ensures !nan ==> sum == WeightedSum(body)
  {
    sum := 0;
    nan := false;
    var multiplier: nat := 2;
    var i := |body| - 1;
    while i >= 0
      invariant -1 <= i < |body|
      invariant (nan, sum, multiplier) == LoopState(body, i + 1)
    {
      if IsDigit(body[i]) {
        sum := sum + DigitValue(body[i]) * multiplier;
      } else {
        nan := true;
      }
      multiplier := if multiplier == 7 then 2 else multiplier + 1;
      i := i - 1;
    }
    LoopStateMeaning(body, 0);
    assert body[0..] == body;
  }

  /** The loop's variables `(nan, sum, multiplier)` once the characters from `j` to the end have
      been read, right to left. */
  function LoopState(body: string, j: nat): (bool, nat, nat)
    requires j <= |body|
    decreases |body| - j
  {
    if j == |body| then (false, 0, 2)
    else
      var (nan, sum, multiplier) := LoopState(body, j + 1);
      (nan || !IsDigit(body[j]),
       if IsDigit(body[j]) then sum + DigitValue(body[j]) * multiplier else sum,
       if multiplier == 7 then 2 else multiplier + 1)
  }

  /** What the loop has computed: NaN exactly when a character read is not a digit, otherwise
      the weighted sum of the characters read, with the next position's weight as multiplier. */
  lemma {:induction false} LoopStateMeaning(body: string, j: nat)
    requires j <= |body|
    ensures var (nan, sum, multiplier) := LoopState(body, j);
            && (nan <==> !AllDigits(body[j..]))
            && (!nan ==> sum == WeightedSum(body[j..]))
            && multiplier == Weight(|body| - j)
    decreases |body| - j
  {
    if j < |body| {
      LoopStateMeaning(body, j + 1);
      SumStep(body, j);
      WeightNext(|body| - j - 1);
    } else {
      assert body[j..] == [];
    }
  }

  /** The multiplier cycles 2, 3, ..., 7 and back to 2. */
  lemma WeightNext(k: nat)
    ensures Weight(k + 1) == if Weight(k) == 7 then 2 else Weight(k) + 1
  {
  }

  /** One more character to the left: the suffix stays digits iff the character is one, and its
      weighted sum grows by that digit times the position's weight. */
  lemma SumStep(body: string, i: nat)
    requires i < |body|
    ensures AllDigits(body[i..]) <==> IsDigit(body[i]) && AllDigits(body[i + 1..])
    ensures AllDigits(body[i..]) ==>
              WeightedSum(body[i..]) == DigitValue(body[i]) * Weight(|body| - 1 - i) + WeightedSum(body[i + 1..])
  {
    var t := body[i..];
    assert t[0] == body[i] && t[1..] == body[i + 1..];
    AllDigitsCons(t);
    if AllDigits(t) {
      WeightedSumHead(t);
    }
  }

  /** The weighted sum of a digit string, its first digit split off. */
  lemma WeightedSumHead(t: string)
    requires |t| > 0 && AllDigits(t)
    ensures Numeric(t) && Numeric(t[1..])
    ensures WeightedSum(t) == DigitValue(t[0]) * Weight(|t| - 1) + WeightedSum(t[1..])
  {
    AllDigitsCons(t);
    assert forall i :: 0 <= i < |t| ==> NumberOf(t[i]).Some?;
  }

  /** For bodies of seven or eight digits the two validators agree. */
  lemma ValidatorsAgree(body: string, dv: char)
    requires 7 <= |body| <= 8 && AllDigits(body) && IsDvChar(dv)
    ensures ValidateRutSpec(body + "-" + [dv]) <==> IsValidRut(body + "-" + [dv])
  {
    var s := body + "-" + [dv];
    CleanedLength(body, dv);
    var c := CleanRut(s);
    assert c[..|c| - 1] == body;
    ValidIffComputedDv(body, dv);
  }

  /** `validateRut` rejects short RUTs that `isValidRut` accepts: a body of one to six digits
      with its computed check digit is valid for one and not for the other. */
  lemma ValidatorsDisagreeOnShortRut(body: string)
    requires 1 <= |body| <= 6 && AllDigits(body)
    ensures IsValidRut(body + "-" + [Dv(body)])
    ensures !ValidateRutSpec(body + "-" + [Dv(body)])
  {
    ComputedDvIsValid(body);
    CleanedLength(body, Dv(body));
  }

  /** Cleaning digits, a dash and a check character drops the dash only. */
  lemma CleanedLength(body: string, dv: char)
    requires AllDigits(body) && IsDvChar(dv)
    ensures CleanRut(body + "-" + [dv]) == body + [dv]
  {
    CleanRutAppend(body + "-", [dv]);
    CleanRutAppend(body, "-");
    CleanRutIdentity(body);
    CleanRutIdentity([dv]);
  }
}
