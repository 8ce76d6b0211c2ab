/**
 * Base64 as Node's `Buffer` does it (`toString("base64")` and `Buffer.from(s, "base64")`) and
 * the URL-safe variant session.ts builds on top of it (`base64url`, `unbase64url`).
 * Bytes are split into six-bit groups; encoding maps the groups to the alphabet, and
 * decoding skips characters outside the alphabet and stops at the first `=`, as Node does.
 */
module Base64 {
  import opened Wrappers
  import opened Strings

  type Sextet = x: int | 0 <= x < 64

  /** The six-bit groups of a byte string: four per three bytes, and two or three for a
      trailing one or two bytes (the unused low bits are zero). */
  function Sextets(b: seq<Byte>): (r: seq<Sextet>)
    ensures |r| == |b| / 3 * 4 + (if |b| % 3 == 0 then 0 else |b| % 3 + 1)
    decreases |b|
  {
    if |b| >= 3 then
      [b[0] / 4, (b[0] % 4) * 16 + b[1] / 16, (b[1] % 16) * 4 + b[2] / 64, b[2] % 64]
      + Sextets(b[3..])
    else if |b| == 2 then [b[0] / 4, (b[0] % 4) * 16 + b[1] / 16, (b[1] % 16) * 4]
    else if |b| == 1 then [b[0] / 4, (b[0] % 4) * 16]
    else []
  }

  /** The bytes a run of six-bit groups decodes to: three per four, and one or two for a trailing
      two or three groups (a single trailing group decodes to nothing). */
  function FromSextets(s: seq<Sextet>): seq<Byte>
    decreases |s|
  {
    if |s| >= 4 then
      [Byte0(s[0], s[1]), Byte1(s[1], s[2]), Byte2(s[2], s[3])] + FromSextets(s[4..])
    else if |s| == 3 then [Byte0(s[0], s[1]), Byte1(s[1], s[2])]
    else if |s| == 2 then [Byte0(s[0], s[1])]
    else []
  }

  /** The first, second and third byte of a group, from the two groups that hold its bits. */
  function Byte0(a: Sextet, b: Sextet): Byte {
    a as int * 4 + b as int / 16
  }

  function Byte1(b: Sextet, c: Sextet): Byte {
    (b as int % 16) * 16 + c as int / 4
  }

  function Byte2(c: Sextet, d: Sextet): Byte {
    (c as int % 4) * 64 + d as int
  }

  /** Three bytes survive the trip through four groups. */
  lemma GroupRoundTrip(x: Byte, y: Byte, z: Byte)
    ensures var s0: Sextet, s1: Sextet, s2: Sextet, s3: Sextet :=
              x / 4, (x % 4) * 16 + y / 16, (y % 16) * 4 + z / 64, z % 64;
            Byte0(s0, s1) == x && Byte1(s1, s2) == y && Byte2(s2, s3) == z
  {
  }

  /** Decoding the groups of a byte string gives the bytes back. */
  lemma {:induction false} SextetsRoundTrip(b: seq<Byte>)
    ensures FromSextets(Sextets(b)) == b
    decreases |b|
  {
    if |b| >= 3 {
      SextetsRoundTrip(b[3..]);
      GroupRoundTrip(b[0], b[1], b[2]);
      var s := Sextets(b);
      assert s[4..] == Sextets(b[3..]);
      assert b == [b[0], b[1], b[2]] + b[3..];
    } else if |b| == 2 {
      GroupRoundTrip(b[0], b[1], 0);
    } else if |b| == 1 {
      GroupRoundTrip(b[0], 0, 0);
    }
  }

  /** The standard alphabet: `A-Z`, `a-z`, `0-9`, `+`, `/`. */
  function StdChar(v: Sextet): char {
    if v < 26 then ('A' as int + v) as char
    else if v < 52 then ('a' as int + v - 26) as char
    else if v < 62 then ('0' as int + v - 52) as char
    else if v == 62 then '+'
    else '/'
  }

  /** The URL-safe alphabet: `-` and `_` in place of `+` and `/`. */
  function UrlChar(v: Sextet): char {
    if v == 62 then '-' else if v == 63 then '_' else StdChar(v)
  }

  /** The value Node's decoder gives a character: both alphabets are accepted, anything else has
      none. */
  function SextetValue(c: char): (r: Option<Sextet>)
    ensures forall v: Sextet :: StdChar(v) == c ==> r == Some(v)
    ensures forall v: Sextet :: UrlChar(v) == c ==> r == Some(v)
  {
    if 'A' <= c <= 'Z' then Some(c as int - 'A' as int)
    else if 'a' <= c <= 'z' then Some(c as int - 'a' as int + 26)
    else if '0' <= c <= '9' then Some(c as int - '0' as int + 52)
    else if c == '+' || c == '-' then Some(62)
    else if c == '/' || c == '_' then Some(63)
    else None
  }

  /** The `=` padding that completes the last group of four characters. */
  function Padding(n: nat): string {
    if n % 3 == 1 then "==" else if n % 3 == 2 then "=" else ""
  }

  function MapStd(s: seq<Sextet>): (r: string)
    ensures |r| == |s| && forall i :: 0 <= i < |s| ==> r[i] == StdChar(s[i])
  {
    if s == [] then [] else [StdChar(s[0])] + MapStd(s[1..])
  }

  function MapUrl(s: seq<Sextet>): (r: string)
    ensures |r| == |s| && forall i :: 0 <= i < |s| ==> r[i] == UrlChar(s[i])
  {
    if s == [] then [] else [UrlChar(s[0])] + MapUrl(s[1..])
  }

  /** `buf.toString("base64")`. */
  function Encode(b: seq<Byte>): string {
    MapStd(Sextets(b)) + Padding(|b|)
  }

  /** The groups Node's decoder reads: characters outside the alphabet are skipped and the first
      `=` ends the input. */
  function DecodeChars(s: string): seq<Sextet> {
    if s == [] || s[0] == '=' then []
    else
      match SextetValue(s[0])
      case Some(v) => [v] + DecodeChars(s[1..])
      case None => DecodeChars(s[1..])
  }

  /** `Buffer.from(s, "base64")`. */
  function Decode(s: string): seq<Byte> {
    FromSextets(DecodeChars(s))
  }

  /** `base64url(input)`: the standard encoding with `=` removed, `+` turned to `-` and `/` to `_`. */
  function Base64Url(b: seq<Byte>): string {
    ReplaceChar(ReplaceChar(RemoveChar(Encode(b), '='), '+', '-'), '/', '_')
  }

  /** `unbase64url(input)`: `-` back to `+`, `_` back to `/`, `=` padding to a multiple of four,
      then the standard decoder. */
  function Unbase64Url(s: string): seq<Byte> {
    var t := ReplaceChar(ReplaceChar(s, '-', '+'), '_', '/');
    var pad := |t| % 4;
    Decode(if pad != 0 then t + Repeat('=', 4 - pad) else t)
  }

  /** The standard alphabet has no `=`. */
  lemma StdCharNotPad(v: Sextet)
    ensures StdChar(v) != '='
    ensures StdChar(v) == '+' <==> v == 62
    ensures StdChar(v) == '/' <==> v == 63
  {
  }

  /** Removing the padding leaves the mapped groups. */
  lemma {:induction false} RemovePadding(s: seq<Sextet>, n: nat)
    ensures RemoveChar(MapStd(s) + Padding(n), '=') == MapStd(s)
  {
    RemoveCharAppend(MapStd(s), Padding(n), '=');
    forall i | 0 <= i < |s| ensures MapStd(s)[i] != '=' {
      StdCharNotPad(s[i]);
    }
    RemoveCharIdentity(MapStd(s), '=');
    assert RemoveChar(Padding(n), '=') == [];
  }

  /** `base64url` is the URL-safe alphabet applied to the groups, without padding. */
  lemma Base64UrlIsMapUrl(b: seq<Byte>)
    ensures Base64Url(b) == MapUrl(Sextets(b))
  {
    var s := Sextets(b);
    RemovePadding(s, |b|);
    var t := ReplaceChar(ReplaceChar(MapStd(s), '+', '-'), '/', '_');
    forall i | 0 <= i < |s| ensures t[i] == UrlChar(s[i]) {
      StdCharNotPad(s[i]);
    }
  }

  /** The characters `base64url` can produce: the URL-safe alphabet, so never `.` (the token
      separator), `=`, `+` or `/`. */
  lemma Base64UrlAlphabet(b: seq<Byte>)
    ensures forall c :: c in Base64Url(b) ==> c != '.' && c != '=' && c != '+' && c != '/'
    ensures forall c :: c in Base64Url(b) ==> SextetValue(c).Some?
  {
    Base64UrlIsMapUrl(b);
    var s := Sextets(b);
    forall c | c in MapUrl(s)
      ensures c != '.' && c != '=' && c != '+' && c != '/' && SextetValue(c).Some?
    {
      var i :| 0 <= i < |s| && MapUrl(s)[i] == c;
      UrlCharProps(s[i]);
    }
  }

  /** What a URL-safe character is not. */
  lemma UrlCharProps(v: Sextet)
    ensures UrlChar(v) != '.' && UrlChar(v) != '=' && UrlChar(v) != '+' && UrlChar(v) != '/'
    ensures SextetValue(UrlChar(v)) == Some(v)
  {
  }

  /** The decoder reads back exactly the groups behind a run of standard characters, whatever
      padding follows. */
  lemma {:induction false} DecodeCharsOfMapStd(s: seq<Sextet>, tail: string)
    requires tail == [] || tail[0] == '='
    ensures DecodeChars(MapStd(s) + tail) == s
    decreases |s|
  {
    if s != [] {
      var x := MapStd(s) + tail;
      assert x[0] == StdChar(s[0]);
      StdCharNotPad(s[0]);
      assert x[1..] == MapStd(s[1..]) + tail;
      DecodeCharsOfMapStd(s[1..], tail);
    } else {
      assert MapStd(s) + tail == tail;
    }
  }

  /** The round trip the session tokens rely on: `unbase64url(base64url(b))` is `b`. */
  lemma Base64UrlRoundTrip(b: seq<Byte>)
    ensures Unbase64Url(Base64Url(b)) == b
  {
    var s := Sextets(b);
    Base64UrlIsMapUrl(b);
    UrlCharsRestored(s);
    PaddedDecodes(s);
    SextetsRoundTrip(b);
  }

  /** Turning `-` and `_` back into `+` and `/` gives the standard alphabet. */
  lemma UrlCharsRestored(s: seq<Sextet>)
    ensures ReplaceChar(ReplaceChar(MapUrl(s), '-', '+'), '_', '/') == MapStd(s)
  {
    var u := MapUrl(s);
    var t := ReplaceChar(ReplaceChar(u, '-', '+'), '_', '/');
    forall i | 0 <= i < |s| ensures t[i] == StdChar(s[i]) {
      assert u[i] == UrlChar(s[i]);
    }
  }

  /** Padding the standard characters to a multiple of four decodes back to the sextets. */
  lemma PaddedDecodes(s: seq<Sextet>)
    ensures var t := MapStd(s);
            var pad := |t| % 4;
            DecodeChars(if pad != 0 then t + Repeat('=', 4 - pad) else t) == s
  {
    var t := MapStd(s);
    var pad := |t| % 4;
    if pad != 0 {
      DecodeCharsOfMapStd(s, Repeat('=', 4 - pad));
    } else {
      DecodeCharsOfMapStd(s, []);
      assert t + [] == t;
    }
  }

  /** Node's decoder ignores a character outside the alphabet: inserting one changes nothing. */
  lemma {:induction false} DecodeCharsSkips(x: string, c: char, y: string)
    requires SextetValue(c).None? && c != '='
    requires '=' !in x
    ensures DecodeChars(x + [c] + y) == DecodeChars(x + y)
    decreases |x|
  {
    if x == [] {
      assert (x + [c] + y)[1..] == y;
      assert x + y == y;
    } else {
      assert (x + [c] + y)[0] == x[0] && (x + y)[0] == x[0];
      assert (x + [c] + y)[1..] == x[1..] + [c] + y;
      assert (x + y)[1..] == x[1..] + y;
      DecodeCharsSkips(x[1..], c, y);
    }
  }
}
