/**
 * The two percent-encodings the site relies on: `encodeURIComponent`, and the
 * `application/x-www-form-urlencoded` serialiser behind `URLSearchParams`; both
 * encode a character's UTF-8 bytes.  A URL is a record of its components.
 */
module Url {
  import opened Strings

  /** A parsed URL, as `new URL(...)` exposes it. */
  datatype Url = Url(protocol: string, username: string, password: string, host: string,
                     pathname: string, search: string, hash: string)

  /** The UTF-8 encoding of one character (a Unicode scalar value). */
  function Utf8(c: char): (r: seq<Byte>)
    ensures 1 <= |r| <= 4
    ensures |r| == 1 <==> c as int < 0x80
    ensures |r| == 1 ==> r[0] == c as int
  {
    var n := c as int;
    if n < 0x80 then [n]
    else if n < 0x800 then [0xC0 + n / 64, 0x80 + n % 64]
    else if n < 0x10000 then [0xE0 + n / 4096, 0x80 + n / 64 % 64, 0x80 + n % 64]
    else [0xF0 + n / 262144, 0x80 + n / 4096 % 64, 0x80 + n / 64 % 64, 0x80 + n % 64]
  }

  function HexDigit(d: nat): char
    requires d < 16
  {
    if d < 10 then ('0' as int + d) as char else ('A' as int + d - 10) as char
  }

  /** `%XX` with upper-case hexadecimal digits. */
  function PercentBytes(bs: seq<Byte>): (r: string)
    ensures |r| == 3 * |bs|
    ensures forall c :: c in r ==> c == '%' || IsAlnum(c)
  {
    if bs == [] then [] else ['%', HexDigit(bs[0] / 16), HexDigit(bs[0] % 16)] + PercentBytes(bs[1..])
  }

  predicate IsAlnum(c: char) {
    'A' <= c <= 'Z' || 'a' <= c <= 'z' || '0' <= c <= '9'
  }

  /** The characters `encodeURIComponent` leaves as they are. */
  predicate UriUnreserved(c: char) {
    IsAlnum(c) || c == '-' || c == '_' || c == '.' || c == '!' || c == '~' || c == '*' || c == '\''
    || c == '(' || c == ')'
  }

  function EncodeUriComponent(s: string): (r: string)
    ensures |r| >= |s|
  {
    if s == [] then []
    else (if UriUnreserved(s[0]) then [s[0]] else PercentBytes(Utf8(s[0]))) + EncodeUriComponent(s[1..])
  }

  /** What `encodeURIComponent` produces: unreserved characters and `%`, so never a `&`, `=`,
      `?`, `#`, `/` or space that would end the query parameter it is put into. */
  lemma {:induction false} EncodeUriComponentAlphabet(s: string)
    ensures forall c :: c in EncodeUriComponent(s) ==> UriUnreserved(c) || c == '%'
  {
    if s != [] {
      EncodeUriComponentAlphabet(s[1..]);
    }
  }

  /** A string is left unchanged exactly when all its characters are unreserved. */
  lemma {:induction false} EncodeUriComponentIdentity(s: string)
    ensures EncodeUriComponent(s) == s <==> forall c :: c in s ==> UriUnreserved(c)
  {
    if s != [] {
      EncodeUriComponentIdentity(s[1..]);
      if UriUnreserved(s[0]) {
        assert forall c :: c in s ==> c == s[0] || c in s[1..];
        if EncodeUriComponent(s) == s {
          assert EncodeUriComponent(s[1..]) == EncodeUriComponent(s)[1..];
        }
      } else {
        assert |EncodeUriComponent(s)| > |s|;
      }
    }
  }

  /** The characters the form serialiser leaves as they are. */
  predicate FormSafe(c: char) {
    IsAlnum(c) || c == '*' || c == '-' || c == '.' || c == '_'
  }

  /** The `application/x-www-form-urlencoded` byte serialiser: a space becomes `+`, safe
      characters stay, every other byte is percent-encoded. */
  function FormEncode(s: string): (r: string)
    ensures |r| >= |s|
  {
    if s == [] then []
    else
      (if s[0] == ' ' then "+" else if FormSafe(s[0]) then [s[0]] else PercentBytes(Utf8(s[0])))
      + FormEncode(s[1..])
  }

  /** What the serialiser produces: safe characters, `+` and `%`, so never a `&` or `=` that would
      split or end the parameter. */
  lemma {:induction false} FormEncodeAlphabet(s: string)
    ensures forall c :: c in FormEncode(s) ==> FormSafe(c) || c == '+' || c == '%'
  {
    if s != [] {
      FormEncodeAlphabet(s[1..]);
    }
  }
}
