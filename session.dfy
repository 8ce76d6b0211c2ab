/**
 * Signed cookies (src/lib/session.ts): a payload is serialised to JSON, encoded base64url and
 * followed by `.` and the base64url HMAC-SHA256 of that encoding under `SESSION_SECRET`.
 * The response's cookie store is a class whose map the setters update; JSON, UTF-8 and the
 * HMAC are parameters.
 */
module Session {
  import opened Wrappers
  import opened Strings
  import opened Errors
  import opened Config
  import opened Base64

  const SessionCookie: string := "cm_session"
  const OtpChallengeCookie: string := "cm_otp"

  /** Thirty days and ten minutes, in seconds. */
  const SessionMaxAge: int := 60 * 60 * 24 * 30
  const ChallengeMaxAge: int := 60 * 10

  /** What the tokens carry: the patient, the RUT, the phone (only in an OTP challenge) and the
      signing time in milliseconds. */
  datatype Payload = Payload(patientId: string, rut: string, phone: Option<string>, iat: int)

  /** The library calls session.ts makes: `JSON.stringify` followed by UTF-8 encoding, UTF-8
      decoding followed by `JSON.parse` (`None` when it throws or gives no such object), and
      `createHmac("sha256", key).update(msg).digest()`. */
  datatype Crypto = Crypto(
    stringify: Payload -> seq<Byte>,
    parse: seq<Byte> -> Option<Payload>,
    hmac: (string, string) -> seq<Byte>)

  /** What the model relies on: JSON parses back what it printed and never prints nothing, and
      a digest has 32 bytes. */
  ghost predicate Sound(c: Crypto) {
    (forall p :: c.parse(c.stringify(p)) == Some(p))
    && (forall p :: |c.stringify(p)| > 0)
    && (forall k, m :: |c.hmac(k, m)| == 32)
  }

  const MissingSecret: ApiError := ApiError("SESSION_SECRET faltante", 500, Some("MISSING_SESSION_SECRET"))

  /** `secret()`: the variable when it is set and non-empty, otherwise a 500. */
  function Secret(env: Env): (r: Result<string, ApiError>)
    ensures r.Success? <==> Truthy(env.sessionSecret)
    ensures r.Success? ==> r.value == env.sessionSecret.value
    ensures r.Failure? ==> r.error == MissingSecret
  {
    if Truthy(env.sessionSecret) then Success(env.sessionSecret.value) else Failure(MissingSecret)
  }

  /** The token for `payload` under `key`. */
  function SignWith(c: Crypto, key: string, payload: Payload): string {
    var p := Base64Url(c.stringify(payload));
    p + "." + Base64Url(c.hmac(key, p))
  }

  /** `sign(payload)`: fails only when the secret is missing. */
  function Sign(c: Crypto, env: Env, payload: Payload): (r: Result<string, ApiError>)
    ensures r.Failure? <==> !Truthy(env.sessionSecret)
    ensures r.Success? ==> r.value == SignWith(c, env.sessionSecret.value, payload)
  {
    match Secret(env)
    case Failure(e) => Failure(e)
    case Success(key) => Success(SignWith(c, key, payload))
  }

  /** The first two `.`-separated segments of a token; a missing second one reads as empty. */
  function Segments(token: string): (string, string) {
    var parts := Split(token, '.');
    (parts[0], if |parts| > 1 then parts[1] else "")
  }

  /** `verify(token)`: `null` (here `None`) when a segment is empty, the signature does not match
      or the payload does not parse; the secret is read only once both segments are present. */
  function Verify(c: Crypto, env: Env, token: string): (r: Result<Option<Payload>, ApiError>)
    ensures r.Failure? <==> Segments(token).0 != "" && Segments(token).1 != "" && !Truthy(env.sessionSecret)
    ensures r.Failure? ==> r.error == MissingSecret
    ensures r.Success? && r.value.Some? ==>
              Truthy(env.sessionSecret)
              && Unbase64Url(Segments(token).1) == c.hmac(env.sessionSecret.value, Segments(token).0)
              && c.parse(Unbase64Url(Segments(token).0)) == r.value
  {
    var (p, s) := Segments(token);
    if p == "" || s == "" then Success(None)
    else
      match Secret(env)
      case Failure(e) => Failure(e)
      case Success(key) =>
        var expected := c.hmac(key, p);
        var got := Unbase64Url(s);
        if |got| != |expected| then Success(None)
        else if got != expected then Success(None)
        else Success(c.parse(Unbase64Url(p)))
  }

  /** Two non-empty byte strings encoded and joined by `.` split back into the two encodings,
      each of which decodes to its bytes. */
  lemma TokenPieces(x: seq<Byte>, y: seq<Byte>)
    requires |x| > 0 && |y| > 0
    ensures var p := Base64Url(x);
            var s := Base64Url(y);
            p != [] && s != [] && '.' !in p && '.' !in s && Segments(p + "." + s) == (p, s)
            && Unbase64Url(p) == x && Unbase64Url(s) == y
  {
    Base64UrlAlphabet(x);
    Base64UrlAlphabet(y);
    Base64UrlIsMapUrl(x);
    Base64UrlIsMapUrl(y);
    SegmentsOfTwo(Base64Url(x), Base64Url(y));
    Base64UrlRoundTrip(x);
    Base64UrlRoundTrip(y);
  }

  /** A token is two non-empty segments without a `.` in either. */
  lemma SignedShape(c: Crypto, key: string, payload: Payload)
    requires Sound(c)
    ensures var p := Base64Url(c.stringify(payload));
            var s := Base64Url(c.hmac(key, p));
            SignWith(c, key, payload) == p + "." + s
            && p != [] && s != [] && '.' !in p && '.' !in s
            && Segments(SignWith(c, key, payload)) == (p, s)
            && Unbase64Url(p) == c.stringify(payload)
            && Unbase64Url(s) == c.hmac(key, p)
  {
    var x := c.stringify(payload);
    TokenPieces(x, c.hmac(key, Base64Url(x)));
  }

  /** The round trip: a token signed under the configured secret verifies to its payload. */
  lemma VerifySigned(c: Crypto, env: Env, payload: Payload)
    requires Sound(c) && Truthy(env.sessionSecret)
    ensures Verify(c, env, SignWith(c, env.sessionSecret.value, payload)) == Success(Some(payload))
  {
    SignedShape(c, env.sessionSecret.value, payload);
  }

  /** A token is accepted only when its second segment decodes to the HMAC of its first and the
      first decodes to the payload returned. */
  lemma VerifyAcceptsOnlySigned(c: Crypto, env: Env, token: string, x: Payload)
    requires Verify(c, env, token) == Success(Some(x))
    ensures Truthy(env.sessionSecret)
    ensures var (p, s) := Segments(token);
            p != "" && s != ""
            && Unbase64Url(s) == c.hmac(env.sessionSecret.value, p)
            && c.parse(Unbase64Url(p)) == Some(x)
  {
  }

  /** A token with an empty segment is refused before the secret is read: even with no secret
      configured the answer is `null`, not an error. */
  lemma VerifyEmptySegment(c: Crypto, env: Env, token: string)
    requires Segments(token).0 == "" || Segments(token).1 == ""
    ensures Verify(c, env, token) == Success(None)
  {
  }

  /** A well-formed token with no secret configured is a 500. */
  lemma VerifyMissingSecret(c: Crypto, env: Env, token: string)
    requires Segments(token).0 != "" && Segments(token).1 != ""
    requires !Truthy(env.sessionSecret)
    ensures Verify(c, env, token) == Failure(MissingSecret)
  {
  }

  /** The segments of `p.s` when neither part has a `.`. */
  lemma SegmentsOfTwo(p: string, s: string)
    requires '.' !in p && '.' !in s
    ensures Segments(p + "." + s) == (p, s)
  {
    SplitHead(p, '.', s);
  }

  /** The segments of `p.s.tail`: the tail is not among them. */
  lemma SegmentsOfMore(p: string, s: string, tail: string)
    requires '.' !in p && '.' !in s
    ensures Segments(p + "." + s + "." + tail) == (p, s)
  {
    assert p + "." + s + "." + tail == p + "." + (s + "." + tail);
    SplitHead(p, '.', s + "." + tail);
    SplitHead(s, '.', tail);
  }

  /** Only the first two segments count: anything after a second `.` is ignored. */
  lemma VerifyIgnoresTail(c: Crypto, env: Env, p: string, s: string, tail: string)
    requires '.' !in p && '.' !in s
    ensures Verify(c, env, p + "." + s + "." + tail) == Verify(c, env, p + "." + s)
  {
    SegmentsOfTwo(p, s);
    SegmentsOfMore(p, s, tail);
  }

  /** The options `cookies().set` is given. */
  datatype CookieOptions = CookieOptions(
    httpOnly: bool, sameSite: Option<string>, secure: Option<bool>, path: string, maxAge: int)

  datatype Cookie = Cookie(value: string, options: CookieOptions)

  /** The options of a cookie that is being set: HTTP-only, `lax`, secure in production, the
      whole site. */
  function SetOptions(env: Env, maxAge: int): (o: CookieOptions)
    ensures o.httpOnly && o.path == "/" && o.maxAge == maxAge
    ensures o.secure == Some(IsProduction(env)) && o.sameSite == Some("lax")
  {
    CookieOptions(true, Some("lax"), Some(IsProduction(env)), "/", maxAge)
  }

  /** The options of a cookie that is being cleared: expires at once. */
  const ClearOptions: CookieOptions := CookieOptions(true, None, None, "/", 0)

  /** `cookies().get(name)?.value`. */
  function CookieValue(jar: map<string, Cookie>, name: string): Option<string> {
    if name in jar then Some(jar[name].value) else None
  }

  /** `getSession()` / `getOtpChallenge()` on a jar: a missing or empty cookie is `null`,
      anything else goes through `verify`. */
  function ReadToken(c: Crypto, env: Env, jar: map<string, Cookie>, name: string)
    : (r: Result<Option<Payload>, ApiError>)
    ensures name !in jar || jar[name].value == "" ==> r == Success(None)
    ensures name in jar && jar[name].value != "" ==> r == Verify(c, env, jar[name].value)
  {
    match CookieValue(jar, name)
    case None => Success(None)
    case Some(v) => if v == "" then Success(None) else Verify(c, env, v)
  }

  /** The jar after a signed cookie is set. */
  function WithToken(c: Crypto, env: Env, jar: map<string, Cookie>, name: string, payload: Payload,
                     maxAge: int): map<string, Cookie>
    requires Truthy(env.sessionSecret)
  {
    jar[name := Cookie(SignWith(c, env.sessionSecret.value, payload), SetOptions(env, maxAge))]
  }

  /** Reading back a cookie that was just set gives its payload. */
  lemma ReadWrittenToken(c: Crypto, env: Env, jar: map<string, Cookie>, name: string,
                         payload: Payload, maxAge: int)
    requires Sound(c) && Truthy(env.sessionSecret)
    ensures ReadToken(c, env, WithToken(c, env, jar, name, payload, maxAge), name) == Success(Some(payload))
  {
    SignedShape(c, env.sessionSecret.value, payload);
    VerifySigned(c, env, payload);
  }

  /** A cookie that reads as a payload was verified, so the secret is set. */
  lemma ReadTokenNeedsSecret(c: Crypto, env: Env, jar: map<string, Cookie>, name: string)
    requires ReadToken(c, env, jar, name).Success? && ReadToken(c, env, jar, name).value.Some?
    ensures Truthy(env.sessionSecret)
  {
    VerifyAcceptsOnlySigned(c, env, jar[name].value, ReadToken(c, env, jar, name).value.value);
  }

  /** A cleared cookie reads as `null`. */
  lemma ReadClearedToken(c: Crypto, env: Env, jar: map<string, Cookie>, name: string)
    ensures ReadToken(c, env, jar[name := Cookie("", ClearOptions)], name) == Success(None)
  {
  }

  /** Setting or clearing one cookie leaves the others readable as before. */
  lemma ReadOtherToken(c: Crypto, env: Env, jar: map<string, Cookie>, name: string, other: string,
                       cookie: Cookie)
    requires name != other
    ensures ReadToken(c, env, jar[name := cookie], other) == ReadToken(c, env, jar, other)
  {
  }

  /** A cookie's value copied under another name reads as the original does. */
  lemma ReadCopiedToken(c: Crypto, env: Env, jar: map<string, Cookie>, from: string, to: string)
    requires from in jar
    ensures ReadToken(c, env, jar[to := jar[from]], to) == ReadToken(c, env, jar, from)
  {
  }

  /** The request's cookie store: what `cookies().set` writes and `cookies().get` reads. */
  class CookieStore {
    var jar: map<string, Cookie>

    constructor (initial: map<string, Cookie>)
      ensures jar == initial
    {
      jar := initial;
    }

    method Set(name: string, value: string, options: CookieOptions)
      modifies this
      ensures jar == old(jar)[name := Cookie(value, options)]
    {
      jar := jar[name := Cookie(value, options)];
    }
  }

  /** `setSession` / `setOtpChallenge`: sign the payload stamped with `now` and set the cookie. */
  method SetToken(store: CookieStore, c: Crypto, env: Env, name: string, payload: Payload, maxAge: int)
    returns (outcome: Outcome<ApiError>)
    modifies store
    ensures !Truthy(env.sessionSecret) ==> outcome == Fail(MissingSecret) && store.jar == old(store.jar)
    ensures Truthy(env.sessionSecret) ==>
              outcome == Pass && store.jar == WithToken(c, env, old(store.jar), name, payload, maxAge)
  {
    var signed := Sign(c, env, payload);
    match signed {
      case Failure(e) =>
        outcome := Fail(e);
      case Success(value) =>
        store.Set(name, value, SetOptions(env, maxAge));
        outcome := Pass;
    }
  }

  /** `setSession({patientId, rut})` at time `now`. */
  method SetSession(store: CookieStore, c: Crypto, env: Env, patientId: string, rut: string, now: int)
    returns (outcome: Outcome<ApiError>)
    modifies store
    ensures !Truthy(env.sessionSecret) ==> outcome == Fail(MissingSecret) && store.jar == old(store.jar)
    ensures Truthy(env.sessionSecret) ==>
              outcome == Pass
              && store.jar == WithToken(c, env, old(store.jar), SessionCookie,
                                        Payload(patientId, rut, None, now), SessionMaxAge)
  {
    outcome := SetToken(store, c, env, SessionCookie, Payload(patientId, rut, None, now), SessionMaxAge);
  }

  /** `setOtpChallenge({patientId, rut, phone})` at time `now`. */
  method SetOtpChallenge(store: CookieStore, c: Crypto, env: Env, patientId: string, rut: string,
                         phone: string, now: int)
    returns (outcome: Outcome<ApiError>)
    modifies store
    ensures !Truthy(env.sessionSecret) ==> outcome == Fail(MissingSecret) && store.jar == old(store.jar)
    ensures Truthy(env.sessionSecret) ==>
              outcome == Pass
              && store.jar == WithToken(c, env, old(store.jar), OtpChallengeCookie,
                                        Payload(patientId, rut, Some(phone), now), ChallengeMaxAge)
  {
    outcome := SetToken(store, c, env, OtpChallengeCookie, Payload(patientId, rut, Some(phone), now),
                        ChallengeMaxAge);
  }

  /** `clearSession` / `clearOtpChallenge`: an empty value that expires at once. */
  method ClearToken(store: CookieStore, name: string)
    modifies store
    ensures store.jar == old(store.jar)[name := Cookie("", ClearOptions)]
  {
    store.Set(name, "", ClearOptions);
  }

  /** The token confusion as written: both cookies are signed the same way with the same key,
      so the value of an OTP challenge cookie, copied into the session cookie, is accepted as a
      session for the challenge's patient, before any code was checked. */
  lemma ChallengeAcceptedAsSession(c: Crypto, env: Env, jar: map<string, Cookie>, challenge: Payload)
    requires Sound(c) && Truthy(env.sessionSecret)
    ensures var j := WithToken(c, env, jar, OtpChallengeCookie, challenge, ChallengeMaxAge);
            ReadToken(c, env, j[SessionCookie := j[OtpChallengeCookie]], SessionCookie)
              == Success(Some(challenge))
  {
    var j := WithToken(c, env, jar, OtpChallengeCookie, challenge, ChallengeMaxAge);
    SignedShape(c, env.sessionSecret.value, challenge);
    VerifySigned(c, env, challenge);
  }

  /** The corrected signing: the MAC covers the cookie name as well as the payload. */
  function SignFor(c: Crypto, key: string, name: string, payload: Payload): string {
    var p := Base64Url(c.stringify(payload));
    p + "." + Base64Url(c.hmac(key, name + ":" + p))
  }

  /** The corrected `verify`, which checks the MAC for the cookie it reads. */
  function VerifyFor(c: Crypto, env: Env, name: string, token: string): Result<Option<Payload>, ApiError> {
    var (p, s) := Segments(token);
    if p == "" || s == "" then Success(None)
    else
      match Secret(env)
      case Failure(e) => Failure(e)
      case Success(key) =>
        var expected := c.hmac(key, name + ":" + p);
        var got := Unbase64Url(s);
        if |got| != |expected| then Success(None)
        else if got != expected then Success(None)
        else Success(c.parse(Unbase64Url(p)))
  }

  /** The pieces of a purpose-bound token. */
  lemma SignForShape(c: Crypto, key: string, name: string, payload: Payload)
    requires Sound(c)
    ensures var p := Base64Url(c.stringify(payload));
            var s := Base64Url(c.hmac(key, name + ":" + p));
            SignFor(c, key, name, payload) == p + "." + s
            && p != [] && s != [] && Segments(p + "." + s) == (p, s)
            && Unbase64Url(p) == c.stringify(payload)
            && Unbase64Url(s) == c.hmac(key, name + ":" + p)
  {
    var x := c.stringify(payload);
    TokenPieces(x, c.hmac(key, name + ":" + Base64Url(x)));
  }

  /** With the correction a token still verifies for the cookie it was made for... */
  lemma VerifyForSigned(c: Crypto, env: Env, name: string, payload: Payload)
    requires Sound(c) && Truthy(env.sessionSecret)
    ensures VerifyFor(c, env, name, SignFor(c, env.sessionSecret.value, name, payload)) == Success(Some(payload))
  {
    SignForShape(c, env.sessionSecret.value, name, payload);
  }

  /** A signature that is not the MAC for the cookie being read is refused. */
  lemma VerifyForRejects(c: Crypto, env: Env, name: string, p: string, s: string)
    requires Truthy(env.sessionSecret) && p != [] && s != [] && Segments(p + "." + s) == (p, s)
    requires Unbase64Url(s) != c.hmac(env.sessionSecret.value, name + ":" + p)
    ensures VerifyFor(c, env, name, p + "." + s) == Success(None)
  {
  }

  /**
   * ... and under any other cookie name it is accepted exactly when the MAC gives the same
   * digest for both names, that is, exactly when HMAC collides on the two inputs.
   */
  lemma VerifyForOtherName(c: Crypto, env: Env, made: string, read: string, payload: Payload)
    requires Sound(c) && Truthy(env.sessionSecret)
    ensures var key := env.sessionSecret.value;
            var p := Base64Url(c.stringify(payload));
            VerifyFor(c, env, read, SignFor(c, key, made, payload))
              == if c.hmac(key, made + ":" + p) == c.hmac(key, read + ":" + p) then Success(Some(payload))
                 else Success(None)
  {
    var key := env.sessionSecret.value;
    SignForShape(c, key, made, payload);
    var p := Base64Url(c.stringify(payload));
    if c.hmac(key, made + ":" + p) != c.hmac(key, read + ":" + p) {
      VerifyForRejects(c, env, read, p, Base64Url(c.hmac(key, made + ":" + p)));
    }
  }

  /**
   * In particular an OTP challenge token is never accepted as a session, as long as the MAC
   * tells the challenge's input from the session's for this payload.
   */
  lemma ChallengeNeverSession(c: Crypto, env: Env, payload: Payload)
    requires Sound(c) && Truthy(env.sessionSecret)
    requires var p := Base64Url(c.stringify(payload));
             c.hmac(env.sessionSecret.value, OtpChallengeCookie + ":" + p)
               != c.hmac(env.sessionSecret.value, SessionCookie + ":" + p)
    ensures VerifyFor(c, env, SessionCookie, SignFor(c, env.sessionSecret.value, OtpChallengeCookie, payload))
            == Success(None)
  {
    VerifyForOtherName(c, env, OtpChallengeCookie, SessionCookie, payload);
  }
}
