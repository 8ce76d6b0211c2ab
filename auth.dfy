/**
 * The patient login routes: `POST /api/auth/request-otp`, `POST /api/auth/verify-otp` and
 * `POST /api/auth/logout`.  One server object holds the state they change: the client's cookie
 * jar, the rate-limit buckets and the mock provider's codes.  The patient directory (Dentalink),
 * Twilio, the clock and the random draw are parameters; JSON bodies are given by the field the
 * schema reads.
 */
module AuthRoutes {
  import opened Wrappers
  import opened Strings
  import opened Errors
  import opened Config
  import opened Url
  import Rut
  import opened RateLimit
  import opened Session
  import opened Otp
  import Middleware

  /** Request headers, by lower-case name. */
  type Headers = map<string, string>

  function HeaderValue(h: Headers, name: string): Option<string> {
    if name in h then Some(h[name]) else None
  }

  /** `getIP(req)`, the same in both OTP routes: the first `x-forwarded-for` entry, trimmed, then
      `x-real-ip`, then `"unknown"`. */
  function GetIP(h: Headers): string {
    var xff := HeaderValue(h, "x-forwarded-for");
    if Truthy(xff) then Trim(Split(xff.value, ',')[0])
    else OrElse(HeaderValue(h, "x-real-ip"), Some("unknown")).value
  }

  /** Only the first forwarded entry counts. */
  lemma GetIPFirstEntry(h: Headers, first: string, rest: string)
    requires HeaderValue(h, "x-forwarded-for") == Some(first + "," + rest) && ',' !in first
    ensures GetIP(h) == Trim(first)
  {
    assert first + "," + rest == first + [','] + rest;
    SplitHead(first, ',', rest);
  }

  /** Without a forwarded header the real-IP header is used when non-empty, else `"unknown"`. */
  lemma GetIPFallback(h: Headers)
    requires !Truthy(HeaderValue(h, "x-forwarded-for"))
    ensures Truthy(HeaderValue(h, "x-real-ip")) ==> GetIP(h) == h["x-real-ip"]
    ensures !Truthy(HeaderValue(h, "x-real-ip")) ==> GetIP(h) == "unknown"
  {
  }

  /** `maskPhone(phone)`: `***` for fewer than six digits, else `+`, a star per hidden digit and
      the last four digits. */
  function MaskPhone(phone: string): (r: string)
    ensures var d := KeepDigits(phone);
            (|d| < 6 ==> r == "***")
            && (|d| >= 6 ==>
                  |r| == |d| + 1 && r[0] == '+' && r[|r| - 4..] == d[|d| - 4..]
                  && forall i :: 1 <= i < |r| - 4 ==> r[i] == '*')
  {
    var d := KeepDigits(phone);
    if |d| < 6 then "***"
    else
      var r := "+" + Repeat('*', |d| - 4) + d[|d| - 4..];
      assert r[|r| - 4..] == d[|d| - 4..];
      r
  }

  /** The mask reveals nothing but the number of digits and the last four: phones that agree on
      those are masked alike. */
  lemma MaskPhoneHides(p1: string, p2: string)
    requires var d1 := KeepDigits(p1); var d2 := KeepDigits(p2);
             |d1| == |d2| && (|d1| >= 4 ==> d1[|d1| - 4..] == d2[|d2| - 4..])
    ensures MaskPhone(p1) == MaskPhone(p2)
  {
    var m1 := MaskPhone(p1);
    var m2 := MaskPhone(p2);
    if |KeepDigits(p1)| >= 6 {
      assert |m1| == |m2|;
      forall i | 0 <= i < |m1| ensures m1[i] == m2[i] {
        if i >= |m1| - 4 {
          assert m1[i] == m1[|m1| - 4..][i - (|m1| - 4)];
          assert m2[i] == m2[|m2| - 4..][i - (|m2| - 4)];
        }
      }
    }
  }

  /** A JSON value as the route reads it: `null`, a boolean, an integer, a string, or an object
      or array together with what `String` makes of it. */
  datatype JsonValue = JNull | JBool(b: bool) | JNumber(n: int) | JString(s: string) | JComposite(text: string)

  /** A patient object returned by the directory. */
  type Record = map<string, JsonValue>

  /** The directory's answer: an array of patients, an object whose `results` is one (or is
      absent), or anything else. */
  datatype Listing = ListArray(items: seq<Record>) | ListObject(results: Option<seq<Record>>) | ListOther

  /** `String(v)`. */
  function JsString(v: JsonValue): string {
    match v
    case JNull => "null"
    case JBool(b) => if b then "true" else "false"
    case JNumber(n) => IntToString(n)
    case JString(s) => s
    case JComposite(t) => t
  }

  /** `rec.k1 ?? rec.k2 ?? ... ?? ""`, stringified: the first field present and not null. */
  function Coalesce(rec: Record, keys: seq<string>): string {
    if keys == [] then ""
    else if keys[0] in rec && rec[keys[0]] != JNull then JsString(rec[keys[0]])
    else Coalesce(rec, keys[1..])
  }

  /** `Array.isArray(results) ? results[0] : results?.results?.[0] ?? null`. */
  function FirstPatient(listing: Listing): Option<Record> {
    match listing
    case ListArray(items) => if items == [] then None else Some(items[0])
    case ListObject(results) =>
      if results.Some? && results.value != [] then Some(results.value[0]) else None
    case ListOther => None
  }

  datatype Contact = Contact(patientId: string, phone: string)

  const PatientNotFound: ApiError :=
    ApiError("No encontramos tu ficha. Escríbenos por WhatsApp.", 404, Some("PATIENT_NOT_FOUND"))
  const InvalidRecord: ApiError := ApiError("Ficha inválida", 500, None)
  const NoPhone: ApiError :=
    ApiError("No hay celular registrado. Escríbenos por WhatsApp.", 409, Some("NO_PHONE"))
  const InvalidRut: ApiError := ApiError("RUT inválido", 400, None)
  const NoChallenge: ApiError := ApiError("Sesión expirada. Repite el ingreso.", 401, Some("NO_CHALLENGE"))
  const OtpInvalid: ApiError := ApiError("Código inválido", 401, Some("OTP_INVALID"))

  const IdKeys: seq<string> := ["id", "patientId"]
  const PhoneKeys: seq<string> := ["celular", "telefono", "phone"]

  /** The patient's id and phone from the directory's answer, with the route's three errors in
      the order it raises them. */
  function PatientContact(listing: Listing): (r: Result<Contact, Failure>)
    ensures FirstPatient(listing).None? ==> r == Failure(Api(PatientNotFound))
    ensures r.Success? ==> r.value.patientId != "" && r.value.phone != ""
    ensures FirstPatient(listing).Some? ==>
              var rec := FirstPatient(listing).value;
              (Coalesce(rec, IdKeys) == "" ==> r == Failure(Api(InvalidRecord)))
              && (Coalesce(rec, IdKeys) != "" && Coalesce(rec, PhoneKeys) == "" ==> r == Failure(Api(NoPhone)))
              && (r.Success? ==> r.value == Contact(Coalesce(rec, IdKeys), Coalesce(rec, PhoneKeys)))
  {
    match FirstPatient(listing)
    case None => Failure(Api(PatientNotFound))
    case Some(rec) =>
      var patientId := Coalesce(rec, IdKeys);
      var phone := Coalesce(rec, PhoneKeys);
      if patientId == "" then Failure(Api(InvalidRecord))
      else if phone == "" then Failure(Api(NoPhone))
      else Success(Contact(patientId, phone))
  }

  /** `dentalinkFetch` either throws or answers, and the answer is read as above. */
  function LookupContact(reply: Result<Listing, Failure>): (r: Result<Contact, Failure>)
    ensures reply.Failure? ==> r == Failure(reply.error)
    ensures reply.Success? ==> r == PatientContact(reply.value)
  {
    match reply
    case Failure(f) => Failure(f)
    case Success(listing) => PatientContact(listing)
  }

  /** The phone is `celular` whenever that field is present and not null, whatever the others say;
      `telefono` is used only without it. */
  lemma PhonePrecedence(rec: Record)
    ensures "celular" in rec && rec["celular"] != JNull ==> Coalesce(rec, PhoneKeys) == JsString(rec["celular"])
    ensures (!("celular" in rec && rec["celular"] != JNull) && "telefono" in rec && rec["telefono"] != JNull)
            ==> Coalesce(rec, PhoneKeys) == JsString(rec["telefono"])
  {
    assert PhoneKeys[1..] == ["telefono", "phone"];
  }

  /** The directory path for a RUT. */
  function PatientQuery(rut: string): string {
    "pacientes?q=" + EncodeUriComponent(rut)
  }

  /** A RUT that passed validation needs no escaping: the query carries it as it is. */
  lemma ValidRutQuery(rut: string)
    requires Rut.MatchesRutPattern(rut)
    ensures PatientQuery(rut) == "pacientes?q=" + rut
  {
    var n := |rut|;
    assert rut == rut[..n - 2] + [rut[n - 2], rut[n - 1]];
    forall c | c in rut ensures UriUnreserved(c) {
      if c in rut[..n - 2] {
        assert IsDigit(c);
      }
    }
    EncodeUriComponentIdentity(rut);
  }

  /** What the route's validity test guarantees about the normalised RUT: it matches the RUT
      pattern. */
  lemma ValidatedRutMatches(input: string)
    requires Rut.IsValidRut(Rut.NormalizeRut(input))
    ensures Rut.MatchesRutPattern(Rut.NormalizeRut(input))
  {
    Rut.NormalizeOfNormalized(Rut.NormalizeRut(input));
  }

  /** The JSON answer of a route, or a redirect. */
  datatype Body = OkBody(toMasked: Option<string>) | ErrorBody(error: PublicError)
  datatype Response = JsonResponse(status: int, body: Body) | RedirectResponse(status: int, location: Url)

  /** The `catch` of both OTP routes: `toPublicError`, answered with its status. */
  function ErrorResponse(f: Failure): (r: Response)
    ensures r.JsonResponse? && r.body.ErrorBody? && r.status == r.body.error.status
    ensures f.Api? ==> r.status == f.err.status && r.body.error.code == f.err.code
    ensures f.Thrown? ==> r.status == 500
  {
    var p := ToPublicError(f);
    JsonResponse(p.status, ErrorBody(p))
  }

  /** The state the routes change. */
  datatype AuthState = AuthState(jar: map<string, Cookie>, buckets: map<string, Bucket>, codes: map<string, string>)

  const RequestKeyPrefix: string := "otp_req:"
  const VerifyKeyPrefix: string := "otp_ver:"
  const RequestLimit: Options := Options(8, 60000)
  const VerifyLimit: Options := Options(12, 60000)

  /** `z.object({rut: z.string().min(3)})`: `rutField` is the `rut` member when it is a string. */
  predicate RutBodyValid(rutField: Option<string>) {
    rutField.Some? && Utf16Length(rutField.value) >= 3
  }

  /** `z.object({code: z.string().min(4).max(10)})`. */
  predicate CodeBodyValid(codeField: Option<string>) {
    codeField.Some? && 4 <= Utf16Length(codeField.value) <= 10
  }

  /** `provider.requestOtp({to: phone})`: Twilio is called, or the mock stores a code. */
  function SendCode(codes: map<string, string>, env: Env, phone: string, twilio: TwilioCall -> TwilioReply,
                    draw: nat): (r: (map<string, string>, Outcome<ApiError>))
    requires draw < 900000
    ensures GetOtpProvider(env) == MockProvider ==> r == (codes[phone := MockCode(draw)], Pass)
    ensures GetOtpProvider(env) == TwilioVerify ==> r.0 == codes
  {
    match GetOtpProvider(env)
    case TwilioVerify => (codes, TwilioRequestResult(twilio(VerificationCall(phone))))
    case MockProvider => (codes[phone := MockCode(draw)], Pass)
  }

  /** `provider.verifyOtp({to: challenge.phone, code})`; a challenge without a phone sends the
      text `undefined` to Twilio and matches nothing in the mock. */
  function CheckCode(codes: map<string, string>, env: Env, phone: Option<string>, code: string,
                     twilio: TwilioCall -> TwilioReply): (r: Result<bool, Failure>)
    ensures GetOtpProvider(env) == MockProvider ==>
              r == Success(phone.Some? && MockAccepts(codes, phone.value, code))
  {
    match GetOtpProvider(env)
    case TwilioVerify =>
      (match TwilioVerifyResult(twilio(VerificationCheckCall(phone.GetOr("undefined"), code)))
       case Failure(e) => Failure(Api(e))
       case Success(ok) => Success(ok))
    case MockProvider => Success(phone.Some? && MockAccepts(codes, phone.value, code))
  }

  /** A route's answer is a success: a JSON body without an error. */
  predicate IsOk(r: Response) {
    r.JsonResponse? && r.body.OkBody?
  }

  /** `POST /api/auth/request-otp`: rate limit, then the rest. Effects made before a failure
      stay. */
  function RequestOtpFlow(s: AuthState, env: Env, c: Crypto, headers: Headers, rutField: Option<string>,
                          directory: string -> Result<Listing, Failure>, twilio: TwilioCall -> TwilioReply,
                          draw: nat, now: int): (AuthState, Response)
    requires draw < 900000
  {
    var (buckets, limited) := Step(s.buckets, RequestKeyPrefix + GetIP(headers), RequestLimit, now);
    var s1 := s.(buckets := buckets);
    if limited.Fail? then (s1, ErrorResponse(Api(limited.error)))
    else RequestOtpParsed(s1, env, c, rutField, directory, twilio, draw, now)
  }

  /** After the rate limit: the body schema, then the normalised RUT. */
  function RequestOtpParsed(s: AuthState, env: Env, c: Crypto, rutField: Option<string>,
                            directory: string -> Result<Listing, Failure>, twilio: TwilioCall -> TwilioReply,
                            draw: nat, now: int): (AuthState, Response)
    requires draw < 900000
  {
    if !RutBodyValid(rutField) then (s, ErrorResponse(Thrown(None)))
    else RequestOtpForRut(s, env, c, Rut.NormalizeRut(rutField.value), directory, twilio, draw, now)
  }

  /** The validity test on the normalised RUT, then the directory. */
  function RequestOtpForRut(s: AuthState, env: Env, c: Crypto, rut: string,
                            directory: string -> Result<Listing, Failure>, twilio: TwilioCall -> TwilioReply,
                            draw: nat, now: int): (AuthState, Response)
    requires draw < 900000
  {
    if !Rut.IsValidRut(rut) then (s, ErrorResponse(Api(InvalidRut)))
    else RequestOtpForContact(s, env, c, rut, LookupContact(directory(PatientQuery(rut))), twilio, draw, now)
  }

  /** What the directory answered: an error is passed on, a contact gets a challenge. */
  function RequestOtpForContact(s: AuthState, env: Env, c: Crypto, rut: string, found: Result<Contact, Failure>,
                                twilio: TwilioCall -> TwilioReply, draw: nat, now: int): (AuthState, Response)
    requires draw < 900000
  {
    match found
    case Failure(f) => (s, ErrorResponse(f))
    case Success(contact) => IssueChallengeFlow(s, env, c, contact, rut, twilio, draw, now)
  }

  /** Send the code to the patient's phone, then set the challenge and answer the masked phone. */
  function IssueChallengeFlow(s: AuthState, env: Env, c: Crypto, contact: Contact, rut: string,
                              twilio: TwilioCall -> TwilioReply, draw: nat, now: int): (AuthState, Response)
    requires draw < 900000
  {
    var (codes, sent) := SendCode(s.codes, env, contact.phone, twilio, draw);
    var s1 := s.(codes := codes);
    if sent.Fail? then (s1, ErrorResponse(Api(sent.error)))
    else
      match Sign(c, env, Payload(contact.patientId, rut, Some(contact.phone), now))
      case Failure(e) => (s1, ErrorResponse(Api(e)))
      case Success(token) =>
        (s1.(jar := s1.jar[OtpChallengeCookie := Cookie(token, SetOptions(env, ChallengeMaxAge))]),
         JsonResponse(200, OkBody(Some(MaskPhone(contact.phone)))))
  }

  /** `POST /api/auth/verify-otp`: rate limit, then the rest. */
  function VerifyOtpFlow(s: AuthState, env: Env, c: Crypto, headers: Headers, codeField: Option<string>,
                         twilio: TwilioCall -> TwilioReply, now: int): (AuthState, Response)
  {
    var (buckets, limited) := Step(s.buckets, VerifyKeyPrefix + GetIP(headers), VerifyLimit, now);
    var s1 := s.(buckets := buckets);
    if limited.Fail? then (s1, ErrorResponse(Api(limited.error)))
    else VerifyOtpParsed(s1, env, c, codeField, twilio, now)
  }

  /** After the rate limit: the body schema, then the challenge cookie. */
  function VerifyOtpParsed(s: AuthState, env: Env, c: Crypto, codeField: Option<string>,
                           twilio: TwilioCall -> TwilioReply, now: int): (AuthState, Response)
  {
    if !CodeBodyValid(codeField) then (s, ErrorResponse(Thrown(None)))
    else VerifyOtpChallenge(s, env, c, ReadToken(c, env, s.jar, OtpChallengeCookie), codeField.value, twilio, now)
  }

  /** What reading the challenge gave: an error, no challenge, or the challenge whose phone the
      code is checked against. */
  function VerifyOtpChallenge(s: AuthState, env: Env, c: Crypto, read: Result<Option<Payload>, ApiError>,
                              code: string, twilio: TwilioCall -> TwilioReply, now: int): (AuthState, Response)
  {
    match read
    case Failure(e) => (s, ErrorResponse(Api(e)))
    case Success(None) => (s, ErrorResponse(Api(NoChallenge)))
    case Success(Some(challenge)) =>
      OpenSession(s, env, c, challenge, CheckCode(s.codes, env, challenge.phone, code, twilio), now)
  }

  /** What the provider said about the code: an accepted code turns the challenge into a session
      and clears the challenge. */
  function OpenSession(s: AuthState, env: Env, c: Crypto, challenge: Payload, checked: Result<bool, Failure>,
                       now: int): (AuthState, Response)
  {
    match checked
    case Failure(f) => (s, ErrorResponse(f))
    case Success(ok) =>
      if !ok then (s, ErrorResponse(Api(OtpInvalid)))
      else
        match Sign(c, env, Payload(challenge.patientId, challenge.rut, None, now))
        case Failure(e) => (s, ErrorResponse(Api(e)))
        case Success(token) =>
          (s.(jar := s.jar[SessionCookie := Cookie(token, SetOptions(env, SessionMaxAge))]
                          [OtpChallengeCookie := Cookie("", ClearOptions)]),
           JsonResponse(200, OkBody(None)))
  }

  /** `POST /api/auth/logout`: both cookies cleared, then a 303 to the same origin's `/`. */
  function LogoutFlow(s: AuthState, request: Url): (AuthState, Response) {
    (s.(jar := s.jar[SessionCookie := Cookie("", ClearOptions)][OtpChallengeCookie := Cookie("", ClearOptions)]),
     RedirectResponse(303, request.(pathname := "/", search := "", hash := "")))
  }

  /** The cookies a browser holding `jar` sends back. */
  function CookieValues(jar: map<string, Cookie>): map<string, string> {
    map k | k in jar :: jar[k].value
  }

  /** A rate-limited request is answered 429 before its body is read: nothing but the bucket
      changes, whatever the body, the directory or the providers would have said. */
  lemma RequestOtpRateLimited(s: AuthState, env: Env, c: Crypto, headers: Headers, rutField: Option<string>,
                              directory: string -> Result<Listing, Failure>, twilio: TwilioCall -> TwilioReply,
                              draw: nat, now: int)
    requires draw < 900000
    requires Step(s.buckets, RequestKeyPrefix + GetIP(headers), RequestLimit, now).1.Fail?
    ensures var r := RequestOtpFlow(s, env, c, headers, rutField, directory, twilio, draw, now);
            r.0 == s.(buckets := Step(s.buckets, RequestKeyPrefix + GetIP(headers), RequestLimit, now).0)
            && r.1 == ErrorResponse(Api(TooManyAttempts)) && r.1.status == 429
  {
  }

  /** An invalid RUT is a 400 given before the directory is asked: the answer is the same
      whatever the directory holds, and no cookie or code changes. */
  lemma RequestOtpInvalidRut(s: AuthState, env: Env, c: Crypto, headers: Headers, rutField: Option<string>,
                             d1: string -> Result<Listing, Failure>, d2: string -> Result<Listing, Failure>,
                             twilio: TwilioCall -> TwilioReply, draw: nat, now: int)
    requires draw < 900000
    requires Step(s.buckets, RequestKeyPrefix + GetIP(headers), RequestLimit, now).1.Pass?
    requires RutBodyValid(rutField) && !Rut.IsValidRut(Rut.NormalizeRut(rutField.value))
    ensures var r := RequestOtpFlow(s, env, c, headers, rutField, d1, twilio, draw, now);
            r == RequestOtpFlow(s, env, c, headers, rutField, d2, twilio, draw, now)
            && r.1.status == 400 && r.1.body.error.message == "RUT inválido"
            && r.0.jar == s.jar && r.0.codes == s.codes
  {
  }

  /** The cookie change request-otp is allowed: none on failure, and on success the challenge
      and nothing else. */
  predicate ChallengeOnly(before: map<string, Cookie>, after: map<string, Cookie>, r: Response) {
    (!IsOk(r) ==> after == before)
    && (IsOk(r) ==> OtpChallengeCookie in after && after == before[OtpChallengeCookie := after[OtpChallengeCookie]])
  }

  /** Issuing a challenge sets at most the challenge cookie. */
  lemma IssueChallengeCookies(s: AuthState, env: Env, c: Crypto, contact: Contact, rut: string,
                              twilio: TwilioCall -> TwilioReply, draw: nat, now: int)
    requires draw < 900000
    ensures var r := IssueChallengeFlow(s, env, c, contact, rut, twilio, draw, now);
            ChallengeOnly(s.jar, r.0.jar, r.1) && r.0.buckets == s.buckets
  {
  }

  /** So does everything after the rate limit. */
  lemma RequestOtpParsedCookies(s: AuthState, env: Env, c: Crypto, rutField: Option<string>,
                                directory: string -> Result<Listing, Failure>, twilio: TwilioCall -> TwilioReply,
                                draw: nat, now: int)
    requires draw < 900000
    ensures var r := RequestOtpParsed(s, env, c, rutField, directory, twilio, draw, now);
            ChallengeOnly(s.jar, r.0.jar, r.1)
  {
    if RutBodyValid(rutField) {
      var rut := Rut.NormalizeRut(rutField.value);
      if Rut.IsValidRut(rut) {
        var found := LookupContact(directory(PatientQuery(rut)));
        assert RequestOtpParsed(s, env, c, rutField, directory, twilio, draw, now)
               == RequestOtpForContact(s, env, c, rut, found, twilio, draw, now);
        if found.Success? {
          IssueChallengeCookies(s, env, c, found.value, rut, twilio, draw, now);
        }
      }
    }
  }

  /** request-otp touches one cookie at most, the challenge, and only when it succeeds; it never
      sets the session. */
  lemma RequestOtpCookies(s: AuthState, env: Env, c: Crypto, headers: Headers, rutField: Option<string>,
                          directory: string -> Result<Listing, Failure>, twilio: TwilioCall -> TwilioReply,
                          draw: nat, now: int)
    requires draw < 900000
    ensures var r := RequestOtpFlow(s, env, c, headers, rutField, directory, twilio, draw, now);
            (!IsOk(r.1) ==> r.0.jar == s.jar)
            && (IsOk(r.1) ==>
                  OtpChallengeCookie in r.0.jar
                  && r.0.jar == s.jar[OtpChallengeCookie := r.0.jar[OtpChallengeCookie]])
  {
    var s1 := s.(buckets := Step(s.buckets, RequestKeyPrefix + GetIP(headers), RequestLimit, now).0);
    RequestOtpParsedCookies(s1, env, c, rutField, directory, twilio, draw, now);
  }

  /** A challenge issued where the provider accepts the phone: the code goes to that phone, the
      challenge cookie reads back as `{patientId, rut, phone}` and the answer is the masked phone. */
  lemma IssueChallengeSuccess(s: AuthState, env: Env, c: Crypto, contact: Contact, rut: string,
                              twilio: TwilioCall -> TwilioReply, draw: nat, now: int)
    requires Sound(c) && Truthy(env.sessionSecret) && draw < 900000
    requires HasTwilio(env) ==> twilio(VerificationCall(contact.phone)).ok
    ensures var r := IssueChallengeFlow(s, env, c, contact, rut, twilio, draw, now);
            r.1 == JsonResponse(200, OkBody(Some(MaskPhone(contact.phone))))
            && ReadToken(c, env, r.0.jar, OtpChallengeCookie)
               == Success(Some(Payload(contact.patientId, rut, Some(contact.phone), now)))
            && (!HasTwilio(env) ==> r.0.codes == s.codes[contact.phone := MockCode(draw)])
            && (HasTwilio(env) ==> r.0.codes == s.codes)
            && r.0.buckets == s.buckets && OtpChallengeCookie in r.0.jar
  {
    var s1 := s.(codes := SendCode(s.codes, env, contact.phone, twilio, draw).0);
    ReadWrittenToken(c, env, s1.jar, OtpChallengeCookie, Payload(contact.patientId, rut, Some(contact.phone), now),
                     ChallengeMaxAge);
  }

  /** A successful request: the code goes to the directory's phone for the patient, the challenge
      cookie carries `{patientId, rut, phone}` and the answer is the masked phone. */
  lemma RequestOtpSuccess(s: AuthState, env: Env, c: Crypto, headers: Headers, rutField: Option<string>,
                          directory: string -> Result<Listing, Failure>, twilio: TwilioCall -> TwilioReply,
                          draw: nat, now: int, contact: Contact)
    requires Sound(c) && Truthy(env.sessionSecret) && draw < 900000
    requires Step(s.buckets, RequestKeyPrefix + GetIP(headers), RequestLimit, now).1.Pass?
    requires RutBodyValid(rutField) && Rut.IsValidRut(Rut.NormalizeRut(rutField.value))
    requires LookupContact(directory(PatientQuery(Rut.NormalizeRut(rutField.value)))) == Success(contact)
    requires HasTwilio(env) ==> twilio(VerificationCall(contact.phone)).ok
    ensures var r := RequestOtpFlow(s, env, c, headers, rutField, directory, twilio, draw, now);
            r.1 == JsonResponse(200, OkBody(Some(MaskPhone(contact.phone))))
            && ReadToken(c, env, r.0.jar, OtpChallengeCookie)
               == Success(Some(Payload(contact.patientId, Rut.NormalizeRut(rutField.value), Some(contact.phone), now)))
            && (!HasTwilio(env) ==> r.0.codes == s.codes[contact.phone := MockCode(draw)])
            && (HasTwilio(env) ==> r.0.codes == s.codes)
            && r.0.buckets == Step(s.buckets, RequestKeyPrefix + GetIP(headers), RequestLimit, now).0
            && OtpChallengeCookie in r.0.jar
  {
    var rut := Rut.NormalizeRut(rutField.value);
    var s1 := s.(buckets := Step(s.buckets, RequestKeyPrefix + GetIP(headers), RequestLimit, now).0);
    assert RequestOtpFlow(s, env, c, headers, rutField, directory, twilio, draw, now)
           == RequestOtpForContact(s1, env, c, rut, Success(contact), twilio, draw, now);
    IssueChallengeSuccess(s1, env, c, contact, rut, twilio, draw, now);
  }

  /** What an answer from the provider does to the state: codes and buckets never change; a
      failure keeps the cookies; a success sets a non-empty session and clears the challenge. */
  lemma OpenSessionCookies(s: AuthState, env: Env, c: Crypto, challenge: Payload, checked: Result<bool, Failure>,
                           now: int)
    ensures var r := OpenSession(s, env, c, challenge, checked, now);
            r.0.codes == s.codes && r.0.buckets == s.buckets
            && (!IsOk(r.1) ==> r.0.jar == s.jar)
            && (IsOk(r.1) ==>
                  checked == Success(true) && Truthy(env.sessionSecret)
                  && SessionCookie in r.0.jar && r.0.jar[SessionCookie].value != ""
                  && r.0.jar == s.jar[SessionCookie := r.0.jar[SessionCookie]]
                                     [OtpChallengeCookie := Cookie("", ClearOptions)])
  {
  }

  /** An accepted code under a configured secret opens the session the challenge names. */
  lemma OpenSessionReads(s: AuthState, env: Env, c: Crypto, challenge: Payload, now: int)
    requires Sound(c) && Truthy(env.sessionSecret)
    ensures var r := OpenSession(s, env, c, challenge, Success(true), now);
            r.1 == JsonResponse(200, OkBody(None))
            && ReadToken(c, env, r.0.jar, SessionCookie)
               == Success(Some(Payload(challenge.patientId, challenge.rut, None, now)))
            && ReadToken(c, env, r.0.jar, OtpChallengeCookie) == Success(None)
  {
    var p := Payload(challenge.patientId, challenge.rut, None, now);
    var j := WithToken(c, env, s.jar, SessionCookie, p, SessionMaxAge);
    ReadWrittenToken(c, env, s.jar, SessionCookie, p, SessionMaxAge);
    ReadOtherToken(c, env, j, OtpChallengeCookie, SessionCookie, Cookie("", ClearOptions));
  }

  /** The part of verify-otp after the rate limit changes what `OpenSession` does, or nothing. */
  lemma VerifyOtpParsedCookies(s: AuthState, env: Env, c: Crypto, codeField: Option<string>,
                               twilio: TwilioCall -> TwilioReply, now: int)
    ensures var r := VerifyOtpParsed(s, env, c, codeField, twilio, now);
            r.0.codes == s.codes && r.0.buckets == s.buckets
            && (!IsOk(r.1) ==> r.0.jar == s.jar)
            && (IsOk(r.1) ==>
                  CodeBodyValid(codeField)
                  && var read := ReadToken(c, env, s.jar, OtpChallengeCookie);
                  read.Success? && read.value.Some?
                  && CheckCode(s.codes, env, read.value.value.phone, codeField.value, twilio) == Success(true)
                  && r == OpenSession(s, env, c, read.value.value, Success(true), now))
  {
    if CodeBodyValid(codeField) {
      var read := ReadToken(c, env, s.jar, OtpChallengeCookie);
      if read.Success? && read.value.Some? {
        var checked := CheckCode(s.codes, env, read.value.value.phone, codeField.value, twilio);
        assert VerifyOtpParsed(s, env, c, codeField, twilio, now)
               == OpenSession(s, env, c, read.value.value, checked, now);
        OpenSessionCookies(s, env, c, read.value.value, checked, now);
      }
    }
  }

  /** verify-otp never changes the mock's codes, and on any failure it leaves the cookies as they
      were: a wrong code keeps the challenge for another try. */
  lemma VerifyOtpFailureKeepsCookies(s: AuthState, env: Env, c: Crypto, headers: Headers,
                                     codeField: Option<string>, twilio: TwilioCall -> TwilioReply, now: int)
    ensures var r := VerifyOtpFlow(s, env, c, headers, codeField, twilio, now);
            r.0.codes == s.codes && (!IsOk(r.1) ==> r.0.jar == s.jar)
  {
    var s1 := s.(buckets := Step(s.buckets, VerifyKeyPrefix + GetIP(headers), VerifyLimit, now).0);
    VerifyOtpParsedCookies(s1, env, c, codeField, twilio, now);
  }

  /** A successful verification had a valid body, a readable challenge and an accepted code; it
      turns the challenge into a session for the same patient and RUT, stamped now, and clears
      the challenge. */
  lemma VerifyOtpSuccess(s: AuthState, env: Env, c: Crypto, headers: Headers, codeField: Option<string>,
                         twilio: TwilioCall -> TwilioReply, now: int)
    requires Sound(c)
    requires IsOk(VerifyOtpFlow(s, env, c, headers, codeField, twilio, now).1)
    ensures var r := VerifyOtpFlow(s, env, c, headers, codeField, twilio, now);
            var ch := ReadToken(c, env, s.jar, OtpChallengeCookie);
            Step(s.buckets, VerifyKeyPrefix + GetIP(headers), VerifyLimit, now).1.Pass?
            && CodeBodyValid(codeField) && ch.Success? && ch.value.Some?
            && CheckCode(s.codes, env, ch.value.value.phone, codeField.value, twilio) == Success(true)
            && ReadToken(c, env, r.0.jar, SessionCookie)
               == Success(Some(Payload(ch.value.value.patientId, ch.value.value.rut, None, now)))
            && ReadToken(c, env, r.0.jar, OtpChallengeCookie) == Success(None)
  {
    var s1 := s.(buckets := Step(s.buckets, VerifyKeyPrefix + GetIP(headers), VerifyLimit, now).0);
    VerifyOtpParsedCookies(s1, env, c, codeField, twilio, now);
    var ch := ReadToken(c, env, s.jar, OtpChallengeCookie).value.value;
    ReadTokenNeedsSecret(c, env, s.jar, OtpChallengeCookie);
    OpenSessionReads(s1, env, c, ch, now);
  }

  /** The converse: a well-formed, admitted request whose challenge reads and whose code the
      provider accepts logs the patient in. */
  lemma VerifyOtpAccepts(s: AuthState, env: Env, c: Crypto, headers: Headers, code: string,
                         twilio: TwilioCall -> TwilioReply, now: int)
    requires Sound(c)
    requires Step(s.buckets, VerifyKeyPrefix + GetIP(headers), VerifyLimit, now).1.Pass?
    requires CodeBodyValid(Some(code))
    requires ReadToken(c, env, s.jar, OtpChallengeCookie).Success?
    requires ReadToken(c, env, s.jar, OtpChallengeCookie).value.Some?
    requires CheckCode(s.codes, env, ReadToken(c, env, s.jar, OtpChallengeCookie).value.value.phone, code, twilio)
             == Success(true)
    ensures var r := VerifyOtpFlow(s, env, c, headers, Some(code), twilio, now);
            var ch := ReadToken(c, env, s.jar, OtpChallengeCookie).value.value;
            r.1 == JsonResponse(200, OkBody(None))
            && ReadToken(c, env, r.0.jar, SessionCookie) == Success(Some(Payload(ch.patientId, ch.rut, None, now)))
            && ReadToken(c, env, r.0.jar, OtpChallengeCookie) == Success(None)
  {
    var s1 := s.(buckets := Step(s.buckets, VerifyKeyPrefix + GetIP(headers), VerifyLimit, now).0);
    var ch := ReadToken(c, env, s.jar, OtpChallengeCookie).value.value;
    assert VerifyOtpFlow(s, env, c, headers, Some(code), twilio, now)
           == OpenSession(s1, env, c, ch, Success(true), now);
    ReadTokenNeedsSecret(c, env, s.jar, OtpChallengeCookie);
    OpenSessionReads(s1, env, c, ch, now);
  }

  /** With the mock provider, a well-formed request with a readable challenge succeeds exactly
      when the submitted code is the one stored for the challenge's own phone; no phone from the
      client is involved. */
  lemma VerifyOtpMockIff(s: AuthState, env: Env, c: Crypto, headers: Headers, code: string,
                         twilio: TwilioCall -> TwilioReply, now: int)
    requires Sound(c) && !HasTwilio(env) && WellFormedCodes(s.codes)
    requires Step(s.buckets, VerifyKeyPrefix + GetIP(headers), VerifyLimit, now).1.Pass?
    requires CodeBodyValid(Some(code))
    requires ReadToken(c, env, s.jar, OtpChallengeCookie).Success?
    requires ReadToken(c, env, s.jar, OtpChallengeCookie).value.Some?
    ensures var ch := ReadToken(c, env, s.jar, OtpChallengeCookie).value.value;
            var r := VerifyOtpFlow(s, env, c, headers, Some(code), twilio, now);
            IsOk(r.1) <==> ch.phone.Some? && ch.phone.value in s.codes && s.codes[ch.phone.value] == code
  {
    var ch := ReadToken(c, env, s.jar, OtpChallengeCookie).value.value;
    if ch.phone.Some? {
      MockAcceptsIff(s.codes, ch.phone.value, code);
    }
    if ch.phone.Some? && ch.phone.value in s.codes && s.codes[ch.phone.value] == code {
      VerifyOtpAccepts(s, env, c, headers, code, twilio, now);
    } else if IsOk(VerifyOtpFlow(s, env, c, headers, Some(code), twilio, now).1) {
      VerifyOtpSuccess(s, env, c, headers, Some(code), twilio, now);
    }
  }

  /** The two rate-limit keys of the OTP routes never collide. */
  lemma KeysDistinct(a: string, b: string)
    ensures RequestKeyPrefix + a != VerifyKeyPrefix + b
  {
    assert (RequestKeyPrefix + a)[4] != (VerifyKeyPrefix + b)[4];
  }

  /** The verify half of the mock login: any state whose challenge reads back and whose stored
      code for the challenge's phone is a generated one accepts that code. */
  lemma MockCodeAccepted(t: AuthState, env: Env, c: Crypto, h: Headers, twilio: TwilioCall -> TwilioReply,
                         draw: nat, now: int, ch: Payload)
    requires Sound(c) && !HasTwilio(env) && draw < 900000
    requires VerifyKeyPrefix + GetIP(h) !in t.buckets
    requires ReadToken(c, env, t.jar, OtpChallengeCookie) == Success(Some(ch))
    requires ch.phone.Some? && ch.phone.value in t.codes && t.codes[ch.phone.value] == MockCode(draw)
    ensures var r := VerifyOtpFlow(t, env, c, h, Some(MockCode(draw)), twilio, now);
            r.1 == JsonResponse(200, OkBody(None))
            && ReadToken(c, env, r.0.jar, SessionCookie) == Success(Some(Payload(ch.patientId, ch.rut, None, now)))
            && ReadToken(c, env, r.0.jar, OtpChallengeCookie) == Success(None)
  {
    var code := MockCode(draw);
    Utf16LengthOfDigits(code);
    assert MockAccepts(t.codes, ch.phone.value, code);
    VerifyOtpAccepts(t, env, c, h, code, twilio, now);
  }

  /** The whole mock login: a patient found in the directory asks for a code, submits the code
      that was generated, and ends with a session for their own id and RUT and no challenge. */
  lemma MockLogin(s: AuthState, env: Env, c: Crypto, h1: Headers, rutField: Option<string>,
                  directory: string -> Result<Listing, Failure>, twilio: TwilioCall -> TwilioReply,
                  draw: nat, now1: int, h2: Headers, now2: int, contact: Contact)
    requires Sound(c) && Truthy(env.sessionSecret) && !HasTwilio(env) && draw < 900000
    requires RequestKeyPrefix + GetIP(h1) !in s.buckets && VerifyKeyPrefix + GetIP(h2) !in s.buckets
    requires RutBodyValid(rutField) && Rut.IsValidRut(Rut.NormalizeRut(rutField.value))
    requires LookupContact(directory(PatientQuery(Rut.NormalizeRut(rutField.value)))) == Success(contact)
    ensures var r1 := RequestOtpFlow(s, env, c, h1, rutField, directory, twilio, draw, now1);
            var r2 := VerifyOtpFlow(r1.0, env, c, h2, Some(MockCode(draw)), twilio, now2);
            IsOk(r1.1) && r2.1 == JsonResponse(200, OkBody(None))
            && ReadToken(c, env, r2.0.jar, SessionCookie)
               == Success(Some(Payload(contact.patientId, Rut.NormalizeRut(rutField.value), None, now2)))
            && ReadToken(c, env, r2.0.jar, OtpChallengeCookie) == Success(None)
  {
    var rut := Rut.NormalizeRut(rutField.value);
    var key := RequestKeyPrefix + GetIP(h1);
    assert Step(s.buckets, key, RequestLimit, now1).1.Pass?;
    RequestOtpSuccess(s, env, c, h1, rutField, directory, twilio, draw, now1, contact);
    var r1 := RequestOtpFlow(s, env, c, h1, rutField, directory, twilio, draw, now1);
    KeysDistinct(GetIP(h1), GetIP(h2));
    assert r1.0.buckets == Step(s.buckets, key, RequestLimit, now1).0;
    assert VerifyKeyPrefix + GetIP(h2) !in r1.0.buckets;
    MockCodeAccepted(r1.0, env, c, h2, twilio, draw, now2, Payload(contact.patientId, rut, Some(contact.phone), now1));
  }

  /** Logout clears both cookies and sends the browser to `/` on the same origin with a 303. */
  lemma LogoutClears(s: AuthState, c: Crypto, env: Env, request: Url)
    ensures var r := LogoutFlow(s, request);
            ReadToken(c, env, r.0.jar, SessionCookie) == Success(None)
            && ReadToken(c, env, r.0.jar, OtpChallengeCookie) == Success(None)
            && r.0.buckets == s.buckets && r.0.codes == s.codes
            && r.1.RedirectResponse? && r.1.status == 303
            && r.1.location.protocol == request.protocol && r.1.location.host == request.host
            && r.1.location.pathname == "/" && r.1.location.search == "" && r.1.location.hash == ""
  {
  }

  /** Logging out twice is logging out once. */
  lemma LogoutIdempotent(s: AuthState, request: Url)
    ensures LogoutFlow(LogoutFlow(s, request).0, request) == LogoutFlow(s, request)
  {
    var cleared := Cookie("", ClearOptions);
    var j1 := s.jar[SessionCookie := cleared][OtpChallengeCookie := cleared];
    assert j1[SessionCookie := cleared][OtpChallengeCookie := cleared] == j1;
  }

  /** The token confusion in the routes as written: after request-otp succeeds, and before any
      code is checked, the challenge cookie's value placed in the session cookie reads as a
      session naming the patient. */
  lemma RequestOtpChallengeOpensSession(s: AuthState, env: Env, c: Crypto, headers: Headers,
                                        rutField: Option<string>, directory: string -> Result<Listing, Failure>,
                                        twilio: TwilioCall -> TwilioReply, draw: nat, now: int, contact: Contact)
    requires Sound(c) && Truthy(env.sessionSecret) && draw < 900000
    requires Step(s.buckets, RequestKeyPrefix + GetIP(headers), RequestLimit, now).1.Pass?
    requires RutBodyValid(rutField) && Rut.IsValidRut(Rut.NormalizeRut(rutField.value))
    requires LookupContact(directory(PatientQuery(Rut.NormalizeRut(rutField.value)))) == Success(contact)
    requires HasTwilio(env) ==> twilio(VerificationCall(contact.phone)).ok
    ensures var j := RequestOtpFlow(s, env, c, headers, rutField, directory, twilio, draw, now).0.jar;
            OtpChallengeCookie in j
            && var forged := ReadToken(c, env, j[SessionCookie := j[OtpChallengeCookie]], SessionCookie);
            forged.Success? && forged.value.Some? && forged.value.value.patientId == contact.patientId
  {
    RequestOtpSuccess(s, env, c, headers, rutField, directory, twilio, draw, now, contact);
    var j := RequestOtpFlow(s, env, c, headers, rutField, directory, twilio, draw, now).0.jar;
    assert OtpChallengeCookie in j;
    ReadCopiedToken(c, env, j, OtpChallengeCookie, SessionCookie);
  }

  /** The guard as written turns away every patient who just logged in: verify-otp sets
      `cm_session`, the guard asks for `session_token`, so the portal redirects to the login. */
  lemma LoggedInPatientRedirected(s: AuthState, env: Env, c: Crypto, headers: Headers,
                                  codeField: Option<string>, twilio: TwilioCall -> TwilioReply, now: int,
                                  portal: Url)
    requires Middleware.GuardCookie !in s.jar
    requires StartsWith(portal.pathname, "/antiguo/portal")
    requires IsOk(VerifyOtpFlow(s, env, c, headers, codeField, twilio, now).1)
    ensures var r := VerifyOtpFlow(s, env, c, headers, codeField, twilio, now);
            Middleware.Middleware(portal, CookieValues(r.0.jar)).Redirect?
  {
    var r := VerifyOtpFlow(s, env, c, headers, codeField, twilio, now);
    var s1 := s.(buckets := Step(s.buckets, VerifyKeyPrefix + GetIP(headers), VerifyLimit, now).0);
    VerifyOtpParsedCookies(s1, env, c, codeField, twilio, now);
    var read := ReadToken(c, env, s.jar, OtpChallengeCookie);
    OpenSessionCookies(s1, env, c, read.value.value, Success(true), now);
    assert Middleware.GuardCookie != SessionCookie && Middleware.GuardCookie != OtpChallengeCookie;
    assert Middleware.GuardCookie !in r.0.jar;
    assert Middleware.GuardCookie !in CookieValues(r.0.jar);
  }

  /** The guard on the cookie the login does set lets the patient in. */
  lemma LoggedInPatientPassesSessionGuard(s: AuthState, env: Env, c: Crypto, headers: Headers,
                                          codeField: Option<string>, twilio: TwilioCall -> TwilioReply, now: int,
                                          portal: Url)
    requires IsOk(VerifyOtpFlow(s, env, c, headers, codeField, twilio, now).1)
    ensures var r := VerifyOtpFlow(s, env, c, headers, codeField, twilio, now);
            Middleware.Guard(portal, CookieValues(r.0.jar), SessionCookie) == Middleware.Next
  {
    var r := VerifyOtpFlow(s, env, c, headers, codeField, twilio, now);
    var s1 := s.(buckets := Step(s.buckets, VerifyKeyPrefix + GetIP(headers), VerifyLimit, now).0);
    VerifyOtpParsedCookies(s1, env, c, codeField, twilio, now);
    var read := ReadToken(c, env, s.jar, OtpChallengeCookie);
    OpenSessionCookies(s1, env, c, read.value.value, Success(true), now);
    assert SessionCookie in r.0.jar && r.0.jar[SessionCookie].value != "";
    assert CookieValues(r.0.jar)[SessionCookie] != "";
  }

  /** The server: the client's cookies, the process-wide buckets and the mock's codes. */
  class AuthServer {
    const cookies: CookieStore
    const limiter: RateLimiter
    const otp: MockOtp

    ghost predicate Valid()
      reads this, otp
    {
      otp.Valid()
    }

    function State(): AuthState
      reads this, cookies, limiter, otp
    {
      AuthState(cookies.jar, limiter.buckets, otp.codes)
    }

    constructor (jar: map<string, Cookie>)
      ensures Valid() && State() == AuthState(jar, map[], map[])
    {
      cookies := new CookieStore(jar);
      limiter := new RateLimiter();
      otp := new MockOtp();
    }

    method RequestOtp(env: Env, c: Crypto, headers: Headers, rutField: Option<string>,
                      directory: string -> Result<Listing, Failure>, twilio: TwilioCall -> TwilioReply,
                      draw: nat, now: int) returns (response: Response)
      requires Valid() && draw < 900000
      modifies cookies, limiter, otp
      ensures Valid()
      ensures (State(), response)
              == RequestOtpFlow(old(State()), env, c, headers, rutField, directory, twilio, draw, now)
    {
      var ip := GetIP(headers);
      var limited := limiter.Check(RequestKeyPrefix + ip, RequestLimit, now);
      if limited.Fail? {
        return ErrorResponse(Api(limited.error));
      }
      if !RutBodyValid(rutField) {
        return ErrorResponse(Thrown(None));
      }
      var rut := Rut.NormalizeRut(rutField.value);
      if !Rut.IsValidRut(rut) {
        return ErrorResponse(Api(InvalidRut));
      }
      var found := LookupContact(directory(PatientQuery(rut)));
      if found.Failure? {
        return ErrorResponse(found.error);
      }
      response := IssueChallenge(env, c, found.value, rut, twilio, draw, now);
    }

    method IssueChallenge(env: Env, c: Crypto, contact: Contact, rut: string,
                          twilio: TwilioCall -> TwilioReply, draw: nat, now: int) returns (response: Response)
      requires Valid() && draw < 900000
      modifies cookies, otp
      ensures Valid()
      ensures (State(), response) == IssueChallengeFlow(old(State()), env, c, contact, rut, twilio, draw, now)
    {
      if GetOtpProvider(env) == TwilioVerify {
        var sent := TwilioRequestResult(twilio(VerificationCall(contact.phone)));
        if sent.Fail? {
          return ErrorResponse(Api(sent.error));
        }
      } else {
        otp.RequestOtp(contact.phone, draw);
      }
      var stored := SetOtpChallenge(cookies, c, env, contact.patientId, rut, contact.phone, now);
      if stored.Fail? {
        return ErrorResponse(Api(stored.error));
      }
      return JsonResponse(200, OkBody(Some(MaskPhone(contact.phone))));
    }

    method VerifyOtp(env: Env, c: Crypto, headers: Headers, codeField: Option<string>,
                     twilio: TwilioCall -> TwilioReply, now: int) returns (response: Response)
      requires Valid()
      modifies cookies, limiter
      ensures Valid()
      ensures (State(), response) == VerifyOtpFlow(old(State()), env, c, headers, codeField, twilio, now)
    {
      var ip := GetIP(headers);
      var limited := limiter.Check(VerifyKeyPrefix + ip, VerifyLimit, now);
      if limited.Fail? {
        return ErrorResponse(Api(limited.error));
      }
      if !CodeBodyValid(codeField) {
        return ErrorResponse(Thrown(None));
      }
      var code := codeField.value;
      var read := ReadToken(c, env, cookies.jar, OtpChallengeCookie);
      if read.Failure? {
        return ErrorResponse(Api(read.error));
      }
      if read.value.None? {
        return ErrorResponse(Api(NoChallenge));
      }
      var challenge := read.value.value;
      var ok: bool;
      if GetOtpProvider(env) == TwilioVerify {
        var checked := TwilioVerifyResult(twilio(VerificationCheckCall(challenge.phone.GetOr("undefined"), code)));
        if checked.Failure? {
          return ErrorResponse(Api(checked.error));
        }
        ok := checked.value;
      } else {
        ok := challenge.phone.Some? && otp.VerifyOtp(challenge.phone.value, code);
      }
      if !ok {
        return ErrorResponse(Api(OtpInvalid));
      }
      ReadTokenNeedsSecret(c, env, cookies.jar, OtpChallengeCookie);
      var stored := SetSession(cookies, c, env, challenge.patientId, challenge.rut, now);
      ClearToken(cookies, OtpChallengeCookie);
      return JsonResponse(200, OkBody(None));
    }

    method Logout(request: Url) returns (response: Response)
      modifies cookies
      ensures (State(), response) == LogoutFlow(old(State()), request)
    {
      ClearToken(cookies, SessionCookie);
      ClearToken(cookies, OtpChallengeCookie);
      var url := request;
      url := url.(pathname := "/");
      url := url.(search := "");
      url := url.(hash := "");
      return RedirectResponse(303, url);
    }
  }
}
