# Clínica Miró web back end, modelled in Dafny

This project models the server side and the stateful pages of the Clínica Miró
site, a Next.js application for a dental clinic in Santiago, and proves
properties of that model. It covers:

- the Chilean RUT helpers: normalisation, splitting, the modulo-11 check
  digit, the validator and the dotted formatter of `utils.ts`;
- patient login for existing patients: the in-memory fixed-window rate
  limiter; the signed session and OTP-challenge cookies (base64url and HMAC);
  the Twilio Verify and mock OTP providers; the `request-otp`, `verify-otp`
  and `logout` routes; the `/antiguo/portal` middleware guard;
- the outbound clients for WhatsApp Cloud, the Meta Conversions API and Lead
  Ads, and Dentalink;
- the AI diagnosis route, with its mock SSE stream; the SSE reader of the
  `/diagnostico` page; the `/nuevo` registration wizard;
- the WhatsApp webhook (verification handshake, routing of incoming
  messages, status updates), the internal WhatsApp send route and the Meta
  conversions route.

Each source file is one module. Code that computes a value is a set of
functions and lemmas. Code that updates state in place is a class whose
methods are proved against pure specification functions:

- the rate limiter's bucket map (`RateLimit.RateLimiter`);
- the cookie jar (`Session.CookieStore`);
- the mock OTP store (`Otp.MockOtp`);
- the auth server (`AuthRoutes.AuthServer`);
- the two React pages (`DiagnosticoPage.Page`, `NuevoPage.Wizard`).

Loops that update variables are methods with invariants:

- `Rut.ComputeRutDv`;
- `RutFormat.ValidateRut` and `RutFormat.ParseIntSum`;
- `Diagnosis.StreamMock`;
- `DiagnosticoPage.StreamAnalysis`;
- the webhook's `WhatsAppWebhook.Post`.

The environment is passed in as parameters: environment variables
(`Config.Env`), the clock (`now`), random draws, the HTTP services, JSON
encoding, HMAC and SHA-256. Side effects of the webhook are recorded as a
sequence of effects.

## Model

| member | source | states |
|---|---|---|
| Strings.Trim | app/diagnostico/page.tsx:71 | `trim()` leaves no white space at either end |
| Strings.TrimEmptyIffAllSpace | app/diagnostico/page.tsx:68 | a line trims to "" iff it is all white space |
| Strings.ToLower | app/api/whatsapp/webhook/route.ts:147 | lower-casing maps each character and keeps the length |
| Strings.IndexOf | app/diagnostico/page.tsx:63 | `indexOf` gives the first occurrence, or -1 when there is none |
| Strings.NothingBeforeFirst | src/lib/dentalink-client.ts:46 | the text before the first occurrence of a non-empty pattern does not contain it, so `replace` rewrites the first one |
| Strings.Split | app/api/diagnosis/route.ts:196 | `split` gives at least one piece, none containing the separator |
| Strings.SplitHead | app/api/diagnosis/route.ts:196 | splitting peels off the text before the first separator |
| Strings.ReplaceFirst | src/lib/dentalink-client.ts:46 | a string `replace` rewrites the first occurrence of the pattern, or nothing when it is absent, with the replacement's `$` patterns expanded |
| Strings.Substitution | src/lib/dentalink-client.ts:46 | a replacement without `$` is inserted as it is |
| Strings.SubstitutionPatterns | src/lib/dentalink-client.ts:46 | `$$`, `$&`, `` $` `` and `$'` give `$`, the match, the text before it and the text after it |
| Strings.KeepDigits | app/api/auth/request-otp/route.ts:19 | removing non-digits leaves only digits, never lengthens, and keeps a digit string as it is |
| Strings.KeepDigitsChar | app/api/auth/request-otp/route.ts:19 | one character is kept exactly when it is a digit |
| Strings.KeepDigitsAppend | app/api/auth/request-otp/route.ts:19 | the digits of a concatenation are the digits of each part in order, so with `KeepDigitsChar` the result is the input's digits in order |
| Strings.Utf16Length | app/nuevo/page.tsx:14-17 | a string's length in UTF-16 code units, as zod's `min` counts it, lies between its character count and twice that |
| Strings.Utf16LengthOfDigits | app/nuevo/page.tsx:17 | a digit string's UTF-16 length is its character count |
| Strings.NatToString | src/lib/otp.ts:59 | a number prints as digits without a leading zero |
| Strings.NatToStringLength | src/lib/otp.ts:59 | a number between 10^(k-1) and 10^k prints with k digits |
| Rut.Cleaned | src/lib/rut.ts:8-9 | trimmed and upper-cased, with dots and whitespace removed: a character remains exactly when it is in the trimmed, upper-cased input and is neither a dot nor whitespace |
| Rut.NormalizeRut | src/lib/rut.ts:7-17 | the result is normalised; a cleaned input that already has a dash is kept, anything else gets a dash before its last character |
| Rut.InsertDash | src/lib/rut.ts:11-15 | the dash goes before the last character; the empty input becomes `-` |
| Rut.CleanedOfNormalized | src/lib/rut.ts:8-9 | cleaning a normalised RUT changes nothing |
| Rut.NormalizeIdempotent | src/lib/rut.ts:7-17 | normalising twice equals normalising once |
| Rut.NormalizeOfNormalized | src/lib/rut.ts:7-17 | a normalised RUT is a fixed point of normalizeRut |
| Rut.MatchesRutPatternIff | src/lib/rut.ts:21 | `body-dv` matches `^(\d{1,9})-([\dK])$` iff the body is 1 to 9 digits and dv is a digit or K |
| Rut.SplitNormalized | src/lib/rut.ts:19-24 | rutSplit succeeds iff the pattern matches, and the parts rebuild the input |
| Rut.RutSplit | src/lib/rut.ts:19-24 | splits exactly when the normalised input matches `^(\d{1,9})-([\dK])$`, into the body of one to nine digits and the check character |
| Rut.EmptyDoesNotSplit | src/lib/rut.ts:19-24 | the empty string does not split |
| Rut.LongBodyDoesNotSplit | src/lib/rut.ts:21 | a body of ten or more digits does not split |
| Rut.Weight | src/lib/rut.ts:29-32 | the cyclic multiplier stays within 2..7 |
| Rut.NumberOf | src/lib/rut.ts:30 | `Number(c)` of one character: a digit gives its value, whitespace gives 0, anything else gives NaN |
| Rut.DvFromSum | src/lib/rut.ts:33-36 | the mapped check digit is always a digit or K |
| Rut.DvFromSumIsModulo11 | src/lib/rut.ts:33-36 | dv is the mapped digit iff sum + value(dv) is divisible by 11 |
| Rut.ModuloDeterminesDv | src/lib/rut.ts:33-36 | a dv completing the sum to a multiple of 11 is the computed one |
| Rut.Dv | src/lib/rut.ts:26-37 | the check digit of a numeric body is a digit or K |
| Rut.ComputeRutDv | src/lib/rut.ts:26-37 | the loop returns the specified digit, or "NaN" for a non-numeric body; a digit body gets Dv(body) |
| Rut.ValidNormalizedIff | src/lib/rut.ts:39-43 | a normalised RUT is valid iff it matches the pattern and its last character is the computed digit |
| Rut.IsValidRut | src/lib/rut.ts:38-42 | valid exactly when the input splits and its check character is the one computed for its body |
| Rut.ValidIffComputedDv | src/lib/rut.ts:39-43 | `body-dv` is valid iff dv equals the computed check digit |
| Rut.ValidNormalizedParts | src/lib/rut.ts:39-43 | for digit bodies, validity is a body of 1 to 9 digits plus the right check digit |
| Rut.DigitsDashNormalized | src/lib/rut.ts:7-17 | `digits-dv` is already in normal form |
| Rut.ComputedDvIsValid | src/lib/rut.ts:26-43 | a body followed by its computed check digit is a valid RUT |
| Rut.ExampleLowSum | src/lib/rut.ts:29-32 | worked example of the weighted sum |
| Rut.ExampleDv | src/lib/rut.ts:26-37 | worked example: the check digit of 12345678 is 5 |
| Rut.ExampleRutValid | src/lib/rut.ts:39-43 | worked example: 12345678-5 is valid |
| RutFormat.CleanRut | src/lib/utils.ts:17 | cleaning keeps only digits and K and never lengthens |
| RutFormat.CleanRutIdentity | src/lib/utils.ts:17 | a clean string is unchanged by cleaning |
| RutFormat.CleanRutAppend | src/lib/utils.ts:17 | cleaning distributes over concatenation |
| RutFormat.FormatRut | src/lib/utils.ts:16-25 | fewer than two cleaned characters come back as they are; otherwise the output ends with a dash and the check character |
| RutFormat.DigitRun | src/lib/utils.ts:23 | the `\d` run scanned by the lookahead stays inside the body |
| RutFormat.Separator | src/lib/utils.ts:23 | a dot is inserted exactly where the lookahead sees groups of three digits to the end |
| RutFormat.DotPositions | src/lib/utils.ts:23 | in a digit body, dots fall at the positions whose distance to the end is a positive multiple of 3 |
| RutFormat.SeparatorOfDigits | src/lib/utils.ts:23 | in a digit body the separator is "." exactly at those positions |
| RutFormat.DigitRunOfDigits | src/lib/utils.ts:23 | in a digit body the run reaches the end |
| RutFormat.DottedRemovesDots | src/lib/utils.ts:23 | dropping dots from the dotted text gives back the undotted body |
| RutFormat.UndotBody | src/lib/utils.ts:23-24 | removing dots from the dotted body and tail restores them |
| RutFormat.FormatOnlyAddsDots | src/lib/utils.ts:16-25 | with the dots removed, the formatted RUT is the cleaned body, a dash and the check digit |
| RutFormat.FormatIdempotent | src/lib/utils.ts:16-25 | formatting a formatted RUT changes nothing |
| RutFormat.FormattedCleans | src/lib/utils.ts:16-25 | cleaning the formatted RUT gives the cleaned input |
| RutFormat.DottedCleans | src/lib/utils.ts:23 | cleaning the dotted body restores the body |
| RutFormat.DottedIsThousands | src/lib/utils.ts:23 | the lookahead regex equals a thousands-separator grouping |
| RutFormat.DottedPrefix | src/lib/utils.ts:23 | the grouping of a prefix whose cut is a multiple of 3 from the end composes |
| RutFormat.ModThree | src/lib/utils.ts:23 | adding a multiple of three keeps the residue |
| RutFormat.DottedLastGroup | src/lib/utils.ts:23 | the last three digits of a long body form a dotted group |
| RutFormat.DottedPlain | src/lib/utils.ts:23 | a stretch with no separators is copied verbatim |
| RutFormat.FormatEightDigits | src/lib/utils.ts:16-25 | an 8-digit body formats as `XX.XXX.XXX-D` |
| RutFormat.CleanedLength | src/lib/utils.ts:17 | cleaning `body-dv` drops just the dash |
| RutFormat.ValidateRut | src/lib/utils.ts:27-46 | the loop decides exactly the specified validator |
| RutFormat.ValidateRutSpec | src/lib/utils.ts:27-46 | the reference definition of the validator; an accepted RUT has 8 or 9 cleaned characters and ends in a digit or K |
| RutFormat.ParseIntSum | src/lib/utils.ts:37-40 | the weighted-sum loop flags NaN iff the body is not all digits, and otherwise yields the weighted sum |
| RutFormat.WeightedSumHead | src/lib/utils.ts:37-40 | the weighted sum splits at its first digit |
| RutFormat.LoopStateMeaning | src/lib/utils.ts:37-40 | after reading the characters from a position to the end, NaN is set iff one of them is not a digit, the sum is their weighted sum, and the multiplier is the next position's weight |
| RutFormat.ValidatorsAgree | src/lib/utils.ts:27-46 | for 7- and 8-digit bodies, validateRut and isValidRut agree |
| RutFormat.ValidatorsDisagreeOnShortRut | src/lib/utils.ts:29 | a correct RUT with a body of at most 6 digits is accepted by isValidRut but refused by validateRut |
| Errors.NewApiError | src/lib/errors.ts:4-9 | an ApiError keeps its message and code, with status 500 when none is given |
| Errors.ToPublicError | src/lib/errors.ts:12-15 | an ApiError passes through; any other throwable becomes 500 "Error inesperado" without a code |
| Errors.PublicErrorKeepsApiError | src/lib/errors.ts:12-15 | an ApiError is rebuilt from its public form |
| Errors.ThrownIsOpaque | src/lib/errors.ts:14 | non-ApiError failures are indistinguishable to the client |
| Errors.ErrorMessageOr | app/api/whatsapp/send/route.ts:137-143 | an `ApiError` or an `Error` gives its own message; a throwable that is not an `Error` gives the fallback |
| Config.OrElse | app/api/meta/conversions/route.ts:36-40 | JavaScript's logical or on optional strings: the first value when it is truthy, else the second |
| Base64.Sextets | src/lib/session.ts:27-33 | the sextet count of base64 without padding: 4 per group of 3 bytes, plus 2 or 3 for a partial group |
| Base64.GroupRoundTrip | src/lib/session.ts:27-40 | one 3-byte group decodes back from its four sextets |
| Base64.SextetsRoundTrip | src/lib/session.ts:27-40 | decoding the sextets of any byte string gives it back |
| Base64.SextetValue | src/lib/session.ts:35-40 | both alphabets' characters decode to their own sextet |
| Base64.MapStd | src/lib/session.ts:27-33 | each sextet maps to its standard-alphabet character |
| Base64.MapUrl | src/lib/session.ts:27-33 | each sextet maps to its URL-alphabet character |
| Base64.StdCharNotPad | src/lib/session.ts:29-32 | no sextet is `=`; only 62 and 63 map to `+` and `/` |
| Base64.RemovePadding | src/lib/session.ts:31 | stripping `=` leaves the encoded characters |
| Base64.Base64UrlIsMapUrl | src/lib/session.ts:27-33 | the three replacements equal encoding with the URL alphabet |
| Base64.Base64UrlAlphabet | src/lib/session.ts:27-33 | a base64url string has no `.`, `=`, `+` or `/` and decodes character by character |
| Base64.UrlCharProps | src/lib/session.ts:27-33 | each URL-alphabet character decodes to its own sextet and is never the token separator |
| Base64.DecodeCharsOfMapStd | src/lib/session.ts:35-40 | Node's decoder reads a standard encoding up to its padding |
| Base64.DecodeCharsSkips | src/lib/session.ts:35-40 | Node's decoder skips characters outside the alphabet |
| Base64.Base64UrlRoundTrip | src/lib/session.ts:27-40 | unbase64url(base64url(b)) == b |
| Url.Utf8 | app/api/auth/request-otp/route.ts:34 | UTF-8 encodes a character in 1 to 4 bytes, ASCII in one |
| Url.PercentBytes | app/api/auth/request-otp/route.ts:34 | each byte becomes three characters of `%XX` |
| Url.EncodeUriComponent | app/api/auth/request-otp/route.ts:34 | encodeURIComponent never shortens |
| Url.EncodeUriComponentAlphabet | app/api/auth/request-otp/route.ts:34 | the output has only unreserved characters and `%` |
| Url.EncodeUriComponentIdentity | app/api/auth/request-otp/route.ts:34 | the encoding is the identity iff every character is unreserved, so a normalised RUT is sent as it is |
| Url.FormEncode | middleware.ts:25 | form encoding never shortens |
| Url.FormEncodeAlphabet | middleware.ts:25 | form encoding emits only safe characters, `+` and `%` |
| RateLimit.Step | src/lib/rate-limit.ts:6-17 | only the key's bucket changes; a missing or expired bucket restarts at count 1 and passes; otherwise the count increments and passes iff it is within the limit; a refusal is the 429 error |
| RateLimit.Run | src/lib/rate-limit.ts:6-17 | one verdict per request in a sequence |
| RateLimit.RunInsideWindow | src/lib/rate-limit.ts:13-16 | inside one window the count grows by one per request and request j passes iff count + j + 1 <= limit |
| RateLimit.WindowAdmitsLimit | src/lib/rate-limit.ts:6-17 | a fresh window admits exactly `limit` requests |
| RateLimit.ExpiredWindowPasses | src/lib/rate-limit.ts:9-12 | after the reset time the next request opens a new window and passes |
| RateLimit.RejectionPersists | src/lib/rate-limit.ts:13-16 | once refused, a key stays refused until its window resets |
| RateLimit.RateLimiter.constructor | src/lib/rate-limit.ts:4 | the bucket map starts empty |
| RateLimit.RateLimiter.Check | src/lib/rate-limit.ts:6-17 | the in-place update equals Step on the old buckets |
| Session.Secret | src/lib/session.ts:21-25 | a missing or empty SESSION_SECRET is the 500 error with code MISSING_SESSION_SECRET |
| Session.Sign | src/lib/session.ts:42-47 | signing fails iff the secret is missing, and otherwise is `base64url(json).base64url(hmac)` |
| Session.Verify | src/lib/session.ts:49-61 | throws only for two non-empty segments without a secret; an accepted token has a MAC over its first segment and parses to the payload returned |
| Base64.Base64Url | src/lib/session.ts:27-33 | the standard encoding with `=` removed and `+`, `/` replaced; `Base64.Base64UrlIsMapUrl` proves it is the URL alphabet over the sextets |
| Base64.Unbase64Url | src/lib/session.ts:35-40 | the alphabet swapped back, padded to a multiple of four and decoded; `Base64.Base64UrlRoundTrip` proves it inverts `Base64Url` |
| Session.TokenPieces | src/lib/session.ts:42-61 | both segments are non-empty, dot-free, split back apart and decode to their bytes |
| Session.SignedShape | src/lib/session.ts:42-47 | a signed token has exactly two segments carrying the payload JSON and its MAC |
| Session.VerifySigned | src/lib/session.ts:49-61 | verify(sign(p)) == p |
| Session.VerifyAcceptsOnlySigned | src/lib/session.ts:49-61 | an accepted token carries a correct MAC over its first segment and parses to the payload |
| Session.VerifyEmptySegment | src/lib/session.ts:51 | a token with an empty segment reads as no session |
| Session.VerifyMissingSecret | src/lib/session.ts:52 | a well-shaped token with no secret configured throws |
| Session.SegmentsOfTwo | src/lib/session.ts:50 | `split(".")` destructures `p.s` into its two parts |
| Session.SegmentsOfMore | src/lib/session.ts:50 | extra segments are ignored by the destructuring |
| Session.VerifyIgnoresTail | src/lib/session.ts:49-61 | anything after a third dot does not change the verdict |
| Session.SetOptions | src/lib/session.ts:63-72 | cookies are httpOnly, path `/`, sameSite lax, secure in production, with the given maxAge |
| Session.ReadToken | src/lib/session.ts:74-78 | `getSession`/`getOtpChallenge`: a missing or empty cookie is no session; otherwise the cookie value goes through `verify` |
| Session.ReadWrittenToken | src/lib/session.ts:63-99 | a cookie written by setSession/setOtpChallenge reads back as its payload |
| Session.ReadTokenNeedsSecret | src/lib/session.ts:74-78 | a session is only ever read with a secret configured |
| Session.ReadClearedToken | src/lib/session.ts:80-82 | a cleared cookie reads as no session |
| Session.ReadOtherToken | src/lib/session.ts:74-99 | writing one cookie leaves the reading of the other unchanged |
| Session.ReadCopiedToken | src/lib/session.ts:74-99 | a cookie value copied under another name reads the same under that name |
| Session.CookieStore.constructor | src/lib/session.ts:63-103 | the jar starts as given |
| Session.CookieStore.Set | src/lib/session.ts:64 | `cookies().set` updates that one cookie |
| Session.SetToken | src/lib/session.ts:63-93 | without a secret nothing is written and the error is raised; otherwise the signed token is written |
| Session.SetSession | src/lib/session.ts:63-72 | writes `cm_session` with patientId and rut, no phone, and a 30-day maxAge |
| Session.SetOtpChallenge | src/lib/session.ts:84-93 | writes `cm_otp` with patientId, rut and phone, 10-minute maxAge |
| Session.ClearToken | src/lib/session.ts:80-82 | the named cookie becomes empty with maxAge 0 |
| Session.ChallengeAcceptedAsSession | src/lib/session.ts:42-61 | as written, a challenge token pasted into `cm_session` verifies as a session |
| Session.SignForShape | src/lib/session.ts:42-47 | corrected signing MACs the cookie name with the payload segment |
| Session.VerifyForSigned | src/lib/session.ts:49-61 | corrected verify(sign(name, p)) under the same name returns p |
| Session.VerifyForRejects | src/lib/session.ts:49-61 | a wrong MAC reads as no session |
| Session.VerifyForOtherName | src/lib/session.ts:49-61 | with the correction, a token signed for one cookie name is accepted under another exactly when HMAC gives the same digest for the two MAC inputs |
| Session.ChallengeNeverSession | src/lib/session.ts:5-6 | with the correction, a challenge token is never accepted as a session unless HMAC collides on the two inputs |
| Otp.GetOtpProvider | src/lib/otp.ts:10-16 | Twilio Verify iff all three Twilio variables are set, the mock otherwise |
| Otp.HasTwilio | src/lib/otp.ts:10-16 | the definition: all three Twilio variables truthy; `Otp.GetOtpProvider` states the provider choice it drives |
| Otp.TwilioUrl | src/lib/otp.ts:22 | the request goes to the Verify service's endpoint |
| Otp.TwilioResult | src/lib/otp.ts:33-37 | a non-ok reply is the 500 OTP_PROVIDER_ERROR; otherwise it gives the response status |
| Otp.TwilioVerifyResult | src/lib/otp.ts:45-51 | a code is accepted iff the check succeeds with status `approved` |
| Otp.TwilioRequestResult | src/lib/otp.ts:41-43 | requesting fails exactly when Twilio answers non-ok |
| Otp.MockCode | src/lib/otp.ts:59 | the mock code is six digits without a leading zero |
| Otp.MockAcceptsIff | src/lib/otp.ts:65-68 | the mock accepts exactly the stored code for that phone |
| Otp.MockRequestThenVerify | src/lib/otp.ts:58-68 | after a request the new code is the only one accepted for that phone, and other phones are unaffected |
| Otp.MockOtp.constructor | src/lib/otp.ts:55 | the code map starts empty |
| Otp.MockOtp.RequestOtp | src/lib/otp.ts:58-63 | stores the drawn code for the phone |
| Otp.MockOtp.VerifyOtp | src/lib/otp.ts:65-68 | accepts iff the stored code matches |
| Middleware.IsProtectedIff | middleware.ts:14-16 | a path is protected iff it starts with `/antiguo/portal` |
| Middleware.IsProtected | middleware.ts:5-16 | the definition: some protected route is a prefix of the path; `Middleware.IsProtectedIff` reduces it to one prefix test |
| Middleware.LoginUrl | middleware.ts:24-25 | the redirect keeps origin, goes to `/antiguo`, and carries the form-encoded path as redirect |
| Middleware.Guard | middleware.ts:10-31 | redirect (307) iff protected and the cookie is missing or empty |
| Middleware.Middleware | middleware.ts:10-31 | the shipped guard redirects iff the path is protected and `session_token` is missing or empty |
| Middleware.AnyValuePasses | middleware.ts:20-22 | any non-empty `session_token` passes; it is not verified |
| Middleware.RedirectKeepsOneParameter | middleware.ts:25 | the redirect query is exactly one `redirect` parameter |
| Middleware.OtherCookiesIgnored | middleware.ts:20 | only `session_token` matters |
| AuthRoutes.GetIPFirstEntry | app/api/auth/request-otp/route.ts:12-16 | the client address is the first, trimmed entry of x-forwarded-for |
| AuthRoutes.GetIPFallback | app/api/auth/request-otp/route.ts:12-16 | otherwise x-real-ip, otherwise "unknown" |
| AuthRoutes.GetIP | app/api/auth/request-otp/route.ts:12-16 | the definition of `getIP`; `GetIPFirstEntry` and `GetIPFallback` state its cases |
| AuthRoutes.MaskPhone | app/api/auth/request-otp/route.ts:18-22 | fewer than 6 digits gives `***`; otherwise `+`, stars, then the last four digits |
| AuthRoutes.MaskPhoneHides | app/api/auth/request-otp/route.ts:18-22 | the mask depends only on the digit count and the last four digits |
| AuthRoutes.PatientContact | app/api/auth/request-otp/route.ts:35-41 | no record is 404 PATIENT_NOT_FOUND; no id is 500; no phone is 409 NO_PHONE; otherwise the id and phone by the source's key precedence |
| AuthRoutes.LookupContact | app/api/auth/request-otp/route.ts:34-41 | a Dentalink failure propagates; otherwise the contact comes from the listing |
| AuthRoutes.PhonePrecedence | app/api/auth/request-otp/route.ts:39 | `celular` wins over `telefono`, which wins over `phone` |
| AuthRoutes.ValidRutQuery | app/api/auth/request-otp/route.ts:34 | a valid normalised RUT is sent unescaped in `pacientes?q=` |
| AuthRoutes.ValidatedRutMatches | app/api/auth/request-otp/route.ts:30-31 | a RUT that passes the check matches the RUT pattern |
| AuthRoutes.ErrorResponse | app/api/auth/request-otp/route.ts:49-52 | the error body's status is the response status; ApiErrors keep status and code; others are 500 |
| AuthRoutes.SendCode | app/api/auth/request-otp/route.ts:43-44 | the mock stores the drawn code; Twilio leaves the store alone |
| AuthRoutes.CheckCode | app/api/auth/verify-otp/route.ts:25-27 | with the mock, accept iff a phone is known and its stored code matches |
| AuthRoutes.RequestOtpFlow | app/api/auth/request-otp/route.ts:24-53 | the route: the `otp_req:` rate limit (8 per minute), then the rest; its lemmas are the `RequestOtp*` rows |
| AuthRoutes.RequestOtpParsed | app/api/auth/request-otp/route.ts:29-30 | the body schema, then the normalised RUT |
| AuthRoutes.RequestOtpForRut | app/api/auth/request-otp/route.ts:31-34 | the 400 for an invalid RUT, then the directory query |
| AuthRoutes.RequestOtpForContact | app/api/auth/request-otp/route.ts:35-41 | a directory failure is answered as it is; a contact gets a challenge |
| AuthRoutes.IssueChallengeFlow | app/api/auth/request-otp/route.ts:43-48 | sends the code, sets `cm_otp` and answers the masked phone |
| AuthRoutes.VerifyOtpFlow | app/api/auth/verify-otp/route.ts:16-37 | the route: the `otp_ver:` rate limit (12 per minute), then the rest; its lemmas are the `VerifyOtp*` rows |
| AuthRoutes.VerifyOtpParsed | app/api/auth/verify-otp/route.ts:21-22 | the body schema, then the challenge cookie |
| AuthRoutes.VerifyOtpChallenge | app/api/auth/verify-otp/route.ts:22-26 | a read error or a missing challenge fails; otherwise the code is checked against the challenge phone |
| AuthRoutes.OpenSession | app/api/auth/verify-otp/route.ts:26-32 | an accepted code sets `cm_session` and clears `cm_otp`; a refused one is 401 OTP_INVALID |
| AuthRoutes.LogoutFlow | app/api/auth/logout/route.ts:4-12 | both cookies cleared and a 303 to `/` on the same origin; `LogoutClears` and `LogoutIdempotent` state it |
| AuthRoutes.RequestOtpRateLimited | app/api/auth/request-otp/route.ts:27 | over the limit: 429, only the bucket changes |
| AuthRoutes.RequestOtpInvalidRut | app/api/auth/request-otp/route.ts:30-31 | an invalid RUT is 400 "RUT inválido" before Dentalink is consulted |
| AuthRoutes.IssueChallengeCookies | app/api/auth/request-otp/route.ts:43-48 | issuing a challenge writes at most `cm_otp`, and only on success |
| AuthRoutes.RequestOtpParsedCookies | app/api/auth/request-otp/route.ts:29-48 | after parsing, only the challenge cookie can change, and only on success |
| AuthRoutes.RequestOtpCookies | app/api/auth/request-otp/route.ts:24-53 | a failed request leaves the cookies alone; a successful one writes only `cm_otp` |
| AuthRoutes.IssueChallengeSuccess | app/api/auth/request-otp/route.ts:43-48 | on success: 200 with the masked phone, and a challenge cookie that reads back as patientId, rut, phone and time |
| AuthRoutes.RequestOtpSuccess | app/api/auth/request-otp/route.ts:24-48 | with a valid RUT and a contact, the whole route answers 200 and writes the readable challenge |
| AuthRoutes.OpenSessionCookies | app/api/auth/verify-otp/route.ts:29-32 | a session is opened only for an accepted code and a configured secret; it sets `cm_session` and clears `cm_otp` |
| AuthRoutes.OpenSessionReads | app/api/auth/verify-otp/route.ts:29-32 | the new session reads back with the challenge's patient and rut; the challenge reads as absent |
| AuthRoutes.VerifyOtpParsedCookies | app/api/auth/verify-otp/route.ts:21-32 | a failure changes no cookie; success needs a valid code, a readable challenge and an accepted code |
| AuthRoutes.VerifyOtpFailureKeepsCookies | app/api/auth/verify-otp/route.ts:16-37 | a failed verification leaves the cookies and codes alone |
| AuthRoutes.VerifyOtpSuccess | app/api/auth/verify-otp/route.ts:16-32 | a successful verification implies the rate limit passed, the challenge was read, the code was accepted, and the session was written |
| AuthRoutes.VerifyOtpAccepts | app/api/auth/verify-otp/route.ts:16-32 | conversely, those conditions give 200, a session and a cleared challenge |
| AuthRoutes.VerifyOtpMockIff | app/api/auth/verify-otp/route.ts:25-27 | with the mock, verification succeeds iff the submitted code is the stored one |
| AuthRoutes.KeysDistinct | app/api/auth/request-otp/route.ts:27 | the two routes' rate-limit keys never collide |
| AuthRoutes.MockCodeAccepted | app/api/auth/verify-otp/route.ts:16-32 | the drawn mock code is accepted by verify-otp |
| AuthRoutes.MockLogin | app/api/auth/request-otp/route.ts:24-53 | request-otp then verify-otp with the mock code logs the patient in |
| AuthRoutes.LogoutClears | app/api/auth/logout/route.ts:4-12 | logout clears both cookies and redirects 303 to `/` on the same origin |
| AuthRoutes.LogoutIdempotent | app/api/auth/logout/route.ts:4-12 | logging out twice is the same as once |
| AuthRoutes.RequestOtpChallengeOpensSession | app/api/auth/request-otp/route.ts:46 | as written, the challenge issued by request-otp, copied into `cm_session`, reads as that patient's session |
| AuthRoutes.LoggedInPatientRedirected | middleware.ts:20-27 | as written, a freshly logged-in patient is still redirected away from the portal |
| AuthRoutes.LoggedInPatientPassesSessionGuard | middleware.ts:20-27 | with the guard reading `cm_session`, that patient passes |
| AuthRoutes.AuthServer.constructor | app/api/auth/request-otp/route.ts:24-53 | a server over a given jar with empty buckets and codes |
| AuthRoutes.AuthServer.RequestOtp | app/api/auth/request-otp/route.ts:24-53 | the in-place route equals RequestOtpFlow on the old state |
| AuthRoutes.AuthServer.IssueChallenge | app/api/auth/request-otp/route.ts:43-48 | the in-place stage equals IssueChallengeFlow |
| AuthRoutes.AuthServer.VerifyOtp | app/api/auth/verify-otp/route.ts:16-37 | the in-place route equals VerifyOtpFlow |
| AuthRoutes.AuthServer.Logout | app/api/auth/logout/route.ts:4-12 | the in-place route equals LogoutFlow |
| WhatsApp.RemoveSeparators | src/lib/whatsapp-client.ts:241 | no whitespace, `-`, `(` or `)` remains |
| WhatsApp.RemoveSeparatorsAppend | src/lib/whatsapp-client.ts:241 | removal distributes over concatenation |
| WhatsApp.RemoveSeparatorsIdentity | src/lib/whatsapp-client.ts:241 | a separator-free string is unchanged |
| WhatsApp.WithCountryCode | src/lib/whatsapp-client.ts:249-251 | a 9-digit number starting with 9 gets `56` in front |
| WhatsApp.FormatPhoneNumber | src/lib/whatsapp-client.ts:239-254 | the result has no separators and grows by at most two; the nine-character test counts UTF-16 code units |
| WhatsApp.SeparatorIgnored | src/lib/whatsapp-client.ts:241 | a separator anywhere does not change the formatted number |
| WhatsApp.FormatPlain | src/lib/whatsapp-client.ts:239-254 | a plain number without `+` only gets the country code rule |
| WhatsApp.MobileSpellingsAgree | src/lib/whatsapp-client.ts:239-254 | `9XXXXXXXX`, `569XXXXXXXX` and `+569XXXXXXXX` format alike |
| WhatsApp.NationalFormatted | src/lib/whatsapp-client.ts:239-254 | `56` plus a mobile number stays as is |
| WhatsApp.InternationalFormatted | src/lib/whatsapp-client.ts:244-246 | a leading `+` is dropped |
| WhatsApp.OnlyOnePlusDropped | src/lib/whatsapp-client.ts:244-246 | only one `+` is dropped |
| WhatsApp.FormatPhoneIdempotent | src/lib/whatsapp-client.ts:239-254 | formatting is idempotent unless the result still begins with `+` |
| WhatsApp.LanguageOr | src/lib/whatsapp-client.ts:230 | an empty or missing language is `es` |
| WhatsApp.BuildPayloadFaithful | src/lib/whatsapp-client.ts:209-237 | the payload is for WhatsApp, individual, to the same number; text has preview on; templates default to `es`; the message is recoverable from the payload |
| WhatsApp.BuildPayload | src/lib/whatsapp-client.ts:209-237 | the definition of `buildPayload`; `BuildPayloadFaithful` states what it keeps |
| WhatsApp.TextParameters | src/lib/whatsapp-client.ts:99-104 | one text parameter per value, in order |
| WhatsApp.SendText | src/lib/whatsapp-client.ts:59-65 | a text message to the formatted number |
| WhatsApp.SendTemplate | src/lib/whatsapp-client.ts:70-83 | a template of that name and components to the formatted number; a non-empty language code is sent as given, an omitted or empty one becomes `es` |
| WhatsApp.AppointmentReminder | src/lib/whatsapp-client.ts:88-107 | template `cita_recordatorio` with patient, date, time, doctor |
| WhatsApp.AppointmentConfirmation | src/lib/whatsapp-client.ts:112-130 | template `cita_confirmada` with patient, date, time, address |
| WhatsApp.WelcomeLead | src/lib/whatsapp-client.ts:135-142 | template `bienvenida_lead` with the name |
| WhatsApp.DiagnosisResult | src/lib/whatsapp-client.ts:147-155 | a text greeting the patient, embedding the summary, and ending with the booking invitation |
| Meta.RemovePhoneNoise | src/lib/meta-client.ts:315 | whitespace, `-`, `(`, `)` and every `+` are removed |
| Meta.NormalizePhone | src/lib/meta-client.ts:313-323 | the normalised phone has none of them |
| Meta.NoiseIsSeparators | src/lib/meta-client.ts:315 | without `+`, the two cleaners coincide |
| Meta.NormalizersAgree | src/lib/meta-client.ts:313-323 | with at most one leading `+`, the Meta and WhatsApp normalisers agree |
| Meta.NormalizersDisagreeOnDoublePlus | src/lib/meta-client.ts:313-323 | on `++digits` they disagree |
| Meta.KeyNamesDistinct | src/lib/meta-client.ts:263-307 | the hashed record's keys are distinct |
| Meta.HashedKeysPresent | src/lib/meta-client.ts:263-307 | a hashed key is present iff its field is truthy, and holds the hash of the field's canonical form |
| Meta.HashUserData | src/lib/meta-client.ts:263-307 | the definition: one entry per truthy field, its hash of the canonical form; `HashedKeysPresent` and the per-key lemmas state it |
| Meta.TechnicalFieldsCopied | src/lib/meta-client.ts:293-304 | IP, user agent, fbc and fbp are copied unhashed |
| Meta.EmailHashed | src/lib/meta-client.ts:266-268 | a present email is sent as the hash of its lower-cased, trimmed form |
| Meta.PhoneHashed | src/lib/meta-client.ts:269-271 | a present phone is sent as the hash of its normalised form |
| Meta.FirstNameHashed | src/lib/meta-client.ts:272-274 | a present first name is sent as the hash of its lower-cased, trimmed form |
| Meta.LastNameHashed | src/lib/meta-client.ts:275-277 | a present last name is sent as the hash of its lower-cased, trimmed form |
| Meta.CityHashed | src/lib/meta-client.ts:278-280 | a present city is hashed lower-cased, trimmed and with all whitespace removed |
| Meta.StateHashed | src/lib/meta-client.ts:281-283 | a present state is sent as the hash of its lower-cased, trimmed form |
| Meta.CountryHashed | src/lib/meta-client.ts:284-286 | a present country is sent as the hash of its lower-cased, trimmed form |
| Meta.ZipCodeHashed | src/lib/meta-client.ts:287-289 | a present zip code is only trimmed before hashing |
| Meta.ExternalIdHashed | src/lib/meta-client.ts:290-292 | a present external id is hashed as it is |
| Meta.EmailHashIgnoresCase | src/lib/meta-client.ts:267 | emails equal up to case and surrounding space hash alike |
| Meta.EventTime | src/lib/meta-client.ts:80 | a given non-zero time is kept; otherwise the floor of now in seconds |
| Meta.ConversionPayload | src/lib/meta-client.ts:75-87 | the payload keeps name, custom data and URL, sets the time, defaults the action source to website, and hashes the user data |
| Meta.TrackLead | src/lib/meta-client.ts:109-119 | Lead with the caller's custom data, category `dental` unless given |
| Meta.TrackSchedule | src/lib/meta-client.ts:124-139 | Schedule with category (service or `consulta`), value (or 0), CLP and the date |
| Meta.TrackInitiateCheckout | src/lib/meta-client.ts:144-153 | InitiateCheckout with category (service or `diagnostico`) |
| Meta.TrackPurchase | src/lib/meta-client.ts:158-172 | Purchase with service, value and currency (CLP by default) |
| Meta.TrackContact | src/lib/meta-client.ts:177-185 | Contact with the method, `whatsapp` by default |
| Meta.TrackPageView | src/lib/meta-client.ts:190-200 | PageView sourced from the page URL, with the title iff given |
| Meta.ParseLead | src/lib/meta-client.ts:329-343 | the form id falls back from the lead to the argument to ""; the fields default to empty; id, creation time, ad id and name, campaign id and name are copied from the lead |
| Meta.ParseLeads | src/lib/meta-client.ts:325-327 | each raw lead is parsed with the form id |
| Meta.FindField | src/lib/meta-client.ts:351-353 | the first field whose name matches case-insensitively |
| Meta.ExtractLeadField | src/lib/meta-client.ts:350-355 | the first value of that field, or null when missing or empty |
| Meta.ExtractIgnoresCase | src/lib/meta-client.ts:350-355 | the lookup ignores the case of the requested name |
| Meta.FindFieldIgnoresCase | src/lib/meta-client.ts:351-353 | the same for the underlying search |
| Meta.ExtractLeadData | src/lib/meta-client.ts:357-371 | email, full name, first name and last name from their own fields; phone from `phone_number`, else `phone` |
| Dentalink.Nullish | src/lib/dentalink-client.ts:32-34 | `a ?? b` |
| Dentalink.Resolve | src/lib/dentalink-client.ts:32-34 | the base URL, token and client id come from the options, then the environment, with the default base URL |
| Dentalink.FinalPath | src/lib/dentalink-client.ts:40-47 | a `{clientId}` path without a client id is DENTALINK_MISSING_CLIENT_ID; otherwise one occurrence is replaced by the client id with its `$` patterns expanded |
| Dentalink.FirstPlaceholderReplaced | src/lib/dentalink-client.ts:46 | it is the first occurrence, replaced by the expanded client id |
| Dentalink.SplicedAtFirst | src/lib/dentalink-client.ts:46 | with a client id, the path is spliced at the first `{clientId}` |
| Dentalink.LiteralClientIdInserted | src/lib/dentalink-client.ts:46 | a client id without `$` replaces the first placeholder literally |
| Dentalink.MatchedPatternKeepsPlaceholder | src/lib/dentalink-client.ts:46 | a client id of `$&` puts the placeholder back, so a path such as `/pacientes/{clientId}` is requested unchanged |
| Dentalink.DropTrailingSlash | src/lib/dentalink-client.ts:49 | one trailing slash of the base URL is dropped |
| Dentalink.DropLeadingSlash | src/lib/dentalink-client.ts:49 | one leading slash of the path is dropped |
| Dentalink.JoinUrlOneSeparator | src/lib/dentalink-client.ts:49 | with or without slashes at the seam, the URL has exactly one |
| Dentalink.JoinUrlKeepsSecondSlash | src/lib/dentalink-client.ts:49 | a doubled slash keeps one of its slashes |
| Dentalink.JoinUrl | src/lib/dentalink-client.ts:49 | a base without a trailing slash and a path without a leading one are joined by one slash |
| Dentalink.Prepare | src/lib/dentalink-client.ts:32-61 | a missing token is DENTALINK_MISSING_TOKEN before any request; then a client-id error of the path is passed on; otherwise the request goes to the base URL joined with the final path and carries `Token <token>` |
| Dentalink.ReadResponse | src/lib/dentalink-client.ts:63-76 | an abort is the timeout error and a network failure is rethrown; a success needs a 2xx status, and is `null` only for an empty body |
| Dentalink.DentalinkFetch | src/lib/dentalink-client.ts:27-80 | fails with the configuration error before any request, else reads the response to the prepared request |
| Dentalink.MissingTokenBeforeRequest | src/lib/dentalink-client.ts:36-38 | without a token, fetching fails with 500 and nothing is fetched |
| Dentalink.MissingClientIdBeforeRequest | src/lib/dentalink-client.ts:42-45 | a `{clientId}` path without a client id fails before fetching |
| Dentalink.PlainPathRequested | src/lib/dentalink-client.ts:49-61 | a plain path requests base/path with the token header |
| Dentalink.EmptyBodyIsNull | src/lib/dentalink-client.ts:63-69 | an empty body is null on success, DENTALINK_ERROR with its status otherwise |
| Dentalink.OkBodyParsed | src/lib/dentalink-client.ts:63-71 | an ok response yields the parsed body |
| Dentalink.ErrorStatusPassedOn | src/lib/dentalink-client.ts:66-69 | a non-ok response is DENTALINK_ERROR with the upstream status |
| Dentalink.NonJsonErrorPageHidesStatus | src/lib/dentalink-client.ts:64 | a non-JSON body throws before the status is checked, so the client sees 500 |
| Dentalink.AbortIsTimeout | src/lib/dentalink-client.ts:72-75 | an aborted request is 504 DENTALINK_TIMEOUT |
| Dentalink.FilterParams | src/lib/dentalink-client.ts:85-89 | one parameter per truthy filter, `rut` first |
| Dentalink.SearchString | src/lib/dentalink-client.ts:91 | the query string is empty iff there are no parameters |
| Dentalink.PacientesPath | src/lib/dentalink-client.ts:85-93 | `/pacientes`, followed by `?query` only when there is a query |
| Dentalink.WithQuery | src/lib/dentalink-client.ts:92 | the path, with `?query` appended only for a non-empty query |
| Dentalink.RutFilterQuery | src/lib/dentalink-client.ts:85-93 | a RUT filter alone gives `/pacientes?rut=…` |
| Diagnosis.ValidSymptoms | app/api/diagnosis/route.ts:44-49 | symptoms are accepted iff they are a non-empty array |
| Diagnosis.ChooseProvider | app/api/diagnosis/route.ts:51-58 | OpenAI if its key is set, else Anthropic if its key is, else the mock |
| Diagnosis.PatientContext | app/api/diagnosis/route.ts:60-64 | one of three sentences chosen by `nuevo`, `existente` or otherwise |
| Diagnosis.Bulleted | app/api/diagnosis/route.ts:69 | each symptom becomes `- symptom` |
| Diagnosis.UserMessage | app/api/diagnosis/route.ts:66-71 | the message starts with the context and then holds the symptom list |
| Diagnosis.SymptomListLines | app/api/diagnosis/route.ts:69 | the list has one line per symptom |
| Diagnosis.SymptomList | app/api/diagnosis/route.ts:69 | the bullet list: empty for no symptoms, otherwise starting with the first one's bullet |
| Diagnosis.Upstream | app/api/diagnosis/route.ts:74-89 | the OpenAI or Anthropic request with the provider's URL, key, model and token limit |
| Diagnosis.MockFrames | app/api/diagnosis/route.ts:195-211 | one SSE frame per line of the mock text, then `[DONE]` |
| Diagnosis.StreamMock | app/api/diagnosis/route.ts:199-211 | the loop emits exactly those frames |
| Diagnosis.MockText | app/api/diagnosis/route.ts:166-168 | the mock text names the symptoms, joined by commas |
| Diagnosis.Post | app/api/diagnosis/route.ts:40-162 | a parse error is 500; missing symptoms are 400; the mock streams iff no key is set; a relayed stream comes from the chosen provider |
| Diagnosis.OpenAiPreferred | app/api/diagnosis/route.ts:73-109 | with both keys set, OpenAI is used |
| Diagnosis.ProviderFailureIs500 | app/api/diagnosis/route.ts:91-98 | a failing provider gives 500 "Error al procesar la solicitud" |
| DiagnosticoPage.StripCr | app/diagnostico/page.tsx:67 | a trailing `\r` is dropped |
| DiagnosticoPage.Payload | app/diagnostico/page.tsx:69-71 | a `data: ` line gives its trimmed payload |
| DiagnosticoPage.UnparsableLinePutBack | app/diagnostico/page.tsx:84-86 | an unparsable data line is pushed back |
| DiagnosticoPage.EmptyContentSkipped | app/diagnostico/page.tsx:79-83 | a frame without content adds nothing |
| DiagnosticoPage.StreamAnalysis | app/diagnostico/page.tsx:36-92 | the nested read loop computes the specified text and done flag |
| DiagnosticoPage.DrainExtends | app/diagnostico/page.tsx:63-88 | draining only appends to the text |
| DiagnosticoPage.ReadExtends | app/diagnostico/page.tsx:57-89 | reading chunks only appends to the text |
| DiagnosticoPage.IncompleteTailKept | app/diagnostico/page.tsx:63 | a buffer without newline is kept for the next chunk |
| DiagnosticoPage.FrontLine | app/diagnostico/page.tsx:63-65 | the first line is cut at the first newline |
| DiagnosticoPage.DrainSkip | app/diagnostico/page.tsx:68-69 | a skipped line is consumed without output |
| DiagnosticoPage.DrainAppend | app/diagnostico/page.tsx:79-83 | a content line appends its content |
| DiagnosticoPage.DrainFinish | app/diagnostico/page.tsx:72-75 | `[DONE]` stops reading |
| DiagnosticoPage.DrainPushBack | app/diagnostico/page.tsx:84-86 | a pushed-back line stops the drain with the buffer intact |
| DiagnosticoPage.SplitTerminated | app/api/diagnosis/route.ts:196 | rejoining the split lines with newlines gives the text plus one newline |
| DiagnosticoPage.TerminatedCons | app/api/diagnosis/route.ts:196 | how those terminated lines unfold |
| DiagnosticoPage.ConcatAppend | app/api/diagnosis/route.ts:199-211 | concatenating frames distributes over appending |
| DiagnosticoPage.LineFrames | app/api/diagnosis/route.ts:201-206 | one frame per line |
| DiagnosticoPage.MockFramesSplit | app/api/diagnosis/route.ts:195-211 | the mock stream is the line frames plus `[DONE]` |
| DiagnosticoPage.DataLine | app/diagnostico/page.tsx:67-71 | a trimmed payload after `data: ` is read back whole |
| DiagnosticoPage.FrameLineAppends | app/diagnostico/page.tsx:77-83 | the page reads a frame produced by the route as its content |
| DiagnosticoPage.DoneLineFinishes | app/diagnostico/page.tsx:72-75 | the route's `[DONE]` frame ends the page's read |
| DiagnosticoPage.PageReadsFrames | app/diagnostico/page.tsx:63-88 | the page's line rules read the route's frames |
| DiagnosticoPage.BlankLineSkipped | app/diagnostico/page.tsx:68 | the blank line after each frame is skipped |
| DiagnosticoPage.FrameLineUnbroken | app/api/diagnosis/route.ts:202-205 | a frame's data line has no newline inside |
| DiagnosticoPage.FrameShape | app/api/diagnosis/route.ts:205 | a frame is its data line and a blank line |
| DiagnosticoPage.FrameDrained | app/diagnostico/page.tsx:63-88 | a whole frame in the buffer appends its content |
| DiagnosticoPage.LineThenBlank | app/diagnostico/page.tsx:63-88 | a content line then a blank line appends the content |
| DiagnosticoPage.DoneFrameFinishes | app/diagnostico/page.tsx:72-75 | the done frame finishes the read |
| DiagnosticoPage.LineFramesDrained | app/diagnostico/page.tsx:63-88 | a run of frames in one buffer appends all their lines |
| DiagnosticoPage.MockStreamOneChunk | app/api/diagnosis/route.ts:195-211 | the whole mock stream in one chunk is read back as the mock text |
| DiagnosticoPage.MockStreamFrameByFrame | app/api/diagnosis/route.ts:195-211 | so is the stream delivered one frame per chunk |
| DiagnosticoPage.FramesRead | app/diagnostico/page.tsx:57-89 | frames in separate chunks, then `[DONE]`, are read back as their lines |
| DiagnosticoPage.DoneChunkRead | app/diagnostico/page.tsx:72-75 | a done chunk finishes reading |
| DiagnosticoPage.FrameChunkRead | app/diagnostico/page.tsx:57-89 | one frame chunk appends its content |
| DiagnosticoPage.PutBackLineBlocks | app/diagnostico/page.tsx:84-86 | once a line is pushed back, later chunks only accumulate and no text is added |
| DiagnosticoPage.ToggleSymptom | app/diagnostico/page.tsx:30-34 | checking appends the id; unchecking removes every copy |
| DiagnosticoPage.Without | app/diagnostico/page.tsx:32 | the filter removes the id and keeps the count of every other element |
| DiagnosticoPage.WithoutAppend | app/diagnostico/page.tsx:32 | filtering distributes over concatenation |
| DiagnosticoPage.WithoutAbsent | app/diagnostico/page.tsx:32 | filtering an absent id changes nothing |
| DiagnosticoPage.CheckThenUncheck | app/diagnostico/page.tsx:30-34 | checking then unchecking equals unchecking |
| DiagnosticoPage.FindSymptom | app/diagnostico/page.tsx:105 | the first table entry with the id |
| DiagnosticoPage.Label | app/diagnostico/page.tsx:104-106 | the entry's label if it has one, otherwise the id |
| DiagnosticoPage.UnknownIdIsItsOwnLabel | app/diagnostico/page.tsx:105 | an id missing from the table is shown as itself |
| DiagnosticoPage.KnownIdLabelled | src/lib/constants.ts:20-31 | a known id is shown with its label |
| DiagnosticoPage.AnalysisRequest | app/diagnostico/page.tsx:94-108 | nothing is sent for an empty selection; otherwise one label per selected id |
| DiagnosticoPage.FailureWarning | app/diagnostico/page.tsx:43-46 | the `error` field of the failed response when truthy, else "Error al obtener diagnóstico"; never empty |
| DiagnosticoPage.RouteErrorShown | app/diagnostico/page.tsx:43-46 | a route error body with a message is shown as that message |
| DiagnosticoPage.Page.constructor | app/diagnostico/page.tsx:11-16 | step 1, no patient type, no selection, no analysis |
| DiagnosticoPage.Page.ResetToHome | app/diagnostico/page.tsx:18-23 | back to the initial state |
| DiagnosticoPage.Page.SelectPatientType | app/diagnostico/page.tsx:25-28 | records the type and moves to step 2 |
| DiagnosticoPage.Page.Toggle | app/diagnostico/page.tsx:30-34 | updates the selection as ToggleSymptom |
| DiagnosticoPage.Page.GenerateAnalysis | app/diagnostico/page.tsx:36-119 | an empty selection warns, posts nothing and changes nothing; otherwise the posted body is the selected labels with the patient type, which the route accepts; a failed response clears the analysis, stays on the step and shows its error or the stock message; a stream moves to step 3 with the text read |
| NuevoPage.DerivedSpecialty | app/nuevo/page.tsx:49-55 | Urgencia for strong pain or 24h, then implants, orthodontics, bleeding, else Evaluación |
| NuevoPage.SpecialtyIgnoresCase | app/nuevo/page.tsx:51-52 | the reason is matched case-insensitively |
| NuevoPage.UrgencyOverrides | app/nuevo/page.tsx:50 | urgency wins over everything else |
| NuevoPage.FailedFields | app/nuevo/page.tsx:13-19 | each failing check names its field |
| NuevoPage.BasicIssuesEmptyIff | app/nuevo/page.tsx:13-19 | the basic data pass iff names have 2+ code units, the normalised RUT is valid, the phone has 8+, and the email is empty or valid |
| NuevoPage.BasicIssues | app/nuevo/page.tsx:13-19 | each field is reported exactly when its own check fails; the RUT is checked after normalisation |
| NuevoPage.EmailOptional | app/nuevo/page.tsx:18 | the email fails only if it is non-empty and invalid |
| NuevoPage.RutJudgedNormalized | app/nuevo/page.tsx:60 | the RUT is validated after normalisation |
| NuevoPage.QuestionnaireIssues | app/nuevo/page.tsx:21-26 | the questionnaire passes iff the reason has 3+ code units |
| NuevoPage.Advance | app/nuevo/page.tsx:71 | the step moves on by one, capped at the last step |
| NuevoPage.Back | app/nuevo/page.tsx:242 | the step moves back by one, floored at 0 |
| NuevoPage.NextCheck | app/nuevo/page.tsx:57-75 | step 0 checks the basic data, step 1 the questionnaire, step 2 the consent |
| NuevoPage.AcceptedNormalizesRut | app/nuevo/page.tsx:60-61 | leaving step 0 stores the parsed data with a normalised RUT |
| NuevoPage.ShownControlsNeverAskConsent | app/nuevo/page.tsx:248-250 | the Continue button, shown only before step 2, never runs the consent check |
| NuevoPage.SubmitRequest | app/nuevo/page.tsx:80-86 | the payload is built iff both schemas pass, with the parsed data, specialty, consent and attachments |
| NuevoPage.SubmitOutcome | app/nuevo/page.tsx:88-105 | created iff the server answers ok; errors carry the server's message or the fallback |
| NuevoPage.UnconsentedRequestSent | app/nuevo/page.tsx:77-106 | as written, a request without consent is sent |
| NuevoPage.ConsentedSubmitRequest | app/nuevo/page.tsx:68-70 | corrected: the request is built iff consent was given and the data pass |
| NuevoPage.SentRequestsConsented | app/nuevo/page.tsx:68-70 | every corrected request carries consent |
| NuevoPage.Wizard.constructor | app/nuevo/page.tsx:35-47 | the empty initial form |
| NuevoPage.Wizard.Next | app/nuevo/page.tsx:57-75 | a refusal leaves step and data alone; otherwise the step advances and the data are accepted |
| NuevoPage.Wizard.GoBack | app/nuevo/page.tsx:242 | the step goes back as Back |
| NuevoPage.Wizard.Submit | app/nuevo/page.tsx:77-106 | the outcome is SubmitOutcome; on creation the wizard jumps to the last step; loading ends false |
| WhatsAppWebhook.Handshake | app/api/whatsapp/webhook/route.ts:10-26 | the challenge is echoed with 200 iff the mode is `subscribe` and the token equals the configured one; 403 otherwise |
| WhatsAppWebhook.UnsetTokenRefuses | app/api/whatsapp/webhook/route.ts:19 | without a configured token every handshake is refused |
| WhatsAppWebhook.Then | app/api/whatsapp/webhook/route.ts:48-66 | a thrown run absorbs what follows; otherwise effects concatenate |
| WhatsAppWebhook.Send | app/api/whatsapp/webhook/route.ts:141-202 | a send either throws or records exactly one sent text |
| WhatsAppWebhook.ContactName | app/api/whatsapp/webhook/route.ts:89 | the profile name, or "Paciente" |
| WhatsAppWebhook.FirstContact | app/api/whatsapp/webhook/route.ts:55 | the first contact of the change, if any |
| WhatsAppWebhook.TopicOf | app/api/whatsapp/webhook/route.ts:147-191 | the first keyword group mentioned, in source order, picks the reply |
| WhatsAppWebhook.HoursAskedGetsScheduling | app/api/whatsapp/webhook/route.ts:150-174 | a text asking for `horario` is answered as scheduling, since it contains `hora` |
| WhatsAppWebhook.MediaNoun | app/api/whatsapp/webhook/route.ts:279 | images, documents, other files |
| WhatsAppWebhook.TextRun | app/api/whatsapp/webhook/route.ts:141-202 | a matched topic sends its reply; otherwise the team is notified, then thanks are sent |
| WhatsAppWebhook.UnmatchedNotifiesFirst | app/api/whatsapp/webhook/route.ts:191-201 | an unmatched text notifies first and fails only if the thanks fail |
| WhatsAppWebhook.ButtonReplyFor | app/api/whatsapp/webhook/route.ts:215-240 | each of the three payloads has its reply; any other has none |
| WhatsAppWebhook.ButtonRun | app/api/whatsapp/webhook/route.ts:207-241 | a known payload sends its reply; others do nothing |
| WhatsAppWebhook.ButtonSendsAtMostOnce | app/api/whatsapp/webhook/route.ts:207-241 | a button sends at most one message, to its sender |
| WhatsAppWebhook.InteractiveRun | app/api/whatsapp/webhook/route.ts:246-264 | a button reply is a button; a list reply only logs |
| WhatsAppWebhook.MediaRun | app/api/whatsapp/webhook/route.ts:269-290 | the thanks are sent, then the team is notified; nothing more if sending throws |
| WhatsAppWebhook.SavedContent | app/api/whatsapp/webhook/route.ts:133 | the text body, else the button text, else "media" |
| WhatsAppWebhook.HandleMessage | app/api/whatsapp/webhook/route.ts:81-136 | mark as read first; then the type's handler; then save, unless the handler threw |
| WhatsAppWebhook.HandlerRun | app/api/whatsapp/webhook/route.ts:97-124 | the switch on the message type; a missing part throws before anything is sent |
| WhatsAppWebhook.HandleStatus | app/api/whatsapp/webhook/route.ts:310-325 | records one status update and never throws |
| WhatsAppWebhook.MessagesAfterThrow | app/api/whatsapp/webhook/route.ts:71-75 | after a throw no further message is handled |
| WhatsAppWebhook.StatusesAfterThrow | app/api/whatsapp/webhook/route.ts:71-75 | after a throw no status is handled |
| WhatsAppWebhook.ChangesAfterThrow | app/api/whatsapp/webhook/route.ts:71-75 | after a throw no change is handled |
| WhatsAppWebhook.EntriesAfterThrow | app/api/whatsapp/webhook/route.ts:71-75 | after a throw no entry is handled |
| WhatsAppWebhook.RunMessages | app/api/whatsapp/webhook/route.ts:53-57 | the loop over a change's messages as a fold; `MessagesAfterThrow` and `MessagesExtend` state it |
| WhatsAppWebhook.RunStatuses | app/api/whatsapp/webhook/route.ts:60-64 | the loop over a change's statuses as a fold; `StatusesAfterThrow` and `StatusesExtend` state it |
| WhatsAppWebhook.RunChanges | app/api/whatsapp/webhook/route.ts:49-65 | the loop over an entry's changes as a fold; `ChangesAfterThrow` and `ChangesExtend` state it |
| WhatsAppWebhook.RunEntries | app/api/whatsapp/webhook/route.ts:48-66 | the loop over the entries as a fold; `EntriesAfterThrow` and `EntriesExtend` state it |
| WhatsAppWebhook.PostOutcome | app/api/whatsapp/webhook/route.ts:33-75 | the reference definition `WhatsAppWebhook.Post` is proved against: an unreadable body errs, another object is ignored, else the entries run |
| WhatsAppWebhook.Wording | app/api/whatsapp/webhook/route.ts:141-305 | the reply texts the handlers send, by reply |
| WhatsAppWebhook.MessagesExtend | app/api/whatsapp/webhook/route.ts:53-57 | handling messages only appends effects |
| WhatsAppWebhook.StatusesExtend | app/api/whatsapp/webhook/route.ts:60-64 | status updates only append, and never throw |
| WhatsAppWebhook.ChangeExtends | app/api/whatsapp/webhook/route.ts:49-65 | a change only appends effects |
| WhatsAppWebhook.ChangesExtend | app/api/whatsapp/webhook/route.ts:49-65 | so do all changes |
| WhatsAppWebhook.EntriesExtend | app/api/whatsapp/webhook/route.ts:48-66 | so do all entries |
| WhatsAppWebhook.OtherObjectsIgnored | app/api/whatsapp/webhook/route.ts:41-43 | a non-WhatsApp object is ignored with no effect |
| WhatsAppWebhook.FirstMessageReadFirst | app/api/whatsapp/webhook/route.ts:48-57 | the first effect is marking the first message as read |
| WhatsAppWebhook.Post | app/api/whatsapp/webhook/route.ts:33-76 | the nested loops compute the specified reply and effects, and the answer is always 200 |
| WhatsAppSend.Request | app/api/whatsapp/send/route.ts:37-129 | no recipient is 400; each supported type builds its client call (text, template, reminder, confirmation with the clinic address by default, welcome, diagnosis) when its parameters are present and otherwise gives its own 400 message; an unsupported type names itself; a request goes to the formatted number |
| WhatsAppSend.RequestNeedsExactlyRequired | app/api/whatsapp/send/route.ts:47-130 | a request is built iff there is a recipient, the type is supported and all of its required parameters are present |
| WhatsAppSend.ReminderNeeds | app/api/whatsapp/send/route.ts:73-87 | a reminder needs patient, date, time and doctor |
| WhatsAppSend.ConfirmationNeeds | app/api/whatsapp/send/route.ts:89-103 | a confirmation needs patient, date and time |
| WhatsAppSend.DiagnosisNeeds | app/api/whatsapp/send/route.ts:115-123 | a diagnosis needs patient and summary |
| WhatsAppSend.HasAllCons | app/api/whatsapp/send/route.ts:47-130 | how the required-parameter check unfolds |
| WhatsAppSend.ConfirmationAddressDefault | app/api/whatsapp/send/route.ts:101 | without an address, the clinic's address is sent |
| WhatsAppSend.Post | app/api/whatsapp/send/route.ts:23-144 | 401 iff unauthorised; 400 iff the request is refused; 200 iff it is sent; 500 is a parse or delivery failure and carries that failure's message |
| WhatsAppSend.UnsetKeyRefusesInProduction | app/api/whatsapp/send/route.ts:26-32 | in production with no key configured, every request is unauthorised |
| WhatsAppSend.NoGateOutsideProduction | app/api/whatsapp/send/route.ts:26-32 | outside production the key is never checked |
| MetaConversions.Enrich | app/api/meta/conversions/route.ts:36-40 | the IP falls back to x-forwarded-for, then x-real-ip; the user agent to its header; nothing else changes |
| MetaConversions.Dispatch | app/api/meta/conversions/route.ts:45-102 | refused iff a schedule lacks a date or a purchase lacks value or service, with that message; the user data are passed on; a lead, schedule, purchase, contact, page view or checkout becomes the matching Meta event built from customData's date, service, value, currency and method (contact defaults to "website"; the page URL falls back from eventSourceUrl to customData.pageUrl to ""); any other type is sent as a custom event with customData |
| MetaConversions.EventNamed | app/api/meta/conversions/route.ts:45-102 | known types get their pixel event name; others become a custom event of that name |
| MetaConversions.ContactDefaultsToWebsite | app/api/meta/conversions/route.ts:78-80 | a contact without a method is from the website |
| MetaConversions.PageViewSource | app/api/meta/conversions/route.ts:82-88 | the page URL is eventSourceUrl, else pageUrl, else "" |
| MetaConversions.Post | app/api/meta/conversions/route.ts:23-116 | a parse error is 500; a missing eventType is 400; missing user data are 500; a helper refusal is 400 with its message; a rejected send is 500 with its message; tracked iff dispatched and sent |

## Left out

- Cryptography (HMAC-SHA256, SHA-256), JSON stringify/parse, `fetch`, the clock and random draws are parameters. Their properties are stated as hypotheses: a JSON round trip and 32-byte digests (`Session.Sound`). The corrected signing assumes no collision resistance in general: `Session.VerifyForOtherName` states acceptance under another name exactly as an HMAC collision on the two inputs, and `Session.ChallengeNeverSession` assumes only that one input pair does not collide.
- Case mapping is modelled for ASCII only. Whitespace is the ECMAScript WhiteSpace and LineTerminator set. There is no Unicode normalisation.
- `TextDecoder` in the `/diagnostico` page is not modelled: chunks arrive already decoded as strings.
- DiagnosticoPage.Page.GenerateAnalysis: an exception thrown while the stream is being read (after step 3 is shown) is not modelled; the response is either a failed one or a stream of chunks that all arrive.
- React rendering, toasts, `track` analytics calls, the loading and streaming flags of `/diagnostico`, and the input setters of `/nuevo` are UI and not modelled.
- CORS headers and the `OPTIONS` handlers of the diagnosis and send routes return constants and are not modelled.
- Console logging is not modelled.
- zod error formatting is not modelled: a schema failure is a non-ApiError throwable, so the routes answer 500 "Error inesperado" exactly as `toPublicError` does.
- `email()` validation in `/nuevo` is an abstract predicate passed in.
- The `calculateDistance` helper of the webhook uses floating point. It is a parameter (`Outside.distance`), and the location reply embeds its result.
- The webhook's stub persistence functions (`saveMessageToDatabase`, `updateMessageStatus`, `notifyTeam`) only log. They are recorded as effects.
- The webhook timestamp is kept as received; its `parseInt`/`Date` conversion is not modelled.
- The webhook's reply texts are symbolic `Reply` values; their wording is in `WhatsAppWebhook.Wording`.
- WhatsAppWebhook.Send: whether `sendText` throws is a fixed function of recipient and reply, so retries with other outcomes are not modelled.
- WhatsAppWebhook.InteractiveRun: an `interactive` message whose `button_reply` or `list_reply` object is missing (a TypeError in the source) is not modelled.
- `markAsRead` catches its own errors and returns a boolean the webhook ignores. It is recorded as an effect and never fails.
- WhatsApp client `sendMessage`/`markAsRead` and Meta client `sendConversionEvent`, `getLeads`, `getLead` and `getForms` perform HTTP requests. The model stops at the payload or request they build; the reply is a parameter.
- Dentalink `getPaciente`, `getCitasPaciente`, `getSucursales`, `getTratamientosPaciente` and `getPagosPaciente` only pass a fixed path to `dentalinkFetch`. They are covered by `Dentalink.PlainPathRequested`. The 12-second timeout is the `Aborted` outcome; request headers other than `Authorization` are not modelled.
- WhatsAppSend.Post: a throwable that is not an `Error` (the "Error enviando mensaje" fallback) is not distinguished from an `Error` with a message.
- WhatsAppSend.Request and MetaConversions.Dispatch: JSON fields of an unexpected type are treated as absent.
- WhatsAppWebhook.Post: a `null` element inside `entry`, `changes` or `statuses`, or an `entry` that is truthy but not an array, cannot be written in the model's body datatypes; the route throws on these and answers with its error status, which the model does not reach from them.
- AuthRoutes.JsonValue: `JNumber` holds an integer, so a fractional numeric id in a JSON body is not represented.
- MetaConversions.Post: the TypeError raised when `userData` is missing is abstracted as `NoUserData`, its message text is not modelled, and the "Error enviando evento" fallback is not modelled.
- Meta.EventTime: `Date.now()` is the parameter `nowMs`.
- The in-memory maps (rate-limit buckets, mock OTP codes) are modelled per server instance. Concurrency between requests is not modelled.
- The OTP provider's SMS delivery and the Twilio wire format are not modelled: the call is a parameter.
- The diagnosis route's final "No API key configured" branch is unreachable, since an earlier check returns the mock. It is not modelled separately.
- The upstream AI streams are relayed untouched and are not modelled; only the mock stream's format is.

## Findings

| source | as written | input that shows it | evidently intended | confidence | as-written member | corrected member |
|---|---|---|---|---|---|---|
| src/lib/session.ts:42-61 | the session and OTP-challenge cookies are signed with the same key and format, and `verify` does not know which cookie it reads | the `cm_otp` value issued by request-otp, before any code is entered, copied into `cm_session` | a token is accepted only under the cookie name it was issued for | not executed | Session.ChallengeAcceptedAsSession, AuthRoutes.RequestOtpChallengeOpensSession | Session.ChallengeNeverSession, Session.VerifyForOtherName |
| middleware.ts:20 | the portal guard checks a `session_token` cookie that nothing sets; login sets `cm_session` | a patient who has just completed verify-otp requests `/antiguo/portal` | the guard checks the session cookie that login writes | not executed | AuthRoutes.LoggedInPatientRedirected | AuthRoutes.LoggedInPatientPassesSessionGuard |
| app/nuevo/page.tsx:77-106 | `submit` never checks consent; the consent check in `next` is only reachable through the Continue button, which is hidden at step 2 | at step 2 with valid data and the consent box unticked, press "Enviar y continuar" | no registration is sent without informed consent | not executed | NuevoPage.UnconsentedRequestSent | NuevoPage.ConsentedSubmitRequest, NuevoPage.SentRequestsConsented |
