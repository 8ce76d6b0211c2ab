/**
 * One-time-password delivery (src/lib/otp.ts): Twilio Verify when its three credentials are set,
 * otherwise an in-process mock that keeps the last code sent to each destination.  Twilio's
 * HTTP replies and `Math.random` are inputs.
 */
module Otp {
  import opened Wrappers
  import opened Strings
  import opened Errors
  import opened Config

  /** `hasTwilio()`. */
  predicate HasTwilio(env: Env) {
    Truthy(env.twilioAccountSid) && Truthy(env.twilioAuthToken) && Truthy(env.twilioVerifyServiceSid)
  }

  datatype Provider = TwilioVerify | MockProvider

  /** `getOtpProvider()`: Twilio exactly when all three credentials are set. */
  function GetOtpProvider(env: Env): (r: Provider)
    ensures r == TwilioVerify <==>
              Truthy(env.twilioAccountSid) && Truthy(env.twilioAuthToken) && Truthy(env.twilioVerifyServiceSid)
    ensures r == MockProvider <==> !HasTwilio(env)
  {
    if HasTwilio(env) then TwilioVerify else MockProvider
  }

  const ProviderError: ApiError := ApiError("No fue posible enviar/verificar OTP", 500, Some("OTP_PROVIDER_ERROR"))

  /** What Twilio answered: whether the status was 2xx and the `status` field of the JSON body
      when there is one and it is a string (`None` also when the body is not JSON). */
  datatype TwilioReply = TwilioReply(ok: bool, status: Option<string>)

  /** A form-encoded Twilio Verify call: the resource under the service and its parameters. */
  datatype TwilioCall = TwilioCall(path: string, params: seq<(string, string)>)

  /** The endpoint of a call for the service `serviceSid`. */
  function TwilioUrl(serviceSid: string, call: TwilioCall): (r: string)
    ensures StartsWith(r, "https://verify.twilio.com/v2/Services/")
    ensures EndsWith(r, "/" + call.path)
  {
    var prefix := "https://verify.twilio.com/v2/Services/";
    var r := prefix + serviceSid + "/" + call.path;
    assert r[..|prefix|] == prefix;
    assert r[|r| - |"/" + call.path|..] == "/" + call.path;
    r
  }

  /** `requestOtp` sends the destination and the channel, always `sms`. */
  function VerificationCall(to: string): TwilioCall {
    TwilioCall("Verifications", [("To", to), ("Channel", "sms")])
  }

  /** `verifyOtp` sends the destination and the code. */
  function VerificationCheckCall(to: string, code: string): TwilioCall {
    TwilioCall("VerificationCheck", [("To", to), ("Code", code)])
  }

  /** `twilioRequest`'s contract: a non-2xx reply throws `ProviderError`, any other gives the body. */
  function TwilioResult(reply: TwilioReply): (r: Result<Option<string>, ApiError>)
    ensures r.Failure? <==> !reply.ok
    ensures r.Failure? ==> r.error.status == 500 && r.error.code == Some("OTP_PROVIDER_ERROR")
    ensures r.Success? ==> r.value == reply.status
  {
    if !reply.ok then Failure(ProviderError) else Success(reply.status)
  }

  /** Twilio's `verifyOtp`: approved exactly when the status is `"approved"`. */
  function TwilioVerifyResult(reply: TwilioReply): (r: Result<bool, ApiError>)
    ensures r.Failure? <==> !reply.ok
    ensures r == Success(true) <==> reply.ok && reply.status == Some("approved")
  {
    match TwilioResult(reply)
    case Failure(e) => Failure(e)
    case Success(status) => Success(status == Some("approved"))
  }

  /** Twilio's `requestOtp`: fails only on a non-2xx reply. */
  function TwilioRequestResult(reply: TwilioReply): (r: Outcome<ApiError>)
    ensures r.Fail? <==> !reply.ok
    ensures r.Fail? ==> r.error == ProviderError
  {
    if TwilioResult(reply).Failure? then Fail(ProviderError) else Pass
  }

  /** The code the mock generates: `String(Math.floor(100000 + Math.random() * 900000))`, where
      `draw` stands for `Math.floor(Math.random() * 900000)`. */
  function MockCode(draw: nat): (r: string)
    requires draw < 900000
    ensures |r| == 6 && AllDigits(r) && r[0] != '0'
  {
    assert Pow10(5) == 100000 by {
      assert Pow10(2) == 100;
      assert Pow10(4) == 10000;
    }
    NatToStringLength(100000 + draw, 6);
    NatToString(100000 + draw)
  }

  /** The mock's `verifyOtp` on a code map: a stored, non-empty code equal to the one given. */
  predicate MockAccepts(codes: map<string, string>, to: string, code: string) {
    to in codes && codes[to] != "" && codes[to] == code
  }

  /** Every stored code is one the mock could have generated. */
  predicate WellFormedCodes(codes: map<string, string>) {
    forall to :: to in codes ==> |codes[to]| == 6 && AllDigits(codes[to])
  }

  /** On the mock's own codes the truthiness test never matters: a code is accepted exactly when
      one is stored for the destination and it equals the one given. */
  lemma MockAcceptsIff(codes: map<string, string>, to: string, code: string)
    requires WellFormedCodes(codes)
    ensures MockAccepts(codes, to, code) <==> to in codes && codes[to] == code
  {
    if to in codes {
      assert |codes[to]| == 6;
    }
  }

  /** Sending a new code replaces the old one: afterwards only the new code is accepted for that
      destination, and other destinations are unaffected. */
  lemma MockRequestThenVerify(codes: map<string, string>, to: string, draw: nat, code: string, other: string)
    requires draw < 900000 && other != to
    ensures MockAccepts(codes[to := MockCode(draw)], to, code) <==> code == MockCode(draw)
    ensures MockAccepts(codes[to := MockCode(draw)], other, code) == MockAccepts(codes, other, code)
  {
  }

  /** The module-level `mockCodes` map and the mock provider's two operations. */
  class MockOtp {
    var codes: map<string, string>

    ghost predicate Valid()
      reads this
    {
      WellFormedCodes(codes)
    }

    constructor ()
      ensures Valid() && codes == map[]
    {
      codes := map[];
    }

    /** `requestOtp({to})`: stores a fresh code for `to`, overwriting any earlier one. */
    method RequestOtp(to: string, draw: nat)
      requires Valid() && draw < 900000
      modifies this
      ensures Valid()
      ensures codes == old(codes)[to := MockCode(draw)]
    {
      codes := codes[to := MockCode(draw)];
    }

    /** `verifyOtp({to, code})`: a read of the map, which stays as it was. */
    function VerifyOtp(to: string, code: string): (accepted: bool)
      reads this
      ensures accepted == MockAccepts(codes, to, code)
    {
      var expected := if to in codes then Some(codes[to]) else None;
      expected.Some? && expected.value != "" && expected.value == code
    }
  }
}
