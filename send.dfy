/**
 * The internal endpoint that sends a WhatsApp message: an API-key gate in
 * production, the recipient check, and a table of the parameters each
 * message type requires before the matching client call is made.
 */
module WhatsAppSend {
  import opened Wrappers
  import opened Config
  import WhatsApp

  /** The JSON body: `type`, `to`, and every parameter some message type reads (`None` when absent). */
  datatype SendBody = SendBody(
    messageType: Option<string>,
    to: Option<string>,
    text: Option<string>,
    templateName: Option<string>,
    components: Option<seq<WhatsApp.Component>>,
    languageCode: Option<string>,
    patientName: Option<string>,
    date: Option<string>,
    time: Option<string>,
    doctorName: Option<string>,
    address: Option<string>,
    name: Option<string>,
    summary: Option<string>)

  datatype SendReply =
    | Unauthorized                  // 401 {error: "Unauthorized"}
    | BadRequest(error: string)     // 400 {error}
    | Sent(data: string)            // 200 {success: true, data}
    | ServerError(message: string)  // 500 {error: message}

  function ReplyStatus(r: SendReply): nat {
    match r
    case Unauthorized => 401
    case BadRequest(_) => 400
    case Sent(_) => 200
    case ServerError(_) => 500
  }

  const DefaultAddress := "Av. Providencia 1234, Providencia"
  const MissingRecipient := "Se requiere número de teléfono (to)"
  const NeedText := "Se requiere texto del mensaje"
  const NeedTemplateName := "Se requiere nombre del template"
  const NeedReminderParams := "Se requieren: patientName, date, time, doctorName"
  const NeedConfirmationParams := "Se requieren: patientName, date, time"
  const NeedLeadName := "Se requiere nombre del lead"
  const NeedDiagnosisParams := "Se requieren: patientName, summary"

  /**
   * `apiKey !== INTERNAL_API_KEY && NODE_ENV === "production"` fails the
   * request. An absent header is `null` and an unset key `undefined`, which
   * strict equality tells apart, so an unset key refuses every production
   * request.
   */
  predicate Authorized(apiKey: Option<string>, env: Env) {
    !IsProduction(env) || (apiKey.Some? && apiKey == env.internalApiKey)
  }

  /** The parameters some message type requires. */
  datatype ParamName = TextParam | TemplateName | PatientName | Date | Time | DoctorName | LeadName | Summary

  /** The parameters a message type requires, in the order the route checks them; `None` for an unsupported type. */
  function RequiredParams(messageType: Option<string>): Option<seq<ParamName>> {
    if messageType == Some("text") then Some([TextParam])
    else if messageType == Some("template") then Some([TemplateName])
    else if messageType == Some("appointment_reminder") then Some([PatientName, Date, Time, DoctorName])
    else if messageType == Some("appointment_confirmation") then Some([PatientName, Date, Time])
    else if messageType == Some("welcome_lead") then Some([LeadName])
    else if messageType == Some("diagnosis") then Some([PatientName, Summary])
    else None
  }

  function Param(b: SendBody, key: ParamName): Option<string> {
    match key
    case TextParam => b.text
    case TemplateName => b.templateName
    case PatientName => b.patientName
    case Date => b.date
    case Time => b.time
    case DoctorName => b.doctorName
    case LeadName => b.name
    case Summary => b.summary
  }

  /** Every parameter in `keys` is present and non-empty. */
  predicate HasAll(b: SendBody, keys: seq<ParamName>) {
    keys == [] || (Truthy(Param(b, keys[0])) && HasAll(b, keys[1..]))
  }

  /** `${type}` in the unsupported-type message. */
  function TypeText(messageType: Option<string>): string {
    messageType.GetOr("undefined")
  }

  /**
   * The route's checks after the gate: the recipient, then the switch on
   * `type` with each case's own required parameters; on success, the request
   * the matching client call sends.
   */
  function Request(b: SendBody): (r: Result<WhatsApp.Payload, string>)
    ensures !Truthy(b.to) ==> r == Failure(MissingRecipient)
    ensures Truthy(b.to) && RequiredParams(b.messageType).None? ==>
              r == Failure("Tipo de mensaje no soportado: " + TypeText(b.messageType))
    ensures r.Success? ==> r.value.to == WhatsApp.FormatPhoneNumber(b.to.value)
    ensures Truthy(b.to) && b.messageType == Some("text") ==>
              r == if Truthy(b.text) then Success(WhatsApp.SendText(b.to.value, b.text.value)) else Failure(NeedText)
    ensures Truthy(b.to) && b.messageType == Some("template") ==>
              r == if Truthy(b.templateName)
                   then Success(WhatsApp.SendTemplate(b.to.value, b.templateName.value, b.components, b.languageCode))
                   else Failure(NeedTemplateName)
    ensures Truthy(b.to) && b.messageType == Some("appointment_reminder") ==>
              r == if Truthy(b.patientName) && Truthy(b.date) && Truthy(b.time) && Truthy(b.doctorName)
                   then Success(WhatsApp.AppointmentReminder(b.to.value, b.patientName.value, b.date.value,
                                                             b.time.value, b.doctorName.value))
                   else Failure(NeedReminderParams)
    ensures Truthy(b.to) && b.messageType == Some("appointment_confirmation") ==>
              r == if Truthy(b.patientName) && Truthy(b.date) && Truthy(b.time)
                   then Success(WhatsApp.AppointmentConfirmation(b.to.value, b.patientName.value, b.date.value,
                                                                 b.time.value,
                                                                 if Truthy(b.address) then b.address.value else DefaultAddress))
                   else Failure(NeedConfirmationParams)
    ensures Truthy(b.to) && b.messageType == Some("welcome_lead") ==>
              r == if Truthy(b.name) then Success(WhatsApp.WelcomeLead(b.to.value, b.name.value)) else Failure(NeedLeadName)
    ensures Truthy(b.to) && b.messageType == Some("diagnosis") ==>
              r == if Truthy(b.patientName) && Truthy(b.summary)
                   then Success(WhatsApp.DiagnosisResult(b.to.value, b.patientName.value, b.summary.value))
                   else Failure(NeedDiagnosisParams)
  {
    if !Truthy(b.to) then Failure(MissingRecipient)
    else
      var to := b.to.value;
      if b.messageType == Some("text") then
        if !Truthy(b.text) then Failure(NeedText)
        else Success(WhatsApp.SendText(to, b.text.value))
      else if b.messageType == Some("template") then
        if !Truthy(b.templateName) then Failure(NeedTemplateName)
        else Success(WhatsApp.SendTemplate(to, b.templateName.value, b.components, b.languageCode))
      else if b.messageType == Some("appointment_reminder") then
        if !Truthy(b.patientName) || !Truthy(b.date) || !Truthy(b.time) || !Truthy(b.doctorName) then
          Failure(NeedReminderParams)
        else
          Success(WhatsApp.AppointmentReminder(to, b.patientName.value, b.date.value, b.time.value,
                                               b.doctorName.value))
      else if b.messageType == Some("appointment_confirmation") then
        if !Truthy(b.patientName) || !Truthy(b.date) || !Truthy(b.time) then
          Failure(NeedConfirmationParams)
        else
          Success(WhatsApp.AppointmentConfirmation(to, b.patientName.value, b.date.value, b.time.value,
                                                   OrElse(b.address, Some(DefaultAddress)).value))
      else if b.messageType == Some("welcome_lead") then
        if !Truthy(b.name) then Failure(NeedLeadName)
        else Success(WhatsApp.WelcomeLead(to, b.name.value))
      else if b.messageType == Some("diagnosis") then
        if !Truthy(b.patientName) || !Truthy(b.summary) then Failure(NeedDiagnosisParams)
        else Success(WhatsApp.DiagnosisResult(to, b.patientName.value, b.summary.value))
      else Failure("Tipo de mensaje no soportado: " + TypeText(b.messageType))
  }

  /** A request is sent exactly when it has a recipient, a supported type and every parameter that type requires. */
  lemma {:induction false} RequestNeedsExactlyRequired(b: SendBody)
    ensures Request(b).Success? <==> Truthy(b.to) && RequiredParams(b.messageType).Some?
                                     && HasAll(b, RequiredParams(b.messageType).value)
  {
    var t := b.messageType;
    if t == Some("appointment_reminder") {
      ReminderNeeds(b);
    } else if t == Some("appointment_confirmation") {
      ConfirmationNeeds(b);
    } else if t == Some("diagnosis") {
      DiagnosisNeeds(b);
    } else if t == Some("text") {
      HasAllCons(b, TextParam, []);
    } else if t == Some("template") {
      HasAllCons(b, TemplateName, []);
    } else if t == Some("welcome_lead") {
      HasAllCons(b, LeadName, []);
    }
  }

  lemma {:induction false} ReminderNeeds(b: SendBody)
    requires b.messageType == Some("appointment_reminder")
    ensures Request(b).Success? <==>
              Truthy(b.to) && HasAll(b, [PatientName, Date, Time, DoctorName])
  {
    HasAllFour(b, PatientName, Date, Time, DoctorName);
  }

  lemma {:induction false} ConfirmationNeeds(b: SendBody)
    requires b.messageType == Some("appointment_confirmation")
    ensures Request(b).Success? <==> Truthy(b.to) && HasAll(b, [PatientName, Date, Time])
  {
    HasAllThree(b, PatientName, Date, Time);
  }

  lemma {:induction false} DiagnosisNeeds(b: SendBody)
    requires b.messageType == Some("diagnosis")
    ensures Request(b).Success? <==> Truthy(b.to) && HasAll(b, [PatientName, Summary])
  {
    HasAllTwo(b, PatientName, Summary);
  }

  lemma HasAllTwo(b: SendBody, k1: ParamName, k2: ParamName)
    ensures HasAll(b, [k1, k2]) <==> Truthy(Param(b, k1)) && Truthy(Param(b, k2))
  {
    HasAllCons(b, k1, [k2]);
    HasAllCons(b, k2, []);
  }

  lemma HasAllThree(b: SendBody, k1: ParamName, k2: ParamName, k3: ParamName)
    ensures HasAll(b, [k1, k2, k3]) <==> Truthy(Param(b, k1)) && Truthy(Param(b, k2)) && Truthy(Param(b, k3))
  {
    HasAllCons(b, k1, [k2, k3]);
    HasAllTwo(b, k2, k3);
  }

  lemma HasAllFour(b: SendBody, k1: ParamName, k2: ParamName, k3: ParamName, k4: ParamName)
    ensures HasAll(b, [k1, k2, k3, k4]) <==>
              Truthy(Param(b, k1)) && Truthy(Param(b, k2)) && Truthy(Param(b, k3)) && Truthy(Param(b, k4))
  {
    HasAllCons(b, k1, [k2, k3, k4]);
    HasAllThree(b, k2, k3, k4);
  }

  lemma HasAllCons(b: SendBody, key: ParamName, rest: seq<ParamName>)
    ensures HasAll(b, [key] + rest) <==> Truthy(Param(b, key)) && HasAll(b, rest)
  {
    assert ([key] + rest)[1..] == rest;
  }

  /** A confirmation without an address is sent with the clinic's address as its fourth parameter. */
  lemma ConfirmationAddressDefault(b: SendBody)
    requires b.messageType == Some("appointment_confirmation") && !Truthy(b.address)
    requires Truthy(b.to) && Truthy(b.patientName) && Truthy(b.date) && Truthy(b.time)
    ensures Request(b).Success?
    ensures WhatsApp.TemplateTexts(Request(b).value) == [b.patientName.value, b.date.value, b.time.value, DefaultAddress]
  {
  }

  /**
   * `POST /api/whatsapp/send`. `body` is the parsed JSON or the message of
   * the parse error; `deliver` is the WhatsApp API call, giving the response
   * data or the message of the error it throws.
   */
  function Post(apiKey: Option<string>, env: Env, body: Result<SendBody, string>,
                deliver: WhatsApp.Payload -> Result<string, string>): (r: SendReply)
    ensures r == Unauthorized <==> !Authorized(apiKey, env)
    ensures r.BadRequest? <==> Authorized(apiKey, env) && body.Success? && Request(body.value).Failure?
    ensures r.BadRequest? ==> r.error == Request(body.value).error
    ensures r.Sent? <==> Authorized(apiKey, env) && body.Success? && Request(body.value).Success?
                         && deliver(Request(body.value).value).Success?
    ensures r.Sent? ==> r.data == deliver(Request(body.value).value).value
    ensures r.ServerError? ==>
              Authorized(apiKey, env)
              && (body.Failure? || (Request(body.value).Success? && deliver(Request(body.value).value).Failure?))
    ensures r.ServerError? && body.Failure? ==> r.message == body.error
    ensures r.ServerError? && body.Success? ==> r.message == deliver(Request(body.value).value).error
  {
    if !Authorized(apiKey, env) then Unauthorized
    else if body.Failure? then ServerError(body.error)
    else
      match Request(body.value)
      case Failure(e) => BadRequest(e)
      case Success(p) =>
        match deliver(p)
        case Success(data) => Sent(data)
        case Failure(e) => ServerError(e)
  }

  /** In production with no internal key configured, no request gets past the gate. */
  lemma UnsetKeyRefusesInProduction(apiKey: Option<string>, env: Env, body: Result<SendBody, string>,
                                    deliver: WhatsApp.Payload -> Result<string, string>)
    requires IsProduction(env) && env.internalApiKey.None?
    ensures Post(apiKey, env, body, deliver) == Unauthorized
  {
  }

  /** Outside production the key is not checked at all. */
  lemma NoGateOutsideProduction(apiKey: Option<string>, env: Env, body: Result<SendBody, string>,
                                deliver: WhatsApp.Payload -> Result<string, string>)
    requires !IsProduction(env)
    ensures Post(apiKey, env, body, deliver) != Unauthorized
  {
  }
}
