/**
 * The endpoint that forwards a conversion event to the Meta pixel: it checks
 * the event type, fills the client's address and browser from the request
 * headers when the caller did not give them, and dispatches on the event
 * type to the matching Meta client helper, or sends any other type as a
 * custom event of that name.
 */
module MetaConversions {
  import opened Wrappers
  import opened Config
  import Meta

  /** `customData` as it arrives: a JSON object. */
  type CustomData = map<string, Meta.Datum>

  /** A text field of `customData`; a missing field or one that is not a string is `None`. */
  function TextField(custom: Option<CustomData>, key: string): Option<string> {
    if custom.Some? && key in custom.value && custom.value[key].Text? then Some(custom.value[key].text)
    else None
  }

  /** A numeric field of `customData`; a missing field or one that is not a number is `None`. */
  function AmountField(custom: Option<CustomData>, key: string): Option<int> {
    if custom.Some? && key in custom.value && custom.value[key].Amount? then Some(custom.value[key].amount)
    else None
  }

  /** The JSON body; `userData` is `None` when the body has none. */
  datatype ConversionsBody = ConversionsBody(
    eventType: Option<string>,
    userData: Option<Meta.UserData>,
    customData: Option<CustomData>,
    eventSourceUrl: Option<string>)

  /** The request headers the route reads. */
  datatype Headers = Headers(forwardedFor: Option<string>, realIp: Option<string>, userAgent: Option<string>)

  /** Why the route answered 500. */
  datatype Cause =
    | Unparsable(message: string)    // `request.json()` threw
    | NoUserData                     // reading `userData.clientIpAddress` threw
    | Rejected(message: string)      // the Meta client threw

  datatype ConversionsReply =
    | BadRequest(error: string)      // 400 {error}
    | Tracked(data: string)          // 200 {success: true, data}
    | ServerError(cause: Cause)      // 500 {error}

  function ReplyStatus(r: ConversionsReply): nat {
    match r
    case BadRequest(_) => 400
    case Tracked(_) => 200
    case ServerError(_) => 500
  }

  const MissingEventType := "Se requiere eventType"
  const MissingDate := "Se requiere customData.date para evento schedule"
  const MissingPurchase := "Se requiere customData.value y customData.service para purchase"

  /**
   * `enrichedUserData`: the caller's fields, with the client address falling
   * back to x-forwarded-for and then x-real-ip, and the browser to user-agent.
   */
  function Enrich(u: Meta.UserData, h: Headers): (e: Meta.UserData)
    ensures Truthy(u.clientIpAddress) ==> e.clientIpAddress == u.clientIpAddress
    ensures !Truthy(u.clientIpAddress) && Truthy(h.forwardedFor) ==> e.clientIpAddress == h.forwardedFor
    ensures !Truthy(u.clientIpAddress) && !Truthy(h.forwardedFor) ==> e.clientIpAddress == h.realIp
    ensures Truthy(u.clientUserAgent) ==> e.clientUserAgent == u.clientUserAgent
    ensures !Truthy(u.clientUserAgent) ==> e.clientUserAgent == h.userAgent
    ensures e.(clientIpAddress := u.clientIpAddress, clientUserAgent := u.clientUserAgent) == u
  {
    u.(clientIpAddress := OrElse(OrElse(u.clientIpAddress, h.forwardedFor), h.realIp),
       clientUserAgent := OrElse(u.clientUserAgent, h.userAgent))
  }

  /** A number is truthy when it is present and not zero. */
  predicate TruthyAmount(n: Option<int>) {
    n.Some? && n.value != 0
  }

  /**
   * The switch on `eventType`: the event the chosen helper sends, or the 400
   * message when its `customData` lacks what it needs.
   */
  function Dispatch(eventType: string, u: Meta.UserData, custom: Option<CustomData>,
                    eventSourceUrl: Option<string>): (r: Result<Meta.ConversionEvent, string>)
    ensures r.Failure? <==>
              (eventType == "schedule" && !Truthy(TextField(custom, "date")))
              || (eventType == "purchase"
                  && (!TruthyAmount(AmountField(custom, "value")) || !Truthy(TextField(custom, "service"))))
    ensures r.Failure? ==> r.error == (if eventType == "schedule" then MissingDate else MissingPurchase)
    ensures r.Success? ==> r.value.userData == u
    ensures eventType == "lead" ==> r == Success(Meta.TrackLead(u, custom))
    ensures eventType == "schedule" && r.Success? ==>
              r.value == Meta.TrackSchedule(u, TextField(custom, "date").value, TextField(custom, "service"),
                                            AmountField(custom, "value"))
    ensures eventType == "purchase" && r.Success? ==>
              r.value == Meta.TrackPurchase(u, AmountField(custom, "value").value, TextField(custom, "currency"),
                                            TextField(custom, "service").value)
    ensures eventType == "contact" ==>
              r == Success(Meta.TrackContact(u, Some(if Truthy(TextField(custom, "method"))
                                                     then TextField(custom, "method").value else "website")))
    ensures eventType == "pageview" ==>
              r == Success(Meta.TrackPageView(u, OrElse(OrElse(eventSourceUrl, TextField(custom, "pageUrl")), Some("")).value,
                                              TextField(custom, "pageTitle")))
    ensures eventType == "initiate_checkout" ==> r == Success(Meta.TrackInitiateCheckout(u, TextField(custom, "service")))
    ensures KnownEventName(eventType).None? ==>
              r == Success(Meta.ConversionEvent(eventType, None, u, custom, eventSourceUrl, None))
  {
    if eventType == "lead" then Success(Meta.TrackLead(u, custom))
    else if eventType == "schedule" then
      if !Truthy(TextField(custom, "date")) then Failure(MissingDate)
      else Success(Meta.TrackSchedule(u, TextField(custom, "date").value, TextField(custom, "service"),
                                      AmountField(custom, "value")))
    else if eventType == "purchase" then
      if !TruthyAmount(AmountField(custom, "value")) || !Truthy(TextField(custom, "service")) then
        Failure(MissingPurchase)
      else Success(Meta.TrackPurchase(u, AmountField(custom, "value").value, TextField(custom, "currency"),
                                      TextField(custom, "service").value))
    else if eventType == "contact" then
      Success(Meta.TrackContact(u, Some(OrElse(TextField(custom, "method"), Some("website")).value)))
    else if eventType == "pageview" then
      Success(Meta.TrackPageView(u, OrElse(OrElse(eventSourceUrl, TextField(custom, "pageUrl")), Some("")).value,
                                 TextField(custom, "pageTitle")))
    else if eventType == "initiate_checkout" then
      Success(Meta.TrackInitiateCheckout(u, TextField(custom, "service")))
    else Success(Meta.ConversionEvent(eventType, None, u, custom, eventSourceUrl, None))
  }

  /** The event names the six known types are sent under. */
  function KnownEventName(eventType: string): Option<string> {
    if eventType == "lead" then Some("Lead")
    else if eventType == "schedule" then Some("Schedule")
    else if eventType == "purchase" then Some("Purchase")
    else if eventType == "contact" then Some("Contact")
    else if eventType == "pageview" then Some("PageView")
    else if eventType == "initiate_checkout" then Some("InitiateCheckout")
    else None
  }

  /**
   * A known type is sent under its pixel event name; any other type is sent
   * as a custom event named by the type itself, with the caller's
   * `customData` and source URL untouched.
   */
  lemma {:induction false} EventNamed(eventType: string, u: Meta.UserData, custom: Option<CustomData>,
                                      eventSourceUrl: Option<string>)
    requires Dispatch(eventType, u, custom, eventSourceUrl).Success?
    ensures var e := Dispatch(eventType, u, custom, eventSourceUrl).value;
      && (KnownEventName(eventType).Some? ==> e.eventName == KnownEventName(eventType).value)
      && (KnownEventName(eventType).None? ==>
            e == Meta.ConversionEvent(eventType, None, u, custom, eventSourceUrl, None))
  {
  }

  /** A contact event without a method is recorded as coming from the website, not WhatsApp. */
  lemma ContactDefaultsToWebsite(u: Meta.UserData, custom: Option<CustomData>, eventSourceUrl: Option<string>)
    requires !Truthy(TextField(custom, "method"))
    ensures Dispatch("contact", u, custom, eventSourceUrl).Success?
    ensures Dispatch("contact", u, custom, eventSourceUrl).value.customData
            == Some(map["contact_method" := Meta.Text("website")])
  {
  }

  /** A page view is sourced from `eventSourceUrl`, else `customData.pageUrl`, else the empty URL. */
  lemma PageViewSource(u: Meta.UserData, custom: Option<CustomData>, eventSourceUrl: Option<string>)
    ensures var e := Dispatch("pageview", u, custom, eventSourceUrl).value;
      && (Truthy(eventSourceUrl) ==> e.eventSourceUrl == eventSourceUrl)
      && (!Truthy(eventSourceUrl) && Truthy(TextField(custom, "pageUrl")) ==>
            e.eventSourceUrl == TextField(custom, "pageUrl"))
      && (!Truthy(eventSourceUrl) && !Truthy(TextField(custom, "pageUrl")) ==>
            e.eventSourceUrl == Some(""))
  {
  }

  /**
   * `POST /api/meta/conversions`. `body` is the parsed JSON or the message of
   * the parse error; `send` is the Meta client's call, giving the response
   * data or the message of the error it throws.
   */
  function Post(body: Result<ConversionsBody, string>, h: Headers,
                send: Meta.ConversionEvent -> Result<string, string>): (r: ConversionsReply)
    ensures body.Failure? ==> r == ServerError(Unparsable(body.error))
    ensures body.Success? && !Truthy(body.value.eventType) ==> r == BadRequest(MissingEventType)
    ensures body.Success? && Truthy(body.value.eventType) && body.value.userData.None? ==> r == ServerError(NoUserData)
    ensures r.Tracked? <==>
              body.Success? && Truthy(body.value.eventType) && body.value.userData.Some?
              && var b := body.value;
                 var d := Dispatch(b.eventType.value, Enrich(b.userData.value, h), b.customData, b.eventSourceUrl);
                 d.Success? && send(d.value).Success?
    ensures r.Tracked? ==>
              var b := body.value;
              var d := Dispatch(b.eventType.value, Enrich(b.userData.value, h), b.customData, b.eventSourceUrl);
              r.data == send(d.value).value && d.value.userData == Enrich(b.userData.value, h)
    ensures body.Success? && Truthy(body.value.eventType) && body.value.userData.Some? ==>
              var b := body.value;
              var d := Dispatch(b.eventType.value, Enrich(b.userData.value, h), b.customData, b.eventSourceUrl);
              && (d.Failure? ==> r == BadRequest(d.error))
              && (d.Success? && send(d.value).Failure? ==> r == ServerError(Rejected(send(d.value).error)))
  {
    if body.Failure? then ServerError(Unparsable(body.error))
    else
      var b := body.value;
      if !Truthy(b.eventType) then BadRequest(MissingEventType)
      else if b.userData.None? then ServerError(NoUserData)
      else
        match Dispatch(b.eventType.value, Enrich(b.userData.value, h), b.customData, b.eventSourceUrl)
        case Failure(e) => BadRequest(e)
        case Success(event) =>
          match send(event)
          case Success(data) => Tracked(data)
          case Failure(e) => ServerError(Rejected(e))
  }
}
