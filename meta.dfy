/**
 * The pure part of src/lib/meta-client.ts: the phone normaliser, the user-data hashing of
 * the Conversions API, the event bodies the tracking helpers send, and the reading of Lead Ads
 * answers.  SHA-256 is a parameter; the HTTP calls are not modelled.
 */
module Meta {
  import opened Wrappers
  import opened Strings
  import opened Config
  import WhatsApp

  /** The characters `normalizePhone` drops: whitespace, `-`, `(`, `)` and every `+`. */
  predicate IsPhoneNoise(c: char) {
    WhatsApp.IsPhoneSeparator(c) || c == '+'
  }

  /** `phone.replace(/[\s\-\(\)\+]/g, "")`. */
  function RemovePhoneNoise(s: string): (r: string)
    ensures forall c :: c in r ==> c in s && !IsPhoneNoise(c)
  {
    if s == [] then [] else (if IsPhoneNoise(s[0]) then [] else [s[0]]) + RemovePhoneNoise(s[1..])
  }

  /** `normalizePhone(phone)`: the noise removed, then `56` in front of a local mobile number. */
  function NormalizePhone(phone: string): (r: string)
    ensures forall c :: c in r ==> !IsPhoneNoise(c)
  {
    var cleaned := RemovePhoneNoise(phone);
    assert forall c :: c in "56" + cleaned ==> c == '5' || c == '6' || c in cleaned;
    WhatsApp.WithCountryCode(cleaned)
  }

  /** Without a `+`, the noise is just the separators. */
  lemma {:induction false} NoiseIsSeparators(s: string)
    requires '+' !in s
    ensures RemovePhoneNoise(s) == WhatsApp.RemoveSeparators(s)
  {
    if s != [] {
      assert s[0] in s;
      assert forall c :: c in s[1..] ==> c in s;
      NoiseIsSeparators(s[1..]);
    }
  }

  /** The two clients' normalisers agree on every phone whose only `+` is its first character. */
  lemma NormalizersAgree(phone: string)
    requires '+' !in phone || (phone[0] == '+' && '+' !in phone[1..])
    ensures NormalizePhone(phone) == WhatsApp.FormatPhoneNumber(phone)
  {
    var cleaned := WhatsApp.RemoveSeparators(phone);
    if '+' in phone {
      var t := phone[1..];
      assert phone == [phone[0]] + t;
      NoiseIsSeparators(t);
      assert RemovePhoneNoise(phone) == RemovePhoneNoise(t);
      assert cleaned == ['+'] + WhatsApp.RemoveSeparators(t);
      assert StartsWith(cleaned, "+") && cleaned[1..] == WhatsApp.RemoveSeparators(t);
    } else {
      NoiseIsSeparators(phone);
      assert '+' !in cleaned;
      assert !StartsWith(cleaned, "+") by {
        if cleaned != [] { assert cleaned[0] in cleaned; }
      }
    }
  }

  /** They part ways on a doubled `+`: the WhatsApp client keeps one, the normaliser none. */
  lemma NormalizersDisagreeOnDoublePlus(d: string)
    requires d != [] && forall c :: c in d ==> !IsPhoneNoise(c)
    ensures WhatsApp.FormatPhoneNumber("++" + d) == "+" + d
    ensures NormalizePhone("++" + d) == WhatsApp.WithCountryCode(d)
    ensures NormalizePhone("++" + d) != WhatsApp.FormatPhoneNumber("++" + d)
  {
    WhatsApp.OnlyOnePlusDropped(d);
    var s := "++" + d;
    assert s[1..] == "+" + d && ("+" + d)[1..] == d;
    NoiseIsSeparators(d);
    WhatsApp.RemoveSeparatorsIdentity(d);
    assert RemovePhoneNoise(s) == RemovePhoneNoise(("+" + d)[1..]);
    var w := WhatsApp.WithCountryCode(d);
    assert w == d || w[0] == '5';
    assert '+' !in d;
  }

  /** The customer fields of a conversion event; absent fields are `None`. */
  datatype UserData = UserData(
    email: Option<string>, phone: Option<string>, firstName: Option<string>, lastName: Option<string>,
    city: Option<string>, state: Option<string>, country: Option<string>, zipCode: Option<string>,
    externalId: Option<string>, clientIpAddress: Option<string>, clientUserAgent: Option<string>,
    fbc: Option<string>, fbp: Option<string>)

  /** `value.toLowerCase().trim()`. */
  function Canonical(v: string): string {
    Trim(ToLower(v))
  }

  /** The keys of the hashed record. */
  datatype Key = Em | Ph | Fn | Ln | Ct | St | Country | Zp | ExternalId
               | ClientIpAddress | ClientUserAgent | Fbc | Fbp

  /** The name a key has in the JSON body. */
  function KeyName(k: Key): string {
    match k
    case Em => "em" case Ph => "ph" case Fn => "fn" case Ln => "ln" case Ct => "ct"
    case St => "st" case Country => "country" case Zp => "zp" case ExternalId => "external_id"
    case ClientIpAddress => "client_ip_address" case ClientUserAgent => "client_user_agent"
    case Fbc => "fbc" case Fbp => "fbp"
  }

  /** The field of the customer record behind a key. */
  function FieldOf(u: UserData, k: Key): Option<string> {
    match k
    case Em => u.email case Ph => u.phone case Fn => u.firstName case Ln => u.lastName
    case Ct => u.city case St => u.state case Country => u.country case Zp => u.zipCode
    case ExternalId => u.externalId case ClientIpAddress => u.clientIpAddress
    case ClientUserAgent => u.clientUserAgent case Fbc => u.fbc case Fbp => u.fbp
  }

  /** How the value of a key is written: normalised then hashed, hashed raw, or copied. */
  function FieldHash(sha256: string -> string, k: Key, v: string): string {
    match k
    case Em => sha256(Canonical(v)) case Fn => sha256(Canonical(v)) case Ln => sha256(Canonical(v))
    case St => sha256(Canonical(v)) case Country => sha256(Canonical(v))
    case Ph => sha256(NormalizePhone(v))
    case Ct => sha256(RemoveSpaces(Canonical(v)))
    case Zp => sha256(Trim(v))
    case ExternalId => sha256(v)
    case ClientIpAddress => v case ClientUserAgent => v case Fbc => v case Fbp => v
  }

  /** Every key of the record. */
  const AllKeys: set<Key> := {Em, Ph, Fn, Ln, Ct, St, Country, Zp, ExternalId,
                              ClientIpAddress, ClientUserAgent, Fbc, Fbp}

  /** The record `hashUserData` builds: a JSON object holding only the members it sets. */
  type HashedRecord = map<Key, string>

  /** The member of the record under a key; `None` when it was not set. */
  function Get(h: HashedRecord, k: Key): Option<string> {
    if k in h then Some(h[k]) else None
  }

  /** `hashUserData(userData)`: every key gets the value of its field, when the field is present
      and non-empty, and is left out otherwise. */
  function HashUserData(u: UserData, sha256: string -> string): HashedRecord
  {
    map k | k in AllKeys && Truthy(FieldOf(u, k)) :: FieldHash(sha256, k, FieldOf(u, k).value)
  }

  /** The wire names of the keys are distinct, so the record has one JSON member per key. */
  lemma KeyNamesDistinct(a: Key, b: Key)
    requires a != b
    ensures KeyName(a) != KeyName(b)
  {
    var na, nb := KeyName(a), KeyName(b);
    if |na| == |nb| {
      assert na[0] != nb[0] || na[1] != nb[1] || na[|na| - 1] != nb[|nb| - 1];
    }
  }

  /** A key is in the record exactly when its field is present and non-empty. */
  lemma HashedKeysPresent(u: UserData, sha256: string -> string, k: Key)
    ensures Get(HashUserData(u, sha256), k).Some? <==> Truthy(FieldOf(u, k))
    ensures Get(HashUserData(u, sha256), k).Some? ==>
              Get(HashUserData(u, sha256), k).value == FieldHash(sha256, k, FieldOf(u, k).value)
  {
    assert k in AllKeys by { match k case _ => }
  }

  /** The technical fields go out unhashed. */
  lemma TechnicalFieldsCopied(u: UserData, sha256: string -> string)
    ensures var h := HashUserData(u, sha256);
            (Truthy(u.clientIpAddress) ==> Get(h, ClientIpAddress) == u.clientIpAddress)
            && (Truthy(u.clientUserAgent) ==> Get(h, ClientUserAgent) == u.clientUserAgent)
            && (Truthy(u.fbc) ==> Get(h, Fbc) == u.fbc) && (Truthy(u.fbp) ==> Get(h, Fbp) == u.fbp)
  {
  }

  /** The email is hashed lower-cased and trimmed. */
  lemma EmailHashed(u: UserData, sha256: string -> string)
    requires Truthy(u.email)
    ensures Get(HashUserData(u, sha256), Em) == Some(sha256(Canonical(u.email.value)))
  {
    assert Em in AllKeys && FieldOf(u, Em) == u.email;
    assert HashUserData(u, sha256)[Em] == FieldHash(sha256, Em, u.email.value);
  }

  /** The first name is hashed lower-cased and trimmed. */
  lemma FirstNameHashed(u: UserData, sha256: string -> string)
    requires Truthy(u.firstName)
    ensures Get(HashUserData(u, sha256), Fn) == Some(sha256(Canonical(u.firstName.value)))
  {
    assert Fn in AllKeys && FieldOf(u, Fn) == u.firstName;
    assert HashUserData(u, sha256)[Fn] == FieldHash(sha256, Fn, u.firstName.value);
  }

  /** The last name is hashed lower-cased and trimmed. */
  lemma LastNameHashed(u: UserData, sha256: string -> string)
    requires Truthy(u.lastName)
    ensures Get(HashUserData(u, sha256), Ln) == Some(sha256(Canonical(u.lastName.value)))
  {
    assert Ln in AllKeys && FieldOf(u, Ln) == u.lastName;
    assert HashUserData(u, sha256)[Ln] == FieldHash(sha256, Ln, u.lastName.value);
  }

  /** The phone is hashed in its normalised form. */
  lemma PhoneHashed(u: UserData, sha256: string -> string)
    requires Truthy(u.phone)
    ensures Get(HashUserData(u, sha256), Ph) == Some(sha256(NormalizePhone(u.phone.value)))
  {
    assert Ph in AllKeys && FieldOf(u, Ph) == u.phone;
    assert HashUserData(u, sha256)[Ph] == FieldHash(sha256, Ph, u.phone.value);
  }

  /** The city is hashed lower-cased, trimmed and without any whitespace inside. */
  lemma CityHashed(u: UserData, sha256: string -> string)
    requires Truthy(u.city)
    ensures Get(HashUserData(u, sha256), Ct) == Some(sha256(RemoveSpaces(Canonical(u.city.value))))
  {
    assert Ct in AllKeys && FieldOf(u, Ct) == u.city;
    assert HashUserData(u, sha256)[Ct] == FieldHash(sha256, Ct, u.city.value);
  }

  /** The state is hashed lower-cased and trimmed. */
  lemma StateHashed(u: UserData, sha256: string -> string)
    requires Truthy(u.state)
    ensures Get(HashUserData(u, sha256), St) == Some(sha256(Canonical(u.state.value)))
  {
    assert St in AllKeys && FieldOf(u, St) == u.state;
    assert HashUserData(u, sha256)[St] == FieldHash(sha256, St, u.state.value);
  }

  /** The country is hashed lower-cased and trimmed. */
  lemma CountryHashed(u: UserData, sha256: string -> string)
    requires Truthy(u.country)
    ensures Get(HashUserData(u, sha256), Country) == Some(sha256(Canonical(u.country.value)))
  {
    assert Country in AllKeys && FieldOf(u, Country) == u.country;
    assert HashUserData(u, sha256)[Country] == FieldHash(sha256, Country, u.country.value);
  }

  /** The zip code is only trimmed before hashing, its case kept. */
  lemma ZipCodeHashed(u: UserData, sha256: string -> string)
    requires Truthy(u.zipCode)
    ensures Get(HashUserData(u, sha256), Zp) == Some(sha256(Trim(u.zipCode.value)))
  {
    assert Zp in AllKeys && FieldOf(u, Zp) == u.zipCode;
    assert HashUserData(u, sha256)[Zp] == FieldHash(sha256, Zp, u.zipCode.value);
  }

  /** The external id is hashed as it is. */
  lemma ExternalIdHashed(u: UserData, sha256: string -> string)
    requires Truthy(u.externalId)
    ensures Get(HashUserData(u, sha256), ExternalId) == Some(sha256(u.externalId.value))
  {
    assert ExternalId in AllKeys && FieldOf(u, ExternalId) == u.externalId;
    assert HashUserData(u, sha256)[ExternalId] == FieldHash(sha256, ExternalId, u.externalId.value);
  }

  /** Emails that differ only in case and surrounding spaces are sent as the same hash. */
  lemma EmailHashIgnoresCase(u1: UserData, u2: UserData, sha256: string -> string)
    requires Truthy(u1.email) && Truthy(u2.email)
    requires Canonical(u1.email.value) == Canonical(u2.email.value)
    ensures Get(HashUserData(u1, sha256), Em) == Get(HashUserData(u2, sha256), Em)
  {
    EmailHashed(u1, sha256);
    EmailHashed(u2, sha256);
  }

  /** A value of the free-form `custom_data` record: a text or an amount. */
  datatype Datum = Text(text: string) | Amount(amount: int)

  /** A conversion event as the helpers build it; absent optional fields are `None`. */
  datatype ConversionEvent = ConversionEvent(
    eventName: string, eventTime: Option<int>, userData: UserData, customData: Option<map<string, Datum>>,
    eventSourceUrl: Option<string>, actionSource: Option<string>)

  /** The one entry of the `data` array sent to the pixel. */
  datatype EventPayload = EventPayload(
    eventName: string, eventTime: int, actionSource: string, eventSourceUrl: Option<string>,
    userData: HashedRecord, customData: Option<map<string, Datum>>)

  const DefaultActionSource: string := "website"

  /** `event.eventTime || Math.floor(Date.now() / 1000)`: a missing or zero time is the current
      second, `nowMs` being the clock in milliseconds. */
  function EventTime(eventTime: Option<int>, nowMs: int): (t: int)
    ensures eventTime.Some? && eventTime.value != 0 ==> t == eventTime.value
    ensures eventTime.None? || eventTime.value == 0 ==> t * 1000 <= nowMs < t * 1000 + 1000
  {
    if eventTime.Some? && eventTime.value != 0 then eventTime.value else nowMs / 1000
  }

  /** The body `sendConversionEvent(event)` posts, with the clock as a parameter. */
  function ConversionPayload(event: ConversionEvent, nowMs: int, sha256: string -> string): (p: EventPayload)
    ensures p.eventName == event.eventName && p.customData == event.customData
    ensures p.eventSourceUrl == event.eventSourceUrl
    ensures p.eventTime == EventTime(event.eventTime, nowMs)
    ensures !Truthy(event.actionSource) ==> p.actionSource == DefaultActionSource
    ensures Truthy(event.actionSource) ==> p.actionSource == event.actionSource.value
    ensures p.userData == HashUserData(event.userData, sha256)
  {
    EventPayload(event.eventName, EventTime(event.eventTime, nowMs), OrElse(event.actionSource, Some(DefaultActionSource)).value,
                 event.eventSourceUrl, HashUserData(event.userData, sha256), event.customData)
  }

  /** An event of one of the helpers: no time, no source and no action source of its own. */
  function HelperEvent(name: string, u: UserData, custom: map<string, Datum>, sourceUrl: Option<string>)
    : ConversionEvent
  {
    ConversionEvent(name, None, u, Some(custom), sourceUrl, None)
  }

  /** `trackLead(userData, customData)`: the two fixed entries, overridden by the caller's. */
  function TrackLead(u: UserData, custom: Option<map<string, Datum>>): (e: ConversionEvent)
    ensures e.eventName == "Lead" && e.customData.Some?
    ensures custom.Some? ==> forall k :: k in custom.value ==> k in e.customData.value && e.customData.value[k] == custom.value[k]
    ensures "content_category" in e.customData.value
    ensures (custom.None? || "content_category" !in custom.value) ==> e.customData.value["content_category"] == Text("dental")
  {
    var base := map["content_name" := Text("Formulario de contacto"), "content_category" := Text("dental")];
    HelperEvent("Lead", u, base + custom.GetOr(map[]), None)
  }

  /** `trackSchedule(userData, {date, service, value})`: category `consulta` and value 0 when
      missing or falsy, in pesos. */
  function TrackSchedule(u: UserData, date: string, service: Option<string>, value: Option<int>): (e: ConversionEvent)
    ensures e.eventName == "Schedule" && e.customData.Some?
    ensures var d := e.customData.value;
            d.Keys == {"content_name", "content_category", "value", "currency", "appointment_date"}
            && d["content_category"] == Text(if Truthy(service) then service.value else "consulta")
            && d["value"] == Amount(if value.Some? && value.value != 0 then value.value else 0)
            && d["currency"] == Text("CLP") && d["appointment_date"] == Text(date)
  {
    var custom := map["content_name" := Text("Cita agendada"),
                      "content_category" := Text(OrElse(service, Some("consulta")).value),
                      "value" := Amount(if value.Some? then value.value else 0),
                      "currency" := Text("CLP"),
                      "appointment_date" := Text(date)];
    HelperEvent("Schedule", u, custom, None)
  }

  /** `trackInitiateCheckout(userData, service)`: category `diagnostico` when missing. */
  function TrackInitiateCheckout(u: UserData, service: Option<string>): (e: ConversionEvent)
    ensures e.eventName == "InitiateCheckout" && e.customData.Some?
    ensures e.customData.value.Keys == {"content_name", "content_category"}
    ensures e.customData.value["content_category"] == Text(if Truthy(service) then service.value else "diagnostico")
  {
    HelperEvent("InitiateCheckout", u,
                map["content_name" := Text("Diagnóstico IA iniciado"),
                    "content_category" := Text(OrElse(service, Some("diagnostico")).value)], None)
  }

  /** `trackPurchase(userData, {value, currency, service})`: currency `CLP` when missing. */
  function TrackPurchase(u: UserData, value: int, currency: Option<string>, service: string): (e: ConversionEvent)
    ensures e.eventName == "Purchase" && e.customData.Some?
    ensures e.customData.value.Keys == {"content_name", "content_category", "value", "currency"}
    ensures var d := e.customData.value;
            d["content_name"] == Text(service) && d["value"] == Amount(value)
            && d["currency"] == Text(if Truthy(currency) then currency.value else "CLP")
  {
    HelperEvent("Purchase", u,
                map["content_name" := Text(service), "content_category" := Text("tratamiento_dental"),
                    "value" := Amount(value), "currency" := Text(OrElse(currency, Some("CLP")).value)], None)
  }

  /** `trackContact(userData, method = "whatsapp")`; `None` is an omitted method. */
  function TrackContact(u: UserData, contactMethod: Option<string>): (e: ConversionEvent)
    ensures e.eventName == "Contact" && e.customData == Some(map["contact_method" := Text(contactMethod.GetOr("whatsapp"))])
  {
    HelperEvent("Contact", u, map["contact_method" := Text(contactMethod.GetOr("whatsapp"))], None)
  }

  /** `trackPageView(userData, pageUrl, pageTitle)`: the page is the event's source; an absent
      title is left out of the body. */
  function TrackPageView(u: UserData, pageUrl: string, pageTitle: Option<string>): (e: ConversionEvent)
    ensures e.eventName == "PageView" && e.eventSourceUrl == Some(pageUrl) && e.customData.Some?
    ensures pageTitle.Some? <==> "page_title" in e.customData.value
  {
    HelperEvent("PageView", u, if pageTitle.Some? then map["page_title" := Text(pageTitle.value)] else map[],
                Some(pageUrl))
  }

  /** A form answer of a lead. */
  datatype Field = Field(name: string, values: seq<string>)

  /** A lead as the Graph API returns it; absent members are `None`. */
  datatype RawLead = RawLead(
    id: Option<string>, createdTime: Option<string>, formId: Option<string>, adId: Option<string>,
    adName: Option<string>, campaignId: Option<string>, campaignName: Option<string>,
    fieldData: Option<seq<Field>>)

  datatype LeadData = LeadData(
    id: Option<string>, createdTime: Option<string>, formId: string, adId: Option<string>,
    adName: Option<string>, campaignId: Option<string>, campaignName: Option<string>, fields: seq<Field>)

  /** `parseLead(lead, formId)`: the lead's own form id, else the one asked for, else `""`; no
      field data is no fields. */
  function ParseLead(lead: RawLead, formId: Option<string>): (r: LeadData)
    ensures Truthy(lead.formId) ==> r.formId == lead.formId.value
    ensures !Truthy(lead.formId) && Truthy(formId) ==> r.formId == formId.value
    ensures !Truthy(lead.formId) && !Truthy(formId) ==> r.formId == ""
    ensures r.fields == lead.fieldData.GetOr([])
    ensures r.id == lead.id && r.createdTime == lead.createdTime && r.adId == lead.adId
    ensures r.adName == lead.adName && r.campaignId == lead.campaignId && r.campaignName == lead.campaignName
  {
    LeadData(lead.id, lead.createdTime, OrElse(lead.formId, OrElse(formId, Some(""))).value,
             lead.adId, lead.adName, lead.campaignId, lead.campaignName, lead.fieldData.GetOr([]))
  }

  /** `parseLeads(rawLeads, formId)`: every lead read with the form id asked for. */
  function ParseLeads(raw: seq<RawLead>, formId: string): (r: seq<LeadData>)
    ensures |r| == |raw| && forall i :: 0 <= i < |raw| ==> r[i] == ParseLead(raw[i], Some(formId))
  {
    if raw == [] then [] else [ParseLead(raw[0], Some(formId))] + ParseLeads(raw[1..], formId)
  }

  /** The position of the first field whose name equals `name` ignoring case. */
  function FindField(fields: seq<Field>, name: string): (r: Option<nat>)
    ensures r.Some? ==> r.value < |fields| && ToLower(fields[r.value].name) == ToLower(name)
    ensures r.Some? ==> forall j :: 0 <= j < r.value ==> ToLower(fields[j].name) != ToLower(name)
    ensures r.None? ==> forall j :: 0 <= j < |fields| ==> ToLower(fields[j].name) != ToLower(name)
  {
    if fields == [] then None
    else if ToLower(fields[0].name) == ToLower(name) then Some(0)
    else
      match FindField(fields[1..], name)
      case None => None
      case Some(k) => Some(k + 1)
  }

  /** `extractLeadField(lead, fieldName)`: the first value of the first field of that name,
      ignoring case, or nothing when there is no such field or its first value is missing or
      empty. */
  function ExtractLeadField(lead: LeadData, fieldName: string): (r: Option<string>)
    ensures r.Some? <==> exists i :: 0 <= i < |lead.fields| && FindField(lead.fields, fieldName) == Some(i)
                                     && |lead.fields[i].values| > 0 && lead.fields[i].values[0] != ""
    ensures r.Some? ==> r.value != "" && var i := FindField(lead.fields, fieldName).value;
                        r.value == lead.fields[i].values[0]
  {
    match FindField(lead.fields, fieldName)
    case None => None
    case Some(i) =>
      var values := lead.fields[i].values;
      if |values| > 0 && values[0] != "" then Some(values[0]) else None
  }

  /** A field is found whatever the case of the name asked for. */
  lemma ExtractIgnoresCase(lead: LeadData, n1: string, n2: string)
    requires ToLower(n1) == ToLower(n2)
    ensures ExtractLeadField(lead, n1) == ExtractLeadField(lead, n2)
  {
    FindFieldIgnoresCase(lead.fields, n1, n2);
  }

  lemma {:induction false} FindFieldIgnoresCase(fields: seq<Field>, n1: string, n2: string)
    requires ToLower(n1) == ToLower(n2)
    ensures FindField(fields, n1) == FindField(fields, n2)
  {
    if fields != [] {
      FindFieldIgnoresCase(fields[1..], n1, n2);
    }
  }

  datatype LeadContact = LeadContact(email: Option<string>, phone: Option<string>, fullName: Option<string>,
                                     firstName: Option<string>, lastName: Option<string>)

  /** `extractLeadData(lead)`. */
  function ExtractLeadData(lead: LeadData): (r: LeadContact)
    ensures r.email == ExtractLeadField(lead, "email")
    ensures ExtractLeadField(lead, "phone_number").Some? ==> r.phone == ExtractLeadField(lead, "phone_number")
    ensures ExtractLeadField(lead, "phone_number").None? ==> r.phone == ExtractLeadField(lead, "phone")
    ensures r.fullName == ExtractLeadField(lead, "full_name")
    ensures r.firstName == ExtractLeadField(lead, "first_name")
    ensures r.lastName == ExtractLeadField(lead, "last_name")
  {
    LeadContact(ExtractLeadField(lead, "email"),
                OrElse(ExtractLeadField(lead, "phone_number"), ExtractLeadField(lead, "phone")),
                ExtractLeadField(lead, "full_name"), ExtractLeadField(lead, "first_name"),
                ExtractLeadField(lead, "last_name"))
  }
}
