/**
 * The pure part of src/lib/whatsapp-client.ts: the recipient formatter, the request body sent
 * to the Cloud API's `messages` endpoint, and the message helpers, as the body each one sends.
 * The HTTP call itself is not modelled.
 */
module WhatsApp {
  import opened Wrappers
  import opened Strings

  /** The characters the formatter drops: whitespace, `-`, `(` and `)`. */
  predicate IsPhoneSeparator(c: char) {
    IsSpace(c) || c == '-' || c == '(' || c == ')'
  }

  /** `phone.replace(/[\s\-\(\)]/g, "")`. */
  function RemoveSeparators(s: string): (r: string)
    ensures |r| <= |s|
    ensures forall c :: c in r ==> c in s && !IsPhoneSeparator(c)
  {
    if s == [] then [] else (if IsPhoneSeparator(s[0]) then [] else [s[0]]) + RemoveSeparators(s[1..])
  }

  /** Removing separators distributes over concatenation. */
  lemma {:induction false} RemoveSeparatorsAppend(a: string, b: string)
    ensures RemoveSeparators(a + b) == RemoveSeparators(a) + RemoveSeparators(b)
  {
    if a != [] {
      assert (a + b)[0] == a[0];
      assert (a + b)[1..] == a[1..] + b;
      RemoveSeparatorsAppend(a[1..], b);
    } else {
      assert a + b == b;
    }
  }

  /** A string without separators is left alone. */
  lemma {:induction false} RemoveSeparatorsIdentity(s: string)
    requires forall c :: c in s ==> !IsPhoneSeparator(c)
    ensures RemoveSeparators(s) == s
  {
    if s != [] {
      assert s[0] in s;
      assert forall c :: c in s[1..] ==> c in s;
      RemoveSeparatorsIdentity(s[1..]);
      assert s == [s[0]] + s[1..];
    }
  }

  /** A Chilean mobile number written without the country code: nine UTF-16 code units
      starting with `9`, as `cleaned.length === 9` counts them. */
  predicate IsLocalMobile(s: string) {
    StartsWith(s, "9") && Utf16Length(s) == 9
  }

  /** The country code `56` in front of a local mobile number; anything else is kept. */
  function WithCountryCode(s: string): (r: string)
    ensures IsLocalMobile(s) ==> r == "56" + s
    ensures !IsLocalMobile(s) ==> r == s
  {
    if IsLocalMobile(s) then "56" + s else s
  }

  /** `formatPhoneNumber(phone)`: separators removed, one leading `+` dropped, and `56` in front
      of a local mobile number. */
  function FormatPhoneNumber(phone: string): (r: string)
    ensures forall c :: c in r ==> !IsPhoneSeparator(c)
    ensures |r| <= |phone| + 2
  {
    var cleaned := RemoveSeparators(phone);
    var unsigned := if StartsWith(cleaned, "+") then cleaned[1..] else cleaned;
    assert forall c :: c in unsigned ==> c in cleaned;
    WithCountryCode(unsigned)
  }

  /** Separators are ignored wherever they stand. */
  lemma SeparatorIgnored(x: string, c: char, y: string)
    requires IsPhoneSeparator(c)
    ensures FormatPhoneNumber(x + [c] + y) == FormatPhoneNumber(x + y)
  {
    RemoveSeparatorsAppend(x + [c], y);
    RemoveSeparatorsAppend(x, [c]);
    RemoveSeparatorsAppend(x, y);
    assert RemoveSeparators([c]) == [];
    assert RemoveSeparators(x) + [] == RemoveSeparators(x);
  }

  /** A number without separators or a leading `+` is only given its country code. */
  lemma FormatPlain(s: string)
    requires forall c :: c in s ==> !IsPhoneSeparator(c)
    requires s == [] || s[0] != '+'
    ensures FormatPhoneNumber(s) == WithCountryCode(s)
  {
    RemoveSeparatorsIdentity(s);
  }

  /** The local, national and international spellings of a mobile number format alike. */
  lemma MobileSpellingsAgree(local: string)
    requires IsLocalMobile(local) && forall c :: c in local ==> !IsPhoneSeparator(c)
    ensures FormatPhoneNumber(local) == "56" + local
    ensures FormatPhoneNumber("56" + local) == "56" + local
    ensures FormatPhoneNumber("+56" + local) == "56" + local
  {
    var national := "56" + local;
    assert forall c :: c in national ==> c == '5' || c == '6' || c in local;
    assert national[0] == '5';
    assert "+56" + local == "+" + national;
    NationalFormatted(local);
    InternationalFormatted(national);
    FormatPlain(local);
  }

  /** A local mobile number with its country code is left alone. */
  lemma NationalFormatted(local: string)
    requires IsLocalMobile(local) && forall c :: c in local ==> !IsPhoneSeparator(c)
    ensures FormatPhoneNumber("56" + local) == "56" + local
  {
    var national := "56" + local;
    assert forall c :: c in national ==> c == '5' || c == '6' || c in local;
    FormatPlain(national);
    assert national[0] == '5';
  }

  /** A leading `+` before a number that needs no country code is dropped. */
  lemma InternationalFormatted(national: string)
    requires forall c :: c in national ==> !IsPhoneSeparator(c)
    requires national != [] && national[0] != '+' && !IsLocalMobile(national)
    ensures FormatPhoneNumber("+" + national) == national
  {
    var international := "+" + national;
    assert forall c :: c in international ==> c == '+' || c in national;
    RemoveSeparatorsIdentity(international);
    assert international[1..] == national;
  }

  /** Only one leading `+` is dropped: a doubled sign leaves one in the result. */
  lemma OnlyOnePlusDropped(d: string)
    requires forall c :: c in d ==> !IsPhoneSeparator(c)
    ensures FormatPhoneNumber("++" + d) == "+" + d
  {
    RemoveSeparatorsIdentity("++" + d);
    assert ("++" + d)[1..] == "+" + d;
  }

  /** Formatting a formatted number changes nothing, unless it still starts with `+`. */
  lemma FormatPhoneIdempotent(phone: string)
    requires !StartsWith(FormatPhoneNumber(phone), "+")
    ensures FormatPhoneNumber(FormatPhoneNumber(phone)) == FormatPhoneNumber(phone)
  {
    var r := FormatPhoneNumber(phone);
    RemoveSeparatorsIdentity(r);
    var cleaned := RemoveSeparators(phone);
    var unsigned := if StartsWith(cleaned, "+") then cleaned[1..] else cleaned;
    if IsLocalMobile(unsigned) {
      assert r == "56" + unsigned && r[0] == '5';
    }
  }

  datatype ComponentKind = Header | Body | Button

  datatype ParameterKind = TextParameter | ImageParameter | DocumentParameter | VideoParameter

  /** A template parameter: its kind, its text, and the link of an image. */
  datatype Parameter = Parameter(kind: ParameterKind, text: Option<string>, image: Option<string>)

  datatype Component = Component(kind: ComponentKind, parameters: seq<Parameter>)

  /** The two kinds of message the client sends. */
  datatype Message =
    | TextMessage(to: string, text: string)
    | TemplateMessage(to: string, templateName: string, languageCode: Option<string>,
                      components: Option<seq<Component>>)

  /** What follows the common fields of the request body. */
  datatype Content =
    | TextContent(previewUrl: bool, body: string)
    | TemplateContent(name: string, languageCode: string, components: Option<seq<Component>>)

  /** The request body: `messaging_product`, `recipient_type`, `to`, then the message. */
  datatype Payload = Payload(messagingProduct: string, recipientType: string, to: string, content: Content)

  const DefaultLanguage: string := "es"

  /** `message.languageCode || "es"`. */
  function LanguageOr(code: Option<string>): (r: string)
    ensures code.Some? && code.value != "" ==> r == code.value
    ensures code.None? || code.value == "" ==> r == DefaultLanguage
  {
    if code.Some? && code.value != "" then code.value else DefaultLanguage
  }

  /** `buildPayload(message)`. */
  function BuildPayload(m: Message): Payload {
    var content :=
      match m
      case TextMessage(_, text) => TextContent(true, text)
      case TemplateMessage(_, name, code, components) => TemplateContent(name, LanguageOr(code), components);
    Payload("whatsapp", "individual", m.to, content)
  }

  /** The message a request body carries, read back from it. */
  function MessageOf(p: Payload): Message {
    match p.content
    case TextContent(_, body) => TextMessage(p.to, body)
    case TemplateContent(name, code, components) => TemplateMessage(p.to, name, Some(code), components)
  }

  /** Every body names the product, an individual recipient and the message's own `to`; a text
      asks for link previews; and nothing but an omitted or empty language is filled in: the
      message reads back from its body. */
  lemma BuildPayloadFaithful(m: Message)
    ensures var p := BuildPayload(m);
            p.messagingProduct == "whatsapp" && p.recipientType == "individual" && p.to == m.to
            && (m.TextMessage? ==> p.content.TextContent? && p.content.previewUrl)
            && (m.TemplateMessage? && (m.languageCode.None? || m.languageCode.value == "") ==>
                  p.content.TemplateContent? && p.content.languageCode == DefaultLanguage)
            && (m.TextMessage? || (m.languageCode.Some? && m.languageCode.value != "") ==> MessageOf(p) == m)
  {
  }

  /** Text parameters, one per string, in order. */
  function TextParameters(texts: seq<string>): (r: seq<Parameter>)
    ensures |r| == |texts|
    ensures forall i :: 0 <= i < |r| ==> r[i] == Parameter(TextParameter, Some(texts[i]), None)
  {
    if texts == [] then [] else [Parameter(TextParameter, Some(texts[0]), None)] + TextParameters(texts[1..])
  }

  /** One body component with the given texts as its parameters. */
  function BodyWith(texts: seq<string>): seq<Component> {
    [Component(Body, TextParameters(texts))]
  }

  /** The texts of the first component's parameters, in order (missing texts as `""`). */
  function TemplateTexts(p: Payload): seq<string> {
    if p.content.TemplateContent? && p.content.components.Some? && |p.content.components.value| > 0 then
      var ps := p.content.components.value[0].parameters;
      seq(|ps|, i requires 0 <= i < |ps| => ps[i].text.GetOr(""))
    else []
  }

  /** `sendText(to, text)`: the recipient is formatted first. */
  function SendText(to: string, text: string): (p: Payload)
    ensures p.to == FormatPhoneNumber(to)
    ensures MessageOf(p) == TextMessage(FormatPhoneNumber(to), text)
  {
    BuildPayload(TextMessage(FormatPhoneNumber(to), text))
  }

  /** `sendTemplate(to, templateName, components, languageCode = "es")`; `None` is an omitted
      language. */
  function SendTemplate(to: string, templateName: string, components: Option<seq<Component>>,
                        languageCode: Option<string>): (p: Payload)
    ensures p.to == FormatPhoneNumber(to)
    ensures p.content.TemplateContent? && p.content.name == templateName && p.content.components == components
    ensures languageCode.None? ==> p.content.languageCode == DefaultLanguage
    ensures languageCode.Some? && languageCode.value != "" ==> p.content.languageCode == languageCode.value
    ensures languageCode == Some("") ==> p.content.languageCode == DefaultLanguage
  {
    BuildPayload(TemplateMessage(FormatPhoneNumber(to), templateName, Some(languageCode.GetOr(DefaultLanguage)),
                                 components))
  }

  /** `sendAppointmentReminder`: template `cita_recordatorio` in Spanish, body parameters in the
      order patient, date, time, doctor. */
  function AppointmentReminder(to: string, patientName: string, date: string, time: string,
                               doctorName: string): (p: Payload)
    ensures p.to == FormatPhoneNumber(to)
    ensures p.content.TemplateContent? && p.content.name == "cita_recordatorio"
    ensures p.content.languageCode == DefaultLanguage
    ensures TemplateTexts(p) == [patientName, date, time, doctorName]
  {
    var p := SendTemplate(to, "cita_recordatorio", Some(BodyWith([patientName, date, time, doctorName])), None);
    assert TemplateTexts(p) == [patientName, date, time, doctorName];
    p
  }

  /** `sendAppointmentConfirmation`: template `cita_confirmada`, parameters patient, date, time,
      address. */
  function AppointmentConfirmation(to: string, patientName: string, date: string, time: string,
                                   address: string): (p: Payload)
    ensures p.to == FormatPhoneNumber(to)
    ensures p.content.TemplateContent? && p.content.name == "cita_confirmada"
    ensures p.content.languageCode == DefaultLanguage
    ensures TemplateTexts(p) == [patientName, date, time, address]
  {
    var p := SendTemplate(to, "cita_confirmada", Some(BodyWith([patientName, date, time, address])), None);
    assert TemplateTexts(p) == [patientName, date, time, address];
    p
  }

  /** `sendWelcomeLead`: template `bienvenida_lead` with the name as its one parameter. */
  function WelcomeLead(to: string, name: string): (p: Payload)
    ensures p.to == FormatPhoneNumber(to)
    ensures p.content.TemplateContent? && p.content.name == "bienvenida_lead"
    ensures p.content.languageCode == DefaultLanguage
    ensures TemplateTexts(p) == [name]
  {
    var p := SendTemplate(to, "bienvenida_lead", Some(BodyWith([name])), None);
    assert TemplateTexts(p) == [name];
    p
  }

  const DiagnosisGreeting: string := "¡Hola "
  const DiagnosisIntro: string := "! \U{1F9B7}\n\nAquí está el resumen de tu diagnóstico inicial:\n\n"
  const DiagnosisClosing: string :=
    "\n\n\U{1F4C5} Te invitamos a agendar tu evaluación presencial gratuita en:\nhttps://clinicamiro.cl/agendar"
    + "\n\n¿Tienes dudas? Responde este mensaje y te ayudamos."

  /** `sendDiagnosisResult`: a text greeting the patient by name with the summary in between
      fixed sentences. */
  function DiagnosisResult(to: string, patientName: string, summary: string): (p: Payload)
    ensures p.to == FormatPhoneNumber(to) && p.content.TextContent?
    ensures StartsWith(p.content.body, DiagnosisGreeting + patientName)
    ensures OccursAt(p.content.body, summary, |DiagnosisGreeting| + |patientName| + |DiagnosisIntro|)
    ensures EndsWith(p.content.body, DiagnosisClosing)
  {
    var head := DiagnosisGreeting + patientName + DiagnosisIntro;
    var text := head + summary + DiagnosisClosing;
    assert text[..|DiagnosisGreeting + patientName|] == DiagnosisGreeting + patientName;
    assert text[|head|..|head| + |summary|] == summary;
    assert text[|text| - |DiagnosisClosing|..] == DiagnosisClosing;
    SendText(to, text)
  }
}
