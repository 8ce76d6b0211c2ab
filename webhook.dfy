/**
 * The WhatsApp Cloud webhook: the GET subscription handshake, and the POST
 * handler that walks every entry, change, message and status of a delivery,
 * answers text, button, interactive, media and location messages, and always
 * replies to Meta with status 200.
 *
 * The handlers' side effects (marking a message read, sending a text,
 * notifying the team, saving a message, updating a status) are recorded, in
 * order, as `Effect`s. Whether the WhatsApp API accepts a text is a parameter
 * (`Outside.sendFails`): a rejected send throws, and the throw ends the whole
 * POST with the "error" answer.
 */
module WhatsAppWebhook {
  import opened Wrappers
  import opened Strings

  // ---------------------------------------------------------------------
  // GET: the subscription handshake
  // ---------------------------------------------------------------------

  datatype HandshakeReply =
    | Challenge(challenge: Option<string>)   // 200, the body echoes hub.challenge
    | Forbidden                              // 403 {error: "Forbidden"}

  function HandshakeStatus(r: HandshakeReply): nat {
    if r.Challenge? then 200 else 403
  }

  /**
   * `mode`, `token` and `challenge` are the hub.* query parameters (`None`
   * when absent, JavaScript's `null`); `verifyToken` is the configured
   * WHATSAPP_WEBHOOK_VERIFY_TOKEN (`None` when unset, JavaScript's
   * `undefined`). Strict equality never equates `null` with `undefined`, so
   * an unset token refuses every handshake.
   */
  function Handshake(mode: Option<string>, token: Option<string>, challenge: Option<string>,
                     verifyToken: Option<string>): (r: HandshakeReply)
    ensures r.Challenge? <==> mode == Some("subscribe") && token.Some? && token == verifyToken
    ensures r.Challenge? ==> r.challenge == challenge && HandshakeStatus(r) == 200
    ensures r.Forbidden? ==> HandshakeStatus(r) == 403
  {
    if mode == Some("subscribe") && token.Some? && token == verifyToken then Challenge(challenge)
    else Forbidden
  }

  /** Without a configured verify token no handshake succeeds. */
  lemma UnsetTokenRefuses(mode: Option<string>, token: Option<string>, challenge: Option<string>)
    ensures Handshake(mode, token, challenge, None) == Forbidden
  {
  }

  // ---------------------------------------------------------------------
  // The delivery as it arrives
  // ---------------------------------------------------------------------

  datatype Contact = Contact(profileName: Option<string>)

  datatype ButtonData = ButtonData(payload: Option<string>, text: Option<string>)

  /** `interactive.type` with the reply object it names. */
  datatype Interactive =
    | ButtonReply(id: Option<string>)
    | ListReply(selectedId: Option<string>)
    | OtherInteractive(responseType: string)

  datatype MediaType = Image | Document | Audio | Video

  datatype Coordinates = Coordinates(latitude: int, longitude: int)

  /**
   * `message.type` with the part of the message its handler reads; `None`
   * stands for a part the message lacks, which makes the handler throw.
   */
  datatype MessageKind =
    | Text(body: Option<string>)
    | ButtonMsg(button: Option<ButtonData>)
    | InteractiveMsg(interactive: Option<Interactive>)
    | Media(mediaType: MediaType, mediaId: Option<string>)
    | LocationMsg(location: Option<Coordinates>)
    | Unhandled(messageType: string)

  datatype Message = Message(from: string, id: string, timestamp: string, kind: MessageKind)

  datatype Status = Status(id: string, status: string, timestamp: string)

  datatype Value = Value(messages: Option<seq<Message>>, contacts: Option<seq<Contact>>,
                         statuses: Option<seq<Status>>)

  /** `change.value`; a change without one makes `value.messages` throw. */
  datatype Change = Change(value: Option<Value>)

  datatype Entry = Entry(changes: Option<seq<Change>>)

  datatype Body = Body(objectType: Option<string>, entry: Option<seq<Entry>>)

  const BusinessAccount := "whatsapp_business_account"

  // ---------------------------------------------------------------------
  // What the handlers do
  // ---------------------------------------------------------------------

  datatype Notification =
    | NewMessage(from: string, contactName: string, message: string)
    | MediaReceived(from: string, contactName: string, mediaType: MediaType, mediaId: Option<string>)

  datatype SavedMessage = SavedMessage(from: string, contactName: string, messageId: string,
                                       messageType: string, content: string, timestamp: string)

  datatype Effect =
    | MarkedRead(messageId: string)
    | SentText(to: string, reply: Reply)   // the text sent is Wording(reply)
    | Notified(notification: Notification)
    | Saved(record: SavedMessage)
    | StatusUpdated(messageId: string, status: string, timestamp: string)

  /**
   * The world the handlers talk to: whether the WhatsApp API rejects a reply
   * to a recipient (then `sendText` throws), and the distance text for a
   * shared location.
   */
  datatype Outside = Outside(sendFails: (string, Reply) -> bool, distance: Coordinates -> string)

  /** The effects performed so far, and whether an exception escaped. */
  datatype Run = Run(effects: seq<Effect>, failed: bool)

  const Start := Run([], false)
  const Threw := Run([], true)

  /** Run `next` after `s`, unless `s` has already thrown. */
  function Then(s: Run, next: Run): (r: Run)
    ensures s.failed ==> r == s
    ensures !s.failed ==> r.effects == s.effects + next.effects && r.failed == next.failed
  {
    if s.failed then s else Run(s.effects + next.effects, next.failed)
  }

  /** `whatsapp.sendText(to, Wording(reply))`: performed, or rejected and thrown. */
  function Send(to: string, reply: Reply, o: Outside): (r: Run)
    ensures r.failed == o.sendFails(to, reply)
    ensures r.effects == if r.failed then [] else [SentText(to, reply)]
  {
    if o.sendFails(to, reply) then Threw else Run([SentText(to, reply)], false)
  }

  function ContactName(contact: Option<Contact>): (name: string)
    ensures contact.Some? && contact.value.profileName.Some? && contact.value.profileName.value != ""
            ==> name == contact.value.profileName.value
    ensures !(contact.Some? && contact.value.profileName.Some? && contact.value.profileName.value != "")
            ==> name == "Paciente"
  {
    if contact.Some? && contact.value.profileName.Some? && contact.value.profileName.value != ""
    then contact.value.profileName.value
    else "Paciente"
  }

  /** `value.contacts?.[0]`. */
  function FirstContact(contacts: Option<seq<Contact>>): (c: Option<Contact>)
    ensures c.Some? <==> contacts.Some? && |contacts.value| > 0
    ensures c.Some? ==> c.value == contacts.value[0]
  {
    if contacts.Some? && |contacts.value| > 0 then Some(contacts.value[0]) else None
  }

  // ---------------------------------------------------------------------
  // Text messages: keyword routing
  // ---------------------------------------------------------------------

  datatype Topic = Scheduling | Prices | Hours | Directions | Greeting | Unmatched

  predicate MentionsAny(text: string, a: string, b: string, c: string) {
    Contains(text, a) || Contains(text, b) || Contains(text, c)
  }

  /** The keyword group the lowercased, trimmed text falls into; the first group that matches wins. */
  function TopicOf(text: string): (t: Topic)
    ensures var l := Trim(ToLower(text));
      && (t == Scheduling <==> MentionsAny(l, "agendar", "cita", "hora"))
      && (t == Prices <==> !MentionsAny(l, "agendar", "cita", "hora")
                           && MentionsAny(l, "precio", "costo", "valor"))
      && (t == Hours <==> !MentionsAny(l, "agendar", "cita", "hora")
                          && !MentionsAny(l, "precio", "costo", "valor")
                          && MentionsAny(l, "horario", "atencion", "abierto"))
      && (t == Directions <==> !MentionsAny(l, "agendar", "cita", "hora")
                               && !MentionsAny(l, "precio", "costo", "valor")
                               && !MentionsAny(l, "horario", "atencion", "abierto")
                               && MentionsAny(l, "direccion", "ubicacion", "donde"))
      && (t == Greeting <==> !MentionsAny(l, "agendar", "cita", "hora")
                             && !MentionsAny(l, "precio", "costo", "valor")
                             && !MentionsAny(l, "horario", "atencion", "abierto")
                             && !MentionsAny(l, "direccion", "ubicacion", "donde")
                             && MentionsAny(l, "hola", "buenos", "buenas"))
  {
    var l := Trim(ToLower(text));
    if MentionsAny(l, "agendar", "cita", "hora") then Scheduling
    else if MentionsAny(l, "precio", "costo", "valor") then Prices
    else if MentionsAny(l, "horario", "atencion", "abierto") then Hours
    else if MentionsAny(l, "direccion", "ubicacion", "donde") then Directions
    else if MentionsAny(l, "hola", "buenos", "buenas") then Greeting
    else Unmatched
  }

  /**
   * "horario" contains "hora", and the scheduling group is tested first, so a
   * question about opening hours never reaches the opening-hours reply.
   */
  lemma {:induction false} HoursAskedGetsScheduling(text: string)
    requires Contains(Trim(ToLower(text)), "horario")
    ensures TopicOf(text) == Scheduling
  {
    assert Contains("horario", "hora") by {
      assert OccursAt("horario", "hora", 0);
    }
    ContainsTransitive(Trim(ToLower(text)), "horario", "hora");
  }

  /** The automatic replies, by what they answer; `Wording` gives the text each one sends. */
  datatype Reply =
    | SchedulingReply(name: string)
    | PricesReply(name: string)
    | HoursReply
    | DirectionsReply
    | GreetingReply(name: string)
    | ThanksReply(name: string)
    | BookButtonReply(name: string)
    | ConfirmedReply
    | CancelledReply
    | MediaThanks(mediaType: MediaType, name: string)
    | LocationReply(name: string, distance: string)

  function Wording(r: Reply): string {
    match r
    case SchedulingReply(name) =>
      "¡Hola " + name + "! 📅\n\nPuedes agendar tu cita directamente aquí:\n👉 https://clinicamiro.cl/agendar\n\nO si prefieres, cuéntanos qué horario te acomoda y te ayudamos."
    case PricesReply(name) =>
      "¡Hola " + name + "! 💰\n\nLos precios varían según el tratamiento. Te ofrecemos:\n\n✅ Evaluación inicial GRATIS\n✅ Financiamiento hasta 12 cuotas sin interés\n✅ Convenios con Isapres y Fonasa\n\n¿Te gustaría agendar tu evaluación gratuita?"
    case HoursReply =>
      "🕐 Nuestros horarios:\n\n📍 Lunes a Viernes: 9:00 - 19:00\n📍 Sábado: 9:00 - 14:00\n📍 Domingo: Cerrado\n\n¿Necesitas agendar una hora?"
    case DirectionsReply =>
      "📍 Estamos en:\nAv. Providencia 1234, Providencia, Santiago\n\n🚇 Metro: Estación Los Leones\n🅿️ Estacionamiento disponible\n\n¿Te esperamos?"
    case GreetingReply(name) =>
      "¡Hola " + name + "! 👋\n\nBienvenido/a a Clínica Miró 🦷\n\n¿En qué podemos ayudarte hoy?\n\n• Agendar cita\n• Consultar precios\n• Conocer nuestros servicios\n• Ubicación y horarios"
    case ThanksReply(name) =>
      "Gracias por tu mensaje, " + name + ". Un miembro de nuestro equipo te responderá pronto.\n\nMientras tanto, puedes:\n📅 Agendar online: https://clinicamiro.cl/agendar\n🤖 Obtener diagnóstico IA: https://clinicamiro.cl/diagnostico"
    case BookButtonReply(name) =>
      "¡Perfecto " + name + "! 📅\n\nAgenda tu cita aquí:\n👉 https://clinicamiro.cl/agendar"
    case ConfirmedReply =>
      "✅ ¡Cita confirmada!\n\nTe esperamos. Recuerda llegar 10 minutos antes.\n\n📍 Av. Providencia 1234, Providencia"
    case CancelledReply =>
      "Entendemos que a veces surgen imprevistos. ¿Deseas reagendar tu cita?\n\n👉 https://clinicamiro.cl/agendar"
    case MediaThanks(t, name) =>
      "Gracias por enviar " + MediaNoun(t) + ", " + name + ".\n\nNuestro equipo lo revisará y te contactará pronto."
    case LocationReply(name, distance) =>
      "Gracias por compartir tu ubicación, " + name + ".\n\n📍 Nuestra clínica está en:\nAv. Providencia 1234, Providencia\n\n🚗 A " + distance + " de ti aproximadamente."
  }

  /** The noun for the media in the thanks reply. */
  function MediaNoun(t: MediaType): (noun: string)
    ensures t == Image ==> noun == "la imagen"
    ensures t == Document ==> noun == "el documento"
    ensures t == Audio || t == Video ==> noun == "el archivo"
  {
    match t
    case Image => "la imagen"
    case Document => "el documento"
    case _ => "el archivo"
  }

  /** The automatic reply for a matched topic. */
  function TopicReply(t: Topic, name: string): Reply
    requires t != Unmatched
  {
    match t
    case Scheduling => SchedulingReply(name)
    case Prices => PricesReply(name)
    case Hours => HoursReply
    case Directions => DirectionsReply
    case Greeting => GreetingReply(name)
  }

  /**
   * `handleTextMessage`: a matched topic sends its one reply; otherwise the
   * team is notified of the original text first and the thanks reply follows.
   */
  function TextRun(from: string, text: string, name: string, o: Outside): (r: Run)
    ensures TopicOf(text) != Unmatched ==> r == Send(from, TopicReply(TopicOf(text), name), o)
    ensures TopicOf(text) == Unmatched ==>
      r == Then(Run([Notified(NewMessage(from, name, text))], false), Send(from, ThanksReply(name), o))
  {
    var t := TopicOf(text);
    if t != Unmatched then Send(from, TopicReply(t, name), o)
    else Then(Run([Notified(NewMessage(from, name, text))], false), Send(from, ThanksReply(name), o))
  }

  /** A text that matches no keyword reaches the team even when the reply is then rejected. */
  lemma UnmatchedNotifiesFirst(from: string, text: string, name: string, o: Outside)
    requires TopicOf(text) == Unmatched
    ensures var r := TextRun(from, text, name, o);
      && |r.effects| >= 1
      && r.effects[0] == Notified(NewMessage(from, name, text))
      && (r.failed <==> o.sendFails(from, ThanksReply(name)))
  {
  }

  // ---------------------------------------------------------------------
  // Buttons, interactive replies, media and locations
  // ---------------------------------------------------------------------

  /** The reply a template button's payload asks for. */
  function ButtonReplyFor(payload: Option<string>, name: string): (r: Option<Reply>)
    ensures r == Some(BookButtonReply(name)) <==> payload == Some("AGENDAR_CITA")
    ensures r == Some(ConfirmedReply) <==> payload == Some("CONFIRMAR_CITA")
    ensures r == Some(CancelledReply) <==> payload == Some("CANCELAR_CITA")
    ensures r.None? <==> payload !in {Some("AGENDAR_CITA"), Some("CONFIRMAR_CITA"), Some("CANCELAR_CITA")}
  {
    if payload == Some("AGENDAR_CITA") then Some(BookButtonReply(name))
    else if payload == Some("CONFIRMAR_CITA") then Some(ConfirmedReply)
    else if payload == Some("CANCELAR_CITA") then Some(CancelledReply)
    else None
  }

  /** `handleButtonResponse`: the three known payloads send one reply each; any other sends nothing. */
  function ButtonRun(from: string, payload: Option<string>, name: string, o: Outside): (r: Run)
    ensures ButtonReplyFor(payload, name).Some? ==> r == Send(from, ButtonReplyFor(payload, name).value, o)
    ensures ButtonReplyFor(payload, name).None? ==> r == Start
  {
    match ButtonReplyFor(payload, name)
    case Some(reply) => Send(from, reply, o)
    case None => Start
  }

  /** A known button payload sends exactly one text, to the sender; an unknown one does nothing. */
  lemma {:induction false} ButtonSendsAtMostOnce(from: string, payload: Option<string>, name: string, o: Outside)
    ensures var r := ButtonRun(from, payload, name, o);
      && (payload in {Some("AGENDAR_CITA"), Some("CONFIRMAR_CITA"), Some("CANCELAR_CITA")} && !r.failed
          ==> |r.effects| == 1 && r.effects[0].SentText? && r.effects[0].to == from)
      && (payload !in {Some("AGENDAR_CITA"), Some("CONFIRMAR_CITA"), Some("CANCELAR_CITA")} ==> r == Start)
  {
    var reply := ButtonReplyFor(payload, name);
    if reply.Some? {
      assert ButtonRun(from, payload, name, o) == Send(from, reply.value, o);
    }
  }

  /** `handleInteractiveResponse`: a button reply is a button press whose payload is its id; a list reply is only logged. */
  function InteractiveRun(from: string, interactive: Interactive, name: string, o: Outside): (r: Run)
    ensures interactive.ButtonReply? ==> r == ButtonRun(from, interactive.id, name, o)
    ensures !interactive.ButtonReply? ==> r == Start
  {
    if interactive.ButtonReply? then ButtonRun(from, interactive.id, name, o) else Start
  }

  /** `handleMediaMessage`: thanks the sender, then notifies the team, so a rejected reply notifies no one. */
  function MediaRun(from: string, t: MediaType, mediaId: Option<string>, name: string, o: Outside): (r: Run)
    ensures r.failed <==> o.sendFails(from, MediaThanks(t, name))
    ensures r.failed ==> r.effects == []
    ensures !r.failed ==> r.effects == [SentText(from, MediaThanks(t, name)),
                                        Notified(MediaReceived(from, name, t, mediaId))]
  {
    Then(Send(from, MediaThanks(t, name), o), Run([Notified(MediaReceived(from, name, t, mediaId))], false))
  }

  function TypeName(kind: MessageKind): string {
    match kind
    case Text(_) => "text"
    case ButtonMsg(_) => "button"
    case InteractiveMsg(_) => "interactive"
    case Media(Image, _) => "image"
    case Media(Document, _) => "document"
    case Media(Audio, _) => "audio"
    case Media(Video, _) => "video"
    case LocationMsg(_) => "location"
    case Unhandled(t) => t
  }

  /** The saved content: the text body, else the button text, else "media". */
  function SavedContent(kind: MessageKind): (content: string)
    ensures kind.Text? && kind.body.Some? && kind.body.value != "" ==> content == kind.body.value
    ensures (kind.ButtonMsg? && kind.button.Some? && kind.button.value.text.Some?
             && kind.button.value.text.value != "") ==> content == kind.button.value.text.value
    ensures (!(kind.Text? && kind.body.Some? && kind.body.value != "")
             && !(kind.ButtonMsg? && kind.button.Some? && kind.button.value.text.Some?
                  && kind.button.value.text.value != "")) ==> content == "media"
  {
    if kind.Text? && kind.body.Some? && kind.body.value != "" then kind.body.value
    else if kind.ButtonMsg? && kind.button.Some? && kind.button.value.text.Some?
            && kind.button.value.text.value != "" then kind.button.value.text.value
    else "media"
  }

  /** The handler the message's type selects; a missing part throws before anything is sent. */
  function HandlerRun(m: Message, name: string, o: Outside): Run {
    match m.kind
    case Text(body) => if body.None? then Threw else TextRun(m.from, body.value, name, o)
    case ButtonMsg(button) => if button.None? then Threw else ButtonRun(m.from, button.value.payload, name, o)
    case InteractiveMsg(i) => if i.None? then Threw else InteractiveRun(m.from, i.value, name, o)
    case Media(t, id) => MediaRun(m.from, t, id, name, o)
    case LocationMsg(c) => if c.None? then Threw else Send(m.from, LocationReply(name, o.distance(c.value)), o)
    case Unhandled(_) => Start
  }

  /**
   * `handleIncomingMessage`: mark read, run the type's handler, then save the
   * message, unless the handler threw.
   */
  function HandleMessage(m: Message, contact: Option<Contact>, o: Outside): (r: Run)
    ensures var h := HandlerRun(m, ContactName(contact), o);
      && r.failed == h.failed
      && r.effects == [MarkedRead(m.id)] + h.effects + (if h.failed then [] else [Saved(SavedRecord(m, contact))])
  {
    var read := Run([MarkedRead(m.id)], false);
    Then(Then(read, HandlerRun(m, ContactName(contact), o)), Run([Saved(SavedRecord(m, contact))], false))
  }

  /** What `saveMessageToDatabase` receives for a message. */
  function SavedRecord(m: Message, contact: Option<Contact>): SavedMessage {
    SavedMessage(m.from, ContactName(contact), m.id, TypeName(m.kind), SavedContent(m.kind), m.timestamp)
  }

  /** `handleMessageStatus`: the status is recorded; nothing it does throws. */
  function HandleStatus(st: Status): (r: Run)
    ensures !r.failed
    ensures r.effects == [StatusUpdated(st.id, st.status, st.timestamp)]
  {
    Run([StatusUpdated(st.id, st.status, st.timestamp)], false)
  }

  // ---------------------------------------------------------------------
  // POST: the nested iteration, as folds over the delivery
  // ---------------------------------------------------------------------

  function RunMessages(messages: seq<Message>, contact: Option<Contact>, o: Outside, s: Run): Run
    decreases |messages|
  {
    if messages == [] then s
    else RunMessages(messages[1..], contact, o, Then(s, HandleMessage(messages[0], contact, o)))
  }

  function RunStatuses(statuses: seq<Status>, s: Run): Run
    decreases |statuses|
  {
    if statuses == [] then s else RunStatuses(statuses[1..], Then(s, HandleStatus(statuses[0])))
  }

  /** The statuses of a change, run after its messages. */
  function AfterStatuses(v: Value, s: Run): Run {
    if v.statuses.Some? then RunStatuses(v.statuses.value, s) else s
  }

  /** One change: its messages (all answered with the first contact), then its statuses. */
  function RunChange(change: Change, o: Outside, s: Run): Run {
    if s.failed then s
    else if change.value.None? then Run(s.effects, true)
    else
      var v := change.value.value;
      AfterStatuses(v, if v.messages.Some? then RunMessages(v.messages.value, FirstContact(v.contacts), o, s) else s)
  }

  function RunChanges(changes: seq<Change>, o: Outside, s: Run): Run
    decreases |changes|
  {
    if changes == [] then s else RunChanges(changes[1..], o, RunChange(changes[0], o, s))
  }

  function RunEntries(entries: seq<Entry>, o: Outside, s: Run): Run
    decreases |entries|
  {
    if entries == [] then s else RunEntries(entries[1..], o, RunChanges(entries[0].changes.GetOr([]), o, s))
  }

  // Once a handler has thrown, nothing later runs.

  lemma {:induction false} MessagesAfterThrow(messages: seq<Message>, contact: Option<Contact>, o: Outside, s: Run)
    requires s.failed
    ensures RunMessages(messages, contact, o, s) == s
    decreases |messages|
  {
    if messages != [] {
      MessagesAfterThrow(messages[1..], contact, o, s);
    }
  }

  lemma {:induction false} StatusesAfterThrow(statuses: seq<Status>, s: Run)
    requires s.failed
    ensures RunStatuses(statuses, s) == s
    decreases |statuses|
  {
    if statuses != [] {
      StatusesAfterThrow(statuses[1..], s);
    }
  }

  lemma {:induction false} ChangesAfterThrow(changes: seq<Change>, o: Outside, s: Run)
    requires s.failed
    ensures RunChanges(changes, o, s) == s
    decreases |changes|
  {
    if changes != [] {
      ChangesAfterThrow(changes[1..], o, s);
    }
  }

  lemma {:induction false} EntriesAfterThrow(entries: seq<Entry>, o: Outside, s: Run)
    requires s.failed
    ensures RunEntries(entries, o, s) == s
    decreases |entries|
  {
    if entries != [] {
      ChangesAfterThrow(entries[0].changes.GetOr([]), o, s);
      EntriesAfterThrow(entries[1..], o, s);
    }
  }

  // Processing only ever appends effects, and a throw is final.

  lemma {:induction false} MessagesExtend(messages: seq<Message>, contact: Option<Contact>, o: Outside, s: Run)
    ensures s.effects <= RunMessages(messages, contact, o, s).effects
    ensures s.failed ==> RunMessages(messages, contact, o, s).failed
    decreases |messages|
  {
    if messages != [] {
      var next := Then(s, HandleMessage(messages[0], contact, o));
      MessagesExtend(messages[1..], contact, o, next);
    }
  }

  lemma {:induction false} StatusesExtend(statuses: seq<Status>, s: Run)
    ensures s.effects <= RunStatuses(statuses, s).effects
    ensures RunStatuses(statuses, s).failed == s.failed
    decreases |statuses|
  {
    if statuses != [] {
      StatusesExtend(statuses[1..], Then(s, HandleStatus(statuses[0])));
    }
  }

  lemma {:induction false} ChangeExtends(change: Change, o: Outside, s: Run)
    ensures s.effects <= RunChange(change, o, s).effects
    ensures s.failed ==> RunChange(change, o, s).failed
  {
    if !s.failed && change.value.Some? {
      var v := change.value.value;
      var afterMessages :=
        if v.messages.Some? then RunMessages(v.messages.value, FirstContact(v.contacts), o, s) else s;
      if v.messages.Some? {
        MessagesExtend(v.messages.value, FirstContact(v.contacts), o, s);
      }
      if v.statuses.Some? {
        StatusesExtend(v.statuses.value, afterMessages);
      }
    }
  }

  lemma {:induction false} ChangesExtend(changes: seq<Change>, o: Outside, s: Run)
    ensures s.effects <= RunChanges(changes, o, s).effects
    ensures s.failed ==> RunChanges(changes, o, s).failed
    decreases |changes|
  {
    if changes != [] {
      ChangeExtends(changes[0], o, s);
      ChangesExtend(changes[1..], o, RunChange(changes[0], o, s));
    }
  }

  lemma {:induction false} EntriesExtend(entries: seq<Entry>, o: Outside, s: Run)
    ensures s.effects <= RunEntries(entries, o, s).effects
    ensures s.failed ==> RunEntries(entries, o, s).failed
    decreases |entries|
  {
    if entries != [] {
      var changes := entries[0].changes.GetOr([]);
      ChangesExtend(changes, o, s);
      EntriesExtend(entries[1..], o, RunChanges(changes, o, s));
    }
  }

  // ---------------------------------------------------------------------
  // POST
  // ---------------------------------------------------------------------

  datatype PostReply = Ignored | Processed | Errored

  /** Every answer to a delivery is JSON with status 200, so Meta never retries. */
  function PostStatus(r: PostReply): nat {
    200
  }

  /**
   * The POST's answer and its effects. `body` is `None` when the request
   * body is not JSON or is `null` (parsing or reading `body.object` throws);
   * any other JSON value is a `Body`, with no `objectType` when it has no
   * string `object` field, and is ignored.
   */
  function PostOutcome(body: Option<Body>, o: Outside): (PostReply, seq<Effect>) {
    if body.None? then (Errored, [])
    else if body.value.objectType != Some(BusinessAccount) then (Ignored, [])
    else
      var r := RunEntries(body.value.entry.GetOr([]), o, Start);
      (if r.failed then Errored else Processed, r.effects)
  }

  /** Deliveries for anything but a WhatsApp business account are ignored without any effect. */
  lemma OtherObjectsIgnored(body: Body, o: Outside)
    requires body.objectType != Some(BusinessAccount)
    ensures PostOutcome(Some(body), o) == (Ignored, [])
  {
  }

  /**
   * The first message of the first change of the first entry is marked read
   * before anything else happens, whatever follows it.
   */
  lemma {:induction false} FirstMessageReadFirst(body: Body, o: Outside, m: Message)
    requires body.objectType == Some(BusinessAccount) && body.entry.Some? && |body.entry.value| > 0
    requires var e := body.entry.value[0];
      && e.changes.Some? && |e.changes.value| > 0
      && e.changes.value[0].value.Some?
      && var v := e.changes.value[0].value.value;
      && v.messages.Some? && |v.messages.value| > 0 && v.messages.value[0] == m
    ensures var effects := PostOutcome(Some(body), o).1;
      |effects| > 0 && effects[0] == MarkedRead(m.id)
  {
    var entries := body.entry.value;
    var changes := entries[0].changes.value;
    var v := changes[0].value.value;
    var messages := v.messages.value;
    var contact := FirstContact(v.contacts);
    var afterFirst := Then(Start, HandleMessage(m, contact, o));
    assert afterFirst.effects[0] == MarkedRead(m.id);
    MessagesExtend(messages[1..], contact, o, afterFirst);
    var afterMessages := RunMessages(messages, contact, o, Start);
    assert afterMessages == RunMessages(messages[1..], contact, o, afterFirst);
    if v.statuses.Some? {
      StatusesExtend(v.statuses.value, afterMessages);
    }
    var afterChange := RunChange(changes[0], o, Start);
    assert afterChange == AfterStatuses(v, afterMessages);
    ChangesExtend(changes[1..], o, afterChange);
    var afterEntry := RunChanges(changes, o, Start);
    EntriesExtend(entries[1..], o, afterEntry);
  }

  /** The POST handler: the loops over entries, changes, messages and statuses, stopping at the first throw. */
  method Post(body: Option<Body>, o: Outside) returns (reply: PostReply, effects: seq<Effect>)
    ensures (reply, effects) == PostOutcome(body, o)
    ensures PostStatus(reply) == 200
  {
    if body.None? {
      return Errored, [];
    }
    if body.value.objectType != Some(BusinessAccount) {
      return Ignored, [];
    }
    var entries := body.value.entry.GetOr([]);
    ghost var goal := RunEntries(entries, o, Start);
    var run := Start;
    var i := 0;
    while i < |entries|
      invariant 0 <= i <= |entries|
      invariant !run.failed
      invariant RunEntries(entries[i..], o, run) == goal
    {
      var changes := entries[i].changes.GetOr([]);
      assert entries[i..][1..] == entries[i + 1..];
      var j := 0;
      while j < |changes|
        invariant 0 <= j <= |changes|
        invariant !run.failed
        invariant RunEntries(entries[i + 1..], o, RunChanges(changes[j..], o, run)) == goal
      {
        var change := changes[j];
        assert changes[j..][1..] == changes[j + 1..];
        if change.value.None? {
          run := Run(run.effects, true);
          ChangesAfterThrow(changes[j + 1..], o, run);
          EntriesAfterThrow(entries[i + 1..], o, run);
          return Errored, run.effects;
        }
        var value := change.value.value;
        if value.messages.Some? {
          var messages := value.messages.value;
          var contact := FirstContact(value.contacts);
          var k := 0;
          while k < |messages|
            invariant 0 <= k <= |messages|
            invariant !run.failed
            invariant RunEntries(entries[i + 1..], o, RunChanges(changes[j + 1..], o,
                        AfterStatuses(value, RunMessages(messages[k..], contact, o, run)))) == goal
          {
            assert messages[k..][1..] == messages[k + 1..];
            run := Then(run, HandleMessage(messages[k], contact, o));
            if run.failed {
              MessagesAfterThrow(messages[k + 1..], contact, o, run);
              StatusesAfterThrow(value.statuses.GetOr([]), run);
              ChangesAfterThrow(changes[j + 1..], o, run);
              EntriesAfterThrow(entries[i + 1..], o, run);
              return Errored, run.effects;
            }
            k := k + 1;
          }
        }
        if value.statuses.Some? {
          var statuses := value.statuses.value;
          var l := 0;
          while l < |statuses|
            invariant 0 <= l <= |statuses|
            invariant !run.failed
            invariant RunEntries(entries[i + 1..], o, RunChanges(changes[j + 1..], o,
                        RunStatuses(statuses[l..], run))) == goal
          {
            assert statuses[l..][1..] == statuses[l + 1..];
            run := Then(run, HandleStatus(statuses[l]));
            l := l + 1;
          }
        }
        j := j + 1;
      }
      i := i + 1;
    }
    return (if run.failed then Errored else Processed), run.effects;
  }
}
