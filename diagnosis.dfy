/**
 * The diagnosis route (`POST /api/diagnosis`): it validates the symptom list, picks a language
 * model provider from the environment (or a canned answer when none is configured), builds the
 * prompt, and in the canned case frames the answer as a server-sent event stream in the OpenAI
 * chat-completion delta format.
 */
module Diagnosis {
  import opened Wrappers
  import opened Strings
  import opened Config

  const SymptomsRequired := "Se requieren síntomas para el diagnóstico"
  const ProcessingError := "Error al procesar la solicitud"

  const NewPatientContext := "El paciente es nuevo en la clínica."
  const ExistingPatientContext := "El paciente ya es paciente de la clínica."
  const SecondOpinionContext := "El paciente busca una segunda opinión."

  const SymptomsHeader := "\n\nEl paciente reporta los siguientes síntomas:\n"
  const MessageFooter := "\n\nProporciona una orientación inicial basada en estos síntomas."

  const OpenAiUrl := "https://api.openai.com/v1/chat/completions"
  const OpenAiModel := "gpt-4o-mini"
  const AnthropicUrl := "https://api.anthropic.com/v1/messages"
  const AnthropicModel := "claude-3-haiku-20240307"
  const AnthropicMaxTokens := 1024

  /** The `symptoms` member of the request body as JavaScript sees it. */
  datatype SymptomsField =
    | Falsy                     // absent, null, "", 0 or false
    | NotArray                  // present and truthy, but not an array
    | Items(items: seq<string>)

  datatype DiagnosisBody = DiagnosisBody(symptoms: SymptomsField, patientType: Option<string>)

  /** The accepted symptom list, or `None` when the route answers 400. */
  function ValidSymptoms(f: SymptomsField): (r: Option<seq<string>>)
    ensures r.Some? <==> f.Items? && f.items != []
    ensures r.Some? ==> r.value == f.items
  {
    match f
    case Items(items) => if items == [] then None else Some(items)
    case _ => None
  }

  datatype Provider = OpenAI | Anthropic

  /** With neither key set there is no provider (the canned answer); otherwise OpenAI wins. */
  function ChooseProvider(env: Env): (r: Option<Provider>)
    ensures r == None <==> !Truthy(env.openAiApiKey) && !Truthy(env.anthropicApiKey)
    ensures r == Some(OpenAI) <==> Truthy(env.openAiApiKey)
    ensures r == Some(Anthropic) <==> !Truthy(env.openAiApiKey) && Truthy(env.anthropicApiKey)
  {
    if !Truthy(env.openAiApiKey) && !Truthy(env.anthropicApiKey) then None
    else if Truthy(env.openAiApiKey) then Some(OpenAI)
    else Some(Anthropic)
  }

  /** One of three fixed sentences; every other patient type reads as a second opinion. */
  function PatientContext(patientType: Option<string>): (r: string)
    ensures r in {NewPatientContext, ExistingPatientContext, SecondOpinionContext}
    ensures r == NewPatientContext <==> patientType == Some("nuevo")
    ensures r == ExistingPatientContext <==> patientType == Some("existente")
  {
    if patientType == Some("nuevo") then NewPatientContext
    else if patientType == Some("existente") then ExistingPatientContext
    else SecondOpinionContext
  }

  /** Each symptom prefixed with `- `, in input order. */
  function Bulleted(symptoms: seq<string>): (r: seq<string>)
    ensures |r| == |symptoms|
    ensures forall i :: 0 <= i < |r| ==> r[i] == "- " + symptoms[i]
  {
    seq(|symptoms|, i requires 0 <= i < |symptoms| => "- " + symptoms[i])
  }

  /** The symptoms as a bullet list, one per line. */
  function SymptomList(symptoms: seq<string>): (r: string)
    ensures symptoms == [] ==> r == ""
    ensures symptoms != [] ==> StartsWith(r, "- " + symptoms[0])
  {
    var lines := Bulleted(symptoms);
    if |lines| <= 1 then Join(lines, "\n")
    else
      assert Join(lines, "\n") == lines[0] + ("\n" + Join(lines[1..], "\n"));
      Join(lines, "\n")
  }

  function UserMessage(patientType: Option<string>, symptoms: seq<string>): (r: string)
    ensures OccursAt(r, PatientContext(patientType), 0)
    ensures OccursAt(r, SymptomList(symptoms), |PatientContext(patientType)| + |SymptomsHeader|)
  {
    var ctx := PatientContext(patientType);
    var list := SymptomList(symptoms);
    var r := ctx + SymptomsHeader + list + MessageFooter;
    assert r[..|ctx|] == ctx;
    assert r[|ctx| + |SymptomsHeader|..|ctx| + |SymptomsHeader| + |list|] == list;
    r
  }

  /** The bullet list reads back line by line as the bulleted symptoms, in order. */
  lemma {:induction false} SymptomListLines(symptoms: seq<string>)
    requires symptoms != []
    requires forall i :: 0 <= i < |symptoms| ==> '\n' !in symptoms[i]
    ensures Split(SymptomList(symptoms), '\n') == Bulleted(symptoms)
  {
    if |symptoms| == 1 {
      assert '\n' !in "- " + symptoms[0];
    } else if |symptoms| > 1 {
      var head := "- " + symptoms[0];
      var tail := symptoms[1..];
      assert Bulleted(symptoms)[1..] == Bulleted(tail);
      assert SymptomList(symptoms) == head + "\n" + SymptomList(tail);
      assert '\n' !in head;
      SplitHead(head, '\n', SymptomList(tail));
      assert Split(SymptomList(symptoms), '\n') == [head] + Split(SymptomList(tail), '\n');
      SymptomListLines(tail);
      assert [head] + Bulleted(tail) == Bulleted(symptoms);
    }
  }

  /** The system prompt both providers receive, line by line. */
  const SystemPromptLines: seq<string> := [
    "Eres un asistente de diagnóstico dental profesional de Clínica Miró. Tu rol es proporcionar orientación inicial basada en los síntomas que reporta el paciente.",
    "",
    "IMPORTANTE:",
    "- Esta es solo una orientación inicial, NO reemplaza una consulta clínica presencial",
    "- Sé empático y profesional",
    "- Usa un lenguaje claro y accesible, evitando jerga médica excesiva",
    "",
    "ESTRUCTURA TU RESPUESTA EXACTAMENTE EN ESTAS 4 SECCIONES con emojis:",
    "",
    "## \U{1F50D} 1. ¿Qué tienes?",
    "Explica de forma clara y empática el posible diagnóstico basado en los síntomas. Usa lenguaje sencillo.",
    "",
    "## ⚠️ 2. ¿Por qué es importante tratarlo?",
    "Explica las consecuencias de no tratar el problema a tiempo. Menciona la urgencia (baja, moderada, alta).",
    "",
    "## \U{1F4A1} 3. Alternativas de tratamiento",
    "Lista las opciones de tratamiento disponibles. Menciona brevemente cada una con sus ventajas.",
    "",
    "## \U{1F4B0} 4. Presupuesto aproximado y financiamiento",
    "Da un rango de precios aproximado en pesos chilenos (CLP). Menciona que Clínica Miró ofrece:",
    "- Evaluación inicial sin costo",
    "- Planes de financiamiento hasta 12 cuotas sin interés",
    "- Convenios con Isapres y Fonasa",
    "",
    "Termina con una frase invitando a agendar una evaluación presencial gratuita.",
    "",
    "Responde SIEMPRE en español chileno."
  ]

  const SystemPrompt := Join(SystemPromptLines, "\n")

  /** What is sent to the chosen provider's API. */
  datatype UpstreamRequest = UpstreamRequest(
    provider: Provider, url: string, apiKey: string, model: string,
    maxTokens: Option<nat>, system: string, userMessage: string)

  function Upstream(provider: Provider, env: Env, userMessage: string): (r: UpstreamRequest)
    requires provider == OpenAI ==> env.openAiApiKey.Some?
    requires provider == Anthropic ==> env.anthropicApiKey.Some?
    ensures r.provider == provider && r.userMessage == userMessage && r.system == SystemPrompt
    ensures provider == OpenAI ==>
      r.url == OpenAiUrl && r.apiKey == env.openAiApiKey.value && r.model == OpenAiModel && r.maxTokens == None
    ensures provider == Anthropic ==>
      r.url == AnthropicUrl && r.apiKey == env.anthropicApiKey.value && r.model == AnthropicModel
      && r.maxTokens == Some(AnthropicMaxTokens)
  {
    match provider
    case OpenAI => UpstreamRequest(OpenAI, OpenAiUrl, env.openAiApiKey.value, OpenAiModel, None, SystemPrompt, userMessage)
    case Anthropic =>
      UpstreamRequest(Anthropic, AnthropicUrl, env.anthropicApiKey.value, AnthropicModel,
                      Some(AnthropicMaxTokens), SystemPrompt, userMessage)
  }

  /** How the provider's `fetch` ended. */
  datatype UpstreamReply = Ok | NotOk | Threw(message: Option<string>)

  /**
   * The JSON codec for one delta chunk: `encode(c)` is
   * `JSON.stringify({choices: [{delta: {content: c}}]})`, and `decode(j)` is `JSON.parse(j)`
   * followed by `choices?.[0]?.delta?.content` (`None` when parsing throws).
   */
  datatype DeltaCodec = DeltaCodec(encode: string -> string, decode: string -> Option<Option<string>>)

  /** A serialised object: it starts with `{`, ends with `}` and has no raw line break. */
  predicate IsObjectText(j: string) {
    |j| >= 2 && j[0] == '{' && j[|j| - 1] == '}' && '\n' !in j
  }

  /** What `JSON.stringify` and `JSON.parse` guarantee and the framing relies on. */
  ghost predicate Sound(codec: DeltaCodec) {
    forall c :: IsObjectText(codec.encode(c)) && codec.decode(codec.encode(c)) == Some(Some(c))
  }

  const DoneFrame := "data: [DONE]\n\n"

  function Frame(codec: DeltaCodec, content: string): string {
    "data: " + codec.encode(content) + "\n\n"
  }

  /** The canned stream: one frame per line of `text`, carrying the line and its newline, then `[DONE]`. */
  function MockFrames(codec: DeltaCodec, text: string): (r: seq<string>)
    ensures |r| == |Split(text, '\n')| + 1
    ensures forall i :: 0 <= i < |r| - 1 ==> r[i] == Frame(codec, Split(text, '\n')[i] + "\n")
    ensures r[|r| - 1] == DoneFrame
  {
    var lines := Split(text, '\n');
    seq(|lines|, i requires 0 <= i < |lines| => Frame(codec, lines[i] + "\n")) + [DoneFrame]
  }

  /** The loop that enqueues the canned stream, frame by frame. */
  method StreamMock(codec: DeltaCodec, text: string) returns (frames: seq<string>)
    ensures frames == MockFrames(codec, text)
  {
    var lines := Split(text, '\n');
    frames := [];
    for k := 0 to |lines|
      invariant |frames| == k
      invariant forall i :: 0 <= i < k ==> frames[i] == Frame(codec, lines[i] + "\n")
    {
      var data := codec.encode(lines[k] + "\n");
      frames := frames + ["data: " + data + "\n\n"];
    }
    frames := frames + [DoneFrame];
  }

  const MockIntro := "## \U{1F50D} 1. ¿Qué tienes?\n\nBasándonos en los síntomas que describes ("

  /** The canned answer after the quoted symptoms, line by line. */
  const MockBodyLines: seq<string> := [
    "), es posible que estés experimentando una condición dental que requiere atención profesional. Los síntomas que mencionas pueden estar relacionados con problemas comunes pero importantes de tratar.",
    "",
    "## ⚠️ 2. ¿Por qué es importante tratarlo?",
    "",
    "La urgencia es **moderada a alta**. Sin tratamiento oportuno, estos síntomas pueden evolucionar y causar:",
    "- Mayor dolor y molestias",
    "- Complicaciones que requieren tratamientos más extensos",
    "- Mayor costo de tratamiento a largo plazo",
    "",
    "## \U{1F4A1} 3. Alternativas de tratamiento",
    "",
    "Dependiendo del diagnóstico confirmado en tu evaluación presencial, las opciones pueden incluir:",
    "- Tratamiento conservador inicial",
    "- Restauraciones dentales estéticas",
    "- Tratamientos especializados según sea necesario",
    "",
    "## \U{1F4B0} 4. Presupuesto aproximado y financiamiento",
    "",
    "El rango de inversión varía entre $50.000 y $500.000 CLP dependiendo del tratamiento necesario.",
    "",
    "En Clínica Miró ofrecemos:",
    "- ✅ Evaluación inicial sin costo",
    "- ✅ Planes de financiamiento hasta 12 cuotas sin interés",
    "- ✅ Convenios con Isapres y Fonasa",
    "",
    "Te invitamos a agendar tu evaluación presencial gratuita para un diagnóstico preciso y un plan de tratamiento personalizado."
  ]

  const MockBody := Join(MockBodyLines, "\n")

  /** The canned answer; it quotes the symptoms joined by `", "` right after the opening words. */
  function MockText(symptoms: seq<string>): (r: string)
    ensures OccursAt(r, Join(symptoms, ", "), |MockIntro|)
  {
    var joined := Join(symptoms, ", ");
    var r := MockIntro + joined + MockBody;
    assert r[|MockIntro|..|MockIntro| + |joined|] == joined;
    r
  }

  datatype Response =
    | ErrorJson(status: int, error: string)
    | MockStream(symptoms: seq<string>)   // the canned stream for these symptoms, framed by StreamMock
    | Relayed(provider: Provider)   // the provider's own event stream, passed through

  /**
   * The route. `body` is the outcome of `request.json()` (the thrown message on failure), and
   * `call` is the provider's `fetch`.
   */
  function Post(body: Result<DiagnosisBody, Option<string>>, env: Env,
                call: UpstreamRequest -> UpstreamReply): (r: Response)
    ensures body.Failure? ==> r == ErrorJson(500, body.error.GetOr(ProcessingError))
    ensures body.Success? && ValidSymptoms(body.value.symptoms) == None ==> r == ErrorJson(400, SymptomsRequired)
    ensures r.MockStream? <==>
      body.Success? && ValidSymptoms(body.value.symptoms).Some? && ChooseProvider(env) == None
    ensures r.MockStream? ==> r.symptoms == body.value.symptoms.items
    ensures r.Relayed? ==> ChooseProvider(env) == Some(r.provider)
  {
    match body
    case Failure(message) => ErrorJson(500, message.GetOr(ProcessingError))
    case Success(DiagnosisBody(field, patientType)) =>
      match ValidSymptoms(field)
      case None => ErrorJson(400, SymptomsRequired)
      case Some(symptoms) =>
        match ChooseProvider(env)
        case None => MockStream(symptoms)
        case Some(provider) =>
          var request := Upstream(provider, env, UserMessage(patientType, symptoms));
          match call(request)
          case Ok => Relayed(provider)
          case NotOk => ErrorJson(500, ProcessingError)
          case Threw(message) => ErrorJson(500, message.GetOr(ProcessingError))
  }

  /** With both keys configured the request goes to OpenAI, carrying the prompt built from the body. */
  lemma OpenAiPreferred(body: DiagnosisBody, env: Env, call: UpstreamRequest -> UpstreamReply)
    requires ValidSymptoms(body.symptoms).Some?
    requires Truthy(env.openAiApiKey) && Truthy(env.anthropicApiKey)
    requires call(Upstream(OpenAI, env, UserMessage(body.patientType, body.symptoms.items))) == Ok
    ensures Post(Success(body), env, call) == Relayed(OpenAI)
  {
  }

  /** A provider answering with a non-2xx status gives the generic 500, whichever provider it is. */
  lemma ProviderFailureIs500(body: DiagnosisBody, env: Env, call: UpstreamRequest -> UpstreamReply)
    requires ValidSymptoms(body.symptoms).Some? && ChooseProvider(env).Some?
    requires forall q :: call(q) == NotOk
    ensures Post(Success(body), env, call) == ErrorJson(500, ProcessingError)
  {
  }
}
