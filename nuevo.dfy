/**
 * The new-patient wizard (`/nuevo`): the suggested specialty, the form checks, and the step
 * state that `next()`, "Atrás" and `submit()` move.
 */
module NuevoPage {
  import opened Wrappers
  import opened Strings
  import Rut

  // ---------------------------------------------------------------------------------------------
  // The form

  /** The pain levels the triage offers ("no", "leve", "moderado", "fuerte"). */
  datatype Dolor = No | Leve | Moderado | Fuerte

  /** The urgency levels ("normal", "24h", "48h"). */
  datatype Urgencia = Normal | Within24h | Within48h

  datatype Basic = Basic(nombre: string, apellidos: string, rut: string, celular: string, email: string)

  datatype Questionnaire = Questionnaire(motivo: string, dolor: Dolor, sangrado: bool, urgencia: Urgencia)

  const EmptyBasic := Basic("", "", "", "", "")
  const EmptyQuestionnaire := Questionnaire("", No, false, Normal)

  /** Severe pain or a 24-hour urgency. */
  predicate Urgent(q: Questionnaire) {
    q.dolor == Fuerte || q.urgencia == Within24h
  }

  predicate MentionsImplant(q: Questionnaire) {
    Contains(ToLower(q.motivo), "implante")
  }

  predicate MentionsOrthodontics(q: Questionnaire) {
    Contains(ToLower(q.motivo), "ortodon")
  }

  /** `derivedSpecialty`: the first rule that applies, urgency first and evaluation last. */
  function DerivedSpecialty(q: Questionnaire): (r: string)
    ensures r in ["Urgencia", "Implantología", "Ortodoncia", "Periodoncia", "Evaluación"]
    ensures r == "Urgencia" <==> Urgent(q)
    ensures r == "Implantología" <==> !Urgent(q) && MentionsImplant(q)
    ensures r == "Ortodoncia" <==> !Urgent(q) && !MentionsImplant(q) && MentionsOrthodontics(q)
    ensures r == "Periodoncia" <==> !Urgent(q) && !MentionsImplant(q) && !MentionsOrthodontics(q) && q.sangrado
  {
    if Urgent(q) then "Urgencia"
    else if MentionsImplant(q) then "Implantología"
    else if MentionsOrthodontics(q) then "Ortodoncia"
    else if q.sangrado then "Periodoncia"
    else "Evaluación"
  }

  /** The reason for the visit is read without regard to ASCII case. */
  lemma SpecialtyIgnoresCase(q: Questionnaire, motivo: string)
    requires ToLower(motivo) == ToLower(q.motivo)
    ensures DerivedSpecialty(q.(motivo := motivo)) == DerivedSpecialty(q)
  {
  }

  /** An urgent case is sent to the emergency service whatever the patient wrote or reported. */
  lemma UrgencyOverrides(q: Questionnaire, motivo: string, sangrado: bool)
    requires Urgent(q)
    ensures DerivedSpecialty(q.(motivo := motivo, sangrado := sangrado)) == "Urgencia"
  {
  }

  /** The form's fields, as the schemas name them. */
  datatype Field = Nombre | Apellidos | RutField | Celular | Email | Motivo

  /**
   * The library checks the form relies on: `normalizeRut` and `isValidRut` (module `Rut`) and
   * zod's e-mail check, which is not part of this model.
   */
  datatype Validators = Validators(normalizeRut: string -> string, isValidRut: string -> bool, isEmail: string -> bool)

  /** The page's validators, with the e-mail check left open. */
  function PageValidators(isEmail: string -> bool): Validators {
    Validators(Rut.NormalizeRut, Rut.IsValidRut, isEmail)
  }

  /** The fields whose check failed, given the five verdicts in the schema's order. */
  function FailedFields(nombre: bool, apellidos: bool, rut: bool, celular: bool, email: bool): (r: set<Field>)
    ensures Nombre in r <==> !nombre
    ensures Apellidos in r <==> !apellidos
    ensures RutField in r <==> !rut
    ensures Celular in r <==> !celular
    ensures Email in r <==> !email
    ensures Motivo !in r
    ensures r == {} <==> nombre && apellidos && rut && celular && email
  {
    var r := (if nombre then {} else {Nombre}) + (if apellidos then {} else {Apellidos})
      + (if rut then {} else {RutField}) + (if celular then {} else {Celular}) + (if email then {} else {Email});
    assert !nombre ==> Nombre in r;
    assert !apellidos ==> Apellidos in r;
    assert !rut ==> RutField in r;
    assert !celular ==> Celular in r;
    assert !email ==> Email in r;
    r
  }

  /** `BasicSchema`: the fields whose check fails, the RUT being normalised first. */
  function BasicIssues(b: Basic, v: Validators): (r: set<Field>)
    ensures Nombre in r <==> Utf16Length(b.nombre) < 2
    ensures Apellidos in r <==> Utf16Length(b.apellidos) < 2
    ensures RutField in r <==> !v.isValidRut(v.normalizeRut(b.rut))
    ensures Celular in r <==> Utf16Length(b.celular) < 8
    ensures Email in r <==> b.email != "" && !v.isEmail(b.email)
    ensures Motivo !in r
  {
    FailedFields(Utf16Length(b.nombre) >= 2, Utf16Length(b.apellidos) >= 2, v.isValidRut(v.normalizeRut(b.rut)),
                 Utf16Length(b.celular) >= 8, b.email == "" || v.isEmail(b.email))
  }

  /** The form passes `BasicSchema` exactly when every one of its five checks holds. */
  lemma BasicIssuesEmptyIff(b: Basic, isEmail: string -> bool)
    ensures var v := PageValidators(isEmail);
      BasicIssues(b, v) == {} <==>
      && Utf16Length(b.nombre) >= 2 && Utf16Length(b.apellidos) >= 2
      && Rut.IsValidRut(Rut.NormalizeRut(b.rut)) && Utf16Length(b.celular) >= 8
      && (b.email == "" || v.isEmail(b.email))
  {
  }

  /** An empty e-mail is accepted; any other must pass the e-mail check. */
  lemma EmailOptional(b: Basic, v: Validators)
    ensures Email in BasicIssues(b, v) <==> b.email != "" && !v.isEmail(b.email)
  {
  }

  /** The RUT is judged in its normalised form. */
  lemma RutJudgedNormalized(b: Basic, isEmail: string -> bool)
    ensures RutField in BasicIssues(b, PageValidators(isEmail)) <==> !Rut.IsValidRut(Rut.NormalizeRut(b.rut))
  {
  }

  /** `QuestionnaireSchema`: only the reason can fail, the selects offering just the allowed values. */
  function QuestionnaireIssues(q: Questionnaire): (r: set<Field>)
    ensures r == {} <==> Utf16Length(q.motivo) >= 3
    ensures r != {} ==> r == {Motivo}
  {
    if Utf16Length(q.motivo) >= 3 then {} else {Motivo}
  }

  // ---------------------------------------------------------------------------------------------
  // Steps

  /** `steps.length - 1`: the confirmation step. */
  const LastStep := 3

  /** `Math.min(s + 1, steps.length - 1)`. */
  function Advance(step: int): (r: int)
    ensures r <= step + 1 && r <= LastStep
    ensures step < LastStep ==> r == step + 1
  {
    if step + 1 < LastStep then step + 1 else LastStep
  }

  /** `Math.max(0, s - 1)`. */
  function Back(step: int): (r: int)
    ensures r >= 0 && r >= step - 1
    ensures step > 0 ==> r == step - 1
  {
    if step - 1 > 0 then step - 1 else 0
  }

  datatype Refusal = InvalidFields(fields: set<Field>) | ConsentRequired

  const ConsentMessage := "Debes aceptar el consentimiento informado"

  /** What `next()` checks before it advances from `step`. */
  function NextCheck(step: int, b: Basic, q: Questionnaire, consent: bool, v: Validators)
    : (r: Option<Refusal>)
    ensures step == 0 ==> (r == None <==> BasicIssues(b, v) == {})
    ensures step == 1 ==> (r == None <==> QuestionnaireIssues(q) == {})
    ensures step == 2 ==> (r == None <==> consent) && (r.Some? ==> r.value == ConsentRequired)
    ensures step !in {0, 1, 2} ==> r == None
  {
    if step == 0 && BasicIssues(b, v) != {} then Some(InvalidFields(BasicIssues(b, v)))
    else if step == 1 && QuestionnaireIssues(q) != {} then Some(InvalidFields(QuestionnaireIssues(q)))
    else if step == 2 && !consent then Some(ConsentRequired)
    else None
  }

  /**
   * The form `next()` keeps after its check passes at `step`: at the first step the parsed
   * fields with the RUT normalised once more, otherwise the form as it was.
   */
  function Accepted(step: int, b: Basic, v: Validators): Basic {
    if step == 0 then
      var parsed := Parsed(b, v);
      parsed.(rut := v.normalizeRut(parsed.rut))
    else b
  }

  /** What `BasicSchema.parse` returns for the form with its RUT normalised: the same fields. */
  function Parsed(b: Basic, v: Validators): Basic {
    b.(rut := v.normalizeRut(b.rut))
  }

  /** Normalising twice is normalising once: the first step keeps the RUT in normal form. */
  lemma AcceptedNormalizesRut(step: int, b: Basic, isEmail: string -> bool)
    ensures var v := PageValidators(isEmail);
      step == 0 ==> Accepted(step, b, v) == Parsed(b, v) && Rut.Normalized(Accepted(step, b, v).rut)
    ensures step != 0 ==> Accepted(step, b, PageValidators(isEmail)) == b
  {
    Rut.NormalizeIdempotent(b.rut);
  }

  /** "Continuar" is shown before the attachments step only; "Enviar y continuar" on it. */
  predicate NextShown(step: int) {
    step < 2
  }

  predicate SubmitShown(step: int) {
    step == 2
  }

  /** None of the controls the page shows ever runs the consent check. */
  lemma ShownControlsNeverAskConsent(step: int, b: Basic, q: Questionnaire, consent: bool, v: Validators)
    requires NextShown(step)
    ensures NextCheck(step, b, q, consent, v) != Some(ConsentRequired)
  {
  }

  // ---------------------------------------------------------------------------------------------
  // Submitting

  /** The metadata kept of an attached photo. */
  datatype Attachment = Attachment(name: string, mediaType: string, size: nat)

  /** The body posted to `/api/dentalink/pacientes`. */
  datatype NewPatient = NewPatient(
    basic: Basic, triage: Questionnaire, specialty: string, consent: bool, attachments: seq<Attachment>)

  /** The outcome of the post: a thrown error (network, or a body that is not JSON), or the reply. */
  datatype Reply =
    | Threw(error: string)
    | Answered(ok: bool, message: Option<string>, patientId: Option<string>)

  const CreateFailed := "No fue posible crear la ficha"

  /** What `submit()` posts, or the fields that stop it before the request. */
  function SubmitRequest(b: Basic, q: Questionnaire, consent: bool, files: seq<Attachment>, v: Validators)
    : (r: Result<NewPatient, set<Field>>)
    ensures r.Failure? <==> BasicIssues(b, v) != {} || QuestionnaireIssues(q) != {}
    ensures r.Failure? && BasicIssues(b, v) != {} ==> r.error == BasicIssues(b, v)
    ensures r.Success? ==>
      && r.value.basic == Parsed(b, v) && r.value.triage == q
      && r.value.specialty == DerivedSpecialty(q) && r.value.consent == consent
      && r.value.attachments == files
  {
    if BasicIssues(b, v) != {} then Failure(BasicIssues(b, v))
    else if QuestionnaireIssues(q) != {} then Failure(QuestionnaireIssues(q))
    else Success(NewPatient(Parsed(b, v), q, DerivedSpecialty(q), consent, files))
  }

  /** What `submit()` ends with: the toast's failure, or the created record's id. */
  datatype SubmitResult = SubmitResult(failure: Option<Result<string, set<Field>>>, created: Option<string>)

  /**
   * The outcome of `submit()` for `request`: the form's failing fields, a thrown error's
   * message, the reply's message (or the stock one) when it is not ok, or the created id.
   */
  function SubmitOutcome(request: Result<NewPatient, set<Field>>, post: NewPatient -> Reply): (r: SubmitResult)
    ensures r.created.Some? <==> r.failure == None
    ensures r.created.Some? <==> request.Success? && post(request.value).Answered? && post(request.value).ok
    ensures request.Failure? ==> r.failure == Some(Failure(request.error))
    ensures request.Success? && post(request.value).Threw? ==> r.failure == Some(Success(post(request.value).error))
    ensures request.Success? && post(request.value).Answered? ==>
      var reply := post(request.value);
      && (!reply.ok ==> r.failure == Some(Success(reply.message.GetOr(CreateFailed))))
      && (reply.ok ==> r.created == Some(reply.patientId.GetOr("")))
  {
    if request.Failure? then SubmitResult(Some(Failure(request.error)), None)
    else
      var reply := post(request.value);
      if reply.Threw? then SubmitResult(Some(Success(reply.error)), None)
      else if !reply.ok then SubmitResult(Some(Success(reply.message.GetOr(CreateFailed))), None)
      else SubmitResult(None, Some(reply.patientId.GetOr("")))
  }

  /** A well-filled form is posted even when the consent box is unticked. */
  lemma UnconsentedRequestSent(b: Basic, q: Questionnaire, files: seq<Attachment>, v: Validators)
    requires BasicIssues(b, v) == {} && QuestionnaireIssues(q) == {}
    ensures SubmitRequest(b, q, false, files, v).Success?
    ensures !SubmitRequest(b, q, false, files, v).value.consent
  {
  }

  /** The request with the consent check `next()` makes at the attachments step put back. */
  function ConsentedSubmitRequest(b: Basic, q: Questionnaire, consent: bool, files: seq<Attachment>,
                                  v: Validators): (r: Result<NewPatient, Refusal>)
    ensures r.Success? <==> consent && SubmitRequest(b, q, consent, files, v).Success?
    ensures r.Success? ==> r.value == SubmitRequest(b, q, consent, files, v).value
    ensures !consent ==> r == Failure(ConsentRequired)
  {
    if !consent then Failure(ConsentRequired)
    else match SubmitRequest(b, q, consent, files, v)
      case Failure(fields) => Failure(InvalidFields(fields))
      case Success(p) => Success(p)
  }

  /** Every request the corrected submit sends carries the patient's consent. */
  lemma SentRequestsConsented(b: Basic, q: Questionnaire, consent: bool, files: seq<Attachment>,
                              v: Validators)
    requires ConsentedSubmitRequest(b, q, consent, files, v).Success?
    ensures consent && ConsentedSubmitRequest(b, q, consent, files, v).value.consent
  {
  }

  // ---------------------------------------------------------------------------------------------
  // The page state

  /** The wizard's React state, updated in place by its handlers. */
  class Wizard {
    var step: int
    var basic: Basic
    var q: Questionnaire
    var consent: bool
    var files: seq<Attachment>
    var loading: bool
    var created: Option<string>

    predicate Valid()
      reads this
    {
      0 <= step <= LastStep
    }

    constructor ()
      ensures Valid() && step == 0 && basic == EmptyBasic && q == EmptyQuestionnaire
      ensures !consent && files == [] && !loading && created == None
    {
      step := 0;
      basic := EmptyBasic;
      q := EmptyQuestionnaire;
      consent := false;
      files := [];
      loading := false;
      created := None;
    }

    /**
     * `next()`: run the current step's check; on success advance one step (never past the
     * confirmation) and, at the first step, keep the normalised RUT. A refusal changes nothing.
     */
    method Next(v: Validators) returns (refusal: Option<Refusal>)
      requires Valid()
      modifies this
      ensures Valid()
      ensures refusal == NextCheck(old(step), old(basic), old(q), old(consent), v)
      ensures refusal.Some? ==> step == old(step) && basic == old(basic)
      ensures refusal == None ==> step == Advance(old(step))
      ensures refusal == None ==> basic == Accepted(old(step), old(basic), v)
      ensures q == old(q) && consent == old(consent) && files == old(files)
      ensures loading == old(loading) && created == old(created)
    {
      refusal := NextCheck(step, basic, q, consent, v);
      if refusal.Some? {
        return;
      }
      basic := Accepted(step, basic, v);
      step := Advance(step);
    }

    /** "Atrás": one step back, never below the first. */
    method GoBack()
      requires Valid()
      modifies this
      ensures Valid() && step == Back(old(step))
      ensures basic == old(basic) && q == old(q) && consent == old(consent) && files == old(files)
      ensures loading == old(loading) && created == old(created)
    {
      step := Back(step);
    }

    /**
     * `submit()` with the post's outcome given by `post`: a failure leaves the step where it
     * was and gives the toast's message; a created record is kept and the wizard moves to the
     * confirmation.
     */
    method Submit(v: Validators, post: NewPatient -> Reply) returns (failure: Option<Result<string, set<Field>>>)
      requires Valid()
      modifies this
      ensures Valid() && !loading
      ensures var o := SubmitOutcome(SubmitRequest(old(basic), old(q), old(consent), old(files), v), post);
        && failure == o.failure
        && (o.created.Some? ==> step == LastStep && created == o.created)
        && (o.created == None ==> step == old(step) && created == old(created))
      ensures basic == old(basic) && q == old(q) && consent == old(consent) && files == old(files)
    {
      loading := true;
      var o := SubmitOutcome(SubmitRequest(basic, q, consent, files, v), post);
      failure := o.failure;
      if o.created.Some? {
        created := o.created;
        step := LastStep;
      }
      loading := false;
    }
  }
}
