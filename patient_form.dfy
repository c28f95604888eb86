/**
 * The patient intake wizard: four data-entry steps driven by Next and Back,
 * a submit that moves to the confirmation step 5 when the server accepts the
 * intake, and a start-new that restores the empty form. The field updater,
 * the symptoms text sent to the server and the button guards are pure.
 */
module PatientForm {
  import opened Wrappers
  import Text
  import Dashboard

  datatype Field = Name | Email | Phone | Symptoms | UrgencyLevel | VisitType | EstimatedDuration | VisitPurpose

  /** The form state; the two numeric fields hold `parseInt` results, `None` for `NaN`. */
  datatype FormData = FormData(
    name: string,
    email: string,
    phone: string,
    symptoms: string,
    urgencyLevel: Option<int>,
    visitType: string,
    estimatedDuration: Option<int>,
    visitPurpose: string)

  /** What one field holds: text, or a parsed number. */
  datatype FieldValue = TextValue(text: string) | NumberValue(number: Option<int>)

  /** The form a new intake starts from. */
  const DefaultForm := FormData("", "", "", "", Some(5), "follow-up", Some(30), "")

  function FieldOf(form: FormData, f: Field): FieldValue {
    match f
    case Name => TextValue(form.name)
    case Email => TextValue(form.email)
    case Phone => TextValue(form.phone)
    case Symptoms => TextValue(form.symptoms)
    case UrgencyLevel => NumberValue(form.urgencyLevel)
    case VisitType => TextValue(form.visitType)
    case EstimatedDuration => NumberValue(form.estimatedDuration)
    case VisitPurpose => TextValue(form.visitPurpose)
  }

  predicate IsNumeric(f: Field) {
    f == UrgencyLevel || f == EstimatedDuration
  }

  /** The change handler's updater: the named field takes the input's value,
      parsed as an integer for the two numeric fields; no other field changes. */
  function WithField(form: FormData, f: Field, value: string): (r: FormData)
    ensures FieldOf(r, f) == if IsNumeric(f) then NumberValue(Text.ParseInt(value)) else TextValue(value)
    ensures f != Name ==> r.name == form.name
    ensures f != Email ==> r.email == form.email
    ensures f != Phone ==> r.phone == form.phone
    ensures f != Symptoms ==> r.symptoms == form.symptoms
    ensures f != UrgencyLevel ==> r.urgencyLevel == form.urgencyLevel
    ensures f != VisitType ==> r.visitType == form.visitType
    ensures f != EstimatedDuration ==> r.estimatedDuration == form.estimatedDuration
    ensures f != VisitPurpose ==> r.visitPurpose == form.visitPurpose
  {
    match f
    case Name => form.(name := value)
    case Email => form.(email := value)
    case Phone => form.(phone := value)
    case Symptoms => form.(symptoms := value)
    case UrgencyLevel => form.(urgencyLevel := Text.ParseInt(value))
    case VisitType => form.(visitType := value)
    case EstimatedDuration => form.(estimatedDuration := Text.ParseInt(value))
    case VisitPurpose => form.(visitPurpose := value)
  }

  /** A slider that reports the decimal text of a number stores that number. */
  lemma SliderStoresNumber(form: FormData, f: Field, n: int)
    requires IsNumeric(f)
    ensures FieldOf(WithField(form, f, Text.IntToString(n)), f) == NumberValue(Some(n))
  {
    Text.ParseIntRoundTrip(n);
  }

  // ---------------------------------------------------------------------
  // What is sent
  // ---------------------------------------------------------------------

  /** The JSON body of the intake request. */
  datatype Payload = Payload(
    name: string,
    email: string,
    phone: string,
    symptoms: string,
    urgencyLevel: Option<int>,
    visitType: string,
    estimatedDuration: Option<int>)

  /** The symptoms text sent: visit purpose, a space, the symptoms, trimmed. */
  function SymptomsPayload(visitPurpose: string, symptoms: string): (r: string)
    ensures r == [] || (!Text.IsJsWhitespace(r[0]) && !Text.IsJsWhitespace(r[|r| - 1]))
    ensures |r| <= |visitPurpose| + 1 + |symptoms|
  {
    Text.Trim(visitPurpose + " " + symptoms)
  }

  /** Purpose and symptoms without surrounding whitespace are joined by exactly one space. */
  lemma SymptomsPayloadJoins(visitPurpose: string, symptoms: string)
    requires visitPurpose != [] && !Text.IsJsWhitespace(visitPurpose[0])
    requires symptoms != [] && !Text.IsJsWhitespace(symptoms[|symptoms| - 1])
    ensures SymptomsPayload(visitPurpose, symptoms) == visitPurpose + " " + symptoms
  {
    var joined := visitPurpose + " " + symptoms;
    assert joined[0] == visitPurpose[0] && joined[|joined| - 1] == symptoms[|symptoms| - 1];
    Text.TrimOfTrimmed(joined);
  }

  /** With no visit purpose the payload is the trimmed symptoms. */
  lemma SymptomsPayloadWithoutPurpose(symptoms: string)
    ensures SymptomsPayload("", symptoms) == Text.Trim(symptoms)
  {
    assert "" + " " + symptoms == " " + symptoms;
    Text.TrimIgnoresPrefix(" ", symptoms);
  }

  /** With no symptoms the payload is the trimmed visit purpose. */
  lemma SymptomsPayloadWithoutSymptoms(visitPurpose: string)
    ensures SymptomsPayload(visitPurpose, "") == Text.Trim(visitPurpose)
  {
    assert visitPurpose + " " + "" == visitPurpose + " ";
    Text.TrimIgnoresSuffix(visitPurpose, " ");
  }

  /** The intake request body: the contact, urgency, visit type and duration fields
      as held, and purpose and symptoms merged into one trimmed text. */
  function PayloadOf(form: FormData): (r: Payload)
    ensures r.name == form.name && r.email == form.email && r.phone == form.phone
    ensures r.urgencyLevel == form.urgencyLevel && r.visitType == form.visitType
    ensures r.estimatedDuration == form.estimatedDuration
    ensures r.symptoms == SymptomsPayload(form.visitPurpose, form.symptoms)
    ensures form.visitPurpose == "" ==> r.symptoms == Text.Trim(form.symptoms)
  {
    SymptomsPayloadWithoutPurpose(form.symptoms);
    Payload(form.name, form.email, form.phone, SymptomsPayload(form.visitPurpose, form.symptoms),
            form.urgencyLevel, form.visitType, form.estimatedDuration)
  }

  // ---------------------------------------------------------------------
  // Guards and colours
  // ---------------------------------------------------------------------

  /** Step 1's Next button is enabled once name, email and phone are all filled in. */
  predicate ContactEntered(form: FormData) {
    form.name != "" && form.email != "" && form.phone != ""
  }

  /** Step 2's Continue button is enabled once a visit purpose is filled in. */
  predicate PurposeEntered(form: FormData) {
    form.visitPurpose != ""
  }

  /** Step 4's Submit button is enabled while nothing is in flight and no result is held. */
  predicate SubmitEnabled<R>(submitting: bool, result: Option<R>) {
    !submitting && result.None?
  }

  /** Both entry guards start disabled on the default form. */
  lemma GuardsStartDisabled()
    ensures !ContactEntered(DefaultForm) && !PurposeEntered(DefaultForm)
  {
  }

  /** Typing a non-empty name, email and phone enables step 1's Next button, and
      editing any other field leaves both guards as they were. */
  lemma GuardsFollowTheirFields(form: FormData, f: Field, value: string, n: string, e: string, p: string)
    requires n != "" && e != "" && p != ""
    ensures ContactEntered(WithField(WithField(WithField(form, Name, n), Email, e), Phone, p))
    ensures f !in {Name, Email, Phone} ==> ContactEntered(WithField(form, f, value)) == ContactEntered(form)
    ensures f != VisitPurpose ==> PurposeEntered(WithField(form, f, value)) == PurposeEntered(form)
    ensures PurposeEntered(WithField(form, VisitPurpose, value)) <==> value != ""
  {
  }

  /** The form's urgency colour: a number gets the dashboard's colour; `NaN`
      fails both comparisons and shows red. */
  function FormUrgencyColor(level: Option<int>): (c: string)
    ensures level.None? ==> c == Dashboard.Red
    ensures level.Some? ==> (c == Dashboard.Green <==> level.value <= 3)
    ensures level.Some? ==> (c == Dashboard.Yellow <==> 3 < level.value <= 7)
    ensures level.Some? ==> (c == Dashboard.Red <==> level.value > 7)
  {
    match level
    case None => Dashboard.Red
    case Some(v) => Dashboard.UrgencyColor(v)
  }

  // ---------------------------------------------------------------------
  // Steps
  // ---------------------------------------------------------------------

  function NextStep(step: int): int {
    if step < 4 then step + 1 else step
  }

  function BackStep(step: int): int {
    if step > 1 then step - 1 else step
  }

  datatype Move = Forward | Backward

  /** The step reached after pressing Next and Back in the given order. */
  function Navigate(step: int, moves: seq<Move>): int
    decreases |moves|
  {
    if moves == [] then step
    else Navigate(if moves[0] == Forward then NextStep(step) else BackStep(step), moves[1..])
  }

  /** Next and Back alone never leave steps 1..4: only a submit reaches step 5. */
  lemma {:induction false} NavigationStaysInForm(step: int, moves: seq<Move>)
    requires 1 <= step <= 4
    ensures 1 <= Navigate(step, moves) <= 4
    decreases |moves|
  {
    if moves != [] {
      NavigationStaysInForm(if moves[0] == Forward then NextStep(step) else BackStep(step), moves[1..]);
    }
  }

  /** Enough presses of Next reach the review step 4 from any data-entry step, and stay there. */
  lemma {:induction false} ForwardReachesReview(step: int, moves: seq<Move>)
    requires 1 <= step <= 4 && |moves| >= 4 - step
    requires forall i :: 0 <= i < |moves| ==> moves[i] == Forward
    ensures Navigate(step, moves) == 4
    decreases |moves|
  {
    if moves != [] {
      ForwardReachesReview(NextStep(step), moves[1..]);
    }
  }

  /** After the slider reports the decimal text of a level, the form shows the
      dashboard's colour for that level. */
  lemma SliderColour(form: FormData, n: int)
    ensures FormUrgencyColor(WithField(form, UrgencyLevel, Text.IntToString(n)).urgencyLevel)
            == Dashboard.UrgencyColor(n)
  {
    Text.ParseIntRoundTrip(n);
  }

  /** Submit is disabled while a request is in flight and once a result is held. */
  lemma SubmitGuard<R>(submitting: bool, result: Option<R>)
    ensures submitting ==> !SubmitEnabled(submitting, result)
    ensures result.Some? ==> !SubmitEnabled(submitting, result)
    ensures !submitting && result.None? ==> SubmitEnabled(submitting, result)
  {
  }

  // ---------------------------------------------------------------------
  // The wizard
  // ---------------------------------------------------------------------

  /** A server answer body: its `error` member, if any, and the rest kept as text. */
  datatype ResponseBody = ResponseBody(error: Option<string>, json: string)

  /** How the request ended: a thrown error, or a response with its `ok` flag and body. */
  datatype ServerReply = Thrown(message: string) | Response(ok: bool, body: ResponseBody)

  /** The message a failed submit shows: the thrown error's, else the body's
      non-empty `error`, else a fixed fallback. */
  function FailureMessage(reply: ServerReply): (r: string)
    ensures reply.Thrown? ==> r == reply.message
    ensures reply.Response? && reply.body.error.Some? && reply.body.error.value != "" ==> r == reply.body.error.value
    ensures reply.Response? && (reply.body.error.None? || reply.body.error.value == "") ==> r == "Failed to submit"
    ensures reply.Response? ==> r != ""
  {
    match reply
    case Thrown(m) => m
    case Response(_, body) =>
      if body.error.Some? && body.error.value != "" then body.error.value else "Failed to submit"
  }

  class Wizard {
    var step: int
    var formData: FormData
    var submitting: bool
    var result: Option<ResponseBody>
    var error: Option<string>

    ghost predicate Valid()
      reads this
    {
      1 <= step <= 5
    }

    constructor ()
      ensures Valid()
      ensures step == 1 && formData == DefaultForm && !submitting && result.None? && error.None?
    {
      step := 1;
      formData := DefaultForm;
      submitting := false;
      result := None;
      error := None;
    }

    /** An input changed: only that field of the form changes. */
    method HandleChange(f: Field, value: string)
      modifies this`formData
      ensures formData == WithField(old(formData), f, value)
    {
      formData := WithField(formData, f, value);
    }

    /** Next: one step forward below step 4, otherwise nothing. */
    method HandleNext()
      requires Valid()
      modifies this`step
      ensures Valid()
      ensures step == NextStep(old(step))
      ensures old(step) < 4 ==> step == old(step) + 1
      ensures old(step) >= 4 ==> step == old(step)
    {
      if step < 4 {
        step := step + 1;
      }
    }

    /** Back: one step back above step 1, otherwise nothing. */
    method HandleBack()
      requires Valid()
      modifies this`step
      ensures Valid()
      ensures step == BackStep(old(step))
      ensures old(step) > 1 ==> step == old(step) - 1
      ensures old(step) <= 1 ==> step == old(step)
    {
      if step > 1 {
        step := step - 1;
      }
    }

    /**
     * Submit: sends the payload built from the form; an accepted response is
     * stored and moves to step 5, anything else stores its message and stays
     * on the current step. Nothing is in flight afterwards.
     */
    method HandleSubmit(reply: ServerReply) returns (sent: Payload)
      requires Valid()
      modifies this`submitting, this`error, this`result, this`step
      ensures Valid()
      ensures sent == PayloadOf(formData) && !submitting
      ensures reply.Response? && reply.ok ==> step == 5 && result == Some(reply.body) && error.None?
      ensures reply.Response? && reply.ok ==> !SubmitEnabled(submitting, result)
      ensures !(reply.Response? && reply.ok) ==>
                step == old(step) && result.None? && error == Some(FailureMessage(reply))
    {
      submitting := true;
      error := None;
      result := None;
      sent := PayloadOf(formData);
      if reply.Response? && reply.ok {
        result := Some(reply.body);
        step := 5;
      } else {
        error := Some(FailureMessage(reply));
      }
      submitting := false;
    }

    /** Start new: back to step 1 with an empty form and no result or error. */
    method HandleStartNew()
      modifies this`step, this`result, this`error, this`formData
      ensures Valid()
      ensures step == 1 && result.None? && error.None? && formData == DefaultForm
      ensures !submitting ==> SubmitEnabled(submitting, result)
    {
      step := 1;
      result := None;
      error := None;
      formData := DefaultForm;
    }
  }
}
