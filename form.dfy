/**
 * The submission form: five mood options, the optional name and email, the
 * consent box, and the guards `handleSubmit` applies before sending.
 */
module SubmissionForm {

  import opened Wrappers
  import opened Moods
  import opened Schema
  import opened Routes

  /** A selectable option; its emoji and styling are presentation only. */
  datatype MoodOption = MoodOption(id: string, caption: string)

  const MoodOptions: seq<MoodOption> := [
    MoodOption(SuperHappy, "Super Happy"),
    MoodOption(Happy, "Happy"),
    MoodOption(Neutral, "Neutral"),
    MoodOption(Anxious, "Anxious"),
    MoodOption(Sad, "Sad")
  ]

  lemma OptionsAreTheFiveMoods()
    ensures |MoodOptions| == |KnownMoods| == 5
    ensures forall i :: 0 <= i < |MoodOptions| ==> MoodOptions[i].id == KnownMoods[i]
  {
  }

  /** The object the mutation posts; an absent name or email is left out of the JSON. */
  datatype SubmitPayload = SubmitPayload(mood: string, name: Option<string>, email: Option<string>, consent: bool)

  /** What pressing submit does: one of the two error toasts, or one request. */
  datatype SubmitOutcome =
    | SelectMoodFirst      // "Please select a mood"
    | ConsentRequired      // "Consent required"
    | Send(payload: SubmitPayload)

  /** `value || undefined`. */
  function EmptyAsAbsent(s: string): (r: Option<string>)
    ensures r.None? <==> s == ""
    ensures r.Some? ==> r.value == s
  {
    if s == "" then None else Some(s)
  }

  /** The JSON body `JSON.stringify` makes of a payload: absent keys are omitted. */
  function PayloadBody(p: SubmitPayload): JsonValue {
    var fields := map["mood" := JString(p.mood), "consent" := JBool(p.consent)];
    var withName := if p.name.Some? then fields["name" := JString(p.name.value)] else fields;
    JObject(if p.email.Some? then withName["email" := JString(p.email.value)] else withName)
  }

  /** Every payload the form can send passes the server's insert schema unchanged. */
  lemma PayloadAccepted(p: SubmitPayload)
    ensures ParseInsert(PayloadBody(p)) == Success(InsertMoodSubmission(p.mood, p.name, p.email, Some(p.consent)))
  {
    var body := PayloadBody(p);
    assert Field(body, "mood") == Some(JString(p.mood));
    assert Field(body, "consent") == Some(JBool(p.consent));
    assert Field(body, "name") == if p.name.Some? then Some(JString(p.name.value)) else None;
    assert Field(body, "email") == if p.email.Some? then Some(JString(p.email.value)) else None;
  }

  class MoodSubmissionFormState {
    var selectedMood: string
    var name: string
    var email: string
    var consent: bool
    var showSuccess: bool

    /** Only an option's id can be selected. */
    ghost predicate Valid()
      reads this
    {
      selectedMood == "" || IsKnownMood(selectedMood)
    }

    predicate IsInitial()
      reads this
    {
      selectedMood == "" && name == "" && email == "" && !consent && !showSuccess
    }

    constructor ()
      ensures Valid() && IsInitial()
    {
      selectedMood, name, email, consent, showSuccess := "", "", "", false, false;
    }

    /** Clicking option `index` selects its id and changes nothing else. */
    method SelectMood(index: nat)
      requires index < |MoodOptions|
      modifies this`selectedMood
      ensures Valid()
      ensures selectedMood == MoodOptions[index].id
    {
      selectedMood := MoodOptions[index].id;
    }

    method SetName(value: string)
      modifies this`name
      ensures name == value
    {
      name := value;
    }

    method SetEmail(value: string)
      modifies this`email
      ensures email == value
    {
      email := value;
    }

    method SetConsent(checked: bool)
      modifies this`consent
      ensures consent == checked
    {
      consent := checked;
    }

    /**
     * handleSubmit: no mood selected is refused first, whatever the consent;
     * then missing consent; otherwise exactly one request carries the selected
     * mood, consent true, and name and email only when non-empty.
     */
    method HandleSubmit() returns (outcome: SubmitOutcome)
      requires Valid()
      ensures outcome.Send? ==> IsKnownMood(outcome.payload.mood)
      ensures selectedMood == "" <==> outcome == SelectMoodFirst
      ensures outcome == ConsentRequired <==> selectedMood != "" && !consent
      ensures outcome.Send? <==> selectedMood != "" && consent
      ensures outcome.Send? ==>
        && outcome.payload.mood == selectedMood
        && outcome.payload.consent
        && outcome.payload.name == EmptyAsAbsent(name)
        && outcome.payload.email == EmptyAsAbsent(email)
    {
      if selectedMood == "" {
        return SelectMoodFirst;
      }
      if !consent {
        return ConsentRequired;
      }
      outcome := Send(SubmitPayload(selectedMood, EmptyAsAbsent(name), EmptyAsAbsent(email), consent));
    }

    /** The mutation's success: the message is shown. */
    method OnSubmitSuccess()
      modifies this`showSuccess
      ensures showSuccess
    {
      showSuccess := true;
    }

    /** The reset one second after success: every input back to its initial value. */
    method ResetInputs()
      modifies this`selectedMood, this`name, this`email, this`consent
      ensures Valid()
      ensures selectedMood == "" && name == "" && email == "" && !consent
    {
      selectedMood, name, email, consent := "", "", "", false;
    }

    /** Three seconds after success the message is hidden. */
    method HideSuccess()
      modifies this`showSuccess
      ensures !showSuccess
    {
      showSuccess := false;
    }
  }

  /**
   * One press of submit followed by the mutation's response and both timers:
   * after a sent request that succeeds the form is back in its initial state;
   * a refused submit or a failed request leaves every input as it was.
   */
  method SubmitCycle(form: MoodSubmissionFormState, requestSucceeds: bool) returns (outcome: SubmitOutcome)
    requires form.Valid()
    modifies form
    ensures form.Valid()
    ensures outcome == SelectMoodFirst <==> old(form.selectedMood) == ""
    ensures outcome == ConsentRequired <==> old(form.selectedMood) != "" && !old(form.consent)
    ensures outcome.Send? <==> old(form.selectedMood) != "" && old(form.consent)
    ensures outcome.Send? ==>
      outcome.payload == SubmitPayload(old(form.selectedMood), EmptyAsAbsent(old(form.name)), EmptyAsAbsent(old(form.email)), true)
    ensures outcome.Send? && requestSucceeds ==> form.IsInitial()
    ensures !(outcome.Send? && requestSucceeds) ==>
      && form.selectedMood == old(form.selectedMood) && form.name == old(form.name)
      && form.email == old(form.email) && form.consent == old(form.consent)
      && form.showSuccess == old(form.showSuccess)
  {
    outcome := form.HandleSubmit();
    if outcome.Send? && requestSucceeds {
      form.OnSubmitSuccess();
      form.ResetInputs();
      form.HideSuccess();
    }
  }
}
