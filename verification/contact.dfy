/**
 * The contact form (src/components/Contact.jsx): field-wise form updates, the submission
 * status machine, the disabled submit button, the status reset timers, and the rule that
 * hides the phone and address rows while their translations are missing.
 */
module Contact {
  import I18n

  /** `formStatus`: `''`, `'sending'`, `'success'`, `'error'`. */
  datatype Status = Idle | Sending | Success | Error

  /** How the relay request ended: an OK response, a non-OK response, or a thrown error. */
  datatype Outcome = Ok | NotOk | Thrown

  /** The form data after mounting and after a successful submission. */
  const EmptyForm: map<string, string> := map["name" := "", "email" := "", "message" := ""]

  /** Translation keys of the optional contact rows. */
  const PhoneKey := "contact_phone_value"
  const AddressKey := "contact_address_value"

  datatype ContactState = ContactState(
    form: map<string, string>,
    status: Status,
    inFlight: nat,       // requests issued whose response has not been handled yet
    pendingResets: nat)  // reset timers armed and not yet fired

  /** The submit button's `disabled` attribute. */
  predicate SubmitDisabled(status: Status)
  {
    status == Sending
  }

  /** `handleChange`: the field named by the event target takes the new value. */
  function Changed(s: ContactState, field: string, value: string): ContactState
  {
    s.(form := s.form[field := value])
  }

  /** `handleSubmit` up to the request: status `'sending'`, and one more request in flight. */
  function Submitted(s: ContactState): ContactState
  {
    s.(status := Sending, inFlight := s.inFlight + 1)
  }

  /** A press of the submit button: a disabled button submits nothing. */
  function Pressed(s: ContactState): ContactState
  {
    if SubmitDisabled(s.status) then s else Submitted(s)
  }

  /** `handleSubmit` after the request settles; each outcome arms one reset timer. */
  function Responded(s: ContactState, outcome: Outcome): ContactState
    requires s.inFlight > 0
  {
    match outcome
    case Ok => s.(status := Success, form := EmptyForm, inFlight := s.inFlight - 1, pendingResets := s.pendingResets + 1)
    case _ => s.(status := Error, inFlight := s.inFlight - 1, pendingResets := s.pendingResets + 1)
  }

  /** One armed timer fires and resets the status, whatever it is by then. */
  function ResetFired(s: ContactState): ContactState
    requires s.pendingResets > 0
  {
    s.(status := Idle, pendingResets := s.pendingResets - 1)
  }

  /** A row is shown only when its key is set and its translation is not the key itself. */
  function ShowDetailRow(t: map<string, string>, key: string): (shown: bool)
    ensures shown <==> key != "" && key in t && t[key] != key
  {
    key != "" && I18n.Translate(t, key) != key
  }

  datatype ContactEvent = Change(field: string, value: string) | Press | Response(outcome: Outcome) | TimerFires

  /** A response can only arrive for a request in flight, and a timer fire only for an armed timer. */
  predicate Possible(s: ContactState, e: ContactEvent)
  {
    match e
    case Response(_) => s.inFlight > 0
    case TimerFires => s.pendingResets > 0
    case _ => true
  }

  function Step(s: ContactState, e: ContactEvent): ContactState
    requires Possible(s, e)
  {
    match e
    case Change(f, v) => Changed(s, f, v)
    case Press => Pressed(s)
    case Response(o) => Responded(s, o)
    case TimerFires => ResetFired(s)
  }

  /** Whether every event of `events` can happen in turn from `s`. */
  predicate PossibleRun(s: ContactState, events: seq<ContactEvent>)
    decreases |events|
  {
    events == [] || (Possible(s, events[0]) && PossibleRun(Step(s, events[0]), events[1..]))
  }

  function Run(s: ContactState, events: seq<ContactEvent>): ContactState
    requires PossibleRun(s, events)
    decreases |events|
  {
    if events == [] then s else Run(Step(s, events[0]), events[1..])
  }

  /**
   * What every reachable state satisfies: while sending, a request is in flight; while a
   * terminal status shows, a reset is armed.
   */
  predicate WellFormed(s: ContactState)
  {
    && (s.status == Sending ==> s.inFlight > 0)
    && (s.status in {Success, Error} ==> s.pendingResets > 0)
  }

  /** The state after mounting. */
  const Initial := ContactState(EmptyForm, Idle, 0, 0)

  // ---------------------------------------------------------------------------------------
  // The component's state cells

  class ContactForm {
    var form: map<string, string>
    var status: Status
    var inFlight: nat
    var pendingResets: nat

    function State(): ContactState
      reads this
    {
      ContactState(form, status, inFlight, pendingResets)
    }

    constructor ()
      ensures State() == Initial
    {
      form := EmptyForm;
      status := Idle;
      inFlight := 0;
      pendingResets := 0;
    }

    method HandleChange(field: string, value: string)
      modifies this`form
      ensures State() == Changed(old(State()), field, value)
    {
      form := form[field := value];
    }

    /** `handleSubmit` up to the `fetch`; `body` is the form data the request carries. */
    method HandleSubmit() returns (body: map<string, string>)
      modifies this`status, this`inFlight
      ensures body == old(form)
      ensures State() == Submitted(old(State()))
    {
      status := Sending;
      body := form;
      inFlight := inFlight + 1;
    }

    /** The submit button: disabled while sending, otherwise it runs `handleSubmit`. */
    method PressSubmit() returns (body: map<string, string>, sent: bool)
      modifies this`status, this`inFlight
      ensures sent <==> old(status) != Sending
      ensures sent ==> body == old(form)
      ensures State() == Pressed(old(State()))
    {
      sent := !SubmitDisabled(status);
      body := map[];
      if sent {
        body := HandleSubmit();
      }
    }

    /** The awaited request settles with `outcome`. */
    method ReceiveResponse(outcome: Outcome)
      requires inFlight > 0
      modifies this
      ensures State() == Responded(old(State()), outcome)
    {
      if outcome == Ok {
        status := Success;
        form := EmptyForm;
      } else {
        status := Error;
      }
      pendingResets := pendingResets + 1;
      inFlight := inFlight - 1;
    }

    /** The oldest armed `setTimeout(() => setFormStatus(''), 5000)` fires. */
    method ResetTimerFires()
      requires pendingResets > 0
      modifies this`status, this`pendingResets
      ensures State() == ResetFired(old(State()))
    {
      status := Idle;
      pendingResets := pendingResets - 1;
    }
  }

  // ---------------------------------------------------------------------------------------
  // Properties

  /** A change replaces the named field and leaves every other field, and the status, alone. */
  lemma ChangeTouchesOneField(s: ContactState, field: string, value: string)
    ensures var r := Changed(s, field, value);
      && field in r.form && r.form[field] == value
      && (forall k :: k in s.form && k != field ==> k in r.form && r.form[k] == s.form[k])
      && r.form.Keys == s.form.Keys + {field}
      && r.status == s.status
  {
  }

  /** The submit button is disabled exactly while sending, and pressing it then does nothing. */
  lemma PressWhileSendingIsIgnored(s: ContactState)
    requires s.status == Sending
    ensures Pressed(s) == s
  {
  }

  /** Pressing an enabled button puts the form into `'sending'` before any response. */
  lemma PressSubmitsWhenEnabled(s: ContactState)
    requires s.status != Sending
    ensures Pressed(s).status == Sending && Pressed(s).inFlight == s.inFlight + 1 && Pressed(s).form == s.form
  {
  }

  /** An OK response shows success and clears the three fields; any other outcome shows an error and keeps the form. */
  lemma ResponseOutcomes(s: ContactState, outcome: Outcome)
    requires s.inFlight > 0
    ensures var r := Responded(s, outcome);
      && (outcome == Ok ==> r.status == Success && r.form == EmptyForm)
      && (outcome != Ok ==> r.status == Error && r.form == s.form)
      && r.pendingResets == s.pendingResets + 1
  {
  }

  /** Every possible event keeps the state well formed. */
  lemma StepKeepsWellFormed(s: ContactState, e: ContactEvent)
    requires WellFormed(s) && Possible(s, e)
    ensures WellFormed(Step(s, e))
  {
  }

  /** Every possible run from a well-formed state ends well formed. */
  lemma {:induction false} RunKeepsWellFormed(s: ContactState, events: seq<ContactEvent>)
    requires WellFormed(s) && PossibleRun(s, events)
    ensures WellFormed(Run(s, events))
    decreases |events|
  {
    if events != [] {
      StepKeepsWellFormed(s, events[0]);
      RunKeepsWellFormed(Step(s, events[0]), events[1..]);
    }
  }

  /** While `'sending'` shows, a response is always possible: the awaited request is in flight. */
  lemma SendingAwaitsResponse(s: ContactState, outcome: Outcome)
    requires WellFormed(s) && s.status == Sending
    ensures Possible(s, Response(outcome))
  {
  }

  /** A submission with no other submission around it ends back at `''` once its timer fires. */
  lemma SubmissionCycle(s: ContactState, outcome: Outcome)
    requires WellFormed(s) && s.status != Sending && s.pendingResets == 0
    ensures PossibleRun(s, [Press, Response(outcome), TimerFires])
    ensures Run(s, [Press, Response(outcome), TimerFires]).status == Idle
    ensures Run(s, [Press, Response(outcome), TimerFires]).pendingResets == 0
  {
    var s1 := Pressed(s);
    var s2 := Responded(s1, outcome);
    var s3 := ResetFired(s2);
    assert [Press, Response(outcome), TimerFires][1..] == [Response(outcome), TimerFires];
    assert [Response(outcome), TimerFires][1..] == [TimerFires];
    assert PossibleRun(s2, [TimerFires]);
    assert Run(s2, [TimerFires]) == s3;
  }

  /**
   * No timer is ever cancelled: a reset armed by one submission fires during a later one,
   * shows `''` while that request is still in flight, and enables the button again, so a
   * second request can be issued.
   */
  lemma StaleResetReenablesSubmit()
    ensures var first := Responded(Submitted(Initial), Ok);
      var second := Pressed(first);
      && second.status == Sending && second.pendingResets == 1
      && var reset := ResetFired(second);
      && reset.status == Idle && reset.inFlight == 1
      && !SubmitDisabled(reset.status)
      && Pressed(reset).inFlight == 2
  {
  }

  /**
   * The phone and address rows appear exactly when the catalogue translates their keys to
   * something other than the key itself; a catalogue without them hides both.
   */
  lemma DetailRowsNeedTranslation(t: map<string, string>)
    ensures ShowDetailRow(t, PhoneKey) <==> PhoneKey in t && t[PhoneKey] != PhoneKey
    ensures ShowDetailRow(t, AddressKey) <==> AddressKey in t && t[AddressKey] != AddressKey
    ensures PhoneKey !in t && AddressKey !in t ==> !ShowDetailRow(t, PhoneKey) && !ShowDetailRow(t, AddressKey)
  {
  }
}
