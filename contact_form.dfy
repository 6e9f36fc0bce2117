/**
 * The contact section's request form. Its status moves from idle to sending
 * on a submit, from sending to success when the 1500 ms completion timer
 * fires, and from success back to idle on "Send another". The form is shown
 * in every status but success; its submit button is disabled while sending.
 */
module ContactForm {

  datatype Status = Idle | Sending | Success

  /** The four required inputs, as typed. */
  datatype Fields = Fields(name: string, email: string, phone: string, message: string)

  /** The browser lets a submit through only when every required input holds text. */
  predicate RequiredFilled(f: Fields) {
    f.name != [] && f.email != [] && f.phone != [] && f.message != []
  }

  /** The form (rather than the thank-you view) is on screen. */
  predicate FormShown(s: Status) {
    s != Success
  }

  /** The submit button is disabled. */
  predicate SubmitDisabled(s: Status) {
    s == Sending
  }

  /** The caption of the submit button. */
  function SubmitCaption(s: Status): (r: string)
    ensures r == "Sending..." <==> s == Sending
  {
    if s == Sending then "Sending..." else "Submit Request"
  }

  /** A submit event reaches the handler: the form is on screen, its button is
      enabled and every required input is filled. */
  predicate SubmitFires(s: Status, f: Fields) {
    FormShown(s) && !SubmitDisabled(s) && RequiredFilled(f)
  }

  /** The status together with the number of completion timers scheduled and
      not yet fired. */
  datatype FormState = FormState(status: Status, timers: nat)

  const Initial: FormState := FormState(Idle, 0)

  /** What a visitor or the clock can do. */
  datatype Event = Submit(f: Fields) | TimerFires | SendAnother

  /** One event: a submit that fires sets sending and schedules a timer; a
      firing timer sets success; "Send another", on screen only in success,
      sets idle. Anything else changes nothing. */
  function Step(s: FormState, e: Event): FormState {
    match e
    case Submit(f) => if SubmitFires(s.status, f) then FormState(Sending, s.timers + 1) else s
    case TimerFires => if s.timers > 0 then FormState(Success, s.timers - 1) else s
    case SendAnother => if s.status == Success then s.(status := Idle) else s
  }

  function Run(s: FormState, events: seq<Event>): FormState
    decreases |events|
  {
    if events == [] then s else Run(Step(s, events[0]), events[1..])
  }

  /** Exactly one completion timer is pending while sending, and none otherwise. */
  ghost predicate Consistent(s: FormState) {
    s.timers == if s.status == Sending then 1 else 0
  }

  /** The form section as the source keeps it: a status variable set step by
      step by the submit handler, the timer callback and the reset button. */
  class ContactSection {
    var status: Status
    var timers: nat

    function State(): FormState
      reads this
    {
      FormState(status, timers)
    }

    ghost predicate Valid()
      reads this
    {
      Consistent(State())
    }

    constructor ()
      ensures State() == Initial && Valid()
    {
      status := Idle;
      timers := 0;
    }

    /** A submit attempt; `fired` tells whether the handler ran. */
    method HandleSubmit(f: Fields) returns (fired: bool)
      requires Valid()
      modifies this
      ensures Valid()
      ensures fired == SubmitFires(old(status), f)
      ensures State() == Step(old(State()), Submit(f))
    {
      fired := status != Success && status != Sending && RequiredFilled(f);
      if fired {
        status := Sending;
        timers := timers + 1;
      }
    }

    /** A pending completion timer fires, if there is one. */
    method TimerElapsed() returns (fired: bool)
      requires Valid()
      modifies this
      ensures Valid()
      ensures fired == (old(timers) > 0)
      ensures State() == Step(old(State()), TimerFires)
    {
      fired := timers > 0;
      if fired {
        timers := timers - 1;
        status := Success;
      }
    }

    /** A click on "Send another", which exists only in the thank-you view. */
    method SendAnotherClicked() returns (clicked: bool)
      requires Valid()
      modifies this
      ensures Valid()
      ensures clicked == (old(status) == Success)
      ensures State() == Step(old(State()), SendAnother)
    {
      clicked := status == Success;
      if clicked {
        status := Idle;
      }
    }
  }

  // ---- Properties of the form ----

  /** Every event keeps the timer count consistent with the status. */
  lemma StepKeepsConsistent(s: FormState, e: Event)
    requires Consistent(s)
    ensures Consistent(Step(s, e))
  {
  }

  /** Every state reachable from the initial one is consistent. */
  lemma {:induction false} RunKeepsConsistent(s: FormState, events: seq<Event>)
    requires Consistent(s)
    ensures Consistent(Run(s, events))
    decreases |events|
  {
    if events != [] {
      StepKeepsConsistent(s, events[0]);
      RunKeepsConsistent(Step(s, events[0]), events[1..]);
    }
  }

  /** Start-up: idle, form shown, button enabled. */
  lemma InitialIdle()
    ensures Initial.status == Idle && Consistent(Initial)
    ensures FormShown(Initial.status) && !SubmitDisabled(Initial.status)
  {
  }

  /** A submit with every field filled moves idle to sending, and the timer then
      moves sending to success. */
  lemma SubmitThenTimer(s: FormState, f: Fields)
    requires Consistent(s) && s.status == Idle && RequiredFilled(f)
    ensures Step(s, Submit(f)).status == Sending
    ensures Step(Step(s, Submit(f)), TimerFires) == FormState(Success, 0)
  {
  }

  /** A submit with a missing required field never reaches sending from idle. */
  lemma MissingFieldBlocksSubmit(s: FormState, f: Fields)
    requires !RequiredFilled(f)
    ensures Step(s, Submit(f)) == s
  {
  }

  /** While sending, the button is disabled, so a submit changes nothing. */
  lemma NoSubmitWhileSending(s: FormState, f: Fields)
    requires s.status == Sending
    ensures Step(s, Submit(f)) == s
    ensures SubmitCaption(s.status) == "Sending..."
  {
  }

  /** "Send another" moves success to idle. */
  lemma SendAnotherResets(s: FormState)
    requires s.status == Success
    ensures Step(s, SendAnother).status == Idle
    ensures FormShown(Step(s, SendAnother).status)
  {
  }

  /** In a consistent state every status change follows the cycle
      idle -> sending -> success -> idle; in particular idle never goes to
      success in one step. */
  lemma StepFollowsCycle(s: FormState, e: Event)
    requires Consistent(s)
    ensures var t := Step(s, e).status;
      t == s.status
      || (s.status == Idle && t == Sending)
      || (s.status == Sending && t == Success)
      || (s.status == Success && t == Idle)
  {
  }

  /** The cycle holds in every run from start-up. */
  lemma ReachableStepsFollowCycle(events: seq<Event>, e: Event)
    ensures var s := Run(Initial, events);
      var t := Step(s, e).status;
      t == s.status
      || (s.status == Idle && t == Sending)
      || (s.status == Sending && t == Success)
      || (s.status == Success && t == Idle)
  {
    RunKeepsConsistent(Initial, events);
    StepFollowsCycle(Run(Initial, events), e);
  }

  /** A success is entered only from sending, and a sending only by a submit
      with every required field filled. */
  lemma EntriesAreGuarded(s: FormState, e: Event)
    requires Consistent(s)
    ensures Step(s, e).status == Success && s.status != Success ==> s.status == Sending && e == TimerFires
    ensures Step(s, e).status == Sending && s.status != Sending ==> e.Submit? && RequiredFilled(e.f)
  {
  }
}
