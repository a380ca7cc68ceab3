/**
 * The simulated form submission. Submitting a form disables its submit
 * button and shows "Processing..."; a first timer shows "Success!", turns
 * the button green and emits one success toast; a second timer puts back the
 * label the button had when the form was submitted, enables it and removes
 * the green classes.
 */
module Forms {
  import opened Common

  datatype FormPhase = Ready | Processing | Succeeded

  /** The submission, the expiry of the processing timer, and the expiry of the reset timer. */
  datatype FormEvent = Submit | Processed | ResetTimer

  const ProcessingLabel := Label("loader-2", "Processing...")
  const SuccessLabel := Label("check", "Success!")
  const SubmittedMessage := "Form submitted successfully!"

  /**
   * The submit button as the handler leaves it: the phase of the handler, the
   * shown label, the label saved when the form was submitted, whether the
   * button is disabled and whether it carries the green classes.
   */
  datatype SubmitState = SubmitState(phase: FormPhase, caption: Label, saved: Label, disabled: bool, green: bool)

  /**
   * One event. A form whose submit button is disabled is not submitted; each
   * timer fires only while the phase that scheduled it is current.
   */
  function Next(s: SubmitState, e: FormEvent): SubmitState
  {
    match e
    case Submit =>
      if s.disabled then s
      else s.(phase := Processing, saved := s.caption, caption := ProcessingLabel, disabled := true)
    case Processed =>
      if s.phase == Processing then s.(phase := Succeeded, caption := SuccessLabel, green := true) else s
    case ResetTimer =>
      if s.phase == Succeeded then s.(phase := Ready, caption := s.saved, disabled := false, green := false) else s
  }

  /** The toasts one event emits: the success toast when processing ends, nothing otherwise. */
  function Emitted(s: SubmitState, e: FormEvent): seq<Notice>
  {
    if e == Processed && s.phase == Processing then [Notice(SubmittedMessage, Success)] else []
  }

  function Run(s: SubmitState, es: seq<FormEvent>): SubmitState
    decreases |es|
  {
    if es == [] then s else Run(Next(s, es[0]), es[1..])
  }

  function Notices(s: SubmitState, es: seq<FormEvent>): seq<Notice>
    decreases |es|
  {
    if es == [] then [] else Emitted(s, es[0]) + Notices(Next(s, es[0]), es[1..])
  }

  /** The button looks as its phase says: enabled and plain when ready, disabled and labelled otherwise. */
  predicate Consistent(s: SubmitState)
  {
    (s.phase == Ready ==> !s.disabled && !s.green) &&
    (s.phase == Processing ==> s.disabled && s.caption == ProcessingLabel && !s.green) &&
    (s.phase == Succeeded ==> s.disabled && s.caption == SuccessLabel && s.green)
  }

  /** The label the button will show when it is next ready. */
  function Pending(s: SubmitState): Label
  {
    if s.phase == Ready then s.caption else s.saved
  }

  /**
   * Whatever events arrive, the button stays consistent and the label it
   * will show once ready again never changes: a ready button always shows
   * its original label, enabled and without the green classes.
   */
  lemma {:induction false} RunKeepsOriginalLabel(s: SubmitState, es: seq<FormEvent>)
    requires Consistent(s)
    ensures Consistent(Run(s, es))
    ensures Pending(Run(s, es)) == Pending(s)
    ensures Run(s, es).phase == Ready ==> Run(s, es).caption == Pending(s) && !Run(s, es).disabled && !Run(s, es).green
    decreases |es|
  {
    if es != [] {
      RunKeepsOriginalLabel(Next(s, es[0]), es[1..]);
    }
  }

  /**
   * One full submission from a ready button: "Processing...", then
   * "Success!" with exactly one success toast, then the original label again.
   */
  lemma SubmissionCycle(s: SubmitState)
    requires Consistent(s) && s.phase == Ready
    ensures Next(s, Submit).caption == ProcessingLabel && Next(s, Submit).disabled
    ensures Run(s, [Submit, Processed]).caption == SuccessLabel
    ensures Notices(s, [Submit, Processed, ResetTimer]) == [Notice(SubmittedMessage, Success)]
    ensures Run(s, [Submit, Processed, ResetTimer]) == s.(saved := s.caption)
  {
  }

  /** The submit button of one form, driven by the form's submit handler and its two timers. */
  class SubmitForm {
    var phase: FormPhase
    var caption: Label
    var saved: Label
    var disabled: bool
    var green: bool

    function State(): SubmitState
      reads this
    {
      SubmitState(phase, caption, saved, disabled, green)
    }

    ghost predicate Valid()
      reads this
    {
      Consistent(State())
    }

    constructor (caption: Label)
      ensures Valid() && phase == Ready && this.caption == caption && !disabled && !green
    {
      phase := Ready;
      this.caption := caption;
      saved := caption;
      disabled, green := false, false;
    }

    method OnSubmit()
      requires Valid()
      modifies this
      ensures Valid() && State() == Next(old(State()), Submit)
    {
      if !disabled {
        saved := caption;
        caption := ProcessingLabel;
        disabled := true;
        phase := Processing;
      }
    }

    method OnProcessed(center: Notifier)
      requires Valid()
      modifies this, center
      ensures Valid() && State() == Next(old(State()), Processed)
      ensures center.shown == old(center.shown) + Emitted(old(State()), Processed)
    {
      if phase == Processing {
        caption := SuccessLabel;
        green := true;
        phase := Succeeded;
        center.Show(SubmittedMessage, Success);
      }
    }

    method OnResetTimer()
      requires Valid()
      modifies this
      ensures Valid() && State() == Next(old(State()), ResetTimer)
      ensures phase == Ready ==> caption == Pending(old(State()))
    {
      if phase == Succeeded {
        caption := saved;
        disabled := false;
        green := false;
        phase := Ready;
      }
    }
  }
}
