/** The first-visit onboarding dialog: a bounded step index, its
    transitions, and the per-step indicators and buttons. */
module Onboarding {
  import opened Basics
  import opened Records
  import opened I18n

  /** The number of steps the dialog walks through. */
  const StepCount: nat := 4

  /** Whether the dialog is open and which step it shows. */
  datatype Modal = Modal(open: bool, step: nat)

  /** The dialog together with the store its completion writes. */
  datatype Flow = Flow(modal: Modal, storage: Storage)

  /** The step index names one of the steps. */
  predicate Valid(m: Modal) {
    m.step < StepCount
  }

  /** Mounting the dialog: step 0, open exactly when the "seen" marker is
      absent (or empty). */
  function MountModal(st: Storage): (r: Modal)
    ensures Valid(r) && r.step == 0
    ensures r.open <==> !Truthy(GetItem(st, OnboardingKey))
  {
    Modal(!Truthy(GetItem(st, OnboardingKey)), 0)
  }

  /** `handleComplete`: store the "seen" marker and close; the step stays. */
  function Complete(f: Flow): (r: Flow)
    ensures !r.modal.open && r.modal.step == f.modal.step
    ensures GetItem(r.storage, OnboardingKey) == Some(Plain("true"))
    ensures forall k :: k != OnboardingKey ==> GetItem(r.storage, k) == GetItem(f.storage, k)
  {
    Flow(f.modal.(open := false), SetItem(f.storage, OnboardingKey, Plain("true")))
  }

  /** `handleSkip`: the same two effects as completing, from any step. */
  function Skip(f: Flow): (r: Flow)
    ensures !r.modal.open && r.modal.step == f.modal.step
    ensures GetItem(r.storage, OnboardingKey) == Some(Plain("true"))
    ensures forall k :: k != OnboardingKey ==> GetItem(r.storage, k) == GetItem(f.storage, k)
  {
    Complete(f)
  }

  /** `handleNext`: advance while a later step exists; at the last step,
      complete instead. */
  function Next(f: Flow): (r: Flow)
    ensures f.modal.step < StepCount - 1 ==> r == f.(modal := f.modal.(step := f.modal.step + 1))
    ensures f.modal.step >= StepCount - 1 ==> r == Complete(f)
  {
    if f.modal.step < StepCount - 1 then f.(modal := f.modal.(step := f.modal.step + 1))
    else Complete(f)
  }

  /** `handlePrevious`: go back one step, except at the first. */
  function Previous(f: Flow): (r: Flow)
    ensures f.modal.step > 0 ==> r.modal.step == f.modal.step - 1
    ensures f.modal.step == 0 ==> r == f
    ensures r.modal.open == f.modal.open && r.storage == f.storage
  {
    if f.modal.step > 0 then f.(modal := f.modal.(step := f.modal.step - 1)) else f
  }

  /** Closing the dialog from outside (its open-change callback): it closes
      without storing the marker. */
  function Dismiss(f: Flow): (r: Flow)
    ensures !r.modal.open && r.modal.step == f.modal.step && r.storage == f.storage
  {
    f.(modal := f.modal.(open := false))
  }

  /** The user actions on the dialog. */
  datatype Action = NextAction | PreviousAction | SkipAction | DismissAction

  function Step(f: Flow, a: Action): Flow {
    match a
    case NextAction => Next(f)
    case PreviousAction => Previous(f)
    case SkipAction => Skip(f)
    case DismissAction => Dismiss(f)
  }

  /** The result of a run of actions. */
  function Run(f: Flow, actions: seq<Action>): Flow
    decreases |actions|
  {
    if actions == [] then f else Run(Step(f, actions[0]), actions[1..])
  }

  /** Every action keeps the step index within the steps. */
  lemma StepKeepsValid(f: Flow, a: Action)
    requires Valid(f.modal)
    ensures Valid(Step(f, a).modal)
  {
  }

  /** From a freshly mounted dialog, no run of actions leaves the step
      index outside the steps. */
  lemma {:induction false} RunKeepsValid(f: Flow, actions: seq<Action>)
    requires Valid(f.modal)
    ensures Valid(Run(f, actions).modal)
    decreases |actions|
  {
    if actions != [] {
      StepKeepsValid(f, actions[0]);
      RunKeepsValid(Step(f, actions[0]), actions[1..]);
    }
  }

  /** Once the marker is stored no later action removes it, so every later
      mount keeps the dialog closed. */
  lemma {:induction false} SeenIsPermanent(f: Flow, actions: seq<Action>)
    requires Truthy(GetItem(f.storage, OnboardingKey))
    ensures Truthy(GetItem(Run(f, actions).storage, OnboardingKey))
    ensures !MountModal(Run(f, actions).storage).open
    decreases |actions|
  {
    if actions != [] {
      SeenIsPermanent(Step(f, actions[0]), actions[1..]);
    }
  }

  /** Completing or skipping means the dialog does not open again on the
      next visit; dismissing it leaves that to the store as it was. */
  lemma CompletionIsRemembered(f: Flow)
    ensures !MountModal(Complete(f).storage).open
    ensures !MountModal(Skip(f).storage).open
    ensures MountModal(Dismiss(f).storage).open == MountModal(f.storage).open
  {
  }

  /** How the indicator for one step is drawn. */
  datatype Dot = Active | Done | Upcoming

  /** The indicator at `index`: active at the current step, done before it,
      upcoming after it. */
  function DotAt(index: nat, step: nat): (d: Dot)
    ensures d == Active <==> index == step
    ensures d == Done <==> index < step
    ensures d == Upcoming <==> index > step
  {
    if index == step then Active else if index < step then Done else Upcoming
  }

  /** The indices whose indicator is active. */
  function ActiveDots(step: nat): set<nat> {
    set i: nat | i < StepCount && DotAt(i, step) == Active
  }

  /** Exactly one indicator is active, the current step's. */
  lemma ExactlyOneActive(m: Modal)
    requires Valid(m)
    ensures ActiveDots(m.step) == {m.step}
  {
  }

  /** The label of the forward button. */
  datatype NextLabel = LetsStart(text: string) | NextStep(text: string)

  /** The back button is shown exactly after the first step. */
  function ShowsPrevious(m: Modal): (shown: bool)
    ensures shown <==> Previous(Flow(m, map[])).modal.step != m.step
  {
    m.step > 0
  }

  /** The forward button reads "Let's Start!" (or its Hindi form) exactly at
      the last step, the one where it completes instead of advancing;
      elsewhere it reads the translated "Next". */
  function NextButton(m: Modal, lang: Language): (b: NextLabel)
    ensures b.LetsStart? <==> m.step == StepCount - 1
    ensures b.LetsStart? ==> b.text == (if lang == En then "Let's Start!" else "शुरू करें!")
    ensures b.NextStep? ==> b.text == T("common.next", lang)
    ensures b.LetsStart? <==> Valid(m) && Next(Flow(m, map[])).modal.step == m.step
  {
    if m.step == StepCount - 1 then LetsStart(if lang == En then "Let's Start!" else "शुरू करें!")
    else NextStep(T("common.next", lang))
  }
}
