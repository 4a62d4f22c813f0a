/** The onboarding flow (src/pages/Onboarding.tsx): six screens walked
    through in order, the last asking for the traveller's name. Finishing
    marks onboarding as done in the progress store, writes the status to
    the user's remote profile when someone is signed in, and goes home.

    The signed-in user is a parameter (`Some(id)` or `None`). The calls the
    page makes to its collaborators are recorded, in order, in `calls`; the
    remote write's reply is an error value the page ignores, so it does not
    change what follows. */
module Onboarding {
  import opened Wrappers
  import ProgressStore

  datatype StepKind = Info | Choice | Install | Input

  /** A screen: its id, its kind and, for a choice, the ids of its options. */
  datatype Step = Step(id: string, kind: StepKind, options: seq<string>)

  const STEPS: seq<Step> := [
    Step("intro", Info, []),
    Step("benefit_1", Info, []),
    Step("goal", Choice, ["fly", "create", "self", "nightmare"]),
    Step("recall", Choice, ["always", "sometimes", "rarely"]),
    Step("install", Install, []),
    Step("name", Input, [])
  ]

  const LAST_STEP := |STEPS| - 1

  /** The name used when none was typed. */
  const DEFAULT_NAME := "Sonhador"

  /** Six screens; only the last asks for the name, and the two choice
      screens offer four and three options. So a screen with a continue
      button or options is never the last one. */
  lemma StepsShape()
    ensures |STEPS| == 6 && LAST_STEP == 5
    ensures STEPS[LAST_STEP].kind == Input
    ensures forall i :: 0 <= i < |STEPS| && STEPS[i].kind == Input ==> i == LAST_STEP
    ensures |STEPS[2].options| == 4 && |STEPS[3].options| == 3
    ensures forall i :: 0 <= i < |STEPS| && STEPS[i].kind != Choice ==> STEPS[i].options == []
  {
  }

  /** `name || 'Sonhador'`: an empty name is falsy. */
  function FinalName(name: string): (r: string)
    ensures r != ""
    ensures name != "" ==> r == name
    ensures name == "" ==> r == DEFAULT_NAME
  {
    if name == "" then DEFAULT_NAME else name
  }

  /** The progress bar's width, in percent: a sixth per screen reached. */
  function ProgressPercent(step: int): (p: real)
    requires 0 <= step <= LAST_STEP
    ensures 0.0 < p <= 100.0
    ensures p == 100.0 <==> step == LAST_STEP
  {
    ((step + 1) as real / |STEPS| as real) * 100.0
  }

  /** A call the page makes: to the store's `completeOnboarding`, to the
      auth service's `updateOnboardingStatus`, or to the router. */
  datatype Call =
    | CompleteOnboarding(name: string)
    | UpdateOnboardingStatus(userId: string, completed: bool)
    | Navigate(path: string, replace: bool)

  /** What `finish` calls, in order: the store first, then the remote
      profile when a user is signed in, then the home page. */
  function FinishCalls(name: string, user: Option<string>): (cs: seq<Call>)
    ensures |cs| >= 2
    ensures cs[0] == CompleteOnboarding(FinalName(name))
    ensures cs[|cs| - 1] == Navigate("/", false)
    ensures |cs| == 3 <==> user.Some?
    ensures |cs| == 2 <==> user.None?
    ensures user.Some? ==> cs[1] == UpdateOnboardingStatus(user.value, true)
  {
    [CompleteOnboarding(FinalName(name))]
      + (if user.Some? then [UpdateOnboardingStatus(user.value, true)] else [])
      + [Navigate("/", false)]
  }

  /** The remote profile is written only for a signed-in user, never before
      the store has been told, and always with `true`. */
  lemma RemoteWriteOrder(name: string, user: Option<string>)
    ensures forall k :: 0 <= k < |FinishCalls(name, user)| && FinishCalls(name, user)[k].UpdateOnboardingStatus? ==>
      k > 0 && user.Some? && FinishCalls(name, user)[k] == UpdateOnboardingStatus(user.value, true)
  {
  }

  class Flow {
    const app: ProgressStore.AppStore
    var currentStep: int
    var direction: int
    var name: string
    var calls: seq<Call>

    ghost predicate Valid()
      reads this, app
    {
      0 <= currentStep <= LAST_STEP && app.Valid()
    }

    /** What finishing does to the store: the onboarding flag is saved and
        set, and the journal, the statistics and the remote log are as they
        were. */
    twostate predicate StoreOnboarded()
      reads this, app
    {
      && app.onboarded
      && app.store == old(app.store)[ProgressStore.ONBOARDING_KEY := ProgressStore.StoredText("true")]
      && app.dreams == old(app.dreams) && app.stats == old(app.stats)
      && app.remoteCalls == old(app.remoteCalls)
    }

    constructor (app: ProgressStore.AppStore)
      requires app.Valid()
      ensures Valid() && this.app == app
      ensures currentStep == 0 && direction == 1 && name == "" && calls == []
    {
      this.app := app;
      currentStep, direction, name := 0, 1, "";
      calls := [];
    }

    /** The redirect effect, run on mount and whenever the store's flag
        changes: an onboarded user is sent home, replacing this page. */
    method RedirectEffect()
      modifies this`calls
      ensures app.onboarded ==> calls == old(calls) + [Navigate("/", true)]
      ensures !app.onboarded ==> calls == old(calls)
    {
      if app.onboarded {
        calls := calls + [Navigate("/", true)];
      }
    }

    /** Typing in the name field. */
    method SetName(typed: string)
      modifies this`name
      ensures name == typed
    {
      name := typed;
    }

    /** `finish`: the store is marked as onboarded with the typed name or the
        default, the remote status is written for a signed-in user, and the
        page goes home. The screen does not change. */
    method Finish(user: Option<string>)
      requires Valid()
      modifies this`calls, app
      ensures Valid() && StoreOnboarded()
      ensures calls == old(calls) + FinishCalls(name, user)
    {
      var chosen := FinalName(name);
      app.CompleteOnboarding(chosen);
      calls := calls + [CompleteOnboarding(chosen)];
      if user.Some? {
        calls := calls + [UpdateOnboardingStatus(user.value, true)];
      }
      calls := calls + [Navigate("/", false)];
    }

    /** `handleNext`: on to the next screen, moving forward, or finish on the
        last one. */
    method HandleNext(user: Option<string>)
      requires Valid()
      modifies this, app
      ensures Valid() && name == old(name)
      ensures old(currentStep) < LAST_STEP ==>
        && currentStep == old(currentStep) + 1 && direction == 1
        && calls == old(calls) && unchanged(app)
      ensures old(currentStep) == LAST_STEP ==>
        && currentStep == old(currentStep) && direction == old(direction)
        && calls == old(calls) + FinishCalls(name, user) && StoreOnboarded()
    {
      if currentStep < LAST_STEP {
        direction := 1;
        currentStep := currentStep + 1;
      } else {
        Finish(user);
      }
    }

    /** `handleChoice`: the chosen option is not kept; the page moves on
        exactly as `handleNext` does. */
    method HandleChoice(option: string, user: Option<string>)
      requires Valid()
      modifies this, app
      ensures Valid() && name == old(name)
      ensures old(currentStep) < LAST_STEP ==>
        && currentStep == old(currentStep) + 1 && direction == 1
        && calls == old(calls) && unchanged(app)
      ensures old(currentStep) == LAST_STEP ==>
        && currentStep == old(currentStep) && direction == old(direction)
        && calls == old(calls) + FinishCalls(name, user) && StoreOnboarded()
    {
      HandleNext(user);
    }

    /** The continue button, shown only on an information or install
        screen. Such a screen is never the last, so it always moves on. */
    method PressContinue(user: Option<string>)
      requires Valid()
      modifies this, app
      ensures Valid()
      ensures old(STEPS[currentStep].kind) in {Info, Install} ==>
        currentStep == old(currentStep) + 1 && direction == 1
      ensures !(old(STEPS[currentStep].kind) in {Info, Install}) ==>
        currentStep == old(currentStep) && direction == old(direction)
      ensures name == old(name) && calls == old(calls) && unchanged(app)
    {
      StepsShape();
      if STEPS[currentStep].kind in {Info, Install} {
        HandleNext(user);
      }
    }

    /** Option `k` of a choice screen, which is never the last. Elsewhere no
        option is shown. */
    method PressOption(k: nat, user: Option<string>)
      requires Valid()
      modifies this, app
      ensures Valid()
      ensures old(STEPS[currentStep].kind) == Choice && k < old(|STEPS[currentStep].options|) ==>
        currentStep == old(currentStep) + 1 && direction == 1
      ensures !(old(STEPS[currentStep].kind) == Choice && k < old(|STEPS[currentStep].options|)) ==>
        currentStep == old(currentStep) && direction == old(direction)
      ensures name == old(name) && calls == old(calls) && unchanged(app)
    {
      StepsShape();
      if STEPS[currentStep].kind == Choice && k < |STEPS[currentStep].options| {
        HandleChoice(STEPS[currentStep].options[k], user);
      }
    }

    /** A key pressed in the name field, shown only on the name screen:
        Enter finishes once a name has been typed, so the default name is
        never used this way. */
    method KeyDown(key: string, user: Option<string>)
      requires Valid()
      modifies this`calls, app
      ensures Valid()
      ensures STEPS[currentStep].kind == Input && key == "Enter" && name != "" ==>
        calls == old(calls) + FinishCalls(name, user) && StoreOnboarded()
        && calls[|old(calls)|] == CompleteOnboarding(name)
      ensures !(STEPS[currentStep].kind == Input && key == "Enter" && name != "") ==>
        calls == old(calls) && unchanged(app)
    {
      if STEPS[currentStep].kind == Input && key == "Enter" && name != "" {
        Finish(user);
      }
    }

    /** The final button of the name screen, disabled while the name is
        empty. */
    method PressFinish(user: Option<string>)
      requires Valid()
      modifies this`calls, app
      ensures Valid()
      ensures STEPS[currentStep].kind == Input && name != "" ==>
        calls == old(calls) + FinishCalls(name, user) && StoreOnboarded()
        && calls[|old(calls)|] == CompleteOnboarding(name)
      ensures !(STEPS[currentStep].kind == Input && name != "") ==> calls == old(calls) && unchanged(app)
    {
      if STEPS[currentStep].kind == Input && name != "" {
        Finish(user);
      }
    }
  }
}
