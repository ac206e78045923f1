/** The steps of onboarding, shared by the onboarding screens and the persisted settings. */
module OnboardingSteps {
  /** `OnboardingStep` */
  datatype OnboardingStep = Welcome | EnterStudyId | AcceptPermissions | StartStudy | Completed

  /** The position of a step in the onboarding sequence. */
  function Index(step: OnboardingStep): (i: nat)
    ensures i <= 4
  {
    match step
    case Welcome => 0
    case EnterStudyId => 1
    case AcceptPermissions => 2
    case StartStudy => 3
    case Completed => 4
  }

  /** `startedButIncomplete` */
  predicate StartedButIncomplete(step: OnboardingStep)
  {
    match step
    case Welcome => false
    case EnterStudyId => true
    case AcceptPermissions => true
    case StartStudy => true
    case Completed => false
  }

  /** The step after `step` in `nextStep`. */
  function Next(step: OnboardingStep): (r: OnboardingStep)
  {
    match step
    case Welcome => EnterStudyId
    case EnterStudyId => AcceptPermissions
    case AcceptPermissions => StartStudy
    case StartStudy => Completed
    case Completed => Completed
  }

  /** Every step is reached in order, one position at a time, and onboarding stays completed. */
  lemma NextAdvancesByOne(step: OnboardingStep)
    ensures Index(Next(step)) == if Index(step) == 4 then 4 else Index(step) + 1
    ensures Next(step) == Completed <==> Index(step) >= 3
  {
  }

  /** A step is started but incomplete exactly when it lies strictly between the first and the last. */
  lemma StartedButIncompleteIsMiddle(step: OnboardingStep)
    ensures StartedButIncomplete(step) <==> 0 < Index(step) < 4
  {
  }

  /** `k` steps forward. */
  function Advance(step: OnboardingStep, k: nat): OnboardingStep
    decreases k
  {
    if k == 0 then step else Advance(Next(step), k - 1)
  }

  /** However far onboarding has come, four steps complete it, and from the welcome step no fewer do. */
  lemma {:induction false} FourStepsComplete(step: OnboardingStep, k: nat)
    ensures Advance(step, k) == Completed <==> k >= 4 - Index(step)
    decreases k
  {
    if k > 0 {
      FourStepsComplete(Next(step), k - 1);
    }
  }
}

/** The onboarding flow's view model: the current step, moved forward and persisted in the settings. */
module Onboarding {
  import opened OnboardingSteps
  import opened DataStore

  class OnboardingViewModel {
    var step: OnboardingStep
    const store: DataStoreManager

    /** A new view model reads the persisted step (`loadStep`). */
    constructor (store: DataStoreManager)
      ensures this.store == store && step == store.settings.onboardingStep
    {
      this.store := store;
      step := store.settings.onboardingStep;
    }

    /** `nextStep`: move one step forward and persist the new step. */
    method NextStep(now: int)
      modifies this, store
      ensures step == Next(old(step))
      ensures store.settings == Apply(old(store.settings), now, SaveOnboardingStep(step))
    {
      step := Next(step);
      store.Save(SaveOnboardingStep(step), now);
    }

    /**
     * `finishOnboarding`: persist COMPLETED. The view model's own step is not changed; finishing
     * the activity is left out.
     */
    method FinishOnboarding(now: int)
      modifies store
      ensures store.settings == Apply(old(store.settings), now, SaveOnboardingStep(Completed))
      ensures store.settings.onboardingStep == Completed
    {
      store.Save(SaveOnboardingStep(Completed), now);
    }
  }
}
