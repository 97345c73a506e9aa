/**
 * The three-step onboarding wizard of src/components/OnboardingWizard.tsx:
 * business information, the AI provider's credentials, and a review. "Next" is
 * gated by each step's check; "Finalizar" on the last step hands the data to
 * `onComplete`, whose calls are recorded in `completions`.
 */
module OnboardingFlow {
  import opened Wrappers
  import opened FrontendTypes

  const TotalSteps: int := 3

  /** The step-1 check: a business name, a description and products. */
  predicate BusinessInfoComplete(c: BusinessConfig) {
    c.businessName != "" && c.description != "" && c.products != ""
  }

  /** The step-2 check: an AI provider with an API key. */
  predicate CredentialsComplete(c: APICredentials) {
    c.aiProvider.Some? && c.aiProvider.value.provider != "" && c.aiProvider.value.apiKey != ""
  }

  datatype NextOutcome = Advanced | Blocked(message: string) | Completed

  const MissingBusinessInfo: string := "Por favor completa todos los campos obligatorios"
  const MissingProvider: string := "Debes configurar al menos un proveedor de IA"

  datatype Completion = Completion(config: BusinessConfig, credentials: APICredentials)

  class OnboardingWizard {
    var step: int
    var config: BusinessConfig
    var credentials: APICredentials
    var completions: seq<Completion>

    /**
     * The step stays within 1..3; a step past the first is reached only with
     * complete business information, the last only with complete credentials; and
     * every completion handed out passed both checks.
     */
    predicate Valid()
      reads this
    {
      && 1 <= step <= TotalSteps
      && (step >= 2 ==> BusinessInfoComplete(config))
      && (step == 3 ==> CredentialsComplete(credentials))
      && forall i :: 0 <= i < |completions| ==>
           BusinessInfoComplete(completions[i].config) && CredentialsComplete(completions[i].credentials)
    }

    constructor ()
      ensures Valid() && step == 1 && config == EmptyConfig && credentials == NoCredentials && completions == []
    {
      step := 1;
      config := EmptyConfig;
      credentials := NoCredentials;
      completions := [];
    }

    /** The business fields are shown, and so editable, only on step 1. */
    method EditBusinessInfo(c: BusinessConfig)
      requires Valid() && step == 1
      modifies this
      ensures Valid() && config == c && step == old(step) && credentials == old(credentials)
      ensures completions == old(completions)
    {
      config := c;
    }

    /** The credential fields are shown, and so editable, only on step 2. */
    method EditCredentials(c: APICredentials)
      requires Valid() && step == 2
      modifies this
      ensures Valid() && credentials == c && step == old(step) && config == old(config)
      ensures completions == old(completions)
    {
      credentials := c;
    }

    /**
     * `handleNext`: a failed check of the current step blocks with its message;
     * otherwise a step before the last advances by one, and the last step hands
     * the data to `onComplete` once without moving.
     */
    method Next() returns (outcome: NextOutcome)
      requires Valid()
      modifies this
      ensures Valid() && config == old(config) && credentials == old(credentials)
      ensures old(step) == 1 && !BusinessInfoComplete(config) ==>
        outcome == Blocked(MissingBusinessInfo) && step == old(step) && completions == old(completions)
      ensures old(step) == 2 && !CredentialsComplete(credentials) ==>
        outcome == Blocked(MissingProvider) && step == old(step) && completions == old(completions)
      ensures outcome == Advanced <==> old(step) < TotalSteps && step == old(step) + 1
      ensures outcome == Completed <==> old(step) == TotalSteps
      ensures outcome == Completed ==> step == old(step) && completions == old(completions) + [Completion(config, credentials)]
      ensures outcome == Advanced ==> completions == old(completions)
    {
      if step == 1 && !BusinessInfoComplete(config) {
        return Blocked(MissingBusinessInfo);
      }
      if step == 2 && !CredentialsComplete(credentials) {
        return Blocked(MissingProvider);
      }
      if step < TotalSteps {
        step := step + 1;
        outcome := Advanced;
      } else {
        completions := completions + [Completion(config, credentials)];
        outcome := Completed;
      }
    }

    /** `handleBack`: one step back, except on the first step. */
    method Back()
      requires Valid()
      modifies this
      ensures Valid()
      ensures step == if old(step) > 1 then old(step) - 1 else old(step)
      ensures config == old(config) && credentials == old(credentials) && completions == old(completions)
    {
      if step > 1 {
        step := step - 1;
      }
    }
  }
}
