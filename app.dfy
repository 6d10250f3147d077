/**
 * The wizard session of App.tsx: the current step and the `MockupState` record,
 * updated in place by the event handlers. `handleGenerate` awaits the remote call,
 * so it is modelled as a begin step, a completion step that receives the outcome,
 * and the whole handler that runs the generation client between the two.
 */
module App {
  import opened Wrappers
  import opened JsStrings
  import opened Types
  import GeminiService

  /** The one message the UI shows after any failed generation. */
  const GenerationFailedMessage := "Ocorreu um erro ao gerar o mockup. Tente simplificar a descrição ou usar imagens menores."

  /**
   * The guard of `handleGenerate`: both images and the description are truthy (no
   * trimming). It gives the generating step everything it needs.
   */
  predicate CanGenerate(state: MockupState)
    ensures CanGenerate(state) ==> Consistent(AppStep.Generating, state) && state.description != ""
  {
    Truthy(state.baseImage) && Truthy(state.logoImage) && state.description != ""
  }

  /**
   * The "Gerar Mockup" button is enabled when the trimmed description is non-empty,
   * that is, when some character of it is not white space.
   */
  predicate GenerateButtonEnabled(state: MockupState)
    ensures GenerateButtonEnabled(state) <==>
      exists i :: 0 <= i < |state.description| && !IsTrimmable(state.description[i])
  {
    TrimEmptyIffBlank(state.description);
    Trim(state.description) != ""
  }

  /**
   * On the description the button is stricter than the handler: an enabled button
   * implies a non-empty description, but a non-empty description made only of white
   * space passes the handler's own check while the button stays disabled.
   */
  lemma ButtonStricterThanHandler(state: MockupState)
    ensures GenerateButtonEnabled(state) ==> state.description != ""
    ensures (state.description != "" && forall i :: 0 <= i < |state.description| ==> IsTrimmable(state.description[i]))
            ==> !GenerateButtonEnabled(state)
  {
  }

  /**
   * What the session keeps true from any reachable state: past the base-image step
   * a base image has been stored, past the logo step a logo too, and the result step
   * always has a generated image to show.
   */
  predicate Consistent(step: AppStep, state: MockupState)
  {
    && (step >= AppStep.UploadLogo ==> state.baseImage.Some?)
    && (step >= AppStep.Describe ==> state.logoImage.Some?)
    && (step == AppStep.Result ==> state.generatedImage.Some?)
  }

  class Session {
    var step: AppStep
    var state: MockupState

    ghost predicate Valid()
      reads this
    {
      Consistent(step, state)
    }

    /** The initial `useState` values. */
    constructor ()
      ensures Valid()
      ensures step == AppStep.UploadBase && state == InitialState
    {
      step := AppStep.UploadBase;
      state := InitialState;
    }

    /** `handleBaseImageSelect`: stores the image and clears the error. */
    method HandleBaseImageSelect(base64: string)
      requires Valid()
      modifies this
      ensures Valid()
      ensures step == old(step)
      ensures state == old(state).(baseImage := Some(base64), error := None)
    {
      state := state.(baseImage := Some(base64), error := None);
    }

    /** `handleLogoSelect`: stores the logo and clears the error. */
    method HandleLogoSelect(base64: string)
      requires Valid()
      modifies this
      ensures Valid()
      ensures step == old(step)
      ensures state == old(state).(logoImage := Some(base64), error := None)
    {
      state := state.(logoImage := Some(base64), error := None);
    }

    /** `handleDescriptionChange`: stores the text as typed; the error is left as it was. */
    method HandleDescriptionChange(text: string)
      requires Valid()
      modifies this
      ensures Valid()
      ensures step == old(step)
      ensures state == old(state).(description := text)
    {
      state := state.(description := text);
    }

    /** `handleNext`: forward from the two upload steps only, each gated by its image. */
    method HandleNext()
      requires Valid()
      modifies this
      ensures Valid()
      ensures state == old(state)
      ensures old(step) == AppStep.UploadBase && Truthy(old(state.baseImage)) ==> step == AppStep.UploadLogo
      ensures old(step) == AppStep.UploadLogo && Truthy(old(state.logoImage)) ==> step == AppStep.Describe
      ensures (!(old(step) == AppStep.UploadBase && Truthy(old(state.baseImage)))
               && !(old(step) == AppStep.UploadLogo && Truthy(old(state.logoImage)))) ==> step == old(step)
      ensures old(step) as int <= step as int <= old(step) as int + 1
    {
      if step == AppStep.UploadBase && Truthy(state.baseImage) {
        step := AppStep.UploadLogo;
      } else if step == AppStep.UploadLogo && Truthy(state.logoImage) {
        step := AppStep.Describe;
      }
    }

    /** `handleBack`: one step back, except from the first step and while generating. */
    method HandleBack()
      requires Valid()
      modifies this
      ensures Valid()
      ensures state == old(state)
      ensures old(step) > AppStep.UploadBase && old(step) != AppStep.Generating ==> step == old(step) - 1
      ensures old(step) == AppStep.UploadBase || old(step) == AppStep.Generating ==> step == old(step)
      ensures old(step) as int - 1 <= step as int <= old(step) as int
    {
      if step > AppStep.UploadBase && step != AppStep.Generating {
        step := step - 1;
      }
    }

    /**
     * The "Refazer Prompt" button, rendered only on the result step: back to the
     * description, keeping everything, the generated image included.
     */
    method RedoPrompt()
      requires Valid() && step == AppStep.Result
      modifies this
      ensures Valid()
      ensures step == AppStep.Describe && state == old(state)
    {
      step := AppStep.Describe;
    }

    /** First half of `handleGenerate`: the guard, then the step and the error reset. */
    method BeginGenerate() returns (started: bool)
      requires Valid()
      modifies this
      ensures Valid()
      ensures started == CanGenerate(old(state))
      ensures !started ==> step == old(step) && state == old(state)
      ensures started ==> step == AppStep.Generating && state == old(state).(error := None)
    {
      if !Truthy(state.baseImage) || !Truthy(state.logoImage) || state.description == "" {
        return false;
      }
      step := AppStep.Generating;
      state := state.(error := None);
      started := true;
    }

    /**
     * Second half of `handleGenerate`, once the client has settled: the image and
     * the result step, or the fixed message and the description step, whatever the
     * client reported. Images and description are kept in both cases.
     */
    method CompleteGenerate(outcome: Result<string, string>)
      requires Valid() && step == AppStep.Generating
      modifies this
      ensures Valid()
      ensures outcome.Success? ==> step == AppStep.Result && state == old(state).(generatedImage := Some(outcome.value))
      ensures outcome.Failure? ==> step == AppStep.Describe && state == old(state).(error := Some(GenerationFailedMessage))
    {
      match outcome {
        case Success(image) =>
          state := state.(generatedImage := Some(image));
          step := AppStep.Result;
        case Failure(_) =>
          state := state.(error := Some(GenerationFailedMessage));
          step := AppStep.Describe;
      }
    }

    /**
     * `handleGenerate` as a whole. App calls the client with three arguments, so the
     * application type reaches it as `undefined`; `apiKey` is the configured key and
     * `reply` what the remote model answers to the request.
     */
    method HandleGenerate(apiKey: Option<string>, reply: GeminiService.Reply) returns (sent: Option<GeminiService.Request>)
      requires Valid()
      modifies this
      ensures Valid()
      ensures !CanGenerate(old(state)) ==> step == old(step) && state == old(state) && sent == None
      ensures CanGenerate(old(state)) ==>
        && (sent.Some? <==> !GeminiService.KeyRejected(apiKey))
        && (sent.Some? ==> sent.value == GeminiService.BuildRequest(
              old(state).baseImage.value, old(state).logoImage.value, old(state).description, None))
        && match GeminiService.Generation(apiKey, reply)
           case Success(image) =>
             step == AppStep.Result && state == old(state).(error := None, generatedImage := Some(image))
           case Failure(_) =>
             step == AppStep.Describe && state == old(state).(error := Some(GenerationFailedMessage))
    {
      var started := BeginGenerate();
      if !started {
        return None;
      }
      var result;
      sent, result := GeminiService.GenerateMockup(apiKey, state.baseImage.value, state.logoImage.value, state.description, None, reply);
      CompleteGenerate(result);
    }

    /** `handleReset`: the initial session, from any state. */
    method HandleReset()
      requires Valid()
      modifies this
      ensures Valid()
      ensures step == AppStep.UploadBase && state == InitialState
    {
      state := InitialState;
      step := AppStep.UploadBase;
    }
  }
}
