/**
 * Client code driving a session through whole wizard passes, showing what the
 * contracts of the handlers let a caller conclude.
 */
module Scenarios {
  import opened Wrappers
  import opened Types
  import opened App
  import opened GeminiService

  /** Walk forward to the description step with the two images and a description. */
  method FillIn(base: string, logo: string, description: string) returns (s: Session)
    requires base != "" && logo != "" && description != ""
    ensures fresh(s) && s.Valid()
    ensures s.step == AppStep.Describe
    ensures s.state == MockupState(Some(base), Some(logo), description, None, None)
  {
    s := new Session();
    s.HandleBaseImageSelect(base);
    s.HandleNext();
    s.HandleLogoSelect(logo);
    s.HandleNext();
    s.HandleDescriptionChange(description);
  }

  /** The model answers with an image: the session shows it on the result step. */
  method SuccessfulPass(apiKey: Option<string>, base: string, logo: string, data: string)
    requires !KeyRejected(apiKey) && base != "" && logo != "" && data != ""
  {
    var s := FillIn(base, logo, "put logo on wall");
    var image := Part(None, Some(Blob(Some("image/webp"), Some(data))));
    var response := Response(Some([Candidate(None, [image])]));
    assert IsFirstImage([image], 0);
    ExtractionReturnsFirstImage(response, 0);
    var reply := Answered(response);
    assert Generation(apiKey, reply) == Success(PngDataUrlPrefix + data);
    var sent := s.HandleGenerate(apiKey, reply);
    assert sent.Some? && |sent.value.parts| == 3;
    assert s.step == AppStep.Result;
    assert s.state.generatedImage == Some(PngDataUrlPrefix + data);
    assert s.state.baseImage == Some(base) && s.state.logoImage == Some(logo);

    // As written, Back on the result step lands on the transient generating step.
    s.HandleBack();
    assert s.step == AppStep.Generating;
  }

  /**
   * The model is rate limited: the session returns to the description step with its
   * inputs, and shows the fixed message rather than the rate-limit one.
   */
  method RateLimitedPass(apiKey: Option<string>, base: string, logo: string)
    requires !KeyRejected(apiKey) && base != "" && logo != ""
  {
    var s := FillIn(base, logo, "put logo on wall");
    var reply := Threw(Thrown("Resource exhausted", Some(429)));
    assert Generation(apiKey, reply) == Failure(RateLimitMessage);
    var _ := s.HandleGenerate(apiKey, reply);
    assert s.step == AppStep.Describe;
    assert s.state.error == Some(GenerationFailedMessage) && s.state.error != Some(RateLimitMessage);
    assert s.state.baseImage == Some(base) && s.state.logoImage == Some(logo);
    assert s.state.description == "put logo on wall";
  }

  /** The model answers with text only: the session returns to the description step. */
  method TextOnlyPass(apiKey: Option<string>, base: string, logo: string, text: string)
    requires !KeyRejected(apiKey) && base != "" && logo != "" && text != ""
  {
    var s := FillIn(base, logo, "put logo on wall");
    var response := Response(Some([Candidate(None, [Part(Some(text), None)])]));
    TextReplyIsQuoted(response);
    var _ := s.HandleGenerate(apiKey, Answered(response));
    assert s.step == AppStep.Describe && s.state.error == Some(GenerationFailedMessage);
  }

  /** A placeholder key fails before any request is sent. */
  method PlaceholderKeyPass(base: string, logo: string, reply: Reply)
    requires base != "" && logo != ""
  {
    var s := FillIn(base, logo, "put logo on wall");
    PlaceholderKeysRejected("", "");
    var sent := s.HandleGenerate(Some("undefined"), reply);
    assert sent == None && s.step == AppStep.Describe;
  }

  /**
   * After a success, "Refazer Prompt" keeps the generated image while the step is
   * the description step: the generated image is not cleared outside the result step.
   */
  method RedoKeepsStaleImage(image: string)
  {
    var s := FillIn("base", "logo", "text");
    var started := s.BeginGenerate();
    assert started;
    s.CompleteGenerate(Success(image));
    s.RedoPrompt();
    assert s.step == AppStep.Describe && s.state.generatedImage == Some(image);
    s.HandleReset();
    assert s.step == AppStep.UploadBase && s.state == InitialState;
  }

  /** Without a base image Next does nothing, and Generate does nothing without all three inputs. */
  method GuardsHold()
  {
    var s := new Session();
    s.HandleNext();
    assert s.step == AppStep.UploadBase;
    s.HandleBaseImageSelect("");
    s.HandleNext();
    assert s.step == AppStep.UploadBase;
    s.HandleDescriptionChange("   ");
    var started := s.BeginGenerate();
    assert !started && s.step == AppStep.UploadBase;
  }
}
