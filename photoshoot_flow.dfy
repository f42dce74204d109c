/** The two-step photoshoot-idea flow (src/ai/flows/generate-photoshoot-idea.ts):
    a text concept is requested for the theme, an image prompt is built from the
    theme and three of the concept's fields, an image is requested with that
    prompt, and the output is assembled from the pieces. The two remote calls
    are oracles passed in as parameters; the flow reports every call it issues. */
module PhotoshootFlow {
  import opened Common

  datatype IdeaInput = IdeaInput(theme: string)

  datatype Concept = Concept(mood: string, location: string, styling: string, props: string)

  /** The media part of an image-generation response. */
  datatype Media = Media(url: string)

  datatype ImageInfo = ImageInfo(url: string, prompt: string)

  datatype IdeaOutput = IdeaOutput(concept: Concept, image: ImageInfo)

  datatype Modality = Text | Image

  /** The arguments of the image-generation call. */
  datatype ImageRequest = ImageRequest(model: string, prompt: string, responseModalities: seq<Modality>)

  /** A remote call issued by the flow. */
  datatype FlowCall = ConceptCall(input: IdeaInput) | ImageCall(request: ImageRequest)

  /** Why the flow throws: the provider raised `cause`; the concept call answered
      without an output, so reading its fields throws; or the flow's own `Error`. */
  datatype FlowError = ProviderError(cause: string) | ConceptMissing | Thrown(message: string)

  const ImageModel := "googleai/gemini-2.0-flash-preview-image-generation"
  const ImageGenerationFailedMessage := "Image generation failed."

  const PromptLead := "A high-fashion, award-winning photograph of a male model. The theme is \""
  const MoodTag := "\". Mood: "
  const LocationTag := ". Location: "
  const StylingTag := ". Styling: "
  const PromptEnd := "."

  /** The text sent to the image generator for `theme` and `concept`. */
  function ImagePromptText(theme: string, concept: Concept): string
  {
    PromptLead + theme + MoodTag + concept.mood + LocationTag + concept.location
    + StylingTag + concept.styling + PromptEnd
  }

  /** The full image-generation request for `theme` and `concept`. */
  function ImageRequestFor(theme: string, concept: Concept): ImageRequest
  {
    ImageRequest(ImageModel, ImagePromptText(theme, concept), [Text, Image])
  }

  /** The prompt is the fixed sentence with the theme and the concept's mood,
      location and styling in their places: each one can be read back from the
      prompt at an offset fixed by the lengths of the fields before it. */
  lemma ImagePromptFields(theme: string, c: Concept)
    ensures var p := ImagePromptText(theme, c);
            var t := |PromptLead|;
            var m := t + |theme| + |MoodTag|;
            var l := m + |c.mood| + |LocationTag|;
            var s := l + |c.location| + |StylingTag|;
            && |p| == s + |c.styling| + |PromptEnd|
            && p[..t] == PromptLead
            && p[t..t + |theme|] == theme
            && p[t + |theme|..m] == MoodTag
            && p[m..m + |c.mood|] == c.mood
            && p[m + |c.mood|..l] == LocationTag
            && p[l..l + |c.location|] == c.location
            && p[l + |c.location|..s] == StylingTag
            && p[s..s + |c.styling|] == c.styling
            && p[s + |c.styling|..] == PromptEnd
  {
    var p := ImagePromptText(theme, c);
    var t := |PromptLead|;
    var m := t + |theme| + |MoodTag|;
    var l := m + |c.mood| + |LocationTag|;
    var s := l + |c.location| + |StylingTag|;
    var p0 := PromptLead;
    var p1 := p0 + theme;
    var p2 := p1 + MoodTag;
    var p3 := p2 + c.mood;
    var p4 := p3 + LocationTag;
    var p5 := p4 + c.location;
    var p6 := p5 + StylingTag;
    var p7 := p6 + c.styling;
    assert p == p7 + PromptEnd;
    assert p[..s + |c.styling|] == p7;
    assert p7[..s] == p6;
    assert p6[..l + |c.location|] == p5;
    assert p5[..l] == p4;
    assert p4[..m + |c.mood|] == p3;
    assert p3[..m] == p2;
    assert p2[..t + |theme|] == p1;
    assert p1[..t] == p0;
  }

  /** The image prompt does not depend on the concept's props. */
  lemma ImagePromptIgnoresProps(theme: string, c: Concept, props: string)
    ensures ImageRequestFor(theme, c.(props := props)) == ImageRequestFor(theme, c)
  {
  }

  /** The flow body: concept call, image prompt, image call, missing-media
      check, output assembly. Each step runs only when the one before it
      succeeded, and the output is built from the pieces unchanged. */
  function GeneratePhotoshootIdeaFlow(
    input: IdeaInput,
    ideaPrompt: IdeaInput -> Result<Option<Concept>, string>,
    generate: ImageRequest -> Result<Option<Media>, string>
  ): (run: Run<FlowCall, IdeaOutput, FlowError>)
    // the concept is always requested first, and at most two calls are issued
    ensures 1 <= |run.calls| <= 2 && run.calls[0] == ConceptCall(input)
    // a failed or empty concept call stops the flow before the image call
    ensures ideaPrompt(input).Err? ==>
              run == Run([ConceptCall(input)], Err(ProviderError(ideaPrompt(input).error)))
    ensures ideaPrompt(input) == Ok(None) ==> run == Run([ConceptCall(input)], Err(ConceptMissing))
    // once a concept is known, the image call is issued with exactly its prompt
    ensures ideaPrompt(input).Ok? && ideaPrompt(input).value.Some? ==>
              var request := ImageRequestFor(input.theme, ideaPrompt(input).value.value);
              && run.calls == [ConceptCall(input), ImageCall(request)]
              && (generate(request).Err? ==> run.outcome == Err(ProviderError(generate(request).error)))
              && (generate(request) == Ok(None) ==> run.outcome == Err(Thrown(ImageGenerationFailedMessage)))
    // success exactly when both calls answered, assembled from their answers
    ensures run.outcome.Ok? <==>
              && ideaPrompt(input).Ok? && ideaPrompt(input).value.Some?
              && generate(ImageRequestFor(input.theme, ideaPrompt(input).value.value)).Ok?
              && generate(ImageRequestFor(input.theme, ideaPrompt(input).value.value)).value.Some?
    ensures run.outcome.Ok? ==>
              var concept := ideaPrompt(input).value.value;
              var prompt := ImagePromptText(input.theme, concept);
              && run.outcome.value.concept == concept
              && run.outcome.value.image.prompt == prompt
              && run.outcome.value.image.url == generate(ImageRequestFor(input.theme, concept)).value.value.url
  {
    var first := [ConceptCall(input)];
    match ideaPrompt(input)
    case Err(cause) => Run(first, Err(ProviderError(cause)))
    case Ok(None) => Run(first, Err(ConceptMissing))
    case Ok(Some(concept)) =>
      var request := ImageRequestFor(input.theme, concept);
      var calls := first + [ImageCall(request)];
      match generate(request)
      case Err(cause) => Run(calls, Err(ProviderError(cause)))
      case Ok(None) => Run(calls, Err(Thrown(ImageGenerationFailedMessage)))
      case Ok(Some(media)) =>
        Run(calls, Ok(IdeaOutput(concept, ImageInfo(media.url, request.prompt))))
  }
}
