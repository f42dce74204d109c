/** The photoshoot hub page (src/app/photoshoot-hub/page.tsx): the theme
    constraint, the submit handler's updates of `isLoading` and `idea`, the
    rule choosing which of the three result panels is on screen, and when the
    concept card shows the generated image. */
module PhotoshootHubPage {
  import opened Common
  import opened PhotoshootFlow
  import opened PhotoshootActions

  /** The form's default values. */
  const DefaultValues := IdeaInput("")

  /** The form schema's own minimum theme length. */
  const FormMinThemeLength := 3

  /** The form schema: a theme of at least three characters. */
  predicate FormAccepts(v: IdeaInput)
  {
    |v.theme| >= FormMinThemeLength
  }

  /** The default theme does not pass the form; a user must type one. */
  lemma DefaultValuesRefused()
    ensures !FormAccepts(DefaultValues)
  {
  }

  /** The form and the server check the same constraint: a theme passes the
      form exactly when the server action accepts it and runs the flow on it. */
  lemma FormAgreesWithServer(v: IdeaInput,
                             ideaPrompt: IdeaInput -> Result<Option<Concept>, string>,
                             generate: ImageRequest -> Result<Option<Media>, string>)
    ensures FormAccepts(v) <==> ParseIdeaInput(IdeaInputToJson(v)) == Some(v)
    ensures FormAccepts(v) <==> GetPhotoshootIdea(IdeaInputToJson(v), ideaPrompt, generate).calls != []
  {
    var raw := IdeaInputToJson(v);
    assert raw.fields["theme"] == JString(v.theme);
  }

  const FailureToast := Toast("destructive", "An error occurred", "Failed to generate photoshoot idea. Please try again.")

  /** The result panels; the concept card carries the idea it shows and
      whether its image is rendered. */
  datatype Panel = SkeletonResult | ConceptCard(idea: IdeaOutput, showsImage: bool) | Placeholder

  predicate ShowsSkeleton(isLoading: bool, idea: Option<IdeaOutput>)
  {
    isLoading
  }

  predicate ShowsConceptCard(isLoading: bool, idea: Option<IdeaOutput>)
  {
    !isLoading && idea.Some?
  }

  predicate ShowsPlaceholder(isLoading: bool, idea: Option<IdeaOutput>)
  {
    !isLoading && idea.None?
  }

  /** The image is rendered when its url is a non-empty (truthy) string. */
  predicate ShowsImage(idea: IdeaOutput)
  {
    idea.image.url != ""
  }

  /** The panel on screen: the one whose condition holds; inside the concept
      card the image is rendered exactly when the idea has an image url. */
  function PanelShown(isLoading: bool, idea: Option<IdeaOutput>): (p: Panel)
    ensures p.SkeletonResult? <==> ShowsSkeleton(isLoading, idea)
    ensures p.ConceptCard? <==> ShowsConceptCard(isLoading, idea)
    ensures p.Placeholder? <==> ShowsPlaceholder(isLoading, idea)
    ensures p.ConceptCard? ==> p.idea == idea.value && (p.showsImage <==> |idea.value.image.url| > 0)
  {
    if isLoading then SkeletonResult
    else if idea.None? then Placeholder
    else ConceptCard(idea.value, ShowsImage(idea.value))
  }

  /** Exactly one of the three conditions holds in every state. */
  lemma ExactlyOnePanel(isLoading: bool, idea: Option<IdeaOutput>)
    ensures (if ShowsSkeleton(isLoading, idea) then 1 else 0)
          + (if ShowsConceptCard(isLoading, idea) then 1 else 0)
          + (if ShowsPlaceholder(isLoading, idea) then 1 else 0) == 1
  {
  }

  /** An idea produced by the flow shows its image whenever the generator
      returned media with a non-empty url. */
  lemma GeneratedImageShown(theme: string,
                            ideaPrompt: IdeaInput -> Result<Option<Concept>, string>,
                            generate: ImageRequest -> Result<Option<Media>, string>)
    requires GetPhotoshootIdea(IdeaInputToJson(IdeaInput(theme)), ideaPrompt, generate).outcome.Ok?
    ensures var idea := GetPhotoshootIdea(IdeaInputToJson(IdeaInput(theme)), ideaPrompt, generate).outcome.value;
            var request := ImageRequestFor(theme, ideaPrompt(IdeaInput(theme)).value.value);
            PanelShown(false, Some(idea)).showsImage <==> generate(request).value.value.url != ""
  {
    FormAgreesWithServer(IdeaInput(theme), ideaPrompt, generate);
  }

  /** The page's state. The two remote generators are the parameters of each
      submission. */
  class Page {
    var idea: Option<IdeaOutput>
    var isLoading: bool
    var toasts: seq<Toast>

    constructor ()
      ensures idea == None && !isLoading && toasts == []
      ensures Panel() == Placeholder
    {
      idea := None;
      isLoading := false;
      toasts := [];
    }

    function Panel(): Panel
      reads this
    {
      PanelShown(isLoading, idea)
    }

    /** `onSubmit`: clears the old idea and shows the loading panel, awaits the
        server action, then stores its result or raises a toast, and finally
        leaves the loading state. `pending` is the panel on screen while the
        action is awaited. */
    method OnSubmit(data: IdeaInput,
                    ideaPrompt: IdeaInput -> Result<Option<Concept>, string>,
                    generate: ImageRequest -> Result<Option<Media>, string>)
      returns (pending: Panel)
      modifies this
      ensures pending == SkeletonResult
      ensures !isLoading
      ensures var run := GetPhotoshootIdea(IdeaInputToJson(data), ideaPrompt, generate);
              && (run.outcome.Ok? ==> idea == Some(run.outcome.value) && toasts == old(toasts))
              && (run.outcome.Err? ==> idea == None && toasts == old(toasts) + [FailureToast])
    {
      isLoading := true;
      idea := None;
      pending := Panel();
      var run := GetPhotoshootIdea(IdeaInputToJson(data), ideaPrompt, generate);
      match run.outcome {
        case Ok(result) =>
          idea := Some(result);
        case Err(_) =>
          toasts := toasts + [FailureToast];
      }
      isLoading := false;
    }

    /** `form.handleSubmit(onSubmit)`: runs `onSubmit` only for a theme the
        form schema accepts, and otherwise changes nothing. */
    method Submit(values: IdeaInput,
                  ideaPrompt: IdeaInput -> Result<Option<Concept>, string>,
                  generate: ImageRequest -> Result<Option<Media>, string>)
      returns (submitted: bool)
      modifies this
      ensures submitted == FormAccepts(values)
      ensures !submitted ==> idea == old(idea) && isLoading == old(isLoading) && toasts == old(toasts)
      ensures submitted ==> !isLoading
      ensures submitted ==>
                var flow := GeneratePhotoshootIdeaFlow(values, ideaPrompt, generate);
                && (flow.outcome.Ok? ==> idea == Some(flow.outcome.value) && toasts == old(toasts))
                && (flow.outcome.Err? ==> idea == None && toasts == old(toasts) + [FailureToast])
    {
      submitted := FormAccepts(values);
      if submitted {
        FormAgreesWithServer(values, ideaPrompt, generate);
        var _ := OnSubmit(values, ideaPrompt, generate);
      }
    }
  }
}
