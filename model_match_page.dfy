/** The model-match page (src/app/model-match/page.tsx): the form's field
    constraints and default values, the submit handler's updates of
    `isLoading` and `suggestions`, and the rule choosing which of the four
    result panels is on screen. */
module ModelMatchPage {
  import opened Common
  import opened ModelMatchActions

  const MinAge := 18
  const MaxAge := 50

  /** The form's default values. */
  const DefaultValues := SuggestInput(25, "Brown", "Athletic", "Editorial")

  /** The form schema: an age from 18 to 50 and three non-empty strings. */
  predicate FormAccepts(v: SuggestInput)
  {
    && MinAge <= v.age <= MaxAge
    && |v.hairColor| >= 1
    && |v.bodyType| >= 1
    && |v.expertise| >= 1
  }

  lemma DefaultValuesAccepted()
    ensures FormAccepts(DefaultValues)
  {
  }

  /** The form is stricter than the server: every value, and so every
      submission the form lets through, passes the server's schema unchanged
      and reaches the generator; an age of 17 reaches it too, though the form
      refuses it. */
  lemma FormStricterThanServer(v: SuggestInput, suggestModels: SuggestInput -> Result<SuggestOutput, string>)
    ensures GetModelSuggestions(SuggestInputToJson(v), suggestModels).calls == [v]
    ensures !FormAccepts(v.(age := MinAge - 1))
    ensures GetModelSuggestions(SuggestInputToJson(v.(age := MinAge - 1)), suggestModels).calls
            == [v.(age := MinAge - 1)]
  {
    ParseAcceptsEveryTypedInput(v);
    ParseAcceptsEveryTypedInput(v.(age := MinAge - 1));
  }

  const FailureToast := Toast("destructive", "An error occurred", "Failed to get suggestions. Please try again.")

  /** The result panels; `SuggestionCards` lists the suggestions it shows. */
  datatype Panel = Skeletons | SuggestionCards(cards: seq<Suggestion>) | NoDirectMatches | Placeholder

  /** The four render conditions, each as the page writes it. */
  predicate ShowsSkeletons(isLoading: bool, suggestions: Option<SuggestOutput>)
  {
    isLoading
  }

  predicate ShowsCards(isLoading: bool, suggestions: Option<SuggestOutput>)
  {
    !isLoading && suggestions.Some? && |suggestions.value.modelSuggestions| > 0
  }

  predicate ShowsNoMatches(isLoading: bool, suggestions: Option<SuggestOutput>)
  {
    !isLoading && suggestions.Some? && |suggestions.value.modelSuggestions| == 0
  }

  predicate ShowsPlaceholder(isLoading: bool, suggestions: Option<SuggestOutput>)
  {
    !isLoading && suggestions.None?
  }

  /** The panel on screen: the one whose condition holds. The conditions are
      mutually exclusive and together cover every state. */
  function PanelShown(isLoading: bool, suggestions: Option<SuggestOutput>): (p: Panel)
    ensures p.Skeletons? <==> ShowsSkeletons(isLoading, suggestions)
    ensures p.SuggestionCards? <==> ShowsCards(isLoading, suggestions)
    ensures p.NoDirectMatches? <==> ShowsNoMatches(isLoading, suggestions)
    ensures p.Placeholder? <==> ShowsPlaceholder(isLoading, suggestions)
    ensures p.SuggestionCards? ==> p.cards == suggestions.value.modelSuggestions
  {
    if isLoading then Skeletons
    else if suggestions.None? then Placeholder
    else if |suggestions.value.modelSuggestions| == 0 then NoDirectMatches
    else SuggestionCards(suggestions.value.modelSuggestions)
  }

  /** Exactly one of the four conditions holds in every state. */
  lemma ExactlyOnePanel(isLoading: bool, suggestions: Option<SuggestOutput>)
    ensures (if ShowsSkeletons(isLoading, suggestions) then 1 else 0)
          + (if ShowsCards(isLoading, suggestions) then 1 else 0)
          + (if ShowsNoMatches(isLoading, suggestions) then 1 else 0)
          + (if ShowsPlaceholder(isLoading, suggestions) then 1 else 0) == 1
  {
  }

  /** The page's state. The remote generator is the parameter `suggestModels`
      of each submission. */
  class Page {
    var suggestions: Option<SuggestOutput>
    var isLoading: bool
    var toasts: seq<Toast>

    constructor ()
      ensures suggestions == None && !isLoading && toasts == []
      ensures Panel() == Placeholder
    {
      suggestions := None;
      isLoading := false;
      toasts := [];
    }

    function Panel(): Panel
      reads this
    {
      PanelShown(isLoading, suggestions)
    }

    /** `onSubmit`: clears the old result and shows the loading panel, awaits
        the server action, then stores its result or raises a toast, and
        finally leaves the loading state. `pending` is the panel on screen
        while the action is awaited. */
    method OnSubmit(data: SuggestInput, suggestModels: SuggestInput -> Result<SuggestOutput, string>)
      returns (pending: Panel)
      modifies this
      ensures pending == Skeletons
      ensures !isLoading
      ensures var run := GetModelSuggestions(SuggestInputToJson(data), suggestModels);
              && (run.outcome.Ok? ==> suggestions == Some(run.outcome.value) && toasts == old(toasts))
              && (run.outcome.Err? ==> suggestions == None && toasts == old(toasts) + [FailureToast])
    {
      isLoading := true;
      suggestions := None;
      pending := Panel();
      var run := GetModelSuggestions(SuggestInputToJson(data), suggestModels);
      match run.outcome {
        case Ok(result) =>
          suggestions := Some(result);
        case Err(_) =>
          toasts := toasts + [FailureToast];
      }
      isLoading := false;
    }

    /** `form.handleSubmit(onSubmit)`: runs `onSubmit` only for values the form
        schema accepts, and otherwise changes nothing. */
    method Submit(values: SuggestInput, suggestModels: SuggestInput -> Result<SuggestOutput, string>)
      returns (submitted: bool)
      modifies this
      ensures submitted == FormAccepts(values)
      ensures !submitted ==> suggestions == old(suggestions) && isLoading == old(isLoading)
                             && toasts == old(toasts)
      ensures submitted ==> !isLoading
      ensures submitted ==>
                var result := suggestModels(values);
                && (result.Ok? ==> suggestions == Some(SuggestOutput(WithProfileLinks(result.value.modelSuggestions)))
                                   && toasts == old(toasts))
                && (result.Err? ==> suggestions == None && toasts == old(toasts) + [FailureToast])
    {
      submitted := FormAccepts(values);
      if submitted {
        ParseAcceptsEveryTypedInput(values);
        var _ := OnSubmit(values, suggestModels);
      }
    }
  }
}
