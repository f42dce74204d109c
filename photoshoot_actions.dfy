/** The photoshoot server action (src/app/photoshoot-hub/actions.ts): the
    theme must be a string of at least three characters, otherwise the action
    throws "Invalid input." before the flow runs; the flow's result is passed
    through unchanged, and any failure of the flow is replaced by one fixed
    message. */
module PhotoshootActions {
  import opened Common
  import opened PhotoshootFlow

  const MinThemeLength := 3
  const IdeaFailedMessage := "Failed to get a photoshoot idea from the AI model."

  /** `safeParse` with `z.object({ theme: z.string().min(3) })`: accepts exactly
      an object whose `theme` is a string of length at least 3, and keeps only
      that property. */
  function ParseIdeaInput(raw: Json): (r: Option<IdeaInput>)
    ensures r.Some? <==>
              raw.JObject? && IsStringField(raw.fields, "theme")
              && |raw.fields["theme"].s| >= MinThemeLength
    ensures r.Some? ==> r.value.theme == raw.fields["theme"].s
  {
    if raw.JObject? && IsStringField(raw.fields, "theme") && |raw.fields["theme"].s| >= MinThemeLength
    then Some(IdeaInput(raw.fields["theme"].s))
    else None
  }

  /** The JSON object the page sends for the theme form's values. */
  function IdeaInputToJson(input: IdeaInput): Json
  {
    JObject(map["theme" := JString(input.theme)])
  }

  /** `getPhotoshootIdea`: the schema gate, then the flow, with every failure
      of the flow collapsed into one message. */
  function GetPhotoshootIdea(
    raw: Json,
    ideaPrompt: IdeaInput -> Result<Option<Concept>, string>,
    generate: ImageRequest -> Result<Option<Media>, string>
  ): (run: Run<FlowCall, IdeaOutput, string>)
    // a rejected input issues no generation call at all
    ensures ParseIdeaInput(raw).None? ==> run == Run([], Err(InvalidInputMessage))
    ensures ParseIdeaInput(raw).Some? ==>
              var flow := GeneratePhotoshootIdeaFlow(ParseIdeaInput(raw).value, ideaPrompt, generate);
              && run.calls == flow.calls
              && (flow.outcome.Ok? ==> run.outcome == Ok(flow.outcome.value))
              && (flow.outcome.Err? ==> run.outcome == Err(IdeaFailedMessage))
    // the caller only ever sees one of the two fixed messages
    ensures run.outcome.Err? ==>
              run.outcome.error == InvalidInputMessage || run.outcome.error == IdeaFailedMessage
  {
    match ParseIdeaInput(raw)
    case None => Run([], Err(InvalidInputMessage))
    case Some(input) =>
      var flow := GeneratePhotoshootIdeaFlow(input, ideaPrompt, generate);
      match flow.outcome
      case Ok(idea) => Run(flow.calls, Ok(idea))
      case Err(_) => Run(flow.calls, Err(IdeaFailedMessage))
  }

  /** The gate's boundary: a theme of exactly three characters reaches the
      concept call, and every shorter theme is refused with no call issued. */
  lemma ThemeLengthBoundary(theme: string,
                            ideaPrompt: IdeaInput -> Result<Option<Concept>, string>,
                            generate: ImageRequest -> Result<Option<Media>, string>)
    ensures var run := GetPhotoshootIdea(IdeaInputToJson(IdeaInput(theme)), ideaPrompt, generate);
            && (|theme| >= 3 ==> run.calls[0] == ConceptCall(IdeaInput(theme)))
            && (|theme| < 3 ==> run == Run([], Err(InvalidInputMessage)))
  {
    var raw := IdeaInputToJson(IdeaInput(theme));
    assert raw.fields["theme"] == JString(theme);
  }

  /** What the provider raised never reaches the caller: oracles that answer
      alike except for their failure causes give the same outcome. */
  lemma CauseNeverLeaks(raw: Json,
                        ideaPrompt1: IdeaInput -> Result<Option<Concept>, string>,
                        generate1: ImageRequest -> Result<Option<Media>, string>,
                        ideaPrompt2: IdeaInput -> Result<Option<Concept>, string>,
                        generate2: ImageRequest -> Result<Option<Media>, string>)
    requires forall x :: SameUpToCause(ideaPrompt1(x), ideaPrompt2(x))
    requires forall q :: SameUpToCause(generate1(q), generate2(q))
    ensures GetPhotoshootIdea(raw, ideaPrompt1, generate1) == GetPhotoshootIdea(raw, ideaPrompt2, generate2)
  {
    if ParseIdeaInput(raw).Some? {
      var input := ParseIdeaInput(raw).value;
      assert SameUpToCause(ideaPrompt1(input), ideaPrompt2(input));
      if ideaPrompt1(input).Ok? && ideaPrompt1(input).value.Some? {
        var request := ImageRequestFor(input.theme, ideaPrompt1(input).value.value);
        assert SameUpToCause(generate1(request), generate2(request));
      }
    }
  }
}
