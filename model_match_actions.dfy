/** The model-suggestion server action (src/app/model-match/actions.ts): the
    input must be an object with a numeric `age` and string `hairColor`,
    `bodyType` and `expertise` (no range or length is checked here), otherwise
    the action throws "Invalid input." before the generator is called; every
    suggestion's `profileLink` is replaced by "/models"; any failure of the
    generator is replaced by one fixed message. */
module ModelMatchActions {
  import opened Common

  datatype SuggestInput = SuggestInput(age: int, hairColor: string, bodyType: string, expertise: string)

  datatype Suggestion = Suggestion(name: string, profileLink: string, reason: string)

  datatype SuggestOutput = SuggestOutput(modelSuggestions: seq<Suggestion>)

  const ProfileLinkPlaceholder := "/models"
  const SuggestFailedMessage := "Failed to get suggestions from the AI model."

  /** `safeParse` with the action's schema: each of the four properties present
      with the right kind; unknown properties are dropped. */
  function ParseSuggestInput(raw: Json): (r: Option<SuggestInput>)
    ensures r.Some? <==>
              && raw.JObject?
              && IsNumberField(raw.fields, "age")
              && IsStringField(raw.fields, "hairColor")
              && IsStringField(raw.fields, "bodyType")
              && IsStringField(raw.fields, "expertise")
    ensures r.Some? ==>
              r.value == SuggestInput(raw.fields["age"].n, raw.fields["hairColor"].s,
                                      raw.fields["bodyType"].s, raw.fields["expertise"].s)
  {
    if raw.JObject? && IsNumberField(raw.fields, "age") && IsStringField(raw.fields, "hairColor")
       && IsStringField(raw.fields, "bodyType") && IsStringField(raw.fields, "expertise")
    then Some(SuggestInput(raw.fields["age"].n, raw.fields["hairColor"].s,
                           raw.fields["bodyType"].s, raw.fields["expertise"].s))
    else None
  }

  /** The JSON object a client sends for `input`. */
  function SuggestInputToJson(input: SuggestInput): Json
  {
    JObject(map["age" := JNumber(input.age), "hairColor" := JString(input.hairColor),
                "bodyType" := JString(input.bodyType), "expertise" := JString(input.expertise)])
  }

  /** The gate accepts every well-typed input and hands it on unchanged: any
      age, negative or far out of the form's range, and empty strings. */
  lemma ParseAcceptsEveryTypedInput(input: SuggestInput)
    ensures ParseSuggestInput(SuggestInputToJson(input)) == Some(input)
  {
    var f := SuggestInputToJson(input).fields;
    assert f["age"] == JNumber(input.age);
    assert f["hairColor"] == JString(input.hairColor);
    assert f["bodyType"] == JString(input.bodyType);
    assert f["expertise"] == JString(input.expertise);
  }

  /** Properties outside the schema play no part in the gate's decision. */
  lemma ParseIgnoresUnknownKeys(fields: map<string, Json>, key: string, v: Json)
    requires key !in {"age", "hairColor", "bodyType", "expertise"}
    ensures ParseSuggestInput(JObject(fields[key := v])) == ParseSuggestInput(JObject(fields))
  {
    var g := fields[key := v];
    assert forall k :: k in {"age", "hairColor", "bodyType", "expertise"} ==> (k in g <==> k in fields);
    assert forall k :: k in {"age", "hairColor", "bodyType", "expertise"} && k in g ==> g[k] == fields[k];
  }

  /** The `map` with object spread that overwrites every `profileLink`. */
  function WithProfileLinks(suggestions: seq<Suggestion>): (r: seq<Suggestion>)
    ensures |r| == |suggestions|
    ensures forall i :: 0 <= i < |r| ==>
              && r[i].name == suggestions[i].name
              && r[i].reason == suggestions[i].reason
              && r[i].profileLink == ProfileLinkPlaceholder
  {
    if suggestions == [] then []
    else [suggestions[0].(profileLink := ProfileLinkPlaceholder)] + WithProfileLinks(suggestions[1..])
  }

  /** Whatever links the generator returned, the rewritten list depends only on
      the names and reasons it returned, in order. */
  lemma {:induction false} WithProfileLinksIgnoresLinks(a: seq<Suggestion>, b: seq<Suggestion>)
    requires |a| == |b|
    requires forall i :: 0 <= i < |a| ==> a[i].name == b[i].name && a[i].reason == b[i].reason
    ensures WithProfileLinks(a) == WithProfileLinks(b)
  {
    if a != [] {
      WithProfileLinksIgnoresLinks(a[1..], b[1..]);
    }
  }

  /** Rewriting twice is rewriting once. */
  lemma {:induction false} WithProfileLinksIdempotent(s: seq<Suggestion>)
    ensures WithProfileLinks(WithProfileLinks(s)) == WithProfileLinks(s)
  {
    var r := WithProfileLinks(s);
    WithProfileLinksIgnoresLinks(WithProfileLinks(r), r);
    // both sides are the placeholder rewrite of the same names and reasons
    assert forall i :: 0 <= i < |r| ==> WithProfileLinks(r)[i] == r[i];
  }

  /** `getModelSuggestions`: the schema gate, the generator call, the link
      rewrite, and the collapse of every generator failure into one message. */
  function GetModelSuggestions(raw: Json, suggestModels: SuggestInput -> Result<SuggestOutput, string>)
    : (run: Run<SuggestInput, SuggestOutput, string>)
    // a rejected input never reaches the generator
    ensures ParseSuggestInput(raw).None? ==> run == Run([], Err(InvalidInputMessage))
    // an accepted input is handed to the generator once, exactly as parsed
    ensures ParseSuggestInput(raw).Some? ==> run.calls == [ParseSuggestInput(raw).value]
    ensures run.outcome.Ok? <==>
              ParseSuggestInput(raw).Some? && suggestModels(ParseSuggestInput(raw).value).Ok?
    ensures run.outcome.Ok? ==>
              var generated := suggestModels(ParseSuggestInput(raw).value).value.modelSuggestions;
              run.outcome.value.modelSuggestions == WithProfileLinks(generated)
    // the caller only ever sees one of the two fixed messages
    ensures run.outcome.Err? ==>
              run.outcome.error == (if ParseSuggestInput(raw).None? then InvalidInputMessage
                                    else SuggestFailedMessage)
  {
    match ParseSuggestInput(raw)
    case None => Run([], Err(InvalidInputMessage))
    case Some(input) =>
      match suggestModels(input)
      case Err(_) => Run([input], Err(SuggestFailedMessage))
      case Ok(result) => Run([input], Ok(SuggestOutput(WithProfileLinks(result.modelSuggestions))))
  }

  /** Every suggestion of a successful result links to "/models", and the
      result lists the generator's names and reasons in the generator's order. */
  lemma SuccessfulSuggestionsLinkToModels(raw: Json, suggestModels: SuggestInput -> Result<SuggestOutput, string>)
    requires GetModelSuggestions(raw, suggestModels).outcome.Ok?
    ensures var out := GetModelSuggestions(raw, suggestModels).outcome.value.modelSuggestions;
            var generated := suggestModels(ParseSuggestInput(raw).value).value.modelSuggestions;
            && |out| == |generated|
            && forall i :: 0 <= i < |out| ==>
                 out[i] == Suggestion(generated[i].name, ProfileLinkPlaceholder, generated[i].reason)
  {
  }

  /** What the generator raised never reaches the caller. */
  lemma CauseNeverLeaks(raw: Json,
                        suggest1: SuggestInput -> Result<SuggestOutput, string>,
                        suggest2: SuggestInput -> Result<SuggestOutput, string>)
    requires forall x :: SameUpToCause(suggest1(x), suggest2(x))
    ensures GetModelSuggestions(raw, suggest1) == GetModelSuggestions(raw, suggest2)
  {
    if ParseSuggestInput(raw).Some? {
      assert SameUpToCause(suggest1(ParseSuggestInput(raw).value), suggest2(ParseSuggestInput(raw).value));
    }
  }

  /** A worked case: a generator answering one suggestion with a link of its
      own yields that suggestion with the placeholder link. */
  lemma PlaceholderLinkExample()
    ensures var input := SuggestInput(25, "Brown", "Athletic", "Editorial");
            var stub := (x: SuggestInput) =>
              Ok(SuggestOutput([Suggestion("Alex", "ignored", "matches profile")]));
            GetModelSuggestions(SuggestInputToJson(input), stub)
              == Run([input], Ok(SuggestOutput([Suggestion("Alex", "/models", "matches profile")])))
  {
    var input := SuggestInput(25, "Brown", "Athletic", "Editorial");
    ParseAcceptsEveryTypedInput(input);
    assert WithProfileLinks([Suggestion("Alex", "ignored", "matches profile")])
        == [Suggestion("Alex", "/models", "matches profile")];
  }
}
