# eMM-Muse request pipeline and roster filter, in Dafny

This project models the deterministic core of a modelling-agency website that has two
AI-assisted features, written against the site's Next.js/TypeScript source:

- **Model matching.** The server action `getModelSuggestions` checks its input against a zod
  schema. It then calls the hosted model through `suggestModels` and replaces every
  suggestion's `profileLink` with `"/models"`. Any failure of the generator becomes one fixed
  message.
- **Photoshoot ideas.** The server action `getPhotoshootIdea` requires a theme of at least
  three characters. It then runs the two-step flow `generatePhotoshootIdeaFlow`:
  - a text concept is requested first;
  - a fixed image-prompt sentence is built from the theme and the concept's mood, location
    and styling;
  - an image is requested with that prompt, and missing media is an error;
  - the output is assembled from these pieces.
- **The two form pages.** Each page has a form schema and default values. The `onSubmit`
  handler updates `isLoading` and the result step by step. A render rule picks which result
  panel is on screen.
- **The roster page.** It builds distinct specialty and location option lists, each prefixed
  with `"all"`. Its three-way filter keeps models by case-insensitive name search, specialty
  and location.

The remote model calls are **oracles passed as function parameters**. They return
`Ok(answer)` or `Err(cause)` for a thrown error. Each entry point returns a `Run`: the remote
calls it issued, in order, plus its outcome. Statements such as "the generator is never
called" and "the image call happens only after the concept call succeeded" are therefore
statements about `Run.calls`.

Modules, one per source file:

| module | file | source |
|---|---|---|
| `Common` | common.dfy | shared `Option`, `Result`, `Run`, and the untyped `Json` input of server actions |
| `PhotoshootFlow` | photoshoot_flow.dfy | src/ai/flows/generate-photoshoot-idea.ts |
| `PhotoshootActions` | photoshoot_actions.dfy | src/app/photoshoot-hub/actions.ts |
| `ModelMatchActions` | model_match_actions.dfy | src/app/model-match/actions.ts |
| `Roster` | roster.dfy | src/app/models/page.tsx |
| `ModelMatchPage` | model_match_page.dfy | src/app/model-match/page.tsx |
| `PhotoshootHubPage` | photoshoot_hub_page.dfy | src/app/photoshoot-hub/page.tsx |

Facts about the code that the model keeps:

- The server-side schema of `getModelSuggestions` checks only that `age` is a number
  (src/app/model-match/actions.ts:6-11). It accepts any age, including -1, and empty strings.
  Only the page's form restricts the age to 18–50 and requires non-empty strings.
- A rejected input is reported only as "Invalid input.", with no field-level detail.
- The generator's output is not validated again beyond the `profileLink` rewrite.

## Model

| member | source | states |
|---|---|---|
| `PhotoshootFlow.GeneratePhotoshootIdeaFlow` | src/ai/flows/generate-photoshoot-idea.ts:71-98 | The concept call is always issued first, and at most two calls are issued. A failed concept call, or one without output, ends the flow with that one call and no image call. Once a concept is known, exactly one image call follows, with the image-generation model, the prompt `ImagePromptText(theme, concept)` and the TEXT and IMAGE modalities. Missing media fails with "Image generation failed.". The flow succeeds exactly when both calls answered. On success, `concept` is the first call's concept unchanged, `image.prompt` is the prompt and `image.url` is the media url |
| `PhotoshootFlow.ImagePromptFields` | src/ai/flows/generate-photoshoot-idea.ts:77 | The image prompt is the fixed sentence `A high-fashion, award-winning photograph of a male model. The theme is "<theme>". Mood: <mood>. Location: <location>. Styling: <styling>.`. The theme, mood, location and styling can each be read back at offsets fixed by the lengths before them. The total length is accounted for exactly |
| `PhotoshootFlow.ImagePromptIgnoresProps` | src/ai/flows/generate-photoshoot-idea.ts:77-86 | The image request does not depend on the concept's `props` |
| `PhotoshootActions.ParseIdeaInput` | src/app/photoshoot-hub/actions.ts:6-16 | The schema accepts exactly an object whose `theme` is a string of length at least 3, and it keeps that theme |
| `PhotoshootActions.GetPhotoshootIdea` | src/app/photoshoot-hub/actions.ts:10-24 | A rejected input gives "Invalid input." with no remote call. An accepted input issues the flow's calls. The flow's result is returned unchanged, and every flow failure becomes "Failed to get a photoshoot idea from the AI model.". No other message reaches the caller |
| `PhotoshootActions.ThemeLengthBoundary` | src/app/photoshoot-hub/actions.ts:7 | A theme of length 3 or more reaches the concept call. A shorter theme is refused with no call issued |
| `PhotoshootActions.CauseNeverLeaks` | src/app/photoshoot-hub/actions.ts:20-23 | Oracles that differ only in what their failures carry give identical runs, so the provider's error never reaches the caller |
| `ModelMatchActions.ParseSuggestInput` | src/app/model-match/actions.ts:6-18 | The schema accepts exactly an object with a non-NaN number `age` and string `hairColor`, `bodyType` and `expertise`, and it keeps those four values |
| `ModelMatchActions.ParseAcceptsEveryTypedInput` | src/app/model-match/actions.ts:6-11 | Every well-typed input passes the server schema unchanged, including any age and empty strings |
| `ModelMatchActions.ParseIgnoresUnknownKeys` | src/app/model-match/actions.ts:6-14 | Properties outside the schema do not affect the parse |
| `ModelMatchActions.WithProfileLinks` | src/app/model-match/actions.ts:24-27 | The rewrite keeps the length, order, names and reasons, and every `profileLink` becomes "/models" |
| `ModelMatchActions.WithProfileLinksIgnoresLinks` | src/app/model-match/actions.ts:24-27 | The rewritten list depends only on the generator's names and reasons, whatever links it returned |
| `ModelMatchActions.WithProfileLinksIdempotent` | src/app/model-match/actions.ts:24-27 | Rewriting twice equals rewriting once |
| `ModelMatchActions.GetModelSuggestions` | src/app/model-match/actions.ts:13-35 | A rejected input gives "Invalid input." and the generator is never called. An accepted input is passed to the generator exactly once, as parsed. The action succeeds exactly when the generator answers, with the rewritten list. Any generator failure gives only "Failed to get suggestions from the AI model." |
| `ModelMatchActions.SuccessfulSuggestionsLinkToModels` | src/app/model-match/actions.ts:24-29 | In a successful result, entry i is `(name_i, "/models", reason_i)` of the generator's entry i, with the same count |
| `ModelMatchActions.CauseNeverLeaks` | src/app/model-match/actions.ts:31-34 | Generators that differ only in their failure causes give identical runs |
| `ModelMatchActions.PlaceholderLinkExample` | src/app/model-match/actions.ts:20-29 | For the default form values, a generator answering `Alex / ignored / matches profile` yields `Alex / "/models" / matches profile` after one call |
| `Roster.LowerChar` | src/app/models/page.tsx:25 | ASCII lowercasing: upper-case letters move to lower case, and everything else is unchanged |
| `Roster.Lower` | src/app/models/page.tsx:25 | Lowercasing keeps the length and lowers each character |
| `Roster.LowerIdempotent` | src/app/models/page.tsx:25 | Lowering twice equals lowering once |
| `Roster.IncludesIffOccurs` | src/app/models/page.tsx:25 | `includes` holds exactly when the needle occurs at some position of the haystack |
| `Roster.FilteredModels` | src/app/models/page.tsx:23-30 | No longer than the roster. A model is in the result exactly when it is in the roster and matches all three conditions |
| `Roster.PositionsIncrease` | src/app/models/page.tsx:23-29 | The positions the filter keeps lie inside the roster and strictly increase |
| `Roster.PositionsExact` | src/app/models/page.tsx:23-29 | A roster position is kept exactly when the model there matches |
| `Roster.FilteredAtPositions` | src/app/models/page.tsx:23-29 | The filtered list has one model per kept position, and its i-th model is the roster's model at the i-th kept position |
| `Roster.FilteredIsSubsequence` | src/app/models/page.tsx:23-29 | The result is an order-preserving subsequence: entry i is the roster entry at position pos[i]. The positions strictly increase and are exactly the positions of matching models |
| `Roster.FilteredSoundAndComplete` | src/app/models/page.tsx:24-29 | Membership in the result means three things hold: the lowered name includes the lowered search term, the specialty filter is "all" or equal, and the location filter is "all" or equal |
| `Roster.SearchIgnoresCase` | src/app/models/page.tsx:25 | Lowering the search term first does not change the result |
| `Roster.FilteredDependsOnlyOnMatches` | src/app/models/page.tsx:24-29 | Two filter states that match the same models give the same list |
| `Roster.InitialFiltersShowAll` | src/app/models/page.tsx:16-28 | With the initial state ("", "all", "all"), the result is the whole roster in order |
| `Roster.NoMatchMessageIffNoModelMatches` | src/app/models/page.tsx:109-113 | "No models match your criteria." is shown exactly when no roster model matches |
| `Roster.Distinct` | src/app/models/page.tsx:20-21 | `[...new Set(s)]` holds exactly the values of `s`, each once |
| `Roster.FirstIndex` | src/app/models/page.tsx:20-21 | Gives the position of the first occurrence of a value |
| `Roster.DistinctInFirstOccurrenceOrder` | src/app/models/page.tsx:20-21 | The distinct values appear in the order of their first occurrence (Set insertion order) |
| `Roster.FieldValues` | src/app/models/page.tsx:20-21 | `allModels.map(...)`: one value per roster model, in roster order, each the model's value of the field |
| `Roster.OptionsProperties` | src/app/models/page.tsx:20-21 | A select's options start with "all". The remaining entries are distinct, each is some model's value of the field, every model's value appears, and they are in first-occurrence order |
| `Roster.SpecialtyOptionsProperties` | src/app/models/page.tsx:20 | The specialty options start with "all". The remaining entries are distinct, each is some model's specialty, every model's specialty appears, and they are in first-occurrence order |
| `Roster.LocationOptionsProperties` | src/app/models/page.tsx:21 | The same for the location options |
| `ModelMatchPage.FormStricterThanServer` | src/app/model-match/page.tsx:25-30 | Every well-typed value, so every form-valid submission, passes the server schema unchanged and reaches the generator. An age of 17 is refused by the form yet reaches the generator |
| `ModelMatchPage.DefaultValuesAccepted` | src/app/model-match/page.tsx:39-44 | The default values (25, "Brown", "Athletic", "Editorial") pass the form schema |
| `ModelMatchPage.ExactlyOnePanel` | src/app/model-match/page.tsx:174-215 | In every state exactly one of the four panel conditions holds |
| `ModelMatchPage.PanelShown` | src/app/model-match/page.tsx:174-215 | The panel on screen is the one whose condition holds: loading; a non-empty suggestion list (those cards); "No direct matches"; or the placeholder |
| `ModelMatchPage.Page.constructor` | src/app/model-match/page.tsx:33-34 | The page starts with no suggestions, not loading, and the placeholder panel |
| `ModelMatchPage.Page.OnSubmit` | src/app/model-match/page.tsx:47-62 | Loading is shown while the action is awaited. On success `suggestions` holds the result. On failure it stays null and one destructive toast is added. Afterwards `isLoading` is false |
| `ModelMatchPage.Page.Submit` | src/app/model-match/page.tsx:37-85 | `onSubmit` runs exactly for form-valid values, and otherwise nothing changes. For valid values the suggestions are the generator's list with rewritten links, or null with a toast |
| `PhotoshootHubPage.FormAgreesWithServer` | src/app/photoshoot-hub/page.tsx:25-29 | A theme passes the form exactly when the server schema accepts it unchanged, and exactly when the server action issues any remote call |
| `PhotoshootHubPage.DefaultValuesRefused` | src/app/photoshoot-hub/page.tsx:38-40 | The default empty theme does not pass the form schema |
| `PhotoshootHubPage.ExactlyOnePanel` | src/app/photoshoot-hub/page.tsx:107-141 | In every state exactly one of the three panel conditions holds |
| `PhotoshootHubPage.PanelShown` | src/app/photoshoot-hub/page.tsx:107-141 | The panel on screen is the one whose condition holds: loading; the concept card for the idea; or the placeholder. The card renders the image exactly when `image.url` is non-empty |
| `PhotoshootHubPage.GeneratedImageShown` | src/app/photoshoot-hub/page.tsx:112-121 | For an idea produced by the action, the image is rendered exactly when the generator's media url is non-empty |
| `PhotoshootHubPage.Page.constructor` | src/app/photoshoot-hub/page.tsx:32-33 | The page starts with no idea, not loading, and the placeholder panel |
| `PhotoshootHubPage.Page.OnSubmit` | src/app/photoshoot-hub/page.tsx:43-58 | Loading is shown while the action is awaited. On success `idea` holds the result. On failure it stays null and one toast is added. Afterwards `isLoading` is false |
| `PhotoshootHubPage.Page.Submit` | src/app/photoshoot-hub/page.tsx:36-81 | `onSubmit` runs exactly for a theme of at least 3 characters, and otherwise nothing changes. For a valid theme, `idea` is the flow's output or null with a toast |

These members have no row. The form predicates `ModelMatchPage.FormAccepts` and
`PhotoshootHubPage.FormAccepts` have no `ensures` clause; the lemmas in the table above state
what they accept. The following members also have no `ensures` clause of their own.
`PhotoshootFlow.ImagePromptText` builds the image prompt (src/ai/flows/generate-photoshoot-idea.ts:77),
and `PhotoshootFlow.ImageRequestFor` builds the image request
(src/ai/flows/generate-photoshoot-idea.ts:80-86); `ImagePromptFields`, `ImagePromptIgnoresProps`
and `GeneratePhotoshootIdeaFlow` state what they produce. `Roster.Includes` and `Roster.Matches`
model the filter test (src/app/models/page.tsx:24-28), `Roster.MatchingPositions` the roster
positions the filter keeps (src/app/models/page.tsx:23-29), and `Roster.SpecialtyOptions` and
`Roster.LocationOptions` the option lists (src/app/models/page.tsx:20-21), both through
`Roster.Options`; the lemmas in the
table above state their properties.

## Left out

- The remote model calls are not modelled. This covers `ideaPrompt`, `ai.generate` and
  `suggestModels` with its prompt template (src/ai/flows/suggest-models.ts), and Genkit with
  its Gemini provider (src/ai/genkit.ts). These are foreign libraries, so each call is an
  oracle parameter that returns an answer or a failure. `suggestModels` returning no output is
  one of its failures.
- The internals of zod and react-hook-form are not modelled, including the string-to-number
  coercion of `z.coerce.number`. Their resulting constraints are stated directly on integers
  and strings. Genkit's own input and output schema checks in `defineFlow` are not modelled;
  for the values built here they always pass.
- `ModelMatchActions.ParseSuggestInput`: JavaScript numbers are modelled as integers plus NaN.
  Fractional ages and ±Infinity, which `z.number()` also accepts, are not represented.
- `PhotoshootActions.ParseIdeaInput`: a theme's length counts Unicode characters. zod counts
  UTF-16 code units, so themes with characters outside the Basic Multilingual Plane are
  measured differently.
- `Roster.LowerChar`: `toLowerCase` is modelled for ASCII letters only. Full Unicode case
  mapping is a library table.
- `ModelMatchActions.WithProfileLinks`: object spread would also copy any extra properties the
  generator returned. The model's suggestion record has exactly `name`, `profileLink` and
  `reason`.
- The contents of `allModels` are not modelled because that constants module is not part of
  this model. The roster is a parameter. The roster page's three `useState` fields are only
  ever replaced whole, so they are one `Filters` value.
- Async scheduling is not modelled: React state batching, `useMemo`, and overlapping
  submissions while a request is still pending. The only intermediate state modelled is the
  panel on screen during the await. `console.error` logging is not modelled either.
- Rendering is not modelled: JSX, styling, animations, images and icons. This also covers the
  header, footer, layout, home page and blog pages, which only display static content.
- `Roster.OptionsProperties`, `Roster.SpecialtyOptionsProperties` and
  `Roster.LocationOptionsProperties` do not claim that
  `"all"` differs from every later entry. A roster model whose specialty or location is
  literally "all" would appear twice in the list.
