# CopyCraft core in Dafny

CopyCraft is a single-page marketing-copy generator. The user picks a mode
(copywriting or scriptwriting), a persuasion framework, a content pillar, a
tone, an output language and optionally a brand profile. The page then builds
a system instruction and a prompt and sends both to a hosted language model.
This project models the three deterministic pieces around that model call:

- `types.dfy` (module `Types`): the enumerations, the brand profile, the
  content request, and `Option`/`Result`. Enumerated request fields that the
  service switches on with a `default:` branch (framework, pillar, language)
  have type `Choice<E>`, which is either a declared member or some other raw
  value. The front end's types are not checked at run time, so the fallback
  branches can be reached.
- `text.dfy` (module `Text`): what it means for a text to contain, end with,
  or hold several parts in order. It also holds generic lemmas for templates
  built by concatenation.
- `gemini_service.dfy` (module `GeminiService`): the prompt composer. This
  covers the framework, pillar and language instruction tables, the system
  instruction and the brand context. It also covers the audience fallback
  chain, the request block, the closing rules, the prompt template, and the
  client's handling of the model's reply.
- `catalog.dfy` (module `Catalog`): the static tables. These are the two
  framework lists, the framework detail cards, the key coverage of the label
  tables, and the seeded brands.
- `app.dfy` (module `AppState`): the page state as a class, `App`. Its fields
  are `brands`, `selectedBrandId`, `formData`, `loading` and
  `generatedContent`. There is one method per handler. `Valid()` holds three
  invariants: the framework fits the mode, content is absent while loading,
  and the draft agrees with the brand selection.

The prompt is `Render(SectionsOf(req))`. `Render` fills six sections into the
fixed template, and its ordering lemma holds for any section texts. Each
section's facts are proved in a lemma about its own function. The page's
brand-sync effect is `Synced`. It runs at the end of `AddBrand`,
`DeleteBrand` and a `SelectBrand` that changes the selection. These are
exactly the moments when React re-runs the effect, because one of its two
dependencies has changed. React also runs the effect once after the first
render, with no brand selected. That run changes nothing: the initial draft
already agrees with the empty selection (`InitialStateValid`), and the effect
leaves a draft unchanged exactly when it agrees (`SyncedIsSynced`).

The model follows the code where the code leaves something open:

- **No guard while loading.** App.tsx has no check that ignores a second
  submit while one is in progress. The model has none either, so
  `StartGenerate` may be called while `loading` is already true.
- **Every reply path.** The model service is not modelled. It is a function
  passed to `GenerateCopy`, and `Outcome` states what the client does with
  each kind of reply.

## Model

| member | source | states |
|---|---|---|
| GeminiService.FrameworkInstruction | services/geminiService.ts:10-45 | non-empty exactly for the 13 declared frameworks, `""` for any other value |
| GeminiService.FrameworkStepsInOrder | services/geminiService.ts:14-16 | the AIDA text lists Attention, Interest, Desire, Action in that order, and the PAS text lists Problem, Agitation, Solution in that order |
| GeminiService.LanguageInstruction | services/geminiService.ts:47-57 | Burmese contains the Unicode and "Do NOT just transliterate" directives; Thai contains "polite and persuasive"; English and any unrecognised value give the English directive |
| GeminiService.PillarInstruction | services/geminiService.ts:59-76 | non-empty exactly for the 6 declared pillars, `""` otherwise |
| GeminiService.RuleBlocksDiffer | services/geminiService.ts:88-99 | the two rule blocks differ near their end, so no string ends with both |
| GeminiService.SystemTemplateShape | services/geminiService.ts:83-88 | whatever persona, goal and rules are filled in, the system instruction contains the persona and ends with the rules |
| GeminiService.SystemTemplate | services/geminiService.ts:83-88 | definition: the fixed system-instruction text around a persona, a goal and a rule block; its shape is proved in `SystemTemplateShape` |
| GeminiService.SystemInstruction | services/geminiService.ts:81-99 | definition: the template filled with the scriptwriting or the copywriting persona, goal and rule block, chosen by mode; its properties are proved in `ScriptSystemInstruction` and `CopySystemInstruction` |
| GeminiService.ScriptInstructionLacksCopyRules | services/geminiService.ts:83-99 | the copywriting rule block occurs nowhere in the script-mode system instruction |
| GeminiService.CopyInstructionLacksScriptRules | services/geminiService.ts:83-99 | the scriptwriting rule block occurs nowhere in the copy-mode system instruction |
| GeminiService.ScriptSystemInstruction | services/geminiService.ts:83-95 | in script mode: the scriptwriter persona, the `[VISUAL]` cue rule, ends with the scriptwriting block; the copywriting block occurs nowhere in it |
| GeminiService.CopySystemInstruction | services/geminiService.ts:83-99 | in copy mode: the copywriter persona, "Do not explain the framework", ends with the copywriting block; the scriptwriting block occurs nowhere in it |
| GeminiService.BrandContext | services/geminiService.ts:102-110 | definition: the brand block with the four brand fields, or the generic marker without a brand; its properties are proved in `BrandContextFields` |
| GeminiService.BrandContextFields | services/geminiService.ts:102-110 | with a brand: name, industry, story and standard audience appear verbatim and in that order; without one: exactly the generic marker |
| GeminiService.ResolvedAudience | services/geminiService.ts:118 | definition: the JavaScript or-chain over the draft audience, the brand default and "General Audience"; its properties are proved in `AudienceFallback` |
| GeminiService.AudienceFallback | services/geminiService.ts:118 | the audience is the draft's own if non-empty, else the brand default if present and non-empty, else "General Audience"; never empty |
| GeminiService.RequestBlock | services/geminiService.ts:115-120 | definition: the request block with the kind of content, topic, details, resolved audience, tone and pillar; its properties are proved in `RequestBlockFields` |
| GeminiService.RequestBlockFields | services/geminiService.ts:115-120 | topic, details, resolved audience, tone and pillar appear in that order |
| GeminiService.ClosingRules | services/geminiService.ts:131-135 | definition: the rule list with the script-only Burmese note, the tone and the pillar; its properties are proved in `ClosingRulesFields` |
| GeminiService.ClosingRulesFields | services/geminiService.ts:131-135 | the spoken-Burmese note (script mode only), then tone, then pillar |
| GeminiService.Render | services/geminiService.ts:112-136 | definition: the prompt template with its six sections filled in; its properties are proved in `RenderInOrder` and `RenderContains` |
| GeminiService.SectionsOf | services/geminiService.ts:112-136 | definition: the six sections of a request (brand context, request block, framework instruction, pillar instruction, language instruction, closing rules); each section's facts are proved in that section's lemma |
| GeminiService.Prompt | services/geminiService.ts:112-136 | definition: `Render(SectionsOf(req))`; the `Render` lemmas apply to it with `SectionsOf(req)` as the sections |
| GeminiService.RenderInOrder | services/geminiService.ts:112-136 | the prompt holds brand context, request block, framework task, pillar focus, language requirement and closing rules, in that order |
| GeminiService.RenderContains | services/geminiService.ts:112-136 | anything a section contains, the prompt contains |
| GeminiService.MyanmarScriptPrompt | services/geminiService.ts:129-133 | a Burmese script-mode prompt carries the non-transliteration directive and the spoken-register note |
| GeminiService.EarbudsScenario | services/geminiService.ts:110-136 | a copy-mode AIDA request with no brand and no audience yields a prompt with the generic brand marker, the topic, "General Audience" and all four AIDA steps |
| GeminiService.ResponseText | services/geminiService.ts:150 | an empty or absent reply text becomes the fixed apology, any other text passes unchanged; the result is never empty |
| GeminiService.Outcome | services/geminiService.ts:138-154 | a failed call becomes the one normalised failure; any answered call succeeds with the normalised, non-empty text |
| GeminiService.GenerateCopy | services/geminiService.ts:78-155 | definition: the model service applied to the mode's system instruction and the prompt, its reply normalised by `Outcome`; the reply handling is proved in `Outcome` |
| Types.ToneValue | services/geminiService.ts:119 | every tone interpolates as a non-empty text |
| Types.PillarValue | services/geminiService.ts:120 | a declared pillar interpolates as a non-empty text; any other value as itself |
| Catalog.ModeFrameworks | App.tsx:85 | each mode's list is non-empty and holds script frameworks exactly in script mode |
| Catalog.FrameworkListsDisjoint | constants.ts:22-30 | the lists share no framework and start with AIDA and HOOK_VALUE_CTA |
| Catalog.FrameworkDetailsComplete | constants.ts:32-101 | every framework has a detail card and is in one of the two lists |
| Catalog.FrameworkListsCoverDetails | constants.ts:22-101 | the detail table's keys are exactly the union of the two lists |
| Catalog.LabelTablesComplete | constants.ts:17-121 | every mode (lines 17-20), tone (lines 103-112) and pillar (lines 114-121) has a label entry in each of EN, MY and TH |
| Catalog.DefaultBrandIdsDistinct | constants.ts:226-243 | two seeded brands, `demo-1` and `demo-2`, with distinct ids |
| AppState.FindBrand | App.tsx:53 | a found brand is in the registry and has the id; none is found exactly when no brand has the id |
| AppState.FindBrandFirst | App.tsx:53 | the lookup returns the first brand with the id |
| AppState.FindBrandAppend | App.tsx:69 | appending a brand changes a lookup only when the id was absent before and is the new brand's |
| AppState.FindAfterDelete | App.tsx:74 | deleting one id leaves the lookup of every other id unchanged |
| AppState.WithoutBrand | App.tsx:74 | no brand of the deleted id remains, and the registry never grows |
| AppState.WithoutBrandMembers | App.tsx:74 | a brand is kept exactly when it was there and has another id |
| AppState.WithoutBrandAppend | App.tsx:74 | deleting distributes over concatenation, so the kept brands stay in their order |
| AppState.WithoutAbsentBrand | App.tsx:74 | deleting an id no brand has changes nothing |
| AppState.DeleteAfterAddRestores | App.tsx:68-78 | adding a brand with a fresh id and deleting it again restores the registry |
| AppState.Truthy | App.tsx:52 | definition: JavaScript truthiness of the selection, so `null` and `""` both count as no selection (also at line 117); used by the effect and by Clear |
| AppState.FrameworkFitsMode | App.tsx:80-87 | definition: the framework belongs to the current mode's list; kept by `ModeChangeFits`, `SyncedIsSynced` and `ClearedKeepsInvariants` |
| AppState.BrandSynced | App.tsx:51-66 | definition: the draft agrees with the selection as the effect leaves it; established by `SyncedIsSynced` |
| AppState.Synced | App.tsx:51-66 | definition: the brand-sync effect on the draft; its properties are proved in `SyncedIsSynced`, `SyncFound`, `SyncAbsent` and `SyncDeselected` |
| AppState.WithMode | App.tsx:80-87 | definition: the draft after a mode switch; its properties are proved in `ModeChangeFits` |
| AppState.Cleared | App.tsx:110-119 | definition: the draft after Clear; its properties are proved in `ClearedKeepsInvariants` |
| AppState.InitialStateValid | App.tsx:23-36 | the start state has a framework that fits its mode and no brand attached |
| AppState.SyncedIsSynced | App.tsx:51-66 | after the effect the draft agrees with the selection; the effect leaves a draft unchanged exactly when it already agrees; running it twice is running it once |
| AppState.SyncFound | App.tsx:51-60 | a found selection sets tone, audience and brand from the first matching brand, and nothing else |
| AppState.SyncAbsent | App.tsx:51-55 | a selected id no brand has leaves the draft unchanged |
| AppState.SyncDeselected | App.tsx:61-64 | with no selection only the brand is detached; tone and audience keep their values |
| AppState.AddBrandApplies | App.tsx:51-71 | adding a brand with a fresh, non-empty id applies its tone, audience and profile |
| AppState.DeleteOtherResyncs | App.tsx:51-78 | deleting a brand other than the selected one re-applies the same defaults as before |
| AppState.ModeChangeFits | App.tsx:80-87 | a mode switch selects the first framework of the new mode's list and changes nothing but mode and framework |
| AppState.ClearedKeepsInvariants | App.tsx:110-119 | Clear empties topic and details, keeps the audience exactly when a brand is selected, changes nothing else, keeps the invariants, and is idempotent |
| AppState.App.constructor | App.tsx:19-36 | the seeded brands, no selection, the initial draft (copywriting, AIDA, promotional, English, professional), not loading, no content |
| AppState.App.SyncBrandDefaults | App.tsx:51-66 | the draft becomes `Synced` of the old draft under the current registry and selection; nothing else changes |
| AppState.App.ModeChange | App.tsx:80-87 | the draft becomes `WithMode`; the invariants are kept and nothing else changes |
| AppState.App.AddBrand | App.tsx:68-71 | the brand is appended, its id selected, and the effect run; the invariants are kept |
| AppState.App.DeleteBrand | App.tsx:73-78 | every brand of the id is removed, the selection dropped exactly when it was that id, and the effect run; the invariants are kept |
| AppState.App.SelectBrand | App.tsx:167 | the selection setter handed to the brand manager: the selection is set, and the effect of lines 51-66 runs only when it changed |
| AppState.App.StartGenerate | App.tsx:89-93 | loading is raised, content cleared, the unchanged draft handed out |
| AppState.App.FinishGenerate | App.tsx:94-107 | loading drops; success sets the content, failure leaves it absent; the draft is untouched |
| AppState.App.Clear | App.tsx:110-119 | the content is cleared and the draft becomes `Cleared`; the invariants are kept |

## Left out

- The model call itself (services/geminiService.ts:1-8, 138-148) is network I/O through a foreign SDK. It is a function parameter of `GenerateCopy`. The model name and the sampling parameters (temperature, topK, topP) are not modelled.
- The console and alert output, and the text of the thrown error, are left out. A failure is the single value `GenerationFailed`.
- The asynchrony of `handleGenerate` is left out. It is split into `StartGenerate` and `FinishGenerate`, and the caller passes `GenerateCopy` applied to the draft from `StartGenerate` to `FinishGenerate`. Anything that interleaves between the two halves is not modelled.
- Dark mode, scrolling, the timer, the UI language and all rendering (App.tsx:14-17, 38-48, 97-100, 121-243) are left out.
- The child components BrandManager, FrameworkSelector and InputForm are not part of this model. So the free framework setter at App.tsx:179 and the draft edits through InputForm are not transitions here. The invariants hold for the handlers App.tsx defines.
- Label texts, translations and icons in constants.ts are left out. Only the label tables' key coverage is kept.
- types.ts is not part of this model. Tones and pillars are interpolated as their member names in upper case (`PROFESSIONAL`, `BEHIND_SCENES`, ...).
- GeminiService.RenderInOrder, GeminiService.MyanmarScriptPrompt and GeminiService.EarbudsScenario are stated over the rendered template, for any `Sections` value whose relevant fields hold the section functions' results. They are not stated over `Prompt(req)` itself, which is `Render(SectionsOf(req))` by definition. EarbudsScenario takes the AIDA text as the task section.
