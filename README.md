# PRD generator: a verified model of its core

The PRD generator is a React application. The user describes an app idea in a
form: platform, scope, features, audience, a technology preset or a custom
stack, monetization and success metrics. The application turns that input into
a long prompt and streams a Product Requirements Document back from the Gemini
model. The document is shown as it arrives and saved in a history list.

This project models that core in Dafny and proves properties of the model:

- `Types` (`types.dfy`): the shared records and string enumerations. Each
  enumeration whose declaration has an empty member `''` keeps it as a
  constructor of its own.
- `Text` (`text.dfy`): the JavaScript string operations the core relies on.
  - `trim`, `toLowerCase` and `includes`.
  - `filter(Boolean)` on strings, `join` and `+=` accumulation.
  - Lemmas about them.
- `CustomTechStackForm` (`custom_tech_stack_form.dfy`): the four-field custom
  stack editor and its change handler.
- `GeminiService` (`gemini_service.dfy`): the technology sentence, the prompt
  builder and the streaming client.
  - The prompt template's fixed texts are gathered in a `PromptTexts` record.
    The prompt lemmas are proved for any texts of the right shape
    (`WellShaped`), and `PromptTextsWellShaped` shows that the shipped texts
    have that shape.
- `App` (`app.dfy`): the application shell.
  - The error classifier.
  - History entries: title, preview, delete.
  - The theme.
  - A `Session` class whose fields are the shell's state variables and whose
    methods are its handlers, including the generation run.
- `InputForm` (`input_form.dfy`): a `FormState` class whose fields are the
  form's state variables and whose methods are its handlers. They keep an
  invariant `Valid()`: a preset excludes a custom stack, the custom editor is
  open only without a preset, and the vanilla structure is `'single'` except
  under the classic preset.

## Model

| member | source | states |
|---|---|---|
| Types.PlatformText | types.ts:2 | a platform interpolates to the empty string exactly when it is the empty member `''` |
| Types.PlatformTextInjective | types.ts:2 | distinct platforms interpolate to distinct strings |
| Text.Trim | services/geminiService.ts:229 | the result is a slice of the input with only whitespace cut off on either side, and it neither starts nor ends with whitespace |
| Text.TrimEmptyIffBlank | components/InputForm.tsx:110 | `idea.trim()` is falsy exactly when the idea consists of whitespace only |
| Text.ContainsLowered | App.tsx:122-123 | a message that contains a word still contains it after both are lower-cased |
| Text.NonEmpty | services/geminiService.ts:141 | `filter(Boolean)` keeps exactly the non-empty strings and never lengthens the list |
| Text.ToLower | App.tsx:122 | the result has the length of the input, and each character is the lower-case form of the one in its place |
| Text.Contains | App.tsx:123 | no contract of its own; `ContainsLowered` and `ConcatContains` are stated with it |
| Text.Concat | App.tsx:107-111 | no contract of its own; `ConcatAppend`, `ConcatPrefix` and `ConcatContains` characterise it |
| Text.ConcatAppend | App.tsx:109-111 | accumulating two runs of fragments one after the other gives the two texts one after the other |
| Text.NonEmptyAppend | services/geminiService.ts:149 | the filter distributes over concatenation, so the kept strings stay in order |
| Text.Join | services/geminiService.ts:149 | no contract of its own; `JoinIsLines` characterises it |
| Text.JoinIsLines | services/geminiService.ts:149 | joining with line feeds and adding a final one writes each string on a line of its own |
| Text.ConcatNonEmpty | App.tsx:109-111 | dropping the empty fragments does not change the accumulated text |
| Text.ConcatPrefix | App.tsx:109-111 | every text shown while streaming is a prefix of the final document |
| Text.ConcatContains | App.tsx:109-111 | every fragment appears in the final document |
| CustomTechStackForm.StackFieldsAreTheKeys | components/CustomTechStackForm.tsx:10-15 | the field list has four entries, one per record key, with distinct keys in the order frontend, backend, database, deployment, and each key names its field back |
| CustomTechStackForm.FieldNamed | components/CustomTechStackForm.tsx:35-36 | an input's `name` resolves only to the field whose key it is |
| CustomTechStackForm.HandleChange | components/CustomTechStackForm.tsx:18-24 | the edited field takes the typed value and every other field keeps its value |
| CustomTechStackForm.HandleChangeIdempotent | components/CustomTechStackForm.tsx:18-24 | typing the same value twice gives the same record as typing it once |
| CustomTechStackForm.HandleChangeSameValue | components/CustomTechStackForm.tsx:18-24 | writing back the value a field already has leaves the record unchanged |
| CustomTechStackForm.HandleChangeCommutes | components/CustomTechStackForm.tsx:18-24 | edits of two different fields commute |
| GeminiService.TechStackPreference | services/geminiService.ts:5-23 | the sentence is empty exactly for `''` and `'none'`, the stacks that take the default branch; `TechStackPreferenceNamesChoice` states which sentence each choice gives |
| GeminiService.TechStackPreferenceNamesChoice | services/geminiService.ts:5-23 | `react` names React (with Vite), `vue` Vue.js, `mobile` React Native and `classic` vanilla JavaScript; under `classic` the sentence mandates a SINGLE index.html exactly for `'single'` and SEPARATE files exactly for `'separate'`, so any other structure gets the generic sentence |
| TechStackSentences.ModernSentencesNameFrameworks | services/geminiService.ts:6-9 | the `react` sentence names React (with Vite) and the `vue` sentence Vue.js |
| TechStackSentences.MobileSentenceNamesFramework | services/geminiService.ts:17-18 | the `mobile` sentence names React Native |
| TechStackSentences.ClassicOpeningNamesVanilla | services/geminiService.ts:10-16 | the opening the three classic sentences share names vanilla JavaScript |
| TechStackSentences.SingleSentenceMandatesOneFile | services/geminiService.ts:11-12 | the `'single'` sentence names vanilla JavaScript and a SINGLE index.html, and does not mention SEPARATE files |
| TechStackSentences.SeparateSentenceMandatesSplitFiles | services/geminiService.ts:13-14 | the `'separate'` sentence names vanilla JavaScript and SEPARATE files, and does not mention a SINGLE index.html |
| TechStackSentences.GenericClassicSentenceMandatesNothing | services/geminiService.ts:16 | the generic classic sentence names vanilla JavaScript and mentions neither file mandate |
| GeminiService.TechStackPreferenceIdentifiesChoice | services/geminiService.ts:5-23 | a non-empty sentence determines the preset, and for `classic` also which variant (single, separate, other) was chosen |
| GeminiService.HasCustomStack | services/geminiService.ts:141-143 | no contract of its own; `HasCustomStackIffNotBlank` characterises it |
| GeminiService.HasCustomStackIffNotBlank | services/geminiService.ts:141-143 | a custom stack is used exactly when some field is non-empty |
| GeminiService.StackDetailLines | services/geminiService.ts:144-149 | no contract of its own; `StackDetailLinesFollowFields` characterises it |
| GeminiService.InputLine | services/geminiService.ts:206-211 | no contract of its own; it also builds the stack details of lines 145-148. `InputLinesWithout` and `SetInputAddsLine` characterise the input lines, and `StackDetailLinesFollowFields` the stack details |
| GeminiService.StackDetailLinesFollowFields | services/geminiService.ts:144-149 | the detail lines are one `Label: value` line per non-empty field, in the order of the editor's field list |
| GeminiService.CustomStackBlock | services/geminiService.ts:144-150 | no contract of its own; `CustomStackBlockIsHeaderAndLines` characterises it |
| GeminiService.CustomStackBlockIsHeaderAndLines | services/geminiService.ts:144-150 | the custom-stack preference is the fixed header followed by one `Label: value` line per non-empty field, in the order of the editor's field list |
| GeminiService.TechPreference | services/geminiService.ts:140-153 | a set custom stack wins over the preset; otherwise the preset sentence is used; the result is empty exactly when there is no custom stack and no sentence-giving preset |
| GeminiService.TechPreferenceOf | services/geminiService.ts:140-153 | no contract of its own; the form data's technology preference, which line 211 shows. It is characterised by `TechPreference`, `CustomStackOverridesPreset`, `NoSentencePresetIsNoPreset` and `StructureMattersOnlyForClassic` |
| GeminiService.CustomStackOverridesPreset | services/geminiService.ts:143-153 | with a custom stack present, changing the preset or its structure leaves the prompt unchanged |
| GeminiService.PromptTextsWellShaped | services/geminiService.ts:156-161 | both role sentences and the closing begin or end with visible text, and neither role is a prefix of the other |
| GeminiService.BuildPrompt | services/geminiService.ts:126-230 | no contract of its own: it is `PromptOf` over the shipped texts, which `PromptTextsWellShaped` shows fit every prompt lemma; `BuildPromptEmbedsExample` is one instance |
| GeminiService.PromptOf | services/geminiService.ts:197-229 | no contract of its own; the prompt lemmas below (`PromptIsBody` to `OutlineAround`) characterise it |
| GeminiService.InputLines | services/geminiService.ts:206-211 | no contract of its own; `InputLinesWithout` characterises each of the six lines |
| GeminiService.RoleDefinition | services/geminiService.ts:156-161 | no contract of its own; `PromptStartsWithRole` and `PromptRoleShowsScope` characterise it |
| GeminiService.ScopeInstructions | services/geminiService.ts:157-191 | no contract of its own; the frontend block of lines 163-170 or the full-stack line 191; `PromptStatesScope` characterises it |
| GeminiService.IfPresent | services/geminiService.ts:179-180 | no contract of its own; `OutlineAround` characterises it |
| GeminiService.FrontendOutline | services/geminiService.ts:172-188 | no contract of its own; `OutlineAround` characterises items 5 and 6 |
| GeminiService.StructureInstructions | services/geminiService.ts:172-194 | no contract of its own; the frontend outline of lines 172-188 or the full-stack block of lines 192-194; `PromptStatesScope` and `OutlineAround` characterise it |
| GeminiService.IdeaLine | services/geminiService.ts:205 | no contract of its own; `PromptStatesIdea` characterises it |
| GeminiService.PromptIsBody | services/geminiService.ts:197-229 | `trim` removes exactly the line feed that opens the template and the line feed and indentation that close it |
| GeminiService.PromptStartsWithRole | services/geminiService.ts:197-198 | the prompt starts with the role sentence of the chosen scope |
| GeminiService.PromptRoleShowsScope | services/geminiService.ts:156-161 | the prompt starts with the frontend role exactly in frontend scope |
| GeminiService.PromptEmbedsExample | services/geminiService.ts:221-224 | the reference example appears verbatim between two horizontal rules |
| GeminiService.BuildPromptEmbedsExample | services/geminiService.ts:221-224 | the shipped prompt contains the shipped example document between the rules, whatever the input |
| GeminiService.PromptStatesIdea | services/geminiService.ts:204-205 | the idea line always appears, even for an empty idea |
| GeminiService.PromptStatesScope | services/geminiService.ts:213-219 | the prompt contains the scope block, the output rules and the structure block of the chosen scope in one piece |
| GeminiService.InputLinesWithout | services/geminiService.ts:206-211 | emptying an optional input empties its line and no other line; a set input's line is its label followed by its value |
| GeminiService.FillingInputAddsLine | services/geminiService.ts:207-210 | typing a text into an empty input inserts exactly its labelled line into the prompt, after a line feed and before one, and changes nothing else (outside the frontend outline case) |
| GeminiService.FillingOutlineInputAddsLineAndItem | services/geminiService.ts:179-180 | in frontend scope, typing a monetization or success-metrics text into the empty input inserts its labelled line and its outline item, and nothing else |
| GeminiService.NoSentencePresetIsNoPreset | services/geminiService.ts:151-152 | the preset `'none'` passes the truthiness test but takes the default branch, so it gives the same prompt as no preset |
| GeminiService.StructureMattersOnlyForClassic | services/geminiService.ts:5-23 | under any preset but `classic`, or none, the vanilla structure does not change the prompt |
| GeminiService.SetInputAddsLine | services/geminiService.ts:206-211 | setting an optional input inserts exactly its labelled line, between two line feeds, and changes nothing else (outside the frontend outline case) |
| GeminiService.SetOutlineInputAddsLineAndItem | services/geminiService.ts:179-180 | in frontend scope, setting monetization or success metrics inserts its labelled line and its outline item, and nothing else |
| GeminiService.OutlineAround | services/geminiService.ts:172-188 | the frontend outline with item 5 or 6 switched off and on is the same text with the item removed or inserted |
| GeminiService.GeneratePrdStream | services/geminiService.ts:232-256 | without a key nothing is sent and the fixed error is thrown; with one, the prompt goes to `gemini-2.5-pro`, the non-empty chunks are passed on in order, and the upstream error is thrown again |
| GeminiService.PassOnChunks | services/geminiService.ts:246-250 | the loop yields exactly the chunks with a non-empty text, in order |
| App.ClassifyError | App.tsx:119-159 | a non-`Error` gets the generic panel; an unmatched `Error` keeps its own message; every other result is one of the five fixed panels |
| App.Reported | App.tsx:119-162 | the error panel is set exactly when the run threw, and it is then the classification `ClassifyError` gives of the thrown value |
| App.ClassifyFollowsTable | App.tsx:121-153 | the chain of `if`s is the five-row word table read top to bottom, with the message itself as the fallback |
| App.FirstMatch | App.tsx:121-147 | the chosen row matches, no earlier row matches, and no row at all matches when none is chosen |
| App.KeyProblemWins | App.tsx:122-127 | a message that mentions the API key, in any case, is an invalid-key error whatever else it mentions |
| App.ClassifyIgnoresCase | App.tsx:122 | messages that differ only in case get the same title, and the same panel unless both fall through |
| App.UnmatchedMessagePassesThrough | App.tsx:148-153 | a message matching no row is shown unchanged, in its original case |
| App.MentionsFew | App.tsx:123-143 | a row of one, two or three words matches exactly when the text contains one of them |
| App.HistoryTitle | App.tsx:80 | a title is at most 43 characters; an idea of up to 40 is its own title; a longer one is cut to 40 and ends with `...`; every title starts with the beginning of the idea |
| App.StripMarkup | App.tsx:83 | the result is no longer than the input and contains no `#`, `*` or backquote |
| App.StripMarkupKeepsCounts | App.tsx:83 | the markup is deleted, not replaced: every other character occurs in the result as often as in the input |
| App.StripMarkupAppend | App.tsx:83 | stripping distributes over concatenation, so the remaining text keeps its order |
| App.StripMarkupKeepsPlain | App.tsx:83 | text without markup is left unchanged |
| App.StripMarkupIdempotent | App.tsx:83 | stripping twice is stripping once |
| App.HistoryPreview | App.tsx:83 | no contract of its own; `HistoryPreviewStripsHead` states its value (the first 100 characters with markup deleted, then `...`), and `HistoryPreviewShape` and `HistoryPreviewIgnoresTail` bound it |
| App.NewHistoryItem | App.tsx:78-84 | the entry keeps the id, the content and the time it is given; its title is `HistoryTitle` of the idea and its preview `HistoryPreview` of the content, so the title is at most 43 characters and the preview at most 103, ending with `...` |
| App.HistoryPreviewShape | App.tsx:83 | a preview is at most 103 characters and ends with `...`, with no markup before it; it depends only on the first 100 characters of the content, and it is those characters plus `...` whenever they hold no markup |
| App.HistoryPreviewStripsHead | App.tsx:83 | whatever the first 100 characters hold, the preview before `...` is exactly those characters with markup stripped, and every other character occurs in the preview as often as in those characters plus `...` |
| App.HistoryPreviewIgnoresTail | App.tsx:83 | text beyond the first 100 characters never changes the preview |
| App.WithoutId | App.tsx:90 | the list after a delete holds exactly the entries with other ids and is no longer |
| App.WithoutIdAppend | App.tsx:90 | deleting distributes over concatenation, so the order of the other entries is kept |
| App.WithoutAbsentId | App.tsx:90 | deleting an id that no entry has changes nothing |
| App.WithoutIdIdempotent | App.tsx:90 | deleting twice is deleting once |
| App.AddThenDelete | App.tsx:85-90 | adding an entry with a fresh id and then deleting it gives back the previous list |
| App.InitialTheme | App.tsx:26-32 | the theme starts as the saved value when it is non-empty, and as `'dark'` when nothing or an empty string was saved |
| App.ToggledTheme | App.tsx:49-51 | toggling always gives `'dark'` or `'light'`, and gives `'light'` exactly after `'dark'` |
| App.ToggleTwice | App.tsx:49-51 | on either theme, toggling twice gives the theme back |
| App.Session.constructor | App.tsx:21-63 | the session starts empty, not loading, without error, with the sidebar closed, the initial theme, and the saved history when it parsed |
| App.Session.ShowWelcomeScreen | App.tsx:165 | no contract of its own; `SelectHistoryItem`, `ShowFragments` and `GeneratePrd` state when it is off |
| App.Session.ToggleTheme | App.tsx:49-51 | the theme toggles and nothing else changes |
| App.Session.AddToHistory | App.tsx:77-86 | the new entry, with its title and preview, goes in front of the list, and nothing else changes |
| App.Session.DeleteHistoryItem | App.tsx:88-91 | the entries with that id leave the list, and nothing else changes |
| App.Session.SelectHistoryItem | App.tsx:93-97 | the entry's document is shown, the sidebar is closed and the error cleared, so a non-empty entry hides the welcome screen |
| App.Session.ShowFragments | App.tsx:100-112 | the loop runs only inside a started run (loading, no error) and keeps it so, hiding the welcome screen after every fragment and before the first; after the loop the running text and the shown document are the concatenation of all fragments |
| App.Session.Finish | App.tsx:114-162 | a clean end with some text adds a history entry; a thrown end sets the error panel; loading is always switched off |
| App.Session.GeneratePrd | App.tsx:99-163 | the document is the concatenation of the chunks (empty without a key); the panel reports the missing key or the upstream error; history grows by one entry exactly when no error occurred and some text arrived; loading ends off, the sidebar closed; an error hides the welcome screen; the request sent is none without a key and otherwise the prompt over the session's texts for `gemini-2.5-pro`. Loading is switched on and the error cleared before streaming, as `ShowFragments` requires |
| InputForm.Toggled | components/InputForm.tsx:168 | a click selects the clicked option exactly when it was not selected before, and otherwise clears the choice |
| InputForm.FormState.Valid | components/InputForm.tsx:126-135 | no contract of its own: the invariant that the constructor establishes and every handler keeps; `PreferenceIsTheChoice` relies on it |
| InputForm.FormState.Data | components/InputForm.tsx:111-122 | no contract of its own; the record that `Submission` hands on and that each handler's contract updates field by field |
| InputForm.FormState.constructor | components/InputForm.tsx:84-99 | the form starts with empty texts, no platform, fullstack scope, no preset, a blank custom stack and the `'single'` structure, and it satisfies the invariant |
| InputForm.FormState.ResetVanillaStructure | components/InputForm.tsx:102-106 | off the classic preset the structure becomes `'single'`; nothing else changes |
| InputForm.FormState.SelectPresetStack | components/InputForm.tsx:126-130 | the preset toggles, the custom editor closes and the custom stack is blanked, keeping the invariant |
| InputForm.FormState.ShowCustomStackForm | components/InputForm.tsx:132-135 | the editor opens and the preset clears; what was typed in the custom stack is kept |
| InputForm.FormState.CancelCustomStackForm | components/InputForm.tsx:276 | the editor closes and the form data stay as they were |
| InputForm.FormState.EditCustomStack | components/InputForm.tsx:282 | the custom stack changes exactly as the editor's change handler says |
| InputForm.FormState.SetVanillaStructure | components/InputForm.tsx:240-248 | under the classic preset, the chosen structure is stored and nothing else changes |
| InputForm.FormState.TogglePlatform | components/InputForm.tsx:168 | the platform toggles and nothing else changes |
| InputForm.FormState.SetScope | components/InputForm.tsx:183-195 | the scope is set and nothing else changes |
| InputForm.FormState.EditText | components/InputForm.tsx:156 | the edited text input takes the value and nothing else changes; the idea is line 156, and features, audience, monetization and success metrics are the same handler at lines 298, 312, 327 and 340 |
| InputForm.FormState.Submission | components/InputForm.tsx:108-124 | a submission happens exactly when the idea is not all whitespace, and it carries the form data with the idea untrimmed |
| InputForm.FormState.PreferenceIsTheChoice | components/InputForm.tsx:126-135 | in a valid form the technology sentence sent on is the selected preset's, or else the custom stack block, or else nothing |
| InputForm.FormState.SubmitDisabled | components/InputForm.tsx:348 | no contract of its own; `SubmitEnabledIffSubmits` characterises it |
| InputForm.SubmitEnabledIffSubmits | components/InputForm.tsx:348 | the submit button is enabled exactly when nothing is loading and a click would submit |

## Left out

- The Gemini SDK and `process.env.API_KEY` are replaced by parameters: the key (`""` when unset), the chunk texts and the error the upstream stream ends with.
- An absent `chunk.text` is modelled as `""`, which the filter drops like an empty text.
- `crypto.randomUUID()` and `Date.now()` are parameters of the history operations.
- `localStorage` and `JSON.parse` are replaced by constructor parameters of the session: the saved theme, and the saved history when it parsed. The effects that write the theme and the history back are not modelled. Neither is the `dark` class on the document element.
- The `typeof window` branch of the theme initialiser is not modelled; the model takes the browser branch.
- A saved theme is used as it is, like the `as Theme` cast; nothing checks that it is `'dark'` or `'light'`.
- `console.error` calls are not modelled.
- Concurrency is not modelled: the run is one sequence of steps, so a second run started while one is streaming is not represented.
- The landing-page transition (`viewState`, `setTimeout`) and the other components are not modelled. Those components are the landing page, header, display, sidebar and loader, plus `constants.ts`.
- The effect that resets the vanilla structure is applied at the end of each handler that changes the stack, not as a later render.
- `trim` and `toLowerCase` are modelled for ASCII characters; other Unicode whitespace and case mappings are not.
- HistoryTitle, HistoryPreview: `substring(0, 40)` and `substring(0, 100)` count UTF-16 code units, while the model counts characters; the two agree on text without surrogate pairs.
- GeminiService.GeneratePrdStream: the prompt texts are a parameter. The session passes `PROMPT_TEXTS` through its `texts` field, so the prompt is `BuildPrompt(data)`.
- App.Session.GeneratePrd: the request it returns is stated as `PromptOf(texts, formData)`. That is `BuildPrompt(formData)` because the constructor sets `texts` to `PROMPT_TEXTS`, but the method's contract does not restate that equation.
- GeminiService.PromptTextsWellShaped: of the prompt's long fixed texts, only the shape facts the lemmas need are proved. Facts about other individual characters are not stated.
- App.Session.GeneratePrd: the missing-key message is shown with the title `An Unexpected Error Occurred` and its own text. It lower-cases to `api_key`, not `api key`, so it falls through the classifier. The model computes this through `ClassifyError`, but no lemma states the concrete panel.
