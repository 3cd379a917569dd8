# ai-video-gen core, modelled in Dafny

ai-video-gen turns a theme into an educational video in four stages:
- a script of typed sections;
- an HTML slide for each section;
- narration audio for each section;
- the final composed video.

A feedback loop records every user correction and infers preferences from them. Preferences at or above 0.85 confidence are applied to later prompts automatically, and those between 0.5 and 0.85 are offered as suggestions.

This project models that core:
- the project state machine and the `projects`/`sections` tables (`Store.Database`, a class whose methods update the tables in place);
- the four pipeline stages, as methods on the database;
- the append-only correction log (`CorrectionStore.Store`);
- the preference table with its confidence bands and scope groups (`PreferenceEngine.PreferenceTable`);
- the prompt evolver;
- the preference HTTP handler bodies;
- the WebSocket progress registry (`Ws.ConnectionManager`);
- the string builders and parsers the services use: code-fence extraction, data URLs (section 3 of RFC 2397), HTML escaping, slide markup, image prompts and the mock script;
- the small unit conversions.

Collaborators that lie outside the model are function-typed fields of environment values passed to the operations:
- the Anthropic, Gemini and ElevenLabs calls;
- the ffmpeg subprocesses;
- `json`, base64 (section 4 of RFC 4648) and UTF-8;
- float formatting;
- the regex highlighter;
- the slide template file.

Shared foundations:
- `Wrappers`: Option and Result.
- `Text`: search, split, join, fences, escaping, zero padding.
- `Seqs`: filtering.
- `Sorting`: a stable descending insertion sort.
- `Counting`: tally maps.
- `Arith`: truncation toward zero.

## Model

| member | source | states |
|---|---|---|
| Schema.ParseState | backend/src/ai_video_gen/models/schema.py:10-17 | a name parses to a state only if that state's value is the name |
| Schema.StateNames | backend/src/ai_video_gen/models/schema.py:10-17 | the states round-trip through their values, and exactly the five names init, script_done, visuals_done, narration_done and composed parse |
| Schema.ParseType | backend/src/ai_video_gen/models/schema.py:20-28 | a name parses to a section type only if that type's value is the name |
| Schema.TypeNames | backend/src/ai_video_gen/models/schema.py:20-28 | the types round-trip, and exactly the six names title, slide, code, code_typing, diagram and summary parse |
| Schema.NewSection | backend/src/ai_video_gen/models/schema.py:41-57 | a new row copies id, project, index, type, duration, narration and spec, and every derived path and `content_hash` is None |
| Schema.TextField | backend/src/ai_video_gen/services/slide_renderer.py:23-24 | `spec.get(key, default)`: the default when the key is missing, the stored string when there is one |
| Schema.ListField | backend/src/ai_video_gen/services/slide_renderer.py:34-37 | iterating `spec.get(key, [])`: nothing when the key is missing, the list's items, or one item per character of a stored string |
| Schema.ValidateCreate | backend/src/ai_video_gen/models/schema.py:60-64 | accepted iff the theme has 1..500 characters and the target is absent or in [30, 3600]; the accepted value is the input |
| Schema.ValidateUpdate | backend/src/ai_video_gen/models/schema.py:67-73 | every field is optional; a present theme or target must meet the same bounds |
| Schema.CreateExamples | backend/src/ai_video_gen/models/schema.py:60-73 | the empty theme and a 10-second target are rejected; 300 seconds, no target and the empty update are accepted |
| Store.ApplyPatch | backend/src/ai_video_gen/pipeline/visuals.py:48-50 | a section update changes exactly the one column it names; id, project, index and type are kept |
| Store.FindSection | backend/src/ai_video_gen/pipeline/visuals.py:76-85 | finds the position of the row with the id in the project's sections, or reports that none has it |
| Store.Inserted | backend/src/ai_video_gen/pipeline/script.py:51-55 | the inserted rows are the drafts in order, with fresh consecutive ids |
| Store.Database.constructor | backend/src/ai_video_gen/models/schema.py:76-86 | empty tables satisfy the table invariant |
| Store.Database.SetState | backend/src/ai_video_gen/pipeline/visuals.py:60-62 | only the project's state changes |
| Store.Database.SetScript | backend/src/ai_video_gen/pipeline/script.py:27-30 | only the project's script and state change |
| Store.Database.ReplaceSections | backend/src/ai_video_gen/pipeline/script.py:51-55 | the project's rows are deleted and replaced by the inserted drafts; other projects' rows and the projects are unchanged |
| Store.Database.PatchSection | backend/src/ai_video_gen/pipeline/narration.py:50-65 | only row k of project p changes, as the update says |
| ScriptStage.CoerceType | backend/src/ai_video_gen/pipeline/script.py:35-40 | a valid type passes through unchanged; a missing or unknown type becomes slide |
| ScriptStage.Drafts | backend/src/ai_video_gen/pipeline/script.py:33-49 | one draft per script entry |
| ScriptStage.BuildSections | backend/src/ai_video_gen/pipeline/script.py:33-49 | the loop builds exactly the drafts: index k for entry k, the project id, the coerced type and the copied fields |
| ScriptStage.Rebuilt | backend/src/ai_video_gen/pipeline/script.py:51-55 | with entries, the project's rows are exactly the new list, with indices 0..n-1, fresh ids and copied fields; without entries nothing changes; other projects are untouched |
| ScriptStage.StoreSections | backend/src/ai_video_gen/pipeline/script.py:51-55 | the sections table becomes the rebuilt one; projects are unchanged |
| ScriptStage.GenerateScript | backend/src/ai_video_gen/pipeline/script.py:10-57 | an unknown project or a failed generation changes nothing; otherwise the script is stored, the state becomes script_done from any state, the sections are rebuilt, and the stored script is returned |
| ScriptStage.UpdateScript | backend/src/ai_video_gen/pipeline/script.py:60-94 | an unknown project changes nothing; otherwise only the script and the sections change (never the state), and the script is returned |
| VisualsStage.SpecOrEmpty | backend/src/ai_video_gen/pipeline/visuals.py:37 | the stored spec, or `{}` when there is none |
| VisualsStage.WithSlides | backend/src/ai_video_gen/pipeline/visuals.py:36-50 | rendering a prefix of the rows keeps the row count |
| VisualsStage.SlidesFacts | backend/src/ai_video_gen/pipeline/visuals.py:36-50 | every row ends with the `data:text/html;base64,` slide of its (spec or {}, type); nothing else in the row changes; rendering twice equals rendering once |
| VisualsStage.SlideResults | backend/src/ai_video_gen/pipeline/visuals.py:52-57 | one result per section, in order, carrying the section's id, index, type and slide |
| VisualsStage.RenderAll | backend/src/ai_video_gen/pipeline/visuals.py:36-57 | the loop gives every row of the project its slide and returns the results; nothing else changes |
| VisualsStage.GenerateVisuals | backend/src/ai_video_gen/pipeline/visuals.py:11-64 | a missing project or the init state fails with nothing changed; otherwise every row gets its slide, there is one result per section in index order, and the state becomes visuals_done (from composed too, and with no sections) |
| VisualsStage.RerenderedFacts | backend/src/ai_video_gen/pipeline/visuals.py:90-105 | a non-empty new spec replaces the stored one; None or {} keeps it; the slide is re-rendered from the spec in force; nothing else in the row changes |
| VisualsStage.StoreSpec | backend/src/ai_video_gen/pipeline/visuals.py:90-95 | the spec in force is stored in the row and returned |
| VisualsStage.Rerender | backend/src/ai_video_gen/pipeline/visuals.py:90-105 | only that row changes, to its re-rendered value |
| VisualsStage.RegenerateSectionVisual | backend/src/ai_video_gen/pipeline/visuals.py:67-112 | a section not in the project fails with nothing changed; otherwise only that row's spec and slide change, and the state is untouched |
| VisualsStage.GetSectionSlide | backend/src/ai_video_gen/pipeline/visuals.py:115-139 | reports the id, index, type name, spec, slide and narration of the project's section with that id, or not found |
| NarrationStage.TextOf | backend/src/ai_video_gen/pipeline/narration.py:37 | the narration, or "" when missing |
| NarrationStage.Audio | backend/src/ai_video_gen/pipeline/narration.py:48-50 | speech is used only when the service returns non-empty bytes; never without an API key |
| NarrationStage.NarratedFacts | backend/src/ai_video_gen/pipeline/narration.py:37-81 | no text: row untouched and skipped; audio: only the audio path changes, to `data:audio/mpeg;base64,…`, and the status is generated; no audio: only the duration changes, to the estimate (at least 1 second), and the status is mock; narrating twice equals narrating once |
| NarrationStage.WithNarrations | backend/src/ai_video_gen/pipeline/narration.py:36-81 | narrating a prefix of the rows keeps the row count |
| NarrationStage.Results | backend/src/ai_video_gen/pipeline/narration.py:25-81 | one result per section, in order |
| NarrationStage.NarrateRow | backend/src/ai_video_gen/pipeline/narration.py:48-81 | a row with text gets its audio URL or its estimated duration, and the reply says which |
| NarrationStage.NarrateStep | backend/src/ai_video_gen/pipeline/narration.py:37-81 | one iteration of the loop: only row k changes, to its narrated value |
| NarrationStage.GenerateNarrations | backend/src/ai_video_gen/pipeline/narration.py:11-88 | a missing project or the init state fails with nothing changed; every other state is accepted; every row is narrated, with one result per section in index order, and the state becomes narration_done even if all rows were skipped |
| NarrationStage.RenarratedFacts | backend/src/ai_video_gen/pipeline/narration.py:114-160 | a non-empty new text is stored first; an empty effective text gives status error and no other change; an audio reply carries an `audio/mpeg` data URL |
| NarrationStage.StoreText | backend/src/ai_video_gen/pipeline/narration.py:114-119 | stores a non-empty new text and returns the text in force |
| NarrationStage.Renarrate | backend/src/ai_video_gen/pipeline/narration.py:114-160 | only that row changes, to its re-narrated value |
| NarrationStage.RegenerateSectionNarration | backend/src/ai_video_gen/pipeline/narration.py:91-160 | a section not in the project fails with nothing changed; otherwise only that row changes, and the state never changes |
| NarrationStage.GetSectionNarration | backend/src/ai_video_gen/pipeline/narration.py:163-187 | reports the id, index, type name, narration text, audio and duration of the project's section with that id, or not found |
| ComposeStage.TotalDurationDefault | backend/src/ai_video_gen/pipeline/compose.py:37 | rows without a duration count 5 seconds each |
| ComposeStage.TotalDurationBounds | backend/src/ai_video_gen/pipeline/compose.py:37 | with no negative stored duration, a row without one makes the total at least 5 |
| ComposeStage.TotalDurationAppend | backend/src/ai_video_gen/pipeline/compose.py:37 | the total is the sum over rows of the duration, with a missing or zero duration counted as 5.0 |
| ComposeStage.TotalDuration | backend/src/ai_video_gen/pipeline/compose.py:37 | the total is never negative when no stored duration is |
| ComposeStage.GetComposeStatus | backend/src/ai_video_gen/pipeline/compose.py:73-108 | not found iff the project is missing; is_composed iff the state is composed; can_compose iff the state is narration_done or composed (compose's precondition), so is_composed implies can_compose; the section count, their total duration, the size estimated from that total, and ffmpeg availability; it changes nothing |
| ComposeStage.ComposeVideo | backend/src/ai_video_gen/pipeline/compose.py:10-70 | fails, in order, on a missing project, a wrong state, or no sections, with nothing changed; otherwise the state becomes composed whether or not ffmpeg is present; the status is completed with the video URL iff ffmpeg is available, else mock with the message; count, duration and size match get_compose_status |
| ComposeStage.AudioRoundTrip | backend/src/ai_video_gen/services/ffmpeg.py:65-68 | the audio URL the narration stage stores decodes back to the same bytes in the compose loop |
| CorrectionStore.Filtered | backend/src/ai_video_gen/feedback/correction_store.py:62-71 | every returned row satisfies every filter that is given |
| CorrectionStore.FilteredFacts | backend/src/ai_video_gen/feedback/correction_store.py:62-71 | exactly the matching rows are kept, in log order |
| CorrectionStore.NewestFirstSound | backend/src/ai_video_gen/feedback/correction_store.py:73-76 | at most `limit` rows, all matching and all in the log |
| CorrectionStore.NewestFirstOrder | backend/src/ai_video_gen/feedback/correction_store.py:73-76 | rows come newest first |
| CorrectionStore.NewestFirstComplete | backend/src/ai_video_gen/feedback/correction_store.py:73-76 | a matching row is left out only when the limit is reached, and it is then older than every returned row |
| CorrectionStore.Store.constructor | backend/src/ai_video_gen/feedback/correction_store.py:26-27 | the log starts empty |
| CorrectionStore.Store.RecordCorrection | backend/src/ai_video_gen/feedback/correction_store.py:29-49 | exactly one row is appended, carrying the event's twelve fields; earlier rows are unchanged |
| CorrectionStore.Store.GetCorrections | backend/src/ai_video_gen/feedback/correction_store.py:51-76 | only rows meeting every given filter, newest first, at most `limit`, and missing matches only when the limit is reached |
| CorrectionStore.Store.GetRecentCorrections | backend/src/ai_video_gen/feedback/correction_store.py:78-90 | the newest min(limit, n) rows of the whole log, newest first |
| CorrectionStore.Store.GetCorrectionsByCategory | backend/src/ai_video_gen/feedback/correction_store.py:92-94 | equals get_corrections with only the category filter and limit 100 |
| CorrectionStore.Store.GetCorrectionStats | backend/src/ai_video_gen/feedback/correction_store.py:96-117 | total is the row count; each stage and category count is the number of rows with that key; both tallies sum to the total |
| CorrectionStore.StatsOf | backend/src/ai_video_gen/feedback/correction_store.py:104-117 | the loop computes the total and both tallies of the log |
| CorrectionStore.StatsFacts | backend/src/ai_video_gen/feedback/correction_store.py:104-117 | the tally keys are the values present, the counts are their multiplicities, and each tally sums to the row count |
| PreferenceEngine.NewPreference | backend/src/ai_video_gen/feedback/preference_engine.py:11-22 | the defaults are scope global, confidence 0.5 (a suggestion), no sources, active and version 1 |
| PreferenceEngine.BandsPartition | backend/src/ai_video_gen/feedback/preference_engine.py:29-31 | the thresholds 0.85 and 0.5 split every confidence into exactly one of auto-applied, suggested and record-only |
| PreferenceEngine.MockInfer | backend/src/ai_video_gen/feedback/preference_engine.py:158-178 | two section_type style preferences (code, then title); the first confidence is min(0.9, 0.3 + 0.1·n) and the second is 0.8 times it |
| PreferenceEngine.MockBands | backend/src/ai_video_gen/feedback/preference_engine.py:158-178 | mock confidences never exceed 0.9; which band each falls in for n ≤ 1, 2..5 and ≥ 6 corrections |
| PreferenceEngine.BracketSlice | backend/src/ai_video_gen/feedback/preference_engine.py:131-135 | the slice is never longer than the text |
| PreferenceEngine.BracketSliceFacts | backend/src/ai_video_gen/feedback/preference_engine.py:131-135 | the text is cut from the first "[" to the last "]" only when both exist in that order, and otherwise kept |
| PreferenceEngine.SourceIds | backend/src/ai_video_gen/feedback/preference_engine.py:139-149 | at most five ids, none empty |
| PreferenceEngine.KeptIds | backend/src/ai_video_gen/feedback/preference_engine.py:139 | filtering out the empty ids and cutting to n equals scanning the log from its start until n non-empty ids are taken; the filter keeps one id per correction that has one |
| PreferenceEngine.SourceIdsFacts | backend/src/ai_video_gen/feedback/preference_engine.py:139-149 | the cited ids are the first five non-empty event ids in log order, min(5, n) of them for n corrections with an id, each some correction's id; with n <= 5 every non-empty id is cited |
| PreferenceEngine.FromItem | backend/src/ai_video_gen/feedback/preference_engine.py:142-150 | missing fields default to "", style, global and 0.5; the sources are attached |
| PreferenceEngine.ParsePreferences | backend/src/ai_video_gen/feedback/preference_engine.py:116-156 | fence, bracket slice and strip, then one preference per decoded item; the mock result when decoding fails |
| PreferenceEngine.CorrectionLine | backend/src/ai_video_gen/feedback/preference_engine.py:106-112 | each line starts "- [stage][category] field: " |
| PreferenceEngine.CorrectionLines | backend/src/ai_video_gen/feedback/preference_engine.py:104-113 | one line per correction |
| PreferenceEngine.FormatCorrections | backend/src/ai_video_gen/feedback/preference_engine.py:102-114 | the lines joined by newlines, which split back into the lines |
| PreferenceEngine.InferPreferences | backend/src/ai_video_gen/feedback/preference_engine.py:36-100 | [] for no corrections; the mock without an API key or on a failed call; otherwise the parsed reply |
| PreferenceEngine.GatheredMembers | backend/src/ai_video_gen/feedback/preference_engine.py:236-284 | the gathered rows are exactly the active global rows, plus the project, type and specific groups each only when its qualifiers are given |
| PreferenceEngine.Entries | backend/src/ai_video_gen/feedback/preference_engine.py:342-352 | one profile entry per row, keeping its confidence |
| PreferenceEngine.PrefCategories | backend/src/ai_video_gen/feedback/preference_engine.py:334 | one category per row |
| PreferenceEngine.PrefScopes | backend/src/ai_video_gen/feedback/preference_engine.py:335 | one scope per row |
| PreferenceEngine.ApplyUpdates | backend/src/ai_video_gen/feedback/preference_engine.py:291-306 | only the description, confidence and is_active keys present in the update change; an empty update changes nothing |
| PreferenceEngine.PreferenceTable.constructor | backend/src/ai_video_gen/feedback/preference_engine.py:25-34 | the table starts empty |
| PreferenceEngine.PreferenceTable.SavePreference | backend/src/ai_video_gen/feedback/preference_engine.py:180-197 | one row is appended, holding the preference |
| PreferenceEngine.PreferenceTable.GetPreferences | backend/src/ai_video_gen/feedback/preference_engine.py:199-226 | exactly the rows meeting the given filters, as a permutation of them, sorted by confidence from high to low |
| PreferenceEngine.PreferenceTable.GetApplicablePreferences | backend/src/ai_video_gen/feedback/preference_engine.py:228-289 | exactly the applicable rows, all active, stably sorted by confidence from high to low (rows of equal confidence stay in gathered order) |
| PreferenceEngine.PreferenceTable.UpdatePreference | backend/src/ai_video_gen/feedback/preference_engine.py:291-306 | an existing row gets the updates and is returned; an unknown id changes nothing |
| PreferenceEngine.PreferenceTable.DeactivatePreference | backend/src/ai_video_gen/feedback/preference_engine.py:308-319 | true iff the row exists; only its is_active becomes false, and it no longer appears in the default query |
| PreferenceEngine.PreferenceTable.GetPreferenceProfile | backend/src/ai_video_gen/feedback/preference_engine.py:321-354 | over the active rows with confidence ≥ 0.5: the total, category and scope tallies that each sum to it, and the high (≥ 0.85) and suggestion (0.5..0.85) lists, which are disjoint and together cover every row |
| PreferenceEngine.ProfileOf | backend/src/ai_video_gen/feedback/preference_engine.py:333-352 | the loop computes the total, both tallies and both band lists |
| PreferenceEngine.ProfileBands | backend/src/ai_video_gen/feedback/preference_engine.py:333-352 | over rows at or above 0.5, the tallies sum to the count and the two lists split the rows by band |
| PromptEvolver.InstructionHasDescription | backend/src/ai_video_gen/feedback/prompt_evolver.py:114-123 | each instruction line contains the preference's description |
| PromptEvolver.InstructionLines | backend/src/ai_video_gen/feedback/prompt_evolver.py:113-125 | one line per preference, in order |
| PromptEvolver.InstructionsHave | backend/src/ai_video_gen/feedback/prompt_evolver.py:111-125 | the joined instructions contain every description |
| PromptEvolver.FormatInstructions | backend/src/ai_video_gen/feedback/prompt_evolver.py:111-125 | the loop yields the lines joined by newlines, containing every description |
| PromptEvolver.EvolvedFacts | backend/src/ai_video_gen/feedback/prompt_evolver.py:34-47 | the result starts with the base prompt, equals it iff nothing is selected, and contains every selected description |
| PromptEvolver.SelectedFacts | backend/src/ai_video_gen/feedback/prompt_evolver.py:23-32 | the selection is exactly the applicable rows meeting the filter, sorted by confidence |
| PromptEvolver.EvolvedSelection | backend/src/ai_video_gen/feedback/prompt_evolver.py:23-47 | the base is returned unchanged iff no applicable row meets the filter; otherwise every such row's description is added |
| PromptEvolver.EvolveScriptPrompt | backend/src/ai_video_gen/feedback/prompt_evolver.py:15-47 | the base unchanged iff no applicable preference is at or above 0.85; otherwise the base followed by every such description |
| PromptEvolver.EvolveVisualPrompt | backend/src/ai_video_gen/feedback/prompt_evolver.py:49-79 | the same, using exactly the style preferences at or above 0.85 |
| PromptEvolver.EvolveNarrationPrompt | backend/src/ai_video_gen/feedback/prompt_evolver.py:81-109 | the same, using exactly the content or style preferences at or above 0.85, with no section type |
| PromptEvolver.Suggestions | backend/src/ai_video_gen/feedback/prompt_evolver.py:145-153 | one suggestion per preference |
| PromptEvolver.SuggestionList | backend/src/ai_video_gen/feedback/prompt_evolver.py:145-155 | the loop builds exactly those suggestions |
| PromptEvolver.SuggestPromptImprovements | backend/src/ai_video_gen/feedback/prompt_evolver.py:127-155 | exactly the applicable preferences in [0.5, 0.85), in confidence order, each with the "add to prompt" action |
| PromptEvolver.SuggestionsFacts | backend/src/ai_video_gen/feedback/prompt_evolver.py:138-155 | every suggestion is in the suggest band and carries its action; they come in confidence order; every applicable suggestion-band row appears |
| PromptEvolver.SuggestedNotApplied | backend/src/ai_video_gen/feedback/prompt_evolver.py:138-143 | a suggested preference is never among those applied automatically |
| PromptEvolver.ProjectHistoryMembers | backend/src/ai_video_gen/feedback/prompt_evolver.py:162-171 | the history holds exactly the entries of rows whose project id is the given one |
| PromptEvolver.GetEvolutionHistory | backend/src/ai_video_gen/feedback/prompt_evolver.py:157-173 | the project's active preferences, newest first, and no others |
| PromptEvolver.ProfileLinesHave | backend/src/ai_video_gen/feedback/prompt_evolver.py:189-190 | the profile section contains a line for each shown entry |
| PromptEvolver.ProfileSection | backend/src/ai_video_gen/feedback/prompt_evolver.py:187-190 | the loop builds the header followed by the lines |
| PromptEvolver.PersonalizedFacts | backend/src/ai_video_gen/feedback/prompt_evolver.py:183-192 | the base unchanged iff there are no high entries; otherwise the base followed by at most ten description lines |
| PromptEvolver.NoHighEntries | backend/src/ai_video_gen/feedback/prompt_evolver.py:181-184 | there are no high entries iff no active preference is at or above 0.85 |
| PromptEvolver.CreatePersonalizedSystemPrompt | backend/src/ai_video_gen/feedback/prompt_evolver.py:175-192 | the personalized prompt built from the profile's high-confidence entries |
| PromptEvolver.PersonalizedOfTable | backend/src/ai_video_gen/feedback/prompt_evolver.py:175-192 | the prompt starts with the base, equals it iff no active preference is at or above 0.85, and names the first ten high entries |
| PreferencesApi.EventOf | backend/src/ai_video_gen/api/preferences.py:64-74 | the request's nine fields are copied; the image and diff fields are None |
| PreferencesApi.RecordCorrection | backend/src/ai_video_gen/api/preferences.py:60-78 | status "recorded" and exactly that event appended |
| PreferencesApi.Shortened | backend/src/ai_video_gen/api/preferences.py:127-128 | the first 100 characters followed by "..." |
| PreferencesApi.DiffEvent | backend/src/ai_video_gen/api/preferences.py:121-130 | stage image, category style, field slide_image, both paths shortened, and the overall preference as the description |
| PreferencesApi.AnalyzeVisualDiff | backend/src/ai_video_gen/api/preferences.py:111-138 | returns the analyzer's result; a failure records nothing; a success records exactly the diff event |
| PreferencesApi.PreferenceOf | backend/src/ai_video_gen/api/preferences.py:176-183 | the request's six fields plus the preference defaults |
| PreferencesApi.CreatePreference | backend/src/ai_video_gen/api/preferences.py:172-187 | status "created" and that preference appended |
| PreferencesApi.BuildUpdates | backend/src/ai_video_gen/api/preferences.py:194-200 | the dict holds exactly the non-None fields among description, confidence and is_active, with their values (is_active false kept) |
| PreferencesApi.UpdateApplies | backend/src/ai_video_gen/api/preferences.py:194-202 | applying the dict sets exactly the given fields; an empty request changes nothing |
| PreferencesApi.UpdatePreference | backend/src/ai_video_gen/api/preferences.py:190-205 | status "updated"; an existing row gets the given fields; an unknown id changes nothing |
| PreferencesApi.DeactivatePreference | backend/src/ai_video_gen/api/preferences.py:208-215 | "deactivated" iff the row existed (and it is then inactive), else "failed" with nothing changed |
| PreferencesApi.SavedRows | backend/src/ai_video_gen/api/preferences.py:232-235 | one saved row per inferred preference |
| PreferencesApi.SaveAll | backend/src/ai_video_gen/api/preferences.py:232-235 | the loop appends exactly the saved rows |
| PreferencesApi.EvolvePreferences | backend/src/ai_video_gen/api/preferences.py:218-244 | no corrections: "no_corrections" with nothing saved, iff the limit is 0 or the log is empty; otherwise one save per inferred preference, and the report counts the corrections read and the rows saved |
| Ws.RemoveFirst | backend/src/ai_video_gen/api/ws.py:29-30 | `list.remove`: one fewer element when present, and the multiset loses exactly one occurrence |
| Ws.RemoveAbsent | backend/src/ai_video_gen/api/ws.py:29-30 | removing an absent socket changes nothing |
| Ws.RemoveAppended | backend/src/ai_video_gen/api/ws.py:22-30 | removing a new socket just appended restores the list |
| Ws.Connected | backend/src/ai_video_gen/api/ws.py:19-24 | the socket is last in the project's list, which is created when missing; other projects are unchanged; no list is left empty |
| Ws.Disconnected | backend/src/ai_video_gen/api/ws.py:26-32 | the first occurrence is removed and an emptied project dropped; other projects are unchanged; an unknown project is left alone; no list is left empty |
| Ws.ConnectThenDisconnect | backend/src/ai_video_gen/api/ws.py:19-32 | connecting a new socket and disconnecting it restores the registry |
| Ws.DisconnectAbsent | backend/src/ai_video_gen/api/ws.py:26-32 | disconnecting an unlisted socket leaves the registry unchanged |
| Ws.DisconnectRemoved | backend/src/ai_video_gen/api/ws.py:29-32 | on a listed project, disconnect is the removal followed by dropping an emptied list |
| Ws.Deliveries | backend/src/ai_video_gen/api/ws.py:36-50 | one send per socket, in list order |
| Ws.ConnectionManager.constructor | backend/src/ai_video_gen/api/ws.py:15-17 | the registry starts empty |
| Ws.ConnectionManager.Connect | backend/src/ai_video_gen/api/ws.py:19-24 | the registry becomes the connected one, keeps its invariant, and nothing is sent |
| Ws.ConnectionManager.Disconnect | backend/src/ai_video_gen/api/ws.py:26-32 | the registry becomes the disconnected one, keeps its invariant, and nothing is sent |
| Ws.ConnectionManager.Broadcast | backend/src/ai_video_gen/api/ws.py:36-50 | the message goes to each of the project's sockets in order; nothing is sent without connections; the registry is unchanged |
| Ws.ConnectionManager.SendProgress | backend/src/ai_video_gen/api/ws.py:34-50 | a progress message to every socket of the project, nothing without connections |
| Ws.ConnectionManager.SendComplete | backend/src/ai_video_gen/api/ws.py:52-67 | a completion message to every socket of the project, nothing without connections |
| Ws.ConnectionManager.SendError | backend/src/ai_video_gen/api/ws.py:69-84 | an error message to every socket of the project, nothing without connections |
| VisualDiff.PrepareImageData | backend/src/ai_video_gen/feedback/visual_diff.py:109-120 | a non-"data:" input gives image/png with empty data; otherwise the data is everything after the first comma, and the mime type is the start of the header after its colon, holding no ":" or ";" |
| VisualDiff.PrepareFailsWithoutComma | backend/src/ai_video_gen/feedback/visual_diff.py:111-116 | a "data:" string fails (IndexError) iff it has no comma |
| VisualDiff.PrepareDataUrl | backend/src/ai_video_gen/feedback/visual_diff.py:111-116 | any `data:<mime>;<params>,<payload>` URL (mime free of ":", ";" and ",", params free of ",") gives back the mime type and the payload, inner commas of the payload kept |
| VisualDiff.PrepareStoredUrl | backend/src/ai_video_gen/feedback/visual_diff.py:111-116 | the `data:<mime>;base64,<payload>` URLs the pipeline stores come back whole |
| VisualDiff.DataUrlSplit | backend/src/ai_video_gen/feedback/visual_diff.py:112-116 | a data URL splits at the comma after its header, whatever parameters the header carries |
| VisualDiff.DataUrlHeader | backend/src/ai_video_gen/feedback/visual_diff.py:114 | for a header `data:<mime>;<params>`, the mime type is what follows "data:" up to the first ";" |
| VisualDiff.MockDiffResult | backend/src/ai_video_gen/feedback/visual_diff.py:152-170 | two changes (配色, then レイアウト) and a non-empty overall preference |
| VisualDiff.ParseDiffResult | backend/src/ai_video_gen/feedback/visual_diff.py:122-150 | one change per decoded entry, in order, missing fields ""; the mock when decoding fails |
| VisualDiff.AnalyzeDiff | backend/src/ai_video_gen/feedback/visual_diff.py:53-107 | the mock without an API key; a malformed data URL fails; an error status fails; otherwise the parsed reply |
| Text.ExtractFencedSpec | backend/src/ai_video_gen/feedback/visual_diff.py:126-130 | the text after the first "```json" up to the next fence; else between the first two fences; else the whole text (the same rule at claude.py:109-113, gemini.py:157-161 and preference_engine.py:125-129) |
| Text.HtmlEscape | backend/src/ai_video_gen/services/slide_renderer.py:23-24 | escaped text holds no raw <, >, " or ' |
| Text.EscapeRoundTrip | backend/src/ai_video_gen/services/slide_renderer.py:23-24 | escaping loses nothing: unescaping gives the text back |
| Text.Pad3 | backend/src/ai_video_gen/services/ffmpeg.py:55 | `{idx:03d}`: at least three digits, exactly three below 1000 |
| SlideRenderer.ListItemsRoundTrip | backend/src/ai_video_gen/services/slide_renderer.py:35-37 | the `<li>` list reads back as exactly the items, in order |
| SlideRenderer.HighlightCode | backend/src/ai_video_gen/services/slide_renderer.py:88-111 | for languages other than python and javascript, the result is exactly the escaped code |
| SlideRenderer.SlideContent | backend/src/ai_video_gen/services/slide_renderer.py:32-43 | the slide markup is the content-slide block with the escaped heading and one `<li>` per bullet, which read back as the bullets |
| SlideRenderer.GenerateContent | backend/src/ai_video_gen/services/slide_renderer.py:20-86 | whatever the section type, the content is one `<div class="…">` block |
| SlideRenderer.CodeTypingLikeCode | backend/src/ai_video_gen/services/slide_renderer.py:45-54 | code_typing renders exactly as code, with the escaped upper-cased language (default python) as the heading |
| SlideRenderer.RenderSinglePlaceholder | backend/src/ai_video_gen/services/slide_renderer.py:11-17 | the content replaces the placeholder in the template |
| SlideRenderer.SlideDataUrl | backend/src/ai_video_gen/services/slide_renderer.py:114-119 | "data:text/html;base64," followed by the base64 of the UTF-8 HTML |
| Gemini.BuildImagePrompt | backend/src/ai_video_gen/services/gemini.py:69-95 | every image prompt begins with the fixed base sentence and a space |
| Gemini.TitlePrompt | backend/src/ai_video_gen/services/gemini.py:73-76 | the title prompt quotes the title and the subtitle in 「」; both missing gives empty quotes |
| Gemini.CodePrompt | backend/src/ai_video_gen/services/gemini.py:84-87 | after a head naming the language (python by default) comes a prefix of the code of at most 200 characters, the whole code when it is that short |
| Gemini.SlidePrompt | backend/src/ai_video_gen/services/gemini.py:78-82 | the heading is quoted, and when no bullet contains "、" the text after the head splits back into exactly the bullets, in order |
| Gemini.SummaryPrompt | backend/src/ai_video_gen/services/gemini.py:89-92 | when no point contains "、" the text after the head splits back into exactly the points, in order |
| Gemini.OtherTypesDump | backend/src/ai_video_gen/services/gemini.py:94-95 | every other type, code_typing and diagram included, is described by the JSON dump |
| Gemini.GenerateSlideImage | backend/src/ai_video_gen/services/gemini.py:25-67 | None without an API key |
| Gemini.MockVisualDiff | backend/src/ai_video_gen/services/gemini.py:168-180 | one change and a non-empty overall preference |
| Gemini.AnalyzeVisualDiff | backend/src/ai_video_gen/services/gemini.py:97-166 | the mock without a key or on failure; otherwise the decoded, fence-stripped reply, or the mock when it does not decode |
| Claude.MockTarget | backend/src/ai_video_gen/services/claude.py:164 | `duration_target or 180` |
| Claude.MockScript | backend/src/ai_video_gen/services/claude.py:158-227 | every mock section gives its type, duration, narration and visual spec, so no script-stage default applies |
| Claude.MockScriptShape | backend/src/ai_video_gen/services/claude.py:158-227 | the title is theme + " 入門"; five sections typed title, slide, code, slide, summary, all valid types; durations 5 and the truncations of target × 0.2, 0.3, 0.25 and 0.1 |
| Claude.MockScriptDefaultDurations | backend/src/ai_video_gen/services/claude.py:164-216 | without a target the durations are 5, 36, 54, 45 and 18 |
| Claude.UserPrompt | backend/src/ai_video_gen/services/claude.py:84-86 | "テーマ: theme", with the target line only when the target is truthy |
| Claude.GenerateScript | backend/src/ai_video_gen/services/claude.py:75-115 | the mock without an API key, which has a title and sections; otherwise the fence-stripped decoded reply, and an error when the call or the decoding fails |
| ElevenLabs.ServiceVoice | backend/src/ai_video_gen/services/elevenlabs.py:13 | the configured voice, else "21m00Tcm4TlvDq8ikWAM" |
| ElevenLabs.RequestVoice | backend/src/ai_video_gen/services/elevenlabs.py:31 | an explicit voice wins, else the service voice; never empty |
| ElevenLabs.GenerateSpeech | backend/src/ai_video_gen/services/elevenlabs.py:21-57 | None without an API key; otherwise the service's answer for the chosen voice |
| ElevenLabs.MockVoices | backend/src/ai_video_gen/services/elevenlabs.py:86-92 | the three mock voices |
| ElevenLabs.GetVoices | backend/src/ai_video_gen/services/elevenlabs.py:59-84 | the mock voices without an API key or on failure |
| ElevenLabs.EstimateDuration | backend/src/ai_video_gen/services/elevenlabs.py:94-99 | at least 1.0, and either 1.0 or length/6 |
| ElevenLabs.EstimateDurationValues | backend/src/ai_video_gen/services/elevenlabs.py:98-99 | exactly length/6 from six characters up, and 1.0 up to six |
| ElevenLabs.EstimateDurationMonotone | backend/src/ai_video_gen/services/elevenlabs.py:98-99 | a longer text never gets a shorter estimate |
| Ffmpeg.SegmentDuration | backend/src/ai_video_gen/services/ffmpeg.py:50 | a missing or zero duration becomes 5.0 |
| Ffmpeg.EstimateFileSize | backend/src/ai_video_gen/services/ffmpeg.py:199-202 | for a non-negative duration, the whole number of bytes in 5 MiB a minute, truncated |
| Ffmpeg.EstimateFileSizeFacts | backend/src/ai_video_gen/services/ffmpeg.py:199-202 | 60 seconds gives 5,242,880 bytes, and the estimate never decreases as the duration grows |
| Ffmpeg.PlaceholderColor | backend/src/ai_video_gen/services/ffmpeg.py:94-100 | slide #16213e, code #0d1117, every other type #1a1a2e |
| Ffmpeg.FileNamesDistinct | backend/src/ai_video_gen/services/ffmpeg.py:55-71 | different indices below 1000 get different slide, audio and segment files |
| Ffmpeg.SegmentCommand | backend/src/ai_video_gen/services/ffmpeg.py:114-148 | with audio: the audio input and -shortest, and no -t or -r outside the path arguments; without: -t duration and -r 30, and no -shortest or -c:a outside the paths and the duration |
| Ffmpeg.SectionAudio | backend/src/ai_video_gen/services/ffmpeg.py:64-68 | no audio unless the path starts with "data:audio"; a failure is a missing comma or bad base64 |
| Ffmpeg.SegmentsErrorPersists | backend/src/ai_video_gen/services/ffmpeg.py:49-78 | once a segment fails, the loop fails with that error |
| Ffmpeg.SegmentsNamed | backend/src/ai_video_gen/services/ffmpeg.py:49-78 | one segment per section, in order, named segment_NNN.mp4 by index |
| Ffmpeg.RunSegmentNamed | backend/src/ai_video_gen/services/ffmpeg.py:71-78 | a successful section yields its numbered segment file |
| Ffmpeg.SegmentsFirstFailure | backend/src/ai_video_gen/services/ffmpeg.py:49-78 | the first failing section's error is the loop's error |
| Ffmpeg.ConcatListAppend | backend/src/ai_video_gen/services/ffmpeg.py:176-178 | each segment adds its "file '…'" line |
| Ffmpeg.WriteConcatList | backend/src/ai_video_gen/services/ffmpeg.py:176-178 | the loop writes exactly the concat list |
| Ffmpeg.ConcatListLines | backend/src/ai_video_gen/services/ffmpeg.py:176-178 | the list has one "file '<path>'" line per segment, in order |
| Ffmpeg.Concatenated | backend/src/ai_video_gen/services/ffmpeg.py:160-197 | no segments fails; a single segment is copied without ffmpeg; two or more are joined by the concat command reading the concat list, which fails exactly when that command does |
| Ffmpeg.ComposeFailures | backend/src/ai_video_gen/services/ffmpeg.py:42-43 | no ffmpeg fails first; no sections fails at concatenation |
| Ffmpeg.ComposeIsVideoUrl | backend/src/ai_video_gen/services/ffmpeg.py:85-89 | a composed video is a "data:video/mp4;base64," URL |
| Ffmpeg.ComposeSingle | backend/src/ai_video_gen/services/ffmpeg.py:169-172 | one section's video is its segment's bytes |
| Ffmpeg.ComposeVideo | backend/src/ai_video_gen/services/ffmpeg.py:33-89 | the loop computes the composition |
| Codec.DataUrl | backend/src/ai_video_gen/services/ffmpeg.py:87 | "data:" + mime + ";base64," + payload |
| Arith.Trunc | backend/src/ai_video_gen/services/ffmpeg.py:202 | Python's `int()` on a float: the integer next to x toward zero, within 1 of x |

## Left out

- HTTP calls to Anthropic, Gemini and ElevenLabs become function-typed parameters: an exception or a non-200 reply is `None` or `Err`. This covers the streaming `generate_script_stream` (claude.py:117-156), whose SSE loop is network plumbing.
- `json.loads`/`json.dumps`, base64, UTF-8, `str(float)`, `{confidence:.0%}` and the regex highlighting (slide_renderer.py:92-109) are opaque functions. Only the slicing around them is modelled.
- The Supabase client is replaced by in-memory tables.
  - Row ids and `created_at` are insertion numbers, so "newest first" is reverse insertion order and ties cannot arise.
  - `project_id` filters compare strings.
  - The `sections` table is a map from project to its rows in `section_index` order.
- ffmpeg subprocesses, temporary files and the template file read are parameters: `installed`, `runSegment` (given the placeholder command that drew the segment's image), `runConcat` (given the concat list's text), `readFile`, `template`. The placeholder command's exit status is ignored, as in the source. The placeholder image is always created, so the data-URL branch at ffmpeg.py:56-61, which does the same thing, is not distinguished.
- Floats are idealised as Dafny `real`; IEEE rounding is not modelled. `int()` truncation is written out.
- `describe_single_image` (visual_diff.py:172-209) calls the vision model and returns its text, with nothing to model around it.
- WebSocket transport (`accept`, `send_text`, the keep-alive loop at ws.py:91-114) and asyncio interleaving are not modelled. A send is an entry in an outbox; a failing `send_text` is still recorded as an attempted delivery.
- `content_hash` is declared but never computed (schema.py:55). It is modelled as a field that is always None.
- Pydantic validation of request bodies is modelled only for `ProjectCreate`/`ProjectUpdate`; the handlers receive well-typed records.
- `PreferencesApi.EvolvePreferences`: the limit is a `nat`; negative limits are not modelled.
- `PreferencesApi.BuildUpdates`: the update dict is restricted to the three keys the handler can put in it.
- The inference prompt's fixed text (preference_engine.py:53-75) is not modelled: the model call receives only the formatted corrections.
- `Ws.ConnectionManager.Disconnect`: the emptiness check after a socket that was not in the list is omitted. The registry invariant guarantees that list is non-empty, so that check never drops anything.
- Schema.TextField: visual specs are assumed to hold only strings and lists of strings, and a list stored under a key read as text is treated as missing. In the source, `html.escape` raises on it in the renderer, and the Gemini prompt prints its repr. A string under "bullets" or "points" is iterated character by character, as in the source.
- VisualDiff.ParseDiffResult: a reply that is valid JSON of the wrong shape counts as a decoding failure and gets the mock answer. Examples are a top-level list or a `null` "changes". The source catches only decoding and lookup errors (visual_diff.py:148). Such a reply raises AttributeError or TypeError there, the request ends with HTTP 500, and no diff event is recorded.
- Gemini.AnalyzeVisualDiff: a vision reply that is valid JSON but not a diff object is assumed not to occur; the source hands it back unchanged (gemini.py:162).
- PreferenceEngine.ParsePreferences: likewise, a reply that decodes to something other than a list of objects gets the mock answer. The source catches only decoding, key and value errors there (preference_engine.py:155), so such a reply raises.
- Schema.Script.Entries: a script whose "sections" is JSON `null` reads as no sections. The source's `script.get("sections", [])` returns None there, and iterating it raises.
- Exceptions inside the API handlers that become HTTP 500 are not modelled, apart from the error results listed above.
