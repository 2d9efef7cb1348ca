# Campaign 270: a Dafny model of the AI service, the turn logic and the configuration editor

Campaign 270 is a browser game: the player runs a campaign across a map of regions. A language-model backend writes a scenario for each visited region and judges the option the player picks. This project models three parts of it and proves properties of each.

- **The AI service** (`services/geminiService.ts`):
  - the two request builders (the prompt texts and the response schemas);
  - the router `callAI`, which picks one of three wire shapes from the configured provider kind;
  - the Google SDK adapter and its schema tag mapping;
  - the chat-completions adapter: URL, headers, fence stripping, the brace scan and network-error hints;
  - the Anthropic messages adapter: URL, JSON-only suffix, fence stripping and CORS message.
- **The game screen** (`App.tsx`):
  - the initial configuration and game record;
  - the win/loss effect;
  - the four handlers: travel to a region, resolve an option, next day, restart;
  - the pure `setGameState` updater that applies an evaluation.
- **The configuration editor** (`components/SettingsModal.tsx`):
  - the default and new entries;
  - loading the saved list;
  - replace-by-id on save;
  - the field edit with provider auto-fill;
  - the browser-restriction predicate.

Modules:

- `Wrappers`: `Option` and `Result`.
- `Types`: the records of `types.ts`. The constants module is a parameter (`GameConstants`, and the `ProviderInfo` table).
- `JsStrings`: the JavaScript built-ins the source relies on, with their edge cases. These are:
  - `includes`;
  - `replace` with a global literal pattern;
  - `trim` over the ECMAScript white-space set;
  - `indexOf` and `lastIndexOf`;
  - `substring`, which clamps and swaps its bounds;
  - `Array.prototype.find`;
  - the trailing-slash regex;
  - integer rendering.
- `GeminiService`, `App` and `SettingsModal`: the three source files.

What the outside world answers is always an input:
- the HTTP reply or the exception `fetch` raised;
- the SDK reply;
- `window.location.origin`;
- `JSON.parse`, an abstract partial function from text to a value or a SyntaxError message.

`CallOpenAICompatible` reassigns `content` step by step and builds the header record in place, as the source does. The handlers are methods of a class whose fields are the component's state. The `map`/`reduce` updaters are functions.

## Model

| member | source | states |
|---|---|---|
| GeminiService.LanguageLine | services/geminiService.ts:28 | the prompt says "Respond in Chinese." exactly when the language is zh, "Respond in English." exactly when it is en |
| GeminiService.ScenarioPrompt | services/geminiService.ts:18-30 | the scenario prompt contains the region name, its description and the language line, and opens with the fixed introduction |
| GeminiService.EvaluationPrompt | services/geminiService.ts:67-89 | the evaluation prompt contains the region, scenario, choice, strategy name, tactic name, the rendered scandal level and the language line; funds are not interpolated |
| GeminiService.ScenarioSchemaShape | services/geminiService.ts:32-50 | ScenarioSchema requires title, description and options in order; options is an array of objects requiring text and strategy; strategy is one of the five strategy names |
| GeminiService.EvaluationSchemaShape | services/geminiService.ts:91-101 | EvaluationSchema requires all five properties; outcomeDescription is STRING and the four deltas NUMBER |
| GeminiService.Route | services/geminiService.ts:110-122 | google goes to the SDK; claude goes to the messages adapter exactly when its base URL is absent or does not contain "openrouter"; everything else goes to chat completions (each as an if-and-only-if) |
| GeminiService.RouteIgnoresCredentials | services/geminiService.ts:111-121 | the route depends only on the provider kind and the base URL |
| GeminiService.ChatBase | services/geminiService.ts:164 | the chat base never ends in "/"; an absent or empty base URL gives the OpenAI default; otherwise it is a prefix of the configured URL followed only by slashes |
| GeminiService.ChatUrl | services/geminiService.ts:164-165 | the chat URL is the base followed by "/chat/completions", and the part before the path does not end in "/" |
| GeminiService.ChatUrlIgnoresTrailingSlash | services/geminiService.ts:164 | a trailing slash on the configured base URL does not change the chat URL |
| GeminiService.ClaudeBase | services/geminiService.ts:117 | a non-empty base URL is used as given; an absent or empty one gives https://api.anthropic.com/v1 |
| GeminiService.MessagesUrl | services/geminiService.ts:234 | the messages URL is the base with only its trailing "/" removed, followed by "/messages" |
| GeminiService.MessagesUrlIgnoresTrailingSlash | services/geminiService.ts:234 | a trailing slash on the base does not change the messages URL |
| GeminiService.DefaultMessagesUrl | services/geminiService.ts:233-234 | with no base URL configured (`baseUrl || default` at line 117) the messages adapter posts to https://api.anthropic.com/v1/messages |
| GeminiService.ChatHeaders | services/geminiService.ts:167-176 | JSON content type and "Bearer " + key always; HTTP-Referer (origin or localhost) and X-Title "Campaign 270" if and only if the URL contains "openrouter" |
| GeminiService.ClaudeHeaders | services/geminiService.ts:241-246 | the key travels in x-api-key with anthropic-version 2023-06-01, and there is no Authorization header |
| GeminiService.StripFences | services/geminiService.ts:202 | after removing "```json", then "```", then trimming, no "```" remains |
| JsStrings.RemovingTicksLeavesNone | services/geminiService.ts:202 | a global replace of "```" by nothing leaves no "```", even where removals join backticks |
| GeminiService.StripFencesKeepsClean | services/geminiService.ts:202 | text without fences or surrounding white space passes unchanged |
| GeminiService.StripFencesIdempotent | services/geminiService.ts:265 | stripping twice equals stripping once |
| GeminiService.StripFencesUnwrapsBlock | services/geminiService.ts:200-202 | a reply wrapped as a json code block strips to what the bare reply strips to |
| GeminiService.BraceScan | services/geminiService.ts:205-209 | the scanned text is a substring of its input |
| GeminiService.BraceScanExtracts | services/geminiService.ts:205-209 | with "{" before the last "}", the result is exactly the span from the first "{" to the last "}" |
| GeminiService.BraceScanBraced | services/geminiService.ts:205-209 | in that case the result starts with "{" and ends with "}" |
| GeminiService.BraceScanSwapped | services/geminiService.ts:208 | when the last "}" comes before the first "{", substring swaps its bounds and the result is the text between them, which holds no brace |
| GeminiService.BraceScanWithoutPair | services/geminiService.ts:207 | text lacking "{" or "}" is left unchanged |
| GeminiService.BraceScanKeepsObject | services/geminiService.ts:205-209 | text that starts with "{" and ends with "}" is left unchanged |
| GeminiService.BraceScanDropsProse | services/geminiService.ts:204-209 | prose without "{" before a braced object and without "}" after it is cut away exactly |
| GeminiService.BraceScanIdempotent | services/geminiService.ts:205-209 | scanning twice equals scanning once |
| GeminiService.RepairChatText | services/geminiService.ts:202-209 | the text the chat path hands to JSON.parse contains no "```" |
| GeminiService.IsNetworkFailure | services/geminiService.ts:217 | every TypeError and every error with the message "Failed to fetch" is a network failure, and nothing else is; a SyntaxError from JSON.parse is one only with that message |
| GeminiService.NetworkHint | services/geminiService.ts:218-223 | the CORS hint exactly when the URL names deepseek, openai, anthropic or x.ai; the Ollama hint exactly when it names none of them but localhost; "Check your internet connection." exactly when it names none of the five |
| GeminiService.DefaultChatUrlHintsCors | services/geminiService.ts:164-225 | with no base URL the chat URL names openai, so its network failures carry the CORS hint |
| GeminiService.ClassifyChatError | services/geminiService.ts:217-228 | a "Failed to fetch" or TypeError becomes the Error "Network Error: Failed to connect to {base}. {hint}" with NetworkHint of the URL; anything else is rethrown unchanged |
| GeminiService.ChatNetworkFailureHinted | services/geminiService.ts:178-226 | a network failure of the chat call reaches the caller as that error, ending in a non-empty hint chosen from the URL |
| GeminiService.NullChatBodyIsNetworkError | services/geminiService.ts:195-225 | a `null` JSON body on the chat path makes `data.choices` throw a TypeError, which the catch block turns into the hinted network error, never "No content in response" |
| GeminiService.ClassifyClaudeError | services/geminiService.ts:270-273 | a "Failed to fetch" or TypeError becomes the Claude CORS message; anything else is rethrown unchanged |
| GeminiService.ClassifyChatIdempotent | services/geminiService.ts:217-228 | a reclassified error is not reclassified again |
| GeminiService.OwnErrorsAreRethrown | services/geminiService.ts:190-198 | the adapters' own "API Error", "No content in response" and "Claude API Error" errors pass through the catch blocks unchanged |
| GeminiService.ApiError | services/geminiService.ts:190-193 | "API Error " then the status, ending in the response body; never taken for a network failure |
| GeminiService.ClaudeApiError | services/geminiService.ts:256-259 | starts with "Claude API Error: " and ends in the response body; never taken for a network failure |
| GeminiService.ClaudeApiErrorCarriesStatus | services/geminiService.ts:258 | the status code can be read back from the digits after "Claude API Error: ", and what follows them is " " and the body |
| GeminiService.ApiErrorCarriesStatus | services/geminiService.ts:192 | the status code can be read back from the digits after "API Error ", and what follows them is ": " and the body |
| GeminiService.MapTag | services/geminiService.ts:133-135 | NUMBER and ARRAY are kept, every other tag becomes STRING |
| GeminiService.MapProperties | services/geminiService.ts:131-138 | each property keeps its name, position and other keys; only its type tag is mapped |
| GeminiService.GoogleSchema | services/geminiService.ts:129-140 | the SDK schema is an OBJECT with required copied and its properties exactly MapProperties of the source's (names, order and other keys kept, NUMBER and ARRAY kept, other tags STRING) |
| GeminiService.GoogleSchemaIdempotent | services/geminiService.ts:129-140 | mapping twice equals mapping once |
| GeminiService.GoogleSchemaKeepsSourceSchemas | services/geminiService.ts:32-50 | both schemas the service defines reach the SDK unchanged |
| GeminiService.ParseOutcome | services/geminiService.ts:211 | JSON.parse's value is returned as-is (no clamping, no validation); its failure is a SyntaxError with its message |
| GeminiService.Caught | services/geminiService.ts:213-228 | a value passes a catch block untouched; an error comes out as the handler rethrows it |
| GeminiService.CallGoogle | services/geminiService.ts:125-156 | the SDK request (an empty model becomes gemini-2.5-flash, the schema is mapped); an empty or missing reply text is parsed as "{}"; SDK errors are rethrown; success is exactly the parse result |
| GeminiService.CallClaude | services/geminiService.ts:233-275 | the request (messages URL, headers, prompt with the JSON-only suffix, 1024 tokens); non-ok gives "Claude API Error: status body"; missing content gives the CORS message; otherwise fences are stripped with no brace scan and the parse result is returned |
| GeminiService.CleanContent | services/geminiService.ts:196-209 | the in-place clean-up of `content` yields the fence-free repaired text |
| GeminiService.CallOpenAICompatible | services/geminiService.ts:159-230 | the request (URL, headers, temperature 0.7, 1024 tokens); a transport error is classified; non-ok gives "API Error status: body"; empty content gives "No content in response"; otherwise the repaired text, which holds no fence, is parsed and a parse failure goes through the catch block |
| GeminiService.CallAI | services/geminiService.ts:110-122 | each route's adapter contract holds; success is exactly what JSON.parse returned; on the HTTP routes the parsed text holds no fence; the SDK is used exactly on the native route |
| GeminiService.GenerateStateScenario | services/geminiService.ts:11-53 | the scenario prompt and schema are sent along the configured route; success is the parse result as-is |
| GeminiService.EvaluateChoice | services/geminiService.ts:55-104 | the evaluation prompt and schema are sent along the configured route; currentFunds reaches no request |
| App.DefaultAppConfig | App.tsx:22-28 | id "default", name "Default", google, the environment key, gemini-2.5-flash, no base URL |
| App.InitialConfig | App.tsx:15-29 | the first saved config when the saved list is non-empty, else the built-in default |
| App.InitialConfigIsNative | App.tsx:22-28 | with nothing saved the game starts on the SDK route with the SDK's default model |
| App.InitialGameState | App.tsx:32-43 | the constants' funds, energy and days; zero scandal and votes; 45 national polling; the initial regions; no history; not over; no verdict |
| App.Outcome | App.tsx:58-62 | victory exactly when votes reach the threshold; defeat exactly when they do not and day <= 0, funds < 0 or energy <= 0 |
| App.Judge | App.tsx:55-64 | only gameOver and victory change; a started, running game ends with the outcome's verdict; otherwise nothing changes |
| App.JudgeIdempotent | App.tsx:55-64 | running the effect twice equals running it once |
| App.JudgeKeepsFinishedGame | App.tsx:57 | a game that is over is left alone |
| App.JudgeKeepsVerdictRecorded | App.tsx:57-62 | "over exactly when a verdict is set" is preserved |
| App.VictoryTakesPrecedence | App.tsx:58-60 | enough votes win even when the defeat conditions also hold |
| App.Clamp | App.tsx:143 | the result lies in [lo, hi], equals x inside, lo below and hi above |
| App.PollingCap | App.tsx:147-150 | cap 45 above 80 scandal, 55 above 60, else 100 |
| App.PollingCapAntitone | App.tsx:147-150 | more scandal never raises the cap |
| App.Visit | App.tsx:152-155 | the visited region's polling is clamp(polling + change, 0, cap), its status is visited, nothing else changes |
| App.VisitRegions | App.tsx:145-158 | same length; regions with the selected id are visited, others are kept |
| App.ProjectedVotes | App.tsx:161-163 | the reduce over regions: zero when no region polls above 50, the total of all votes when every region does |
| App.ProjectedVotesAppend | App.tsx:161-163 | the projection of a concatenation is the sum of the projections |
| App.ProjectedVotesUpdate | App.tsx:161-163 | replacing one region changes the projection by the difference of its contributions |
| App.ProjectedVotesBounds | App.tsx:161-163 | with non-negative votes, 0 <= projection <= total votes |
| App.ProjectedVotesBySide | App.tsx:162 | the projection depends only on votes and whether polling is strictly above 50 |
| App.ApplyResult | App.tsx:139-173 | funds minus the tactic cost plus fundChange, energy plus energyChange, both unclamped; scandal clamped to [0,100]; the regions visited under the new cap; votes recounted from the new regions; nothing else changes |
| App.ApplyResultKeepsRange | App.tsx:141-158 | region polling stays within [0,100] and scandal is brought into [0,100] |
| App.ApplyResultTouchesOnlySelected | App.tsx:145-158 | regions with another id are unchanged in place |
| App.HighScandalCarriesNothing | App.tsx:147-163 | above 80 scandal the visited region cannot count toward the votes |
| App.ApplyResultVotesDelta | App.tsx:145-163 | with distinct ids, the recount equals the old projection adjusted only by the visited region |
| App.FindRegion | App.tsx:121 | none exactly when no region has the id; otherwise the first region with that id |
| App.MissingKey | App.tsx:71 | a click is diverted to settings exactly when the key is empty and the provider is not ollama |
| App.CanTravel | App.tsx:76-83 | travel is allowed exactly with at least 10000 funds and 5 energy, and allowed travel leaves both non-negative |
| App.Travel | App.tsx:93-97 | funds drop by 10000 and energy by 5, nothing else changes |
| App.AppComponent.constructor | App.tsx:13-49 | English, settings closed, the initial config and game record, nothing selected, not loading, not started |
| App.AppComponent.CheckWinLoss | App.tsx:55-64 | the game record becomes Judge of the old one |
| App.AppComponent.HandleStateClick | App.tsx:68-106 | ignored while over or loading; opens settings without a key (except ollama); no change without funds >= 10000 and energy >= 5; otherwise selects the region and requests its scenario; travel is charged only on success; failure opens settings and leaves the game unchanged |
| App.AppComponent.HandleOptionSelect | App.tsx:108-181 | needs a scenario, a non-empty selection and funds >= tacticCost; then closes the scenario and stops loading |
| App.AppComponent.Evaluate | App.tsx:120-177 | with no region under the selected id nothing is asked; otherwise the evaluator gets funds minus the cost and the scandal; success applies ApplyResult; failure leaves the game unchanged |
| App.AppComponent.HandleNextDay | App.tsx:183-190 | day decreases by exactly one; result and selection are cleared |
| App.AppComponent.ApplySettings | App.tsx:264-266 | the saved configuration becomes the active one and the dialog closes |
| App.AppComponent.RestartGame | App.tsx:192-206 | the game record is reset to its initial value and the game is started |
| SettingsModal.DefaultConfig | components/SettingsModal.tsx:14-20 | id "default", name "Default (Gemini)", google, the environment key, gemini-2.5-flash |
| SettingsModal.NewConfig | components/SettingsModal.tsx:55-62 | the new entry: given id, "New Config", openai, empty key, empty base URL, gpt-4o-mini |
| SettingsModal.NewConfigUsesOpenAIDefault | components/SettingsModal.tsx:58-61 | a new entry routes to chat completions at the OpenAI default URL |
| SettingsModal.FindConfig | components/SettingsModal.tsx:39 | none exactly when no entry has the id; otherwise the first entry with it |
| SettingsModal.ReplaceById | components/SettingsModal.tsx:69 | same length; every entry with the edited id becomes the edited config, the others are kept in place |
| SettingsModal.ReplaceByIdKeepsIds | components/SettingsModal.tsx:69 | every position keeps its id |
| SettingsModal.ReplaceByIdAbsent | components/SettingsModal.tsx:69 | an id not in the list leaves the list unchanged |
| SettingsModal.ReplaceByIdIdempotent | components/SettingsModal.tsx:69 | saving twice equals saving once |
| SettingsModal.ReplaceByIdThenFind | components/SettingsModal.tsx:69 | after saving, a lookup by the id finds the edited config if the id was present |
| SettingsModal.AddThenSaveAppends | components/SettingsModal.tsx:54-69 | adding under a fresh id and saving appends exactly the edited config |
| SettingsModal.FindProvider | components/SettingsModal.tsx:83 | none exactly when the table lacks the kind; otherwise the first table row for it |
| SettingsModal.Edited | components/SettingsModal.tsx:78-91 | the id never changes; a non-provider edit changes only its field; a provider edit sets the provider and, for a kind in the table, the default URL (or '') and default model; otherwise only the provider |
| SettingsModal.EditedIdempotent | components/SettingsModal.tsx:78-91 | entering the same value twice equals entering it once |
| SettingsModal.ProviderChoiceRoutes | components/SettingsModal.tsx:81-88 | after choosing a provider the route is native exactly for google, and chat completions for kinds other than google and claude |
| SettingsModal.IsBrowserRestricted | components/SettingsModal.tsx:95 | true exactly for openai, deepseek, grok and claude |
| SettingsModal.RestrictedProvidersUseHttp | components/SettingsModal.tsx:95 | every restricted provider is reached over HTTP, never through the SDK |
| SettingsModal.SettingsComponent.constructor | components/SettingsModal.tsx:25-27 | an empty list, the current id selected, the default config being edited |
| SettingsModal.SettingsComponent.Load | components/SettingsModal.tsx:31-47 | nothing saved: the list is the default alone, which is edited; saved: the list as saved, and the entry with a non-empty current id is edited if found, else the edited config is kept |
| SettingsModal.SettingsComponent.SelectConfig | components/SettingsModal.tsx:49-52 | the entry's id is selected and the entry is edited |
| SettingsModal.SettingsComponent.AddNew | components/SettingsModal.tsx:54-65 | exactly one new entry is appended and becomes selected and edited |
| SettingsModal.SettingsComponent.Save | components/SettingsModal.tsx:67-76 | the list becomes ReplaceById of the old list; that list is stored and the edited config is applied |
| SettingsModal.SettingsComponent.Change | components/SettingsModal.tsx:78-91 | the edited config becomes Edited of the old one |

## Left out

- `fetch`, the response body readers and the GoogleGenAI SDK call are not modelled. Their outcomes are inputs (`HttpReply`, `SdkReply`).
- `JSON.parse` is an abstract function; the JSON grammar is not modelled.
- `HttpReply.content` is the already-extracted `choices[0].message.content` or `content[0].text`, as a string or missing. A non-string value there (a number, an array) is not modelled.
- A successful chat reply whose JSON body is `null` is given as `Threw` with a TypeError, because reading `data.choices` of `null` throws. It is not a `Replied` reply with missing content.
- `console.error`, `alert`, `Date.now()`, `window.location.origin` and `process.env.API_KEY` are not modelled. Each is omitted or passed in as a parameter.
- `localStorage` is an input on load (the already-parsed list, missing when the entry is absent or empty) and an output on save. A stored entry that fails to parse, which throws in the source, is not modelled.
- async/await and React's scheduling are not modelled. Each handler is one atomic transition, so `loading` is shown only before and after it.
- The win/loss effect is not triggered automatically. `CheckWinLoss` is the transition the effect performs, and the model does not decide when React runs it.
- App.AppComponent.HandleStateClick and App.AppComponent.Evaluate take the outcome of the AI call as a parameter and return the arguments passed to `generateStateScenario` / `evaluateChoice`. They do not call `GeminiService.GenerateStateScenario` themselves, whose contract is stated separately.
- Numbers are `int`. The source does no rounding and the model adds none. The temperature 0.7 is a `real` constant.
- The constants module is not part of this model. `INITIAL_FUNDS`, `INITIAL_ENERGY`, `MAX_DAYS`, `WINNING_THRESHOLD`, `INITIAL_STATES` and `PROVIDERS` are parameters.
- The remaining UI is not modelled:
  - JSX and the rendering of every component;
  - the language toggle;
  - the buttons that open the settings;
  - the `canAfford` display check;
  - number formatting.
- App.AppComponent.HandleStateClick and App.AppComponent.HandleOptionSelect take an already well-formed `Scenario` or `ScenarioResult`. In the source that value is whatever `JSON.parse` produced, unchecked; a reply missing `fundChange`, `energyChange`, `scandalChange` or `pollingChange` would leave NaN or undefined in funds, energy, scandal or polling. That case is not modelled.
- GeminiService.ScenarioPrompt and GeminiService.EvaluationPrompt state that the interpolated values and the language line occur in the prompt. The fixed wording is written out in the model but carries no further contract.
- The Claude path's reply without `content[0].text` is modelled as missing content. It raises a TypeError, which the catch block turns into the CORS message. The engine's wording of that TypeError plays no role.

Behaviour of the source worth knowing, which the model keeps as written:
- The source does not validate the parsed reply against the schema. The parse result is returned as-is (`ParseOutcome`).
- The source does not check request inputs for emptiness.
- `currentFunds` is passed to `evaluateChoice` but never interpolated into the prompt.
- The chat path falls back to the OpenAI URL for every provider kind, not to a per-kind default.
- The Claude path reports a missing reply text as the CORS message, because reading it raises a TypeError.
- The chat path reports a `null` JSON body as a network error ("Network Error: Failed to connect to ..."), because reading `data.choices` of `null` raises a TypeError (`GeminiService.NullChatBodyIsNetworkError`).
