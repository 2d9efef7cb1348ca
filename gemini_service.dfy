/**
 * The AI service layer (services/geminiService.ts): the two request builders, the router
 * `callAI`, and the three adapters, one per wire shape (the Google SDK with a response
 * schema, OpenAI-style chat completions, Anthropic-style messages).
 *
 * Nothing here performs I/O. What the outside world answers to the single call an
 * adapter makes is an input, a `Backend`: the reply of `fetch` (or the exception it or
 * the body reader raised), the reply of the SDK, `window.location.origin`, and
 * `JSON.parse`, an abstract partial function that yields a value or the message of the
 * SyntaxError it throws. Each adapter returns the request it would send, the text it
 * would hand to `JSON.parse`, and the value or error the caller receives.
 */
module GeminiService {
  import opened Wrappers
  import opened Types
  import opened JsStrings

  const DefaultGoogleModel := "gemini-2.5-flash"
  const DefaultOpenAIBase := "https://api.openai.com/v1"
  const DefaultAnthropicBase := "https://api.anthropic.com/v1"
  const ChatPath := "/chat/completions"
  const MessagesPath := "/messages"
  const FenceTag := "```json"
  const Fence := "```"
  const JsonMime := "application/json"
  const AnthropicVersion := "2023-06-01"
  const LocalOrigin := "http://localhost:3000"
  const AppTitle := "Campaign 270"
  const MaxTokens := 1024
  const StrictSuffix := "\n\nIMPORTANT: Respond strictly with valid JSON only. Do not add markdown blocks."
  const CorsHint := "Browsers block direct access to this API (CORS). Please use 'OpenRouter' from the provider list instead."
  const OllamaHint := "Ensure OLLAMA_ORIGINS=\"*\" is set when running Ollama."
  const ConnectionHint := "Check your internet connection."
  const ClaudeCorsMessage := "Network Error: Claude API blocked by browser CORS. Please use OpenRouter instead."
  const NoContentMessage := "No content in response"
  /** What reading `content[0].text` of a reply without content raises. */
  const MissingContentMessage := "Cannot read properties of undefined (reading 'text')"

  /** A JavaScript exception: its `name` ("Error", "TypeError", "SyntaxError") and `message`. */
  datatype JsError = JsError(name: string, message: string)

  /** What `fetch` and the body readers produce for one HTTP call. */
  datatype HttpReply =
      /** `fetch`, `response.text()` or `response.json()` raised `error`, or reading the
          content path raised it: on the chat path a JSON body of `null` makes
          `data.choices` throw, so it is `Threw(JsError("TypeError", ...))`, not `Replied`. */
    | Threw(error: JsError)
      /** The reply's `ok` flag, `status`, text body, and the message text the adapter
          reads from the JSON body (`choices[0].message.content` or `content[0].text`),
          None when that path is absent from a non-null body. */
    | Replied(ok: bool, status: nat, body: string, content: Option<string>)

  /** What the Google SDK's `generateContent` produces: an exception or the reply's `text`. */
  datatype SdkReply = SdkThrew(error: JsError) | SdkReplied(text: Option<string>)

  datatype Backend<J> = Backend(
    http: HttpReply,
    sdk: SdkReply,
    origin: Option<string>,
    parse: string -> Result<J, string>)

  /** A response schema in the shape the request builders write it. */
  datatype Schema = Schema(
    typeTag: string,
    properties: seq<(string, Schema)>,
    items: Option<Schema>,
    enumValues: Option<seq<string>>,
    required: Option<seq<string>>)

  /** The request an adapter issues. Both HTTP shapes send one message with role "user". */
  datatype Request =
    | SdkRequest(apiKey: string, model: string, contents: string, responseMimeType: string, responseSchema: Schema)
    | HttpRequest(url: string, headers: map<string, string>, model: string, content: string,
                  temperature: Option<real>, maxTokens: nat)

  /** One adapter call: what was sent, the text given to `JSON.parse` if it got that far, and the outcome. */
  datatype Call<J> = Call(sent: Request, parsedText: Option<string>, result: Result<J, JsError>)

  datatype Protocol = Native | Messages | ChatCompletions

  // ---------------------------------------------------------------------------
  // Request builders

  const ChineseLine := "Respond in Chinese."
  const EnglishLine := "Respond in English."

  /** The language line of both prompts. */
  function LanguageLine(lang: Language): (line: string)
    ensures line == ChineseLine <==> lang == Zh
    ensures line == EnglishLine <==> lang == En
  {
    assert ChineseLine != EnglishLine by {
      assert ChineseLine[11] == 'C' && EnglishLine[11] == 'E';
    }
    match lang
    case Zh => ChineseLine
    case En => EnglishLine
  }

  const ScenarioIntro := "\n    You are a cynical, Machiavellian political strategist for a game similar to 'House of Cards'."
    + "\n    Create a high-stakes, slightly dark, or satirical political scenario for the US state of "
  const ScenarioBrief := "\n    The scenario should involve a difficult dilemma (corruption, local industry vs environment, scandal, or unrest)."
    + "\n    \n    Provide 3 distinct options for the candidate."
    + "\n    - One option should be 'populist' (pleasing the masses)."
    + "\n    - One should be 'aggressive' (attacking others)."
    + "\n    - One should be 'corrupt' or 'shady' (high risk/reward)."
    + "\n    \n    "
  const PromptTail := "\n    Return ONLY valid JSON. Do not use Markdown code blocks.\n  "

  /** The pieces of `generateStateScenario`'s template literal, in order. */
  function ScenarioPieces(stateName: string, stateDesc: string, lang: Language): seq<string> {
    [ScenarioIntro, stateName, " (", stateDesc, ").", ScenarioBrief, LanguageLine(lang), PromptTail]
  }

  /** The prompt of `generateStateScenario`: it names the state, its description and the reply language. */
  function ScenarioPrompt(stateName: string, stateDesc: string, lang: Language): (prompt: string)
    ensures Contains(prompt, stateName) && Contains(prompt, stateDesc)
    ensures Contains(prompt, LanguageLine(lang))
    ensures StartsWith(prompt, ScenarioIntro)
  {
    var pieces := ScenarioPieces(stateName, stateDesc, lang);
    ConcatContainsPiece(pieces, 1);
    ConcatContainsPiece(pieces, 3);
    ConcatContainsPiece(pieces, 6);
    Concat(pieces)
  }

  const EvaluationRules := "\n\n    Evaluate the outcome realistically and cynically."
    + "\n    - If Tactic is 'bribe', result MUST be positive polling but HIGH scandal increase."
    + "\n    - If Tactic is 'spin', reduce any negative polling impact."
    + "\n    - If Strategy is 'corrupt' and no cover-up, chance of huge scandal."
    + "\n    - High scandal makes it harder to gain polling."
    + "\n\n    Return JSON:"
    + "\n    - outcomeDescription: Narrative result."
    + "\n    - pollingChange: -10 to +10."
    + "\n    - fundChange: Donations gained or fines lost."
    + "\n    - energyChange: -5 to -20."
    + "\n    - scandalChange: -5 (good PR) to +20 (scandal)."
    + "\n    \n    "

  /** The pieces of `evaluateChoice`'s template literal, in order. */
  function EvaluationPieces(stateName: string, scenario: string, choice: string, strategy: Strategy,
                            tactic: TacticType, currentScandal: int, lang: Language): seq<string> {
    ["\n    The candidate is in ", stateName,
     ".\n    Scenario: \"", scenario,
     "\"\n    Candidate Choice: \"", choice,
     "\" (Strategy: ", StrategyName(strategy),
     ")\n    Tactic Used: \"", TacticName(tactic),
     "\" (Spin Doctor, Bribe, Smear, or None)\n    Current Scandal Level: ", IntToString(currentScandal),
     "/100", EvaluationRules, LanguageLine(lang), PromptTail]
  }

  /**
   * The prompt of `evaluateChoice`. The player's funds are passed to `evaluateChoice`
   * but the template never interpolates them, so they are not a parameter here.
   */
  function EvaluationPrompt(stateName: string, scenario: string, choice: string, strategy: Strategy,
                            tactic: TacticType, currentScandal: int, lang: Language): (prompt: string)
    ensures Contains(prompt, stateName) && Contains(prompt, scenario) && Contains(prompt, choice)
    ensures Contains(prompt, StrategyName(strategy)) && Contains(prompt, TacticName(tactic))
    ensures Contains(prompt, IntToString(currentScandal))
    ensures Contains(prompt, LanguageLine(lang))
  {
    var pieces := EvaluationPieces(stateName, scenario, choice, strategy, tactic, currentScandal, lang);
    ConcatContainsPiece(pieces, 1);
    ConcatContainsPiece(pieces, 3);
    ConcatContainsPiece(pieces, 5);
    ConcatContainsPiece(pieces, 7);
    ConcatContainsPiece(pieces, 9);
    ConcatContainsPiece(pieces, 11);
    ConcatContainsPiece(pieces, 14);
    Concat(pieces)
  }

  function Leaf(typeTag: string): Schema {
    Schema(typeTag, [], None, None, None)
  }

  const StrategyValues := ["populist", "intellectual", "aggressive", "diplomatic", "corrupt"]

  /** The schema `generateStateScenario` asks for. */
  const ScenarioSchema := Schema("OBJECT",
    [("title", Leaf("STRING")),
     ("description", Leaf("STRING")),
     ("options", Schema("ARRAY", [],
        Some(Schema("OBJECT",
          [("text", Leaf("STRING")),
           ("strategy", Schema("STRING", [], None, Some(StrategyValues), None))],
          None, None, Some(["text", "strategy"]))),
        None, None))],
    None, None, Some(["title", "description", "options"]))

  /** The schema `evaluateChoice` asks for. */
  const EvaluationSchema := Schema("OBJECT",
    [("outcomeDescription", Leaf("STRING")),
     ("pollingChange", Leaf("NUMBER")),
     ("fundChange", Leaf("NUMBER")),
     ("energyChange", Leaf("NUMBER")),
     ("scandalChange", Leaf("NUMBER"))],
    None, None, Some(["outcomeDescription", "pollingChange", "fundChange", "energyChange", "scandalChange"]))

  /** The names of a schema's properties, in order. */
  function PropertyNames(props: seq<(string, Schema)>): (names: seq<string>)
    ensures |names| == |props|
    ensures forall i :: 0 <= i < |props| ==> names[i] == props[i].0
  {
    seq(|props|, i requires 0 <= i < |props| => props[i].0)
  }

  /**
   * The scenario schema requires every property it declares, in order; `options` is an
   * array of objects that require their text and strategy, and the strategy is one of
   * the five strategy names.
   */
  lemma ScenarioSchemaShape()
    ensures ScenarioSchema.typeTag == "OBJECT" && ScenarioSchema.required == Some(PropertyNames(ScenarioSchema.properties))
    ensures PropertyNames(ScenarioSchema.properties) == ["title", "description", "options"]
    ensures var options := ScenarioSchema.properties[2].1;
      && options.typeTag == "ARRAY" && options.items.Some?
      && options.items.value.required == Some(PropertyNames(options.items.value.properties))
      && PropertyNames(options.items.value.properties) == ["text", "strategy"]
      && options.items.value.properties[1].1.enumValues == Some(StrategyValues)
    ensures forall s: Strategy :: StrategyName(s) in StrategyValues
  {
    var options := ScenarioSchema.properties[2].1;
    assert PropertyNames(options.items.value.properties) == ["text", "strategy"];
    assert PropertyNames(ScenarioSchema.properties) == ["title", "description", "options"];
  }

  /** The evaluation schema requires all five properties: the narrative as text and the four deltas as numbers. */
  lemma EvaluationSchemaShape()
    ensures EvaluationSchema.typeTag == "OBJECT" && EvaluationSchema.required == Some(PropertyNames(EvaluationSchema.properties))
    ensures PropertyNames(EvaluationSchema.properties)
      == ["outcomeDescription", "pollingChange", "fundChange", "energyChange", "scandalChange"]
    ensures EvaluationSchema.properties[0].1.typeTag == "STRING"
    ensures forall i :: 1 <= i < |EvaluationSchema.properties| ==> EvaluationSchema.properties[i].1.typeTag == "NUMBER"
  {
    assert PropertyNames(EvaluationSchema.properties)
      == ["outcomeDescription", "pollingChange", "fundChange", "energyChange", "scandalChange"];
  }

  // ---------------------------------------------------------------------------
  // Routing

  /**
   * `callAI`'s choice of adapter: Google uses the SDK; Claude uses the messages API
   * unless its base URL names openrouter; every other kind uses chat completions.
   */
  function Route(config: AIConfig): (p: Protocol)
    ensures p == Native <==> config.provider == Google
    ensures p == Messages <==> config.provider == Claude && (config.baseUrl.None? || !Contains(config.baseUrl.value, "openrouter"))
    ensures p == ChatCompletions <==>
      config.provider != Google && (config.provider != Claude || (config.baseUrl.Some? && Contains(config.baseUrl.value, "openrouter")))
  {
    if config.provider == Google then Native
    else if config.provider == Claude && !(config.baseUrl.Some? && Contains(config.baseUrl.value, "openrouter")) then Messages
    else ChatCompletions
  }

  /** Routing reads only the provider kind and the base URL. */
  lemma RouteIgnoresCredentials(c: AIConfig, d: AIConfig)
    requires c.provider == d.provider && c.baseUrl == d.baseUrl
    ensures Route(c) == Route(d)
  {
  }

  // ---------------------------------------------------------------------------
  // URLs and headers

  /** `baseUrl ? baseUrl.replace(/\/+$/, '') : default` on the chat path; "" is falsy. */
  function ChatBase(baseUrl: Option<string>): (base: string)
    ensures !EndsWith(base, "/")
    ensures (baseUrl.None? || baseUrl.value == "") ==> base == DefaultOpenAIBase
    ensures baseUrl.Some? && baseUrl.value != "" ==>
      StartsWith(baseUrl.value, base) && forall i :: |base| <= i < |baseUrl.value| ==> baseUrl.value[i] == '/'
  {
    if baseUrl.Some? && baseUrl.value != "" then TrimTrailing(baseUrl.value, '/') else DefaultOpenAIBase
  }

  function ChatUrl(baseUrl: Option<string>): (url: string)
    ensures EndsWith(url, ChatPath)
    ensures url[..|url| - |ChatPath|] == ChatBase(baseUrl) && !EndsWith(url[..|url| - |ChatPath|], "/")
  {
    var url := ChatBase(baseUrl) + ChatPath;
    assert url[|url| - |ChatPath|..] == ChatPath;
    url
  }

  /** A trailing slash in the configured base URL makes no difference to the chat URL. */
  lemma ChatUrlIgnoresTrailingSlash(base: string)
    requires base != ""
    ensures ChatUrl(Some(base + "/")) == ChatUrl(Some(base))
  {
    var s := base + "/";
    assert s[|s| - 1] == '/' && s[..|s| - 1] == base;
    assert TrimTrailing(s, '/') == TrimTrailing(base, '/');
    assert ChatBase(Some(s)) == ChatBase(Some(base));
  }

  /** `baseUrl || 'https://api.anthropic.com/v1'`, the base `callAI` hands to the messages adapter. */
  function ClaudeBase(baseUrl: Option<string>): (base: string)
    ensures base != ""
    ensures baseUrl.Some? && baseUrl.value != "" ==> base == baseUrl.value
    ensures baseUrl.None? || baseUrl.value == "" ==> base == DefaultAnthropicBase
  {
    if baseUrl.Some? && baseUrl.value != "" then baseUrl.value else DefaultAnthropicBase
  }

  /** `${base.replace(/\/+$/, '')}/messages`: only the trailing slashes of the base are dropped. */
  function MessagesUrl(base: string): (url: string)
    ensures EndsWith(url, MessagesPath)
    ensures StartsWith(base, url[..|url| - |MessagesPath|]) && !EndsWith(url[..|url| - |MessagesPath|], "/")
    ensures forall i :: |url| - |MessagesPath| <= i < |base| ==> base[i] == '/'
  {
    var url := TrimTrailing(base, '/') + MessagesPath;
    assert url[|url| - |MessagesPath|..] == MessagesPath;
    assert url[..|url| - |MessagesPath|] == TrimTrailing(base, '/');
    url
  }

  /** A trailing slash on the messages base makes no difference to the messages URL. */
  lemma MessagesUrlIgnoresTrailingSlash(base: string)
    ensures MessagesUrl(base + "/") == MessagesUrl(base)
  {
    var s := base + "/";
    assert s[|s| - 1] == '/' && s[..|s| - 1] == base;
    assert TrimTrailing(s, '/') == TrimTrailing(base, '/');
  }

  /** Without a configured base URL the messages adapter posts to Anthropic's own endpoint. */
  lemma DefaultMessagesUrl(baseUrl: Option<string>)
    requires baseUrl.None? || baseUrl.value == ""
    ensures MessagesUrl(ClaudeBase(baseUrl)) == "https://api.anthropic.com/v1/messages"
  {
    var d := DefaultAnthropicBase;
    assert d[|d| - 1] == '1';
    assert TrimTrailing(d, '/') == d;
  }

  function Referer(origin: Option<string>): string {
    origin.GetOr(LocalOrigin)
  }

  /**
   * The chat path's headers: JSON content type and a bearer credential always, and the
   * openrouter pair exactly when the URL names openrouter.
   */
  predicate ChatHeadersFor(headers: map<string, string>, apiKey: string, url: string, origin: Option<string>) {
    && headers.Keys == {"Content-Type", "Authorization"} + (if Contains(url, "openrouter") then {"HTTP-Referer", "X-Title"} else {})
    && headers["Content-Type"] == JsonMime
    && headers["Authorization"] == "Bearer " + apiKey
    && (Contains(url, "openrouter") ==> headers["HTTP-Referer"] == Referer(origin) && headers["X-Title"] == AppTitle)
  }

  method ChatHeaders(apiKey: string, url: string, origin: Option<string>) returns (headers: map<string, string>)
    ensures ChatHeadersFor(headers, apiKey, url, origin)
    ensures "HTTP-Referer" in headers <==> Contains(url, "openrouter")
    ensures "X-Title" in headers <==> Contains(url, "openrouter")
    ensures StartsWith(headers["Authorization"], "Bearer ") && headers["Authorization"][|"Bearer "|..] == apiKey
  {
    headers := map["Content-Type" := JsonMime, "Authorization" := "Bearer " + apiKey];
    if Contains(url, "openrouter") {
      headers := headers["HTTP-Referer" := Referer(origin)];
      headers := headers["X-Title" := AppTitle];
    }
  }

  /** The messages path's headers: the credential in its own header, and the API version. */
  function ClaudeHeaders(apiKey: string): (headers: map<string, string>)
    ensures headers.Keys == {"x-api-key", "anthropic-version", "content-type", "dangerously-allow-browser"}
    ensures headers["x-api-key"] == apiKey && headers["anthropic-version"] == AnthropicVersion
    ensures "Authorization" !in headers
  {
    map["x-api-key" := apiKey, "anthropic-version" := AnthropicVersion,
        "content-type" := JsonMime, "dangerously-allow-browser" := "true"]
  }

  // ---------------------------------------------------------------------------
  // The repair pass

  /** `.replace(/```json/g, '').replace(/```/g, '').trim()`, used by both HTTP adapters. */
  function StripFences(text: string): (r: string)
    ensures !Contains(r, Fence)
  {
    var u := ReplaceAll(ReplaceAll(text, FenceTag, ""), Fence, "");
    RemovingTicksLeavesNone(ReplaceAll(text, FenceTag, ""));
    TrimKeepsAbsence(u, Fence);
    Trim(u)
  }

  /** Text without fences and without surrounding whitespace comes out of the strip unchanged. */
  lemma StripFencesKeepsClean(text: string)
    requires !Contains(text, Fence) && Trim(text) == text
    ensures StripFences(text) == text
  {
    assert !Contains(text, FenceTag) by {
      if Contains(text, FenceTag) {
        ContainsExtension(text, Fence, FenceTag);
      }
    }
    ReplaceAllAbsent(text, FenceTag, "");
    ReplaceAllAbsent(text, Fence, "");
    assert ReplaceAll(ReplaceAll(text, FenceTag, ""), Fence, "") == text;
  }

  lemma StripFencesIdempotent(text: string)
    ensures StripFences(StripFences(text)) == StripFences(text)
  {
    var r := StripFences(text);
    TrimIdempotent(ReplaceAll(ReplaceAll(text, FenceTag, ""), Fence, ""));
    StripFencesKeepsClean(r);
  }

  /** A reply fenced as a json code block strips to what the bare reply strips to. */
  lemma StripFencesUnwrapsBlock(x: string)
    ensures StripFences(FenceTag + "\n" + x + "\n" + Fence) == StripFences(x)
  {
    var y := ReplaceAll(x, FenceTag, "");
    var z := ReplaceAll(y, Fence, "");
    TagPassUnwraps(x);
    FencePassUnwraps(y);
    TrimIgnoresPadding(z, '\n', '\n');
  }

  /** The first pass removes the opening tag; the newline before the closing fence keeps it whole. */
  lemma TagPassUnwraps(x: string)
    ensures ReplaceAll(FenceTag + "\n" + x + "\n" + Fence, FenceTag, "") == "\n" + ReplaceAll(x, FenceTag, "") + ("\n" + Fence)
  {
    var f := FenceTag + "\n" + x + "\n" + Fence;
    var rest := "\n" + x + "\n" + Fence;
    assert f == FenceTag + rest;
    assert f[..|FenceTag|] == FenceTag && f[|FenceTag|..] == rest;
    assert rest == ("\n" + x) + ("\n" + Fence);
    ReplaceAllSplit("\n" + x, "\n" + Fence, FenceTag, "");
    ReplaceAllForeignHead('\n', x, FenceTag, "");
    assert ReplaceAll("\n" + Fence, FenceTag, "") == "\n" + Fence;
  }

  /** The second pass removes the closing fence and keeps the newlines around the body. */
  lemma FencePassUnwraps(y: string)
    ensures ReplaceAll("\n" + y + ("\n" + Fence), Fence, "") == ['\n'] + ReplaceAll(y, Fence, "") + ['\n']
  {
    assert "\n" + y + ("\n" + Fence) == ['\n'] + (y + ("\n" + Fence));
    ReplaceAllForeignHead('\n', y + ("\n" + Fence), Fence, "");
    ReplaceAllSplit(y, "\n" + Fence, Fence, "");
    ReplaceAllForeignHead('\n', Fence, Fence, "");
    assert Fence[..|Fence|] == Fence && Fence[|Fence|..] == "";
    assert ReplaceAll(Fence, Fence, "") == "";
  }

  /** The chat path's brace scan: from the first `{` to the last `}` when both occur. */
  function BraceScan(text: string): (r: string)
    ensures Contains(text, r)
  {
    var jsonStart := IndexOf(text, '{');
    var jsonEnd := LastIndexOf(text, '}');
    if jsonStart != -1 && jsonEnd != -1 then Substring(text, jsonStart, jsonEnd + 1)
    else
      SliceOccurs(text, 0, |text|);
      assert text[0..|text|] == text;
      text
  }

  /** `substring` from a `{` to just past a later `}` is the slice between them, braces included. */
  lemma BracedSlice(text: string, i: int, j: int)
    requires 0 <= i <= j < |text| && text[i] == '{' && text[j] == '}'
    ensures Substring(text, i, j + 1) == text[i..j + 1]
    ensures StartsWith(text[i..j + 1], "{") && EndsWith(text[i..j + 1], "}")
  {
    SubstringInOrder(text, i, j + 1);
    var r := text[i..j + 1];
    assert r[0] == text[i] && r[|r| - 1] == text[j];
    assert r[..1] == "{" && r[|r| - 1..] == "}";
  }

  /** With both braces present the scan is `substring` from the first `{` to just past the last `}`. */
  lemma BraceScanPaired(text: string)
    requires '{' in text && '}' in text
    ensures BraceScan(text) == Substring(text, IndexOf(text, '{'), LastIndexOf(text, '}') + 1)
  {
  }

  /** With `{` before the last `}`, the scan keeps exactly the span between them. */
  lemma BraceScanExtracts(text: string)
    requires '{' in text && '}' in text && IndexOf(text, '{') <= LastIndexOf(text, '}')
    ensures BraceScan(text) == text[IndexOf(text, '{')..LastIndexOf(text, '}') + 1]
  {
    var i, j := IndexOf(text, '{'), LastIndexOf(text, '}');
    BraceScanPaired(text);
    BracedSlice(text, i, j);
  }

  /** In that case the scanned text starts with `{` and ends with `}`. */
  lemma BraceScanBraced(text: string)
    requires '{' in text && '}' in text && IndexOf(text, '{') <= LastIndexOf(text, '}')
    ensures StartsWith(BraceScan(text), "{") && EndsWith(BraceScan(text), "}")
  {
    var i, j := IndexOf(text, '{'), LastIndexOf(text, '}');
    var r := BraceScan(text);
    BraceScanExtracts(text);
    BracedSlice(text, i, j);
    assert r == text[i..j + 1];
  }

  /**
   * With the last `}` before the first `{`, `substring` swaps its bounds: the scan keeps
   * the text strictly between them, which holds no brace at all.
   */
  lemma BraceScanSwapped(text: string)
    requires '{' in text && '}' in text && LastIndexOf(text, '}') < IndexOf(text, '{')
    ensures BraceScan(text) == text[LastIndexOf(text, '}') + 1..IndexOf(text, '{')]
    ensures '{' !in BraceScan(text) && '}' !in BraceScan(text)
  {
    var i, j := IndexOf(text, '{'), LastIndexOf(text, '}');
    var r := BraceScan(text);
    BraceScanPaired(text);
    if j + 1 < i {
      SubstringSwapped(text, i, j + 1);
    } else {
      SubstringInOrder(text, i, j + 1);
    }
    assert r == text[j + 1..i];
    BetweenBraces(text, j, i);
  }

  /** Between the last `}` and a later first `{` there is no brace. */
  lemma BetweenBraces(text: string, j: int, i: int)
    requires 0 <= j < i < |text|
    requires forall m :: 0 <= m < i ==> text[m] != '{'
    requires forall m :: j < m < |text| ==> text[m] != '}'
    ensures '{' !in text[j + 1..i] && '}' !in text[j + 1..i]
  {
    var mid := text[j + 1..i];
    forall m | 0 <= m < |mid| ensures mid[m] != '{' && mid[m] != '}' {
      assert mid[m] == text[j + 1 + m];
    }
  }

  lemma BraceScanWithoutPair(text: string)
    requires '{' !in text || '}' !in text
    ensures BraceScan(text) == text
  {
  }

  /** Text that already is one braced span is left alone. */
  lemma BraceScanKeepsObject(text: string)
    requires StartsWith(text, "{") && EndsWith(text, "}")
    ensures BraceScan(text) == text
  {
    assert text[0] == '{' && text[|text| - 1] == '}';
    IndexOfIs(text, '{', 0);
    LastIndexOfIs(text, '}', |text| - 1);
    SubstringInOrder(text, 0, |text|);
    assert text[0..|text|] == text;
  }

  /** In prose + object + prose, the first `{` and the last `}` are the object's own. */
  lemma ProseBraceIndices(before: string, json: string, after: string)
    requires '{' !in before && '}' !in after
    requires StartsWith(json, "{") && EndsWith(json, "}")
    ensures IndexOf(before + json + after, '{') == |before|
    ensures LastIndexOf(before + json + after, '}') == |before| + |json| - 1
  {
    var t := before + json + after;
    var last := |before| + |json| - 1;
    assert json[0] == '{' && json[|json| - 1] == '}';
    assert t[|before|] == '{' && t[last] == '}';
    forall m | 0 <= m < |before| ensures t[m] != '{' {
      assert t[m] == before[m];
    }
    forall m | last < m < |t| ensures t[m] != '}' {
      assert t[m] == after[m - last - 1];
    }
    IndexOfIs(t, '{', |before|);
    LastIndexOfIs(t, '}', last);
  }

  /** Prose before the first `{` and after the last `}` is cut away. */
  lemma BraceScanDropsProse(before: string, json: string, after: string)
    requires '{' !in before && '}' !in after
    requires StartsWith(json, "{") && EndsWith(json, "}")
    ensures BraceScan(before + json + after) == json
  {
    var t := before + json + after;
    ProseBraceIndices(before, json, after);
    SubstringInOrder(t, |before|, |before| + |json|);
    assert t[|before|..|before| + |json|] == json;
  }

  lemma BraceScanIdempotent(text: string)
    ensures BraceScan(BraceScan(text)) == BraceScan(text)
  {
    if '{' in text && '}' in text {
      if IndexOf(text, '{') <= LastIndexOf(text, '}') {
        BraceScanBraced(text);
        BraceScanKeepsObject(BraceScan(text));
      } else {
        BraceScanSwapped(text);
      }
    }
  }

  /** The whole chat-path repair: strip fences, then scan for braces. Its result has no fence. */
  function RepairChatText(text: string): (r: string)
    ensures !Contains(r, Fence)
  {
    var stripped := StripFences(text);
    var r := BraceScan(stripped);
    assert !Contains(r, Fence) by {
      if Contains(r, Fence) {
        ContainsTransitive(stripped, r, Fence);
      }
    }
    r
  }

  // ---------------------------------------------------------------------------
  // Error classification

  /**
   * The test both HTTP adapters apply to decide that a call failed at the network level:
   * every TypeError counts, and a parse failure counts only with fetch's own message.
   */
  function IsNetworkFailure(e: JsError): (failed: bool)
    ensures e.name == "TypeError" ==> failed
    ensures e.name == "SyntaxError" ==> (failed <==> e.message == "Failed to fetch")
    ensures failed ==> e.name == "TypeError" || e.message == "Failed to fetch"
    ensures e.message == "Failed to fetch" ==> failed
  {
    e.message == "Failed to fetch" || e.name == "TypeError"
  }

  /** The remediation hint of the chat path, checked in order: hosted APIs, then localhost. */
  function NetworkHint(url: string): (hint: string)
    ensures hint != ""
    ensures hint == CorsHint <==>
      Contains(url, "deepseek") || Contains(url, "openai") || Contains(url, "anthropic") || Contains(url, "x.ai")
    ensures hint == OllamaHint <==>
      !(Contains(url, "deepseek") || Contains(url, "openai") || Contains(url, "anthropic") || Contains(url, "x.ai"))
      && Contains(url, "localhost")
    ensures hint == ConnectionHint <==>
      !(Contains(url, "deepseek") || Contains(url, "openai") || Contains(url, "anthropic") || Contains(url, "x.ai"))
      && !Contains(url, "localhost")
  {
    if Contains(url, "deepseek") || Contains(url, "openai") || Contains(url, "anthropic") || Contains(url, "x.ai") then CorsHint
    else if Contains(url, "localhost") then OllamaHint
    else ConnectionHint
  }

  /** The chat path's catch block: a network failure is replaced by a hinted error, anything else rethrown. */
  function ClassifyChatError(e: JsError, url: string, base: string): (r: JsError)
    ensures IsNetworkFailure(e) ==> r.name == "Error" && StartsWith(r.message, "Network Error: Failed to connect to ")
    ensures IsNetworkFailure(e) ==> r.message == "Network Error: Failed to connect to " + base + ". " + NetworkHint(url)
    ensures !IsNetworkFailure(e) ==> r == e
  {
    if IsNetworkFailure(e) then JsError("Error", "Network Error: Failed to connect to " + base + ". " + NetworkHint(url))
    else e
  }

  /** The chat path's default URL names openai, so a network failure there carries the CORS hint. */
  lemma DefaultChatUrlHintsCors(baseUrl: Option<string>)
    requires baseUrl.None? || baseUrl.value == ""
    ensures NetworkHint(ChatUrl(baseUrl)) == CorsHint
  {
    var url := ChatUrl(baseUrl);
    assert url == DefaultOpenAIBase + ChatPath;
    assert OccursAt(url, "openai", 12) by {
      assert url[12..18] == "openai";
    }
    ContainsIffOccurs(url, "openai");
  }

  /**
   * A network-level failure on the chat path reaches the caller as one error naming the
   * base it tried and ending in a non-empty remediation hint chosen from the URL.
   */
  lemma ChatNetworkFailureHinted<J>(c: Call<J>, apiKey: string, baseUrl: Option<string>, model: string, prompt: string,
                                    backend: Backend<J>)
    requires ChatContract(c, apiKey, baseUrl, model, prompt, backend)
    requires backend.http.Threw? && IsNetworkFailure(backend.http.error)
    ensures c.result.Err? && c.parsedText.None? && c.result.error.name == "Error"
    ensures c.result.error.message
      == "Network Error: Failed to connect to " + ChatBase(baseUrl) + ". " + NetworkHint(ChatUrl(baseUrl))
    ensures EndsWith(c.result.error.message, NetworkHint(ChatUrl(baseUrl))) && NetworkHint(ChatUrl(baseUrl)) != ""
  {
    var m := c.result.error.message;
    var hint := NetworkHint(ChatUrl(baseUrl));
    assert m == ("Network Error: Failed to connect to " + ChatBase(baseUrl) + ". ") + hint;
    assert m[|m| - |hint|..] == hint;
  }

  /**
   * A successful chat reply whose JSON body is `null`: reading `data.choices` raises a
   * TypeError, and `ChatContract` hands such an error to the catch block, which turns it
   * into the network error with the URL's hint, never "No content in response".
   */
  lemma NullChatBodyIsNetworkError(baseUrl: Option<string>, message: string)
    ensures var e := ClassifyChatError(JsError("TypeError", message), ChatUrl(baseUrl), ChatBase(baseUrl));
      && e == JsError("Error", "Network Error: Failed to connect to " + ChatBase(baseUrl) + ". " + NetworkHint(ChatUrl(baseUrl)))
      && e != JsError("Error", NoContentMessage)
  {
    var e := ClassifyChatError(JsError("TypeError", message), ChatUrl(baseUrl), ChatBase(baseUrl));
    assert e.message[1] != NoContentMessage[1];
  }

  /** The messages path's catch block. */
  function ClassifyClaudeError(e: JsError): (r: JsError)
    ensures IsNetworkFailure(e) ==> r == JsError("Error", ClaudeCorsMessage)
    ensures !IsNetworkFailure(e) ==> r == e
  {
    if IsNetworkFailure(e) then JsError("Error", ClaudeCorsMessage) else e
  }

  /** A message that starts with a letter other than F is not "Failed to fetch". */
  lemma NotFailedToFetch(m: string)
    requires |m| > 0 && m[0] != 'F'
    ensures m != "Failed to fetch"
  {
  }

  /** A classified error is never classified again: the chat catch block is idempotent. */
  lemma ClassifyChatIdempotent(e: JsError, url: string, base: string)
    ensures ClassifyChatError(ClassifyChatError(e, url, base), url, base) == ClassifyChatError(e, url, base)
  {
    var r := ClassifyChatError(e, url, base);
    if IsNetworkFailure(e) {
      NotFailedToFetch(r.message);
    }
  }

  /** The chat path's HTTP error: it carries the body at its end and is no network failure. */
  function ApiError(status: nat, body: string): (e: JsError)
    ensures e.name == "Error" && StartsWith(e.message, "API Error ") && EndsWith(e.message, body)
    ensures !IsNetworkFailure(e)
  {
    var m := "API Error " + NatToString(status) + ": " + body;
    assert m == ("API Error " + NatToString(status) + ": ") + body;
    assert m[|m| - |body|..] == body;
    NotFailedToFetch(m);
    JsError("Error", m)
  }

  /** The messages path's HTTP error: it carries the body at its end and is no network failure. */
  function ClaudeApiError(status: nat, body: string): (e: JsError)
    ensures e.name == "Error" && StartsWith(e.message, "Claude API Error: ") && EndsWith(e.message, body)
    ensures !IsNetworkFailure(e)
  {
    var m := "Claude API Error: " + NatToString(status) + " " + body;
    assert m == ("Claude API Error: " + NatToString(status) + " ") + body;
    assert m[|m| - |body|..] == body;
    NotFailedToFetch(m);
    JsError("Error", m)
  }

  /** The errors the adapters raise themselves pass through the catch blocks untouched. */
  lemma OwnErrorsAreRethrown(status: nat, body: string, url: string, base: string)
    ensures ClassifyChatError(ApiError(status, body), url, base) == ApiError(status, body)
    ensures ClassifyChatError(JsError("Error", NoContentMessage), url, base) == JsError("Error", NoContentMessage)
    ensures ClassifyClaudeError(ClaudeApiError(status, body)) == ClaudeApiError(status, body)
  {
    NotFailedToFetch(ApiError(status, body).message);
    NotFailedToFetch(NoContentMessage);
    NotFailedToFetch(ClaudeApiError(status, body).message);
  }

  /** The status code can be read back from an HTTP error's message. */
  lemma ApiErrorCarriesStatus(status: nat, body: string)
    ensures var m := ApiError(status, body).message;
      var digits := NatToString(status);
      StartsWith(m, "API Error ") && m[|"API Error "|..|"API Error "| + |digits|] == digits
      && IsDigits(digits) && DigitsValue(digits) == status
      && m[|"API Error "| + |digits|..] == ": " + body
  {
    var m := ApiError(status, body).message;
    var digits := NatToString(status);
    assert m == "API Error " + digits + (": " + body);
    assert m[|"API Error "|..|"API Error "| + |digits|] == digits;
  }

  /** The messages path's HTTP error carries its status too, followed by a space and the body. */
  lemma ClaudeApiErrorCarriesStatus(status: nat, body: string)
    ensures var m := ClaudeApiError(status, body).message;
      var digits := NatToString(status);
      var prefix := "Claude API Error: ";
      StartsWith(m, prefix) && m[|prefix|..|prefix| + |digits|] == digits
      && IsDigits(digits) && DigitsValue(digits) == status
      && m[|prefix| + |digits|..] == " " + body
  {
    var m := ClaudeApiError(status, body).message;
    var digits := NatToString(status);
    var prefix := "Claude API Error: ";
    assert m == prefix + digits + (" " + body);
    assert m[|prefix|..|prefix| + |digits|] == digits;
  }

  // ---------------------------------------------------------------------------
  // The three adapters

  function MapTag(tag: string): (t: string)
    ensures t == "STRING" || t == "NUMBER" || t == "ARRAY"
    ensures t == tag <==> tag in {"STRING", "NUMBER", "ARRAY"}
    ensures t != "STRING" ==> t == tag
  {
    if tag == "ARRAY" then "ARRAY" else if tag == "NUMBER" then "NUMBER" else "STRING"
  }

  /** Each property keeps its name, position and other keys; only its type tag is mapped. */
  function MapProperties(props: seq<(string, Schema)>): (r: seq<(string, Schema)>)
    ensures |r| == |props|
    ensures forall i :: 0 <= i < |r| ==> r[i].0 == props[i].0 && r[i].1 == props[i].1.(typeTag := MapTag(props[i].1.typeTag))
  {
    seq(|props|, i requires 0 <= i < |props| => (props[i].0, props[i].1.(typeTag := MapTag(props[i].1.typeTag))))
  }

  /** The schema `callGoogle` hands to the SDK. */
  function GoogleSchema(schema: Schema): (g: Schema)
    ensures g.typeTag == "OBJECT" && g.items.None? && g.enumValues.None?
    ensures g.required == schema.required
    ensures g.properties == MapProperties(schema.properties)
    ensures |g.properties| == |schema.properties|
    ensures forall i :: 0 <= i < |g.properties| ==>
      g.properties[i].0 == schema.properties[i].0
      && g.properties[i].1.typeTag in {"STRING", "NUMBER", "ARRAY"}
  {
    Schema("OBJECT", MapProperties(schema.properties), None, None, schema.required)
  }

  lemma GoogleSchemaIdempotent(schema: Schema)
    ensures GoogleSchema(GoogleSchema(schema)) == GoogleSchema(schema)
  {
    var g := GoogleSchema(schema);
    assert MapProperties(g.properties) == g.properties;
  }

  /** The two schemas the service sends already use only the mapped tags: the SDK receives them as written. */
  lemma GoogleSchemaKeepsSourceSchemas()
    ensures GoogleSchema(ScenarioSchema) == ScenarioSchema
    ensures GoogleSchema(EvaluationSchema) == EvaluationSchema
  {
    assert MapProperties(ScenarioSchema.properties) == ScenarioSchema.properties;
    assert MapProperties(EvaluationSchema.properties) == EvaluationSchema.properties;
  }

  /**
   * What `JSON.parse` hands back to its caller: the parsed value, or the SyntaxError it throws.
   */
  function ParseOutcome<J>(parsed: Result<J, string>): (r: Result<J, JsError>)
    ensures r.Ok? <==> parsed.Ok?
    ensures r.Ok? ==> r.value == parsed.value
    ensures r.Err? ==> r.error == JsError("SyntaxError", parsed.error)
  {
    match parsed
    case Ok(j) => Ok(j)
    case Err(m) => Err(JsError("SyntaxError", m))
  }

  /** A value passes a catch block untouched; an error comes out as `handler` rethrows it. */
  function Caught<J>(r: Result<J, JsError>, handler: JsError -> JsError): (c: Result<J, JsError>)
    ensures c.Ok? <==> r.Ok?
    ensures c.Ok? ==> c.value == r.value
    ensures c.Err? ==> c.error == handler(r.error)
  {
    match r
    case Ok(j) => Ok(j)
    case Err(e) => Err(handler(e))
  }

  /** `callGoogle`: an empty model name falls back, an empty reply parses as "{}", errors are rethrown. */
  function CallGoogle<J>(apiKey: string, model: string, prompt: string, schema: Schema, backend: Backend<J>): (c: Call<J>)
    ensures c.sent == SdkRequest(apiKey, if model == "" then DefaultGoogleModel else model, prompt, JsonMime, GoogleSchema(schema))
    ensures c.sent.model != ""
    ensures backend.sdk.SdkThrew? ==> c.parsedText.None? && c.result == Err(backend.sdk.error)
    ensures backend.sdk.SdkReplied? ==>
      c.parsedText == Some(if backend.sdk.text.None? || backend.sdk.text.value == "" then "{}" else backend.sdk.text.value)
    ensures c.parsedText.Some? ==> c.result == ParseOutcome(backend.parse(c.parsedText.value))
    ensures c.result.Ok? ==> c.parsedText.Some? && backend.parse(c.parsedText.value) == Ok(c.result.value)
  {
    var sent := SdkRequest(apiKey, if model == "" then DefaultGoogleModel else model, prompt, JsonMime, GoogleSchema(schema));
    match backend.sdk
    case SdkThrew(e) => Call(sent, None, Err(e))
    case SdkReplied(text) =>
      var t := if text.None? || text.value == "" then "{}" else text.value;
      match backend.parse(t)
      case Ok(j) => Call(sent, Some(t), Ok(j))
      case Err(m) => Call(sent, Some(t), Err(JsError("SyntaxError", m)))
  }

  /**
   * `callClaude`: one user message, the prompt suffixed with the JSON-only reminder,
   * fences stripped but no brace scan. A successful reply without content raises a
   * TypeError, which the catch block reports as the CORS message.
   */
  function CallClaude<J>(apiKey: string, base: string, model: string, prompt: string, backend: Backend<J>): (c: Call<J>)
    ensures c.sent == HttpRequest(MessagesUrl(base), ClaudeHeaders(apiKey), model, prompt + StrictSuffix, None, MaxTokens)
    ensures backend.http.Threw? ==> c.parsedText.None? && c.result == Err(ClassifyClaudeError(backend.http.error))
    ensures backend.http.Replied? && !backend.http.ok ==>
      c.parsedText.None? && c.result == Err(ClaudeApiError(backend.http.status, backend.http.body))
    ensures backend.http.Replied? && backend.http.ok && backend.http.content.None? ==>
      c.parsedText.None? && c.result == Err(JsError("Error", ClaudeCorsMessage))
    ensures backend.http.Replied? && backend.http.ok && backend.http.content.Some? ==>
      c.parsedText == Some(StripFences(backend.http.content.value))
    ensures c.parsedText.Some? ==> c.result == Caught(ParseOutcome(backend.parse(c.parsedText.value)), ClassifyClaudeError)
    ensures c.result.Ok? ==> c.parsedText.Some? && backend.parse(c.parsedText.value) == Ok(c.result.value)
  {
    var sent := HttpRequest(MessagesUrl(base), ClaudeHeaders(apiKey), model, prompt + StrictSuffix, None, MaxTokens);
    match backend.http
    case Threw(e) => Call(sent, None, Err(ClassifyClaudeError(e)))
    case Replied(ok, status, body, content) =>
      if !ok then
        OwnErrorsAreRethrown(status, body, "", "");
        Call(sent, None, Err(ClassifyClaudeError(ClaudeApiError(status, body))))
      else if content.None? then
        Call(sent, None, Err(ClassifyClaudeError(JsError("TypeError", MissingContentMessage))))
      else
        var jsonStr := StripFences(content.value);
        match backend.parse(jsonStr)
        case Ok(j) => Call(sent, Some(jsonStr), Ok(j))
        case Err(m) => Call(sent, Some(jsonStr), Err(ClassifyClaudeError(JsError("SyntaxError", m))))
  }

  /** What `callOpenAICompatible` promises, stated once for the method and its callers. */
  ghost predicate ChatContract<J>(c: Call<J>, apiKey: string, baseUrl: Option<string>, model: string, prompt: string, backend: Backend<J>) {
    var url := ChatUrl(baseUrl);
    var base := ChatBase(baseUrl);
    && c.sent.HttpRequest?
    && c.sent.url == url && c.sent.model == model && c.sent.content == prompt
    && c.sent.temperature == Some(0.7) && c.sent.maxTokens == MaxTokens
    && ChatHeadersFor(c.sent.headers, apiKey, url, backend.origin)
    && (backend.http.Threw? ==> c.parsedText.None? && c.result == Err(ClassifyChatError(backend.http.error, url, base)))
    && (backend.http.Replied? && !backend.http.ok ==>
          c.parsedText.None? && c.result == Err(ApiError(backend.http.status, backend.http.body)))
    && (backend.http.Replied? && backend.http.ok && (backend.http.content.None? || backend.http.content.value == "") ==>
          c.parsedText.None? && c.result == Err(JsError("Error", NoContentMessage)))
    && (backend.http.Replied? && backend.http.ok && backend.http.content.Some? && backend.http.content.value != "" ==>
          c.parsedText == Some(RepairChatText(backend.http.content.value))
          && c.result == Caught(ParseOutcome(backend.parse(c.parsedText.value)), e => ClassifyChatError(e, url, base)))
    && (c.result.Ok? ==> c.parsedText.Some? && backend.parse(c.parsedText.value) == Ok(c.result.value))
  }

  /**
   * The chat path's clean-up of the reply text, reassigning `content` as it goes: drop the
   * fence markers, trim, then keep the span from the first `{` to the last `}`.
   * `RepairChatText` is the same repair as a function, which the lemmas above are about.
   */
  method CleanContent(text: string) returns (content: string)
    ensures content == RepairChatText(text)
    ensures !Contains(content, Fence)
  {
    content := text;
    content := ReplaceAll(content, FenceTag, "");
    content := ReplaceAll(content, Fence, "");
    content := Trim(content);
    var jsonStart := IndexOf(content, '{');
    var jsonEnd := LastIndexOf(content, '}');
    if jsonStart != -1 && jsonEnd != -1 {
      content := Substring(content, jsonStart, jsonEnd + 1);
    }
  }

  /**
   * `callOpenAICompatible`: build the URL and headers, send one user message, read the
   * first choice's content, clean it and parse it. Every exception raised on the way goes
   * through the catch block.
   */
  method CallOpenAICompatible<J>(apiKey: string, baseUrl: Option<string>, model: string, prompt: string, backend: Backend<J>)
    returns (c: Call<J>)
    ensures ChatContract(c, apiKey, baseUrl, model, prompt, backend)
    ensures c.sent.HttpRequest?
    ensures c.result.Ok? ==> c.parsedText.Some? && backend.parse(c.parsedText.value) == Ok(c.result.value)
    ensures c.parsedText.Some? ==> !Contains(c.parsedText.value, Fence)
  {
    var base := if baseUrl.Some? && baseUrl.value != "" then TrimTrailing(baseUrl.value, '/') else DefaultOpenAIBase;
    var url := base + ChatPath;
    var headers := ChatHeaders(apiKey, url, backend.origin);
    var sent := HttpRequest(url, headers, model, prompt, Some(0.7), MaxTokens);
    var catch := (e: JsError) => ClassifyChatError(e, url, base);
    match backend.http {
      case Threw(e) =>
        c := Call(sent, None, Err(catch(e)));
      case Replied(ok, status, body, data) =>
        OwnErrorsAreRethrown(status, body, url, base);
        if !ok {
          c := Call(sent, None, Err(catch(ApiError(status, body))));
        } else if data.None? || data.value == "" {
          c := Call(sent, None, Err(catch(JsError("Error", NoContentMessage))));
        } else {
          var content := CleanContent(data.value);
          c := Call(sent, Some(content), Caught(ParseOutcome(backend.parse(content)), catch));
        }
    }
  }

  /** What `callAI` promises for each route. */
  ghost predicate CallAIContract<J>(c: Call<J>, config: AIConfig, prompt: string, schema: Schema, backend: Backend<J>) {
    match Route(config)
    case Native => c == CallGoogle(config.apiKey, config.modelName, prompt, schema, backend)
    case Messages => c == CallClaude(config.apiKey, ClaudeBase(config.baseUrl), config.modelName, prompt, backend)
    case ChatCompletions => ChatContract(c, config.apiKey, config.baseUrl, config.modelName, prompt, backend)
  }

  /**
   * `callAI`: dispatch on the route. Whatever the route, a success is exactly what
   * `JSON.parse` returned for the text handed to it, and on the HTTP routes that text
   * holds no code fence.
   */
  method CallAI<J>(config: AIConfig, prompt: string, schema: Schema, backend: Backend<J>) returns (c: Call<J>)
    ensures CallAIContract(c, config, prompt, schema, backend)
    ensures c.result.Ok? ==> c.parsedText.Some? && backend.parse(c.parsedText.value) == Ok(c.result.value)
    ensures Route(config) != Native && c.parsedText.Some? ==> !Contains(c.parsedText.value, Fence)
    ensures (Route(config) == Native) == c.sent.SdkRequest?
  {
    if config.provider == Google {
      assert Route(config) == Native;
      c := CallGoogle(config.apiKey, config.modelName, prompt, schema, backend);
    } else if config.provider == Claude && !(config.baseUrl.Some? && Contains(config.baseUrl.value, "openrouter")) {
      assert Route(config) == Messages;
      c := CallClaude(config.apiKey, ClaudeBase(config.baseUrl), config.modelName, prompt, backend);
    } else {
      assert Route(config) == ChatCompletions;
      c := CallOpenAICompatible(config.apiKey, config.baseUrl, config.modelName, prompt, backend);
    }
  }

  /** `generateStateScenario`: the scenario prompt and schema, sent along the configured route. */
  method GenerateStateScenario<J>(config: AIConfig, stateName: string, stateDesc: string, lang: Language, backend: Backend<J>)
    returns (c: Call<J>)
    ensures CallAIContract(c, config, ScenarioPrompt(stateName, stateDesc, lang), ScenarioSchema, backend)
    ensures c.result.Ok? ==> c.parsedText.Some? && backend.parse(c.parsedText.value) == Ok(c.result.value)
  {
    c := CallAI(config, ScenarioPrompt(stateName, stateDesc, lang), ScenarioSchema, backend);
  }

  /** `evaluateChoice`: the evaluation prompt and schema; `currentFunds` reaches no request. */
  method EvaluateChoice<J>(config: AIConfig, stateName: string, scenario: string, choice: string, strategy: Strategy,
                           tactic: TacticType, currentFunds: int, currentScandal: int, lang: Language, backend: Backend<J>)
    returns (c: Call<J>)
    ensures CallAIContract(c, config, EvaluationPrompt(stateName, scenario, choice, strategy, tactic, currentScandal, lang),
                           EvaluationSchema, backend)
    ensures c.result.Ok? ==> c.parsedText.Some? && backend.parse(c.parsedText.value) == Ok(c.result.value)
  {
    c := CallAI(config, EvaluationPrompt(stateName, scenario, choice, strategy, tactic, currentScandal, lang),
                EvaluationSchema, backend);
  }
}
