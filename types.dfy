/**
 * The domain records of the game (types.ts) and the values the game reads from its
 * constants module, which are parameters of the model.
 */
module Types {
  import opened Wrappers

  datatype Language = En | Zh

  /** The closed set of backend kinds a configuration may name. */
  datatype AIProvider = Google | OpenAI | DeepSeek | Claude | Ollama | Grok | OpenRouter

  /** One saved backend configuration; `baseUrl` is an optional override. */
  datatype AIConfig = AIConfig(
    id: string,
    name: string,
    provider: AIProvider,
    apiKey: string,
    baseUrl: Option<string>,
    modelName: string)

  datatype RegionType = Safe | Swing | Hostile

  datatype RegionStatus = Unvisited | Visited | Won | Lost

  /** One region of the map; `polling` is the player's support in percent. */
  datatype StateData = StateData(
    id: string,
    name: string,
    nameZh: string,
    abbr: string,
    electoralVotes: int,
    polling: int,
    locked: bool,
    regionType: RegionType,
    status: RegionStatus,
    description: string)

  /** The whole game record; `victory` is `null` (None) while the game runs. */
  datatype GameState = GameState(
    funds: int,
    energy: int,
    day: int,
    scandal: int,
    electoralVotes: int,
    nationalPolling: int,
    states: seq<StateData>,
    history: seq<string>,
    gameOver: bool,
    victory: Option<bool>)

  datatype Strategy = Populist | Intellectual | Aggressive | Diplomatic | Corrupt

  datatype ScenarioOption = ScenarioOption(text: string, strategy: Strategy)

  datatype Scenario = Scenario(title: string, description: string, options: seq<ScenarioOption>)

  /** The four signed deltas the evaluator returns, with its narrative. */
  datatype ScenarioResult = ScenarioResult(
    outcomeDescription: string,
    pollingChange: int,
    fundChange: int,
    energyChange: int,
    scandalChange: int)

  datatype TacticType = NoTactic | Spin | Smear | Bribe

  /** One row of the provider table: its kind, label and defaults. */
  datatype ProviderInfo = ProviderInfo(
    value: AIProvider,
    displayName: string,
    defaultUrl: Option<string>,
    defaultModel: string)

  /** INITIAL_FUNDS, INITIAL_ENERGY, MAX_DAYS, WINNING_THRESHOLD and INITIAL_STATES. */
  datatype GameConstants = GameConstants(
    initialFunds: int,
    initialEnergy: int,
    maxDays: int,
    winningThreshold: int,
    initialStates: seq<StateData>)

  /** The string each enum member has in the source, as interpolated into prompts. */
  function StrategyName(s: Strategy): string {
    match s
    case Populist => "populist"
    case Intellectual => "intellectual"
    case Aggressive => "aggressive"
    case Diplomatic => "diplomatic"
    case Corrupt => "corrupt"
  }

  function TacticName(t: TacticType): string {
    match t
    case NoTactic => "none"
    case Spin => "spin"
    case Smear => "smear"
    case Bribe => "bribe"
  }
}
