/**
 * The game screen (App.tsx): the component's state, the win/loss effect, and the four
 * handlers that move a turn forward.
 *
 * Each handler runs as one atomic transition. The outcome of the AI call it awaits is an
 * input (what `GeminiService.GenerateStateScenario` or `GeminiService.EvaluateChoice`
 * returned), and the handler returns the arguments it passed to that call, if it made one.
 */
module App {
  import opened Wrappers
  import opened Types
  import opened JsStrings
  import opened GeminiService

  /** The arguments of one `generateStateScenario` call. */
  datatype ScenarioRequest = ScenarioRequest(config: AIConfig, stateName: string, stateDesc: string, lang: Language)

  /** The arguments of one `evaluateChoice` call. */
  datatype EvaluationRequest = EvaluationRequest(
    config: AIConfig, stateName: string, scenario: string, choice: string, strategy: Strategy,
    tactic: TacticType, currentFunds: int, currentScandal: int, lang: Language)

  const TravelCost := 10000
  const TravelEnergy := 5
  const InitialPolling := 45
  const DefaultAppModel := "gemini-2.5-flash"

  // ---------------------------------------------------------------------------
  // Initial values

  /** The configuration used when nothing is saved; `envKey` is `process.env.API_KEY || ''`. */
  function DefaultAppConfig(envKey: string): (c: AIConfig)
    ensures c.provider == Google && c.modelName == DefaultAppModel && c.baseUrl.None?
    ensures c.id == "default" && c.name == "Default" && c.apiKey == envKey
  {
    AIConfig("default", "Default", Google, envKey, None, DefaultAppModel)
  }

  /**
   * The first active configuration: the first entry of the saved list when there is one,
   * else the built-in default. `saved` is the parsed `ai_configs` entry, None when the
   * entry is missing or empty.
   */
  function InitialConfig(saved: Option<seq<AIConfig>>, envKey: string): (c: AIConfig)
    ensures saved.Some? && |saved.value| > 0 ==> c == saved.value[0]
    ensures saved.None? || |saved.value| == 0 ==> c == DefaultAppConfig(envKey)
  {
    if saved.Some? && |saved.value| > 0 then saved.value[0] else DefaultAppConfig(envKey)
  }

  /** Without saved configurations the game talks to the Google SDK. */
  lemma InitialConfigIsNative(saved: Option<seq<AIConfig>>, envKey: string)
    requires saved.None? || |saved.value| == 0
    ensures Route(InitialConfig(saved, envKey)) == Native
    ensures InitialConfig(saved, envKey).modelName == DefaultGoogleModel
  {
  }

  /** The record a new game starts from. */
  function InitialGameState(consts: GameConstants): (g: GameState)
    ensures g.funds == consts.initialFunds && g.energy == consts.initialEnergy && g.day == consts.maxDays
    ensures g.scandal == 0 && g.electoralVotes == 0 && g.nationalPolling == InitialPolling
    ensures g.states == consts.initialStates && g.history == []
    ensures !g.gameOver && g.victory.None?
  {
    GameState(consts.initialFunds, consts.initialEnergy, consts.maxDays, 0, 0, InitialPolling,
              consts.initialStates, [], false, None)
  }

  // ---------------------------------------------------------------------------
  // Winning and losing

  /** The verdict the win/loss effect reaches on a running game: a win takes precedence over a loss. */
  function Outcome(g: GameState, threshold: int): (o: Option<bool>)
    ensures o == Some(true) <==> g.electoralVotes >= threshold
    ensures o == Some(false) <==> g.electoralVotes < threshold && (g.day <= 0 || g.funds < 0 || g.energy <= 0)
  {
    if g.electoralVotes >= threshold then Some(true)
    else if g.day <= 0 || g.funds < 0 || g.energy <= 0 then Some(false)
    else None
  }

  /** The win/loss effect: it ends a started, running game when a verdict is reached, and touches nothing else. */
  function Judge(g: GameState, started: bool, threshold: int): (r: GameState)
    ensures r.(gameOver := g.gameOver, victory := g.victory) == g
    ensures r.gameOver == (g.gameOver || (started && Outcome(g, threshold).Some?))
    ensures r.victory == if started && !g.gameOver && Outcome(g, threshold).Some? then Outcome(g, threshold) else g.victory
  {
    if started && !g.gameOver then
      if g.electoralVotes >= threshold then g.(gameOver := true, victory := Some(true))
      else if g.day <= 0 || g.funds < 0 || g.energy <= 0 then g.(gameOver := true, victory := Some(false))
      else g
    else g
  }

  /** The effect settles in one run: running it again changes nothing. */
  lemma JudgeIdempotent(g: GameState, started: bool, threshold: int)
    ensures Judge(Judge(g, started, threshold), started, threshold) == Judge(g, started, threshold)
  {
  }

  /** A game that is over stays over with the same verdict. */
  lemma JudgeKeepsFinishedGame(g: GameState, started: bool, threshold: int)
    requires g.gameOver
    ensures Judge(g, started, threshold) == g
  {
  }

  /** A game is over exactly when a verdict is recorded. */
  predicate VerdictRecorded(g: GameState) {
    g.gameOver <==> g.victory.Some?
  }

  lemma JudgeKeepsVerdictRecorded(g: GameState, started: bool, threshold: int)
    requires VerdictRecorded(g)
    ensures VerdictRecorded(Judge(g, started, threshold))
  {
  }

  /** Enough electoral votes win even on the last day with empty coffers. */
  lemma VictoryTakesPrecedence(g: GameState, threshold: int)
    requires !g.gameOver && g.electoralVotes >= threshold
    ensures Judge(g, true, threshold).victory == Some(true)
  {
  }

  // ---------------------------------------------------------------------------
  // Resolving an option

  /** `Math.min(hi, Math.max(lo, x))`; the scandal clamp's other nesting gives the same value. */
  function Clamp(x: int, lo: int, hi: int): (r: int)
    requires lo <= hi
    ensures lo <= r <= hi
    ensures lo <= x <= hi ==> r == x
    ensures x < lo ==> r == lo
    ensures x > hi ==> r == hi
  {
    Min(hi, Max(lo, x))
  }

  /** The highest polling a region can be given at a scandal level. */
  function PollingCap(scandal: int): (cap: int)
    ensures scandal > 80 ==> cap == 45
    ensures 60 < scandal <= 80 ==> cap == 55
    ensures scandal <= 60 ==> cap == 100
  {
    if scandal > 80 then 45 else if scandal > 60 then 55 else 100
  }

  /** More scandal never raises the cap. */
  lemma PollingCapAntitone(s1: int, s2: int)
    requires s1 <= s2
    ensures PollingCap(s2) <= PollingCap(s1)
  {
  }

  /** The visited region: polling moved by `delta` within [0, cap], status visited, all else kept. */
  function Visit(s: StateData, cap: int, delta: int): (r: StateData)
    requires 0 <= cap
    ensures 0 <= r.polling <= cap && r.status == Visited
    ensures r.polling == Clamp(s.polling + delta, 0, cap)
    ensures r.(polling := s.polling, status := s.status) == s
  {
    s.(polling := Min(cap, Max(0, s.polling + delta)), status := Visited)
  }

  /** `prev.states.map(...)`: the regions with the selected id are visited, the others kept. */
  function VisitRegions(states: seq<StateData>, id: string, cap: int, delta: int): (r: seq<StateData>)
    requires 0 <= cap
    ensures |r| == |states|
    ensures forall i :: 0 <= i < |r| ==> r[i] == if states[i].id == id then Visit(states[i], cap, delta) else states[i]
  {
    seq(|states|, i requires 0 <= i < |states| => if states[i].id == id then Visit(states[i], cap, delta) else states[i])
  }

  /** What a region adds to the projection: its votes when its polling is strictly above 50. */
  function Contribution(s: StateData): int {
    if s.polling > 50 then s.electoralVotes else 0
  }

  /**
   * The `reduce` that projects electoral votes, folded from the left: nothing when no
   * region polls above 50, everything when every region does.
   */
  function ProjectedVotes(states: seq<StateData>): (votes: int)
    ensures (forall i :: 0 <= i < |states| ==> states[i].polling <= 50) ==> votes == 0
    ensures (forall i :: 0 <= i < |states| ==> states[i].polling > 50) ==> votes == TotalVotes(states)
    decreases |states|
  {
    if |states| == 0 then 0 else ProjectedVotes(states[..|states| - 1]) + Contribution(states[|states| - 1])
  }

  /** The sum of all regions' votes. */
  function TotalVotes(states: seq<StateData>): int
    decreases |states|
  {
    if |states| == 0 then 0 else TotalVotes(states[..|states| - 1]) + states[|states| - 1].electoralVotes
  }

  /** The projection of two lists of regions is the sum of their projections. */
  lemma {:induction false} ProjectedVotesAppend(a: seq<StateData>, b: seq<StateData>)
    ensures ProjectedVotes(a + b) == ProjectedVotes(a) + ProjectedVotes(b)
    decreases |b|
  {
    if |b| == 0 {
      assert a + b == a;
    } else {
      var b' := b[..|b| - 1];
      assert (a + b)[..|a + b| - 1] == a + b';
      ProjectedVotesAppend(a, b');
    }
  }

  /** Replacing one region changes the projection by the difference of the two contributions. */
  lemma ProjectedVotesUpdate(states: seq<StateData>, i: int, x: StateData)
    requires 0 <= i < |states|
    ensures ProjectedVotes(states[i := x]) == ProjectedVotes(states) - Contribution(states[i]) + Contribution(x)
  {
    var pre, post := states[..i], states[i + 1..];
    assert states == pre + [states[i]] + post;
    assert states[i := x] == pre + [x] + post;
    ProjectedVotesAppend(pre + [states[i]], post);
    ProjectedVotesAppend(pre, [states[i]]);
    ProjectedVotesAppend(pre + [x], post);
    ProjectedVotesAppend(pre, [x]);
    assert ProjectedVotes([states[i]]) == Contribution(states[i]) by {
      assert [states[i]][..0] == [];
    }
    assert ProjectedVotes([x]) == Contribution(x) by {
      assert [x][..0] == [];
    }
  }

  /** With no negative vote counts, the projection lies between zero and the total. */
  lemma {:induction false} ProjectedVotesBounds(states: seq<StateData>)
    requires forall i :: 0 <= i < |states| ==> states[i].electoralVotes >= 0
    ensures 0 <= ProjectedVotes(states) <= TotalVotes(states)
    decreases |states|
  {
    if |states| > 0 {
      ProjectedVotesBounds(states[..|states| - 1]);
    }
  }

  /** The projection reads only each region's votes and which side of 50 its polling is on. */
  lemma {:induction false} ProjectedVotesBySide(a: seq<StateData>, b: seq<StateData>)
    requires |a| == |b|
    requires forall i :: 0 <= i < |a| ==> a[i].electoralVotes == b[i].electoralVotes && (a[i].polling > 50 <==> b[i].polling > 50)
    ensures ProjectedVotes(a) == ProjectedVotes(b)
    decreases |a|
  {
    if |a| > 0 {
      ProjectedVotesBySide(a[..|a| - 1], b[..|b| - 1]);
    }
  }

  /**
   * The `setGameState` updater of `handleOptionSelect`: charge the tactic, apply the
   * evaluator's deltas (funds and energy unclamped, scandal clamped to [0, 100]), visit
   * the selected region under the scandal cap, and recount the projected votes.
   */
  function ApplyResult(prev: GameState, selectedId: string, tacticCost: int, result: ScenarioResult): (r: GameState)
    ensures r.funds == prev.funds - tacticCost + result.fundChange
    ensures r.energy == prev.energy + result.energyChange
    ensures r.scandal == Clamp(prev.scandal + result.scandalChange, 0, 100)
    ensures r.states == VisitRegions(prev.states, selectedId, PollingCap(r.scandal), result.pollingChange)
    ensures r.electoralVotes == ProjectedVotes(r.states)
    ensures r.(funds := prev.funds, energy := prev.energy, scandal := prev.scandal,
               states := prev.states, electoralVotes := prev.electoralVotes) == prev
  {
    var newFunds := prev.funds - tacticCost + result.fundChange;
    var newEnergy := prev.energy + result.energyChange;
    var newScandal := Max(0, Min(100, prev.scandal + result.scandalChange));
    var newStates := VisitRegions(prev.states, selectedId, PollingCap(newScandal), result.pollingChange);
    prev.(funds := newFunds, energy := newEnergy, scandal := newScandal, states := newStates,
          electoralVotes := ProjectedVotes(newStates))
  }

  /** Every region's polling lies in [0, 100] and the scandal level in [0, 100]. */
  predicate InRange(g: GameState) {
    && 0 <= g.scandal <= 100
    && forall i :: 0 <= i < |g.states| ==> 0 <= g.states[i].polling <= 100
  }

  /** Resolving an option keeps every region's polling in range and brings scandal into range. */
  lemma ApplyResultKeepsRange(prev: GameState, selectedId: string, tacticCost: int, result: ScenarioResult)
    requires forall i :: 0 <= i < |prev.states| ==> 0 <= prev.states[i].polling <= 100
    ensures InRange(ApplyResult(prev, selectedId, tacticCost, result))
  {
    var r := ApplyResult(prev, selectedId, tacticCost, result);
    forall i | 0 <= i < |r.states|
      ensures 0 <= r.states[i].polling <= 100
    {
      assert r.states[i] == if prev.states[i].id == selectedId then Visit(prev.states[i], PollingCap(r.scandal), result.pollingChange) else prev.states[i];
    }
  }

  /** Regions with another id come out exactly as they went in, in the same places. */
  lemma ApplyResultTouchesOnlySelected(prev: GameState, selectedId: string, tacticCost: int, result: ScenarioResult, i: int)
    requires 0 <= i < |prev.states| && prev.states[i].id != selectedId
    ensures ApplyResult(prev, selectedId, tacticCost, result).states[i] == prev.states[i]
  {
  }

  /** Above 80 scandal a visited region cannot be carried: it adds nothing to the projection. */
  lemma HighScandalCarriesNothing(prev: GameState, selectedId: string, tacticCost: int, result: ScenarioResult, i: int)
    requires 0 <= i < |prev.states| && prev.states[i].id == selectedId
    requires prev.scandal + result.scandalChange > 80
    ensures Contribution(ApplyResult(prev, selectedId, tacticCost, result).states[i]) == 0
  {
    var r := ApplyResult(prev, selectedId, tacticCost, result);
    assert r.scandal > 80;
    assert r.states[i] == Visit(prev.states[i], 45, result.pollingChange);
  }

  /**
   * When region ids are distinct, the recount differs from the old projection only by what
   * the visited region contributed before and after.
   */
  lemma ApplyResultVotesDelta(prev: GameState, selectedId: string, tacticCost: int, result: ScenarioResult, i: int)
    requires 0 <= i < |prev.states| && prev.states[i].id == selectedId
    requires forall j :: 0 <= j < |prev.states| && j != i ==> prev.states[j].id != selectedId
    ensures var r := ApplyResult(prev, selectedId, tacticCost, result);
      r.electoralVotes == ProjectedVotes(prev.states) - Contribution(prev.states[i]) + Contribution(r.states[i])
  {
    var r := ApplyResult(prev, selectedId, tacticCost, result);
    assert r.states == prev.states[i := r.states[i]];
    ProjectedVotesUpdate(prev.states, i, r.states[i]);
  }

  // ---------------------------------------------------------------------------
  // The component

  /** `gameState.states.find(s => s.id === id)`: the first region with that id, if any. */
  function FindRegion(states: seq<StateData>, id: string): (r: Option<StateData>)
    ensures r.None? <==> forall i :: 0 <= i < |states| ==> states[i].id != id
    ensures r.Some? ==> r.value.id == id && r.value in states
    ensures r.Some? ==> exists i :: 0 <= i < |states| && states[i] == r.value
                          && forall j :: 0 <= j < i ==> states[j].id != id
  {
    Find(states, (s: StateData) => s.id == id)
  }

  /** A region click reaches the AI only with a key, unless the backend is a local Ollama. */
  function MissingKey(config: AIConfig): (missing: bool)
    ensures missing ==> config.apiKey == ""
    ensures config.provider == Ollama ==> !missing
    ensures config.apiKey != "" ==> !missing
    ensures config.apiKey == "" && config.provider != Ollama ==> missing
  {
    config.apiKey == "" && config.provider != Ollama
  }

  /** The travel guard: the player can pay 10000 funds and 5 energy, and is left with no debt. */
  function CanTravel(g: GameState): (can: bool)
    ensures can ==> Travel(g).funds >= 0 && Travel(g).energy >= 0
    ensures g.funds < TravelCost ==> !can
    ensures g.energy < TravelEnergy ==> !can
    ensures g.funds >= TravelCost && g.energy >= TravelEnergy ==> can
  {
    g.funds >= TravelCost && g.energy >= TravelEnergy
  }

  function Travel(g: GameState): (r: GameState)
    ensures r.funds == g.funds - TravelCost && r.energy == g.energy - TravelEnergy
    ensures r.(funds := g.funds, energy := g.energy) == g
  {
    g.(funds := g.funds - TravelCost, energy := g.energy - TravelEnergy)
  }

  class AppComponent {
    const consts: GameConstants
    var lang: Language
    var showSettings: bool
    var aiConfig: AIConfig
    var gameState: GameState
    var activeScenario: Option<Scenario>
    var currentResult: Option<ScenarioResult>
    /** `selectedStateId`; `null` is None, and an empty id is as falsy as `null`. */
    var selectedStateId: Option<string>
    var loading: bool
    var gameStarted: bool

    /** The component's first render: English, settings closed, the initial game not yet started. */
    constructor (consts: GameConstants, saved: Option<seq<AIConfig>>, envKey: string)
      ensures this.consts == consts
      ensures lang == En && !showSettings && aiConfig == InitialConfig(saved, envKey)
      ensures gameState == InitialGameState(consts)
      ensures activeScenario.None? && currentResult.None? && selectedStateId.None?
      ensures !loading && !gameStarted
    {
      this.consts := consts;
      lang := En;
      showSettings := false;
      aiConfig := InitialConfig(saved, envKey);
      gameState := InitialGameState(consts);
      activeScenario := None;
      currentResult := None;
      selectedStateId := None;
      loading := false;
      gameStarted := false;
    }

    /** The win/loss effect, run after a change to the fields it depends on; `Judge` is its function form. */
    method CheckWinLoss()
      modifies this`gameState
      ensures gameState == Judge(old(gameState), gameStarted, consts.winningThreshold)
    {
      if gameStarted && !gameState.gameOver {
        if gameState.electoralVotes >= consts.winningThreshold {
          gameState := gameState.(gameOver := true, victory := Some(true));
        } else if gameState.day <= 0 || gameState.funds < 0 || gameState.energy <= 0 {
          gameState := gameState.(gameOver := true, victory := Some(false));
        }
      }
    }

    /**
     * `handleStateClick`: ignored while the game is over or a call is in flight; opens the
     * settings instead when a key is missing; refuses travel the player cannot pay for.
     * Otherwise the region is selected and a scenario requested; travel is charged only
     * when the scenario arrives, and a failure opens the settings.
     */
    method HandleStateClick(region: StateData, generated: Result<Scenario, JsError>) returns (request: Option<ScenarioRequest>)
      modifies this`showSettings, this`selectedStateId, this`activeScenario, this`gameState, this`loading
      ensures old(gameState.gameOver || loading) ==> request.None? && unchanged(this)
      ensures old(!gameState.gameOver && !loading && MissingKey(aiConfig)) ==>
        request.None? && showSettings && unchanged(this`selectedStateId, this`activeScenario, this`gameState, this`loading)
      ensures old(!gameState.gameOver && !loading && !MissingKey(aiConfig) && !CanTravel(gameState)) ==>
        request.None? && unchanged(this)
      ensures old(!gameState.gameOver && !loading && !MissingKey(aiConfig) && CanTravel(gameState)) ==>
        && request == Some(ScenarioRequest(aiConfig, region.name, region.description, lang))
        && selectedStateId == Some(region.id) && !loading
        && (generated.Ok? ==>
              activeScenario == Some(generated.value) && gameState == Travel(old(gameState))
              && showSettings == old(showSettings))
        && (generated.Err? ==>
              activeScenario == old(activeScenario) && gameState == old(gameState) && showSettings)
    {
      request := None;
      if gameState.gameOver || loading {
        return;
      }
      if aiConfig.apiKey == "" && aiConfig.provider != Ollama {
        showSettings := true;
        return;
      }
      if gameState.funds < TravelCost || gameState.energy < TravelEnergy {
        return;
      }
      loading := true;
      selectedStateId := Some(region.id);
      request := Some(ScenarioRequest(aiConfig, region.name, region.description, lang));
      match generated {
        case Ok(scenario) =>
          activeScenario := Some(scenario);
          gameState := gameState.(funds := gameState.funds - TravelCost, energy := gameState.energy - TravelEnergy);
        case Err(_) =>
          showSettings := true;
      }
      loading := false;
    }

    /**
     * `handleOptionSelect`: needs an open scenario and a selected region, and refuses a
     * tactic the player cannot afford. The evaluator sees the funds net of the tactic;
     * only a successful evaluation charges the tactic and applies its deltas.
     */
    method HandleOptionSelect(option: ScenarioOption, tactic: TacticType, tacticCost: int,
                              evaluated: Result<ScenarioResult, JsError>)
      returns (request: Option<EvaluationRequest>)
      modifies this`activeScenario, this`currentResult, this`gameState, this`loading
      ensures old(activeScenario.None? || selectedStateId.None? || selectedStateId.value == "" || gameState.funds < tacticCost) ==>
        request.None? && unchanged(this)
      ensures old(activeScenario.Some? && selectedStateId.Some? && selectedStateId.value != "" && gameState.funds >= tacticCost) ==>
        activeScenario.None? && !loading
        && Resolved(request, aiConfig, lang, old(gameState), old(currentResult), gameState, currentResult,
                    old(activeScenario.value.description), old(selectedStateId.value), option, tactic, tacticCost, evaluated)
    {
      request := None;
      if activeScenario.None? || selectedStateId.None? || selectedStateId.value == "" {
        return;
      }
      if gameState.funds < tacticCost {
        return;
      }
      loading := true;
      var description := activeScenario.value.description;
      activeScenario := None;
      request := Evaluate(description, selectedStateId.value, option, tactic, tacticCost, evaluated);
      loading := false;
    }

    /**
     * What the option's evaluation leaves behind: with no region under the selected id
     * nothing is asked and nothing changes; otherwise the evaluator is asked, and its
     * result, if any, is shown and applied by the updater.
     */
    static ghost predicate Resolved(request: Option<EvaluationRequest>, config: AIConfig, language: Language,
                                    prev: GameState, prevResult: Option<ScenarioResult>,
                                    next: GameState, nextResult: Option<ScenarioResult>,
                                    description: string, id: string, option: ScenarioOption, tactic: TacticType,
                                    tacticCost: int, evaluated: Result<ScenarioResult, JsError>)
    {
      var region := FindRegion(prev.states, id);
      && (region.None? ==> request.None? && nextResult == prevResult && next == prev)
      && (region.Some? ==>
            && request == Some(EvaluationRequest(config, region.value.name, description, option.text, option.strategy,
                                                 tactic, prev.funds - tacticCost, prev.scandal, language))
            && (evaluated.Ok? ==>
                  nextResult == Some(evaluated.value) && next == ApplyResult(prev, id, tacticCost, evaluated.value))
            && (evaluated.Err? ==> nextResult == prevResult && next == prev))
    }

    /** The `try` block of `handleOptionSelect`: look the region up, ask the evaluator, apply its result. */
    method Evaluate(description: string, id: string, option: ScenarioOption, tactic: TacticType, tacticCost: int,
                    evaluated: Result<ScenarioResult, JsError>)
      returns (request: Option<EvaluationRequest>)
      modifies this`currentResult, this`gameState
      ensures Resolved(request, aiConfig, lang, old(gameState), old(currentResult), gameState, currentResult,
                       description, id, option, tactic, tacticCost, evaluated)
    {
      request := None;
      var prev, prevResult := gameState, currentResult;
      var next, nextResult := prev, prevResult;
      var region := FindRegion(prev.states, id);
      if region.Some? {
        request := Some(EvaluationRequest(aiConfig, region.value.name, description, option.text, option.strategy,
                                          tactic, prev.funds - tacticCost, prev.scandal, lang));
        if evaluated.Ok? {
          nextResult := Some(evaluated.value);
          next := ApplyResult(prev, id, tacticCost, evaluated.value);
        }
      }
      assert Resolved(request, aiConfig, lang, prev, prevResult, next, nextResult,
                      description, id, option, tactic, tacticCost, evaluated);
      currentResult, gameState := nextResult, next;
    }

    /** `handleNextDay`: one day passes and the turn's result and selection are cleared. */
    method HandleNextDay()
      modifies this`currentResult, this`selectedStateId, this`gameState
      ensures currentResult.None? && selectedStateId.None?
      ensures gameState == old(gameState).(day := old(gameState.day) - 1)
    {
      currentResult := None;
      selectedStateId := None;
      gameState := gameState.(day := gameState.day - 1);
    }

    /** The settings dialog's save: `onConfigChange` installs the configuration, then `onClose` hides the dialog. */
    method ApplySettings(config: AIConfig)
      modifies this`aiConfig, this`showSettings
      ensures aiConfig == config && !showSettings
    {
      aiConfig := config;
      showSettings := false;
    }

    /** `restartGame`: a fresh game record, and the game marked as started. */
    method RestartGame()
      modifies this`gameState, this`gameStarted
      ensures gameState == InitialGameState(consts) && gameStarted
    {
      gameState := InitialGameState(consts);
      gameStarted := true;
    }
  }
}
