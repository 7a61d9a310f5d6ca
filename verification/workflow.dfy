/** The refinement loop of src/orchestration/workflow.py: a fixed graph of
    six nodes, each a function from the workflow state to a partial update,
    and a run that merges the updates into the state until the decide node
    stops it. The agents behind the nodes (persona generator, ideator,
    response simulation, SSR rating, critic) are oracles. */
module Workflow {
  import opened Py
  import opened Records
  import opened Exceptions
  import MarketPredictor

  /** One line of the run's history, written by each calculate_pmf pass. */
  datatype HistoryEntry = HistoryEntry(
    iteration: int,
    productName: string,
    pmfScore: real,
    nps: int,
    avgInterest: real)

  /** The workflow state. A field the Python initial state sets to None is
      an Option here. */
  datatype WorkflowState = WorkflowState(
    seedIdea: string,
    maxIterations: int,
    pmfThreshold: real,
    personasCount: int,
    iteration: int,
    currentConcept: Option<ProductConcept>,
    personas: seq<Persona>,
    personaResponses: seq<PersonaResponse>,
    marketFit: Option<MarketPredictor.MarketFitScore>,
    criticFeedback: Option<CriticFeedback>,
    history: seq<HistoryEntry>,
    shouldContinue: bool)

  /** The dict a node returns: the keys it sets, and the history entries it
      adds. */
  datatype Update = Update(
    personas: Option<seq<Persona>>,
    currentConcept: Option<ProductConcept>,
    iteration: Option<int>,
    personaResponses: Option<seq<PersonaResponse>>,
    marketFit: Option<MarketPredictor.MarketFitScore>,
    criticFeedback: Option<CriticFeedback>,
    history: seq<HistoryEntry>,
    shouldContinue: Option<bool>)

  const NoUpdate: Update := Update(None, None, None, None, None, None, [], None)

  function Replace<T>(old_: T, new_: Option<T>): T {
    if new_.Some? then new_.value else old_
  }

  /** How the graph applies an update: a key the node returns replaces the
      state's value, except `history`, whose reducer appends. */
  function Merge(s: WorkflowState, u: Update): (t: WorkflowState)
    ensures t.history == s.history + u.history
    ensures t.seedIdea == s.seedIdea && t.maxIterations == s.maxIterations
    ensures t.pmfThreshold == s.pmfThreshold && t.personasCount == s.personasCount
  {
    s.(personas := Replace(s.personas, u.personas),
       currentConcept := if u.currentConcept.Some? then u.currentConcept else s.currentConcept,
       iteration := Replace(s.iteration, u.iteration),
       personaResponses := Replace(s.personaResponses, u.personaResponses),
       marketFit := if u.marketFit.Some? then u.marketFit else s.marketFit,
       criticFeedback := if u.criticFeedback.Some? then u.criticFeedback else s.criticFeedback,
       history := s.history + u.history,
       shouldContinue := Replace(s.shouldContinue, u.shouldContinue))
  }

  /** The agents the nodes call. Each either answers or fails with the
      exception the agent would raise. The ideator's refinement and the
      critic are handed what the state holds, None included. */
  datatype Agents = Agents(
    generatePersonas: int -> Result<seq<Persona>, Error>,
    generateConcept: string -> Result<ProductConcept, Error>,
    refineConcept: (Option<ProductConcept>, string) -> Result<ProductConcept, Error>,
    respond: MarketPredictor.Respond,
    raters: MarketPredictor.Raters,
    critique: (Option<ProductConcept>, Option<MarketPredictor.MarketFitScore>, string, real) -> Result<CriticFeedback, Error>)

  /** The error Python raises on an attribute of None. */
  const NoneAttribute: Error := Error(Builtin("AttributeError"), "'NoneType' object has no attribute")

  // ---------------------------------------------------------------------
  // Nodes

  /** `_generate_personas_node`: the generator's personas for the
      configured count, and nothing else; its error propagates. */
  function GeneratePersonasNode(agents: Agents, s: WorkflowState): (r: Result<Update, Error>)
    ensures r.Success? <==> agents.generatePersonas(s.personasCount).Success?
    ensures r.Failure? ==> r.error == agents.generatePersonas(s.personasCount).error
    ensures r.Success? ==>
      && r.value.personas == Some(agents.generatePersonas(s.personasCount).value)
      && r.value.history == [] && r.value.iteration.None? && r.value.currentConcept.None?
      && r.value.marketFit.None? && r.value.shouldContinue.None?
  {
    var personas :- agents.generatePersonas(s.personasCount);
    Success(NoUpdate.(personas := Some(personas)))
  }

  /** `_ideate_node`: a fresh concept from the seed on the first pass, a
      refinement of the current one with the critic's prompt afterwards, and
      the iteration counter one higher. */
  function IdeateNode(agents: Agents, s: WorkflowState): (r: Result<Update, Error>)
    ensures r.Success? ==> r.value.iteration == Some(s.iteration + 1) && r.value.currentConcept.Some?
    ensures s.iteration == 0 ==>
      (r.Success? <==> agents.generateConcept(s.seedIdea).Success?)
      && (r.Success? ==> r.value.currentConcept == Some(agents.generateConcept(s.seedIdea).value))
    ensures s.iteration != 0 && s.criticFeedback.None? ==> r == Failure(NoneAttribute)
    ensures s.iteration != 0 && s.criticFeedback.Some? ==>
      var refined := agents.refineConcept(s.currentConcept, s.criticFeedback.value.refinementPrompt);
      (r.Success? <==> refined.Success?) && (r.Success? ==> r.value.currentConcept == Some(refined.value))
    ensures r.Success? ==> r.value.history == [] && r.value.shouldContinue.None? && r.value.marketFit.None?
  {
    var concept :-
      if s.iteration == 0 then agents.generateConcept(s.seedIdea)
      else if s.criticFeedback.None? then Failure(NoneAttribute)
      else agents.refineConcept(s.currentConcept, s.criticFeedback.value.refinementPrompt);
    Success(NoUpdate.(currentConcept := Some(concept), iteration := Some(s.iteration + 1)))
  }

  /** `_simulate_market_node`. Without a concept every simulation fails on
      the concept's fields and is skipped, leaving no responses. */
  function SimulateNode(agents: Agents, s: WorkflowState): (u: Update)
    ensures u.personaResponses.Some? && |u.personaResponses.value| <= |s.personas|
    ensures s.currentConcept.None? ==> u.personaResponses == Some([])
    ensures forall x | x in u.personaResponses.value :: exists p | p in s.personas :: x.personaName == p.name
    ensures s.currentConcept.Some? ==>
      u.personaResponses == Some(MarketPredictor.Simulated(s.currentConcept.value, s.personas, agents.respond))
    ensures s.currentConcept.Some? && (forall p | p in s.personas :: agents.respond(p, s.currentConcept.value).Some?) ==>
      && |u.personaResponses.value| == |s.personas|
      && forall i | 0 <= i < |s.personas| :: u.personaResponses.value[i].personaName == s.personas[i].name
    ensures u.history == [] && u.iteration.None? && u.currentConcept.None? && u.marketFit.None?
    ensures u.shouldContinue.None? && u.criticFeedback.None?
  {
    var responses :=
      if s.currentConcept.Some? then MarketPredictor.Simulated(s.currentConcept.value, s.personas, agents.respond)
      else [];
    NoUpdate.(personaResponses := Some(responses))
  }

  /** The history entry of a pass. */
  function Entry(iteration: int, concept: ProductConcept, fit: MarketPredictor.MarketFitScore): HistoryEntry {
    HistoryEntry(iteration, concept.name, fit.pmfScore, fit.nps, fit.avgInterest)
  }

  /** `_calculate_pmf_node`: scores the responses and adds exactly one
      history entry for the current iteration and concept. */
  function CalculatePmfNode(agents: Agents, s: WorkflowState): (r: Result<Update, Error>)
    ensures r.Success? <==> s.personaResponses != [] && s.currentConcept.Some?
    ensures s.personaResponses == [] ==> r.Failure? && r.error.kind == InsufficientDataError
    ensures r.Success? ==>
      && r.value.marketFit.Some?
      && r.value.history == [Entry(s.iteration, s.currentConcept.value, r.value.marketFit.value)]
      && r.value.iteration.None? && r.value.shouldContinue.None? && r.value.currentConcept.None?
  {
    var assessment :- MarketPredictor.CalculatePmf(s.personaResponses, agents.raters);
    if s.currentConcept.None? then Failure(NoneAttribute)
    else
      var fit := assessment.score;
      Success(NoUpdate.(marketFit := Some(fit), history := [Entry(s.iteration, s.currentConcept.value, fit)]))
  }

  /** `_analyze_feedback_node`: the critic reads the concept, the score and
      the first five responses' feedback. */
  function AnalyzeNode(agents: Agents, s: WorkflowState): (r: Result<Update, Error>)
    ensures var feedback := agents.critique(s.currentConcept, s.marketFit, MarketPredictor.SampleFeedback(s.personaResponses, 5), s.pmfThreshold);
      && (r.Success? <==> feedback.Success?)
      && (r.Success? ==> r.value.criticFeedback == Some(feedback.value))
    ensures r.Success? ==>
      && r.value.history == [] && r.value.iteration.None? && r.value.currentConcept.None?
      && r.value.marketFit.None? && r.value.shouldContinue.None?
  {
    var sample := MarketPredictor.SampleFeedback(s.personaResponses, 5);
    var feedback :- agents.critique(s.currentConcept, s.marketFit, sample, s.pmfThreshold);
    Success(NoUpdate.(criticFeedback := Some(feedback)))
  }

  /** The decision of `_decide_node`: stop once the threshold is met, else
      stop once the iteration budget is spent, else continue. */
  function Decide(pmfScore: real, threshold: real, iteration: int, maxIterations: int): (go: bool)
    ensures go <==> pmfScore < threshold && iteration < maxIterations
    ensures pmfScore >= threshold ==> !go
  {
    if pmfScore >= threshold then false
    else if iteration >= maxIterations then false
    else true
  }

  function DecideNode(s: WorkflowState): (r: Result<Update, Error>)
    ensures r.Success? <==> s.marketFit.Some?
    ensures r.Success? ==>
      r.value.shouldContinue == Some(Decide(s.marketFit.value.pmfScore, s.pmfThreshold, s.iteration, s.maxIterations))
  {
    if s.marketFit.None? then Failure(NoneAttribute)
    else Success(NoUpdate.(shouldContinue := Some(Decide(s.marketFit.value.pmfScore, s.pmfThreshold, s.iteration, s.maxIterations))))
  }

  /** `_should_continue_routing`: `state.get("should_continue", True)`. */
  function Route(shouldContinue: Option<bool>): (route: string)
    ensures route == "continue" <==> shouldContinue.GetOr(true)
    ensures route == "continue" || route == "finalize"
  {
    if shouldContinue.GetOr(true) then "continue" else "finalize"
  }

  // ---------------------------------------------------------------------
  // The graph

  datatype Node = GeneratePersonas | Ideate | SimulateMarket | CalculatePmf | AnalyzeFeedback | DecideStep | End

  /** The edge taken out of `n`; only the decide node looks at the route. */
  function Next(n: Node, shouldContinue: Option<bool>): (m: Node)
    requires n != End
    ensures m != GeneratePersonas
    ensures n == DecideStep ==> (m == Ideate <==> Route(shouldContinue) == "continue")
    ensures n == DecideStep ==> (m == End <==> Route(shouldContinue) == "finalize")
    ensures n != DecideStep ==> m != End
  {
    match n
    case GeneratePersonas => Ideate
    case Ideate => SimulateMarket
    case SimulateMarket => CalculatePmf
    case CalculatePmf => AnalyzeFeedback
    case AnalyzeFeedback => DecideStep
    case DecideStep => if Route(shouldContinue) == "continue" then Ideate else End
  }

  /** Node `n` after `k` steps along the fixed edges (the route only matters
      at the decide node). */
  function Walk(n: Node, k: nat, shouldContinue: Option<bool>): Node
    decreases k
  {
    if k == 0 || n == End then n else Walk(Next(n, shouldContinue), k - 1, shouldContinue)
  }

  /** From ideate, the graph always runs simulate, calculate_pmf, analyze and
      decide, then goes back to ideate or ends: this is the body of Run's loop. */
  lemma PassOrder(shouldContinue: Option<bool>)
    ensures Walk(Ideate, 4, shouldContinue) == DecideStep
    ensures forall k | 0 < k <= 4 :: Walk(Ideate, k, shouldContinue) !in {Ideate, GeneratePersonas, End}
    ensures Walk(Ideate, 5, shouldContinue) == (if shouldContinue.GetOr(true) then Ideate else End)
  {
    var sc := shouldContinue;
    var back := if sc.GetOr(true) then Ideate else End;
    assert Walk(DecideStep, 1, sc) == back;
    assert Walk(AnalyzeFeedback, 2, sc) == back && Walk(AnalyzeFeedback, 1, sc) == DecideStep;
    assert Walk(CalculatePmf, 3, sc) == back && Walk(CalculatePmf, 2, sc) == DecideStep;
    assert Walk(CalculatePmf, 1, sc) == AnalyzeFeedback;
    assert Walk(SimulateMarket, 4, sc) == back && Walk(SimulateMarket, 3, sc) == DecideStep;
    assert Walk(SimulateMarket, 2, sc) == AnalyzeFeedback && Walk(SimulateMarket, 1, sc) == CalculatePmf;
  }

  // ---------------------------------------------------------------------
  // Running

  /** The values `run` falls back to when an argument is None (the
      configuration's). */
  datatype Defaults = Defaults(maxIterations: int, pmfThreshold: real, personasCount: int)

  function InitialState(seedIdea: string, maxIterations: int, pmfThreshold: real, personasCount: int): WorkflowState {
    WorkflowState(seedIdea, maxIterations, pmfThreshold, personasCount, 0, None, [], [], None, None, [], true)
  }

  /** What a finished run guarantees about the final state. */
  predicate Finished(s: WorkflowState) {
    && 1 <= s.iteration <= Max(s.maxIterations, 1)
    && |s.history| == s.iteration
    && (forall k | 0 <= k < |s.history| :: s.history[k].iteration == k + 1)
    && !s.shouldContinue
    && s.marketFit.Some? && s.currentConcept.Some? && s.criticFeedback.Some?
    && s.history[|s.history| - 1].pmfScore == s.marketFit.value.pmfScore
    && (s.marketFit.value.pmfScore >= s.pmfThreshold || s.iteration >= s.maxIterations)
    && (forall k | 0 <= k < |s.history| - 1 :: s.history[k].pmfScore < s.pmfThreshold)
  }

  /** What holds between passes of Run's loop. */
  predicate Between(s: WorkflowState) {
    && 0 <= s.iteration <= Max(s.maxIterations, 1)
    && |s.history| == s.iteration
    && (forall k | 0 <= k < |s.history| :: s.history[k].iteration == k + 1)
    && (s.iteration == 0 <==> s.marketFit.None?)
    && (s.iteration == 0 ==> s.shouldContinue)
    && (s.iteration > 0 ==>
          && s.marketFit.Some? && s.currentConcept.Some? && s.criticFeedback.Some?
          && s.history[|s.history| - 1].pmfScore == s.marketFit.value.pmfScore
          && s.shouldContinue == Decide(s.marketFit.value.pmfScore, s.pmfThreshold, s.iteration, s.maxIterations))
    && (forall k | 0 <= k < |s.history| - 1 :: s.history[k].pmfScore < s.pmfThreshold)
  }

  /** A state between passes that the decide node stopped is finished. */
  lemma BetweenStopped(s: WorkflowState)
    requires Between(s) && !s.shouldContinue
    ensures Finished(s)
  {
  }

  /** A pass that ends with the iteration one higher, one more history
      entry for that iteration, and the decision taken on its score keeps
      Between. */
  lemma PassKeepsBetween(s: WorkflowState, t: WorkflowState, concept: ProductConcept, fit: MarketPredictor.MarketFitScore)
    requires Between(s) && s.shouldContinue
    requires t.maxIterations == s.maxIterations && t.pmfThreshold == s.pmfThreshold
    requires t.iteration == s.iteration + 1
    requires t.history == s.history + [Entry(t.iteration, concept, fit)]
    requires t.marketFit == Some(fit) && t.currentConcept.Some? && t.criticFeedback.Some?
    requires t.shouldContinue == Decide(fit.pmfScore, t.pmfThreshold, t.iteration, t.maxIterations)
    ensures Between(t)
  {
    assert s.iteration < Max(s.maxIterations, 1) by {
      if s.iteration > 0 {
        assert Decide(s.marketFit.value.pmfScore, s.pmfThreshold, s.iteration, s.maxIterations);
      }
    }
    assert forall k | 0 <= k < |t.history| - 1 :: t.history[k].pmfScore < t.pmfThreshold by {
      if s.iteration > 0 {
        assert Decide(s.marketFit.value.pmfScore, s.pmfThreshold, s.iteration, s.maxIterations);
        assert s.history[|s.history| - 1].pmfScore < s.pmfThreshold;
      }
    }
  }

  /** The first half of a pass: ideate, simulate_market and calculate_pmf.
      The iteration is one higher and the history holds one more entry,
      for that iteration, the new concept and its score. */
  method ScorePass(agents: Agents, s: WorkflowState) returns (r: Result<WorkflowState, Error>)
    ensures r.Success? ==>
      && r.value.iteration == s.iteration + 1
      && r.value.marketFit.Some? && r.value.currentConcept.Some?
      && r.value.criticFeedback == s.criticFeedback
      && r.value.history == s.history + [Entry(r.value.iteration, r.value.currentConcept.value, r.value.marketFit.value)]
    ensures r.Success? ==> r.value.seedIdea == s.seedIdea && r.value.maxIterations == s.maxIterations
    ensures r.Success? ==> r.value.pmfThreshold == s.pmfThreshold && r.value.personasCount == s.personasCount
  {
    var u1 :- IdeateNode(agents, s);
    var state := Merge(s, u1);
    assert state.iteration == s.iteration + 1 && state.history == s.history;
    assert state.currentConcept.Some? && state.criticFeedback == s.criticFeedback;
    state := Merge(state, SimulateNode(agents, state));
    assert state.iteration == s.iteration + 1 && state.history == s.history;
    assert state.currentConcept.Some? && state.criticFeedback == s.criticFeedback;
    var u3 :- CalculatePmfNode(agents, state);
    state := Merge(state, u3);
    r := Success(state);
  }

  /** One trip round the loop of the graph: ideate, simulate_market,
      calculate_pmf, analyze_feedback and decide, each update merged into the
      state. A failing node fails the pass. */
  method RunPass(agents: Agents, s: WorkflowState) returns (r: Result<WorkflowState, Error>)
    requires Between(s) && s.shouldContinue
    ensures r.Success? ==> Between(r.value) && r.value.iteration == s.iteration + 1
    ensures r.Success? ==> r.value.seedIdea == s.seedIdea && r.value.maxIterations == s.maxIterations
    ensures r.Success? ==> r.value.pmfThreshold == s.pmfThreshold && r.value.personasCount == s.personasCount
  {
    var state :- ScorePass(agents, s);
    ghost var scored := state;
    var u4 :- AnalyzeNode(agents, state);
    state := Merge(state, u4);
    assert state.iteration == scored.iteration && state.history == scored.history;
    assert state.marketFit == scored.marketFit && state.currentConcept == scored.currentConcept;
    // decide cannot fail here: the score was just set
    var u5 := DecideNode(state).value;
    state := Merge(state, u5);
    PassKeepsBetween(s, state, scored.currentConcept.value, scored.marketFit.value);
    r := Success(state);
  }

  /** `run`: arguments left as None take the defaults; the state starts at
      iteration 0 with an empty history; personas are generated once, then
      passes of ideate, simulate, calculate_pmf, analyze and decide repeat
      until decide stops. A failing node makes the run fail with its error. */
  method Run(agents: Agents, defaults: Defaults, seedIdea: string,
             maxIterations: Option<int>, pmfThreshold: Option<real>, personasCount: Option<int>)
    returns (r: Result<WorkflowState, Error>)
    ensures r.Success? ==>
      && Finished(r.value)
      && r.value.seedIdea == seedIdea
      && r.value.maxIterations == maxIterations.GetOr(defaults.maxIterations)
      && r.value.pmfThreshold == pmfThreshold.GetOr(defaults.pmfThreshold)
      && r.value.personasCount == personasCount.GetOr(defaults.personasCount)
  {
    var state := InitialState(seedIdea, maxIterations.GetOr(defaults.maxIterations),
                              pmfThreshold.GetOr(defaults.pmfThreshold), personasCount.GetOr(defaults.personasCount));
    ghost var fixed := state;
    var u :- GeneratePersonasNode(agents, state);
    state := Merge(state, u);
    while Route(Some(state.shouldContinue)) == "continue"
      invariant Between(state)
      invariant state.seedIdea == fixed.seedIdea && state.maxIterations == fixed.maxIterations
      invariant state.pmfThreshold == fixed.pmfThreshold && state.personasCount == fixed.personasCount
      decreases Max(state.maxIterations, 1) - state.iteration
    {
      state :- RunPass(agents, state);
    }
    BetweenStopped(state);
    r := Success(state);
  }
}
