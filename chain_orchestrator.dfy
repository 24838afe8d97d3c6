/** The pipeline (src/core/chain_orchestrator.py): a plan gate, then eleven
    stages in a fixed order, each logged in the run's context, then the
    context is flattened for the vector store and saved under the session id.
    The agents behind the stages are parameters: each either returns a value
    or raises. Timers and console output are not modelled. */
module ChainOrchestrator {
  import opened Common
  import opened PyValue
  import opened ContextTracking
  import opened MemoryManagement
  import opened ContextFlattening
  import CostEstimator
  import PlannerAgent
  import opened Http

  /** The stages' collaborators. `planner` stands for `generate_plan`, which
      never raises; every other stage may raise. `vectorStore` stands for the
      Weaviate adapter that receives the flattened chunks. */
  datatype Agents = Agents(
    planner: string -> Value,
    codeWriter: Value -> Outcome<Value>,
    debugger: Value -> Outcome<Value>,
    unitTests: Value -> Outcome<Value>,
    integrationTests: Value -> Outcome<Value>,
    security: Value -> Outcome<Value>,
    performance: Value -> Outcome<Value>,
    docs: Value -> Outcome<Value>,
    docker: Value -> Outcome<Value>,
    github: (Value, Value, Value) -> Outcome<Value>,
    vectorStore: seq<Chunk> -> Option<Exc>)

  /** How `orchestrate_project` ends: the early return of the plan gate, an
      exception from a stage, or the end of the function. */
  datatype Ending = InvalidPlan | Failed(exc: Exc) | Completed

  /** What a run leaves behind: the context, the session files, the chunks
      built for the vector store (if that stage was reached) and the ending. */
  datatype RunResult = RunResult(state: ContextState, files: map<string, SavedData>, stored: Option<seq<Chunk>>, ending: Ending)

  /** `validate_plan_structure(plan)` */
  predicate ValidPlanStructure(plan: Value) {
    plan.Dict? && "tasks" in Keys(plan.entries)
  }

  /** The gate `not plan or not validate_plan_structure(plan)` lets a plan through. */
  predicate PassesGate(plan: Value) {
    Truthy(plan) && ValidPlanStructure(plan)
  }

  /** The estimate stored as "project_cost_estimate". */
  function ProjectCost(): Value {
    CostEstimator.RolesHaveRates();
    CostEstimator.TableEstimate().ToValue()
  }

  /** A run stopped by an exception: the context keeps what was logged so far
      and nothing is saved. */
  function Stopped(s: ContextState, files: map<string, SavedData>, e: Exc): RunResult {
    RunResult(s, files, None, Failed(e))
  }

  /** `orchestrate_project(user_prompt, session_id)` on a context `s` and a
      save directory holding `files`. */
  function Orchestrate(s: ContextState, files: map<string, SavedData>, saveDir: string, prompt: string, sessionId: string, ag: Agents): RunResult {
    var plan := ag.planner(prompt);
    if !PassesGate(plan) then RunResult(s, files, None, InvalidPlan)
    else Stages(s, files, saveDir, sessionId, plan, ag)
  }

  /** Everything after the plan gate. */
  function Stages(s: ContextState, files: map<string, SavedData>, saveDir: string, sessionId: string, plan: Value, ag: Agents): RunResult {
    var s1 := s.WithEvent("Planning completed", Str("Structured plan received."))
               .WithVariable("project_cost_estimate", ProjectCost());
    match ag.codeWriter(plan)
    case Raised(e) => Stopped(s1, files, e)
    case Returned(code) =>
      var s2 := s1.WithEvent("Code generation completed", Str("Initial code generated."));
      match ag.debugger(code)
      case Raised(e) => Stopped(s2, files, e)
      case Returned(debugged) =>
        var s3 := s2.WithEvent("Debugging completed", Str("Bugs fixed and logic verified."));
        AfterDebugging(s3, files, saveDir, sessionId, debugged, ag)
  }

  /** Stages 5 to 11, the vector store and the save, on the debugged code. */
  function AfterDebugging(s: ContextState, files: map<string, SavedData>, saveDir: string, sessionId: string, debugged: Value, ag: Agents): RunResult {
    var p := Analyses(s, debugged, ag);
    if p.failure.Some? then Stopped(p.state, files, p.failure.value)
    else Delivery(p.state, files, saveDir, sessionId, debugged, ag)
  }

  /** How far a group of stages got: the context after it, and the
      exception that stopped it, if any. */
  datatype Progress = Progress(state: ContextState, failure: Option<Exc>)

  /** Stages 5 to 8: every one of them reads the debugged code. */
  function Analyses(s: ContextState, debugged: Value, ag: Agents): Progress {
    match ag.unitTests(debugged)
    case Raised(e) => Progress(s, Some(e))
    case Returned(testResults) =>
      var s1 := s.WithEvent("Unit Testing completed", Str("Results: " + Render(testResults)));
      match ag.integrationTests(debugged)
      case Raised(e) => Progress(s1, Some(e))
      case Returned(integrationResults) =>
        var s2 := s1.WithEvent("Integration Tests completed", Str("Integration Results: " + Render(integrationResults)));
        match ag.security(debugged)
        case Raised(e) => Progress(s2, Some(e))
        case Returned(_) =>
          var s3 := s2.WithEvent("Security Scan completed", Str("Security issues analyzed."));
          match ag.performance(debugged)
          case Raised(e) => Progress(s3, Some(e))
          case Returned(_) =>
            Progress(s3.WithEvent("Performance Tests completed", Str("Performance validated.")), None)
  }

  /** Stages 9 to 11, the vector store and the save. */
  function Delivery(s: ContextState, files: map<string, SavedData>, saveDir: string, sessionId: string, debugged: Value, ag: Agents): RunResult {
    match ag.docs(debugged)
    case Raised(e) => Stopped(s, files, e)
    case Returned(documentation) =>
      var s1 := s.WithEvent("Documentation generated", Str("README, API docs created."));
      match ag.docker(debugged)
      case Raised(e) => Stopped(s1, files, e)
      case Returned(dockerfile) =>
        var s2 := s1.WithEvent("Dockerfile created", Str("Docker setup complete."));
        match ag.github(debugged, documentation, dockerfile)
        case Raised(e) => Stopped(s2, files, e)
        case Returned(repoUrl) =>
          var s3 := s2.WithVariable("github_repo", repoUrl).WithEvent("GitHub Push completed", repoUrl);
          var chunks := ContextChunks(s3);
          match ag.vectorStore(chunks)
          case Some(e) => RunResult(s3, files, Some(chunks), Failed(e))
          case None => RunResult(s3, files[SessionPath(saveDir, sessionId) := Snapshot(s3)], Some(chunks), Completed)
  }

  /** The chunks `store_context_vector(context.get_context())` builds. */
  function ContextChunks(s: ContextState): seq<Chunk> {
    Flatten(s.ToValue().entries)
  }

  /** `orchestrate_project` on the module-level `context` and `memory`. */
  method OrchestrateProject(context: ContextTracker, memory: MemoryManager, userPrompt: string, sessionId: string, ag: Agents)
    returns (ending: Ending, stored: Option<seq<Chunk>>)
    modifies context, memory
    ensures memory.saveDir == old(memory.saveDir)
    ensures RunResult(context.State(), memory.files, stored, ending)
         == Orchestrate(old(context.State()), old(memory.files), memory.saveDir, userPrompt, sessionId, ag)
  {
    stored := None;
    // 1. Planning
    var plan := ag.planner(userPrompt);
    if !Truthy(plan) || !ValidPlanStructure(plan) {
      return InvalidPlan, None;
    }
    context.LogEvent("Planning completed", Str("Structured plan received."));
    // 2. Estimating cost
    var cost := CostEstimator.EstimateCost(plan);
    context.UpdateVariable("project_cost_estimate", cost.ToValue());
    // 3. Code generation
    var generated := ag.codeWriter(plan);
    if generated.Raised? {
      return Failed(generated.exc), None;
    }
    context.LogEvent("Code generation completed", Str("Initial code generated."));
    // 4. Debugging
    var debugged := ag.debugger(generated.value);
    if debugged.Raised? {
      return Failed(debugged.exc), None;
    }
    context.LogEvent("Debugging completed", Str("Bugs fixed and logic verified."));
    var failure := RunAnalyses(context, debugged.value, ag);
    if failure.Some? {
      return Failed(failure.value), None;
    }
    ending, stored := RunDelivery(context, memory, sessionId, debugged.value, ag);
  }

  /** Stages 5 to 8 on the context. */
  method RunAnalyses(context: ContextTracker, debugged: Value, ag: Agents) returns (failure: Option<Exc>)
    modifies context
    ensures Progress(context.State(), failure) == Analyses(old(context.State()), debugged, ag)
  {
    var testResults := ag.unitTests(debugged);
    if testResults.Raised? {
      return Some(testResults.exc);
    }
    context.LogEvent("Unit Testing completed", Str("Results: " + Render(testResults.value)));
    var integrationResults := ag.integrationTests(debugged);
    if integrationResults.Raised? {
      return Some(integrationResults.exc);
    }
    context.LogEvent("Integration Tests completed", Str("Integration Results: " + Render(integrationResults.value)));
    var securityReport := ag.security(debugged);
    if securityReport.Raised? {
      return Some(securityReport.exc);
    }
    context.LogEvent("Security Scan completed", Str("Security issues analyzed."));
    var perfReport := ag.performance(debugged);
    if perfReport.Raised? {
      return Some(perfReport.exc);
    }
    context.LogEvent("Performance Tests completed", Str("Performance validated."));
    failure := None;
  }

  /** Stages 9 to 11, the vector store and the save. */
  method RunDelivery(context: ContextTracker, memory: MemoryManager, sessionId: string, debugged: Value, ag: Agents)
    returns (ending: Ending, stored: Option<seq<Chunk>>)
    modifies context, memory
    ensures memory.saveDir == old(memory.saveDir)
    ensures RunResult(context.State(), memory.files, stored, ending)
         == Delivery(old(context.State()), old(memory.files), memory.saveDir, sessionId, debugged, ag)
  {
    stored := None;
    var documentation := ag.docs(debugged);
    if documentation.Raised? {
      return Failed(documentation.exc), None;
    }
    context.LogEvent("Documentation generated", Str("README, API docs created."));
    var dockerfile := ag.docker(debugged);
    if dockerfile.Raised? {
      return Failed(dockerfile.exc), None;
    }
    context.LogEvent("Dockerfile created", Str("Docker setup complete."));
    var repoUrl := ag.github(debugged, documentation.value, dockerfile.value);
    if repoUrl.Raised? {
      return Failed(repoUrl.exc), None;
    }
    context.UpdateVariable("github_repo", repoUrl.value);
    context.LogEvent("GitHub Push completed", repoUrl.value);
    var c := context.GetContext();
    var flattened := StoreContextVector(c.ToValue().entries);
    stored := Some(flattened);
    var failure := ag.vectorStore(flattened);
    if failure.Some? {
      return Failed(failure.value), stored;
    }
    memory.SaveContext(context, sessionId);
    ending := Completed;
  }

  // ---------------------------------------------------------------------
  // The plan gate

  /** A plan passes the gate exactly when it is a dict with a "tasks" key,
      whatever that key holds. */
  lemma GateIsStructure(plan: Value)
    ensures PassesGate(plan) <==> plan.Dict? && "tasks" in Keys(plan.entries)
  {
    if plan.Dict? && "tasks" in Keys(plan.entries) {
      assert plan.entries != [];
    }
  }

  /** An empty task list passes the gate. */
  lemma EmptyTaskListPasses()
    ensures PassesGate(Dict([("tasks", List([]))]))
  {
    assert Keys([("tasks", List([]))]) == ["tasks"];
  }

  /** Every plan the planner returns passes the gate. */
  lemma PlannerPlanPassesGate(s: ContextState, goal: string, model: string, first: HttpExchange, second: HttpExchange)
    ensures PassesGate(PlannerAgent.PlanRun(s, goal, model, first, second).plan)
  {
    PlannerAgent.PlanAlwaysStructured(s, goal, model, first, second);
    var plan := PlannerAgent.PlanRun(s, goal, model, first, second).plan;
    assert Keys(plan.entries)[1] == "tasks";
    GateIsStructure(plan);
  }

  /** A plan that fails the gate ends the run at once: no event is logged,
      no variable set, nothing stored and nothing saved. */
  lemma RejectedPlanChangesNothing(s: ContextState, files: map<string, SavedData>, saveDir: string, prompt: string, sessionId: string, ag: Agents)
    requires !PassesGate(ag.planner(prompt))
    ensures Orchestrate(s, files, saveDir, prompt, sessionId, ag) == RunResult(s, files, None, InvalidPlan)
  {
  }

  // ---------------------------------------------------------------------
  // Stage order

  /** The event names of a history. */
  function EventNames(h: seq<Event>): (names: seq<string>)
    ensures |names| == |h|
    ensures forall i :: 0 <= i < |h| ==> names[i] == h[i].event
  {
    seq(|h|, i requires 0 <= i < |h| => h[i].event)
  }

  /** The events of stages 1 to 4, in order. */
  const OpeningEvents := ["Planning completed", "Variable updated", "Code generation completed", "Debugging completed"]

  /** The events of stages 5 to 8, in order. */
  const AnalysisEvents := ["Unit Testing completed", "Integration Tests completed", "Security Scan completed", "Performance Tests completed"]

  /** The events of stages 9 to 11, in order. */
  const DeliveryEvents := ["Documentation generated", "Dockerfile created", "Variable updated", "GitHub Push completed"]

  /** Every event a full run logs, in stage order. */
  function StageEvents(): seq<string> {
    OpeningEvents + AnalysisEvents + DeliveryEvents
  }

  /** `after` keeps the history of `before` and adds events whose names are
      `names`; goal and tasks are untouched. */
  predicate LogsExactly(before: ContextState, after: ContextState, names: seq<string>) {
    && |before.history| <= |after.history|
    && after.history[..|before.history|] == before.history
    && EventNames(after.history[|before.history|..]) == names
    && after.goal == before.goal && after.tasks == before.tasks
  }

  lemma {:induction false} PrefixInFirst<T>(a: seq<T>, b: seq<T>, k: nat)
    requires k <= |a|
    ensures (a + b)[..k] == a[..k]
  {
  }

  lemma {:induction false} PrefixIntoSecond<T>(a: seq<T>, b: seq<T>, k: nat)
    requires k <= |b|
    ensures (a + b)[..|a| + k] == a + b[..k]
  {
  }

  lemma {:induction false} LogsNothing(s: ContextState)
    ensures LogsExactly(s, s, [])
  {
  }

  lemma {:induction false} LogsOneMore(before: ContextState, mid: ContextState, names: seq<string>, e: string, d: Value)
    requires LogsExactly(before, mid, names)
    ensures LogsExactly(before, mid.WithEvent(e, d), names + [e])
  {
    var after := mid.WithEvent(e, d);
    var n := |before.history|;
    assert after.history[..n] == mid.history[..n];
    assert after.history[n..] == mid.history[n..] + [Event(e, d)];
  }

  lemma {:induction false} LogsChain(a: ContextState, b: ContextState, c: ContextState, xs: seq<string>, ys: seq<string>)
    requires LogsExactly(a, b, xs) && LogsExactly(b, c, ys)
    ensures LogsExactly(a, c, xs + ys)
  {
    var n, m := |a.history|, |b.history|;
    assert c.history[..n] == c.history[..m][..n];
    assert c.history[n..] == b.history[n..] + c.history[m..];
  }

  /** Stages 5 to 8 log a prefix of their events, all four exactly when none
      of them raised; the variables are untouched. */
  lemma AnalysesLog(s: ContextState, debugged: Value, ag: Agents)
    ensures var p := Analyses(s, debugged, ag);
      exists k :: 0 <= k <= 4 && LogsExactly(s, p.state, AnalysisEvents[..k]) && (p.failure.None? <==> k == 4)
    ensures Analyses(s, debugged, ag).state.variables == s.variables
  {
    var p := Analyses(s, debugged, ag);
    var a := AnalysisEvents;
    LogsNothing(s);
    assert a[..0] == [];
    if ag.unitTests(debugged).Returned? {
      var s1 := s.WithEvent(a[0], Str("Results: " + Render(ag.unitTests(debugged).value)));
      LogsOneMore(s, s, [], a[0], Str("Results: " + Render(ag.unitTests(debugged).value)));
      assert [] + [a[0]] == a[..1];
      if ag.integrationTests(debugged).Returned? {
        var s2 := s1.WithEvent(a[1], Str("Integration Results: " + Render(ag.integrationTests(debugged).value)));
        LogsOneMore(s, s1, a[..1], a[1], Str("Integration Results: " + Render(ag.integrationTests(debugged).value)));
        assert a[..1] + [a[1]] == a[..2];
        if ag.security(debugged).Returned? {
          var s3 := s2.WithEvent(a[2], Str("Security issues analyzed."));
          LogsOneMore(s, s2, a[..2], a[2], Str("Security issues analyzed."));
          assert a[..2] + [a[2]] == a[..3];
          if ag.performance(debugged).Returned? {
            LogsOneMore(s, s3, a[..3], a[3], Str("Performance validated."));
            assert a[..3] + [a[3]] == a[..4];
            assert LogsExactly(s, p.state, a[..4]);
          } else {
            assert LogsExactly(s, p.state, a[..3]);
          }
        } else {
          assert LogsExactly(s, p.state, a[..2]);
        }
      } else {
        assert LogsExactly(s, p.state, a[..1]);
      }
    } else {
      assert LogsExactly(s, p.state, a[..0]);
    }
  }

  /** Stages 9 to 11 log a prefix of their events, all four exactly when the
      vector-store stage was reached. */
  lemma DeliveryLog(s: ContextState, files: map<string, SavedData>, saveDir: string, sessionId: string, debugged: Value, ag: Agents)
    ensures var r := Delivery(s, files, saveDir, sessionId, debugged, ag);
      exists k :: 0 <= k <= 4 && LogsExactly(s, r.state, DeliveryEvents[..k]) && (r.stored.Some? <==> k == 4)
  {
    var r := Delivery(s, files, saveDir, sessionId, debugged, ag);
    var a := DeliveryEvents;
    LogsNothing(s);
    if ag.docs(debugged).Raised? {
      assert LogsExactly(s, r.state, a[..0]);
      return;
    }
    var s1 := s.WithEvent(a[0], Str("README, API docs created."));
    LogsOneMore(s, s, [], a[0], Str("README, API docs created."));
    assert [] + [a[0]] == a[..1];
    if ag.docker(debugged).Raised? {
      assert LogsExactly(s, r.state, a[..1]);
      return;
    }
    var s2 := s1.WithEvent(a[1], Str("Docker setup complete."));
    LogsOneMore(s, s1, a[..1], a[1], Str("Docker setup complete."));
    assert a[..1] + [a[1]] == a[..2];
    var repo := ag.github(debugged, ag.docs(debugged).value, ag.docker(debugged).value);
    if repo.Raised? {
      assert LogsExactly(s, r.state, a[..2]);
      return;
    }
    PushLog(s2, repo.value);
    LogsChain(s, s2, r.state, a[..2], a[2..]);
    assert a[..2] + a[2..] == a[..4];
  }

  /** The GitHub stage logs the variable update, then the push. */
  lemma {:induction false} PushLog(s: ContextState, repoUrl: Value)
    ensures LogsExactly(s, s.WithVariable("github_repo", repoUrl).WithEvent("GitHub Push completed", repoUrl), DeliveryEvents[2..])
  {
    var a := DeliveryEvents;
    LogsNothing(s);
    LogsOneMore(s, s.(variables := Put(s.variables, "github_repo", repoUrl)), [], a[2], VariableDetail("github_repo", repoUrl));
    LogsOneMore(s, s.WithVariable("github_repo", repoUrl), [a[2]], a[3], repoUrl);
    assert [] + [a[2]] + [a[3]] == a[2..];
  }

  /** Only a run that also stored its chunks completes, and only a completed
      run writes a file: the final context, under the session's path. */
  lemma DeliverySaves(s: ContextState, files: map<string, SavedData>, saveDir: string, sessionId: string, debugged: Value, ag: Agents)
    ensures var r := Delivery(s, files, saveDir, sessionId, debugged, ag);
      && r.ending != InvalidPlan
      && r.files == (if r.ending.Completed? then files[SessionPath(saveDir, sessionId) := Snapshot(r.state)] else files)
      && (r.ending.Completed? ==> r.stored == Some(ContextChunks(r.state)))
  {
  }

  /** The events of stages 1 to 4 on a plan that passed the gate. */
  lemma {:induction false} OpeningLog(s: ContextState, ag: Agents, plan: Value)
    ensures var s1 := s.WithEvent("Planning completed", Str("Structured plan received."))
                       .WithVariable("project_cost_estimate", ProjectCost());
      && LogsExactly(s, s1, OpeningEvents[..2])
      && (ag.codeWriter(plan).Returned? ==>
            var s2 := s1.WithEvent("Code generation completed", Str("Initial code generated."));
            && LogsExactly(s, s2, OpeningEvents[..3])
            && LogsExactly(s, s2.WithEvent("Debugging completed", Str("Bugs fixed and logic verified.")), OpeningEvents))
  {
    var o := OpeningEvents;
    var s0 := s.WithEvent(o[0], Str("Structured plan received."));
    LogsNothing(s);
    LogsOneMore(s, s, [], o[0], Str("Structured plan received."));
    var s0' := s0.(variables := Put(s0.variables, "project_cost_estimate", ProjectCost()));
    LogsOneMore(s, s0', [o[0]], o[1], VariableDetail("project_cost_estimate", ProjectCost()));
    assert [o[0]] + [o[1]] == o[..2];
    var s1 := s0'.WithEvent(o[1], VariableDetail("project_cost_estimate", ProjectCost()));
    var s2 := s1.WithEvent(o[2], Str("Initial code generated."));
    LogsOneMore(s, s1, o[..2], o[2], Str("Initial code generated."));
    assert o[..2] + [o[2]] == o[..3];
    LogsOneMore(s, s2, o[..3], o[3], Str("Bugs fixed and logic verified."));
    assert o[..3] + [o[3]] == o;
  }

  /** Stages 5 to 11 log a prefix of their eight events, all of them exactly
      when the vector-store stage is reached. */
  lemma AfterDebuggingLog(s: ContextState, files: map<string, SavedData>, saveDir: string, sessionId: string, debugged: Value, ag: Agents)
    ensures var r := AfterDebugging(s, files, saveDir, sessionId, debugged, ag);
      exists k :: 0 <= k <= 8 && LogsExactly(s, r.state, (AnalysisEvents + DeliveryEvents)[..k])
        && (r.stored.Some? <==> k == 8)
    ensures AfterDebugging(s, files, saveDir, sessionId, debugged, ag).ending != InvalidPlan
  {
    var r := AfterDebugging(s, files, saveDir, sessionId, debugged, ag);
    var p := Analyses(s, debugged, ag);
    AnalysesLog(s, debugged, ag);
    var j :| 0 <= j <= 4 && LogsExactly(s, p.state, AnalysisEvents[..j]) && (p.failure.None? <==> j == 4);
    if p.failure.Some? {
      assert r.state == p.state && r.stored.None?;
      AnalysesPrefix(s, r.state, j);
    } else {
      var d := Delivery(p.state, files, saveDir, sessionId, debugged, ag);
      assert r == d;
      DeliveryLog(p.state, files, saveDir, sessionId, debugged, ag);
      DeliverySaves(p.state, files, saveDir, sessionId, debugged, ag);
      var m :| 0 <= m <= 4 && LogsExactly(p.state, d.state, DeliveryEvents[..m]) && (d.stored.Some? <==> m == 4);
      AnalysesThenDelivery(s, p.state, d.state, m);
    }
  }

  /** A prefix of the analysis events is a prefix of the later events. */
  lemma {:induction false} AnalysesPrefix(s: ContextState, t: ContextState, j: nat)
    requires j <= 4 && LogsExactly(s, t, AnalysisEvents[..j])
    ensures LogsExactly(s, t, (AnalysisEvents + DeliveryEvents)[..j])
  {
    PrefixInFirst(AnalysisEvents, DeliveryEvents, j);
  }

  /** The analysis events followed by a prefix of the delivery events. */
  lemma {:induction false} AnalysesThenDelivery(s: ContextState, p: ContextState, t: ContextState, m: nat)
    requires m <= 4
    requires LogsExactly(s, p, AnalysisEvents[..4]) && LogsExactly(p, t, DeliveryEvents[..m])
    ensures LogsExactly(s, t, (AnalysisEvents + DeliveryEvents)[..4 + m])
  {
    assert AnalysisEvents[..4] == AnalysisEvents;
    LogsChain(s, p, t, AnalysisEvents, DeliveryEvents[..m]);
    PrefixIntoSecond(AnalysisEvents, DeliveryEvents, m);
  }

  /** Once past the gate, a run logs at least the planning events, and all
      twelve exactly when the vector-store stage is reached. */
  lemma StagesLog(s: ContextState, files: map<string, SavedData>, saveDir: string, sessionId: string, plan: Value, ag: Agents)
    ensures var r := Stages(s, files, saveDir, sessionId, plan, ag);
      exists k :: 2 <= k <= |StageEvents()| && LogsExactly(s, r.state, StageEvents()[..k])
        && (r.stored.Some? <==> k == |StageEvents()|)
    ensures Stages(s, files, saveDir, sessionId, plan, ag).ending != InvalidPlan
  {
    var r := Stages(s, files, saveDir, sessionId, plan, ag);
    var s1 := s.WithEvent("Planning completed", Str("Structured plan received."))
               .WithVariable("project_cost_estimate", ProjectCost());
    if ag.codeWriter(plan).Raised? {
      OpeningLog(s, ag, plan);
      assert r.state == s1;
      OpeningPrefix(s, r.state, 2);
    } else if ag.debugger(ag.codeWriter(plan).value).Raised? {
      OpeningLog(s, ag, plan);
      assert r.state == s1.WithEvent("Code generation completed", Str("Initial code generated."));
      OpeningPrefix(s, r.state, 3);
    } else {
      StagesLogPastDebugger(s, files, saveDir, sessionId, plan, ag);
    }
  }

  /** A prefix of the opening events is a prefix of the stage events. */
  lemma {:induction false} OpeningPrefix(s: ContextState, t: ContextState, k: nat)
    requires k <= 4 && LogsExactly(s, t, OpeningEvents[..k])
    ensures LogsExactly(s, t, StageEvents()[..k])
  {
    PrefixInFirst(OpeningEvents, AnalysisEvents + DeliveryEvents, k);
    assert StageEvents() == OpeningEvents + (AnalysisEvents + DeliveryEvents);
  }

  /** The opening events followed by a prefix of the later ones form a
      prefix of the stage events. */
  lemma {:induction false} OpeningThenRest(s: ContextState, s3: ContextState, t: ContextState, k: nat)
    requires k <= 8
    requires LogsExactly(s, s3, OpeningEvents)
    requires LogsExactly(s3, t, (AnalysisEvents + DeliveryEvents)[..k])
    ensures LogsExactly(s, t, StageEvents()[..4 + k])
  {
    var rest := AnalysisEvents + DeliveryEvents;
    LogsChain(s, s3, t, OpeningEvents, rest[..k]);
    assert StageEvents() == OpeningEvents + rest;
    PrefixIntoSecond(OpeningEvents, rest, k);
  }

  /** The part of `StagesLog` after a successful debugging stage. */
  lemma StagesLogPastDebugger(s: ContextState, files: map<string, SavedData>, saveDir: string, sessionId: string, plan: Value, ag: Agents)
    requires ag.codeWriter(plan).Returned? && ag.debugger(ag.codeWriter(plan).value).Returned?
    ensures var r := Stages(s, files, saveDir, sessionId, plan, ag);
      exists k :: 2 <= k <= |StageEvents()| && LogsExactly(s, r.state, StageEvents()[..k])
        && (r.stored.Some? <==> k == |StageEvents()|)
    ensures Stages(s, files, saveDir, sessionId, plan, ag).ending != InvalidPlan
  {
    var r := Stages(s, files, saveDir, sessionId, plan, ag);
    var s3 := s.WithEvent("Planning completed", Str("Structured plan received."))
               .WithVariable("project_cost_estimate", ProjectCost())
               .WithEvent("Code generation completed", Str("Initial code generated."))
               .WithEvent("Debugging completed", Str("Bugs fixed and logic verified."));
    var debugged := ag.debugger(ag.codeWriter(plan).value).value;
    OpeningLog(s, ag, plan);
    assert r == AfterDebugging(s3, files, saveDir, sessionId, debugged, ag);
    AfterDebuggingLog(s3, files, saveDir, sessionId, debugged, ag);
    var k :| 0 <= k <= 8 && LogsExactly(s3, r.state, (AnalysisEvents + DeliveryEvents)[..k]) && (r.stored.Some? <==> k == 8);
    OpeningThenRest(s, s3, r.state, k);
    assert |StageEvents()| == 12;
  }

  /** A run logs the first k stage events in stage order, for some k: none
      when the plan is rejected, all of them exactly when the vector-store
      stage is reached. The history before the run is kept as it was. */
  lemma RunLogsStagesInOrder(s: ContextState, files: map<string, SavedData>, saveDir: string, prompt: string, sessionId: string, ag: Agents)
    ensures var r := Orchestrate(s, files, saveDir, prompt, sessionId, ag);
      exists k :: 0 <= k <= |StageEvents()| && LogsExactly(s, r.state, StageEvents()[..k])
        && (r.ending == InvalidPlan <==> k == 0)
        && (r.stored.Some? <==> k == |StageEvents()|)
  {
    var plan := ag.planner(prompt);
    if !PassesGate(plan) {
      LogsNothing(s);
      assert StageEvents()[..0] == [];
    } else {
      StagesLog(s, files, saveDir, sessionId, plan, ag);
    }
  }

  // ---------------------------------------------------------------------
  // Variables and persistence

  /** Stages 9 to 11 touch no variable but "github_repo". */
  lemma DeliveryKeepsVariables(s: ContextState, files: map<string, SavedData>, saveDir: string, sessionId: string, debugged: Value, ag: Agents, key: string)
    requires key != "github_repo"
    ensures Get(Delivery(s, files, saveDir, sessionId, debugged, ag).state.variables, key) == Get(s.variables, key)
  {
    if ag.docs(debugged).Returned? && ag.docker(debugged).Returned? {
      var repo := ag.github(debugged, ag.docs(debugged).value, ag.docker(debugged).value);
      if repo.Returned? {
        PutGetOther(s.variables, "github_repo", key, repo.value);
      }
    }
  }

  /** Every run past the gate stores the estimate as "project_cost_estimate"
      (52 weeks, 8 people, 539500 USD), and it stays there to the end of
      the run, whichever stage raises. */
  lemma CostEstimateRecorded(s: ContextState, files: map<string, SavedData>, saveDir: string, prompt: string, sessionId: string, ag: Agents)
    requires PassesGate(ag.planner(prompt))
    ensures Get(Orchestrate(s, files, saveDir, prompt, sessionId, ag).state.variables, "project_cost_estimate") == Some(ProjectCost())
    ensures ProjectCost() == CostEstimator.Estimate(52, 8, 539500).ToValue()
  {
    CostEstimator.FixedEstimate();
    var plan := ag.planner(prompt);
    var s0 := s.WithEvent("Planning completed", Str("Structured plan received."));
    PutGet(s0.variables, "project_cost_estimate", ProjectCost());
    if ag.codeWriter(plan).Returned? && ag.debugger(ag.codeWriter(plan).value).Returned? {
      var debugged := ag.debugger(ag.codeWriter(plan).value).value;
      var s3 := s0.WithVariable("project_cost_estimate", ProjectCost())
                  .WithEvent("Code generation completed", Str("Initial code generated."))
                  .WithEvent("Debugging completed", Str("Bugs fixed and logic verified."));
      AnalysesLog(s3, debugged, ag);
      var p := Analyses(s3, debugged, ag);
      if p.failure.None? {
        DeliveryKeepsVariables(p.state, files, saveDir, sessionId, debugged, ag, "project_cost_estimate");
      }
    }
  }

  /** Stages 5 to 11 write a file only when the run completes, and then the
      session's file holds the final context. */
  lemma AfterDebuggingSaves(s: ContextState, files: map<string, SavedData>, saveDir: string, sessionId: string, debugged: Value, ag: Agents)
    ensures var r := AfterDebugging(s, files, saveDir, sessionId, debugged, ag);
      && r.files == (if r.ending.Completed? then files[SessionPath(saveDir, sessionId) := Snapshot(r.state)] else files)
      && (r.ending.Completed? ==> r.stored == Some(ContextChunks(r.state)))
  {
    var p := Analyses(s, debugged, ag);
    if p.failure.None? {
      DeliverySaves(p.state, files, saveDir, sessionId, debugged, ag);
    }
  }

  /** `memory.save_context` is reached only by a completed run: a rejected
      plan or an exception in any stage leaves the session files as they
      were. A completed run hands the flattened final context to the vector
      store, and loading the session afterwards gives back that context. */
  lemma SavedOnlyOnCompletion(s: ContextState, files: map<string, SavedData>, saveDir: string, prompt: string, sessionId: string, ag: Agents)
    ensures var r := Orchestrate(s, files, saveDir, prompt, sessionId, ag);
      r.files == (if r.ending.Completed? then files[SessionPath(saveDir, sessionId) := Snapshot(r.state)] else files)
    ensures var r := Orchestrate(s, files, saveDir, prompt, sessionId, ag);
      r.ending.Completed? ==>
        && r.stored == Some(ContextChunks(r.state))
        && LoadedFrom(r.files, SessionPath(saveDir, sessionId)) == r.state
  {
    var r := Orchestrate(s, files, saveDir, prompt, sessionId, ag);
    var plan := ag.planner(prompt);
    if PassesGate(plan) && ag.codeWriter(plan).Returned? && ag.debugger(ag.codeWriter(plan).value).Returned? {
      var debugged := ag.debugger(ag.codeWriter(plan).value).value;
      var s3 := s.WithEvent("Planning completed", Str("Structured plan received."))
                 .WithVariable("project_cost_estimate", ProjectCost())
                 .WithEvent("Code generation completed", Str("Initial code generated."))
                 .WithEvent("Debugging completed", Str("Bugs fixed and logic verified."));
      AfterDebuggingSaves(s3, files, saveDir, sessionId, debugged, ag);
    }
    if r.ending.Completed? {
      SaveLoadRoundTrip(files, saveDir, sessionId, r.state);
    }
  }

  /** "github_repo" holds what the GitHub stage returned for the debugged
      code, its documentation and its Dockerfile, and that result is the
      detail of the last event. */
  lemma GithubRepoIsPushResult(s: ContextState, files: map<string, SavedData>, saveDir: string, prompt: string, sessionId: string, ag: Agents,
                               code: Value, debugged: Value, documentation: Value, dockerfile: Value, repoUrl: Value)
    requires PassesGate(ag.planner(prompt))
    requires ag.codeWriter(ag.planner(prompt)) == Returned(code)
    requires ag.debugger(code) == Returned(debugged)
    requires ag.unitTests(debugged).Returned? && ag.integrationTests(debugged).Returned?
    requires ag.security(debugged).Returned? && ag.performance(debugged).Returned?
    requires ag.docs(debugged) == Returned(documentation) && ag.docker(debugged) == Returned(dockerfile)
    requires ag.github(debugged, documentation, dockerfile) == Returned(repoUrl)
    ensures var r := Orchestrate(s, files, saveDir, prompt, sessionId, ag);
      && Get(r.state.variables, "github_repo") == Some(repoUrl)
      && r.state.history != [] && r.state.history[|r.state.history| - 1] == Event("GitHub Push completed", repoUrl)
      && r.stored.Some?
  {
    var s3 := s.WithEvent("Planning completed", Str("Structured plan received."))
               .WithVariable("project_cost_estimate", ProjectCost())
               .WithEvent("Code generation completed", Str("Initial code generated."))
               .WithEvent("Debugging completed", Str("Bugs fixed and logic verified."));
    var p := Analyses(s3, debugged, ag);
    var s6 := p.state.WithEvent("Documentation generated", Str("README, API docs created."))
                     .WithEvent("Dockerfile created", Str("Docker setup complete."));
    PutGet(s6.variables, "github_repo", repoUrl);
  }

  /** The raw generated code reaches the later stages only through the
      debugger: two code writers whose output the debugger turns into the
      same code give the same run. */
  lemma LaterStagesSeeDebuggedCode(s: ContextState, files: map<string, SavedData>, saveDir: string, prompt: string, sessionId: string,
                                   ag: Agents, writer: Value -> Outcome<Value>, debugger: Value -> Outcome<Value>)
    requires PassesGate(ag.planner(prompt))
    requires ag.codeWriter(ag.planner(prompt)).Returned? && writer(ag.planner(prompt)).Returned?
    requires ag.debugger(ag.codeWriter(ag.planner(prompt)).value) == debugger(writer(ag.planner(prompt)).value)
    ensures Orchestrate(s, files, saveDir, prompt, sessionId, ag)
         == Orchestrate(s, files, saveDir, prompt, sessionId, ag.(codeWriter := writer, debugger := debugger))
  {
    var plan := ag.planner(prompt);
    var d := ag.debugger(ag.codeWriter(plan).value);
    if d.Returned? {
      var s3 := s.WithEvent("Planning completed", Str("Structured plan received."))
                 .WithVariable("project_cost_estimate", ProjectCost())
                 .WithEvent("Code generation completed", Str("Initial code generated."))
                 .WithEvent("Debugging completed", Str("Bugs fixed and logic verified."));
      AfterDebuggingIgnoresWriter(s3, files, saveDir, sessionId, d.value, ag, writer, debugger);
    }
  }

  lemma AfterDebuggingIgnoresWriter(s: ContextState, files: map<string, SavedData>, saveDir: string, sessionId: string, debugged: Value,
                                    ag: Agents, writer: Value -> Outcome<Value>, debugger: Value -> Outcome<Value>)
    ensures AfterDebugging(s, files, saveDir, sessionId, debugged, ag)
         == AfterDebugging(s, files, saveDir, sessionId, debugged, ag.(codeWriter := writer, debugger := debugger))
  {
    var ag' := ag.(codeWriter := writer, debugger := debugger);
    assert Analyses(s, debugged, ag) == Analyses(s, debugged, ag');
    var p := Analyses(s, debugged, ag);
    assert Delivery(p.state, files, saveDir, sessionId, debugged, ag) == Delivery(p.state, files, saveDir, sessionId, debugged, ag');
  }


  // ---------------------------------------------------------------------
  // Stages 6 and 11 as written

  /** No stage raises, whatever it is given. */
  ghost predicate NeverRaises(ag: Agents) {
    && (forall v :: ag.codeWriter(v).Returned?)
    && (forall v :: ag.debugger(v).Returned?)
    && (forall v :: ag.unitTests(v).Returned?)
    && (forall v :: ag.integrationTests(v).Returned?)
    && (forall v :: ag.security(v).Returned?)
    && (forall v :: ag.performance(v).Returned?)
    && (forall v :: ag.docs(v).Returned?)
    && (forall v :: ag.docker(v).Returned?)
    && (forall a, b, c :: ag.github(a, b, c).Returned?)
    && (forall cs :: ag.vectorStore(cs).None?)
  }

  /** With stages that do not raise, a plan that passes the gate leads to a
      completed run whose session file loads back as its final context. */
  lemma FullRunCompletes(s: ContextState, files: map<string, SavedData>, saveDir: string, prompt: string, sessionId: string, ag: Agents)
    requires PassesGate(ag.planner(prompt))
    requires NeverRaises(ag)
    ensures var r := Orchestrate(s, files, saveDir, prompt, sessionId, ag);
      r.ending == Completed && LoadedFrom(r.files, SessionPath(saveDir, sessionId)) == r.state
  {
    var plan := ag.planner(prompt);
    var code := ag.codeWriter(plan).value;
    var debugged := ag.debugger(code).value;
    var s3 := s.WithEvent("Planning completed", Str("Structured plan received."))
               .WithVariable("project_cost_estimate", ProjectCost())
               .WithEvent("Code generation completed", Str("Initial code generated."))
               .WithEvent("Debugging completed", Str("Bugs fixed and logic verified."));
    AfterDebuggingCompletes(s3, files, saveDir, sessionId, debugged, ag);
    SavedOnlyOnCompletion(s, files, saveDir, prompt, sessionId, ag);
  }

  lemma AfterDebuggingCompletes(s: ContextState, files: map<string, SavedData>, saveDir: string, sessionId: string, debugged: Value, ag: Agents)
    requires NeverRaises(ag)
    ensures AfterDebugging(s, files, saveDir, sessionId, debugged, ag).ending == Completed
  {
    assert ag.unitTests(debugged).Returned? && ag.integrationTests(debugged).Returned?;
    assert ag.security(debugged).Returned? && ag.performance(debugged).Returned?;
    var p := Analyses(s, debugged, ag);
    assert p.failure.None?;
    var documentation, dockerfile := ag.docs(debugged).value, ag.docker(debugged).value;
    assert ag.github(debugged, documentation, dockerfile).Returned?;
  }

  /** The exception a call to a name that is neither imported nor defined raises. */
  function Undefined(name: string): Exc {
    Exc(NameError, "name '" + name + "' is not defined")
  }

  /** The stages as the module is written: `run_integration_tests` and
      `push_to_github` are never imported or defined, so calling them raises
      `NameError`. */
  function AsWritten(ag: Agents): Agents {
    ag.(integrationTests := _ => Raised(Undefined("run_integration_tests")),
        github := (_, _, _) => Raised(Undefined("push_to_github")))
  }

  /** As written, no run completes: every run that gets past unit testing
      stops with `NameError` at the integration stage, and nothing is stored
      or saved. */
  lemma AsWrittenNeverCompletes(s: ContextState, files: map<string, SavedData>, saveDir: string, prompt: string, sessionId: string, ag: Agents)
    ensures var r := Orchestrate(s, files, saveDir, prompt, sessionId, AsWritten(ag));
      r.ending != Completed && r.files == files && r.stored.None?
    ensures var plan := ag.planner(prompt);
      PassesGate(plan) && ag.codeWriter(plan).Returned? && ag.debugger(ag.codeWriter(plan).value).Returned?
      && ag.unitTests(ag.debugger(ag.codeWriter(plan).value).value).Returned? ==>
        Orchestrate(s, files, saveDir, prompt, sessionId, AsWritten(ag)).ending == Failed(Undefined("run_integration_tests"))
  {
    var w := AsWritten(ag);
    var plan := ag.planner(prompt);
    if PassesGate(plan) && ag.codeWriter(plan).Returned? && ag.debugger(ag.codeWriter(plan).value).Returned? {
      var debugged := ag.debugger(ag.codeWriter(plan).value).value;
      var s3 := s.WithEvent("Planning completed", Str("Structured plan received."))
                 .WithVariable("project_cost_estimate", ProjectCost())
                 .WithEvent("Code generation completed", Str("Initial code generated."))
                 .WithEvent("Debugging completed", Str("Bugs fixed and logic verified."));
      assert w.integrationTests(debugged) == Raised(Undefined("run_integration_tests"));
      assert Analyses(s3, debugged, w).failure.Some?;
    }
  }
}
