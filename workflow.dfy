/**
 * The orchestrator: the seven stages wired as a graph, the routers that
 * pick the stage after each one, and `run_workflow`, which starts the graph
 * on a fresh state and reports the outcome.  The graph library itself is
 * not modelled; its step limit is a parameter of the driver.
 */
module Workflow {
  import opened Text
  import opened PipelineState
  import Utils
  import Download
  import AnalysisStage
  import EnvProvision
  import EnvStage
  import AnalysisPrune
  import GenerateStage
  import RunStage
  import Review
  import Finalize

  /** The graph's nodes, and its end. */
  datatype Node = DownloadNode | AnalysisNode | EnvNode | GenerateNode | RunNode | ReviewNode | FinalizeNode | End

  const MaxGenerationRetries: nat := 5
  const MaxFixRetries: nat := 10

  // ---------------------------------------------------------------------
  // Routers

  /** `_route_or_end`: the end when either status reads "failed", the given stage otherwise. */
  function RouteOrEnd(s: State, next: Node): (r: Node)
    ensures IsFailed(s) ==> r == End
    ensures !IsFailed(s) ==> r == next
  {
    if s.workflowStatus == Failed || s.status == Failed then End else next
  }

  /** The record `route_after_run` appends for a run that did not succeed. */
  function RunFailureRecord(r: Option<RunResult>): ErrorRecord
  {
    var message := if r.Some? then RunError(r.value, "Execution failed") else "Execution failed";
    ErrorRecord("RunNode", "RuntimeError", Some(High), message, NeedsRegeneration)
  }

  /**
   * `route_after_run`: the end for a failed state; otherwise always the
   * review stage, after recording an unsuccessful run.
   */
  function RouteAfterRun(s: State): (r: (State, Node))
    ensures IsFailed(s) ==> r == (s, End)
    ensures !IsFailed(s) ==> r.1 == ReviewNode
    ensures !IsFailed(s) && !RunSucceeded(s.runResult) ==>
              r.0 == s.(errors := s.errors + [RunFailureRecord(s.runResult)])
    ensures RunSucceeded(s.runResult) ==> r.0 == s
  {
    if IsFailed(s) then (s, End)
    else if !RunSucceeded(s.runResult) then (s.(errors := s.errors + [RunFailureRecord(s.runResult)]), ReviewNode)
    else (s, RouteOrEnd(s, ReviewNode))
  }

  /** Both statuses "failed". */
  function MarkFailed(s: State): (t: State)
    ensures IsFailed(t)
  {
    s.(workflowStatus := Failed, status := Failed)
  }

  /**
   * `route_after_review`: stop when told to; with a diagnosis, re-run after
   * an applied fix, review again below ten attempts, regenerate when
   * allowed, give up otherwise; without one, go on to the final stage.
   */
  function RouteAfterReview(s: State): (r: (State, Node))
  {
    if IsFailed(s) then (s, End)
    else if Utils.ShouldStopWorkflow(s) != Utils.KeepGoing then (MarkFailed(s), End)
    else if s.errorAnalysis.Diagnosis? then
      if s.fixApplied && s.status == Running then (s.(errorAnalysis := NoDiagnosis, fixApplied := false), RunNode)
      else if s.fixRetryCount < MaxFixRetries then (s, ReviewNode)
      else if Utils.ShouldRetryGeneration(s, MaxGenerationRetries) then (s, GenerateNode)
      else (MarkFailed(s), End)
    else (s, RouteOrEnd(s, FinalizeNode))
  }

  /** The routers' promises after the review stage, case by case. */
  lemma RouteAfterReviewCases(s: State)
    ensures var (t, n) := RouteAfterReview(s);
            && (IsFailed(s) ==> t == s && n == End)
            && (!IsFailed(s) && Utils.ShouldStopWorkflow(s) != Utils.KeepGoing ==> t == MarkFailed(s) && n == End)
            && (!IsFailed(s) && s.errorAnalysis.NoDiagnosis? ==> t == s && n == FinalizeNode)
            && (n == RunNode <==> !IsFailed(s) && s.errorAnalysis.Diagnosis? && Utils.ShouldStopWorkflow(s) == Utils.KeepGoing
                                  && s.fixApplied && s.status == Running)
            && (n == RunNode ==> t == s.(errorAnalysis := NoDiagnosis, fixApplied := false))
            && (n == ReviewNode ==> t == s && s.fixRetryCount < MaxFixRetries)
            && (n == GenerateNode ==> t == s && s.fixRetryCount >= MaxFixRetries
                                       && s.generationRetryCount < MaxGenerationRetries && Utils.HasCriticalErrors(s))
            && (n == End ==> IsFailed(t))
            && n != DownloadNode && n != AnalysisNode && n != EnvNode
  {
  }

  /** The router after a stage; the routers after `run` and `review` may also change the state. */
  function Route(n: Node, s: State): (r: (State, Node))
  {
    match n
    case DownloadNode => (s, RouteOrEnd(s, AnalysisNode))
    case AnalysisNode => (s, RouteOrEnd(s, EnvNode))
    case EnvNode => (s, RouteOrEnd(s, GenerateNode))
    case GenerateNode => (s, RouteOrEnd(s, RunNode))
    case RunNode => RouteAfterRun(s)
    case ReviewNode => RouteAfterReview(s)
    case FinalizeNode => (s, End)
    case End => (s, End)
  }

  /**
   * Every router ends the run, with the state untouched, once either status
   * reads "failed"; after the final stage the run always ends; otherwise the
   * first four stages follow one another in order.
   */
  lemma RoutersStopOnFailure(n: Node, s: State)
    ensures IsFailed(s) ==> Route(n, s) == (s, End)
    ensures Route(FinalizeNode, s).1 == End
    ensures !IsFailed(s) ==>
              && Route(DownloadNode, s).1 == AnalysisNode && Route(AnalysisNode, s).1 == EnvNode
              && Route(EnvNode, s).1 == GenerateNode && Route(GenerateNode, s).1 == RunNode
              && Route(RunNode, s).1 == ReviewNode
  {
  }

  // ---------------------------------------------------------------------
  // Stages

  /** What the outside world does, stage by stage. */
  datatype World = World(projectRoot: string, download: Download.Host, analysis: AnalysisStage.Host,
                         env: EnvProvision.Host, exec: seq<string> -> Proc,
                         parse: string -> Option<AnalysisPrune.TopLevel>, condaExe: Option<string>,
                         serviceUp: bool, fixed: bool, replies: Finalize.Replies)

  /** A stage leaves the diagnosis alone and does not mark success. */
  predicate Keeps(s: State, t: State)
  {
    t.errorAnalysis == s.errorAnalysis && (s.workflowStatus != Success ==> t.workflowStatus != Success)
  }

  function DownloadStep(s: State, d: Disk, w: World): (r: (State, Disk))
    ensures Keeps(s, r.0) && r.0.analysis == s.analysis
  {
    (Download.DownloadStage(s, w.projectRoot, d, w.download), Download.DownloadDisk(s, w.projectRoot, d, w.download))
  }

  /**
   * The analysis stage raises (`None`) exactly when its inputs are there but
   * no service is configured: `get_llm_service()` is called outside any `try`.
   */
  function AnalysisStep(s: State, d: Disk, w: World): (r: Option<(State, Disk)>)
    ensures r.None? <==> !AnalysisStage.AnalysisAborts(s, d) && !w.serviceUp
    ensures r.Some? ==> Keeps(s, r.value.0)
  {
    var a := AnalysisStage.AnalysisOrRaise(s, d, w.analysis, w.serviceUp);
    if a.None? then None else Some((a.value, d))
  }

  /** Without a service the analysis stage either raises or fails at its input check, recording no analysis. */
  lemma AnalysisWithoutService(s: State, d: Disk, w: World)
    requires !w.serviceUp && s.analysis.None?
    ensures var a := AnalysisStep(s, d, w);
            a.None? || (IsFailed(a.value.0) && a.value.0.workflowStatus == Failed && a.value.0.analysis.None?)
  {
    if AnalysisStage.AnalysisAborts(s, d) {
      AnalysisStage.AnalysisAbortRule(s, d, w.analysis);
    }
  }

  function EnvStep(s: State, d: Disk, w: World): (r: (State, Disk))
    ensures Keeps(s, r.0)
  {
    (EnvStage.EnvStage(s, w.env.(disk := d), w.exec), d)
  }

  /** The generation stage raises (`None`) when no repository root was recorded. */
  function GenerateStep(s: State, d: Disk, w: World): (r: Option<(State, Disk)>)
    ensures r.None? <==> RepoRoot(s.repository).None?
    ensures r.Some? ==> Keeps(s, r.value.0)
  {
    var g := GenerateStage.GenerateStage(s, d, w.parse);
    if g.None? then None
    else
      GenerateStage.GenerateOutcome(s, d, w.parse);
      Some((g.value.state, g.value.disk))
  }

  function RunStep(s: State, d: Disk, w: World): (r: (State, Disk))
    ensures Keeps(s, r.0)
  {
    (RunStage.RunStage(s, d, w.condaExe, w.exec), d)
  }

  /**
   * Entered without a diagnosis, the review stage leaves either a failed
   * state or one without a diagnosis, and never marks success.  The
   * repair's reported outcome `w.fixed` marks a fix applied only when the
   * repair was attempted.
   */
  function ReviewStep(s: State, d: Disk, w: World): (r: (State, Disk))
    ensures s.errorAnalysis == NoDiagnosis ==> IsFailed(r.0) || r.0.errorAnalysis == NoDiagnosis
    ensures s.workflowStatus != Success ==> r.0.workflowStatus != Success
    ensures r.0.fixApplied && !s.fixApplied ==> w.fixed && Review.FixAttempted(s, w.serviceUp)
  {
    (Review.ReviewStage(s, d, w.serviceUp, w.fixed), d)
  }

  function FinalizeStep(s: State, d: Disk, w: World): (r: (State, Disk))
    ensures r.0.workflowStatus == Success ==> Passed(r.0.tests.plugin) && r.0.summary.Some?
  {
    Finalize.FinalizeOutcome(s, w.replies);
    (Finalize.FinalizeState(s, w.replies), Finalize.SavedReports(d, RepoRoot(s.repository)))
  }

  /** One stage: the state and disk it leaves, or `None` when it raises. */
  function Step(n: Node, s: State, d: Disk, w: World): Option<(State, Disk)>
  {
    match n
    case DownloadNode => Some(DownloadStep(s, d, w))
    case AnalysisNode => AnalysisStep(s, d, w)
    case EnvNode => Some(EnvStep(s, d, w))
    case GenerateNode => GenerateStep(s, d, w)
    case RunNode => Some(RunStep(s, d, w))
    case ReviewNode => Some(ReviewStep(s, d, w))
    case FinalizeNode => Some(FinalizeStep(s, d, w))
    case End => Some((s, d))
  }

  // ---------------------------------------------------------------------
  // Driving the graph

  /** How a run of the graph ends: at the end node, by an exception, or at the step limit. */
  datatype Outcome = Finished(state: State, disk: Disk) | StageRaised | OutOfSteps

  /** What running one node does to the state and the disk; `None` when the node raises. */
  type StepFn = (Node, State, Disk) -> Option<(State, Disk)>

  /** The stages of the pipeline, in the outside world `w`. */
  function StagesIn(w: World): StepFn
  {
    (n: Node, s: State, d: Disk) => Step(n, s, d, w)
  }

  /** The graph from node `n`, with at most `budget` more stages. */
  function RunFrom(n: Node, s: State, d: Disk, step: StepFn, budget: nat): Outcome
    decreases budget
  {
    if n == End then Finished(s, d)
    else if budget == 0 then OutOfSteps
    else
      match step(n, s, d)
      case None => StageRaised
      case Some(sd) =>
        var (t, next) := Route(n, sd.0);
        RunFrom(next, t, sd.1, step, budget - 1)
  }

  /** The driver's loop, one stage and one router per turn. */
  method Drive(n0: Node, s0: State, d0: Disk, step: StepFn, limit: nat) returns (r: Outcome)
    ensures r == RunFrom(n0, s0, d0, step, limit)
  {
    var n, s, d, budget := n0, s0, d0, limit;
    while n != End && budget > 0
      invariant RunFrom(n, s, d, step, budget) == RunFrom(n0, s0, d0, step, limit)
      decreases budget
    {
      var after := step(n, s, d);
      if after.None? {
        return StageRaised;
      }
      var (t, next) := Route(n, after.value.0);
      n, s, d, budget := next, t, after.value.1, budget - 1;
    }
    if n == End {
      r := Finished(s, d);
    } else {
      r := OutOfSteps;
    }
  }

  // ---------------------------------------------------------------------
  // `run_workflow`

  /** `repo_url.split("/")[-1].replace(".git", "")`: unlike the download stage, no trailing "/" is trimmed. */
  function InitialName(url: string): string
  {
    ReplaceAll(AfterLast(url, '/'), ".git", "")
  }

  /** The download stage ends up with the name derived from the address, whatever the initial name was. */
  lemma InitialNameSettled(url: string)
    ensures Download.RepoName(url, Some(InitialName(url))) == Download.NameFromUrl(url)
  {
    if |url| > 0 && url[|url| - 1] == '/' {
      assert AfterLast(url, '/') == "";
    } else {
      assert StripRight(url, {'/'}) == url;
    }
  }

  /** The state the graph starts from. */
  function InitialState(url: string, options: Options): (s: State)
    ensures s.status == Running && s.workflowStatus == Running
    ensures s.errors == [] && s.previousRunResults == [] && s.retryReasons == [] && s.generationRetryCount == 0
    ensures s.errorAnalysis == NoDiagnosis && s.repository.url == Some(url) && s.analysis.None?
  {
    State(Repository(Some(url), Some(InitialName(url)), None), options, Running, Running, [], [], 0, 0,
          NoDiagnosis, false, None, [], [], None, None, Tests(None, None), None, None, None, None, None)
  }

  /** What `run_workflow` returns. */
  datatype WorkflowResult = WorkflowResult(success: bool, state: Option<State>, message: string)

  /** The message of a run that reached the end without success: the state never carries an `error` key. */
  const FailureMessage: string := "Workflow failed: Unknown error"
  const SuccessMessage: string := "MCP service generated successfully"

  /**
   * `run_workflow`: success exactly when the final `workflow_status` is
   * "success"; an exception (including the step limit) gives no state.
   */
  function RunWorkflow(url: string, options: Options, d: Disk, w: World, limit: nat): (r: WorkflowResult)
    ensures r.success ==> r.state.Some? && r.state.value.workflowStatus == Success
    ensures r.state.None? ==> !r.success
  {
    match RunFrom(DownloadNode, InitialState(url, options), d, StagesIn(w), limit)
    case Finished(t, _) =>
      if t.workflowStatus == Success then WorkflowResult(true, Some(t), SuccessMessage)
      else WorkflowResult(false, Some(t), FailureMessage)
    case StageRaised => WorkflowResult(false, None, "Workflow exception")
    case OutOfSteps => WorkflowResult(false, None, "Workflow exception")
  }

  // ---------------------------------------------------------------------
  // The assembled pipeline runs straight through

  /** The order of the stages. */
  function Rank(n: Node): nat
  {
    match n
    case DownloadNode => 0
    case AnalysisNode => 1
    case EnvNode => 2
    case GenerateNode => 3
    case RunNode => 4
    case ReviewNode => 5
    case FinalizeNode => 6
    case End => 7
  }

  /** What holds of the state on entry to each stage. */
  predicate Entering(n: Node, s: State)
  {
    (Rank(n) <= 5 ==> s.errorAnalysis == NoDiagnosis)
    && (n != End ==> s.workflowStatus != Success)
    && (n == End && s.workflowStatus == Success ==> Passed(s.tests.plugin) && s.summary.Some?)
  }

  /** Each node is followed by a later one, and what holds on entry holds again. */
  ghost predicate GoesForward(step: StepFn)
  {
    forall n: Node, s: State, d: Disk ::
      n != End && Entering(n, s) && step(n, s, d).Some? ==> Forward(n, step(n, s, d).value.0)
  }

  /** The stages before the review keep what holds on entry and are followed by the next one or the end. */
  lemma EarlyStageForward(n: Node, s: State, t: State)
    requires Rank(n) <= 4 && Entering(n, s) && Keeps(s, t)
    ensures Forward(n, t)
  {
  }

  /** Entered without a diagnosis, the review stage is followed by the final stage or the end. */
  lemma ReviewForward(s: State, t: State)
    requires Entering(ReviewNode, s)
    requires IsFailed(t) || t.errorAnalysis == NoDiagnosis
    requires t.workflowStatus != Success
    ensures var (u, next) := RouteAfterReview(t);
            (next == FinalizeNode || next == End) && Entering(next, u)
  {
  }

  /** What a stage left, followed by its router, is a later node entered as it should be. */
  predicate Forward(n: Node, t: State)
  {
    Rank(Route(n, t).1) > Rank(n) && Entering(Route(n, t).1, Route(n, t).0)
  }

  /** One stage of the pipeline is followed by a later one, and what holds on entry holds again. */
  lemma NodeForward(n: Node, s: State, d: Disk, w: World)
    requires n != End && Entering(n, s) && Step(n, s, d, w).Some?
    ensures Forward(n, Step(n, s, d, w).value.0)
  {
    hide Download.DownloadStage, Download.DownloadDisk, AnalysisStage.Analyze, EnvStage.EnvStage, GenerateStage.GenerateStage,
         RunStage.RunStage, Review.ReviewStage, Finalize.FinalizeState, Finalize.SavedReports;
    match n
    case DownloadNode => EarlyStageForward(n, s, DownloadStep(s, d, w).0);
    case AnalysisNode => EarlyStageForward(n, s, AnalysisStep(s, d, w).value.0);
    case EnvNode => EarlyStageForward(n, s, EnvStep(s, d, w).0);
    case GenerateNode => EarlyStageForward(n, s, GenerateStep(s, d, w).value.0);
    case RunNode => EarlyStageForward(n, s, RunStep(s, d, w).0);
    case ReviewNode => ReviewForward(s, ReviewStep(s, d, w).0);
    case FinalizeNode =>
  }

  /** The pipeline's stages go forward: no node is ever visited twice. */
  lemma StagesGoForward(w: World)
    ensures GoesForward(StagesIn(w))
  {
    hide Download.DownloadStage, Download.DownloadDisk, AnalysisStage.Analyze, EnvStage.EnvStage, GenerateStage.GenerateStage,
         RunStage.RunStage, Review.ReviewStage, Finalize.FinalizeState, Finalize.SavedReports;
    forall n: Node, s: State, d: Disk | n != End && Entering(n, s) && StagesIn(w)(n, s, d).Some?
      ensures Forward(n, StagesIn(w)(n, s, d).value.0)
    {
      NodeForward(n, s, d, w);
    }
  }

  /** From any node, a pipeline that goes forward ends or raises within the nodes that remain. */
  lemma {:induction false} RunFromFinishes(n: Node, s: State, d: Disk, step: StepFn, budget: nat)
    requires GoesForward(step) && Entering(n, s) && budget >= 7 - Rank(n)
    ensures RunFrom(n, s, d, step, budget) != OutOfSteps
    ensures var r := RunFrom(n, s, d, step, budget);
            r.Finished? && r.state.workflowStatus == Success ==> Passed(r.state.tests.plugin) && r.state.summary.Some?
    decreases 7 - Rank(n)
  {
    if n != End {
      var after := step(n, s, d);
      if after.Some? {
        var (t, next) := Route(n, after.value.0);
        RunFromFinishes(next, t, after.value.1, step, budget - 1);
      }
    }
  }

  /**
   * Started on a fresh state, the graph visits each stage at most once: it
   * never needs more than seven steps, so a step limit of seven or more is
   * never reached; and it reports success only when the service's test
   * passed and the summary was written.
   */
  lemma PipelineRunsStraightThrough(url: string, options: Options, d: Disk, w: World, limit: nat)
    requires limit >= 7
    ensures RunFrom(DownloadNode, InitialState(url, options), d, StagesIn(w), limit) != OutOfSteps
    ensures var r := RunWorkflow(url, options, d, w, limit);
            r.success ==> Passed(r.state.value.tests.plugin) && r.state.value.summary.Some?
  {
    hide Download.DownloadStage, Download.DownloadDisk, AnalysisStage.Analyze, EnvStage.EnvStage, GenerateStage.GenerateStage,
         RunStage.RunStage, Review.ReviewStage, Finalize.FinalizeState, Finalize.SavedReports;
    StagesGoForward(w);
    RunFromFinishes(DownloadNode, InitialState(url, options), d, StagesIn(w), limit);
  }

  /**
   * Without a configured service no run gets past the analysis stage: the
   * graph raises there, or ends with a failed state after the download or at
   * the analysis' own input check.  The review stage is therefore only ever
   * entered with the service up.
   */
  lemma WithoutServiceNoPlugin(url: string, options: Options, d: Disk, w: World, limit: nat)
    requires !w.serviceUp && limit >= 2
    ensures var r := RunFrom(DownloadNode, InitialState(url, options), d, StagesIn(w), limit);
            r.StageRaised? || (r.Finished? && IsFailed(r.state) && r.state.workflowStatus != Success && r.state.analysis.None?)
    ensures !RunWorkflow(url, options, d, w, limit).success
  {
    var s0 := InitialState(url, options);
    var r := RunFrom(DownloadNode, s0, d, StagesIn(w), limit);
    hide *;
    NoServiceRun(s0, d, w, limit);
    NoServiceResult(url, options, d, w, limit, r);
  }

  /** From a state with no analysis, without a service, the graph raises or ends failed with none. */
  lemma NoServiceRun(s0: State, d: Disk, w: World, limit: nat)
    requires !w.serviceUp && limit >= 2 && s0.analysis.None? && s0.workflowStatus != Success
    ensures var r := RunFrom(DownloadNode, s0, d, StagesIn(w), limit);
            r.StageRaised? || (r.Finished? && IsFailed(r.state) && r.state.workflowStatus != Success && r.state.analysis.None?)
  {
    var step := StagesIn(w);
    var sd := DownloadStep(s0, d, w);
    hide Step, RunFrom, StagesIn, DownloadStep, AnalysisStep;
    RunFromStep(DownloadNode, s0, d, w, limit);
    RoutersStopOnFailure(DownloadNode, sd.0);
    if IsFailed(sd.0) {
      RunFromEnd(sd.0, sd.1, step, limit - 1);
    } else {
      AnalysisWithoutService(sd.0, sd.1, w);
      var a := AnalysisStep(sd.0, sd.1, w);
      RunFromStep(AnalysisNode, sd.0, sd.1, w, limit - 1);
      if a.Some? {
        RoutersStopOnFailure(AnalysisNode, a.value.0);
        RunFromEnd(a.value.0, a.value.1, step, limit - 2);
      }
    }
  }

  /** One turn of the graph, in the outside world `w`. */
  lemma RunFromStep(n: Node, s: State, d: Disk, w: World, budget: nat)
    requires n != End && budget > 0
    ensures Step(n, s, d, w).None? ==> RunFrom(n, s, d, StagesIn(w), budget) == StageRaised
    ensures Step(n, s, d, w).Some? ==>
              var sd := Step(n, s, d, w).value;
              RunFrom(n, s, d, StagesIn(w), budget) == RunFrom(Route(n, sd.0).1, Route(n, sd.0).0, sd.1, StagesIn(w), budget - 1)
    ensures n == DownloadNode ==> Step(n, s, d, w) == Some(DownloadStep(s, d, w))
    ensures n == AnalysisNode ==> Step(n, s, d, w) == AnalysisStep(s, d, w)
  {
    hide DownloadStep, AnalysisStep, EnvStep, GenerateStep, RunStep, ReviewStep, FinalizeStep, Route;
  }

  /** At the end node the graph has finished. */
  lemma RunFromEnd(s: State, d: Disk, step: StepFn, budget: nat)
    ensures RunFrom(End, s, d, step, budget) == Finished(s, d)
  {
  }

  /** What `run_workflow` reports for a run that raised or ended failed. */
  lemma NoServiceResult(url: string, options: Options, d: Disk, w: World, limit: nat, r: Outcome)
    requires r == RunFrom(DownloadNode, InitialState(url, options), d, StagesIn(w), limit)
    requires r.StageRaised? || (r.Finished? && r.state.workflowStatus != Success)
    ensures !RunWorkflow(url, options, d, w, limit).success
  {
    hide RunFrom, InitialState, StagesIn;
  }

  /** The driver as `run_workflow` uses it. */
  method RunWorkflowMethod(url: string, options: Options, d: Disk, w: World, limit: nat) returns (r: WorkflowResult)
    ensures r == RunWorkflow(url, options, d, w, limit)
  {
    hide Download.DownloadStage, Download.DownloadDisk, AnalysisStage.Analyze, EnvStage.EnvStage, GenerateStage.GenerateStage,
         RunStage.RunStage, Review.ReviewStage, Finalize.FinalizeState, Finalize.SavedReports;
    var outcome := Drive(DownloadNode, InitialState(url, options), d, StagesIn(w), limit);
    if outcome.Finished? {
      if outcome.state.workflowStatus == Success {
        r := WorkflowResult(true, Some(outcome.state), SuccessMessage);
      } else {
        r := WorkflowResult(false, Some(outcome.state), FailureMessage);
      }
    } else {
      r := WorkflowResult(false, None, "Workflow exception");
    }
  }
}
