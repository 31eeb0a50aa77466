/**
 * The generation and repair loop as a function of what its collaborators answer. Gates, suppliers, detectors and
 * prompt builders are opaque: they are the fields of a Controller. Everything that may answer differently when it
 * is asked again takes the attempt's index as its first argument.
 */
module Generation {
  import opened Prelude
  import opened Contribution

  type Draft = string
  type Prompt = string

  /** Findings, issues, deltas and the like, which the loop only passes on. */
  type Evidence = string

  datatype Worker = DraftSupplier | SmallWorker | Architect | Transform | Patch | BackendFailure
  {
    predicate Constrained() { Transform? || Patch? }
  }

  /** `repair_worker` of an attempt; `Escalated(w)` is "w->architect_llm". */
  datatype Route = NoRepair | By(worker: Worker) | Escalated(worker: Worker)

  datatype Mode = ModelOnly | DeterministicTransform | JsonPatch | ManualReview

  datatype Selected = Complete | Unrouted | ByMode(mode: Mode) | Routed(worker: Worker)

  datatype Static = Static(ok: bool, lintSkipped: bool, violations: Evidence)

  datatype Gate = Gate(ok: bool, issues: Evidence)

  datatype Report = Report(findings: Evidence, checks: Static, behavior: Gate, profiling: Gate, formal: Gate)
  {
    predicate Passed() { checks.ok && behavior.ok && profiling.ok && formal.ok }
  }

  datatype Attempt = Attempt(
    index: nat,
    draft: Draft,
    report: Report,
    deltas: Evidence,
    retryPrompt: Prompt,
    route: Route,
    repairError: bool,
    source: Worker,
    changed: bool,
    signature: string,
    diagnosticStagnant: bool,
    semanticStagnant: bool,
    selected: Selected,
    memos: seq<string>,
    branchState: Evidence,
    branchLoop: Option<string>,
    backendFailure: bool)

  datatype Trigger = DiagnosticStagnation | SemanticStagnation | NoProgressRepair

  datatype Strategy = Strategy(
    repeated: (Option<Evidence>, Report, Evidence) -> Mode,
    decide: (Draft, Report, nat, int) -> Mode)

  /** The prompt builders. */
  datatype Prompts = Prompts(
    history: Prompt -> Prompt,
    backendFailure: Prompt -> Prompt,
    scoped: (Draft, Report, Evidence, Worker, Prompt, seq<Attempt>) -> Prompt,
    escalation: (Draft, Report, Evidence, Prompt, seq<Attempt>) -> Prompt,
    withMemo: (Prompt, string) -> Prompt,
    differentAngle: Prompt -> Prompt,
    typedPatch: Prompt -> Prompt,
    instructed: (Prompt, Draft, Report, nat) -> Prompt,
    hinted: (Prompt, nat, Draft) -> Prompt)

  /** A supplier answers with a draft, or None when it raises. */
  type Supplier = (nat, Draft, Prompt) -> Option<Draft>

  datatype Controller = Controller(
    maxRetries: int,
    scan: (nat, Draft) -> Evidence,
    policy: (Evidence, bool) -> Static,
    behavior: Option<(nat, Draft) -> Gate>,
    profiler: Option<(nat, Draft) -> Gate>,
    canExecute: Draft -> bool,
    formal: (nat, Draft) -> Gate,
    deltasBetween: (Option<Attempt>, Report) -> Evidence,
    deltasStagnant: Evidence -> bool,
    topViolation: Report -> Option<Evidence>,
    failureSignature: Evidence -> string,
    smallEdit: (Draft, Draft) -> bool,
    scopeAmbiguous: Report -> bool,
    branchStateOf: Attempt -> Evidence,
    branchingLoop: seq<Attempt> -> Option<string>,
    strategy: Option<Strategy>,
    prompts: Prompts,
    draftSupplier: Prompt -> Option<Draft>,
    small: Supplier,
    architect: Option<Supplier>,
    architectAfter: Option<int>,
    architectRetry: bool,
    transform: (Draft, Evidence) -> Option<Draft>,
    firstViolation: Static -> Option<Evidence>,
    applyPatch: (Draft, Draft) -> Option<Draft>,
    peer: Option<(nat, Trigger, Draft) -> Option<string>>,
    peerLimit: nat,
    schedule: Option<WeightedSchedule>)

  datatype Reason =
    | Validated
    | LintSkipped
    | MetricScopeAmbiguous
    | ArchitectAfterBackendFailureStatic
    | ArchitectStatic
    | ConstrainedValidationFailed
    | StrategyManualReview
    | BranchLoop(kind: string)
    | RepairSupplierError
    | PatchFailed
    | StagnantRepair
    | ArchitectStagnant
    | MaxRetriesExhausted
    | InitialBackendFailure
    | ArchitectAfterBackendFailureFailed

  /** The human review payload is made from one attempt. */
  datatype Review = Review(reason: Reason, attempt: Attempt)

  datatype Session = Session(
    attempts: seq<Attempt>,
    completed: bool,
    termination: Option<Reason>,
    review: Option<Review>)

  datatype Phase = AttemptRecorded | ReadyToValidate | Terminal

  datatype Checkpoint = Checkpoint(
    phase: Phase,
    session: Session,
    draft: Draft,
    previous: Draft,
    source: Worker,
    next: nat,
    retryUsed: bool)

  /** The loop's variables, with what the controller object carries from call to call. */
  datatype State = State(
    attempts: seq<Attempt>,
    failed: seq<Attempt>,
    draft: Draft,
    previous: Draft,
    source: Worker,
    retryUsed: bool,
    consulted: nat,
    scheduled: seq<Provider>)

  /** The session as it stands while the loop runs. */
  function Open(attempts: seq<Attempt>): Session { Session(attempts, false, None, None) }

  function CheckpointOf(phase: Phase, session: Session, s: State, next: nat, retryUsed: bool): Checkpoint {
    Checkpoint(phase, session, s.draft, s.previous, s.source, next, retryUsed)
  }

  // ---------------------------------------------------------------- the four gates

  /** A compliant behaviour run lets the policy demote structural findings; the profiler runs only on what passed. */
  function Gates(c: Controller, t: nat, draft: Draft): Report {
    var findings := c.scan(t, draft);
    var behavior := if c.behavior.Some? then c.behavior.value(t, draft) else Gate(true, "");
    var checks := c.policy(findings, c.behavior.Some? && behavior.ok);
    var profiling :=
      if c.profiler.Some? && checks.ok && behavior.ok && c.canExecute(draft) then c.profiler.value(t, draft)
      else Gate(true, "");
    Report(findings, checks, behavior, profiling, c.formal(t, draft))
  }

  // ---------------------------------------------------------------- what the attempt shows

  datatype Diagnosis = Diagnosis(
    deltas: Evidence,
    stagnant: bool,
    primary: Option<Evidence>,
    signature: string,
    semantic: bool)

  function LastSignature(attempts: seq<Attempt>): string {
    if attempts == [] then "" else attempts[|attempts| - 1].signature
  }

  function Diagnose(c: Controller, s: State, t: nat, report: Report): Diagnosis {
    var deltas := c.deltasBetween(if s.failed == [] then None else Some(s.failed[|s.failed| - 1]), report);
    var primary := c.topViolation(report);
    var signature := if primary.Some? then c.failureSignature(primary.value) else "";
    var semantic :=
      t > 0 && signature != "" && signature == LastSignature(s.attempts) && c.smallEdit(s.previous, s.draft);
    Diagnosis(deltas, c.deltasStagnant(deltas), primary, signature, semantic)
  }

  // ---------------------------------------------------------------- whether and how to repair

  /** A failed architect draft that may have its one retry. */
  predicate GrantsRetry(c: Controller, s: State, t: nat, report: Report) {
    && !report.Passed() && s.source.Architect? && !report.checks.ok
    && c.architectRetry && !s.retryUsed && t < c.maxRetries
  }

  /** Why no repair may be tried after this attempt, before the strategy is asked. */
  function Forced(c: Controller, s: State, t: nat, report: Report): Option<Reason> {
    if !report.Passed() && s.source.Constrained() && c.architect.None? then Some(ConstrainedValidationFailed)
    else if !report.Passed() && s.source.Architect? && !report.checks.ok && !GrantsRetry(c, s, t, report) then
      Some(if c.scopeAmbiguous(report) then MetricScopeAmbiguous
           else if s.failed != [] && s.failed[0].backendFailure then ArchitectAfterBackendFailureStatic
           else ArchitectStatic)
    else if report.checks.lintSkipped then Some(LintSkipped)
    else None
  }

  predicate MayRoute(c: Controller, s: State, t: nat) {
    t < c.maxRetries || (s.source.Constrained() && c.architect.Some?)
  }

  /** `_repair_worker_for`. */
  function WorkerFor(c: Controller, repairs: nat): Worker {
    if c.architect.Some? && c.architectAfter.Some? && repairs >= c.architectAfter.value then Architect else SmallWorker
  }

  /** `_request_peer_consultation`: None also when the peer raises or its answer is not advisory. */
  function Consult(c: Controller, consulted: nat, t: nat, trigger: Trigger, draft: Draft): Option<string> {
    if c.peer.None? || consulted >= c.peerLimit then None else c.peer.value(t, trigger, draft)
  }

  datatype Routing = Routing(
    worker: Worker,
    prompt: Prompt,
    memo: Option<string>,
    selected: Selected,
    forced: Option<Reason>)

  /** The mode the strategy gives a failure that repeats itself, when it is asked. */
  function RepeatedMode(c: Controller, s: State, report: Report, d: Diagnosis, worker: Worker): Option<Mode> {
    if d.semantic && worker.SmallWorker? && c.strategy.Some? then
      Some(c.strategy.value.repeated(d.primary, report, d.deltas))
    else None
  }

  function BaseWorker(c: Controller, s: State, d: Diagnosis): Worker {
    if s.source.Constrained() then Architect
    else
      var worker := WorkerFor(c, |s.failed|);
      if d.stagnant && worker.SmallWorker? && c.architect.Some? then Architect else worker
  }

  function ModeWorker(mode: Option<Mode>, worker: Worker): Worker {
    if mode == Some(DeterministicTransform) then Transform
    else if mode == Some(JsonPatch) then Patch
    else worker
  }

  function ModeSelected(mode: Option<Mode>, worker: Worker): Selected {
    if mode.None? || mode == Some(ManualReview) then Routed(worker) else ByMode(mode.value)
  }

  function RouteRepair(c: Controller, prompt: Prompt, s: State, t: nat, report: Report, d: Diagnosis): Routing {
    var base := BaseWorker(c, s, d);
    var mode := RepeatedMode(c, s, report, d, base);
    var worker := ModeWorker(mode, base);
    var scoped := c.prompts.scoped(s.draft, report, d.deltas, if worker.Constrained() then SmallWorker else worker,
                                   prompt, s.failed);
    var trigger := if d.stagnant then DiagnosticStagnation else SemanticStagnation;
    var memo := if (d.stagnant || d.semantic) && worker.SmallWorker? then Consult(c, s.consulted, t, trigger, s.draft)
                else None;
    var advised := if memo.Some? then c.prompts.withMemo(scoped, memo.value) else scoped;
    var angled := if worker.Architect? && (d.stagnant || d.semantic || s.source.Constrained())
                  then c.prompts.differentAngle(advised) else advised;
    var typed := if mode == Some(JsonPatch) then c.prompts.typedPatch(angled) else angled;
    var instructed := if c.strategy.Some? && !worker.SmallWorker? then c.prompts.instructed(typed, s.draft, report, t)
                      else typed;
    var final := if worker.SmallWorker? then instructed else c.prompts.hinted(instructed, t, s.draft);
    var manual := c.strategy.Some? && c.strategy.value.decide(s.draft, report, t, c.maxRetries) == ManualReview;
    Routing(worker, final, memo, ModeSelected(mode, worker), if manual then Some(StrategyManualReview) else None)
  }

  predicate Routes(c: Controller, s: State, t: nat, report: Report) {
    Forced(c, s, t, report).None? && !report.Passed() && MayRoute(c, s, t)
  }

  /** What the attempt records; `routing` is there exactly when a repair was routed. */
  function Recorded(c: Controller, s: State, t: nat, report: Report, d: Diagnosis, routing: Option<Routing>): Attempt {
    var memos := if routing.Some? && routing.value.memo.Some? then [routing.value.memo.value] else [];
    var a := Attempt(
      t, s.draft, report, d.deltas,
      if routing.Some? then routing.value.prompt else "",
      if routing.Some? then By(routing.value.worker) else NoRepair,
      false, s.source, t == 0 || s.previous != s.draft, d.signature, d.stagnant, d.semantic,
      if report.Passed() then Complete else if routing.Some? then routing.value.selected else Unrouted,
      memos, "", None, false);
    a.(branchState := c.branchStateOf(a))
  }

  // ---------------------------------------------------------------- calling the repair worker

  /** What one iteration ends with. */
  datatype Outcome =
    | Continue(next: State)
    | Stop(session: Session, consulted: nat, scheduled: seq<Provider>)

  function Manual(attempts: seq<Attempt>, a: Attempt, reason: Reason): Session {
    Session(attempts + [a], false, Some(reason), Some(Review(reason, a)))
  }

  function GiveUp(s: State, a: Attempt, reason: Reason): Outcome {
    Stop(Manual(s.attempts, a, reason), s.consulted, s.scheduled)
  }

  /** The next iteration validates a new draft; the attempt joins the session and the failures alike. */
  function Retry(s: State, a: Attempt, draft: Draft, source: Worker): Outcome {
    Continue(s.(attempts := s.attempts + [a], failed := s.failed + [a], draft := draft, previous := s.draft,
                source := source))
  }

  datatype Reply = Drafted(draft: Draft, worker: Worker) | ConstrainedError | SupplierError

  /** `_weighted_repair` gives its call to the scheduled provider and records it when the call returns. */
  function WeightedRepair(c: Controller, w: WeightedSchedule, t: nat, draft: Draft, prompt: Prompt,
                          scheduled: seq<Provider>): (Reply, seq<Provider>)
  {
    var provider := w.ProviderAt(|scheduled|);
    var reply := match provider
      case Qwen => c.small(t, draft, prompt)
      case Api => if c.architect.None? then None else c.architect.value(t, draft, prompt);
    if reply.None? then (SupplierError, scheduled)
    else (Drafted(reply.value, if provider.Qwen? then SmallWorker else Architect), scheduled + [provider])
  }

  function OrSupplierError(reply: Option<Draft>, worker: Worker): Reply {
    if reply.None? then SupplierError else Drafted(reply.value, worker)
  }

  function CallWorker(c: Controller, t: nat, draft: Draft, prompt: Prompt, worker: Worker, primary: Option<Evidence>,
                      scheduled: seq<Provider>): (Reply, seq<Provider>)
  {
    match worker
    case Transform =>
      var made := if primary.None? then None else c.transform(draft, primary.value);
      (if made.None? then ConstrainedError else Drafted(made.value, Transform), scheduled)
    case Patch =>
      var reply := c.small(t, draft, prompt);
      var made := if reply.None? then None else c.applyPatch(draft, reply.value);
      (if made.None? then ConstrainedError else Drafted(made.value, Patch), scheduled)
    case Architect =>
      (OrSupplierError(if c.architect.None? then None else c.architect.value(t, draft, prompt), Architect), scheduled)
    case _ =>
      if c.schedule.Some? then WeightedRepair(c, c.schedule.value, t, draft, prompt, scheduled)
      else (OrSupplierError(c.small(t, draft, prompt), SmallWorker), scheduled)
  }

  /** A constrained repair that could not be made goes to the architect once. */
  function AfterConstrainedError(c: Controller, prompt: Prompt, s: State, t: nat, a: Attempt, worker: Worker): Outcome {
    var failed := a.(repairError := true);
    if c.architect.None? then GiveUp(s, failed, PatchFailed)
    else
      var escalated := failed.(route := Escalated(worker));
      var asked := c.prompts.differentAngle(
        c.prompts.scoped(s.draft, a.report, a.deltas, Architect, prompt, s.failed + [escalated]));
      var final := escalated.(retryPrompt := asked);
      var reply := c.architect.value(t, s.draft, asked);
      if reply.None? || reply.value == s.draft then GiveUp(s, final, PatchFailed)
      else Retry(s, final, reply.value, Architect)
  }

  /** A repair that changed nothing, or kept repeating its diagnostics, and had no advice. */
  function AfterStagnation(c: Controller, prompt: Prompt, s: State, t: nat, a: Attempt, worker: Worker): Outcome {
    if worker.Architect? then GiveUp(s, a, ArchitectStagnant)
    else if WorkerFor(c, |s.failed| + 1) != Architect then GiveUp(s, a, StagnantRepair)
    else
      var escalated := a.(route := Escalated(SmallWorker));
      var asked := c.prompts.differentAngle(
        c.prompts.escalation(s.draft, a.report, a.deltas, prompt, s.failed + [escalated]));
      var final := escalated.(retryPrompt := asked);
      var reply := c.architect.value(t, s.draft, asked);
      if reply.None? then GiveUp(s, final.(repairError := true), RepairSupplierError)
      else if reply.value == s.draft then GiveUp(s, final, ArchitectStagnant)
      else Retry(s, final, reply.value, Architect)
  }

  /** The advised second call of a worker that made no progress; advice also waives the stagnation exits. */
  function AfterAdvice(c: Controller, s: State, t: nat, a: Attempt, memo: string): Outcome {
    var asked := c.prompts.withMemo(a.retryPrompt, memo);
    var advised := a.(retryPrompt := asked, memos := [memo]);
    var told := s.(consulted := s.consulted + 1);
    var reply := c.small(t, s.draft, asked);
    if reply.None? then GiveUp(told, advised.(repairError := true), RepairSupplierError)
    else Retry(told, advised, reply.value, SmallWorker)
  }

  function AfterReply(c: Controller, prompt: Prompt, s: State, t: nat, a: Attempt, draft: Draft,
                      worker: Worker): Outcome {
    var stuck := draft == s.draft || (a.diagnosticStagnant && !worker.Architect?);
    var memo := if stuck && worker.SmallWorker? && a.memos == []
                then Consult(c, s.consulted, t, NoProgressRepair, s.draft)
                else None;
    if memo.Some? then AfterAdvice(c, s, t, a, memo.value)
    else if stuck && !worker.Constrained() && a.memos == [] then AfterStagnation(c, prompt, s, t, a, worker)
    else Retry(s, a, draft, worker)
  }

  function Repair(c: Controller, prompt: Prompt, s: State, t: nat, a: Attempt, worker: Worker,
                  primary: Option<Evidence>)
    : Outcome
  {
    var (reply, scheduled) := CallWorker(c, t, s.draft, a.retryPrompt, worker, primary, s.scheduled);
    var called := s.(scheduled := scheduled);
    match reply
    case ConstrainedError => AfterConstrainedError(c, prompt, called, t, a, worker)
    case SupplierError => GiveUp(called, a.(repairError := true, route := By(worker)), RepairSupplierError)
    case Drafted(draft, author) => AfterReply(c, prompt, called, t, a.(route := By(author)), draft, author)
  }

  // ---------------------------------------------------------------- one iteration, and the run

  /** The attempt as first recorded, the state with the retry flag and consultations up to date, and the routing. */
  datatype Judged = Judged(attempt: Attempt, state: State, forced: Option<Reason>, routing: Option<Routing>)

  function Judge(c: Controller, prompt: Prompt, s: State, t: nat): Judged {
    var report := Gates(c, t, s.draft);
    var d := Diagnose(c, s, t, report);
    var routing := if Routes(c, s, t, report) then Some(RouteRepair(c, prompt, s, t, report, d)) else None;
    var advised := routing.Some? && routing.value.memo.Some?;
    Judged(
      Recorded(c, s, t, report, d, routing),
      s.(retryUsed := s.retryUsed || GrantsRetry(c, s, t, report),
         consulted := s.consulted + (if advised then 1 else 0)),
      if routing.Some? then routing.value.forced else Forced(c, s, t, report),
      routing)
  }

  /** The loop detector is asked unless review is forced or the repair is constrained. */
  function LoopFound(c: Controller, j: Judged): Option<string> {
    if j.forced.Some? || (j.routing.Some? && j.routing.value.worker.Constrained()) then None
    else c.branchingLoop(j.state.attempts + [j.attempt])
  }

  function Decide(c: Controller, prompt: Prompt, t: nat, j: Judged): Outcome {
    var loop := LoopFound(c, j);
    if j.attempt.report.Passed() then
      Stop(Session(j.state.attempts + [j.attempt], true, Some(Validated), None), j.state.consulted, j.state.scheduled)
    else if loop.Some? then GiveUp(j.state, j.attempt.(branchLoop := loop), BranchLoop(loop.value))
    else if j.forced.Some? then GiveUp(j.state, j.attempt, j.forced.value)
    else if j.routing.None? then GiveUp(j.state, j.attempt, MaxRetriesExhausted)
    else
      Repair(c, prompt, j.state, t, j.attempt, j.routing.value.worker, c.topViolation(j.attempt.report))
  }

  /** The result of a run: its session, the checkpoints written, and what the controller keeps. */
  datatype Run = Run(session: Session, log: seq<Checkpoint>, consulted: nat, scheduled: seq<Provider>)

  /** The session when the loop runs out of indexes. */
  function OutOfAttempts(attempts: seq<Attempt>): Session {
    if attempts == [] then Open(attempts)
    else
      Session(attempts, false, Some(MaxRetriesExhausted),
              Some(Review(MaxRetriesExhausted, attempts[|attempts| - 1])))
  }

  function Recording(j: Judged, t: nat): Checkpoint {
    CheckpointOf(AttemptRecorded, Open(j.state.attempts + [j.attempt]), j.state, t + 1, j.state.retryUsed)
  }

  /** A completed run writes its terminal checkpoint twice: on leaving the loop, and at the end like every run. */
  function Ending(session: Session, s: State, t: nat): seq<Checkpoint> {
    (if session.completed then [CheckpointOf(Terminal, session, s, t + 1, s.retryUsed)] else [])
    + [CheckpointOf(Terminal, session, s, |session.attempts|, s.retryUsed)]
  }

  function Ready(next: State, t: nat): Checkpoint {
    CheckpointOf(ReadyToValidate, Open(next.attempts), next, t + 1, next.retryUsed)
  }

  function RunFrom(c: Controller, prompt: Prompt, s: State, t: nat): Run
    decreases c.maxRetries + 2 - t
  {
    if t >= c.maxRetries + 2 then
      Run(OutOfAttempts(s.attempts), Ending(OutOfAttempts(s.attempts), s, t), s.consulted, s.scheduled)
    else
      var j := Judge(c, prompt, s, t);
      match Decide(c, prompt, t, j)
      case Stop(session, consulted, scheduled) =>
        Run(session, [Recording(j, t)] + Ending(session, j.state, t), consulted, scheduled)
      case Continue(next) =>
        var rest := RunFrom(c, prompt, next, t + 1);
        rest.(log := [Recording(j, t), Ready(next, t)] + rest.log)
  }

  // ---------------------------------------------------------------- starting and resuming

  /** The attempt that stands for a small worker that failed before any draft. */
  function BackendAttempt(c: Controller, prompt: Prompt, route: Route, error: bool): Attempt {
    var report := Report("", Static(false, false, prompt), Gate(true, ""), Gate(true, ""), Gate(true, ""));
    var a := Attempt(0, "", report, "", c.prompts.backendFailure(prompt), route, error, BackendFailure, false, "",
                     false, false, Unrouted, [], "", None, true);
    a.(branchState := c.branchStateOf(a))
  }

  /** `_weighted_initial_draft`. */
  function InitialDraft(c: Controller, prompt: Prompt, scheduled: seq<Provider>)
    : (Option<(Draft, Worker)>, seq<Provider>)
  {
    if c.schedule.None? then
      var made := c.draftSupplier(prompt);
      (if made.None? then None else Some((made.value, DraftSupplier)), scheduled)
    else
      var provider := c.schedule.value.ProviderAt(|scheduled|);
      var made := match provider
        case Qwen => c.draftSupplier(prompt)
        case Api => if c.architect.None? then None else c.architect.value(0, "", prompt);
      if made.None? then (None, scheduled)
      else (Some((made.value, if provider.Qwen? then SmallWorker else Architect)), scheduled + [provider])
  }

  function Fresh(attempts: seq<Attempt>, draft: Draft, source: Worker, scheduled: seq<Provider>): State {
    State(attempts, attempts, draft, "", source, false, 0, scheduled)
  }

  /** How a run enters the loop, with the prompt it repairs under; or the session of one that never does. */
  datatype Launch = Enters(prompt: Prompt, state: State) | Ends(session: Session, scheduled: seq<Provider>)

  function LaunchOf(c: Controller, request: Prompt, scheduled: seq<Provider>): Launch {
    var prompt := c.prompts.history(request);
    var (made, recorded) := InitialDraft(c, prompt, scheduled);
    if made.Some? then Enters(prompt, Fresh([], made.value.0, made.value.1, recorded))
    else
      var retry := c.prompts.backendFailure(prompt);
      if c.architect.None? then
        var a := BackendAttempt(c, prompt, NoRepair, false);
        Ends(Session([a], false, None, Some(Review(InitialBackendFailure, a))), recorded)
      else
        var reply := c.architect.value(0, "", retry);
        if reply.None? then
          var a := BackendAttempt(c, prompt, By(Architect), true);
          Ends(Session([a], false, None, Some(Review(ArchitectAfterBackendFailureFailed, a))), recorded)
        else
          Enters(c.prompts.history(retry),
                 Fresh([BackendAttempt(c, prompt, By(Architect), false)], reply.value, Architect, recorded))
  }

  /** `run` on a request, for a controller that has recorded these calls. */
  function Generate(c: Controller, request: Prompt, scheduled: seq<Provider>): Run {
    match LaunchOf(c, request, scheduled)
    case Enters(prompt, s) => RunFrom(c, prompt, s, |s.attempts|)
    case Ends(session, recorded) => Run(session, [], 0, recorded)
  }

  datatype ResumeError = NoDraft | RepairFailed

  /** `_resume_attempt_draft`: the repair the recorded attempt was about to make. */
  function ResumeDraft(c: Controller, a: Attempt): Option<(Draft, Worker)>
    requires !a.route.NoRepair?
  {
    if a.route == By(Transform) then
      var violation := c.firstViolation(a.report.checks);
      Sourced(if violation.None? then None else c.transform(a.draft, violation.value), Transform)
    else if a.route == By(Patch) then
      var reply := c.small(a.index, a.draft, a.retryPrompt);
      Sourced(if reply.None? then None else c.applyPatch(a.draft, reply.value), Patch)
    else if a.route.Escalated? || a.route.worker.Architect? then
      Sourced(if c.architect.None? then None else c.architect.value(a.index, a.draft, a.retryPrompt), Architect)
    else
      Sourced(c.small(a.index, a.draft, a.retryPrompt), SmallWorker)
  }

  function Sourced(made: Option<Draft>, source: Worker): Option<(Draft, Worker)> {
    if made.None? then None else Some((made.value, source))
  }

  function ResumeAt(c: Controller, prompt: Prompt, attempts: seq<Attempt>, draft: Draft, previous: Draft,
                    source: Worker, retryUsed: bool, next: nat, scheduled: seq<Provider>): Result<Run, ResumeError>
  {
    if draft == "" then Failure(NoDraft)
    else Success(RunFrom(c, prompt, State(attempts, attempts, draft, previous, source, retryUsed, 0, scheduled), next))
  }

  /** `run` with `resume_from`, on a checkpoint as a run writes it. */
  function Resume(c: Controller, prompt: Prompt, cp: Checkpoint, scheduled: seq<Provider>): Result<Run, ResumeError>
    requires cp.phase.Terminal? || cp.session == Open(cp.session.attempts)
  {
    var attempts := cp.session.attempts;
    if cp.phase.Terminal? then Success(Run(cp.session, [], 0, scheduled))
    else if cp.phase.AttemptRecorded? && attempts != [] then
      var last := attempts[|attempts| - 1];
      var session :=
        if last.selected.Complete? then Session(attempts, true, Some(Validated), None)
        else Session(attempts, false, Some(StrategyManualReview), Some(Review(StrategyManualReview, last)));
      if last.selected.Complete? || last.route.NoRepair? then
        var final := Checkpoint(Terminal, session, last.draft, cp.previous, cp.source, |attempts|, cp.retryUsed);
        Success(Run(session, [final], 0, scheduled))
      else
        var made := ResumeDraft(c, last);
        if made.None? then Failure(RepairFailed)
        else
          ResumeAt(c, prompt, attempts, made.value.0, last.draft, made.value.1, cp.retryUsed, cp.next, scheduled)
    else
      ResumeAt(c, prompt, attempts, cp.draft, cp.previous, cp.source, cp.retryUsed, cp.next, scheduled)
  }
}
