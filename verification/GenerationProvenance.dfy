/** Where the drafts of a run come from, and what the reasons it stops for mean. */
module GenerationProvenance {
  import opened Prelude
  import opened Contribution
  import opened Generation
  import opened GenerationRuns

  // ---- who made a draft ----

  /** What the named worker answered when it was asked to repair the attempt. */
  predicate AnsweredBy(c: Controller, a: Attempt, worker: Worker, draft: Draft) {
    match worker
    case SmallWorker => c.small(a.index, a.draft, a.retryPrompt) == Some(draft)
    case Architect => c.architect.Some? && c.architect.value(a.index, a.draft, a.retryPrompt) == Some(draft)
    case Transform =>
      var violation := c.topViolation(a.report);
      violation.Some? && c.transform(a.draft, violation.value) == Some(draft)
    case Patch =>
      var reply := c.small(a.index, a.draft, a.retryPrompt);
      reply.Some? && c.applyPatch(a.draft, reply.value) == Some(draft)
    case _ => false
  }

  /** The worker named by the route, or the architect after an escalation. */
  predicate RouteFits(a: Attempt, worker: Worker) {
    a.route == By(worker) || (a.route.Escalated? && worker.Architect?)
  }

  /**
   * The run does not go on with the draft it had: not after an escalation, and otherwise only with advice or after a
   * constrained repair; nor with a small worker's whose diagnostics stagnated.
   */
  predicate Progressed(a: Attempt, draft: Draft) {
    && (a.route.Escalated? ==> draft != a.draft)
    && (a.route.By? && !a.route.worker.Constrained() && a.memos == [] ==>
          draft != a.draft && (a.route.worker.Architect? || !a.diagnosticStagnant))
  }

  /** The attempts show the same draft with the same findings; routing and prompts may differ. */
  predicate SameSight(a: Attempt, b: Attempt) {
    && SameVerdict(a, b) && a.changed == b.changed && a.signature == b.signature && a.deltas == b.deltas
    && a.diagnosticStagnant == b.diagnosticStagnant && a.semanticStagnant == b.semanticStagnant
  }

  /** One iteration: it ends on the attempt, or goes on with a draft the attempt's route accounts for. */
  predicate Traces(c: Controller, s: State, a: Attempt, o: Outcome) {
    var n := |s.attempts|;
    match o
    case Stop(session, _, _) =>
      |session.attempts| == n + 1 && session.attempts[..n] == s.attempts && SameSight(session.attempts[n], a)
    case Continue(next) =>
      && |next.attempts| == n + 1 && next.attempts[..n] == s.attempts && SameSight(next.attempts[n], a)
      && next.failed == s.failed + [next.attempts[n]] && next.previous == a.draft
      && AnsweredBy(c, next.attempts[n], next.source, next.draft) && RouteFits(next.attempts[n], next.source)
      && Progressed(next.attempts[n], next.draft)
  }

  lemma GiveUpTraces(c: Controller, s: State, a: Attempt, b: Attempt, reason: Reason)
    requires SameSight(b, a)
    ensures Traces(c, s, a, GiveUp(s, b, reason))
  {
  }

  lemma RetryTraces(c: Controller, s: State, a: Attempt, b: Attempt, draft: Draft, worker: Worker)
    requires SameSight(b, a) && s.draft == a.draft
    requires AnsweredBy(c, b, worker, draft) && RouteFits(b, worker) && Progressed(b, draft)
    ensures Traces(c, s, a, Retry(s, b, draft, worker))
  {
    hide AnsweredBy, RouteFits, Progressed;
  }

  lemma ConstrainedErrorTraces(c: Controller, prompt: Prompt, s: State, t: nat, a: Attempt, worker: Worker)
    requires a.index == t && a.draft == s.draft
    ensures Traces(c, s, a, AfterConstrainedError(c, prompt, s, t, a, worker))
  {
    var failed := a.(repairError := true);
    if c.architect.None? {
      GiveUpTraces(c, s, a, failed, PatchFailed);
    } else {
      var escalated := failed.(route := Escalated(worker));
      var asked := c.prompts.differentAngle(
        c.prompts.scoped(s.draft, a.report, a.deltas, Architect, prompt, s.failed + [escalated]));
      var final := escalated.(retryPrompt := asked);
      var reply := c.architect.value(t, s.draft, asked);
      GiveUpTraces(c, s, a, final, PatchFailed);
      if reply.Some? && reply.value != s.draft { RetryTraces(c, s, a, final, reply.value, Architect); }
    }
    hide Traces, GiveUp, Retry;
  }

  lemma StagnationTraces(c: Controller, prompt: Prompt, s: State, t: nat, a: Attempt, worker: Worker)
    requires a.index == t && a.draft == s.draft
    ensures Traces(c, s, a, AfterStagnation(c, prompt, s, t, a, worker))
  {
    GiveUpTraces(c, s, a, a, ArchitectStagnant);
    GiveUpTraces(c, s, a, a, StagnantRepair);
    var escalated := a.(route := Escalated(SmallWorker));
    var asked := c.prompts.differentAngle(
      c.prompts.escalation(s.draft, a.report, a.deltas, prompt, s.failed + [escalated]));
    var final := escalated.(retryPrompt := asked);
    GiveUpTraces(c, s, a, final.(repairError := true), RepairSupplierError);
    GiveUpTraces(c, s, a, final, ArchitectStagnant);
    if WorkerFor(c, |s.failed| + 1).Architect? {
      var reply := c.architect.value(t, s.draft, asked);
      if reply.Some? && reply.value != s.draft { RetryTraces(c, s, a, final, reply.value, Architect); }
    }
    hide Traces, GiveUp, Retry;
  }

  lemma AdviceTraces(c: Controller, s: State, t: nat, a: Attempt, memo: string)
    requires a.index == t && a.draft == s.draft && a.route == By(SmallWorker)
    ensures Traces(c, s, a, AfterAdvice(c, s, t, a, memo))
  {
    var asked := c.prompts.withMemo(a.retryPrompt, memo);
    var advised := a.(retryPrompt := asked, memos := [memo]);
    var told := s.(consulted := s.consulted + 1);
    var reply := c.small(t, s.draft, asked);
    GiveUpTraces(c, told, a, advised.(repairError := true), RepairSupplierError);
    if reply.Some? { RetryTraces(c, told, a, advised, reply.value, SmallWorker); }
    SameTraces(c, s, told, a, AfterAdvice(c, s, t, a, memo));
    hide Traces, GiveUp, Retry;
  }

  lemma SameTraces(c: Controller, s: State, told: State, a: Attempt, o: Outcome)
    requires s.attempts == told.attempts && s.failed == told.failed
    ensures Traces(c, s, a, o) <==> Traces(c, told, a, o)
  {
    hide AnsweredBy, RouteFits, SameSight, Progressed;
  }

  lemma ReplyTraces(c: Controller, prompt: Prompt, s: State, t: nat, a: Attempt, draft: Draft, worker: Worker)
    requires a.index == t && a.draft == s.draft && a.route == By(worker) && AnsweredBy(c, a, worker, draft)
    ensures Traces(c, s, a, AfterReply(c, prompt, s, t, a, draft, worker))
  {
    StagnationTraces(c, prompt, s, t, a, worker);
    if Progressed(a, draft) { RetryTraces(c, s, a, a, draft, worker); }
    var memo := if worker.SmallWorker? then Consult(c, s.consulted, t, NoProgressRepair, s.draft) else None;
    if memo.Some? { AdviceTraces(c, s, t, a, memo.value); }
    hide Traces, AfterStagnation, AfterAdvice, Retry, Consult, AnsweredBy;
  }

  /** A worker's reply is its own answer; under a split it is that of the provider whose turn it is. */
  lemma CallAnswers(c: Controller, t: nat, a: Attempt, worker: Worker, scheduled: seq<Provider>)
    requires a.index == t && (worker.SmallWorker? || worker.Architect? || worker.Constrained())
    ensures
      var (reply, recorded) := CallWorker(c, t, a.draft, a.retryPrompt, worker, c.topViolation(a.report), scheduled);
      && (reply.Drafted? ==> AnsweredBy(c, a, reply.worker, reply.draft))
      && (reply.Drafted? && (c.schedule.None? || !worker.SmallWorker?) ==>
            reply.worker == worker && recorded == scheduled)
      && (reply.Drafted? && c.schedule.Some? && worker.SmallWorker? ==>
            var provider := c.schedule.value.ProviderAt(|scheduled|);
            && reply.worker == (if provider.Api? then Architect else SmallWorker)
            && recorded == scheduled + [provider])
      && (!reply.Drafted? ==> recorded == scheduled)
  {
  }

  lemma RepairTraces(c: Controller, prompt: Prompt, s: State, t: nat, a: Attempt, worker: Worker)
    requires a.index == t && a.draft == s.draft && (worker.SmallWorker? || worker.Architect? || worker.Constrained())
    ensures Traces(c, s, a, Repair(c, prompt, s, t, a, worker, c.topViolation(a.report)))
  {
    var primary := c.topViolation(a.report);
    var (reply, scheduled) := CallWorker(c, t, s.draft, a.retryPrompt, worker, primary, s.scheduled);
    var called := s.(scheduled := scheduled);
    CallAnswers(c, t, a, worker, s.scheduled);
    hide Traces, CallWorker, AfterReply, AfterConstrainedError, GiveUp, SameSight, AnsweredBy;
    SameTraces(c, s, called, a, Repair(c, prompt, s, t, a, worker, primary));
    match reply {
      case ConstrainedError => ConstrainedErrorTraces(c, prompt, called, t, a, worker);
      case SupplierError => RaisedTraces(c, called, a, worker);
      case Drafted(draft, author) =>
        var b := a.(route := By(author));
        AnswerStays(c, a, By(author), author, draft);
        ReplyTraces(c, prompt, called, t, b, draft, author);
        SightTraces(c, called, a, b, AfterReply(c, prompt, called, t, b, draft, author));
    }
  }

  lemma RaisedTraces(c: Controller, s: State, a: Attempt, worker: Worker)
    ensures Traces(c, s, a, GiveUp(s, a.(repairError := true, route := By(worker)), RepairSupplierError))
  {
    GiveUpTraces(c, s, a, a.(repairError := true, route := By(worker)), RepairSupplierError);
  }

  lemma AnswerStays(c: Controller, a: Attempt, route: Route, worker: Worker, draft: Draft)
    ensures AnsweredBy(c, a.(route := route), worker, draft) <==> AnsweredBy(c, a, worker, draft)
    ensures SameSight(a, a.(route := route))
  {
  }

  lemma SightTraces(c: Controller, s: State, a: Attempt, b: Attempt, o: Outcome)
    requires SameSight(a, b) && Traces(c, s, b, o)
    ensures Traces(c, s, a, o)
  {
    hide AnsweredBy, RouteFits, Progressed;
  }

  /** What an iteration sees of its draft, next to the attempt before it. */
  predicate Sees(c: Controller, before: Option<Attempt>, previous: Draft, a: Attempt) {
    var primary := c.topViolation(a.report);
    && a.report == Gates(c, a.index, a.draft)
    && (a.changed <==> a.index == 0 || previous != a.draft)
    && a.deltas == c.deltasBetween(before, a.report) && (a.diagnosticStagnant <==> c.deltasStagnant(a.deltas))
    && a.signature == (if primary.Some? then c.failureSignature(primary.value) else "")
    && (a.semanticStagnant <==>
          a.index > 0 && a.signature != "" && before.Some? && before.value.signature == a.signature
          && c.smallEdit(previous, a.draft))
  }

  function LastOf(attempts: seq<Attempt>): Option<Attempt> {
    if attempts == [] then None else Some(attempts[|attempts| - 1])
  }

  lemma JudgeSees(c: Controller, prompt: Prompt, s: State, t: nat)
    requires s.attempts == s.failed
    ensures Sees(c, LastOf(s.attempts), s.previous, Judge(c, prompt, s, t).attempt)
  {
    JudgeFacts(c, prompt, s, t);
    hide Gates, Forced, GrantsRetry, Routes, RouteRepair;
  }

  lemma DecideTraces(c: Controller, prompt: Prompt, s: State, t: nat)
    requires s.attempts == s.failed
    ensures
      var j := Judge(c, prompt, s, t);
      Traces(c, s, j.attempt, Decide(c, prompt, t, j)) && j.attempt.source == s.source && j.attempt.draft == s.draft
  {
    var j := Judge(c, prompt, s, t);
    JudgeFacts(c, prompt, s, t);
    if j.routing.Some? {
      RoutingFacts(c, prompt, s, t, Gates(c, t, s.draft), Diagnose(c, s, t, Gates(c, t, s.draft)));
      RepairTraces(c, prompt, j.state, t, j.attempt, j.routing.value.worker);
    }
    hide Judge, Gates, Repair, LoopFound, Diagnose, RouteRepair;
    DecisionTraces(c, prompt, t, j);
    SameTraces(c, s, j.state, j.attempt, Decide(c, prompt, t, j));
  }

  lemma DecisionTraces(c: Controller, prompt: Prompt, t: nat, j: Judged)
    requires j.routing.Some? ==>
      Traces(c, j.state, j.attempt,
             Repair(c, prompt, j.state, t, j.attempt, j.routing.value.worker, c.topViolation(j.attempt.report)))
    ensures Traces(c, j.state, j.attempt, Decide(c, prompt, t, j))
  {
    var loop := LoopFound(c, j);
    if loop.Some? {
      GiveUpTraces(c, j.state, j.attempt, j.attempt.(branchLoop := loop), BranchLoop(loop.value));
    }
    if j.forced.Some? { GiveUpTraces(c, j.state, j.attempt, j.attempt, j.forced.value); }
    GiveUpTraces(c, j.state, j.attempt, j.attempt, MaxRetriesExhausted);
    PassTraces(c, j.state, j.attempt);
    hide Repair, LoopFound, Traces, GiveUp;
  }

  lemma PassTraces(c: Controller, s: State, a: Attempt)
    ensures Traces(c, s, a, Stop(Session(s.attempts + [a], true, Some(Validated), None), s.consulted, s.scheduled))
  {
  }

  /** `b` validates what a worker answered to the repair of `a`, and is compared with `a`. */
  predicate Follows(c: Controller, a: Attempt, b: Attempt) {
    && AnsweredBy(c, a, b.source, b.draft) && RouteFits(a, b.source) && (!a.backendFailure ==> Progressed(a, b.draft))
    && Sees(c, Some(a), a.draft, b)
  }

  predicate Chained(c: Controller, attempts: seq<Attempt>) {
    forall k :: 1 <= k < |attempts| ==> Follows(c, attempts[k - 1], attempts[k])
  }

  /** The draft to be validated next is accounted for by the last attempt. */
  predicate Accounted(c: Controller, s: State) {
    && s.attempts == s.failed && Chained(c, s.attempts)
    && (s.attempts != [] ==>
          var last := s.attempts[|s.attempts| - 1];
          && AnsweredBy(c, last, s.source, s.draft) && RouteFits(last, s.source) && s.previous == last.draft
          && (!last.backendFailure ==> Progressed(last, s.draft)))
  }

  lemma ChainedMore(c: Controller, s: State, attempts: seq<Attempt>, a: Attempt)
    requires Accounted(c, s) && |attempts| == |s.attempts| + 1 && attempts[..|s.attempts|] == s.attempts
    requires SameSight(attempts[|s.attempts|], a) && a.source == s.source && a.draft == s.draft
    requires Sees(c, LastOf(s.attempts), s.previous, a)
    ensures Chained(c, attempts)
  {
    hide AnsweredBy, RouteFits, Gates, Progressed;
    var n := |s.attempts|;
    forall k | 1 <= k < |attempts| ensures Follows(c, attempts[k - 1], attempts[k]) {
      assert attempts[k - 1] == s.attempts[k - 1];
      if k < n { assert attempts[k] == s.attempts[k]; }
    }
  }

  lemma StepAccounted(c: Controller, prompt: Prompt, s: State, t: nat)
    requires Accounted(c, s)
    ensures
      var o := Decide(c, prompt, t, Judge(c, prompt, s, t));
      if o.Continue? then Accounted(c, o.next) else Chained(c, o.session.attempts)
  {
    var j := Judge(c, prompt, s, t);
    var o := Decide(c, prompt, t, j);
    assert s.attempts == s.failed;
    DecideTraces(c, prompt, s, t);
    JudgeSees(c, prompt, s, t);
    hide *;
    if o.Continue? {
      ContinueAccounted(c, s, j.attempt, o.next);
    } else {
      StopChained(c, s, j.attempt, o.session, o.consulted, o.scheduled);
    }
  }

  lemma ContinueAccounted(c: Controller, s: State, a: Attempt, next: State)
    requires Accounted(c, s) && Traces(c, s, a, Continue(next)) && Sees(c, LastOf(s.attempts), s.previous, a)
    requires a.source == s.source && a.draft == s.draft
    ensures Accounted(c, next)
  {
    hide AnsweredBy, RouteFits, Chained, Sees, SameSight, Progressed;
    assert next.attempts == s.attempts + [next.attempts[|s.attempts|]];
    SameDraft(next.attempts[|s.attempts|], a);
    ChainedMore(c, s, next.attempts, a);
  }

  lemma StopChained(c: Controller, s: State, a: Attempt, session: Session, consulted: nat, scheduled: seq<Provider>)
    requires Accounted(c, s) && Traces(c, s, a, Stop(session, consulted, scheduled))
    requires Sees(c, LastOf(s.attempts), s.previous, a) && a.source == s.source && a.draft == s.draft
    ensures Chained(c, session.attempts)
  {
    hide AnsweredBy, RouteFits, Chained, Sees, SameSight, Accounted;
    ChainedMore(c, s, session.attempts, a);
  }

  lemma SameDraft(a: Attempt, b: Attempt)
    requires SameSight(a, b)
    ensures a.draft == b.draft
  {
  }

  /**
   * Every draft a run validates, but the first, is what the worker it names answered to the repair of the attempt
   * before it, under the prompt that attempt records; and every attempt is compared with the one before it.
   */
  lemma {:induction false} DraftsAreAnswers(c: Controller, prompt: Prompt, s: State, t: nat)
    requires Accounted(c, s)
    ensures Chained(c, RunFrom(c, prompt, s, t).session.attempts)
    decreases c.maxRetries + 2 - t
  {
    if t < c.maxRetries + 2 {
      RunUnfolds(c, prompt, s, t);
      StepAccounted(c, prompt, s, t);
      var o := Decide(c, prompt, t, Judge(c, prompt, s, t));
      hide Judge, Decide, RunFrom, Accounted, Chained, Recording, Ready, Ending;
      if o.Continue? { DraftsAreAnswers(c, prompt, o.next, t + 1); }
    }
  }

  /**
   * The first attempt: the scheduled provider's first draft, or without a split the draft supplier's; or it stands
   * for a backend failure, and then no first draft was made.
   */
  predicate Begins(c: Controller, prompt: Prompt, scheduled: seq<Provider>, a: Attempt) {
    var asked := if c.schedule.Some? && c.schedule.value.ProviderAt(|scheduled|).Api?
                 then (if c.architect.None? then None else c.architect.value(0, "", prompt))
                 else c.draftSupplier(prompt);
    if a.backendFailure then
      && asked.None? && a.draft == "" && a.retryPrompt == c.prompts.backendFailure(prompt)
      && a.route == (if c.architect.None? then NoRepair else By(Architect))
      && (a.repairError <==> c.architect.Some? && c.architect.value(0, "", a.retryPrompt).None?)
    else
      && asked == Some(a.draft)
      && a.source == if c.schedule.None? then DraftSupplier
                     else if c.schedule.value.ProviderAt(|scheduled|).Api? then Architect else SmallWorker
  }

  /** A run that got no draft from anyone ends with the failure of the last one asked. */
  predicate EndsUnstarted(c: Controller, session: Session)
    requires session.attempts != []
  {
    var a := session.attempts[0];
    a.backendFailure && (c.architect.None? || a.repairError) ==>
      && session.attempts == [a] && !session.completed && session.termination == None
      && session.review ==
           Some(Review(if c.architect.None? then InitialBackendFailure else ArchitectAfterBackendFailureFailed, a))
  }

  lemma LaunchAccounted(c: Controller, request: Prompt, scheduled: seq<Provider>)
    ensures
      var l := LaunchOf(c, request, scheduled);
      var prompt := c.prompts.history(request);
      && (l.Ends? ==> |l.session.attempts| == 1 && Begins(c, prompt, scheduled, l.session.attempts[0])
                      && EndsUnstarted(c, l.session))
      && (l.Enters? ==> Accounted(c, l.state))
      && (l.Enters? && l.state.attempts != [] ==>
            && |l.state.attempts| == 1 && Begins(c, prompt, scheduled, l.state.attempts[0])
            && c.architect.Some? && !l.state.attempts[0].repairError)
      && (l.Enters? ==> l.prompt == if l.state.attempts == [] then prompt
                                    else c.prompts.history(c.prompts.backendFailure(prompt)))
      && (l.Enters? && l.state.attempts == [] ==>
            forall a: Attempt :: a.draft == l.state.draft && a.source == l.state.source && !a.backendFailure ==>
              Begins(c, prompt, scheduled, a))
  {
  }

  /** The same for a request, its first draft included. */
  lemma GeneratedDraftsAreAnswers(c: Controller, request: Prompt, scheduled: seq<Provider>)
    requires c.maxRetries >= 0
    ensures
      var session := Generate(c, request, scheduled).session;
      && session.attempts != [] && Begins(c, c.prompts.history(request), scheduled, session.attempts[0])
      && EndsUnstarted(c, session) && Chained(c, session.attempts)
  {
    var l := LaunchOf(c, request, scheduled);
    LaunchAccounted(c, request, scheduled);
    if l.Enters? {
      hide LaunchOf, Begins, Accounted, Chained;
      DraftsAreAnswers(c, l.prompt, l.state, |l.state.attempts|);
      FirstStays(c, l.prompt, l.state, |l.state.attempts|);
    }
    hide LaunchOf, RunFrom, Begins, Accounted;
  }

  /** The first attempt of a run that has one stays; one that is made validates the draft the run started with. */
  lemma {:induction false} FirstStays(c: Controller, prompt: Prompt, s: State, t: nat)
    requires s.attempts == s.failed && (s.attempts == [] ==> t < c.maxRetries + 2)
    ensures
      var attempts := RunFrom(c, prompt, s, t).session.attempts;
      && attempts != []
      && (if s.attempts != [] then attempts[0] == s.attempts[0]
          else attempts[0].draft == s.draft && attempts[0].source == s.source && !attempts[0].backendFailure)
    decreases c.maxRetries + 2 - t
  {
    if t < c.maxRetries + 2 {
      var j := Judge(c, prompt, s, t);
      var o := Decide(c, prompt, t, j);
      DecideTraces(c, prompt, s, t);
      JudgeFacts(c, prompt, s, t);
      RunSession(c, prompt, s, t);
      hide *;
      FirstKept(c, s, j.attempt, o);
      if o.Continue? { FirstStays(c, prompt, o.next, t + 1); }
    }
  }

  lemma RunSession(c: Controller, prompt: Prompt, s: State, t: nat)
    requires t < c.maxRetries + 2
    ensures
      var o := Decide(c, prompt, t, Judge(c, prompt, s, t));
      RunFrom(c, prompt, s, t).session == if o.Continue? then RunFrom(c, prompt, o.next, t + 1).session else o.session
  {
    RunUnfolds(c, prompt, s, t);
    hide Judge, Decide, RunFrom, Recording, Ready, Ending;
  }

  lemma FirstKept(c: Controller, s: State, a: Attempt, o: Outcome)
    requires Traces(c, s, a, o) && s.attempts == s.failed
    requires a.draft == s.draft && a.source == s.source && !a.backendFailure
    ensures
      var now := if o.Continue? then o.next.attempts else o.session.attempts;
      && now != []
      && (if s.attempts != [] then now[0] == s.attempts[0]
          else now[0].draft == s.draft && now[0].source == s.source && !now[0].backendFailure)
    ensures o.Continue? ==> o.next.attempts == o.next.failed
  {
    hide AnsweredBy, RouteFits, Progressed;
    var now := if o.Continue? then o.next.attempts else o.session.attempts;
    assert s.attempts != [] ==> now[..|s.attempts|][0] == now[0];
    assert now == s.attempts + [now[|s.attempts|]];
  }

  // ---- which worker is asked ----

  /**
   * A repair goes to the architect exactly after a constrained repair that failed, after stagnation if there is an
   * architect, or once as many attempts have failed as the threshold says.
   */
  lemma ArchitectThreshold(c: Controller, prompt: Prompt, s: State, t: nat)
    requires GoodState(c, s, t)
    ensures
      var j := Judge(c, prompt, s, t);
      j.routing.Some? ==>
        (j.routing.value.worker.Architect? <==>
           || s.source.Constrained()
           || (c.architect.Some?
               && (j.attempt.diagnosticStagnant || (c.architectAfter.Some? && t >= c.architectAfter.value))))
  {
    JudgeFacts(c, prompt, s, t);
    hide Gates, Forced, GrantsRetry, Routes, Numbered, AllFailed, OnSchedule, ArchitectStaticFailures, Consult;
  }

  /**
   * A strategy is asked for a mode exactly when a small worker's failure repeats itself, and a deterministic transform
   * or a patch is made exactly when that is its answer.
   */
  lemma ModeIsAsked(c: Controller, prompt: Prompt, s: State, t: nat)
    ensures
      var j := Judge(c, prompt, s, t);
      j.routing.Some? ==>
        var worker, selected := j.routing.value.worker, j.attempt.selected;
        var d := Diagnose(c, s, t, j.attempt.report);
        var repeats := d.semantic && c.strategy.Some? && !s.source.Constrained()
                       && WorkerFor(c, |s.failed|).SmallWorker? && !(d.stagnant && c.architect.Some?);
        var answer := if repeats then Some(c.strategy.value.repeated(d.primary, j.attempt.report, d.deltas)) else None;
        && (worker.Transform? <==> answer == Some(DeterministicTransform))
        && (worker.Patch? <==> answer == Some(JsonPatch))
        && (worker.Transform? <==> selected == ByMode(DeterministicTransform))
        && (worker.Patch? <==> selected == ByMode(JsonPatch))
  {
    hide Gates, Forced, GrantsRetry, Consult;
  }

  /** A peer is asked about a stagnant repair by the small worker while the budget lasts, and its answer is recorded. */
  lemma PeerIsAsked(c: Controller, prompt: Prompt, s: State, t: nat)
    ensures
      var j := Judge(c, prompt, s, t);
      var a := j.attempt;
      var asked := j.routing.Some? && j.routing.value.worker.SmallWorker? && c.peer.Some? && s.consulted < c.peerLimit
                   && (a.diagnosticStagnant || a.semanticStagnant);
      var trigger := if a.diagnosticStagnant then DiagnosticStagnation else SemanticStagnation;
      && a.memos == (if asked && c.peer.value(t, trigger, s.draft).Some?
                     then [c.peer.value(t, trigger, s.draft).value] else [])
      && j.state.consulted == s.consulted + |a.memos|
  {
    hide Gates, Forced, GrantsRetry, Routes, BaseWorker, RepeatedMode;
  }

  /** And it is asked again when the small worker's answer makes no progress and no advice has been given yet. */
  lemma PeerIsAskedAgain(c: Controller, prompt: Prompt, s: State, t: nat, a: Attempt, draft: Draft, worker: Worker)
    requires a.draft == s.draft
    ensures
      var stuck := worker.SmallWorker? && a.memos == [] && (draft == a.draft || a.diagnosticStagnant);
      var memo := if stuck && c.peer.Some? && s.consulted < c.peerLimit
                  then c.peer.value(t, NoProgressRepair, a.draft) else None;
      Advised(c, s, a, memo, AfterReply(c, prompt, s, t, a, draft, worker))
  {
    var memo := Consult(c, s.consulted, t, NoProgressRepair, s.draft);
    StagnationUnadvised(c, prompt, s, t, a, worker);
    if memo.Some? { AdviceGiven(c, s, t, a, memo.value); }
    RetryUnadvised(c, s, a, draft, worker);
    hide AfterStagnation, AfterAdvice, Advised, Retry;
  }

  /** The last attempt has the memo, if there is one, in its prompt and among its memos, and it is paid for. */
  predicate Advised(c: Controller, s: State, a: Attempt, memo: Option<string>, o: Outcome) {
    var attempts := if o.Continue? then o.next.attempts else o.session.attempts;
    && |attempts| == |s.attempts| + 1
    && (var last := attempts[|s.attempts|];
        if memo.None? then last.memos == a.memos
        else last.memos == [memo.value] && last.retryPrompt == c.prompts.withMemo(a.retryPrompt, memo.value))
    && (if o.Continue? then o.next.consulted else o.consulted) == s.consulted + (if memo.Some? then 1 else 0)
  }

  lemma AdviceGiven(c: Controller, s: State, t: nat, a: Attempt, memo: string)
    ensures Advised(c, s, a, Some(memo), AfterAdvice(c, s, t, a, memo))
  {
  }

  lemma StagnationUnadvised(c: Controller, prompt: Prompt, s: State, t: nat, a: Attempt, worker: Worker)
    ensures Advised(c, s, a, None, AfterStagnation(c, prompt, s, t, a, worker))
  {
    hide WorkerFor;
  }

  lemma RetryUnadvised(c: Controller, s: State, a: Attempt, draft: Draft, worker: Worker)
    ensures Advised(c, s, a, None, Retry(s, a, draft, worker))
  {
  }

  /** The prompt of a routed repair, worker by worker. */
  lemma RoutedPrompt(c: Controller, prompt: Prompt, s: State, t: nat)
    ensures
      var j := Judge(c, prompt, s, t);
      var a := j.attempt;
      j.routing.Some? ==>
        match j.routing.value.worker
        case SmallWorker =>
          var scoped := c.prompts.scoped(s.draft, a.report, a.deltas, SmallWorker, prompt, s.failed);
          a.retryPrompt == if a.memos == [] then scoped else c.prompts.withMemo(scoped, a.memos[0])
        case Architect =>
          var scoped := c.prompts.scoped(s.draft, a.report, a.deltas, Architect, prompt, s.failed);
          var angled := if a.diagnosticStagnant || a.semanticStagnant || s.source.Constrained()
                        then c.prompts.differentAngle(scoped) else scoped;
          a.retryPrompt == c.prompts.hinted(
            if c.strategy.Some? then c.prompts.instructed(angled, s.draft, a.report, t) else angled, t, s.draft)
        case Transform =>
          var scoped := c.prompts.scoped(s.draft, a.report, a.deltas, SmallWorker, prompt, s.failed);
          a.retryPrompt == c.prompts.hinted(c.prompts.instructed(scoped, s.draft, a.report, t), t, s.draft)
        case Patch =>
          var scoped := c.prompts.scoped(s.draft, a.report, a.deltas, SmallWorker, prompt, s.failed);
          a.retryPrompt == c.prompts.hinted(
            c.prompts.instructed(c.prompts.typedPatch(scoped), s.draft, a.report, t), t, s.draft)
        case _ => false
  {
    PeerIsAsked(c, prompt, s, t);
    RoutingFacts(c, prompt, s, t, Gates(c, t, s.draft), Diagnose(c, s, t, Gates(c, t, s.draft)));
    hide Gates, Forced, GrantsRetry, Routes, Consult;
  }

  /**
   * The architect is asked after a stagnant or a failed constrained repair under a prompt of its own, from another
   * angle, which has the failed attempt among the others.
   */
  predicate EscalationAsked(c: Controller, prompt: Prompt, s: State, a: Attempt, o: Outcome) {
    var attempts := if o.Continue? then o.next.attempts else o.session.attempts;
    && |attempts| == |s.attempts| + 1
    && (var last := attempts[|s.attempts|];
        last.route.Escalated? ==>
          var stagnant := last.route == Escalated(SmallWorker);
          var failed := s.failed + [a.(route := last.route, repairError := !stagnant)];
          last.retryPrompt == c.prompts.differentAngle(
            if stagnant then c.prompts.escalation(s.draft, a.report, a.deltas, prompt, failed)
            else c.prompts.scoped(s.draft, a.report, a.deltas, Architect, prompt, failed)))
  }

  lemma ConstrainedErrorAsked(c: Controller, prompt: Prompt, s: State, t: nat, a: Attempt, worker: Worker)
    requires worker.Constrained() && !a.route.Escalated?
    ensures EscalationAsked(c, prompt, s, a, AfterConstrainedError(c, prompt, s, t, a, worker))
  {
  }

  lemma StagnationAsked(c: Controller, prompt: Prompt, s: State, t: nat, a: Attempt, worker: Worker)
    requires !a.repairError && !a.route.Escalated?
    ensures EscalationAsked(c, prompt, s, a, AfterStagnation(c, prompt, s, t, a, worker))
  {
    hide WorkerFor;
  }

  lemma AdviceAsked(c: Controller, prompt: Prompt, s: State, t: nat, a: Attempt, memo: string)
    requires !a.route.Escalated?
    ensures EscalationAsked(c, prompt, s, a, AfterAdvice(c, s, t, a, memo))
  {
  }

  lemma RetryAsked(c: Controller, prompt: Prompt, s: State, a: Attempt, draft: Draft, worker: Worker)
    requires !a.route.Escalated?
    ensures EscalationAsked(c, prompt, s, a, Retry(s, a, draft, worker))
  {
  }

  lemma ReplyAsked(c: Controller, prompt: Prompt, s: State, t: nat, a: Attempt, draft: Draft, worker: Worker)
    requires !a.repairError && !a.route.Escalated?
    ensures EscalationAsked(c, prompt, s, a, AfterReply(c, prompt, s, t, a, draft, worker))
  {
    var memo := Consult(c, s.consulted, t, NoProgressRepair, s.draft);
    if memo.Some? { AdviceAsked(c, prompt, s, t, a, memo.value); }
    StagnationAsked(c, prompt, s, t, a, worker);
    RetryAsked(c, prompt, s, a, draft, worker);
    hide Consult, AfterAdvice, AfterStagnation, Retry, EscalationAsked;
  }

  lemma SupplierErrorAsked(c: Controller, prompt: Prompt, s: State, a: Attempt, b: Attempt)
    requires !b.route.Escalated?
    ensures EscalationAsked(c, prompt, s, a, GiveUp(s, b, RepairSupplierError))
  {
  }

  /** The same seen from the attempt and the state before the call. */
  lemma AskedBefore(c: Controller, prompt: Prompt, s: State, scheduled: seq<Provider>, a: Attempt, route: Route,
                    o: Outcome)
    requires EscalationAsked(c, prompt, s.(scheduled := scheduled), a.(route := route), o)
    ensures EscalationAsked(c, prompt, s, a, o)
  {
  }

  lemma EscalatedPrompt(c: Controller, prompt: Prompt, s: State, t: nat, a: Attempt, worker: Worker)
    requires !a.repairError && !a.route.Escalated?
    ensures EscalationAsked(c, prompt, s, a, Repair(c, prompt, s, t, a, worker, c.topViolation(a.report)))
  {
    var primary := c.topViolation(a.report);
    var (reply, scheduled) := CallWorker(c, t, s.draft, a.retryPrompt, worker, primary, s.scheduled);
    var called, o := s.(scheduled := scheduled), Repair(c, prompt, s, t, a, worker, primary);
    ConstrainedReply(c, t, s.draft, a.retryPrompt, worker, primary, s.scheduled);
    hide CallWorker, AfterReply, AfterConstrainedError, EscalationAsked, GiveUp;
    match reply {
      case ConstrainedError =>
        ConstrainedErrorAsked(c, prompt, called, t, a, worker);
        AskedBefore(c, prompt, s, scheduled, a, a.route, o);
      case SupplierError =>
        SupplierErrorAsked(c, prompt, called, a, a.(repairError := true, route := By(worker)));
        AskedBefore(c, prompt, s, scheduled, a, a.route, o);
      case Drafted(draft, author) =>
        ReplyAsked(c, prompt, called, t, a.(route := By(author)), draft, author);
        AskedBefore(c, prompt, s, scheduled, a, By(author), o);
    }
  }

  lemma ConstrainedReply(c: Controller, t: nat, draft: Draft, prompt: Prompt, worker: Worker,
                         primary: Option<Evidence>, scheduled: seq<Provider>)
    ensures CallWorker(c, t, draft, prompt, worker, primary, scheduled).0.ConstrainedError? ==> worker.Constrained()
  {
  }

  // ---- what a run writes down ----

  /** Every attempt of the run is recorded before anything is done about it, and the run ends on its own session. */
  lemma {:induction false} EveryAttemptIsRecorded(c: Controller, prompt: Prompt, s: State, t: nat)
    requires GoodState(c, s, t)
    ensures WellLogged(RunFrom(c, prompt, s, t), |s.attempts|)
    decreases c.maxRetries + 2 - t
  {
    var j := Judge(c, prompt, s, t);
    var o := Decide(c, prompt, t, j);
    assert t <= c.maxRetries + 1 && s.attempts == s.failed;
    RunLog(c, prompt, s, t);
    OneMore(c, prompt, s, t);
    StepKeeps(c, prompt, s, t);
    hide *;
    RecordsOwn(j, t);
    if o.Continue? {
      var rest := RunFrom(c, prompt, o.next, t + 1);
      EveryAttemptIsRecorded(c, prompt, o.next, t + 1);
      LogsJoined([Recording(j, t), Ready(o.next, t)], rest, RunFrom(c, prompt, s, t), |s.attempts|);
    } else {
      EndsOnOwn(o.session, j.state, t);
      LogEnded(Recording(j, t), Ending(o.session, j.state, t), RunFrom(c, prompt, s, t), |s.attempts|);
    }
  }

  /** The run adds attempts to the first ones, records each of them, and writes its own session last. */
  ghost predicate WellLogged(r: Run, first: nat) {
    && first < |r.session.attempts| && r.log != [] && EndsIn(r.log, r.session)
    && forall k: nat :: first <= k < |r.session.attempts| ==> RecordedIn(r.log, k)
  }

  predicate EndsIn(log: seq<Checkpoint>, session: Session)
    requires log != []
  {
    var last := log[|log| - 1];
    last.phase == Terminal && last.session == session
  }

  lemma LogsJoined(front: seq<Checkpoint>, rest: Run, r: Run, first: nat)
    requires WellLogged(rest, first + 1) && front != [] && RecordedBy(front[0], first)
    requires r.session == rest.session && r.log == front + rest.log
    ensures WellLogged(r, first)
  {
    hide EndsIn, RecordedIn, RecordedBy;
    LogJoined(front, rest.log, first);
    EndsAlike(rest.log, r.log, r.session);
  }

  lemma LogEnded(recording: Checkpoint, ending: seq<Checkpoint>, r: Run, first: nat)
    requires RecordedBy(recording, first) && |r.session.attempts| == first + 1
    requires ending != [] && EndsIn(ending, r.session) && r.log == [recording] + ending
    ensures WellLogged(r, first)
  {
    hide EndsIn, RecordedIn, RecordedBy;
    LogJoined([recording], ending, first);
    EndsAlike(ending, r.log, r.session);
  }

  lemma EndsAlike(log: seq<Checkpoint>, longer: seq<Checkpoint>, session: Session)
    requires log != [] && longer != [] && longer[|longer| - 1] == log[|log| - 1] && EndsIn(log, session)
    ensures EndsIn(longer, session)
  {
  }

  lemma RunLog(c: Controller, prompt: Prompt, s: State, t: nat)
    requires t < c.maxRetries + 2
    ensures
      var j := Judge(c, prompt, s, t);
      var o := Decide(c, prompt, t, j);
      var r := RunFrom(c, prompt, s, t);
      if o.Continue? then
        var rest := RunFrom(c, prompt, o.next, t + 1);
        r.session == rest.session && r.log == [Recording(j, t), Ready(o.next, t)] + rest.log
      else r.session == o.session && r.log == [Recording(j, t)] + Ending(o.session, j.state, t)
  {
    RunUnfolds(c, prompt, s, t);
    hide Judge, Decide, RunFrom, Recording, Ready, Ending;
  }

  lemma OneMore(c: Controller, prompt: Prompt, s: State, t: nat)
    requires s.attempts == s.failed
    ensures
      var j := Judge(c, prompt, s, t);
      var o := Decide(c, prompt, t, j);
      && j.attempt.index == t && j.state.attempts == s.attempts
      && |if o.Continue? then o.next.attempts else o.session.attempts| == |s.attempts| + 1
  {
    DecideTraces(c, prompt, s, t);
    JudgeFacts(c, prompt, s, t);
    hide Judge, Decide, AnsweredBy, RouteFits, Progressed, SameSight;
  }

  lemma LogJoined(front: seq<Checkpoint>, rest: seq<Checkpoint>, k: nat)
    requires front != [] && rest != [] && RecordedBy(front[0], k)
    ensures (front + rest)[|front + rest| - 1] == rest[|rest| - 1]
    ensures RecordedIn(front + rest, k) && forall i: nat :: RecordedIn(rest, i) ==> RecordedIn(front + rest, i)
  {
    hide RecordedBy;
    assert RecordedBy((front + rest)[0], k);
    forall i: nat | RecordedIn(rest, i) ensures RecordedIn(front + rest, i) { RecordedLater(front, rest, i); }
  }

  predicate RecordedBy(cp: Checkpoint, k: nat) {
    cp.phase == AttemptRecorded && |cp.session.attempts| == k + 1 && cp.next == cp.session.attempts[k].index + 1
  }

  /** A checkpoint has attempt k as its last one. */
  predicate RecordedIn(log: seq<Checkpoint>, k: nat) {
    exists i :: 0 <= i < |log| && RecordedBy(log[i], k)
  }

  lemma RecordsOwn(j: Judged, t: nat)
    requires j.attempt.index == t
    ensures RecordedBy(Recording(j, t), |j.state.attempts|)
  {
  }

  lemma RecordedLater(front: seq<Checkpoint>, log: seq<Checkpoint>, k: nat)
    requires RecordedIn(log, k)
    ensures RecordedIn(front + log, k)
  {
    var i :| 0 <= i < |log| && RecordedBy(log[i], k);
    assert (front + log)[|front| + i] == log[i];
  }

  lemma EndsOnOwn(session: Session, s: State, t: nat)
    ensures Ending(session, s, t) != [] && EndsIn(Ending(session, s, t), session)
  {
  }

  /** A session that is not completed carries a review of its last attempt, for the reason it ended. */
  predicate Reviewed(session: Session) {
    var n := |session.attempts|;
    session.completed || n == 0
    || (session.review.Some? && session.review.value.attempt == session.attempts[n - 1]
        && session.termination == Some(session.review.value.reason))
  }

  /** Every run ends with a verdict, wherever it starts and whatever max_retries is. */
  lemma {:induction false} EveryRunIsReviewed(c: Controller, prompt: Prompt, s: State, t: nat)
    ensures Reviewed(RunFrom(c, prompt, s, t).session)
    decreases c.maxRetries + 2 - t
  {
    if t < c.maxRetries + 2 {
      var j := Judge(c, prompt, s, t);
      var o := Decide(c, prompt, t, j);
      RunSession(c, prompt, s, t);
      StopIsReviewed(c, prompt, t, j);
      hide *;
      if o.Continue? { EveryRunIsReviewed(c, prompt, o.next, t + 1); }
    } else {
      hide Reviewed;
      assert RunFrom(c, prompt, s, t).session == OutOfAttempts(s.attempts);
      ExhaustedIsReviewed(s.attempts);
    }
  }

  lemma ExhaustedIsReviewed(attempts: seq<Attempt>)
    ensures Reviewed(OutOfAttempts(attempts)) && !OutOfAttempts(attempts).completed
  {
  }

  lemma GivenUpIsReviewed(s: State, a: Attempt, reason: Reason)
    ensures var o := GiveUp(s, a, reason); o.Stop? && Reviewed(o.session)
  {
  }

  lemma StopIsReviewed(c: Controller, prompt: Prompt, t: nat, j: Judged)
    ensures var o := Decide(c, prompt, t, j); o.Stop? ==> Reviewed(o.session)
  {
    var primary := c.topViolation(j.attempt.report);
    if j.routing.Some? { RepairIsReviewed(c, prompt, j.state, t, j.attempt, j.routing.value.worker, primary); }
    forall s: State, a: Attempt, reason ensures var o := GiveUp(s, a, reason); o.Stop? && Reviewed(o.session) {
      GivenUpIsReviewed(s, a, reason);
    }
    assert Reviewed(Session(j.state.attempts + [j.attempt], true, Some(Validated), None));
    hide Repair, LoopFound, GiveUp, Reviewed;
  }

  lemma RepairIsReviewed(c: Controller, prompt: Prompt, s: State, t: nat, a: Attempt, worker: Worker,
                         primary: Option<Evidence>)
    ensures var o := Repair(c, prompt, s, t, a, worker, primary); o.Stop? ==> Reviewed(o.session)
  {
    var (reply, scheduled) := CallWorker(c, t, s.draft, a.retryPrompt, worker, primary, s.scheduled);
    var called := s.(scheduled := scheduled);
    match reply {
      case ConstrainedError => ConstrainedErrorReviewed(c, prompt, called, t, a, worker);
      case SupplierError =>
        GivenUpIsReviewed(called, a.(repairError := true, route := By(worker)), RepairSupplierError);
      case Drafted(draft, author) => ReplyReviewed(c, prompt, called, t, a.(route := By(author)), draft, author);
    }
    hide CallWorker, GiveUp, Reviewed, AfterReply, AfterConstrainedError;
  }

  lemma ConstrainedErrorReviewed(c: Controller, prompt: Prompt, s: State, t: nat, a: Attempt, worker: Worker)
    ensures var o := AfterConstrainedError(c, prompt, s, t, a, worker); o.Stop? ==> Reviewed(o.session)
  {
  }

  lemma ReplyReviewed(c: Controller, prompt: Prompt, s: State, t: nat, a: Attempt, draft: Draft, worker: Worker)
    ensures var o := AfterReply(c, prompt, s, t, a, draft, worker); o.Stop? ==> Reviewed(o.session)
  {
    hide Consult, WorkerFor;
  }

  // ---- why a run stops, and why it goes on ----

  /** The reason given for the review of an attempt, in terms of what was asked and answered. */
  predicate Justified(c: Controller, s: State, t: nat, a: Attempt, reason: Reason) {
    match reason
    case LintSkipped =>
      a.report.checks.lintSkipped && !GivenUpOn(c, s, t, a) && !(a.source.Constrained() && c.architect.None?)
    case MetricScopeAmbiguous => GivenUpOn(c, s, t, a) && c.scopeAmbiguous(a.report)
    case ArchitectAfterBackendFailureStatic =>
      GivenUpOn(c, s, t, a) && !c.scopeAmbiguous(a.report) && s.failed != [] && s.failed[0].backendFailure
    case ArchitectStatic =>
      GivenUpOn(c, s, t, a) && !c.scopeAmbiguous(a.report) && !(s.failed != [] && s.failed[0].backendFailure)
    case ConstrainedValidationFailed => a.source.Constrained() && c.architect.None?
    case StrategyManualReview =>
      c.strategy.Some? && c.strategy.value.decide(a.draft, a.report, t, c.maxRetries) == ManualReview
    case BranchLoop(kind) =>
      a.branchLoop == Some(kind) && c.branchingLoop(s.attempts + [a.(branchLoop := None)]) == Some(kind)
    case RepairSupplierError =>
      a.repairError && (c.small(t, a.draft, a.retryPrompt).None?
                        || c.architect.None? || c.architect.value(t, a.draft, a.retryPrompt).None?)
    case PatchFailed =>
      a.repairError
      && (c.architect.None?
          || c.architect.value(t, a.draft, a.retryPrompt).None?
          || c.architect.value(t, a.draft, a.retryPrompt) == Some(a.draft))
    case StagnantRepair =>
      var answer := c.small(t, a.draft, a.retryPrompt);
      && answer.Some? && (answer.value == a.draft || a.diagnosticStagnant)
      && (c.architect.None? || c.architectAfter.None? || |s.failed| + 1 < c.architectAfter.value)
    case ArchitectStagnant =>
      c.architect.Some? && c.architect.value(t, a.draft, a.retryPrompt) == Some(a.draft)
    case MaxRetriesExhausted => t >= c.maxRetries && !(a.source.Constrained() && c.architect.Some?)
    case _ => false
  }

  /** The architect's draft fails the static checks, and there is no retry for it. */
  predicate GivenUpOn(c: Controller, s: State, t: nat, a: Attempt) {
    a.source.Architect? && !a.report.checks.ok && (!c.architectRetry || s.retryUsed || t >= c.maxRetries)
  }

  /** The reasons there can be before a repair is routed. */
  predicate Beforehand(reason: Reason) {
    reason in {LintSkipped, MetricScopeAmbiguous, ArchitectAfterBackendFailureStatic, ArchitectStatic}
  }

  /** An iteration that ends without passing names a reason that holds. */
  predicate EndsJustified(c: Controller, s: State, t: nat, o: Outcome) {
    o.Stop? && !o.session.completed ==>
      && o.session.review.Some?
      && Justified(c, s, t, o.session.review.value.attempt, o.session.review.value.reason)
  }

  /** A repair that ends the run does so for one of its own reasons, and the reason holds. */
  predicate RepairEnds(c: Controller, s: State, t: nat, o: Outcome) {
    EndsJustified(c, s, t, o) && (o.Stop? && o.session.review.Some? ==> !Beforehand(o.session.review.value.reason))
  }

  lemma ConstrainedErrorJustified(c: Controller, prompt: Prompt, s: State, t: nat, a: Attempt, worker: Worker)
    requires a.draft == s.draft
    ensures RepairEnds(c, s, t, AfterConstrainedError(c, prompt, s, t, a, worker))
  {
  }

  lemma ReplyJustified(c: Controller, prompt: Prompt, s: State, t: nat, a: Attempt, draft: Draft, worker: Worker)
    requires a.index == t && a.draft == s.draft && AnsweredBy(c, a, worker, draft)
    ensures RepairEnds(c, s, t, AfterReply(c, prompt, s, t, a, draft, worker))
  {
    var memo := if worker.SmallWorker? then Consult(c, s.consulted, t, NoProgressRepair, s.draft) else None;
    if memo.Some? { AdviceJustified(c, s, t, a, memo.value); }
    if draft == s.draft || (a.diagnosticStagnant && !worker.Architect?) {
      if !worker.Constrained() { StagnationJustified(c, prompt, s, t, a, draft, worker); }
    }
    hide Consult, AfterAdvice, AfterStagnation, AnsweredBy;
  }

  lemma AdviceJustified(c: Controller, s: State, t: nat, a: Attempt, memo: string)
    requires a.index == t && a.draft == s.draft
    ensures RepairEnds(c, s, t, AfterAdvice(c, s, t, a, memo))
  {
  }

  lemma StagnationJustified(c: Controller, prompt: Prompt, s: State, t: nat, a: Attempt, draft: Draft, worker: Worker)
    requires a.index == t && a.draft == s.draft && AnsweredBy(c, a, worker, draft) && !worker.Constrained()
    requires draft == s.draft || (a.diagnosticStagnant && !worker.Architect?)
    ensures RepairEnds(c, s, t, AfterStagnation(c, prompt, s, t, a, worker))
  {
  }

  lemma RepairJustified(c: Controller, prompt: Prompt, s: State, t: nat, a: Attempt, worker: Worker)
    requires a.index == t && a.draft == s.draft && (worker.SmallWorker? || worker.Architect? || worker.Constrained())
    ensures RepairEnds(c, s, t, Repair(c, prompt, s, t, a, worker, c.topViolation(a.report)))
  {
    var primary := c.topViolation(a.report);
    var (reply, scheduled) := CallWorker(c, t, s.draft, a.retryPrompt, worker, primary, s.scheduled);
    var called := s.(scheduled := scheduled);
    CallAnswers(c, t, a, worker, s.scheduled);
    CallRaises(c, t, a, worker, s.scheduled);
    EndsBefore(c, s, scheduled, t, Repair(c, prompt, s, t, a, worker, primary));
    hide CallWorker, AnsweredBy, AfterReply, AfterConstrainedError, RepairEnds, GiveUp;
    match reply {
      case ConstrainedError => ConstrainedErrorJustified(c, prompt, called, t, a, worker);
      case SupplierError =>
        RaisedJustified(c, called, t, a.(repairError := true, route := By(worker)));
      case Drafted(draft, author) =>
        AnswerStays(c, a, By(author), author, draft);
        ReplyJustified(c, prompt, called, t, a.(route := By(author)), draft, author);
    }
  }

  lemma RaisedJustified(c: Controller, s: State, t: nat, a: Attempt)
    requires a.repairError
    requires c.small(t, a.draft, a.retryPrompt).None? || c.architect.None?
        || c.architect.value(t, a.draft, a.retryPrompt).None?
    ensures RepairEnds(c, s, t, GiveUp(s, a, RepairSupplierError))
  {
  }

  /** The reasons hold of the state before the worker's call was recorded as well. */
  lemma EndsBefore(c: Controller, s: State, scheduled: seq<Provider>, t: nat, o: Outcome)
    ensures RepairEnds(c, s.(scheduled := scheduled), t, o) <==> RepairEnds(c, s, t, o)
  {
  }

  lemma CallRaises(c: Controller, t: nat, a: Attempt, worker: Worker, scheduled: seq<Provider>)
    ensures
      CallWorker(c, t, a.draft, a.retryPrompt, worker, c.topViolation(a.report), scheduled).0.SupplierError? ==>
        || c.small(t, a.draft, a.retryPrompt).None?
        || c.architect.None? || c.architect.value(t, a.draft, a.retryPrompt).None?
  {
  }

  /** Every reason a run gives for a review is true of the attempt under review. */
  lemma ReasonsHold(c: Controller, prompt: Prompt, s: State, t: nat)
    requires s.attempts == s.failed
    ensures EndsJustified(c, s, t, Decide(c, prompt, t, Judge(c, prompt, s, t)))
  {
    var j := Judge(c, prompt, s, t);
    JudgeFacts(c, prompt, s, t);
    ForcedJustified(c, prompt, s, t);
    if j.routing.Some? {
      RoutingFacts(c, prompt, s, t, Gates(c, t, s.draft), Diagnose(c, s, t, Gates(c, t, s.draft)));
      RepairJustified(c, prompt, j.state, t, j.attempt, j.routing.value.worker);
    }
    hide Judge, Gates, Repair, Routes, Forced, GrantsRetry, Diagnose, RouteRepair;
    DecisionJustified(c, prompt, s, t, j);
  }

  /** Review forced before any repair is asked for: the reason holds, and so it does when nothing is routed. */
  lemma ForcedJustified(c: Controller, prompt: Prompt, s: State, t: nat)
    ensures
      var j := Judge(c, prompt, s, t);
      && (j.forced.Some? && !j.attempt.report.Passed() ==> Justified(c, s, t, j.attempt, j.forced.value))
      && (j.forced.None? && j.routing.None? && !j.attempt.report.Passed() ==>
            Justified(c, s, t, j.attempt, MaxRetriesExhausted))
  {
    JudgeFacts(c, prompt, s, t);
    hide Gates, Diagnose, BaseWorker, RepeatedMode, Consult;
  }

  lemma DecisionJustified(c: Controller, prompt: Prompt, s: State, t: nat, j: Judged)
    requires j.state == s.(retryUsed := j.state.retryUsed, consulted := j.state.consulted)
    requires j.attempt.branchLoop.None?
    requires j.forced.Some? && !j.attempt.report.Passed() ==> Justified(c, s, t, j.attempt, j.forced.value)
    requires j.forced.None? && j.routing.None? && !j.attempt.report.Passed() ==>
      Justified(c, s, t, j.attempt, MaxRetriesExhausted)
    requires j.routing.Some? ==>
      RepairEnds(c, j.state, t, Repair(c, prompt, j.state, t, j.attempt, j.routing.value.worker,
                                       c.topViolation(j.attempt.report)))
    ensures EndsJustified(c, s, t, Decide(c, prompt, t, j))
  {
    hide Repair;
  }

  /** What holds of an attempt the run goes on from. */
  lemma ContinuesOnly(c: Controller, prompt: Prompt, s: State, t: nat)
    ensures
      var j := Judge(c, prompt, s, t);
      var a := j.attempt;
      Decide(c, prompt, t, j).Continue? ==>
        && !a.report.Passed() && !a.report.checks.lintSkipped
        && !(a.source.Constrained() && c.architect.None?)
        && (a.source.Architect? && !a.report.checks.ok ==> c.architectRetry && !s.retryUsed && t < c.maxRetries)
        && (t < c.maxRetries || a.source.Constrained())
        && (c.strategy.Some? ==> c.strategy.value.decide(a.draft, a.report, t, c.maxRetries) != ManualReview)
        && (!(a.selected in {ByMode(DeterministicTransform), ByMode(JsonPatch)}) ==>
              c.branchingLoop(s.attempts + [a]).None?)
  {
    JudgeFacts(c, prompt, s, t);
  }
}
