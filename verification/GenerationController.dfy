/** The controller object: the loop over mutable variables, the contribution telemetry, and the checkpoint writer. */
module GenerationController {
  import opened Prelude
  import opened Contribution
  import opened Generation
  import GenerationProvenance
  import GenerationRuns

  /** A run whose checkpoints follow others already written. */
  function After(written: seq<Checkpoint>, r: Run): Run { r.(log := written + r.log) }

  /** A run entered in a good state is a good run. */
  predicate GoodFrom(c: Controller, prompt: Prompt, s: State, t: nat) {
    GenerationRuns.GoodState(c, s, t) ==> GenerationRuns.GoodRun(c, RunFrom(c, prompt, s, t))
  }

  /** A run entered with an accounted draft validates nothing but its workers' answers. */
  predicate AnswersFrom(c: Controller, prompt: Prompt, s: State, t: nat) {
    GenerationProvenance.Accounted(c, s) ==>
      GenerationProvenance.Chained(c, RunFrom(c, prompt, s, t).session.attempts)
  }

  lemma AnswersFromAccounted(c: Controller, prompt: Prompt, s: State, t: nat)
    ensures AnswersFrom(c, prompt, s, t)
  {
    if GenerationProvenance.Accounted(c, s) { GenerationProvenance.DraftsAreAnswers(c, prompt, s, t); }
    hide GenerationProvenance.Accounted, GenerationProvenance.Chained, RunFrom;
  }

  lemma GoodFromGood(c: Controller, prompt: Prompt, s: State, t: nat)
    ensures GoodFrom(c, prompt, s, t)
  {
    if GenerationRuns.GoodState(c, s, t) { GenerationRuns.RunsAreGood(c, prompt, s, t); }
  }

  class GenerationController {
    const config: Controller
    var scheduled: seq<Provider>
    var written: seq<Checkpoint>

    constructor (config: Controller)
      ensures this.config == config && scheduled == [] && written == []
    {
      this.config := config;
      scheduled, written := [], [];
    }

    /**
     * A draft passes exactly when every configured gate passes it; the profiler is asked only about drafts the
     * policy and the behaviour run passed, and only a compliant behaviour run lets the policy demote findings.
     */
    method ValidateDraft(t: nat, draft: Draft) returns (report: Report)
      ensures report == Gates(config, t, draft)
      ensures report.Passed() <==>
        && config.policy(config.scan(t, draft), config.behavior.Some? && config.behavior.value(t, draft).ok).ok
        && (config.behavior.Some? ==> config.behavior.value(t, draft).ok)
        && (config.profiler.Some? && config.canExecute(draft) ==> config.profiler.value(t, draft).ok)
        && config.formal(t, draft).ok
      ensures report.profiling != Gate(true, "") ==> report.checks.ok && report.behavior.ok && config.canExecute(draft)
      ensures !report.behavior.ok || config.behavior.None? ==> report.checks == config.policy(report.findings, false)
    {
      var findings := config.scan(t, draft);
      var checks := config.policy(findings, false);
      var behavior := Gate(true, "");
      if config.behavior.Some? {
        behavior := config.behavior.value(t, draft);
        if behavior.ok {
          checks := config.policy(findings, true);
        }
      }
      var profiling := Gate(true, "");
      if config.profiler.Some? && checks.ok && behavior.ok && config.canExecute(draft) {
        profiling := config.profiler.value(t, draft);
      }
      return Report(findings, checks, behavior, profiling, config.formal(t, draft));
    }

    /** The flags as the loop body sets them, each later reason overwriting an earlier one. */
    method JudgeAttempt(prompt: Prompt, s: State, t: nat) returns (j: Judged)
      ensures j == Judge(config, prompt, s, t)
    {
      hide Gates, Diagnose, RouteRepair, Recorded;
      var report := ValidateDraft(t, s.draft);
      var complete := report.Passed();
      var diagnosis := Diagnose(config, s, t, report);
      var forced: Option<Reason> := None;
      var state := s;
      if report.checks.lintSkipped {
        forced := Some(LintSkipped);
      }
      if !complete && s.source.Architect? && !report.checks.ok && config.architectRetry && !s.retryUsed
         && t < config.maxRetries {
        state := state.(retryUsed := true);
      } else if !complete && s.source.Architect? && !report.checks.ok {
        if config.scopeAmbiguous(report) {
          forced := Some(MetricScopeAmbiguous);
        } else if s.failed != [] && s.failed[0].backendFailure {
          forced := Some(ArchitectAfterBackendFailureStatic);
        } else {
          forced := Some(ArchitectStatic);
        }
      }
      if !complete && s.source.Constrained() && config.architect.None? {
        forced := Some(ConstrainedValidationFailed);
      }
      assert forced == Forced(config, s, t, report);
      var routing: Option<Routing> := None;
      if forced.None? && !complete && MayRoute(config, s, t) {
        routing := Some(RouteRepair(config, prompt, s, t, report, diagnosis));
        forced := routing.value.forced;
        if routing.value.memo.Some? {
          state := state.(consulted := state.consulted + 1);
        }
      }
      return Judged(Recorded(config, s, t, report, diagnosis, routing), state, forced, routing);
    }

    method CallRepairWorker(t: nat, draft: Draft, prompt: Prompt, worker: Worker, primary: Option<Evidence>)
      returns (reply: Reply)
      modifies this`scheduled
      ensures (reply, scheduled) == CallWorker(config, t, draft, prompt, worker, primary, old(scheduled))
    {
      if worker.Transform? {
        if primary.None? {
          return ConstrainedError;
        }
        var made := config.transform(draft, primary.value);
        return if made.None? then ConstrainedError else Drafted(made.value, Transform);
      }
      if worker.Patch? {
        var answer := config.small(t, draft, prompt);
        if answer.None? {
          return ConstrainedError;
        }
        var made := config.applyPatch(draft, answer.value);
        return if made.None? then ConstrainedError else Drafted(made.value, Patch);
      }
      if worker.Architect? {
        if config.architect.None? {
          return SupplierError;
        }
        var answer := config.architect.value(t, draft, prompt);
        return OrSupplierError(answer, Architect);
      }
      if config.schedule.Some? {
        reply := CallScheduled(config.schedule.value, t, draft, prompt);
        return;
      }
      return OrSupplierError(config.small(t, draft, prompt), SmallWorker);
    }

    /** The call index is the number of calls recorded so far; a call that raises is not recorded. */
    method CallScheduled(w: WeightedSchedule, t: nat, draft: Draft, prompt: Prompt) returns (reply: Reply)
      modifies this`scheduled
      ensures (reply, scheduled) == WeightedRepair(config, w, t, draft, prompt, old(scheduled))
      ensures reply.Drafted? <==> |scheduled| == |old(scheduled)| + 1
      ensures reply.SupplierError? <==> scheduled == old(scheduled)
      ensures old(scheduled) == w.Sequence(|old(scheduled)|) ==> scheduled == w.Sequence(|scheduled|)
      ensures
        var provider := w.ProviderAt(|old(scheduled)|);
        if provider.Api? then
          if config.architect.Some? && config.architect.value(t, draft, prompt).Some?
          then
            && reply == Drafted(config.architect.value(t, draft, prompt).value, Architect)
            && scheduled == old(scheduled) + [Api]
          else reply == SupplierError && scheduled == old(scheduled)
        else if config.small(t, draft, prompt).Some? then
          reply == Drafted(config.small(t, draft, prompt).value, SmallWorker) && scheduled == old(scheduled) + [Qwen]
        else reply == SupplierError && scheduled == old(scheduled)
    {
      var provider := w.ProviderAt(|scheduled|);
      var answer: Option<Draft>;
      if provider.Api? {
        if config.architect.None? {
          return SupplierError;
        }
        answer := config.architect.value(t, draft, prompt);
      } else {
        answer := config.small(t, draft, prompt);
      }
      if answer.None? {
        return SupplierError;
      }
      scheduled := scheduled + [provider];
      return Drafted(answer.value, if provider.Api? then Architect else SmallWorker);
    }

    /** From the recorded attempt to the next draft, or to the end of the run. */
    method RepairDraft(prompt: Prompt, s: State, t: nat, a: Attempt, worker: Worker, primary: Option<Evidence>)
      returns (o: Outcome)
      requires s.scheduled == scheduled
      modifies this`scheduled
      ensures o == Repair(config, prompt, s, t, a, worker, primary)
      ensures scheduled == CallWorker(config, t, s.draft, a.retryPrompt, worker, primary, old(scheduled)).1
      ensures !a.report.Passed() ==> GenerationRuns.GoodOutcome(config, s, a, o)
      ensures
        var routed := worker.SmallWorker? || worker.Architect? || worker.Constrained();
        routed && a.index == t && a.draft == s.draft && primary == config.topViolation(a.report) ==>
          GenerationProvenance.Traces(config, s, a, o)
    {
      if a.index == t && a.draft == s.draft && primary == config.topViolation(a.report)
         && (worker.SmallWorker? || worker.Architect? || worker.Constrained()) {
        GenerationProvenance.RepairTraces(config, prompt, s, t, a, worker);
      }
      hide GenerationProvenance.Traces, GenerationRuns.GoodOutcome;
      if !a.report.Passed() { GenerationRuns.RepairGood(config, prompt, s, t, a, worker, primary); }
      var reply := CallRepairWorker(t, s.draft, a.retryPrompt, worker, primary);
      var state := s.(scheduled := scheduled);
      hide CallWorker, AfterReply, AfterConstrainedError;
      match reply {
        case SupplierError =>
          o := GiveUp(state, a.(repairError := true, route := By(worker)), RepairSupplierError);
        case ConstrainedError =>
          o := EscalateConstrained(prompt, state, t, a, worker);
        case Drafted(draft, author) =>
          o := AcceptOrEscalate(prompt, state, t, a.(route := By(author)), draft, author);
      }
    }

    method EscalateConstrained(prompt: Prompt, s: State, t: nat, a: Attempt, worker: Worker) returns (o: Outcome)
      ensures o == AfterConstrainedError(config, prompt, s, t, a, worker)
    {
      var attempt := a.(repairError := true);
      if config.architect.None? {
        return GiveUp(s, attempt, PatchFailed);
      }
      attempt := attempt.(route := Escalated(worker));
      var asked := config.prompts.scoped(s.draft, a.report, a.deltas, Architect, prompt, s.failed + [attempt]);
      asked := config.prompts.differentAngle(asked);
      attempt := attempt.(retryPrompt := asked);
      var answer := config.architect.value(t, s.draft, asked);
      if answer.None? || answer.value == s.draft {
        return GiveUp(s, attempt, PatchFailed);
      }
      return Retry(s, attempt, answer.value, Architect);
    }

    method AcceptOrEscalate(prompt: Prompt, s: State, t: nat, a: Attempt, draft: Draft, worker: Worker)
      returns (o: Outcome)
      ensures o == AfterReply(config, prompt, s, t, a, draft, worker)
    {
      var stagnant := draft == s.draft;
      var diagnosticStagnant := a.diagnosticStagnant && !worker.Architect?;
      if (stagnant || diagnosticStagnant) && worker.SmallWorker? && a.memos == [] {
        var memo := Consult(config, s.consulted, t, NoProgressRepair, s.draft);
        if memo.Some? {
          o := RetryWithAdvice(s, t, a, memo.value);
          return;
        }
      }
      if (stagnant || diagnosticStagnant) && !worker.Constrained() && a.memos == [] {
        if worker.Architect? {
          return GiveUp(s, a, ArchitectStagnant);
        }
        o := EscalateStagnant(prompt, s, t, a, worker);
        return;
      }
      return Retry(s, a, draft, worker);
    }

    method RetryWithAdvice(s: State, t: nat, a: Attempt, memo: string) returns (o: Outcome)
      ensures o == AfterAdvice(config, s, t, a, memo)
    {
      var asked := config.prompts.withMemo(a.retryPrompt, memo);
      var attempt := a.(retryPrompt := asked, memos := [memo]);
      var state := s.(consulted := s.consulted + 1);
      var answer := config.small(t, s.draft, asked);
      if answer.None? {
        return GiveUp(state, attempt.(repairError := true), RepairSupplierError);
      }
      return Retry(state, attempt, answer.value, SmallWorker);
    }

    method EscalateStagnant(prompt: Prompt, s: State, t: nat, a: Attempt, worker: Worker) returns (o: Outcome)
      requires !worker.Architect?
      ensures o == AfterStagnation(config, prompt, s, t, a, worker)
    {
      if WorkerFor(config, |s.failed| + 1) != Architect {
        return GiveUp(s, a, StagnantRepair);
      }
      var attempt := a.(route := Escalated(SmallWorker));
      var asked := config.prompts.escalation(s.draft, a.report, a.deltas, prompt, s.failed + [attempt]);
      asked := config.prompts.differentAngle(asked);
      attempt := attempt.(retryPrompt := asked);
      var answer := config.architect.value(t, s.draft, asked);
      if answer.None? {
        return GiveUp(s, attempt.(repairError := true), RepairSupplierError);
      }
      if answer.value != s.draft {
        return Retry(s, attempt, answer.value, Architect);
      }
      return GiveUp(s, attempt, ArchitectStagnant);
    }

    method WriteCheckpoint(cp: Checkpoint)
      modifies this`written
      ensures written == old(written) + [cp]
    {
      written := written + [cp];
    }

    /** `run` from its first attempt on. */
    method Loop(prompt: Prompt, start: State, from: nat) returns (session: Session)
      requires start.scheduled == scheduled
      modifies this
      ensures var r := RunFrom(config, prompt, start, from);
        session == r.session && written == old(written) + r.log && scheduled == r.scheduled
      ensures GoodFrom(config, prompt, start, from)
      ensures AnswersFrom(config, prompt, start, from)
    {
      AnswersFromAccounted(config, prompt, start, from);
      hide AnswersFrom;
      hide GenerationRuns.GoodState, GenerationRuns.GoodRun, GoodFrom;
      GoodFromGood(config, prompt, start, from);
      hide Judge, Decide, Repair, Recording, Ready, Ending, OutOfAttempts, CallWorker;
      var s, t := start, from;
      while t < config.maxRetries + 2
        invariant s.scheduled == scheduled
        invariant After(written, RunFrom(config, prompt, s, t))
               == After(old(written), RunFrom(config, prompt, start, from))
        decreases config.maxRetries + 2 - t
      {
        ghost var before, was := s, written;
        var j := JudgeAttempt(prompt, s, t);
        JudgedSchedule(config, prompt, s, t);
        UnfoldRun(config, prompt, s, t);
        WriteCheckpoint(Recording(j, t));
        var o := DecideAttempt(prompt, t, j);
        if o.Stop? {
          session := o.session;
          written := written + Ending(session, j.state, t);
          assert written == was + ([Recording(j, t)] + Ending(session, j.state, t));
          return;
        }
        s := o.next;
        WriteCheckpoint(Ready(s, t));
        ghost var rest := RunFrom(config, prompt, s, t + 1).log;
        assert written + rest == was + ([Recording(j, t), Ready(s, t)] + rest);
        t := t + 1;
      }
      session := OutOfAttempts(s.attempts);
      written := written + Ending(session, s, t);
    }

    /** Complete, or a loop, or review forced, or nothing left to route; otherwise the repair. */
    method DecideAttempt(prompt: Prompt, t: nat, j: Judged) returns (o: Outcome)
      requires j.state.scheduled == scheduled
      modifies this`scheduled
      ensures o == Decide(config, prompt, t, j)
      ensures scheduled == if o.Stop? then o.scheduled else o.next.scheduled
    {
      if j.attempt.report.Passed() {
        return Stop(Session(j.state.attempts + [j.attempt], true, Some(Validated), None), j.state.consulted, scheduled);
      }
      if j.forced.None? && !(j.routing.Some? && j.routing.value.worker.Constrained()) {
        var loop := config.branchingLoop(j.state.attempts + [j.attempt]);
        if loop.Some? {
          return GiveUp(j.state, j.attempt.(branchLoop := loop), BranchLoop(loop.value));
        }
      }
      if j.forced.Some? {
        return GiveUp(j.state, j.attempt, j.forced.value);
      }
      if j.routing.None? {
        return GiveUp(j.state, j.attempt, MaxRetriesExhausted);
      }
      var worker, primary := j.routing.value.worker, config.topViolation(j.attempt.report);
      GenerationRuns.RepairSchedule(config, prompt, j.state, t, j.attempt, worker, primary);
      hide Repair, CallWorker;
      o := RepairDraft(prompt, j.state, t, j.attempt, worker, primary);
    }

    /** A request, from its first draft. */
    method Run(request: Prompt) returns (session: Session)
      modifies this
      ensures var r := Generate(config, request, old(scheduled));
        && session == r.session && written == old(written) + r.log && scheduled == r.scheduled
        && (config.maxRetries >= 0 && GenerationRuns.OnSchedule(config, old(scheduled)) ==>
              GenerationRuns.GoodRun(config, r) && GenerationRuns.OnSchedule(config, scheduled))
        && (config.maxRetries >= 0 ==>
              && session.attempts != [] && GenerationProvenance.Chained(config, session.attempts)
              && GenerationProvenance.Begins(config, config.prompts.history(request), old(scheduled),
                                             session.attempts[0])
              && GenerationProvenance.EndsUnstarted(config, session))
    {
      if config.maxRetries >= 0 { GenerationProvenance.GeneratedDraftsAreAnswers(config, request, scheduled); }
      hide GenerationProvenance.Chained, GenerationProvenance.Begins, GenerationProvenance.Accounted,
        GenerationProvenance.EndsUnstarted;
      if config.maxRetries >= 0 && GenerationRuns.OnSchedule(config, scheduled) {
        GenerationRuns.GeneratedRunsAreGood(config, request, scheduled);
      }
      hide GenerationRuns.GoodState, GenerationRuns.GoodRun, GenerationRuns.OnSchedule;
      hide RunFrom;
      var prompt := config.prompts.history(request);
      var made := FirstDraft(prompt);
      if made.Some? {
        session := Loop(prompt, Fresh([], made.value.0, made.value.1, scheduled), 0);
        return;
      }
      var retry := config.prompts.backendFailure(prompt);
      if config.architect.None? {
        var a := BackendAttempt(config, prompt, NoRepair, false);
        return Session([a], false, None, Some(Review(InitialBackendFailure, a)));
      }
      var answer := config.architect.value(0, "", retry);
      if answer.None? {
        var a := BackendAttempt(config, prompt, By(Architect), true);
        return Session([a], false, None, Some(Review(ArchitectAfterBackendFailureFailed, a)));
      }
      var a := BackendAttempt(config, prompt, By(Architect), false);
      session := Loop(config.prompts.history(retry), Fresh([a], answer.value, Architect, scheduled), 1);
    }

    method FirstDraft(prompt: Prompt) returns (made: Option<(Draft, Worker)>)
      modifies this`scheduled
      ensures (made, scheduled) == InitialDraft(config, prompt, old(scheduled))
      ensures
        var api := config.schedule.Some? && config.schedule.value.ProviderAt(|old(scheduled)|).Api?;
        var answer := if !api then config.draftSupplier(prompt)
                      else if config.architect.None? then None else config.architect.value(0, "", prompt);
        if answer.None? then made == None && scheduled == old(scheduled)
        else
          && made == Some((answer.value, if config.schedule.None? then DraftSupplier
                                         else if api then Architect else SmallWorker))
          && scheduled == old(scheduled) + (if config.schedule.None? then [] else if api then [Api] else [Qwen])
    {
      var answer: Option<Draft>;
      if config.schedule.None? {
        answer := config.draftSupplier(prompt);
        return Sourced(answer, DraftSupplier);
      }
      var provider := config.schedule.value.ProviderAt(|scheduled|);
      if provider.Api? {
        if config.architect.None? {
          return None;
        }
        answer := config.architect.value(0, "", prompt);
      } else {
        answer := config.draftSupplier(prompt);
      }
      if answer.None? {
        return None;
      }
      scheduled := scheduled + [provider];
      return Some((answer.value, if provider.Api? then Architect else SmallWorker));
    }
  }

  lemma JudgedSchedule(c: Controller, prompt: Prompt, s: State, t: nat)
    ensures Judge(c, prompt, s, t).state.scheduled == s.scheduled
  {
  }

  lemma UnfoldRun(c: Controller, prompt: Prompt, s: State, t: nat)
    requires t < c.maxRetries + 2
    ensures var j := Judge(c, prompt, s, t);
      RunFrom(c, prompt, s, t) == GenerationRuns.Joined(c, prompt, j, t, Decide(c, prompt, t, j))
  {
    GenerationRuns.RunUnfolds(c, prompt, s, t);
  }
}
