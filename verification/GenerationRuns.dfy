/** What every run of the generation loop keeps. */
module GenerationRuns {
  import opened Prelude
  import opened Contribution
  import opened Generation

  // ---------------------------------------------------------------- one iteration

  /** The attempt as it ends up in the session: its verdict is the recorded one. */
  predicate SameVerdict(a: Attempt, b: Attempt) {
    && a.index == b.index && a.draft == b.draft && a.report == b.report && a.source == b.source
    && a.backendFailure == b.backendFailure
  }

  /** The attempts with one more at the end, which has the given verdict. */
  predicate Extends(after: seq<Attempt>, before: seq<Attempt>, a: Attempt) {
    && |after| == |before| + 1 && before <= after && SameVerdict(after[|before|], a)
  }

  /** Consultations stay within the limit, and calls are recorded as the schedule says. */
  predicate BooksKept(c: Controller, s: State, consulted: nat, scheduled: seq<Provider>) {
    && s.consulted <= consulted && (consulted > s.consulted ==> consulted <= c.peerLimit)
    && (scheduled == s.scheduled
        || (c.schedule.Some? && scheduled == s.scheduled + [c.schedule.value.ProviderAt(|s.scheduled|)]))
  }

  /** A session ended on its last attempt, for review unless that attempt passed. */
  predicate EndedOn(session: Session, a: Attempt) {
    && session.completed == a.report.Passed()
    && (if session.completed then session.termination == Some(Validated) && session.review.None?
        else
          && session.review.Some? && session.review.value.attempt == a
          && session.termination == Some(session.review.value.reason))
  }

  predicate GoodStop(c: Controller, s: State, a: Attempt, session: Session, consulted: nat, scheduled: seq<Provider>) {
    && Extends(session.attempts, s.attempts, a)
    && EndedOn(session, session.attempts[|s.attempts|])
    && BooksKept(c, s, consulted, scheduled)
  }

  predicate GoodContinue(c: Controller, s: State, a: Attempt, next: State) {
    && Extends(next.attempts, s.attempts, a) && Extends(next.failed, s.failed, a)
    && (s.attempts == s.failed ==> next.attempts == next.failed)
    && next.previous == s.draft && next.retryUsed == s.retryUsed
    && BooksKept(c, s, next.consulted, next.scheduled)
  }

  predicate GoodOutcome(c: Controller, s: State, a: Attempt, o: Outcome) {
    match o
    case Stop(session, consulted, scheduled) => GoodStop(c, s, a, session, consulted, scheduled)
    case Continue(next) => GoodContinue(c, s, a, next) && !a.report.Passed()
  }

  lemma ConstrainedErrorGood(c: Controller, prompt: Prompt, s: State, t: nat, a: Attempt, worker: Worker)
    requires !a.report.Passed()
    ensures GoodOutcome(c, s, a, AfterConstrainedError(c, prompt, s, t, a, worker))
  {
  }

  lemma StagnationGood(c: Controller, prompt: Prompt, s: State, t: nat, a: Attempt, worker: Worker)
    requires !a.report.Passed()
    ensures GoodOutcome(c, s, a, AfterStagnation(c, prompt, s, t, a, worker))
  {
  }

  lemma AdviceGood(c: Controller, s: State, t: nat, a: Attempt, memo: string)
    requires !a.report.Passed() && s.consulted < c.peerLimit
    ensures GoodOutcome(c, s, a, AfterAdvice(c, s, t, a, memo))
  {
  }

  lemma RetryGood(c: Controller, s: State, a: Attempt, draft: Draft, source: Worker)
    requires !a.report.Passed()
    ensures GoodOutcome(c, s, a, Retry(s, a, draft, source))
  {
  }

  lemma GiveUpGood(c: Controller, s: State, a: Attempt, b: Attempt, reason: Reason)
    requires !a.report.Passed() && SameVerdict(b, a)
    ensures GoodOutcome(c, s, a, GiveUp(s, b, reason))
  {
  }

  lemma ConsultWithinLimit(c: Controller, consulted: nat, t: nat, trigger: Trigger, draft: Draft)
    requires Consult(c, consulted, t, trigger, draft).Some?
    ensures c.peer.Some? && consulted < c.peerLimit
  {
  }

  lemma ReplyGood(c: Controller, prompt: Prompt, s: State, t: nat, a: Attempt, draft: Draft, worker: Worker)
    requires !a.report.Passed()
    ensures GoodOutcome(c, s, a, AfterReply(c, prompt, s, t, a, draft, worker))
  {
    hide AfterStagnation, AfterAdvice, GoodOutcome, Retry, Consult;
    StagnationGood(c, prompt, s, t, a, worker);
    RetryGood(c, s, a, draft, worker);
    var memo := Consult(c, s.consulted, t, NoProgressRepair, s.draft);
    if memo.Some? {
      ConsultWithinLimit(c, s.consulted, t, NoProgressRepair, s.draft);
      AdviceGood(c, s, t, a, memo.value);
    }
  }

  lemma CallBooks(c: Controller, s: State, t: nat, prompt: Prompt, worker: Worker, primary: Option<Evidence>)
    ensures BooksKept(c, s, s.consulted, CallWorker(c, t, s.draft, prompt, worker, primary, s.scheduled).1)
  {
  }

  /** Good for the state with the call recorded is good for the state before it. */
  lemma GoodBefore(c: Controller, s: State, scheduled: seq<Provider>, a: Attempt, b: Attempt, o: Outcome)
    requires BooksKept(c, s, s.consulted, scheduled)
    requires GoodOutcome(c, s.(scheduled := scheduled), b, o) && SameVerdict(b, a)
    requires KeepsSchedule(scheduled, o)
    ensures GoodOutcome(c, s, a, o)
  {
  }

  /** Nothing after the worker's own call is recorded. */
  predicate KeepsSchedule(scheduled: seq<Provider>, o: Outcome) {
    match o
    case Stop(_, _, recorded) => recorded == scheduled
    case Continue(next) => next.scheduled == scheduled
  }

  lemma RepairGood(c: Controller, prompt: Prompt, s: State, t: nat, a: Attempt, worker: Worker,
                   primary: Option<Evidence>)
    requires !a.report.Passed()
    ensures GoodOutcome(c, s, a, Repair(c, prompt, s, t, a, worker, primary))
  {
    var (reply, scheduled) := CallWorker(c, t, s.draft, a.retryPrompt, worker, primary, s.scheduled);
    var called := s.(scheduled := scheduled);
    CallBooks(c, s, t, a.retryPrompt, worker, primary);
    var o := Repair(c, prompt, s, t, a, worker, primary);
    match reply {
      case ConstrainedError =>
        ConstrainedErrorGood(c, prompt, called, t, a, worker);
        ConstrainedErrorSchedule(c, prompt, called, t, a, worker);
        hide *;
        GoodBefore(c, s, scheduled, a, a, o);
      case SupplierError =>
        var b := a.(repairError := true, route := By(worker));
        GiveUpGood(c, called, a, b, RepairSupplierError);
        GoodBefore(c, s, scheduled, a, a, o);
      case Drafted(draft, author) =>
        var b := a.(route := By(author));
        ReplyGood(c, prompt, called, t, b, draft, author);
        ReplySchedule(c, prompt, called, t, b, draft, author);
        GoodBefore(c, s, scheduled, a, b, o);
    }
  }

  lemma ConstrainedErrorSchedule(c: Controller, prompt: Prompt, s: State, t: nat, a: Attempt, worker: Worker)
    ensures KeepsSchedule(s.scheduled, AfterConstrainedError(c, prompt, s, t, a, worker))
  {
  }

  lemma ReplySchedule(c: Controller, prompt: Prompt, s: State, t: nat, a: Attempt, draft: Draft, worker: Worker)
    ensures KeepsSchedule(s.scheduled, AfterReply(c, prompt, s, t, a, draft, worker))
  {
  }

  /** What one judged attempt is, whatever is decided about it. */
  lemma JudgeFacts(c: Controller, prompt: Prompt, s: State, t: nat)
    ensures var j := Judge(c, prompt, s, t);
      && j.attempt.index == t && j.attempt.draft == s.draft && j.attempt.source == s.source
      && !j.attempt.backendFailure && j.attempt.report == Gates(c, t, s.draft)
      && (j.attempt.selected.Complete? <==> j.attempt.report.Passed())
      && j.state == s.(retryUsed := j.state.retryUsed, consulted := j.state.consulted)
      && (j.state.retryUsed <==> s.retryUsed || GrantsRetry(c, s, t, j.attempt.report))
      && BooksKept(c, s, j.state.consulted, s.scheduled)
      && (c.peer.None? ==> j.attempt.memos == [])
      && (j.routing.Some? <==> Routes(c, s, t, j.attempt.report))
      && (j.routing.None? ==> j.forced == Forced(c, s, t, j.attempt.report) && j.attempt.route.NoRepair?)
      && (j.routing.Some? ==>
            j.attempt.route == By(j.routing.value.worker) && j.attempt.retryPrompt == j.routing.value.prompt)
  {
    hide Gates, Forced, GrantsRetry, Routes;
    var report := Gates(c, t, s.draft);
    var d := Diagnose(c, s, t, report);
    var r := RouteRepair(c, prompt, s, t, report, d);
    RoutingFacts(c, prompt, s, t, report, d);
    hide RouteRepair, Diagnose;
  }

  lemma RoutingFacts(c: Controller, prompt: Prompt, s: State, t: nat, report: Report, d: Diagnosis)
    ensures var r := RouteRepair(c, prompt, s, t, report, d);
      && !r.selected.Complete? && !r.selected.Unrouted?
      && (r.memo.Some? ==> r.worker.SmallWorker? && c.peer.Some? && s.consulted < c.peerLimit)
      && (s.source.Constrained() ==> r.worker.Architect?)
      && (r.worker.SmallWorker? || r.worker.Architect? || r.worker.Constrained())
  {
    var base := BaseWorker(c, s, d);
    var trigger := if d.stagnant then DiagnosticStagnation else SemanticStagnation;
    if Consult(c, s.consulted, t, trigger, s.draft).Some? {
      ConsultWithinLimit(c, s.consulted, t, trigger, s.draft);
    }
    hide Consult;
  }

  lemma DecideGood(c: Controller, prompt: Prompt, t: nat, j: Judged)
    ensures GoodOutcome(c, j.state, j.attempt, Decide(c, prompt, t, j))
    ensures Decide(c, prompt, t, j).Continue? ==>
      j.routing.Some? && j.forced.None? && !j.attempt.report.Passed()
  {
    hide Repair, GoodOutcome, LoopFound, EndedOn;
    var loop := LoopFound(c, j);
    if j.attempt.report.Passed() {
      CompleteGood(c, j.state, j.attempt);
    } else if loop.Some? {
      GiveUpGood(c, j.state, j.attempt, j.attempt.(branchLoop := loop), BranchLoop(loop.value));
    } else if j.forced.Some? {
      GiveUpGood(c, j.state, j.attempt, j.attempt, j.forced.value);
    } else if j.routing.None? {
      GiveUpGood(c, j.state, j.attempt, j.attempt, MaxRetriesExhausted);
    } else {
      RepairGood(c, prompt, j.state, t, j.attempt, j.routing.value.worker, c.topViolation(j.attempt.report));
    }
  }

  lemma CompleteGood(c: Controller, s: State, a: Attempt)
    requires a.report.Passed()
    ensures GoodOutcome(c, s, a, Stop(Session(s.attempts + [a], true, Some(Validated), None), s.consulted, s.scheduled))
  {
  }

  /** The worker's own call is the only one a repair records. */
  lemma RepairSchedule(c: Controller, prompt: Prompt, s: State, t: nat, a: Attempt, worker: Worker,
                       primary: Option<Evidence>)
    ensures KeepsSchedule(CallWorker(c, t, s.draft, a.retryPrompt, worker, primary, s.scheduled).1,
                          Repair(c, prompt, s, t, a, worker, primary))
  {
    var (reply, scheduled) := CallWorker(c, t, s.draft, a.retryPrompt, worker, primary, s.scheduled);
    var called := s.(scheduled := scheduled);
    hide CallWorker, AfterConstrainedError, AfterReply;
    ConstrainedErrorSchedule(c, prompt, called, t, a, worker);
    if reply.Drafted? { ReplySchedule(c, prompt, called, t, a.(route := By(reply.worker)), reply.draft, reply.worker); }
  }

  // ---------------------------------------------------------------- the last attempt is the architect's

  /** After a constrained repair that failed validation only the architect is asked, and only its draft goes on. */
  lemma ArchitectOnly(c: Controller, prompt: Prompt, s: State, t: nat, a: Attempt, primary: Option<Evidence>)
    ensures var o := Repair(c, prompt, s, t, a, Architect, primary);
      o.Continue? ==> o.next.source.Architect?
  {
  }

  // ---------------------------------------------------------------- whole runs

  function ArchitectStaticFailures(attempts: seq<Attempt>): nat {
    if attempts == [] then 0
    else
      var last := attempts[|attempts| - 1];
      ArchitectStaticFailures(attempts[..|attempts| - 1])
      + (if last.source.Architect? && !last.report.checks.ok then 1 else 0)
  }

  predicate Numbered(attempts: seq<Attempt>) {
    forall k :: 0 <= k < |attempts| ==> attempts[k].index == k
  }

  predicate AllFailed(attempts: seq<Attempt>) {
    forall k :: 0 <= k < |attempts| ==> !attempts[k].report.Passed()
  }

  predicate OnSchedule(c: Controller, scheduled: seq<Provider>) {
    c.schedule.Some? ==> scheduled == c.schedule.value.Sequence(|scheduled|)
  }

  /** What holds each time the loop is about to validate attempt t. */
  predicate GoodState(c: Controller, s: State, t: nat) {
    && s.attempts == s.failed && |s.attempts| == t <= c.maxRetries + 1
    && Numbered(s.attempts) && AllFailed(s.attempts)
    && (t == c.maxRetries + 1 ==> s.source.Architect?)
    && s.consulted <= c.peerLimit && OnSchedule(c, s.scheduled)
    && ArchitectStaticFailures(s.attempts) == (if s.retryUsed then 1 else 0)
    && (s.retryUsed ==> c.architectRetry)
  }

  /** What every finished run is. */
  predicate GoodRun(c: Controller, r: Run) {
    var attempts := r.session.attempts;
    var last := |attempts| - 1;
    && 0 < |attempts| <= c.maxRetries + 2
    && Numbered(attempts) && AllFailed(attempts[..last])
    && r.session.completed == attempts[last].report.Passed()
    && (!r.session.completed ==> r.session.review.Some? && r.session.review.value.attempt == attempts[last])
    && (|attempts| == c.maxRetries + 2 ==> attempts[last].source.Architect?)
    && ArchitectStaticFailures(attempts[..last]) <= (if c.architectRetry then 1 else 0)
    && r.consulted <= c.peerLimit && OnSchedule(c, r.scheduled)
  }

  lemma ScheduleStep(c: Controller, s: State, consulted: nat, scheduled: seq<Provider>)
    requires BooksKept(c, s, consulted, scheduled) && s.consulted <= c.peerLimit && OnSchedule(c, s.scheduled)
    ensures consulted <= c.peerLimit && OnSchedule(c, scheduled)
  {
    if c.schedule.Some? && scheduled != s.scheduled {
      var w := c.schedule.value;
      assert w.Sequence(|scheduled|) == w.Sequence(|s.scheduled|) + [w.ProviderAt(|s.scheduled|)];
    }
  }

  lemma CountExtends(after: seq<Attempt>, before: seq<Attempt>, a: Attempt)
    requires Extends(after, before, a)
    ensures ArchitectStaticFailures(after) == ArchitectStaticFailures(before)
      + (if a.source.Architect? && !a.report.checks.ok then 1 else 0)
  {
    assert after[..|before|] == before;
  }

  lemma ExtendsFailed(after: seq<Attempt>, before: seq<Attempt>, a: Attempt)
    requires Extends(after, before, a) && Numbered(before) && AllFailed(before) && a.index == |before|
    ensures Numbered(after) && after[..|before|] == before && (!a.report.Passed() ==> AllFailed(after))
    ensures after[|before|].report == a.report && after[|before|].source == a.source
  {
    assert forall k :: 0 <= k < |before| ==> after[k] == before[k];
  }

  /** Another iteration is only granted within the bounds, and the one past the limit goes to the architect. */
  lemma ContinueBounds(c: Controller, prompt: Prompt, s: State, t: nat)
    requires GoodState(c, s, t)
    requires Decide(c, prompt, t, Judge(c, prompt, s, t)).Continue?
    ensures t <= c.maxRetries
    ensures t == c.maxRetries ==> Decide(c, prompt, t, Judge(c, prompt, s, t)).next.source.Architect?
  {
    hide GoodOutcome, Numbered, AllFailed, Repair;
    var j := Judge(c, prompt, s, t);
    JudgeFacts(c, prompt, s, t);
    DecideGood(c, prompt, t, j);
    assert MayRoute(c, s, t);
    if t == c.maxRetries {
      var report := Gates(c, t, s.draft);
      RoutingFacts(c, prompt, s, t, report, Diagnose(c, s, t, report));
      assert j.routing.value.worker.Architect?;
      ArchitectOnly(c, prompt, j.state, t, j.attempt, c.topViolation(j.attempt.report));
      assert Decide(c, prompt, t, j)
        == Repair(c, prompt, j.state, t, j.attempt, Architect, c.topViolation(j.attempt.report));
    }
  }

  /** A routed repair of a failed architect draft has used the one retry. */
  lemma RetryAccounted(c: Controller, s: State, t: nat, report: Report)
    requires Routes(c, s, t, report) && s.source.Architect? && !report.checks.ok
    ensures GrantsRetry(c, s, t, report) && !s.retryUsed && c.architectRetry
  {
  }

  lemma StepKeeps(c: Controller, prompt: Prompt, s: State, t: nat)
    requires GoodState(c, s, t)
    ensures var j := Judge(c, prompt, s, t);
      var o := Decide(c, prompt, t, j);
      o.Continue? ==> GoodState(c, o.next, t + 1)
  {
    var j := Judge(c, prompt, s, t);
    var o := Decide(c, prompt, t, j);
    if o.Continue? {
      JudgeFacts(c, prompt, s, t);
      DecideGood(c, prompt, t, j);
      ContinueBounds(c, prompt, s, t);
      assert GoodContinue(c, j.state, j.attempt, o.next);
      if s.source.Architect? && !j.attempt.report.checks.ok { RetryAccounted(c, s, t, j.attempt.report); }
      hide Judge, Decide, Numbered, AllFailed, OnSchedule, Gates, Routes, GoodOutcome;
      ScheduleStep(c, s, j.state.consulted, s.scheduled);
      ScheduleStep(c, j.state, o.next.consulted, o.next.scheduled);
      ExtendsFailed(o.next.attempts, s.attempts, j.attempt);
      CountExtends(o.next.attempts, s.attempts, j.attempt);
    }
  }

  lemma StopGood(c: Controller, prompt: Prompt, s: State, t: nat)
    requires GoodState(c, s, t)
    ensures var j := Judge(c, prompt, s, t);
      var o := Decide(c, prompt, t, j);
      o.Stop? ==> forall log :: GoodRun(c, Run(o.session, log, o.consulted, o.scheduled))
  {
    var j := Judge(c, prompt, s, t);
    var o := Decide(c, prompt, t, j);
    if o.Stop? {
      JudgeFacts(c, prompt, s, t);
      DecideGood(c, prompt, t, j);
      assert GoodStop(c, j.state, j.attempt, o.session, o.consulted, o.scheduled);
      hide Judge, Decide, Numbered, AllFailed, OnSchedule, Gates, Routes, GoodOutcome;
      ScheduleStep(c, s, j.state.consulted, s.scheduled);
      ScheduleStep(c, j.state, o.consulted, o.scheduled);
      ExtendsFailed(o.session.attempts, s.attempts, j.attempt);
    }
  }

  /**
   * Every run ends within max_retries + 2 attempts; all but the last failed; it is completed exactly when the last
   * one passed all four gates and otherwise carries a review of it; the attempt past the limit validates an
   * architect's draft; a failed architect draft is followed by another attempt at most once; every recorded
   * contribution is the scheduled one.
   */
  lemma {:induction false} RunsAreGood(c: Controller, prompt: Prompt, s: State, t: nat)
    requires GoodState(c, s, t)
    ensures GoodRun(c, RunFrom(c, prompt, s, t))
    decreases c.maxRetries + 2 - t
  {
    assert t <= c.maxRetries + 1;
    hide Judge, Decide, RunFrom, GoodState, GoodRun, Recording, Ending, Ready;
    var j := Judge(c, prompt, s, t);
    var o := Decide(c, prompt, t, j);
    RunUnfolds(c, prompt, s, t);
    if o.Continue? {
      StepKeeps(c, prompt, s, t);
      RunsAreGood(c, prompt, o.next, t + 1);
      GoodRunAnyLog(c, RunFrom(c, prompt, o.next, t + 1), RunFrom(c, prompt, s, t).log);
    } else {
      StopGood(c, prompt, s, t);
    }
  }

  lemma GoodRunAnyLog(c: Controller, r: Run, log: seq<Checkpoint>)
    requires GoodRun(c, r)
    ensures GoodRun(c, r.(log := log))
  {
  }

  /** The run from the outcome of its next iteration. */
  function Joined(c: Controller, prompt: Prompt, j: Judged, t: nat, o: Outcome): Run {
    match o
    case Stop(session, consulted, scheduled) =>
      Run(session, [Recording(j, t)] + Ending(session, j.state, t), consulted, scheduled)
    case Continue(next) =>
      var rest := RunFrom(c, prompt, next, t + 1);
      rest.(log := [Recording(j, t), Ready(next, t)] + rest.log)
  }

  /** One unfolding of the run. */
  lemma RunUnfolds(c: Controller, prompt: Prompt, s: State, t: nat)
    requires t < c.maxRetries + 2
    ensures var j := Judge(c, prompt, s, t);
      var o := Decide(c, prompt, t, j);
      RunFrom(c, prompt, s, t) == Joined(c, prompt, j, t, o)
  {
    hide Judge, Decide, Recording, Ending, Ready;
  }

  lemma LaunchIsGood(c: Controller, request: Prompt, scheduled: seq<Provider>)
    requires c.maxRetries >= 0 && OnSchedule(c, scheduled)
    ensures var l := LaunchOf(c, request, scheduled);
      && (l.Enters? ==> GoodState(c, l.state, |l.state.attempts|))
      && (l.Ends? ==> GoodRun(c, Run(l.session, [], 0, l.scheduled)))
  {
    var prompt := c.prompts.history(request);
    var (made, recorded) := InitialDraft(c, prompt, scheduled);
    var told := Fresh([], "", DraftSupplier, scheduled);
    ScheduleStep(c, told, 0, recorded);
    var a := BackendAttempt(c, prompt, By(Architect), false);
    assert ArchitectStaticFailures([a]) == 0 by { assert [a][..0] == []; }
    hide OnSchedule, InitialDraft;
  }

  lemma GeneratedRunsAreGood(c: Controller, request: Prompt, scheduled: seq<Provider>)
    requires c.maxRetries >= 0 && OnSchedule(c, scheduled)
    ensures GoodRun(c, Generate(c, request, scheduled))
  {
    LaunchIsGood(c, request, scheduled);
    var l := LaunchOf(c, request, scheduled);
    hide LaunchOf, GoodState, GoodRun;
    if l.Enters? {
      RunsAreGood(c, l.prompt, l.state, |l.state.attempts|);
    }
  }
}
