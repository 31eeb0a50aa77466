/** How a run resumes from the checkpoints it wrote. */
module GenerationResume {
  import opened Prelude
  import opened Contribution
  import opened Generation
  import opened GenerationRuns

  // ---------------------------------------------------------------- what a run keeps from its state

  function OutcomeAttempts(o: Outcome): seq<Attempt> {
    if o.Stop? then o.session.attempts else o.next.attempts
  }

  function OutcomeConsulted(o: Outcome): nat {
    if o.Stop? then o.consulted else o.next.consulted
  }

  /** An iteration adds one attempt, on the draft it was given, and takes no consultation back. */
  lemma StepGrows(c: Controller, prompt: Prompt, s: State, t: nat)
    ensures var o := Decide(c, prompt, t, Judge(c, prompt, s, t));
      && |OutcomeAttempts(o)| == |s.attempts| + 1 && s.attempts <= OutcomeAttempts(o)
      && OutcomeAttempts(o)[|s.attempts|].draft == s.draft
      && s.consulted <= OutcomeConsulted(o)
  {
    var j := Judge(c, prompt, s, t);
    JudgeFacts(c, prompt, s, t);
    DecideGood(c, prompt, t, j);
    hide Judge, Decide, Gates, Routes, Forced, GrantsRetry;
  }

  /** The run has what the state has, and more. */
  predicate Keeps(attempts: seq<Attempt>, consulted: nat, r: Run) {
    attempts <= r.session.attempts && consulted <= r.consulted
  }

  lemma JoinedKeeps(c: Controller, prompt: Prompt, j: Judged, t: nat, o: Outcome)
    requires o.Continue? ==> Keeps(o.next.attempts, o.next.consulted, RunFrom(c, prompt, o.next, t + 1))
    ensures Keeps(OutcomeAttempts(o), OutcomeConsulted(o), Joined(c, prompt, j, t, o))
  {
    hide RunFrom, Recording, Ending, Ready;
  }

  lemma KeepsMore(less: seq<Attempt>, fewer: nat, attempts: seq<Attempt>, consulted: nat, r: Run)
    requires Keeps(attempts, consulted, r) && less <= attempts && fewer <= consulted
    ensures Keeps(less, fewer, r)
  {
  }

  /** Whatever a run decides next, its attempts start with those of the iteration just made. */
  lemma {:induction false} RunKeeps(c: Controller, prompt: Prompt, s: State, t: nat)
    ensures Keeps(s.attempts, s.consulted, RunFrom(c, prompt, s, t))
    ensures t < c.maxRetries + 2 ==>
      var o := Decide(c, prompt, t, Judge(c, prompt, s, t));
      Keeps(OutcomeAttempts(o), OutcomeConsulted(o), RunFrom(c, prompt, s, t))
    decreases c.maxRetries + 2 - t
  {
    if t < c.maxRetries + 2 {
      var j := Judge(c, prompt, s, t);
      var o := Decide(c, prompt, t, j);
      hide *;
      RunUnfolds(c, prompt, s, t);
      StepGrows(c, prompt, s, t);
      if o.Continue? { RunKeeps(c, prompt, o.next, t + 1); }
      JoinedKeeps(c, prompt, j, t, o);
      KeepsMore(s.attempts, s.consulted, OutcomeAttempts(o), OutcomeConsulted(o), RunFrom(c, prompt, s, t));
    }
  }

  lemma FailedIsAttempts(c: Controller, s: State, t: nat)
    requires GoodState(c, s, t)
    ensures s.attempts == s.failed
  {
  }

  /** A terminal checkpoint holds the session of the run, and every earlier one a session still open. */
  predicate Fits(r: Run, cp: Checkpoint) {
    cp.session == if cp.phase.Terminal? then r.session else Open(cp.session.attempts)
  }

  predicate LogFits(r: Run) {
    forall i :: 0 <= i < |r.log| ==> Fits(r, r.log[i])
  }

  lemma {:induction false} LogsFit(c: Controller, prompt: Prompt, s: State, t: nat)
    ensures LogFits(RunFrom(c, prompt, s, t))
    decreases c.maxRetries + 2 - t
  {
    if t < c.maxRetries + 2 {
      hide Judge, Decide, RunFrom, LogFits;
      var o := Decide(c, prompt, t, Judge(c, prompt, s, t));
      RunUnfolds(c, prompt, s, t);
      if o.Continue? { LogsFit(c, prompt, o.next, t + 1); }
      JoinedFits(c, prompt, Judge(c, prompt, s, t), t, o);
    }
  }

  lemma JoinedFits(c: Controller, prompt: Prompt, j: Judged, t: nat, o: Outcome)
    requires o.Continue? ==> LogFits(RunFrom(c, prompt, o.next, t + 1))
    ensures LogFits(Joined(c, prompt, j, t, o))
  {
    hide RunFrom;
  }

  // ---------------------------------------------------------------- the consultations already spent

  function Told(s: State, spent: nat): State { s.(consulted := s.consulted + spent) }

  function ToldJudged(j: Judged, spent: nat): Judged { j.(state := Told(j.state, spent)) }

  function ToldOutcome(o: Outcome, spent: nat): Outcome {
    match o
    case Continue(next) => Continue(Told(next, spent))
    case Stop(session, consulted, scheduled) => Stop(session, consulted + spent, scheduled)
  }

  lemma ConsultTold(c: Controller, consulted: nat, spent: nat, t: nat, trigger: Trigger, draft: Draft)
    ensures var anew := Consult(c, consulted, t, trigger, draft);
      var told := Consult(c, consulted + spent, t, trigger, draft);
      told == anew || (anew.Some? && told.None? && consulted + spent >= c.peerLimit)
  {
  }

  /** The fresh iteration was advised where the other had no consultation left. */
  predicate AdvisedApart(c: Controller, anew: Judged, told: Judged, s: State, spent: nat) {
    && anew.attempt.memos != [] && told.attempt.memos == []
    && s.consulted + spent >= c.peerLimit
    && anew.state.consulted == s.consulted + 1 && told.state.consulted == s.consulted + spent
    && |anew.state.attempts| == |told.state.attempts| == |s.attempts|
  }

  /** What the iteration reads of its state besides the count. */
  lemma ReadsTold(c: Controller, s: State, spent: nat, t: nat, report: Report)
    ensures Diagnose(c, Told(s, spent), t, report) == Diagnose(c, s, t, report)
    ensures Forced(c, Told(s, spent), t, report) == Forced(c, s, t, report)
    ensures GrantsRetry(c, Told(s, spent), t, report) == GrantsRetry(c, s, t, report)
    ensures Routes(c, Told(s, spent), t, report) == Routes(c, s, t, report)
  {
  }

  lemma RouteTold(c: Controller, prompt: Prompt, s: State, spent: nat, t: nat, report: Report, d: Diagnosis)
    ensures var anew := RouteRepair(c, prompt, s, t, report, d);
      var told := RouteRepair(c, prompt, Told(s, spent), t, report, d);
      told == anew || (anew.memo.Some? && told.memo.None? && s.consulted + spent >= c.peerLimit)
  {
    var trigger := if d.stagnant then DiagnosticStagnation else SemanticStagnation;
    ConsultTold(c, s.consulted, spent, t, trigger, s.draft);
    assert BaseWorker(c, Told(s, spent), d) == BaseWorker(c, s, d);
    var base := BaseWorker(c, s, d);
    assert RepeatedMode(c, Told(s, spent), report, d, base) == RepeatedMode(c, s, report, d, base);
    hide Consult, BaseWorker, RepeatedMode, ModeWorker, ModeSelected;
  }

  lemma JudgeTold(c: Controller, prompt: Prompt, s: State, spent: nat, t: nat)
    ensures var anew, told := Judge(c, prompt, s, t), Judge(c, prompt, Told(s, spent), t);
      told == ToldJudged(anew, spent) || AdvisedApart(c, anew, told, s, spent)
  {
    var report := Gates(c, t, s.draft);
    var d := Diagnose(c, s, t, report);
    ReadsTold(c, s, spent, t, report);
    RouteTold(c, prompt, s, spent, t, report, d);
    hide Gates, Diagnose, Forced, GrantsRetry, Routes, RouteRepair;
  }

  /** The outcomes record different advice for the attempt, and the fresh one has spent more than the budget. */
  predicate OutcomesApart(c: Controller, anew: Outcome, told: Outcome, spent: nat, n: nat) {
    && |OutcomeAttempts(anew)| > n && |OutcomeAttempts(told)| > n
    && OutcomeAttempts(anew)[n] != OutcomeAttempts(told)[n]
    && OutcomeConsulted(anew) + spent > c.peerLimit
  }

  lemma StagnationTold(c: Controller, prompt: Prompt, s: State, spent: nat, t: nat, a: Attempt, worker: Worker)
    ensures AfterStagnation(c, prompt, Told(s, spent), t, a, worker)
         == ToldOutcome(AfterStagnation(c, prompt, s, t, a, worker), spent)
    ensures var after := OutcomeAttempts(AfterStagnation(c, prompt, s, t, a, worker));
      |after| == |s.attempts| + 1 && after[|s.attempts|].memos == a.memos
    ensures OutcomeConsulted(AfterStagnation(c, prompt, s, t, a, worker)) == s.consulted
  {
    hide WorkerFor;
  }

  lemma AdviceTold(c: Controller, s: State, spent: nat, t: nat, a: Attempt, memo: string)
    ensures AfterAdvice(c, Told(s, spent), t, a, memo) == ToldOutcome(AfterAdvice(c, s, t, a, memo), spent)
    ensures var o := AfterAdvice(c, s, t, a, memo);
      && |OutcomeAttempts(o)| == |s.attempts| + 1 && OutcomeAttempts(o)[|s.attempts|].memos == [memo]
      && OutcomeConsulted(o) == s.consulted + 1
  {
  }

  /** The repair once it is known whether it got advice. */
  function Advised(c: Controller, prompt: Prompt, s: State, t: nat, a: Attempt, draft: Draft, worker: Worker,
                   stuck: bool, memo: Option<string>): Outcome
  {
    if memo.Some? then AfterAdvice(c, s, t, a, memo.value)
    else if stuck && !worker.Constrained() && a.memos == [] then AfterStagnation(c, prompt, s, t, a, worker)
    else Retry(s, a, draft, worker)
  }

  lemma AdvisedTold(c: Controller, prompt: Prompt, s: State, spent: nat, t: nat, a: Attempt, draft: Draft,
                    worker: Worker, stuck: bool, memo: Option<string>)
    ensures Advised(c, prompt, Told(s, spent), t, a, draft, worker, stuck, memo)
         == ToldOutcome(Advised(c, prompt, s, t, a, draft, worker, stuck, memo), spent)
    ensures var o := Advised(c, prompt, s, t, a, draft, worker, stuck, memo);
      && |OutcomeAttempts(o)| == |s.attempts| + 1
      && OutcomeAttempts(o)[|s.attempts|].memos == (if memo.Some? then [memo.value] else a.memos)
      && OutcomeConsulted(o) == s.consulted + (if memo.Some? then 1 else 0)
  {
    hide AfterStagnation, AfterAdvice;
    if memo.Some? {
      AdviceTold(c, s, spent, t, a, memo.value);
    } else {
      StagnationTold(c, prompt, s, spent, t, a, worker);
    }
  }

  lemma ReplyTold(c: Controller, prompt: Prompt, s: State, spent: nat, t: nat, a: Attempt, draft: Draft, worker: Worker)
    ensures var anew := AfterReply(c, prompt, s, t, a, draft, worker);
      var told := AfterReply(c, prompt, Told(s, spent), t, a, draft, worker);
      told == ToldOutcome(anew, spent) || OutcomesApart(c, anew, told, spent, |s.attempts|)
  {
    var stuck := draft == s.draft || (a.diagnosticStagnant && !worker.Architect?);
    var asks := stuck && worker.SmallWorker? && a.memos == [];
    ConsultTold(c, s.consulted, spent, t, NoProgressRepair, s.draft);
    var memo := if asks then Consult(c, s.consulted, t, NoProgressRepair, s.draft) else None;
    var late := if asks then Consult(c, s.consulted + spent, t, NoProgressRepair, s.draft) else None;
    assert AfterReply(c, prompt, s, t, a, draft, worker) == Advised(c, prompt, s, t, a, draft, worker, stuck, memo);
    assert AfterReply(c, prompt, Told(s, spent), t, a, draft, worker)
        == Advised(c, prompt, Told(s, spent), t, a, draft, worker, stuck, late);
    hide Consult, Advised, AfterReply;
    AdvisedTold(c, prompt, s, spent, t, a, draft, worker, stuck, memo);
    AdvisedTold(c, prompt, Told(s, spent), 0, t, a, draft, worker, stuck, late);
  }

  lemma ConstrainedErrorTold(c: Controller, prompt: Prompt, s: State, spent: nat, t: nat, a: Attempt, worker: Worker)
    ensures AfterConstrainedError(c, prompt, Told(s, spent), t, a, worker)
         == ToldOutcome(AfterConstrainedError(c, prompt, s, t, a, worker), spent)
  {
  }

  lemma RepairTold(c: Controller, prompt: Prompt, s: State, spent: nat, t: nat, a: Attempt, worker: Worker,
                   primary: Option<Evidence>)
    ensures var anew := Repair(c, prompt, s, t, a, worker, primary);
      var told := Repair(c, prompt, Told(s, spent), t, a, worker, primary);
      told == ToldOutcome(anew, spent) || OutcomesApart(c, anew, told, spent, |s.attempts|)
  {
    var (reply, scheduled) := CallWorker(c, t, s.draft, a.retryPrompt, worker, primary, s.scheduled);
    var called := s.(scheduled := scheduled);
    assert Told(s, spent).(scheduled := scheduled) == Told(called, spent);
    ConstrainedErrorTold(c, prompt, called, spent, t, a, worker);
    hide CallWorker, AfterConstrainedError, AfterReply, OutcomesApart;
    if reply.Drafted? {
      ReplyTold(c, prompt, called, spent, t, a.(route := By(reply.worker)), reply.draft, reply.worker);
    }
  }

  lemma DecideTold(c: Controller, prompt: Prompt, j: Judged, spent: nat, t: nat)
    ensures var anew, told := Decide(c, prompt, t, j), Decide(c, prompt, t, ToldJudged(j, spent));
      told == ToldOutcome(anew, spent) || OutcomesApart(c, anew, told, spent, |j.state.attempts|)
  {
    hide Repair;
    if j.routing.Some? {
      RepairTold(c, prompt, j.state, spent, t, j.attempt, j.routing.value.worker, c.topViolation(j.attempt.report));
    }
  }

  /** Advice stays recorded, and none appears once the budget is spent. */
  predicate MemosKept(c: Controller, s: State, a: Attempt, o: Outcome) {
    var n := |s.attempts|;
    && |OutcomeAttempts(o)| == n + 1 && s.consulted <= OutcomeConsulted(o)
    && (a.memos != [] ==> OutcomeAttempts(o)[n].memos != [])
    && (a.memos == [] && s.consulted >= c.peerLimit ==> OutcomeAttempts(o)[n].memos == [])
  }

  lemma ReplyMemos(c: Controller, prompt: Prompt, s: State, t: nat, a: Attempt, draft: Draft, worker: Worker)
    ensures MemosKept(c, s, a, AfterReply(c, prompt, s, t, a, draft, worker))
  {
    var stuck := draft == s.draft || (a.diagnosticStagnant && !worker.Architect?);
    var asks := stuck && worker.SmallWorker? && a.memos == [];
    var memo := if asks then Consult(c, s.consulted, t, NoProgressRepair, s.draft) else None;
    assert AfterReply(c, prompt, s, t, a, draft, worker) == Advised(c, prompt, s, t, a, draft, worker, stuck, memo);
    assert s.consulted >= c.peerLimit ==> memo.None?;
    hide Consult, Advised, AfterReply;
    AdvisedTold(c, prompt, s, 0, t, a, draft, worker, stuck, memo);
  }

  lemma ConstrainedErrorMemos(c: Controller, prompt: Prompt, s: State, t: nat, a: Attempt, worker: Worker)
    ensures MemosKept(c, s, a, AfterConstrainedError(c, prompt, s, t, a, worker))
  {
  }

  lemma RepairMemos(c: Controller, prompt: Prompt, s: State, t: nat, a: Attempt, worker: Worker,
                    primary: Option<Evidence>)
    ensures MemosKept(c, s, a, Repair(c, prompt, s, t, a, worker, primary))
  {
    var (reply, scheduled) := CallWorker(c, t, s.draft, a.retryPrompt, worker, primary, s.scheduled);
    var called := s.(scheduled := scheduled);
    ConstrainedErrorMemos(c, prompt, called, t, a, worker);
    hide CallWorker, AfterReply, AfterConstrainedError;
    if reply.Drafted? { ReplyMemos(c, prompt, called, t, a.(route := By(reply.worker)), reply.draft, reply.worker); }
  }

  lemma MemosStay(c: Controller, prompt: Prompt, j: Judged, t: nat)
    ensures MemosKept(c, j.state, j.attempt, Decide(c, prompt, t, j))
  {
    if j.routing.Some? {
      RepairMemos(c, prompt, j.state, t, j.attempt, j.routing.value.worker, c.topViolation(j.attempt.report));
    }
    hide Repair, LoopFound;
  }

  lemma StepTold(c: Controller, prompt: Prompt, s: State, spent: nat, t: nat)
    ensures var anew, told := Decide(c, prompt, t, Judge(c, prompt, s, t)),
                               Decide(c, prompt, t, Judge(c, prompt, Told(s, spent), t));
      told == ToldOutcome(anew, spent) || OutcomesApart(c, anew, told, spent, |s.attempts|)
    ensures var anew, told := Judge(c, prompt, s, t), Judge(c, prompt, Told(s, spent), t);
      AdvisedApart(c, anew, told, s, spent) || told == ToldJudged(anew, spent)
    ensures var anew, told := Judge(c, prompt, s, t), Judge(c, prompt, Told(s, spent), t);
      AdvisedApart(c, anew, told, s, spent) ==>
        OutcomesApart(c, Decide(c, prompt, t, anew), Decide(c, prompt, t, told), spent, |s.attempts|)
  {
    JudgeTold(c, prompt, s, spent, t);
    JudgeFacts(c, prompt, s, t);
    var anew, told := Judge(c, prompt, s, t), Judge(c, prompt, Told(s, spent), t);
    MemosStay(c, prompt, anew, t);
    MemosStay(c, prompt, told, t);
    DecideTold(c, prompt, anew, spent, t);
    hide Judge, Decide, Gates, Forced, GrantsRetry, Routes;
  }

  /**
   * Forgetting `spent` consultations changes a run exactly when it is then advised more often than the budget
   * would still have allowed.
   */
  predicate BudgetDecides(c: Controller, anew: Run, told: Run, spent: nat) {
    if anew.consulted + spent <= c.peerLimit then told == anew.(consulted := anew.consulted + spent)
    else told.session != anew.session
  }

  lemma StepsApart(c: Controller, prompt: Prompt, s: State, spent: nat, t: nat)
    requires t < c.maxRetries + 2
    requires OutcomesApart(c, Decide(c, prompt, t, Judge(c, prompt, s, t)),
                           Decide(c, prompt, t, Judge(c, prompt, Told(s, spent), t)), spent, |s.attempts|)
    ensures BudgetDecides(c, RunFrom(c, prompt, s, t), RunFrom(c, prompt, Told(s, spent), t), spent)
  {
    hide Judge, Decide, RunFrom;
    RunKeeps(c, prompt, s, t);
    RunKeeps(c, prompt, Told(s, spent), t);
  }

  lemma StepWithin(c: Controller, prompt: Prompt, s: State, t: nat)
    requires s.consulted <= c.peerLimit
    ensures OutcomeConsulted(Decide(c, prompt, t, Judge(c, prompt, s, t))) <= c.peerLimit
  {
    var j := Judge(c, prompt, s, t);
    JudgeFacts(c, prompt, s, t);
    DecideGood(c, prompt, t, j);
    hide Judge, Decide, Gates, Routes, Forced, GrantsRetry;
  }

  lemma JoinedTold(c: Controller, prompt: Prompt, j: Judged, t: nat, o: Outcome, spent: nat)
    requires o.Continue? ==> BudgetDecides(c, RunFrom(c, prompt, o.next, t + 1),
                                           RunFrom(c, prompt, Told(o.next, spent), t + 1), spent)
    requires OutcomeConsulted(o) + spent <= c.peerLimit
    ensures BudgetDecides(c, Joined(c, prompt, j, t, o),
                          Joined(c, prompt, ToldJudged(j, spent), t, ToldOutcome(o, spent)),
                          spent)
  {
    hide RunFrom;
  }

  lemma EndTold(c: Controller, prompt: Prompt, s: State, spent: nat, t: nat)
    requires t >= c.maxRetries + 2 && s.consulted + spent <= c.peerLimit
    ensures BudgetDecides(c, RunFrom(c, prompt, s, t), RunFrom(c, prompt, Told(s, spent), t), spent)
  {
  }

  lemma {:induction false} ForgottenConsultations(c: Controller, prompt: Prompt, s: State, spent: nat, t: nat)
    requires s.consulted + spent <= c.peerLimit
    ensures BudgetDecides(c, RunFrom(c, prompt, s, t), RunFrom(c, prompt, Told(s, spent), t), spent)
    decreases c.maxRetries + 2 - t
  {
    hide *;
    if t >= c.maxRetries + 2 {
      EndTold(c, prompt, s, spent, t);
    } else {
      var o := Decide(c, prompt, t, Judge(c, prompt, s, t));
      var told := Decide(c, prompt, t, Judge(c, prompt, Told(s, spent), t));
      if OutcomesApart(c, o, told, spent, |s.attempts|) {
        StepsApart(c, prompt, s, spent, t);
      } else {
        StepTogether(c, prompt, s, spent, t);
        if o.Continue? { ForgottenConsultations(c, prompt, o.next, spent, t + 1); }
        RunTogether(c, prompt, s, spent, t);
      }
    }
  }

  lemma StepTogether(c: Controller, prompt: Prompt, s: State, spent: nat, t: nat)
    requires s.consulted + spent <= c.peerLimit
    requires !OutcomesApart(c, Decide(c, prompt, t, Judge(c, prompt, s, t)),
                            Decide(c, prompt, t, Judge(c, prompt, Told(s, spent), t)), spent, |s.attempts|)
    ensures var j := Judge(c, prompt, s, t);
      var o := Decide(c, prompt, t, j);
      && Judge(c, prompt, Told(s, spent), t) == ToldJudged(j, spent)
      && Decide(c, prompt, t, ToldJudged(j, spent)) == ToldOutcome(o, spent)
      && OutcomeConsulted(o) + spent <= c.peerLimit
      && (o.Continue? ==> o.next.consulted + spent <= c.peerLimit)
  {
    hide Judge, Decide, AdvisedApart, OutcomesApart;
    StepTold(c, prompt, s, spent, t);
    StepWithin(c, prompt, Told(s, spent), t);
  }

  lemma RunTogether(c: Controller, prompt: Prompt, s: State, spent: nat, t: nat)
    requires t < c.maxRetries + 2 && s.consulted + spent <= c.peerLimit
    requires !OutcomesApart(c, Decide(c, prompt, t, Judge(c, prompt, s, t)),
                            Decide(c, prompt, t, Judge(c, prompt, Told(s, spent), t)), spent, |s.attempts|)
    requires var o := Decide(c, prompt, t, Judge(c, prompt, s, t));
      o.Continue? ==> BudgetDecides(c, RunFrom(c, prompt, o.next, t + 1),
                                    RunFrom(c, prompt, Told(o.next, spent), t + 1), spent)
    ensures BudgetDecides(c, RunFrom(c, prompt, s, t), RunFrom(c, prompt, Told(s, spent), t), spent)
  {
    hide *;
    var j := Judge(c, prompt, s, t);
    StepTogether(c, prompt, s, spent, t);
    RunUnfolds(c, prompt, s, t);
    RunUnfolds(c, prompt, Told(s, spent), t);
    JoinedTold(c, prompt, j, t, Decide(c, prompt, t, j), spent);
  }

  // ---------------------------------------------------------------- ready-to-validate checkpoints

  /** The loop's state, with what the controller carried, at each checkpoint of the run. */
  function Held(c: Controller, prompt: Prompt, s: State, t: nat): (held: seq<State>)
    ensures |held| == |RunFrom(c, prompt, s, t).log|
    decreases c.maxRetries + 2 - t
  {
    if t >= c.maxRetries + 2 then [s]
    else
      var j := Judge(c, prompt, s, t);
      match Decide(c, prompt, t, j)
      case Stop(session, _, _) => [j.state] + (if session.completed then [j.state] else []) + [j.state]
      case Continue(next) => [j.state, next] + Held(c, prompt, next, t + 1)
  }

  /** What a ready-to-validate checkpoint says is the state the loop goes on with, but for the consultations spent. */
  lemma ReadyIsState(c: Controller, prompt: Prompt, next: State, t: nat)
    requires next.attempts == next.failed
    ensures Resume(c, prompt, Ready(next, t), next.scheduled) ==
      if next.draft == "" then Failure(NoDraft)
      else Success(RunFrom(c, prompt, next.(consulted := 0), t + 1))
  {
    var cp := Ready(next, t);
    assert State(cp.session.attempts, cp.session.attempts, cp.draft, cp.previous, cp.source, cp.retryUsed, 0,
                 next.scheduled)
        == next.(consulted := 0);
  }

  /**
   * The rest of run r after its checkpoint i: same session, same remaining checkpoints, same recorded calls. The
   * consultations already spent are not in the checkpoint; the resumed run differs exactly when it is advised more
   * often than they would have allowed.
   */
  predicate IsRest(c: Controller, r: Run, i: nat, spent: nat, resumed: Run)
    requires i < |r.log|
  {
    if resumed.consulted + spent <= c.peerLimit then
      && resumed.session == r.session && resumed.log == r.log[i + 1..]
      && resumed.scheduled == r.scheduled && resumed.consulted + spent == r.consulted
    else resumed.session != r.session
  }

  /** Checkpoint i of the log, if it is ready to validate, resumes into the rest of the same run. */
  predicate ResumesToRest(c: Controller, prompt: Prompt, r: Run, h: State, i: nat)
    requires LogFits(r) && i < |r.log|
  {
    r.log[i].phase.ReadyToValidate? ==>
      assert Fits(r, r.log[i]);
      var resumed := Resume(c, prompt, r.log[i], h.scheduled);
      if r.log[i].draft == "" then resumed == Failure(NoDraft)
      else resumed.Success? && IsRest(c, r, i, h.consulted, resumed.value)
  }

  predicate AllResume(c: Controller, prompt: Prompt, r: Run, held: seq<State>) {
    && LogFits(r) && |held| == |r.log|
    && forall i :: 0 <= i < |r.log| ==> ResumesToRest(c, prompt, r, held[i], i)
  }

  lemma HeldUnfolds(c: Controller, prompt: Prompt, s: State, t: nat)
    requires t < c.maxRetries + 2
    ensures var j := Judge(c, prompt, s, t);
      var o := Decide(c, prompt, t, j);
      o.Continue? ==> Held(c, prompt, s, t) == [j.state, o.next] + Held(c, prompt, o.next, t + 1)
  {
    hide Judge, Decide, RunFrom, Ready;
  }

  /**
   * Resume refines continuation: from every ready-to-validate checkpoint with a draft, by a controller in the
   * state the run had there, the resumed run is the rest of the run, unless forgetting the consultations spent let
   * it be advised beyond the budget.
   */
  lemma {:induction false} ResumeRefinesContinuation(c: Controller, prompt: Prompt, s: State, t: nat)
    requires GoodState(c, s, t)
    ensures AllResume(c, prompt, RunFrom(c, prompt, s, t), Held(c, prompt, s, t))
    decreases c.maxRetries + 2 - t
  {
    assert t < c.maxRetries + 2;
    hide Judge, Decide, RunFrom, GoodState, AllResume, Recording, Ending, Ready, Held;
    LogsFit(c, prompt, s, t);
    RunUnfolds(c, prompt, s, t);
    HeldUnfolds(c, prompt, s, t);
    var j := Judge(c, prompt, s, t);
    var o := Decide(c, prompt, t, j);
    if o.Continue? {
      StepKeeps(c, prompt, s, t);
      ResumeRefinesContinuation(c, prompt, o.next, t + 1);
      NextResumes(c, prompt, o.next, t);
      JoinedResumes(c, prompt, j, t, o.next);
    } else {
      StoppedResumes(c, prompt, j, t, o, Held(c, prompt, s, t));
    }
  }

  /** The checkpoint written just before attempt t + 1. */
  predicate ReadyResumes(c: Controller, prompt: Prompt, next: State, t: nat) {
    var resumed := Resume(c, prompt, Ready(next, t), next.scheduled);
    if next.draft == "" then resumed == Failure(NoDraft)
    else
      resumed.Success? && BudgetDecides(c, resumed.value, RunFrom(c, prompt, next, t + 1), next.consulted)
  }

  lemma NextResumes(c: Controller, prompt: Prompt, next: State, t: nat)
    requires GoodState(c, next, t + 1)
    ensures ReadyResumes(c, prompt, next, t)
  {
    FailedIsAttempts(c, next, t + 1);
    ReadyIsState(c, prompt, next, t);
    var anew := next.(consulted := 0);
    assert Told(anew, next.consulted) == next;
    assert next.consulted <= c.peerLimit;
    hide RunFrom, GoodState, Resume, BudgetDecides;
    ForgottenConsultations(c, prompt, anew, next.consulted, t + 1);
  }

  lemma StoppedResumes(c: Controller, prompt: Prompt, j: Judged, t: nat, o: Outcome, held: seq<State>)
    requires o.Stop? && LogFits(Joined(c, prompt, j, t, o)) && |held| == |Joined(c, prompt, j, t, o).log|
    ensures AllResume(c, prompt, Joined(c, prompt, j, t, o), held)
  {
    hide Resume, IsRest;
  }

  lemma JoinedResumes(c: Controller, prompt: Prompt, j: Judged, t: nat, next: State)
    requires AllResume(c, prompt, RunFrom(c, prompt, next, t + 1), Held(c, prompt, next, t + 1))
    requires LogFits(Joined(c, prompt, j, t, Continue(next)))
    requires ReadyResumes(c, prompt, next, t)
    ensures AllResume(c, prompt, Joined(c, prompt, j, t, Continue(next)),
                      [j.state, next] + Held(c, prompt, next, t + 1))
  {
    hide Resume, RunFrom, Held;
    var rest := RunFrom(c, prompt, next, t + 1);
    var r := Joined(c, prompt, j, t, Continue(next));
    var held := [j.state, next] + Held(c, prompt, next, t + 1);
    forall i | 0 <= i < |r.log| ensures ResumesToRest(c, prompt, r, held[i], i) {
      if i == 1 {
        assert r.log[2..] == rest.log;
      } else if i >= 2 {
        assert ResumesToRest(c, prompt, rest, held[i], i - 2);
        assert r.log[i + 1..] == rest.log[i - 1..];
      }
    }
  }

  /** A terminal checkpoint gives its session back as it is, however often it is resumed. */
  lemma TerminalIsFinal(c: Controller, prompt: Prompt, request: Prompt, i: nat, scheduled: seq<Provider>)
    requires i < |Generate(c, request, scheduled).log|
    requires Generate(c, request, scheduled).log[i].phase.Terminal?
    ensures var r := Generate(c, request, scheduled);
      Resume(c, prompt, r.log[i], scheduled) == Success(Run(r.session, [], 0, scheduled))
  {
    var l := LaunchOf(c, request, scheduled);
    hide LaunchOf, RunFrom;
    if l.Enters? {
      LogsFit(c, l.prompt, l.state, |l.state.attempts|);
      assert Fits(RunFrom(c, l.prompt, l.state, |l.state.attempts|), Generate(c, request, scheduled).log[i]);
    }
  }

  lemma GeneratedRunsResume(c: Controller, request: Prompt, scheduled: seq<Provider>)
    requires c.maxRetries >= 0 && OnSchedule(c, scheduled)
    ensures var l := LaunchOf(c, request, scheduled);
      l.Enters? ==>
        AllResume(c, l.prompt, Generate(c, request, scheduled), Held(c, l.prompt, l.state, |l.state.attempts|))
  {
    LaunchIsGood(c, request, scheduled);
    var l := LaunchOf(c, request, scheduled);
    hide LaunchOf, AllResume, GoodState, RunFrom;
    if l.Enters? {
      ResumeRefinesContinuation(c, l.prompt, l.state, |l.state.attempts|);
    }
  }

  /**
   * The caller resumes with its own prompt, which is not extended with the history again. Where the history leaves
   * a request as it is, that is the prompt the run had, unless the first draft came after a backend failure.
   */
  lemma PlainHistoryResumes(c: Controller, request: Prompt, scheduled: seq<Provider>)
    requires c.maxRetries >= 0 && OnSchedule(c, scheduled)
    requires c.prompts.history(request) == request && InitialDraft(c, request, scheduled).0.Some?
    ensures var l := LaunchOf(c, request, scheduled);
      l.Enters? && AllResume(c, request, Generate(c, request, scheduled), Held(c, request, l.state, 0))
  {
    GeneratedRunsResume(c, request, scheduled);
    hide AllResume, RunFrom, Held, InitialDraft;
  }

  /** Without a peer nothing is ever spent, and without a split nothing is recorded. */
  predicate Unspent(c: Controller, s: State, h: State) {
    && (c.peer.None? ==> h.consulted == s.consulted)
    && (c.schedule.None? ==> h.scheduled == s.scheduled)
  }

  lemma RepairUnspent(c: Controller, prompt: Prompt, s: State, t: nat, a: Attempt, worker: Worker,
                      primary: Option<Evidence>)
    ensures var o := Repair(c, prompt, s, t, a, worker, primary);
      && (o.Continue? ==> Unspent(c, s, o.next))
      && (c.peer.None? ==> OutcomeConsulted(o) == s.consulted)
  {
    hide WorkerFor;
  }

  lemma StepUnspent(c: Controller, prompt: Prompt, s: State, t: nat)
    ensures var j := Judge(c, prompt, s, t);
      var o := Decide(c, prompt, t, j);
      && Unspent(c, s, j.state) && (o.Continue? ==> Unspent(c, s, o.next))
      && (c.peer.None? ==> OutcomeConsulted(o) == s.consulted)
  {
    var j := Judge(c, prompt, s, t);
    JudgeUnspent(c, prompt, s, t);
    if j.routing.Some? {
      RepairUnspent(c, prompt, j.state, t, j.attempt, j.routing.value.worker, c.topViolation(j.attempt.report));
    }
    hide Judge, Repair;
  }

  lemma JudgeUnspent(c: Controller, prompt: Prompt, s: State, t: nat)
    ensures Unspent(c, s, Judge(c, prompt, s, t).state)
  {
    hide Gates, Diagnose, Forced, GrantsRetry, Routes;
  }

  predicate AllUnspent(c: Controller, s: State, held: seq<State>) {
    forall h :: h in held ==> Unspent(c, s, h)
  }

  lemma JoinedUnspent(c: Controller, s: State, one: State, next: State, held: seq<State>)
    requires Unspent(c, s, one) && Unspent(c, s, next) && AllUnspent(c, next, held)
    ensures AllUnspent(c, s, [one, next] + held)
  {
  }

  lemma StoppedUnspent(c: Controller, prompt: Prompt, s: State, t: nat)
    requires t < c.maxRetries + 2 && Decide(c, prompt, t, Judge(c, prompt, s, t)).Stop?
    ensures AllUnspent(c, s, Held(c, prompt, s, t))
  {
    StepUnspent(c, prompt, s, t);
    hide Judge, Decide, Unspent;
  }

  lemma {:induction false} HeldUnspent(c: Controller, prompt: Prompt, s: State, t: nat)
    ensures AllUnspent(c, s, Held(c, prompt, s, t))
    decreases c.maxRetries + 2 - t
  {
    if t < c.maxRetries + 2 {
      var j := Judge(c, prompt, s, t);
      var o := Decide(c, prompt, t, j);
      hide *;
      StepUnspent(c, prompt, s, t);
      if o.Continue? {
        HeldUnspent(c, prompt, o.next, t + 1);
        HeldUnfolds(c, prompt, s, t);
        JoinedUnspent(c, s, j.state, o.next, Held(c, prompt, o.next, t + 1));
      } else {
        StoppedUnspent(c, prompt, s, t);
      }
    }
  }

  /** Without a peer a run ends with the consultations it started with. */
  predicate NothingSpent(c: Controller, s: State, r: Run) {
    c.peer.None? ==> r.consulted == s.consulted
  }

  lemma JoinedUnadvised(c: Controller, prompt: Prompt, s: State, j: Judged, t: nat, o: Outcome)
    requires c.peer.None? ==> OutcomeConsulted(o) == s.consulted
    requires o.Continue? ==> NothingSpent(c, o.next, RunFrom(c, prompt, o.next, t + 1))
    ensures NothingSpent(c, s, Joined(c, prompt, j, t, o))
  {
    hide RunFrom, Recording, Ending, Ready;
  }

  lemma {:induction false} RunUnadvised(c: Controller, prompt: Prompt, s: State, t: nat)
    ensures NothingSpent(c, s, RunFrom(c, prompt, s, t))
    decreases c.maxRetries + 2 - t
  {
    if t < c.maxRetries + 2 {
      var j := Judge(c, prompt, s, t);
      var o := Decide(c, prompt, t, j);
      hide *;
      StepUnspent(c, prompt, s, t);
      RunUnfolds(c, prompt, s, t);
      if o.Continue? { RunUnadvised(c, prompt, o.next, t + 1); }
      JoinedUnadvised(c, prompt, s, j, t, o);
    }
  }

  /** A controller of a new process, with neither peer nor split, resumes every such checkpoint into the rest. */
  lemma NewProcessResumes(c: Controller, prompt: Prompt, s: State, t: nat, i: nat)
    requires GoodState(c, s, t) && c.peer.None? && c.schedule.None? && s.consulted == 0 && s.scheduled == []
    requires i < |RunFrom(c, prompt, s, t).log| && RunFrom(c, prompt, s, t).log[i].phase.ReadyToValidate?
    requires RunFrom(c, prompt, s, t).log[i].draft != ""
    ensures var r := RunFrom(c, prompt, s, t);
      Fits(r, r.log[i])
      && Resume(c, prompt, r.log[i], []) == Success(Run(r.session, r.log[i + 1..], r.consulted, r.scheduled))
  {
    var r := RunFrom(c, prompt, s, t);
    var held := Held(c, prompt, s, t);
    var cp := r.log[i];
    ResumeRefinesContinuation(c, prompt, s, t);
    HeldUnspent(c, prompt, s, t);
    assert ResumesToRest(c, prompt, r, held[i], i) && held[i] in held;
    var from := State(cp.session.attempts, cp.session.attempts, cp.draft, cp.previous, cp.source, cp.retryUsed, 0, []);
    RunUnadvised(c, prompt, from, cp.next);
    RunUnadvised(c, prompt, s, t);
    hide RunFrom, Held, GoodState, LogFits, Fits;
  }

  /** The checkpoint written when the attempt is recorded, resumed. */
  function ResumeRecorded(c: Controller, prompt: Prompt, j: Judged, t: nat): Result<Run, ResumeError> {
    Resume(c, prompt, Recording(j, t), [])
  }

  /** A recorded attempt that passed every gate resumes into the same completed session. */
  lemma RecordedCompleteAgrees(c: Controller, prompt: Prompt, s: State, t: nat)
    requires GoodState(c, s, t) && Judge(c, prompt, s, t).attempt.report.Passed()
    ensures var r := ResumeRecorded(c, prompt, Judge(c, prompt, s, t), t);
      r.Success? && r.value.session == RunFrom(c, prompt, s, t).session
  {
    JudgeFacts(c, prompt, s, t);
    RunUnfolds(c, prompt, s, t);
    hide Judge, RunFrom;
  }

  /**
   * A recorded failure with no repair routed resumes into a different session: the reason it ended for is replaced
   * by the strategy's, which never was the reason.
   */
  lemma RecordedFailureRenamed(c: Controller, prompt: Prompt, s: State, t: nat)
    requires GoodState(c, s, t)
    requires var j := Judge(c, prompt, s, t); !j.attempt.report.Passed() && j.routing.None?
    ensures var r := ResumeRecorded(c, prompt, Judge(c, prompt, s, t), t);
      && r.Success? && !r.value.session.completed
      && r.value.session.termination == Some(StrategyManualReview)
    ensures !RunFrom(c, prompt, s, t).session.completed
    ensures RunFrom(c, prompt, s, t).session.termination != Some(StrategyManualReview)
  {
    JudgeFacts(c, prompt, s, t);
    RunUnfolds(c, prompt, s, t);
    hide Judge, RunFrom, LoopFound;
  }

  /** The session the run ends with is the one the recorded checkpoint resumes into. */
  predicate RecordedAgrees(c: Controller, prompt: Prompt, s: State, t: nat) {
    var r := ResumeRecorded(c, prompt, Judge(c, prompt, s, t), t);
    r.Success? && r.value.session == RunFrom(c, prompt, s, t).session
  }

  /** No peer and no split: the resumed side asks the recorded worker itself, unadvised and unweighted. */
  predicate NothingCarried(c: Controller, s: State) {
    c.peer.None? && c.schedule.None? && s.consulted == 0 && s.scheduled == []
  }

  /** The answer goes on to validation in the uninterrupted run too: its worker has not stagnated. */
  predicate Progresses(a: Attempt, worker: Worker, answer: Draft) {
    worker.Constrained() || (answer != a.draft && (worker.Architect? || !a.diagnosticStagnant))
  }

  /** The worker the attempt recorded answers with a draft the run validates next. */
  predicate AnswersAlike(c: Controller, a: Attempt, worker: Worker) {
    match worker
    case Transform =>
      // The run transforms the top violation, resuming the first of the recorded ones.
      var first, top := c.firstViolation(a.report.checks), c.topViolation(a.report);
      && first.Some? && top.Some? && c.transform(a.draft, first.value).Some?
      && c.transform(a.draft, first.value).value != ""
      && c.transform(a.draft, top.value) == c.transform(a.draft, first.value)
    case Patch =>
      var reply := c.small(a.index, a.draft, a.retryPrompt);
      reply.Some? && c.applyPatch(a.draft, reply.value).Some? && c.applyPatch(a.draft, reply.value).value != ""
    case Architect =>
      c.architect.Some? &&
      var answer := c.architect.value(a.index, a.draft, a.retryPrompt);
      answer.Some? && answer.value != "" && Progresses(a, worker, answer.value)
    case _ =>
      var answer := c.small(a.index, a.draft, a.retryPrompt);
      answer.Some? && answer.value != "" && Progresses(a, worker, answer.value)
  }

  /** What the run's own call of the routed worker gives, for a controller without a split. */
  function RunReply(c: Controller, a: Attempt, worker: Worker): Reply {
    CallWorker(c, a.index, a.draft, a.retryPrompt, worker, c.topViolation(a.report), []).0
  }

  /** The iteration stopped, or its attempt went on to the architect. */
  predicate Leaves(o: Outcome, n: nat) {
    o.Stop? || (|o.next.attempts| == n + 1 && o.next.attempts[n].route.Escalated?)
  }

  lemma StagnationLeaves(c: Controller, prompt: Prompt, s: State, t: nat, a: Attempt, worker: Worker)
    ensures Leaves(AfterStagnation(c, prompt, s, t, a, worker), |s.attempts|)
  {
    hide WorkerFor;
  }

  lemma ConstrainedErrorLeaves(c: Controller, prompt: Prompt, s: State, t: nat, a: Attempt, worker: Worker)
    ensures Leaves(AfterConstrainedError(c, prompt, s, t, a, worker), |s.attempts|)
  {
  }

  lemma ReplyLeavesOrRetries(c: Controller, prompt: Prompt, s: State, t: nat, a: Attempt, draft: Draft, worker: Worker)
    requires c.peer.None? && a.memos == [] && a.draft == s.draft
    requires worker.SmallWorker? || worker.Architect? || worker.Constrained()
    ensures var o := AfterReply(c, prompt, s, t, a, draft, worker);
      if Progresses(a, worker, draft) then o == Retry(s, a, draft, worker) else Leaves(o, |s.attempts|)
  {
    StagnationLeaves(c, prompt, s, t, a, worker);
    hide AfterStagnation, AfterAdvice, Leaves, Retry;
  }

  lemma CallUnrecorded(c: Controller, t: nat, draft: Draft, prompt: Prompt, worker: Worker, primary: Option<Evidence>)
    requires c.schedule.None?
    ensures var (reply, scheduled) := CallWorker(c, t, draft, prompt, worker, primary, []);
      scheduled == [] && (reply.Drafted? && (worker.SmallWorker? || worker.Architect? || worker.Constrained())
                          ==> reply.worker == worker)
  {
  }

  lemma RepairLeavesOrRetries(c: Controller, prompt: Prompt, s: State, t: nat, a: Attempt, worker: Worker)
    requires NothingCarried(c, s) && a.route == By(worker) && a.memos == [] && a.index == t && a.draft == s.draft
    requires worker.SmallWorker? || worker.Architect? || worker.Constrained()
    ensures var o := Repair(c, prompt, s, t, a, worker, c.topViolation(a.report));
      var reply := RunReply(c, a, worker);
      if reply.Drafted? && Progresses(a, worker, reply.draft)
      then o == Retry(s, a, reply.draft, worker)
      else Leaves(o, |s.attempts|)
  {
    assert a.(route := By(worker)) == a && s.(scheduled := []) == s;
    CallUnrecorded(c, t, s.draft, a.retryPrompt, worker, c.topViolation(a.report));
    var reply := RunReply(c, a, worker);
    assert GiveUp(s, a.(repairError := true, route := By(worker)), RepairSupplierError).Stop?;
    ConstrainedErrorLeaves(c, prompt, s, t, a, worker);
    hide CallWorker, AfterConstrainedError, AfterReply, Progresses, Retry, GiveUp;
    if reply.Drafted? { ReplyLeavesOrRetries(c, prompt, s, t, a, reply.draft, worker); }
  }

  /** The state in which the worker's answer is validated next. */
  function AfterAnswer(j: Judged, answer: Draft, worker: Worker): State {
    var attempts := j.state.attempts + [j.attempt];
    State(attempts, attempts, answer, j.state.draft, worker, j.state.retryUsed, 0, [])
  }

  lemma RoutedWorker(c: Controller, prompt: Prompt, s: State, t: nat)
    requires Judge(c, prompt, s, t).routing.Some?
    ensures var worker := Judge(c, prompt, s, t).routing.value.worker;
      worker.SmallWorker? || worker.Architect? || worker.Constrained()
  {
    var report := Gates(c, t, s.draft);
    RoutingFacts(c, prompt, s, t, report, Diagnose(c, s, t, report));
    hide Gates, Diagnose, RouteRepair, Recorded, GrantsRetry, Routes, Forced;
  }

  /** Resuming a routed attempt asks its worker, and goes on with the answer if there is one. */
  lemma RecordedResumesWith(c: Controller, prompt: Prompt, j: Judged, t: nat)
    requires !j.attempt.selected.Complete? && !j.attempt.route.NoRepair?
    requires j.attempt.draft == j.state.draft
    ensures var made := ResumeDraft(c, j.attempt);
      ResumeRecorded(c, prompt, j, t) ==
        if made.None? then Failure(RepairFailed)
        else if made.value.0 == "" then Failure(NoDraft)
        else Success(RunFrom(c, prompt, AfterAnswer(j, made.value.0, made.value.1), t + 1))
  {
    hide RunFrom, ResumeDraft;
    var attempts := j.state.attempts + [j.attempt];
    assert Recording(j, t).session.attempts[|attempts| - 1] == j.attempt;
  }

  /** How the two calls of the recorded worker relate. */
  lemma RepliesRelate(c: Controller, a: Attempt, worker: Worker)
    requires a.route == By(worker) && c.schedule.None?
    requires worker.SmallWorker? || worker.Architect? || worker.Constrained()
    ensures var made := ResumeDraft(c, a);
      var reply := RunReply(c, a, worker);
      && (made.Some? ==> made.value.1 == worker)
      && (AnswersAlike(c, a, worker) <==>
            made.Some? && made.value.0 != "" && reply == Drafted(made.value.0, worker)
            && Progresses(a, worker, made.value.0))
      && (reply.Drafted? ==> reply.worker == worker)
  {
  }

  /** The run decides on the recorded attempt itself, or not at all. */
  lemma RecordedDecision(c: Controller, prompt: Prompt, j: Judged, t: nat, worker: Worker)
    requires !j.attempt.report.Passed() && j.routing.Some? && j.routing.value.worker == worker
    requires NothingCarried(c, j.state) && j.attempt.route == By(worker) && j.attempt.memos == []
    requires j.attempt.index == t && j.attempt.draft == j.state.draft
    requires worker.SmallWorker? || worker.Architect? || worker.Constrained()
    ensures var o := Decide(c, prompt, t, j);
      var reply := RunReply(c, j.attempt, worker);
      if j.forced.None? && LoopFound(c, j).None? && reply.Drafted? && Progresses(j.attempt, worker, reply.draft)
      then o == Retry(j.state, j.attempt, reply.draft, worker)
      else Leaves(o, |j.state.attempts|)
  {
    RepairLeavesOrRetries(c, prompt, j.state, t, j.attempt, worker);
    hide Repair, LoopFound, RunReply, Progresses;
  }

  /** When the recorded attempt resumes into the session the run ends with. */
  predicate ResumableRecord(c: Controller, j: Judged) {
    || j.attempt.report.Passed()
    || (j.routing.Some? && j.forced.None? && LoopFound(c, j).None?
        && AnswersAlike(c, j.attempt, j.routing.value.worker))
  }

  /** A run that left the attempt does not end as one that kept it does. */
  lemma DifferentAttempt(c: Controller, prompt: Prompt, s: State, t: nat, next: State)
    requires |s.attempts| == t && t + 1 < c.maxRetries + 2
    requires |next.attempts| == t + 1 && !next.attempts[t].route.Escalated?
    requires Leaves(Decide(c, prompt, t, Judge(c, prompt, s, t)), t)
    ensures RunFrom(c, prompt, next, t + 1).session != RunFrom(c, prompt, s, t).session
  {
    var o := Decide(c, prompt, t, Judge(c, prompt, s, t));
    hide Judge, Decide, RunFrom, Recording, Ending, Ready;
    RunKeeps(c, prompt, s, t);
    RunUnfolds(c, prompt, s, t);
    StepGrows(c, prompt, s, t);
    RunKeeps(c, prompt, next, t + 1);
    StepGrows(c, prompt, next, t + 1);
    var mine, other := RunFrom(c, prompt, s, t).session.attempts, RunFrom(c, prompt, next, t + 1).session.attempts;
    assert |other| > t + 1 && other[t] == next.attempts[t];
    if o.Continue? { assert mine[t] == o.next.attempts[t]; }
  }

  /** Two runs about to validate different drafts end in different sessions. */
  lemma DifferentDraft(c: Controller, prompt: Prompt, one: State, two: State, t: nat)
    requires t < c.maxRetries + 2 && |one.attempts| == |two.attempts| && one.draft != two.draft
    ensures RunFrom(c, prompt, one, t).session != RunFrom(c, prompt, two, t).session
  {
    hide Judge, Decide, RunFrom;
    var n := |one.attempts|;
    RunKeeps(c, prompt, one, t);
    StepGrows(c, prompt, one, t);
    RunKeeps(c, prompt, two, t);
    StepGrows(c, prompt, two, t);
    assert RunFrom(c, prompt, one, t).session.attempts[n].draft == one.draft;
    assert RunFrom(c, prompt, two, t).session.attempts[n].draft == two.draft;
  }

  /**
   * Resuming a recorded attempt agrees with going on exactly when the attempt passed, or was routed to a worker and
   * the run would have taken that worker's answer: resuming skips the strategy's manual review, the loop detector
   * and the stagnation exits, takes the first violation for the top one, and raises on an empty answer.
   */
  lemma RecordedAgreesIff(c: Controller, prompt: Prompt, s: State, t: nat)
    requires GoodState(c, s, t) && NothingCarried(c, s)
    ensures RecordedAgrees(c, prompt, s, t) <==> ResumableRecord(c, Judge(c, prompt, s, t))
  {
    var j := Judge(c, prompt, s, t);
    JudgeFacts(c, prompt, s, t);
    if j.attempt.report.Passed() {
      RecordedCompleteAgrees(c, prompt, s, t);
    } else if j.routing.None? {
      RecordedFailureRenamed(c, prompt, s, t);
    } else {
      RecordedRepairAgreesIff(c, prompt, s, t);
    }
  }

  lemma RoutedFacts(c: Controller, prompt: Prompt, s: State, t: nat)
    requires GoodState(c, s, t) && NothingCarried(c, s)
    requires var j := Judge(c, prompt, s, t); !j.attempt.report.Passed() && j.routing.Some?
    ensures
      var j := Judge(c, prompt, s, t);
      var worker := j.routing.value.worker;
      && (worker.SmallWorker? || worker.Architect? || worker.Constrained())
      && NothingCarried(c, j.state) && t + 1 < c.maxRetries + 2 && |s.attempts| == t && j.state.attempts == s.attempts
      && j.state.failed == j.state.attempts && c.schedule.None?
      && j.attempt.index == t && j.attempt.draft == j.state.draft && j.attempt.memos == []
      && j.attempt.route == By(worker) && !j.attempt.selected.Complete?
  {
    JudgeFacts(c, prompt, s, t);
    RoutedWorker(c, prompt, s, t);
    JudgeUnspent(c, prompt, s, t);
    hide Judge, Gates, GrantsRetry, Forced;
    assert MayRoute(c, s, t);
  }

  lemma RecordedAgreesUnfolds(c: Controller, prompt: Prompt, s: State, t: nat)
    requires GoodState(c, s, t) && NothingCarried(c, s)
    requires var j := Judge(c, prompt, s, t); !j.attempt.report.Passed() && j.routing.Some?
    ensures
      var j := Judge(c, prompt, s, t);
      var made := ResumeDraft(c, j.attempt);
      RecordedAgrees(c, prompt, s, t) <==>
        made.Some? && made.value.0 != ""
        && RunFrom(c, prompt, AfterAnswer(j, made.value.0, j.routing.value.worker), t + 1).session
             == RunFrom(c, prompt, s, t).session
  {
    hide Judge, ResumeDraft, RunFrom, GoodState, ResumeRecorded, AnswersAlike, RunReply, Progresses, AfterAnswer;
    var j := Judge(c, prompt, s, t);
    RoutedFacts(c, prompt, s, t);
    RecordedResumesWith(c, prompt, j, t);
    RepliesRelate(c, j.attempt, j.routing.value.worker);
  }

  /** The answer leads to the run's own session exactly when the run goes on with it itself. */
  lemma AnswerAgreesIff(c: Controller, prompt: Prompt, s: State, t: nat, answer: Draft)
    requires GoodState(c, s, t) && NothingCarried(c, s)
    requires var j := Judge(c, prompt, s, t); !j.attempt.report.Passed() && j.routing.Some?
    ensures
      var j := Judge(c, prompt, s, t);
      var worker := j.routing.value.worker;
      RunFrom(c, prompt, AfterAnswer(j, answer, worker), t + 1).session == RunFrom(c, prompt, s, t).session <==>
        Decide(c, prompt, t, j) == Retry(j.state, j.attempt, answer, worker)
  {
    var j := Judge(c, prompt, s, t);
    var worker := j.routing.value.worker;
    var next := AfterAnswer(j, answer, worker);
    hide Judge, Decide, RunFrom, GoodState, LoopFound, RunReply, Progresses;
    RoutedFacts(c, prompt, s, t);
    RecordedDecision(c, prompt, j, t, worker);
    var o := Decide(c, prompt, t, j);
    RunUnfolds(c, prompt, s, t);
    assert next == Retry(j.state, j.attempt, answer, worker).next;
    if Leaves(o, t) {
      DifferentAttempt(c, prompt, s, t, next);
    } else if o.next.draft != answer {
      DifferentDraft(c, prompt, o.next, next, t + 1);
    }
  }

  lemma RetryStays(s: State, a: Attempt, one: Draft, other: Draft, worker: Worker)
    requires !a.route.Escalated?
    ensures !Leaves(Retry(s, a, one, worker), |s.attempts|)
    ensures Retry(s, a, one, worker) == Retry(s, a, other, worker) <==> one == other
  {
    assert (s.attempts + [a])[|s.attempts|] == a;
  }

  lemma ResumableUnfolds(c: Controller, j: Judged)
    requires !j.attempt.report.Passed() && j.routing.Some?
    ensures ResumableRecord(c, j) <==>
      j.forced.None? && LoopFound(c, j).None? && AnswersAlike(c, j.attempt, j.routing.value.worker)
  {
    hide AnswersAlike, LoopFound;
  }

  lemma RecordedRepairAgreesIff(c: Controller, prompt: Prompt, s: State, t: nat)
    requires GoodState(c, s, t) && NothingCarried(c, s)
    requires var j := Judge(c, prompt, s, t); !j.attempt.report.Passed() && j.routing.Some?
    ensures RecordedAgrees(c, prompt, s, t) <==> ResumableRecord(c, Judge(c, prompt, s, t))
  {
    var j := Judge(c, prompt, s, t);
    var worker := j.routing.value.worker;
    var made, reply := ResumeDraft(c, j.attempt), RunReply(c, j.attempt, worker);
    hide *;
    RoutedFacts(c, prompt, s, t);
    RecordedAgreesUnfolds(c, prompt, s, t);
    RecordedDecision(c, prompt, j, t, worker);
    RepliesRelate(c, j.attempt, worker);
    ResumableUnfolds(c, j);
    if made.Some? && made.value.0 != "" {
      AnswerAgreesIff(c, prompt, s, t, made.value.0);
      RetryStays(j.state, j.attempt, made.value.0, if reply.Drafted? then reply.draft else "", worker);
    }
  }
}
