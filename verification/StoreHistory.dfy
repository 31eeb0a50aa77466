/** What a stored session remembers of the operations on it. */
module StoreHistory {
  import opened Prelude
  import opened Dependencies
  import opened OrchestrationRuntime
  import opened RuntimeHistory
  import opened SessionStore
  import DispatchOrder
  import Scheduling
  import SchedulerSafety
  import TaskGraph

  lemma LifecycleStep(s: Record, ops: seq<Operation>)
    requires Sound(s) && ValidOperations(ops) && ops != []
    ensures
      var n := |ops| - 1;
      && ValidOperations(ops[..n]) && ValidOperation(ops[n])
      && Sound(Lifecycle(s, ops[..n])) && Lifecycle(s, ops[..n]).revision.WellFormed()
      && Lifecycle(s, ops) == After(Lifecycle(s, ops[..n]), ops[n])
  {
    SoundFacts(Lifecycle(s, ops[..|ops| - 1]));
    hide Sound, After;
  }

  // ---- one operation, field by field ----

  lemma AttemptFields(s: Record, node: Id, state: Scheduling.NodeState, provider: string)
    ensures
      var allowed := node in s.nodeStates && state !in {Scheduling.Pending, Scheduling.Blocked};
      && (AttemptRecord(s, node, state, provider).Success? <==> allowed)
      && (allowed ==>
            var t := AttemptRecord(s, node, state, provider).value;
            && t == s.(attempts := t.attempts, nodeStates := s.nodeStates[node := state])
            && t.attempts
                 == s.attempts[node := AttemptsOf(s, node) + [Attempt(|AttemptsOf(s, node)| + 1, state, provider)]])
  {
    hide AttemptsOf;
  }

  lemma DebugFields(s: Record, action: DebugAction)
    ensures DebugRecord(s, action).Success? ==>
      var t := DebugRecord(s, action).value;
      && t == s.(breakpoints := t.breakpoints, stepRequested := t.stepRequested, status := t.status)
      && (t.stepRequested <==> s.stepRequested || action == StepAction)
      && t.status == if action == StepAction then Active else s.status
    ensures DebugRecord(s, action).Failure? <==> action.Break? && action.node !in s.nodeStates
  {
  }

  lemma StatusFields(s: Record, hash: TaskGraph.RevisionHash, status: Status)
    ensures ApproveRecord(s, hash).Success? ==>
      var t := ApproveRecord(s, hash).value;
      t == s.(status := Approved, approvedHash := t.approvedHash)
    ensures TransitionRecord(s, status).Success? ==> TransitionRecord(s, status).value == s.(status := status)
  {
  }

  lemma ReviseFields(s: Record, graph: TaskGraph.TaskGraph, reason: string)
    requires s.revision.WellFormed()
    ensures
      var t := ReviseRecord(s, graph, reason);
      t == s.(status := AwaitingApproval, approvedHash := None, revision := t.revision, nodeStates := t.nodeStates,
              attempts := t.attempts)
  {
    hide NodeIds;
  }

  /** No operation of the store touches what a run has left for review. */
  lemma ReviewDataKept(s: Record, op: Operation)
    requires s.revision.WellFormed()
    ensures
      var t := After(s, op);
      && t.mergeQueue == s.mergeQueue && t.proposals == s.proposals
      && t.originalHashes == s.originalHashes && t.outcomes == s.outcomes
  {
    hide ApproveRecord, TransitionRecord, ReviseRecord, AttemptRecord, RetryRecord, DebugRecord;
    match op
    case Approve(hash) => StatusFields(s, hash, Active);
    case Transition(status) => StatusFields(s, s.revision.Hash(), status);
    case Revise(graph, reason) => ReviseFields(s, graph, reason);
    case RecordAttempt(node, state, provider) => AttemptFields(s, node, state, provider);
    case Retry(node, provider) => RetryFields(s, node, provider);
    case Debug(action) => DebugFields(s, action);
  }

  lemma RetryFields(s: Record, node: Id, provider: string)
    ensures RetryRecord(s, node, provider).Success? ==>
      var t := RetryRecord(s, node, provider).value;
      && t == s.(nodeStates := t.nodeStates, overrides := t.overrides)
      && t.nodeStates == RetryStates(TaskGraph.DependencyMap(s.revision.graph), s.nodeStates, node)
      && (provider == "" ==> t.overrides == s.overrides)
      && (provider != "" ==>
            t.overrides == s.overrides[node := provider] && ProviderAllowed(s.revision.graph, node, provider))
  {
    hide RetryStates, ProviderAllowed, TaskGraph.DependencyMap;
  }

  /** The status an operation sets when it goes through; None if it leaves it. */
  lemma StatusSet(s: Record, op: Operation)
    requires s.revision.WellFormed()
    ensures
      var was, now := s.status, After(s, op).status;
      match op
      case Approve(hash) => now == if hash == s.revision.Hash() then Approved else was
      case Transition(to) =>
        if was != CancelledSession && (to == Paused || to == CancelledSession
                                       || (to == Active && s.approvedHash == Some(s.revision.Hash())))
        then now == to else now == was
      case Revise(_, _) => now == AwaitingApproval
      case Debug(action) => now == if action.StepAction? then Active else was
      case _ => now == was
  {
    hide RetryStates;
    match op
    case Debug(action) => match action { case Break(_) => case ClearBreak(_) => case StepAction => }
    case _ =>
  }

  /** A node's stored state changes by a recorded attempt of it or by a retry, and by nothing else. */
  lemma StateChanges(s: Record, op: Operation, n: Id)
    requires s.revision.WellFormed() && n in s.nodeStates && n in After(s, op).nodeStates
    requires After(s, op).nodeStates[n] != s.nodeStates[n]
    ensures
      var now := After(s, op).nodeStates[n];
      || (op.RecordAttempt? && op.node == n && op.state == now)
      || (op.Retry? && now == Scheduling.Pending
          && (op.node == n
              || (s.nodeStates[n] == Scheduling.Blocked
                  && DependsOn(TaskGraph.DependencyMap(s.revision.graph), n, op.node))))
  {
    hide DependsOn, NodeIds, ApproveRecord, TransitionRecord, AttemptRecord, RetryRecord, DebugRecord, RetryStates,
      TaskGraph.DependencyMap;
    match op
    case Approve(hash) => StatusFields(s, hash, Active);
    case Transition(status) => StatusFields(s, s.revision.Hash(), status);
    case Revise(_, _) =>
    case RecordAttempt(node, state, provider) => AttemptFields(s, node, state, provider);
    case Retry(node, provider) =>
      RetryFields(s, node, provider);
      RetryAt(TaskGraph.DependencyMap(s.revision.graph), s.nodeStates, node, n);
    case Debug(action) => DebugFields(s, action);
  }

  /** A retry names a provider for the node only if the node's policy in the stored graph has it. */
  lemma OverridesAreAllowed(s: Record, op: Operation, n: Id)
    requires s.revision.WellFormed()
    requires n in After(s, op).overrides && !(n in s.overrides && s.overrides[n] == After(s, op).overrides[n])
    ensures op.Retry? && op.node == n && op.provider == After(s, op).overrides[n]
    ensures
      var nodes := TaskGraph.ById(s.revision.graph.nodes);
      n in nodes && After(s, op).overrides[n] in nodes[n].policy.providers
  {
    hide NodeIds, ApproveRecord, TransitionRecord, AttemptRecord, RetryRecord, DebugRecord, TaskGraph.ById;
    match op
    case Approve(hash) => StatusFields(s, hash, Active);
    case Transition(status) => StatusFields(s, s.revision.Hash(), status);
    case Revise(_, _) =>
    case RecordAttempt(node, state, provider) => AttemptFields(s, node, state, provider);
    case Retry(node, provider) => RetryFields(s, node, provider);
    case Debug(action) => DebugFields(s, action);
  }

  /** A retry that is allowed uses the provider asked for. */
  lemma RetryUsesProvider(s: Record, node: Id, provider: string)
    requires s.revision.WellFormed() && node in s.nodeStates && Scheduling.Bad(s.nodeStates[node])
    requires ProviderAllowed(s.revision.graph, node, provider) && provider != ""
    ensures
      var t := After(s, Retry(node, provider));
      node in t.overrides && t.overrides[node] == provider
      && node in t.nodeStates && t.nodeStates[node] == Scheduling.Pending
  {
    RetryFields(s, node, provider);
    RetryAt(TaskGraph.DependencyMap(s.revision.graph), s.nodeStates, node, node);
    hide RetryStates, ProviderAllowed;
  }

  lemma RetryAt(m: DepMap, st: Scheduling.States, node: Id, n: Id)
    requires n in st
    ensures
      var after := RetryStates(m, st, node);
      n in after && after[n] ==
        if n == node || (st[n] == Scheduling.Blocked && DependsOn(m, n, node)) then Scheduling.Pending else st[n]
  {
    hide DependsOn;
  }

  // ---- attempts ----

  /** One more attempt of the node, or the same ones. */
  lemma AttemptsKept(s: Record, op: Operation, n: Id)
    requires s.revision.WellFormed() && n in s.attempts && (op.Revise? ==> n in NodeIds(op.graph))
    ensures
      var t := After(s, op);
      && n in t.attempts && s.attempts[n] <= t.attempts[n]
      && (t.attempts[n] != s.attempts[n] ==>
            && op.RecordAttempt? && op.node == n
            && t.attempts[n] == s.attempts[n] + [Attempt(|s.attempts[n]| + 1, op.state, op.provider)]
            && n in t.nodeStates && t.nodeStates[n] == op.state)
      && (op.RecordAttempt? && op.node == n ==>
            (t.attempts[n] != s.attempts[n] <==>
               n in s.nodeStates && op.state !in {Scheduling.Pending, Scheduling.Blocked}))
  {
    hide NodeIds, ApproveRecord, TransitionRecord, AttemptRecord, RetryRecord, DebugRecord;
    match op
    case Approve(hash) => StatusFields(s, hash, Active);
    case Transition(status) => StatusFields(s, s.revision.Hash(), status);
    case Revise(_, _) =>
    case RecordAttempt(node, state, provider) => AttemptFields(s, node, state, provider);
    case Retry(node, provider) => RetryFields(s, node, provider);
    case Debug(action) => DebugFields(s, action);
  }

  /** A node's attempts are only ever added to while it stays in the graph, through revisions and retries. */
  lemma {:induction false} AttemptsOnlyGrow(s: Record, ops: seq<Operation>, n: Id)
    requires Sound(s) && ValidOperations(ops) && n in s.attempts
    requires forall i :: 0 <= i < |ops| && ops[i].Revise? ==> n in NodeIds(ops[i].graph)
    ensures n in Lifecycle(s, ops).attempts && s.attempts[n] <= Lifecycle(s, ops).attempts[n]
  {
    if ops != [] {
      var init := ops[..|ops| - 1];
      LifecycleStep(s, ops);
      AttemptsOnlyGrow(s, init, n);
      hide Sound, After, Lifecycle, NodeIds;
      AttemptsKept(Lifecycle(s, init), ops[|ops| - 1], n);
    }
  }

  /** The attempts of every node are numbered from one. */
  predicate Counted(s: Record) {
    forall n, i :: n in s.attempts && 0 <= i < |s.attempts[n]| ==> s.attempts[n][i].attempt == i + 1
  }

  lemma CountedStep(s: Record, op: Operation)
    requires s.revision.WellFormed() && Counted(s)
    ensures Counted(After(s, op))
  {
    hide NodeIds, ApproveRecord, TransitionRecord, AttemptRecord, RetryRecord, DebugRecord;
    match op
    case Approve(hash) => StatusFields(s, hash, Active);
    case Transition(status) => StatusFields(s, s.revision.Hash(), status);
    case Revise(_, _) =>
    case RecordAttempt(node, state, provider) =>
      AttemptFields(s, node, state, provider);
      CountedMore(s, node, Attempt(|AttemptsOf(s, node)| + 1, state, provider));
    case Retry(node, provider) => RetryFields(s, node, provider);
    case Debug(action) => DebugFields(s, action);
  }

  lemma CountedMore(s: Record, node: Id, attempt: Attempt)
    requires Counted(s) && attempt.attempt == |AttemptsOf(s, node)| + 1
    ensures
      var attempts: map<Id, seq<Attempt>> := s.attempts[node := AttemptsOf(s, node) + [attempt]];
      forall n, i :: n in attempts && 0 <= i < |attempts[n]| ==> attempts[n][i].attempt == i + 1
  {
    var attempts: map<Id, seq<Attempt>> := s.attempts[node := AttemptsOf(s, node) + [attempt]];
    forall n: Id, i | n in attempts && 0 <= i < |attempts[n]| ensures attempts[n][i].attempt == i + 1 {
      if n == node && i < |AttemptsOf(s, n)| { assert attempts[n][i] == AttemptsOf(s, n)[i]; }
    }
  }

  lemma {:induction false} AttemptsAreCounted(s: Record, ops: seq<Operation>)
    requires Sound(s) && ValidOperations(ops) && Counted(s)
    ensures Counted(Lifecycle(s, ops))
  {
    if ops != [] {
      LifecycleStep(s, ops);
      AttemptsAreCounted(s, ops[..|ops| - 1]);
      hide Sound, After, Lifecycle, Counted;
      CountedStep(Lifecycle(s, ops[..|ops| - 1]), ops[|ops| - 1]);
    }
  }

  // ---- revisions ----

  /** A revision starts new nodes pending and without attempts, and keeps state and attempts of the others. */
  lemma RevisionCarries(s: Record, graph: TaskGraph.TaskGraph, reason: string, n: Id)
    requires Sound(s) && TaskGraph.ValidGraph(graph)
    ensures s.revision.WellFormed()
    ensures
      var t := After(s, Revise(graph, reason));
      && (n in t.nodeStates <==> n in NodeIds(graph)) && (n in t.attempts <==> n in NodeIds(graph))
      && (n in NodeIds(graph) ==>
            && t.nodeStates[n] == (if n in NodeIds(s.revision.graph) then s.nodeStates[n] else Scheduling.Pending)
            && t.attempts[n] == AttemptsOf(s, n))
      && t.overrides == s.overrides && t.breakpoints == s.breakpoints && t.stepRequested == s.stepRequested
  {
    SoundFacts(s);
    hide Sound, NodeIds;
  }

  // ---- debug settings ----

  lemma DebugKept(s: Record, op: Operation)
    requires s.revision.WellFormed()
    ensures
      var t := After(s, op);
      && (t.stepRequested <==> s.stepRequested || op == Debug(StepAction))
      && (forall n :: n in t.breakpoints <==>
            || (n in s.breakpoints && op != Debug(ClearBreak(n)))
            || (op == Debug(Break(n)) && n in s.nodeStates))
  {
    hide ApproveRecord, TransitionRecord, ReviseRecord, AttemptRecord, RetryRecord;
    match op
    case Approve(hash) => StatusFields(s, hash, Active);
    case Transition(status) => StatusFields(s, s.revision.Hash(), status);
    case Revise(graph, reason) => ReviseFields(s, graph, reason);
    case RecordAttempt(node, state, provider) => AttemptFields(s, node, state, provider);
    case Retry(node, provider) => RetryFields(s, node, provider);
    case Debug(action) =>
      DebugFields(s, action);
      DebugBreaks(s, action);
      hide DebugRecord;
  }

  lemma DebugBreaks(s: Record, action: DebugAction)
    ensures DebugRecord(s, action).Success? ==>
      forall n :: n in DebugRecord(s, action).value.breakpoints <==>
        (n in s.breakpoints && action != ClearBreak(n)) || action == Break(n)
    ensures forall n :: action == Break(n) ==> (DebugRecord(s, action).Success? <==> n in s.nodeStates)
  {
  }

  /** A step request is never taken back. */
  lemma {:induction false} StepIsForever(s: Record, ops: seq<Operation>)
    requires Sound(s) && ValidOperations(ops)
    ensures Lifecycle(s, ops).stepRequested <==> s.stepRequested || Debug(StepAction) in ops
  {
    if ops != [] {
      var n := |ops| - 1;
      LifecycleStep(s, ops);
      hide *;
      StepIsForever(s, ops[..n]);
      DebugKept(Lifecycle(s, ops[..n]), ops[n]);
      LastIn(ops, Debug(StepAction));
    } else {
      NothingYet(s);
    }
  }

  lemma NothingYet(s: Record)
    requires Sound(s)
    ensures ValidOperations([]) && Lifecycle(s, []) == s
  {
    hide Sound;
  }

  /**
   * Once a step was requested, every runtime built afterwards dispatches at most one node in its whole run, unless it
   * is stepped again itself; resuming it does not help.
   */
  lemma SteppedSessionsCrawl(s: Record, ops: seq<Operation>, w: Scheduling.Workload, es: seq<Scheduling.Event>)
    requires Sound(s) && ValidOperations(ops) && (s.stepRequested || Debug(StepAction) in ops)
    requires Scheduling.ValidWorkload(w)
        && w.deps == TaskGraph.DependencyMap(Lifecycle(s, ops).revision.graph)
    requires Scheduling.User(Scheduling.StepOnce) !in es
    ensures
      var start := Loaded(Lifecycle(s, ops));
      && Scheduling.Shaped(w, start) && Elements(w.order) == w.deps.Keys
      && |DispatchOrder.Dispatched(w, start, es)| <= 1
  {
    var now := Lifecycle(s, ops);
    StepIsForever(s, ops);
    LoadedKeys(now);
    LoadedStates(now, w.deps);
    LoadedStarts(now);
    hide Sound, Lifecycle, Scheduling.ValidWorkload, Reloaded;
    DispatchOrder.StepsBound(w, Loaded(now), es);
  }
}
