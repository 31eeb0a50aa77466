/** The orchestration session as the mutable object the runtime drives. */
module Orchestration {
  import opened Prelude
  import opened Dependencies
  import opened Scheduling
  import DispatchOrder
  import SchedulerCommands
  import SchedulerConfluence
  import SchedulerControls
  import SchedulerSafety
  import TaskGraph
  import Providers

  datatype SessionError = HashMismatch | UnknownNode(node: Id) | NotApproved

  class OrchestrationSession {
    const revision: TaskGraph.GraphRevision
    const concurrency: nat
    var approvedHash: Option<TaskGraph.RevisionHash>
    var states: States
    /** The task dictionary of `run`; empty whenever no run is in progress. */
    var running: set<Id>
    var mergeQueue: seq<Id>
    var breakpoints: set<Id>
    var dispatchBudget: Option<nat>
    var paused: bool
    var cancelled: bool
    var providers: map<Id, string>
    /** How many events the session has appended through its journal handle. */
    var emitted: nat
    /** A local of `run`: how many nodes it has dispatched. */
    var dispatchIndex: nat

    ghost predicate Valid()
      reads this
    {
      && TaskGraph.ValidGraph(revision.graph)
      && 1 <= concurrency <= 8
      && states.Keys == TaskGraph.DependencyMap(revision.graph).Keys
    }

    ghost function Work(): (w: Workload)
      reads this
      requires Valid()
      ensures ValidWorkload(w) && w.deps == TaskGraph.DependencyMap(revision.graph) && w.limit == concurrency
      ensures EditorsOf(w, revision.graph)
    {
      SchedulerSafety.WorkloadOfValid(revision.graph, concurrency);
      SchedulerSafety.WorkloadOf(revision.graph, concurrency)
    }

    ghost function View(phase: Phase): Session
      reads this
    {
      Session(states, running, mergeQueue, breakpoints, dispatchBudget, paused, cancelled, emitted, phase)
    }

    constructor (revision: TaskGraph.GraphRevision, concurrency: nat)
      requires TaskGraph.ValidGraph(revision.graph) && 1 <= concurrency <= 8
      ensures Valid() && this.revision == revision && this.concurrency == concurrency
      ensures approvedHash == None
      ensures forall n :: n in states ==> states[n] == Pending
      ensures View(AtTop) == Fresh(Work(), states) && providers == map[]
    {
      this.revision, this.concurrency := revision, concurrency;
      approvedHash := None;
      states := map n | n in TaskGraph.ById(revision.graph.nodes) :: Pending;
      running, mergeQueue, breakpoints := {}, [], {};
      dispatchBudget, paused, cancelled := None, false, false;
      providers, dispatchIndex := map[], 0;
      emitted := 0;
    }

    /** `_emit`: one more event through the journal handle. */
    method Emit()
      modifies this`emitted
      ensures emitted == old(emitted) + 1
    {
      emitted := emitted + 1;
    }

    /** The constructor's range check. */
    static method Open(revision: TaskGraph.GraphRevision, concurrency: int) returns (r: Option<OrchestrationSession>)
      requires TaskGraph.ValidGraph(revision.graph)
      ensures r.Some? <==> 1 <= concurrency <= 8
      ensures r.Some? ==>
        fresh(r.value) && r.value.Valid() && r.value.View(AtTop) == Fresh(r.value.Work(), r.value.states)
    {
      if !(1 <= concurrency <= 8) {
        return None;
      }
      var session := new OrchestrationSession(revision, concurrency);
      return Some(session);
    }

    method Approve(revisionHash: TaskGraph.RevisionHash) returns (r: Result<(), SessionError>)
      modifies this`approvedHash, this`emitted
      ensures r == if revisionHash == revision.Hash() then Success(()) else Failure(HashMismatch)
      ensures approvedHash == if r.Success? then Some(revision.Hash()) else old(approvedHash)
      ensures emitted == old(emitted) + (if r.Success? then 1 else 0)
    {
      if revisionHash != revision.Hash() {
        return Failure(HashMismatch);
      }
      approvedHash := Some(revisionHash);
      Emit();
      return Success(());
    }

    // ---- user commands ----

    method PauseRun()
      modifies this`paused, this`emitted
      ensures forall p :: View(p) == Obey(old(View(p)), Pause)
    {
      paused := true;
      Emit();
    }

    method ResumeRun()
      modifies this`paused, this`emitted
      ensures forall p :: View(p) == Obey(old(View(p)), Resume)
    {
      paused := false;
      Emit();
    }

    method CancelRun()
      modifies this`cancelled, this`paused, this`emitted
      ensures forall p :: View(p) == Obey(old(View(p)), Cancel)
    {
      cancelled := true;
      paused := false;
      Emit();
    }

    method SetBreakpoint(node: Id) returns (r: Result<(), SessionError>)
      modifies this`breakpoints, this`emitted
      ensures r.Success? <==> node in states
      ensures forall p :: View(p) == Obey(old(View(p)), AddBreakpoint(node))
    {
      if node !in states {
        return Failure(UnknownNode(node));
      }
      breakpoints := breakpoints + {node};
      Emit();
      return Success(());
    }

    method ClearBreakpoint(node: Id)
      modifies this`breakpoints, this`emitted
      ensures forall p :: View(p) == Obey(old(View(p)), RemoveBreakpoint(node))
    {
      breakpoints := breakpoints - {node};
      Emit();
    }

    /** One command, whenever it comes. */
    method ObeyCommand(c: Command)
      modifies this`breakpoints, this`dispatchBudget, this`paused, this`cancelled, this`emitted
      ensures forall p :: View(p) == Obey(old(View(p)), c)
    {
      match c {
        case Pause => PauseRun();
        case Resume => ResumeRun();
        case Cancel => CancelRun();
        case AddBreakpoint(node) => var _ := SetBreakpoint(node);
        case RemoveBreakpoint(node) => ClearBreakpoint(node);
        case StepOnce => StepRun();
      }
    }

    method StepRun()
      modifies this`dispatchBudget, this`paused, this`emitted
      ensures forall p :: View(p) == Obey(old(View(p)), StepOnce)
    {
      dispatchBudget := Some(1);
      paused := false;
      Emit();
    }

    // ---- the phases of the run loop ----

    /** One iteration of the dispatch loop; `go` is false where the source breaks out of it. */
    method Visit(ghost w: Workload, node: TaskGraph.TaskNode) returns (go: bool)
      requires View(AtTop).states.Keys == w.deps.Keys && w.limit == concurrency
      requires node.nodeId in w.deps && w.deps[node.nodeId] == Elements(node.dependencies)
      requires w.deps[node.nodeId] <= w.deps.Keys
      modifies this`states, this`running, this`dispatchBudget, this`paused, this`providers, this`dispatchIndex,
        this`emitted
      ensures View(AtTop) == VisitNode(w, old(View(AtTop)), node.nodeId).session
      ensures go <==> VisitNode(w, old(View(AtTop)), node.nodeId).Go?
      ensures old(states)[node.nodeId] == Pending && states[node.nodeId] == Running ==>
        && providers == old(providers)[node.nodeId := Providers.ProviderOf(node.policy, old(dispatchIndex))]
        && dispatchIndex == old(dispatchIndex) + 1
      ensures !(old(states)[node.nodeId] == Pending && states[node.nodeId] == Running) ==>
        providers == old(providers) && dispatchIndex == old(dispatchIndex)
    {
      var n := node.nodeId;
      DependencyTests(w, View(AtTop), node);
      hide HasBadDependency, AllSucceeded, Providers.ProviderOf, Block, Start;
      if |running| >= concurrency {
        return false;
      }
      if states[n] != Pending {
        return true;
      }
      if n in breakpoints && dispatchBudget.None? {
        paused := true;
        Emit();
        return false;
      }
      if dispatchBudget == Some(0) {
        paused := true;
        return false;
      }
      if exists d :: d in node.dependencies && Bad(states[d]) {
        BlockNode(n);
        return true;
      }
      if !(forall d :: d in node.dependencies ==> states[d] == Succeeded) {
        return true;
      }
      Dispatch(node);
      return true;
    }

    method BlockNode(n: Id)
      requires n in states
      modifies this`states, this`emitted
      ensures View(AtTop) == Block(old(View(AtTop)), n) && states == old(states)[n := Blocked]
    {
      states := states[n := Blocked];
      Emit();
    }

    /** Choose the provider, mark the node running and use up a granted step. */
    method Dispatch(node: TaskGraph.TaskNode)
      requires dispatchBudget != Some(0) && node.nodeId in states
      modifies this`states, this`running, this`dispatchBudget, this`providers, this`dispatchIndex, this`emitted
      ensures View(AtTop) == Start(old(View(AtTop)), node.nodeId) && states == old(states)[node.nodeId := Running]
      ensures providers == old(providers)[node.nodeId := Providers.ProviderOf(node.policy, old(dispatchIndex))]
      ensures dispatchIndex == old(dispatchIndex) + 1
    {
      var _, provider := Providers.ProviderAt(node.policy, dispatchIndex);
      dispatchIndex := dispatchIndex + 1;
      providers := providers[node.nodeId := provider];
      states := states[node.nodeId := Running];
      running := running + {node.nodeId};
      Emit();
      if dispatchBudget.Some? {
        dispatchBudget := Some(dispatchBudget.value - 1);
      }
    }

    /** The `for node_id in order` dispatch loop. */
    method DispatchPass(ghost w: Workload, order: seq<Id>)
      requires Valid() && w == Work() && order == w.order
      modifies this`states, this`running, this`dispatchBudget, this`paused, this`providers, this`dispatchIndex,
        this`emitted
      ensures Valid() && states.Keys == old(states).Keys
      ensures View(AtTop) == Pass(w, old(View(AtTop)), 0)
      ensures dispatchIndex == old(dispatchIndex) + |DispatchOrder.Started(w, old(states), states)|
      ensures DispatchOrder.Assigned(revision.graph, old(providers), old(dispatchIndex),
                                     DispatchOrder.Started(w, old(states), states), providers)
    {
      ghost var start, was, first := View(AtTop), providers, dispatchIndex;
      var nodes := TaskGraph.ById(revision.graph.nodes);
      WorkNodes(revision.graph, w);
      PassBegins(w, start, revision.graph, was, first);
      hide Pass, VisitNode, TaskGraph.ValidGraph, TaskGraph.DependencyMap, Known, Topological, NoDuplicates, Passing,
        Providers.ProviderOf, TaskGraph.ById, ValidWorkload, EditorsOf, DispatchOrder.Started, DispatchOrder.Assigned;
      var i := 0;
      assert start.states.Keys == w.deps.Keys;
      while i < |order|
        invariant 0 <= i <= |order|
        invariant Valid() && states.Keys == start.states.Keys
        invariant Pass(w, start, 0) == Pass(w, View(AtTop), i)
        invariant Passing(revision.graph, w, start.states, was, first, i, states, providers, dispatchIndex)
      {
        assert order[i] in Elements(order);
        PassStep(w, View(AtTop), i);
        ghost var s, before, index := View(AtTop), providers, dispatchIndex;
        var go := Visit(w, nodes[order[i]]);
        VisitPasses(revision.graph, w, start.states, was, first, i, s, before, index, providers, dispatchIndex);
        if !go {
          PassingEnds(revision.graph, w, start.states, was, first, i + 1, states, providers, dispatchIndex);
          return;
        }
        i := i + 1;
      }
      PassEnd(w, View(AtTop));
      PassingEnds(revision.graph, w, start.states, was, first, i, states, providers, dispatchIndex);
    }

    /** Record one finished task: its state, and its proposal when it edits and succeeded. */
    method FinishTask(ghost w: Workload, node: TaskGraph.TaskNode, ghost done: set<Id>, ok: set<Id>)
      requires node.nodeId in done && (node.Edits() <==> node.nodeId in w.editors)
      modifies this`states, this`running, this`mergeQueue, this`emitted
      ensures View(AtTop) == FinishOne(w, old(View(AtTop)), done, ok, node.nodeId)
    {
      var n := node.nodeId;
      running := running - {n};
      states := states[n := if n in ok then Succeeded else Failed];
      if n in ok && node.Edits() {
        mergeQueue := mergeQueue + [n];
      }
      Emit();
    }

    /** The loop over the finished tasks, in dispatch order; `ok` are those whose runner reported success. */
    method CollectDone(ghost w: Workload, order: seq<Id>, done: set<Id>, ok: set<Id>)
      requires order == w.order && Elements(order) == states.Keys && done <= running <= states.Keys
      requires EditorsOf(w, revision.graph)
      requires w.deps.Keys == states.Keys
      modifies this`states, this`running, this`mergeQueue, this`emitted
      ensures View(AtTop) == Collect(w, old(View(Awaiting)), done, ok)
      ensures states.Keys == old(states.Keys)
    {
      hide FinishOne, Collect;
      ghost var before := View(AtTop);
      var nodes := TaskGraph.ById(revision.graph.nodes);
      for i := 0 to |order|
        invariant states.Keys == before.states.Keys
        invariant View(AtTop) == FinishUpTo(w, before, done, ok, i)
      {
        assert order[i] in Elements(order);
        FinishOneShape(w, View(AtTop), done, ok, order[i]);
        if order[i] in done {
          FinishTask(w, nodes[order[i]], done, ok);
        }
      }
      FinishAll(w, before, done, ok);
    }

    /** A cancelled run gives up its tasks and every node that is not done. */
    method CancelOpen()
      modifies this`states, this`running
      ensures View(Returned) == AfterCancel(old(View(AtTop)))
      ensures states.Keys == old(states.Keys)
    {
      running := {};
      states := map n | n in states :: if states[n] == Pending || states[n] == Running then Cancelled else states[n];
    }

    /** While tasks run, any of the commands still to come may be given. */
    method Interrupted(ghost w: Workload, ghost start: Session, ghost good: set<Id>, ghost given: seq<Command>,
                       todo: seq<Command>, ghost events: seq<Event>, ghost was: map<Id, string>)
      returns (rest: seq<Command>, ghost more: seq<Event>)
      requires Driven(w, start, good, given, todo, events, View(Awaiting))
      requires DispatchOrder.Billed(revision.graph, w, start, was, events, providers, dispatchIndex)
      modifies this`breakpoints, this`dispatchBudget, this`paused, this`cancelled, this`emitted
      ensures Driven(w, start, good, given, rest, more, View(Awaiting))
      ensures DispatchOrder.Billed(revision.graph, w, start, was, more, providers, dispatchIndex)
      ensures |rest| <= |todo|
          && SchedulerConfluence.Rank(View(Awaiting)) == SchedulerConfluence.Rank(old(View(Awaiting)))
      ensures given == [] ==> View(Awaiting) == old(View(Awaiting))
    {
      hide Driven, SchedulerConfluence.Rank, Obey, DispatchOrder.Billed;
      rest, more := todo, events;
      while rest != []
        invariant Driven(w, start, good, given, rest, more, View(Awaiting))
        invariant DispatchOrder.Billed(revision.graph, w, start, was, more, providers, dispatchIndex)
        invariant |rest| <= |todo| && (given == [] ==> View(Awaiting) == old(View(Awaiting)))
        invariant SchedulerConfluence.Rank(View(Awaiting)) == SchedulerConfluence.Rank(old(View(Awaiting)))
        decreases |rest|
      {
        var now: bool := *;
        if !now {
          break;
        }
        UserStep(w, start, good, given, rest, more, View(Awaiting));
        UserBills(w, start, good, given, rest, more, View(Awaiting), revision.graph, was, providers, dispatchIndex);
        ObeyCommand(rest[0]);
        more, rest := more + [User(rest[0])], rest[1..];
      }
    }

    /** The await returns any non-empty set of finished tasks; `good` are the nodes whose runner reports success. */
    method AwaitTasks(ghost w: Workload, order: seq<Id>, good: set<Id>) returns (ghost done: set<Id>)
      requires Valid() && w == Work() && order == w.order && running != {} && running <= states.Keys
      modifies this`states, this`running, this`mergeQueue, this`emitted
      ensures Valid() && w == Work()
      ensures done != {} && done <= old(running) && View(AtTop) == Collect(w, old(View(Awaiting)), done, good)
    {
      assert Elements(order) == w.deps.Keys == states.Keys;
      var tasks: set<Id> :| tasks != {} && tasks <= running;
      CollectDone(w, order, tasks, good);
      return tasks;
    }

    /**
     * The run loop, with the commands that are given while it runs, each at any point the loop waits. It finishes,
     * or waits paused when the last of them has been given.
     */
    method Run(good: set<Id>, commands: seq<Command>)
      returns (r: Result<RunOutcome, SessionError>, ghost events: seq<Event>)
      requires Valid()
      requires approvedHash == Some(revision.Hash()) ==> running == {} && SchedulerSafety.ValidStart(Work(), states)
      modifies this`states, this`running, this`mergeQueue, this`breakpoints, this`dispatchBudget, this`paused,
        this`cancelled, this`providers, this`dispatchIndex, this`emitted
      ensures Valid() && Work() == old(Work())
      ensures approvedHash != Some(revision.Hash()) ==>
        r == Failure(NotApproved) && View(AtTop) == old(View(AtTop)) && providers == old(providers)
      ensures approvedHash == Some(revision.Hash()) ==> r.Success? && Accounted(good, commands, events)
      ensures r.Success? ==>
        && DispatchOrder.Billed(revision.graph, Work(), old(View(AtTop)), old(providers), events, providers,
                                dispatchIndex)
        && SchedulerCommands.CancelsObeyed(Work(), old(View(AtTop)), events)
      ensures r == Success(Waiting) ==> paused && View(AtTop) == Replay(Work(), old(View(AtTop)), events)
      ensures r.Success? && r.value.Finished? ==>
        && r.value.states == states && AllTerminal(states) && running == {} && old(mergeQueue) <= mergeQueue
        && View(Returned) == Replay(Work(), old(View(AtTop)), events)
        && (!old(cancelled) && Cancel !in commands ==> SchedulerConfluence.Verdict(Work(), old(states), good, states))
        && (old(mergeQueue) == [] && ClosedStates(Work().deps, old(states)) ==>
              SchedulerSafety.QueueInv(Work(), old(states), View(Returned)))
      ensures r.Success? && commands == [] && SchedulerConfluence.Undisturbed(old(View(AtTop))) ==> r.value.Finished?
    {
      events := [];
      if approvedHash != Some(revision.Hash()) {
        return Failure(NotApproved), [];
      }
      var sorted := TaskGraph.TopologicalOrder(revision.graph);
      var order := sorted.value;
      ghost var w, start, was := Work(), View(AtTop), providers;
      dispatchIndex := 0;
      StartDriven(w, start, good, commands);
      DispatchOrder.BilledStart(revision.graph, w, start, was);
      hide DispatchOrder.Billed, SchedulerCommands.CancelsObeyed;
      hide Driven, Reached, TaskGraph.ValidGraph, ValidWorkload, EditorsOf, Accounted, SchedulerConfluence.Undisturbed,
        SchedulerConfluence.Verdict, SchedulerSafety.QueueInv, SchedulerSafety.ValidStart, Replay, ClosedStates;
      var finished;
      ghost var todo;
      finished, todo, events := Drive(w, order, good, start, commands, was);
      if finished {
        FinishedEnd(w, start, good, commands, todo, events, View(Returned));
        return Success(Finished(states)), events;
      }
      WaitingEnd(w, start, good, commands, events, View(AtTop));
      return Success(Waiting), events;
    }

    /** The `while True` of the run. */
    method Drive(ghost w: Workload, order: seq<Id>, good: set<Id>, ghost start: Session, commands: seq<Command>,
                 ghost was: map<Id, string>)
      returns (finished: bool, ghost rest: seq<Command>, ghost events: seq<Event>)
      requires Valid() && w == Work() && order == w.order && start == View(AtTop)
      requires Driven(w, start, good, commands, commands, [], start)
      requires DispatchOrder.Billed(revision.graph, w, start, was, [], providers, dispatchIndex)
      modifies this`states, this`running, this`mergeQueue, this`breakpoints, this`dispatchBudget, this`paused,
        this`cancelled, this`providers, this`dispatchIndex, this`emitted
      ensures Valid() && w == Work()
      ensures finished ==> Reached(w, start, good, commands, rest, events, View(Returned))
      ensures !finished ==> paused && Driven(w, start, good, commands, [], events, View(AtTop))
      ensures commands == [] && SchedulerConfluence.Undisturbed(start) ==> finished
      ensures DispatchOrder.Billed(revision.graph, w, start, was, events, providers, dispatchIndex)
    {
      hide Driven, Reached, TaskGraph.ValidGraph, ValidWorkload, EditorsOf, SchedulerConfluence.Undisturbed,
        SchedulerConfluence.Rank, Obey, Order, DispatchOrder.Billed;
      var todo := commands;
      events := [];
      while true
        invariant Valid() && w == Work()
        invariant Driven(w, start, good, commands, todo, events, View(AtTop))
        invariant DispatchOrder.Billed(revision.graph, w, start, was, events, providers, dispatchIndex)
        invariant commands == [] && SchedulerConfluence.Undisturbed(start) ==>
            SchedulerConfluence.Undisturbed(View(AtTop))
        decreases |todo|, SchedulerConfluence.Rank(View(AtTop)), if paused then 0 else 1
      {
        var now: bool := *;
        if todo != [] && (paused || now) {
          UserStep(w, start, good, commands, todo, events, View(AtTop));
          UserBills(w, start, good, commands, todo, events, View(AtTop), revision.graph, was, providers,
                    dispatchIndex);
          ObeyCommand(todo[0]);
          events, todo := events + [User(todo[0])], todo[1..];
        } else if paused {
          WaitingEnd(w, start, good, commands, events, View(AtTop));
          return false, [], events;
        } else {
          finished, todo, events := Turn(w, order, good, start, commands, todo, events, was);
          if finished {
            return true, todo, events;
          }
        }
      }
    }

    /** One turn of an unpaused loop: cancel, or dispatch and then return, go round, or wait for tasks. */
    method Turn(ghost w: Workload, order: seq<Id>, good: set<Id>, ghost start: Session, ghost given: seq<Command>,
                todo: seq<Command>, ghost events: seq<Event>, ghost was: map<Id, string>)
      returns (finished: bool, rest: seq<Command>, ghost more: seq<Event>)
      requires Valid() && w == Work() && order == w.order && !paused
      requires Driven(w, start, good, given, todo, events, View(AtTop))
      requires DispatchOrder.Billed(revision.graph, w, start, was, events, providers, dispatchIndex)
      modifies this`states, this`running, this`mergeQueue, this`breakpoints, this`dispatchBudget, this`paused,
        this`cancelled, this`providers, this`dispatchIndex, this`emitted
      ensures Valid() && w == Work()
      ensures finished ==> Reached(w, start, good, given, rest, more, View(Returned))
      ensures !finished ==>
        && Driven(w, start, good, given, rest, more, View(AtTop))
        && Lower(todo, old(View(AtTop)), rest, View(AtTop))
        && (given == [] && SchedulerConfluence.Undisturbed(old(View(AtTop))) ==>
            SchedulerConfluence.Undisturbed(View(AtTop)))
      ensures DispatchOrder.Billed(revision.graph, w, start, was, more, providers, dispatchIndex)
    {
      hide Driven, Reached, Pass, Collect, SchedulerConfluence.Rank, SchedulerConfluence.Undisturbed, AfterCancel,
        AfterPass, TaskGraph.ValidGraph, ValidWorkload, Lower, EditorsOf, DispatchOrder.Billed, DispatchOrder.Started,
        DispatchOrder.Assigned;
      ghost var s := View(AtTop);
      TurnStep(w, start, good, given, todo, events, s);
      rest, more := todo, events + [Tick];
      if cancelled {
        CancelBills(w, start, good, given, todo, events, s, revision.graph, was, providers, dispatchIndex);
        CancelOpen();
        return true, rest, more;
      }
      ghost var before, index := providers, dispatchIndex;
      DispatchPass(w, order);
      ghost var p := View(AtTop);
      TurnBills(w, start, good, given, todo, events, s, p, revision.graph, was, before, index, providers);
      if running == {} {
        IdleTurn(w, start, good, given, todo, events, s, p);
        finished := forall n :: n in states ==> states[n] != Pending && states[n] != Running;
        return finished, rest, more;
      }
      AwaitTurn(w, start, good, given, todo, events, s, p);
      rest, more := AwaitRunning(w, order, good, start, given, rest, more, was);
      LowerAfter(todo, s, p.(phase := Awaiting), rest, View(AtTop));
      finished := false;
    }

    /** Wait for tasks while commands come, and collect those that have finished. */
    method AwaitRunning(ghost w: Workload, order: seq<Id>, good: set<Id>, ghost start: Session,
                        ghost given: seq<Command>, todo: seq<Command>, ghost events: seq<Event>,
                        ghost was: map<Id, string>)
      returns (rest: seq<Command>, ghost more: seq<Event>)
      requires Valid() && w == Work() && order == w.order && running != {} && running <= states.Keys
      requires Driven(w, start, good, given, todo, events, View(Awaiting))
      requires DispatchOrder.Billed(revision.graph, w, start, was, events, providers, dispatchIndex)
      modifies this`states, this`running, this`mergeQueue, this`breakpoints, this`dispatchBudget, this`paused,
        this`cancelled, this`emitted
      ensures Valid() && w == Work()
      ensures Driven(w, start, good, given, rest, more, View(AtTop)) && |rest| <= |todo|
      ensures SchedulerConfluence.Rank(View(AtTop)) < SchedulerConfluence.Rank(old(View(Awaiting)))
      ensures given == [] && SchedulerConfluence.Undisturbed(old(View(Awaiting))) ==>
        SchedulerConfluence.Undisturbed(View(AtTop))
      ensures DispatchOrder.Billed(revision.graph, w, start, was, more, providers, dispatchIndex)
    {
      hide Driven, Collect, SchedulerConfluence.Rank, SchedulerConfluence.Undisturbed, TaskGraph.ValidGraph,
        ValidWorkload, EditorsOf, DispatchOrder.Billed;
      rest, more := Interrupted(w, start, good, given, todo, events, was);
      ghost var waiting := View(Awaiting);
      var done := AwaitTasks(w, order, good);
      DoneBills(w, start, good, given, rest, more, waiting, done, revision.graph, was, providers, dispatchIndex);
      DoneStep(w, start, good, given, rest, more, waiting, done);
      more := more + [Finish(done, good)];
    }
  }

  datatype RunOutcome = Finished(states: States) | Waiting

  function MarkDone(states: States, done: set<Id>, ok: set<Id>): States {
    map n | n in states :: if n in done then (if n in ok then Succeeded else Failed) else states[n]
  }

  /** The finished tasks among the first `i` of the order. */
  function Seen(order: seq<Id>, i: nat, done: set<Id>): set<Id>
    requires i <= |order|
  {
    done * Elements(order[..i])
  }

  /** The workload's editors are the graph's editing nodes. */
  ghost predicate EditorsOf(w: Workload, g: TaskGraph.TaskGraph) {
    var nodes := TaskGraph.ById(g.nodes);
    nodes.Keys == w.deps.Keys && forall n :: n in nodes ==> (nodes[n].Edits() <==> n in w.editors)
  }

  /** What the completion loop does at position `n` of the order. */
  function FinishOne(w: Workload, s: Session, done: set<Id>, ok: set<Id>, n: Id): Session {
    if n !in done then s
    else s.(
      states := s.states[n := if n in ok then Succeeded else Failed],
      running := s.running - {n},
      mergeQueue := s.mergeQueue + (if n in ok && n in w.editors then [n] else [])).Emit()
  }

  lemma FinishOneShape(w: Workload, s: Session, done: set<Id>, ok: set<Id>, n: Id)
    requires n in s.states
    ensures FinishOne(w, s, done, ok, n).states.Keys == s.states.Keys
    ensures n !in done ==> FinishOne(w, s, done, ok, n) == s
  {
  }

  lemma FinishOneIs(w: Workload, t: Session, done: set<Id>, ok: set<Id>, n: Id)
    requires n in t.states
    ensures
      var r := FinishOne(w, t, done, ok, n);
      && r == t.(states := r.states, running := r.running, mergeQueue := r.mergeQueue, emitted := r.emitted)
      && r.states == (if n in done then t.states[n := if n in ok then Succeeded else Failed] else t.states)
      && r.running == t.running - (if n in done then {n} else {})
      && r.mergeQueue == t.mergeQueue + (if n in done * ok * w.editors then [n] else [])
      && r.emitted == t.emitted + |if n in done then [n] else []|
  {
  }

  function FinishUpTo(w: Workload, s: Session, done: set<Id>, ok: set<Id>, i: nat): Session
    requires i <= |w.order|
  {
    if i == 0 then s else FinishOne(w, FinishUpTo(w, s, done, ok, i - 1), done, ok, w.order[i - 1])
  }

  /** After `i` positions: the finished tasks among them are marked, dropped from running, and queued in order. */
  predicate FinishedTo(w: Workload, s: Session, done: set<Id>, ok: set<Id>, i: nat, t: Session)
    requires i <= |w.order|
  {
    && t == s.(states := t.states, running := t.running, mergeQueue := t.mergeQueue, emitted := t.emitted)
    && t.states == MarkDone(s.states, Seen(w.order, i, done), ok)
    && t.running == s.running - Seen(w.order, i, done)
    && t.mergeQueue == s.mergeQueue + InOrder(w.order[..i], done * ok * w.editors)
    && t.emitted == s.emitted + |InOrder(w.order[..i], done)|
  }

  lemma {:induction false} FinishUpToMeaning(w: Workload, s: Session, done: set<Id>, ok: set<Id>, i: nat)
    requires i <= |w.order| && Elements(w.order) <= s.states.Keys
    ensures FinishedTo(w, s, done, ok, i, FinishUpTo(w, s, done, ok, i))
  {
    if i == 0 {
      assert Seen(w.order, 0, done) == {} && MarkDone(s.states, {}, ok) == s.states;
      assert InOrder(w.order[..0], done * ok * w.editors) == [] && InOrder(w.order[..0], done) == [];
    } else {
      assert w.order[i - 1] in Elements(w.order);
      hide FinishedTo, FinishOne, Elements;
      FinishUpToMeaning(w, s, done, ok, i - 1);
      FinishedStep(w, s, done, ok, i - 1, FinishUpTo(w, s, done, ok, i - 1));
    }
  }

  lemma FinishedStep(w: Workload, s: Session, done: set<Id>, ok: set<Id>, i: nat, t: Session)
    requires i < |w.order| && w.order[i] in s.states && FinishedTo(w, s, done, ok, i, t)
    ensures FinishedTo(w, s, done, ok, i + 1, FinishOne(w, t, done, ok, w.order[i]))
  {
    hide InOrder, MarkDone, Seen, FinishOne;
    assert w.order[i] in t.states by { MarkedKeys(s.states, Seen(w.order, i, done), ok); }
    FinishOneIs(w, t, done, ok, w.order[i]);
    QueueGrows(s.mergeQueue, w.order, i, done * ok * w.editors);
    InOrderStep(w.order, i, done);
    SeenStep(s.states, w.order, i, done, ok);
    SeenRunning(s.running, Seen(w.order, i, done), if w.order[i] in done then {w.order[i]} else {});
  }

  lemma MarkedKeys(states: States, done: set<Id>, ok: set<Id>)
    ensures MarkDone(states, done, ok).Keys == states.Keys
  {
  }

  lemma QueueGrows(queue: seq<Id>, order: seq<Id>, i: nat, chosen: set<Id>)
    requires i < |order|
    ensures queue + InOrder(order[..i], chosen) + (if order[i] in chosen then [order[i]] else [])
      == queue + InOrder(order[..i + 1], chosen)
  {
    InOrderStep(order, i, chosen);
    ConcatAssociative(queue, InOrder(order[..i], chosen), if order[i] in chosen then [order[i]] else []);
    hide InOrder;
  }

  lemma SeenRunning(running: set<Id>, seen: set<Id>, more: set<Id>)
    ensures running - seen - more == running - (seen + more)
  {
  }

  lemma FinishAll(w: Workload, s: Session, done: set<Id>, ok: set<Id>)
    requires Elements(w.order) == s.states.Keys && done <= s.states.Keys
    ensures FinishUpTo(w, s, done, ok, |w.order|).(phase := AtTop) == Collect(w, s.(phase := Awaiting), done, ok)
  {
    FinishUpToMeaning(w, s, done, ok, |w.order|);
    assert w.order[..|w.order|] == w.order;
    assert Seen(w.order, |w.order|, done) == done;
  }

  lemma SeenStep(states: States, order: seq<Id>, i: nat, done: set<Id>, ok: set<Id>)
    requires i < |order| && order[i] in states
    ensures Seen(order, i + 1, done) == Seen(order, i, done) + (if order[i] in done then {order[i]} else {})
    ensures MarkDone(states, Seen(order, i + 1, done), ok) ==
      if order[i] in done
      then MarkDone(states, Seen(order, i, done), ok)[order[i] := if order[i] in ok then Succeeded else Failed]
      else MarkDone(states, Seen(order, i, done), ok)
  {
    assert order[..i + 1] == order[..i] + [order[i]];
    assert Elements(order[..i + 1]) == Elements(order[..i]) + {order[i]};
  }

  lemma {:induction false} InOrderAppend(order: seq<Id>, x: Id, chosen: set<Id>)
    ensures InOrder(order + [x], chosen) == InOrder(order, chosen) + (if x in chosen then [x] else [])
  {
    if |order| > 0 {
      assert (order + [x])[1..] == order[1..] + [x];
      InOrderAppend(order[1..], x, chosen);
    } else {
      assert (order + [x])[1..] == [];
    }
  }

  lemma InOrderStep(order: seq<Id>, i: nat, chosen: set<Id>)
    requires i < |order|
    ensures InOrder(order[..i + 1], chosen)
        == InOrder(order[..i], chosen) + (if order[i] in chosen then [order[i]] else [])
  {
    assert order[..i + 1] == order[..i] + [order[i]];
    InOrderAppend(order[..i], order[i], chosen);
  }

  /** The commands among the events, in order. */
  function CommandsOf(events: seq<Event>): seq<Command> {
    if events == [] then []
    else
      var n := |events| - 1;
      CommandsOf(events[..n]) + (if events[n].User? then [events[n].command] else [])
  }

  /** The events report the runners honestly, and their commands are the first of those given. */
  predicate Accounted(good: set<Id>, given: seq<Command>, events: seq<Event>) {
    CommandsOf(events) <= given && forall i :: 0 <= i < |events| ==> SchedulerConfluence.Honest(good, events[i])
  }

  ghost predicate Startable(w: Workload, start: Session) {
    && ValidWorkload(w) && SchedulerSafety.ValidStart(w, start.states)
    && start.running == {} && start.phase == AtTop
  }

  /** `s` is where a run from `start` stands after `events`, with `todo` of the given commands still to come. */
  ghost predicate Reached(w: Workload, start: Session, good: set<Id>, given: seq<Command>, todo: seq<Command>,
                          events: seq<Event>, s: Session) {
    && Startable(w, start)
    && Accounted(good, given, events) && CommandsOf(events) + todo == given
    && s == Replay(w, start, events)
  }

  ghost predicate Driven(w: Workload, start: Session, good: set<Id>, given: seq<Command>, todo: seq<Command>,
                         events: seq<Event>, s: Session) {
    Reached(w, start, good, given, todo, events, s) && s.phase != Returned
  }

  lemma StartDriven(w: Workload, start: Session, good: set<Id>, given: seq<Command>)
    requires Startable(w, start)
    ensures Driven(w, start, good, given, given, [], start)
  {
  }

  lemma ReplayAppend(w: Workload, s: Session, es: seq<Event>, e: Event)
    requires Shaped(w, s) && Elements(w.order) == w.deps.Keys
    ensures Replay(w, s, es + [e]) == Next(w, Replay(w, s, es), e)
  {
    assert (es + [e])[..|es|] == es;
  }

  lemma ReachedInv(w: Workload, start: Session, good: set<Id>, given: seq<Command>, todo: seq<Command>,
                   events: seq<Event>, s: Session)
    requires Reached(w, start, good, given, todo, events, s)
    ensures SchedulerSafety.Inv(w, start.states, s) && Shaped(w, s) && InSync(s)
    ensures ValidWorkload(w) && Elements(w.order) == w.deps.Keys
  {
    SchedulerSafety.RunInv(w, start, events);
    hide Replay;
  }

  /** One more event, reported honestly; a command is the next one given. */
  lemma EventReached(w: Workload, start: Session, good: set<Id>, given: seq<Command>, todo: seq<Command>,
                     events: seq<Event>, s: Session, e: Event)
    requires Reached(w, start, good, given, todo, events, s) && SchedulerConfluence.Honest(good, e)
    requires e.User? ==> todo != [] && e.command == todo[0]
    ensures Shaped(w, s) && Elements(w.order) == w.deps.Keys
    ensures Reached(w, start, good, given, if e.User? then todo[1..] else todo, events + [e], Next(w, s, e))
  {
    hide Next, Replay, SchedulerConfluence.Honest;
    ReplayAppend(w, start, events, e);
    assert (events + [e])[..|events|] == events;
    var rest := if e.User? then todo[1..] else todo;
    assert CommandsOf(events + [e]) + rest == given by {
      if e.User? { assert CommandsOf(events) + [todo[0]] + todo[1..] == CommandsOf(events) + todo; }
    }
  }

  lemma UserStep(w: Workload, start: Session, good: set<Id>, given: seq<Command>, todo: seq<Command>,
                 events: seq<Event>, s: Session)
    requires Driven(w, start, good, given, todo, events, s) && todo != []
    ensures Driven(w, start, good, given, todo[1..], events + [User(todo[0])], Obey(s, todo[0]))
    ensures SchedulerConfluence.Rank(Obey(s, todo[0])) == SchedulerConfluence.Rank(s)
    ensures given != []
  {
    hide SchedulerConfluence.Rank, Obey;
    ObeyKeeps(s, todo[0]);
    EventReached(w, start, good, given, todo, events, s, User(todo[0]));
    hide Reached, Replay;
    assert CommandsOf(events) + todo != [];
    GivenRest(w, start, good, given, todo, events, s);
  }

  /** A command dispatches nothing. */
  lemma UserBills(w: Workload, start: Session, good: set<Id>, given: seq<Command>, todo: seq<Command>,
                  events: seq<Event>, s: Session, g: TaskGraph.TaskGraph, was: map<Id, string>,
                  providers: map<Id, string>, index: nat)
    requires Driven(w, start, good, given, todo, events, s) && todo != []
    requires DispatchOrder.Billed(g, w, start, was, events, providers, index)
    ensures DispatchOrder.Billed(g, w, start, was, events + [User(todo[0])], providers, index)
  {
    hide DispatchOrder.Billed, Replay, DispatchOrder.Dispatched;
    QuietBills(w, start, good, given, todo, events, s, g, was, providers, index, User(todo[0]));
  }

  lemma DoneBills(w: Workload, start: Session, good: set<Id>, given: seq<Command>, todo: seq<Command>,
                  events: seq<Event>, s: Session, done: set<Id>, g: TaskGraph.TaskGraph, was: map<Id, string>,
                  providers: map<Id, string>, index: nat)
    requires Driven(w, start, good, given, todo, events, s)
    requires DispatchOrder.Billed(g, w, start, was, events, providers, index)
    ensures DispatchOrder.Billed(g, w, start, was, events + [Finish(done, good)], providers, index)
  {
    hide DispatchOrder.Billed, Replay, DispatchOrder.Dispatched;
    QuietBills(w, start, good, given, todo, events, s, g, was, providers, index, Finish(done, good));
  }

  lemma CancelBills(w: Workload, start: Session, good: set<Id>, given: seq<Command>, todo: seq<Command>,
                    events: seq<Event>, s: Session, g: TaskGraph.TaskGraph, was: map<Id, string>,
                    providers: map<Id, string>, index: nat)
    requires Driven(w, start, good, given, todo, events, s) && s.cancelled
    requires DispatchOrder.Billed(g, w, start, was, events, providers, index)
    ensures DispatchOrder.Billed(g, w, start, was, events + [Tick], providers, index)
  {
    hide DispatchOrder.Billed, Replay, DispatchOrder.Dispatched;
    QuietBills(w, start, good, given, todo, events, s, g, was, providers, index, Tick);
  }

  lemma QuietBills(w: Workload, start: Session, good: set<Id>, given: seq<Command>, todo: seq<Command>,
                   events: seq<Event>, s: Session, g: TaskGraph.TaskGraph, was: map<Id, string>,
                   providers: map<Id, string>, index: nat, e: Event)
    requires Driven(w, start, good, given, todo, events, s) && (e == Tick ==> s.cancelled)
    requires DispatchOrder.Billed(g, w, start, was, events, providers, index)
    ensures DispatchOrder.Billed(g, w, start, was, events + [e], providers, index)
  {
    ReachedInv(w, start, good, given, todo, events, s);
    assert s == Replay(w, start, events);
    hide *;
    SchedulerControls.OnlyTicksDispatch(w, s, e);
    DispatchOrder.BilledQuiet(g, w, start, was, events, providers, index, e);
  }

  /** An uncancelled turn bills what its pass starts. */
  lemma TurnBills(w: Workload, start: Session, good: set<Id>, given: seq<Command>, todo: seq<Command>,
                  events: seq<Event>, s: Session, p: Session, g: TaskGraph.TaskGraph, was: map<Id, string>,
                  before: map<Id, string>, index: nat, after: map<Id, string>)
    requires Driven(w, start, good, given, todo, events, s) && s.phase == AtTop && !s.paused && !s.cancelled
    requires Shaped(w, s) && Elements(w.order) == w.deps.Keys && p == Pass(w, s, 0)
    requires DispatchOrder.Billed(g, w, start, was, events, before, index)
    requires DispatchOrder.Assigned(g, before, index, DispatchOrder.Started(w, s.states, p.states), after)
    ensures DispatchOrder.Billed(g, w, start, was, events + [Tick], after,
                                 index + |DispatchOrder.Started(w, s.states, p.states)|)
  {
    hide *;
    DrivenReplay(w, start, good, given, todo, events, s);
    SchedulerCommands.TickAllowed(s);
    DispatchOrder.BilledTurn(g, w, start, was, events, before, index, after);
  }

  lemma DrivenReplay(w: Workload, start: Session, good: set<Id>, given: seq<Command>, todo: seq<Command>,
                     events: seq<Event>, s: Session)
    requires Driven(w, start, good, given, todo, events, s)
    ensures ValidWorkload(w) && InSync(start) && Shaped(w, start) && Elements(w.order) == w.deps.Keys
    ensures s == Replay(w, start, events)
  {
    hide Replay, Accounted, CommandsOf;
  }

  lemma ObeyKeeps(s: Session, c: Command)
    ensures SchedulerConfluence.Rank(Obey(s, c)) == SchedulerConfluence.Rank(s) && Obey(s, c).phase == s.phase
  {
  }

  lemma GivenRest(w: Workload, start: Session, good: set<Id>, given: seq<Command>, todo: seq<Command>,
                  events: seq<Event>, s: Session)
    requires Reached(w, start, good, given, todo, events, s)
    ensures |todo| <= |given| && CommandsOf(events) + todo == given && Accounted(good, given, events)
  {
  }

  /** What the turn the loop takes when it is not paused amounts to. */
  lemma TurnStep(w: Workload, start: Session, good: set<Id>, given: seq<Command>, todo: seq<Command>,
                 events: seq<Event>, s: Session)
    requires Driven(w, start, good, given, todo, events, s) && s.phase == AtTop && !s.paused
    ensures Shaped(w, s) && Elements(w.order) == w.deps.Keys
    ensures Reached(w, start, good, given, todo, events + [Tick], Next(w, s, Tick))
    ensures s.cancelled ==> Next(w, s, Tick) == AfterCancel(s) && AfterCancel(s).phase == Returned
    ensures !s.cancelled ==>
      var p := Pass(w, s, 0);
      && Next(w, s, Tick) == AfterPass(p) && p.phase == AtTop && p.running <= p.states.Keys
      && (p.running == {} && !AllTerminal(p.states) ==>
            p.paused && SchedulerConfluence.Rank(p) <= SchedulerConfluence.Rank(s))
      && (p.running != {} ==>
            SchedulerConfluence.Rank(p.(phase := Awaiting)) < SchedulerConfluence.Rank(s))
      && (SchedulerConfluence.Undisturbed(s) ==> SchedulerConfluence.Undisturbed(p) && !p.paused)
  {
    EventReached(w, start, good, given, todo, events, s, Tick);
    ReachedInv(w, start, good, given, todo, events, s);
    hide Reached, SchedulerSafety.Inv, Pass, ValidWorkload;
    if !s.cancelled {
      SchedulerConfluence.TickLowersRank(w, s);
      SchedulerConfluence.PassProgress(w, s);
      SchedulerSafety.PassAdvances(w, s, 0);
    }
  }

  lemma DoneStep(w: Workload, start: Session, good: set<Id>, given: seq<Command>, todo: seq<Command>,
                 events: seq<Event>, s: Session, done: set<Id>)
    requires Driven(w, start, good, given, todo, events, s) && s.phase == Awaiting
    requires done != {} && done <= s.running
    ensures
      var r := Collect(w, s, done, good);
      && Driven(w, start, good, given, todo, events + [Finish(done, good)], r)
      && SchedulerConfluence.Rank(r) < SchedulerConfluence.Rank(s)
      && (SchedulerConfluence.Undisturbed(s) ==> SchedulerConfluence.Undisturbed(r))
  {
    EventReached(w, start, good, given, todo, events, s, Finish(done, good));
    ReachedInv(w, start, good, given, todo, events, s);
    hide Reached, SchedulerSafety.Inv, ValidWorkload, InOrder;
    SchedulerConfluence.FinishLowersRank(w, s, done, good);
  }

  /** Paused with every command given: the source waits for another one. */
  lemma WaitingEnd(w: Workload, start: Session, good: set<Id>, given: seq<Command>, events: seq<Event>, s: Session)
    requires Driven(w, start, good, given, [], events, s) && s.paused
    ensures s == Replay(w, start, events) && Shaped(w, start) && Elements(w.order) == w.deps.Keys
    ensures Accounted(good, given, events) && !SchedulerConfluence.Undisturbed(s)
    ensures SchedulerCommands.CancelsObeyed(w, start, events)
  {
    SchedulerCommands.CancelsAreObeyed(w, start, events);
    hide Replay, SchedulerCommands.CancelsObeyed;
  }

  /** A returned run: every node decided; without a cancel the verdict; and the queue of what succeeded. */
  lemma FinishedEnd(w: Workload, start: Session, good: set<Id>, given: seq<Command>, todo: seq<Command>,
                    events: seq<Event>, r: Session)
    requires Reached(w, start, good, given, todo, events, r) && r.phase == Returned
    ensures Shaped(w, start) && Elements(w.order) == w.deps.Keys
    ensures r == Replay(w, start, events) && Accounted(good, given, events)
    ensures AllTerminal(r.states) && r.running == {} && start.mergeQueue <= r.mergeQueue
    ensures SchedulerCommands.CancelsObeyed(w, start, events)
    ensures !start.cancelled && Cancel !in given ==> SchedulerConfluence.Verdict(w, start.states, good, r.states)
    ensures start.mergeQueue == [] && ClosedStates(w.deps, start.states) ==>
      SchedulerSafety.QueueInv(w, start.states, r)
  {
    ReachedInv(w, start, good, given, todo, events, r);
    GivenRest(w, start, good, given, todo, events, r);
    SchedulerCommands.CancelsAreObeyed(w, start, events);
    SchedulerSafety.QueueGrows(w, start, events);
    hide Replay, SchedulerCommands.CancelsObeyed;
    assert r.running == {};
    if !start.cancelled && Cancel !in given {
      NoCancelGiven(events, given);
      SchedulerConfluence.Confluence(w, start, good, events);
    }
    if start.mergeQueue == [] && ClosedStates(w.deps, start.states) {
      SchedulerSafety.RunQueueInv(w, start, events);
    }
  }

  /** A command was given during the run exactly when it is one of its events. */
  lemma {:induction false} CommandAmong(events: seq<Event>, c: Command)
    ensures c in CommandsOf(events) <==> User(c) in events
  {
    if events != [] {
      var init, last := events[..|events| - 1], events[|events| - 1];
      CommandAmong(init, c);
      assert events == init + [last];
    }
  }

  lemma {:induction false} NoCancelGiven(events: seq<Event>, given: seq<Command>)
    requires CommandsOf(events) <= given && Cancel !in given
    ensures forall i :: 0 <= i < |events| ==> SchedulerConfluence.NoCancel(events[i])
  {
    if events != [] {
      var n := |events| - 1;
      NoCancelGiven(events[..n], given);
      if events[n].User? {
        assert CommandsOf(events)[|CommandsOf(events[..n])|] == events[n].command;
        assert events[n].command in CommandsOf(events);
      }
    }
  }

  /** A smaller measure of the run loop: fewer commands to come, less to do, or the same but paused. */
  predicate Lower(todo: seq<Command>, s: Session, rest: seq<Command>, r: Session) {
    || |rest| < |todo|
    || (|rest| == |todo| && SchedulerConfluence.Rank(r) < SchedulerConfluence.Rank(s))
    || (|rest| == |todo| && SchedulerConfluence.Rank(r) == SchedulerConfluence.Rank(s) && r.paused && !s.paused)
  }

  lemma IdleTurn(w: Workload, start: Session, good: set<Id>, given: seq<Command>, todo: seq<Command>,
                 events: seq<Event>, s: Session, p: Session)
    requires Driven(w, start, good, given, todo, events, s) && s.phase == AtTop && !s.paused && !s.cancelled
    requires Shaped(w, s) && Elements(w.order) == w.deps.Keys && p == Pass(w, s, 0) && p.running == {}
    ensures if AllTerminal(p.states) then Reached(w, start, good, given, todo, events + [Tick], p.(phase := Returned))
      else
        && Driven(w, start, good, given, todo, events + [Tick], p) && Lower(todo, s, todo, p)
        && (SchedulerConfluence.Undisturbed(s) ==> SchedulerConfluence.Undisturbed(p))
  {
    TurnStep(w, start, good, given, todo, events, s);
    hide Pass, Reached, SchedulerConfluence.Rank, SchedulerConfluence.Undisturbed;
  }

  lemma AwaitTurn(w: Workload, start: Session, good: set<Id>, given: seq<Command>, todo: seq<Command>,
                  events: seq<Event>, s: Session, p: Session)
    requires Driven(w, start, good, given, todo, events, s) && s.phase == AtTop && !s.paused && !s.cancelled
    requires Shaped(w, s) && Elements(w.order) == w.deps.Keys && p == Pass(w, s, 0) && p.running != {}
    ensures Driven(w, start, good, given, todo, events + [Tick], p.(phase := Awaiting))
    ensures SchedulerConfluence.Rank(p.(phase := Awaiting)) < SchedulerConfluence.Rank(s)
    ensures p.running <= p.states.Keys
    ensures SchedulerConfluence.Undisturbed(s) ==> SchedulerConfluence.Undisturbed(p.(phase := Awaiting))
  {
    TurnStep(w, start, good, given, todo, events, s);
    PhaseUndisturbed(p);
    hide Pass, Reached, SchedulerConfluence.Rank, SchedulerConfluence.Undisturbed;
  }

  lemma LowerAfter(todo: seq<Command>, s: Session, p: Session, rest: seq<Command>, r: Session)
    requires |rest| <= |todo|
    requires SchedulerConfluence.Rank(r) < SchedulerConfluence.Rank(p) < SchedulerConfluence.Rank(s)
    ensures Lower(todo, s, rest, r)
  {
  }

  lemma PhaseUndisturbed(s: Session)
    ensures SchedulerConfluence.Undisturbed(s) <==> SchedulerConfluence.Undisturbed(s.(phase := Awaiting))
  {
  }

  /** Every node of the workload is a node of the graph, with its dependencies. */
  lemma WorkNodes(graph: TaskGraph.TaskGraph, w: Workload)
    requires TaskGraph.ValidGraph(graph) && w.deps == TaskGraph.DependencyMap(graph)
    ensures var nodes := TaskGraph.ById(graph.nodes);
      forall n :: n in w.deps ==>
        && n in nodes && nodes[n].nodeId == n
        && w.deps[n] == Elements(nodes[n].dependencies) && w.deps[n] <= w.deps.Keys
  {
    hide TaskGraph.ConflictsOrdered, Acyclic, TaskGraph.ById;
  }

  /** The tests over a node's dependency tuple are those over its dependency set. */
  lemma DependencyTests(w: Workload, s: Session, node: TaskGraph.TaskNode)
    requires s.states.Keys == w.deps.Keys && node.nodeId in w.deps
    requires w.deps[node.nodeId] == Elements(node.dependencies) && w.deps[node.nodeId] <= w.deps.Keys
    ensures forall d :: d in node.dependencies ==> d in s.states
    ensures HasBadDependency(w, s.states, node.nodeId) <==> exists d :: d in node.dependencies && Bad(s.states[d])
    ensures AllSucceeded(w, s.states, node.nodeId) <==> forall d :: d in node.dependencies ==> s.states[d] == Succeeded
  {
    assert forall d :: d in node.dependencies <==> d in w.deps[node.nodeId];
  }

  lemma PassStep(w: Workload, s: Session, i: nat)
    requires Shaped(w, s) && Elements(w.order) == w.deps.Keys && i < |w.order|
    ensures w.order[i] in w.deps
    ensures Pass(w, s, i) ==
      match VisitNode(w, s, w.order[i])
      case Stop(r) => r
      case Go(r) => Pass(w, r, i + 1)
  {
    assert w.order[i] in Elements(w.order);
  }

  /** Where the dispatch loop stands before position `i`: what it has started so far is billed. */
  ghost predicate Passing(g: TaskGraph.TaskGraph, w: Workload, start: States, was: map<Id, string>, first: nat, i: nat,
                          now: States, providers: map<Id, string>, index: nat)
  {
    && start.Keys == now.Keys && DispatchOrder.Ahead(w, start, now, i)
    && index == first + |DispatchOrder.Started(w, start, now)|
    && DispatchOrder.Assigned(g, was, first, DispatchOrder.Started(w, start, now), providers)
  }

  lemma PassBegins(w: Workload, s: Session, g: TaskGraph.TaskGraph, providers: map<Id, string>, index: nat)
    ensures Passing(g, w, s.states, providers, index, 0, s.states, providers, index)
  {
    assert NewlyRunning(s.states, s.states) == {};
    DispatchOrder.InOrderNone(w.order);
  }

  lemma PassingEnds(g: TaskGraph.TaskGraph, w: Workload, start: States, was: map<Id, string>, first: nat, i: nat,
                    now: States, providers: map<Id, string>, index: nat)
    requires Passing(g, w, start, was, first, i, now, providers, index)
    ensures start.Keys == now.Keys && index == first + |DispatchOrder.Started(w, start, now)|
    ensures DispatchOrder.Assigned(g, was, first, DispatchOrder.Started(w, start, now), providers)
  {
  }

  /** Visiting a node bills it if it starts, and nothing otherwise. */
  lemma VisitPasses(g: TaskGraph.TaskGraph, w: Workload, start: States, was: map<Id, string>, first: nat, i: nat,
                    s: Session, before: map<Id, string>, index: nat, after: map<Id, string>, next: nat)
    requires ValidWorkload(w) && i < |w.order| && w.order[i] in w.deps && w.order[i] in TaskGraph.ById(g.nodes)
    requires Shaped(w, s) && Passing(g, w, start, was, first, i, s.states, before, index)
    requires
      var n, states := w.order[i], VisitNode(w, s, w.order[i]).session.states;
      if s.states[n] == Pending && states[n] == Running
      then after == before[n := Providers.ProviderOf(TaskGraph.ById(g.nodes)[n].policy, index)] && next == index + 1
      else after == before && next == index
    ensures Passing(g, w, start, was, first, i + 1, VisitNode(w, s, w.order[i]).session.states, after, next)
  {
    hide VisitNode, TaskGraph.ById, Providers.ProviderOf, DispatchOrder.Started, DispatchOrder.Assigned,
      DispatchOrder.Ahead, Known;
    DispatchOrder.VisitStarted(w, start, s, i);
    var n, d := w.order[i], DispatchOrder.Started(w, start, s.states);
    hide ValidWorkload;
    if s.states[n] == Pending && VisitNode(w, s, n).session.states[n] == Running {
      DispatchOrder.AssignedOne(g, was, first, d, before, n);
    } else {
      assert d + [] == d;
    }
  }

  lemma PassEnd(w: Workload, s: Session)
    requires Shaped(w, s) && Elements(w.order) == w.deps.Keys
    ensures Pass(w, s, |w.order|) == s
  {
  }
}
