/** Concrete histories of a stored session and a runtime object, on the failing side of what the code promises. */
module RuntimeWitnesses {
  import opened Prelude
  import opened RepoPath
  import opened Files
  import opened Dependencies
  import opened OrchestrationRuntime
  import opened RuntimeHistory
  import opened SessionStore
  import opened Witnesses
  import Journal = EventJournal
  import Orchestration
  import Providers
  import SchedulerSafety
  import Scheduling
  import TaskGraph

  /** One editor. */
  function Solo(): TaskGraph.TaskGraph {
    TaskGraph.TaskGraph([TaskGraph.TaskNode("a", TaskGraph.Implementer, "python", [], [], ["f"], [], [],
                                            Providers.ProviderPolicy(["qwen"], [1]))], 1)
  }

  lemma SoloLookup()
    ensures TaskGraph.ById(Solo().nodes) == map["a" := Solo().nodes[0]]
    ensures TaskGraph.DependencyMap(Solo()) == map["a" := {}]
  {
    assert Solo().nodes[..0] == [];
    var none: seq<Id> := [];
    assert Elements(none) == {};
  }

  lemma SoloValid()
    ensures TaskGraph.ValidGraph(Solo()) && NodeIds(Solo()) == {"a"}
  {
    SoloLookup();
    var m := TaskGraph.DependencyMap(Solo());
    forall n ensures !DependsOn(m, n, n) {
      if DependsOn(m, n, n) { DependsOnFirstStep(m, n, n); }
    }
  }

  const SOLO_WORK := Scheduling.Workload(map["a" := {}], ["a"], {"a"}, 1)

  lemma SoloWork()
    ensures Order(TaskGraph.DependencyMap(Solo())).Some?
    ensures SchedulerSafety.WorkloadOf(Solo(), 1) == SOLO_WORK
    ensures Elements(SOLO_WORK.order) == SOLO_WORK.deps.Keys
  {
    SoloLookup();
    SoloValid();
    SchedulerSafety.WorkloadOfValid(Solo(), 1);
    OrderIsTopological(TaskGraph.DependencyMap(Solo()));
    var order := Order(TaskGraph.DependencyMap(Solo())).value;
    OnlyElement(order, "a");
    assert Elements(["a"]) == {"a"};
    hide Order, TaskGraph.ValidGraph, Scheduling.ValidWorkload;
  }

  lemma OnlyElement(order: seq<Id>, x: Id)
    requires NoDuplicates(order) && Elements(order) == {x}
    ensures order == [x]
  {
    assert x in Elements(order);
    assert forall y :: y in order ==> y in Elements(order);
    if |order| > 1 { Pigeonhole(order, {x}); }
  }

  /** The editor's session, approved, with the node in the given state and the given queue. */
  function SoloRecord(state: Scheduling.NodeState, queue: seq<Id>): Record {
    var s := Create(Solo());
    s.(status := Approved, approvedHash := Some(s.revision.Hash()), nodeStates := map["a" := state],
       mergeQueue := queue)
  }

  ghost predicate IsSolo(s: Record, state: Scheduling.NodeState, queue: seq<Id>) {
    && Sound(s) && s.approvedHash == Some(s.revision.Hash()) && s.revision.graph == Solo()
    && s.nodeStates == map["a" := state] && s.mergeQueue == queue && s.breakpoints == {} && !s.stepRequested
    && s.status == Approved
  }

  lemma SoloRecordIs(state: Scheduling.NodeState, queue: seq<Id>)
    ensures IsSolo(SoloRecord(state, queue), state, queue)
  {
    SoloValid();
    hide TaskGraph.ValidGraph, NodeIds, Solo;
  }

  lemma SoloLoaded(s: Record, state: Scheduling.NodeState, queue: seq<Id>)
    requires IsSolo(s, state, queue) && (state == Scheduling.Pending || state == Scheduling.Succeeded)
    ensures Loaded(s) == Scheduling.Session(map["a" := state], {}, [], {}, None, false, false, 0, Scheduling.AtTop)
    ensures s.revision.WellFormed()
  {
    SoundFacts(s);
    hide Sound, Solo;
    assert Reloaded(map["a" := state]) == map["a" := state];
  }

  /** A turn over the done editor returns and journals nothing. */
  lemma DoneTick(session: Scheduling.Session)
    requires session.states == map["a" := Scheduling.Succeeded] && session.running == {}
    requires session.phase == Scheduling.AtTop && !session.paused && !session.cancelled
    ensures Scheduling.Next(SOLO_WORK, session, Scheduling.Tick) == session.(phase := Scheduling.Returned)
  {
    assert Elements(["a"]) == {"a"};
    assert Scheduling.Pass(SOLO_WORK, session, 1) == session;
    assert Scheduling.VisitNode(SOLO_WORK, session, "a") == Scheduling.Go(session);
    assert Scheduling.Pass(SOLO_WORK, session, 0) == session;
  }

  /** A turn over the pending editor dispatches it and journals that. */
  lemma PendingTick(session: Scheduling.Session)
    requires session == Scheduling.Session(map["a" := Scheduling.Pending], {}, [], {}, None, false, false, 0,
                                           Scheduling.AtTop)
    ensures Scheduling.Next(SOLO_WORK, session, Scheduling.Tick)
      == Scheduling.Session(map["a" := Scheduling.Running], {"a"}, [], {}, None, false, false, 1, Scheduling.Awaiting)
  {
    assert Elements(["a"]) == {"a"};
    var started := Scheduling.Start(session, "a");
    assert !Scheduling.HasBadDependency(SOLO_WORK, session.states, "a");
    assert Scheduling.VisitNode(SOLO_WORK, session, "a") == Scheduling.Go(started);
    assert Scheduling.Pass(SOLO_WORK, started, 1) == started;
    assert Scheduling.Pass(SOLO_WORK, session, 0) == started;
  }

  lemma SoloFinish()
    ensures
      var waiting := Scheduling.Session(map["a" := Scheduling.Running], {"a"}, [], {}, None, false, false, 1,
                                        Scheduling.Awaiting);
      Scheduling.Next(SOLO_WORK, waiting, Scheduling.Finish({"a"}, {"a"}))
        == Scheduling.Session(map["a" := Scheduling.Succeeded], {}, ["a"], {}, None, false, false, 2, Scheduling.AtTop)
  {
    assert Elements(["a"]) == {"a"};
    assert ["a"][1..] == [] && {"a"} * {"a"} * {"a"} == {"a"};
    assert Scheduling.InOrder(["a"], {"a"}) == ["a"];
  }

  // ---------------------------------------------------------------- the gap between construction and run

  /** The run has dispatched a revision that is no longer stored or approved, and has spoilt the journal. */
  ghost predicate DispatchedOld(id: SessionId, s: Record, log: EventLog, op: Operation) {
    var built := Life(s, log, Loaded(s), |log|);
    && Living(SOLO_WORK, built) && AtEnd(id, built) && ValidOperation(op)
    && var revised := Lived(id, SOLO_WORK, built, Called(op));
    && var run := Lived(id, SOLO_WORK, revised, Scheduled(Scheduling.Tick));
    && revised.record.approvedHash == None && revised.record.revision != s.revision
    && run.session.states == map["a" := Scheduling.Running] && !Journal.Readable(run.log, id)
  }

  lemma BuiltSolo(id: SessionId, s: Record, log: EventLog, queue: seq<Id>)
    requires IsSolo(s, Scheduling.Pending, queue) && Journal.Readable(log, id)
    ensures var built := Life(s, log, Loaded(s), |log|);
      Living(SOLO_WORK, built) && AtEnd(id, built)
  {
    SoloLoaded(s, Scheduling.Pending, queue);
    assert Elements(["a"]) == {"a"};
    hide Sound, Loaded, Journal.Readable;
  }

  lemma RevisedLife(id: SessionId, l: Life, g: TaskGraph.TaskGraph)
    requires Living(SOLO_WORK, l) && TaskGraph.ValidGraph(g)
    ensures ValidOperation(Revise(g, "more"))
    ensures var revised := Lived(id, SOLO_WORK, l, Called(Revise(g, "more")));
      && Living(SOLO_WORK, revised) && revised.session == l.session && revised.openedAt == l.openedAt
      && revised.record.approvedHash == None && revised.record.revision != l.record.revision
      && (Journal.Readable(l.log, id) ==> Journal.Readable(revised.log, id) && |revised.log| == |l.log| + 1)
  {
    SoundFacts(l.record);
    LoggedReadable(l.log, id, "graph_revised");
    hide Sound, TaskGraph.ValidGraph, Journal.Readable, NodeIds;
  }

  lemma DispatchedLate(id: SessionId, l: Life)
    requires Living(SOLO_WORK, l) && |l.log| > l.openedAt + l.session.emitted
    requires l.session == Scheduling.Session(map["a" := Scheduling.Pending], {}, [], {}, None, false, false, 0,
                                             Scheduling.AtTop)
    ensures var run := Lived(id, SOLO_WORK, l, Scheduled(Scheduling.Tick));
      run.session.states == map["a" := Scheduling.Running] && !Journal.Readable(run.log, id)
  {
    PendingTick(l.session);
    Journal.AppendedReadable(l.log, id, l.openedAt, 1);
    hide Living, Scheduling.Next, Journal.Readable;
  }

  /** Built while approved; then the graph is revised; then the run dispatches the old graph and spoils the journal. */
  lemma OldRevisionDispatched(id: SessionId, log: EventLog)
    requires Journal.Readable(log, id)
    ensures IsSolo(SoloRecord(Scheduling.Pending, []), Scheduling.Pending, [])
    ensures DispatchedOld(id, SoloRecord(Scheduling.Pending, []), log, Revise(Pair([]), "more"))
  {
    var s := SoloRecord(Scheduling.Pending, []);
    SoloRecordIs(Scheduling.Pending, []);
    hide SoloRecord, Pair, Journal.Readable, Loaded, Living, Lived, IsSolo, ValidOperation, TaskGraph.ValidGraph;
    PairValid([]);
    SoloLoaded(s, Scheduling.Pending, []);
    BuiltSolo(id, s, log, []);
    var built := Life(s, log, Loaded(s), |log|);
    RevisedLife(id, built, Pair([]));
    DispatchedLate(id, Lived(id, SOLO_WORK, built, Called(Revise(Pair([]), "more"))));
  }

  /** A run that journals nothing stores "completed" over a cancelled record whose approval is gone. */
  ghost predicate CompletedOver(id: SessionId, s: Record, now: Record, log: EventLog, proposals: map<Id, FileMap>,
                                hashes: map<Id, map<Path, Digest>>, chosen: map<Id, string>)
  {
    && Scheduling.Shaped(SOLO_WORK, Loaded(s)) && Elements(SOLO_WORK.order) == SOLO_WORK.deps.Keys
    && var final := Scheduling.Next(SOLO_WORK, Loaded(s), Scheduling.Tick);
    && now.status == CancelledSession && now.approvedHash == None
    && final.phase == Scheduling.Returned && final.emitted == Loaded(s).emitted
    && WritesBack(id, now, log, final.states)
    && Persisted(now, final, proposals, hashes, chosen).status == Completed
    && Persisted(now, final, proposals, hashes, chosen).approvedHash == None
  }

  /** A finished editor: the run is one turn that changes nothing. */
  lemma DoneRun(s: Record, queue: seq<Id>)
    requires IsSolo(s, Scheduling.Succeeded, queue)
    ensures Scheduling.Shaped(SOLO_WORK, Loaded(s)) && Elements(SOLO_WORK.order) == SOLO_WORK.deps.Keys
    ensures var final := Scheduling.Next(SOLO_WORK, Loaded(s), Scheduling.Tick);
      && final == Loaded(s).(phase := Scheduling.Returned) && final.states == map["a" := Scheduling.Succeeded]
      && final.mergeQueue == []
  {
    SoloLoaded(s, Scheduling.Succeeded, queue);
    assert Elements(["a"]) == {"a"};
    DoneTick(Loaded(s));
  }

  lemma CompletedOverIs(id: SessionId, s: Record, now: Record, log: EventLog, proposals: map<Id, FileMap>,
                        hashes: map<Id, map<Path, Digest>>, chosen: map<Id, string>)
    requires IsSolo(s, Scheduling.Succeeded, []) && Journal.Readable(log, id)
    requires now.status == CancelledSession && now.approvedHash == None && "a" in now.nodeStates
    ensures CompletedOver(id, s, now, log, proposals, hashes, chosen)
  {
    DoneRun(s, []);
    hide IsSolo, Scheduling.Next, Loaded, Journal.Readable;
    PersistedParts(now, Scheduling.Next(SOLO_WORK, Loaded(s), Scheduling.Tick), proposals, hashes, chosen);
    hide Persisted;
  }

  /**
   * Every node done; then revised, and cancelled, and so unapproved; then the runtime built before runs, journals
   * nothing, and stores "completed".
   */
  lemma CancelledBecomesCompleted(id: SessionId, log: EventLog, proposals: map<Id, FileMap>,
                                  hashes: map<Id, map<Path, Digest>>, chosen: map<Id, string>)
    requires Journal.Readable(log, id)
    ensures
      var s := SoloRecord(Scheduling.Succeeded, []);
      var ops := [Revise(Solo(), "again"), Transition(CancelledSession)];
      && IsSolo(s, Scheduling.Succeeded, []) && Sound(s) && ValidOperations(ops)
      && CompletedOver(id, s, Lifecycle(s, ops), log, proposals, hashes, chosen)
  {
    var s := SoloRecord(Scheduling.Succeeded, []);
    SoloRecordIs(Scheduling.Succeeded, []);
    SoloValid();
    assert Sound(s) && s.status != CancelledSession;
    hide SoloRecord, Sound, TaskGraph.ValidGraph, Solo, IsSolo, CompletedOver, Lifecycle, Journal.Readable;
    var ops := [Revise(Solo(), "again"), Transition(CancelledSession)];
    RevisedThenCancelled(s, Solo());
    CompletedOverIs(id, s, Lifecycle(s, ops), log, proposals, hashes, chosen);
  }

  lemma RevisedThenCancelled(s: Record, g: TaskGraph.TaskGraph)
    requires Sound(s) && TaskGraph.ValidGraph(g) && s.status != CancelledSession
    ensures
      var ops := [Revise(g, "again"), Transition(CancelledSession)];
      && ValidOperations(ops)
      && (var now := Lifecycle(s, ops);
          now.status == CancelledSession && now.approvedHash == None && now.nodeStates.Keys == NodeIds(g))
  {
    var ops := [Revise(g, "again"), Transition(CancelledSession)];
    assert ops[..1] == [ops[0]] && ops[..1][..0] == [];
    SoundFacts(s);
    hide Sound, TaskGraph.ValidGraph, NodeIds;
    assert ValidOperation(ops[0]) && ValidOperation(ops[1]);
    var revised := Lifecycle(s, [ops[0]]);
    assert Lifecycle(s, []) == s;
    assert revised == ReviseRecord(s, g, "again");
    assert Lifecycle(s, ops) == After(revised, ops[1]);
  }

  /** A run is written back over a sound record and leaves it without the state of a node. */
  ghost predicate WrittenUnsound(id: SessionId, s: Record, now: Record, log: EventLog, proposals: map<Id, FileMap>,
                                 hashes: map<Id, map<Path, Digest>>, chosen: map<Id, string>)
  {
    && Scheduling.Shaped(SOLO_WORK, Loaded(s)) && Elements(SOLO_WORK.order) == SOLO_WORK.deps.Keys
    && var final := Scheduling.Next(SOLO_WORK, Loaded(s), Scheduling.Tick);
    && Sound(now) && final.phase == Scheduling.Returned && WritesBack(id, now, log, final.states)
    && !Sound(Persisted(now, final, proposals, hashes, chosen))
  }

  lemma WrittenUnsoundIs(id: SessionId, s: Record, now: Record, log: EventLog, proposals: map<Id, FileMap>,
                         hashes: map<Id, map<Path, Digest>>, chosen: map<Id, string>)
    requires IsSolo(s, Scheduling.Succeeded, []) && Journal.Readable(log, id)
    requires Sound(now) && NodeIds(now.revision.graph) == {"a", "b"} && now.nodeStates.Keys == {"a", "b"}
    ensures WrittenUnsound(id, s, now, log, proposals, hashes, chosen)
  {
    DoneRun(s, []);
    hide IsSolo, Sound, Scheduling.Next, Loaded, Journal.Readable, NodeIds;
    var final := Scheduling.Next(SOLO_WORK, Loaded(s), Scheduling.Tick);
    WriteBackSoundIff(now, final, proposals, hashes, chosen);
    assert "b" !in final.states.Keys;
    hide Persisted;
  }

  /** Every node done; then a revision adds one; the write-back leaves the record without its state. */
  lemma WriteBackUnsound(id: SessionId, log: EventLog, proposals: map<Id, FileMap>,
                         hashes: map<Id, map<Path, Digest>>, chosen: map<Id, string>)
    requires Journal.Readable(log, id)
    ensures
      var s := SoloRecord(Scheduling.Succeeded, []);
      && IsSolo(s, Scheduling.Succeeded, []) && s.revision.WellFormed() && ValidOperation(Revise(Pair([]), "more"))
      && WrittenUnsound(id, s, After(s, Revise(Pair([]), "more")), log, proposals, hashes, chosen)
  {
    var s, op := SoloRecord(Scheduling.Succeeded, []), Revise(Pair([]), "more");
    SoloRecordIs(Scheduling.Succeeded, []);
    PairValid([]);
    assert Sound(s);
    hide SoloRecord, Sound, TaskGraph.ValidGraph, Pair, IsSolo, WrittenUnsound, After, Journal.Readable, NodeIds;
    RevisedNodes(s, Pair([]), "more");
    ApplySound(s, op);
    WrittenUnsoundIs(id, s, After(s, op), log, proposals, hashes, chosen);
  }

  lemma RevisedNodes(s: Record, g: TaskGraph.TaskGraph, reason: string)
    requires Sound(s)
    ensures s.revision.WellFormed()
    ensures After(s, Revise(g, reason)).revision.graph == g && After(s, Revise(g, reason)).nodeStates.Keys == NodeIds(g)
  {
    SoundFacts(s);
    hide Sound, NodeIds;
  }

  // ---------------------------------------------------------------- waiting proposals and a second run

  /** The workload of the editor's graph. */
  ghost predicate SoloWorkload(s: Record) {
    Order(TaskGraph.DependencyMap(s.revision.graph)).Some?
        && SchedulerSafety.WorkloadOf(s.revision.graph, 1) == SOLO_WORK
  }

  ghost predicate Dropped(s: Record, proposals: map<Id, FileMap>, hashes: map<Id, map<Path, Digest>>,
                          chosen: map<Id, string>) {
    && s.mergeQueue == ["a"] && SoloWorkload(s)
    && Scheduling.Shaped(SOLO_WORK, Loaded(s)) && Elements(SOLO_WORK.order) == SOLO_WORK.deps.Keys
    && var final := Scheduling.Next(SOLO_WORK, Loaded(s), Scheduling.Tick);
    && final.phase == Scheduling.Returned && Persisted(s, final, proposals, hashes, chosen).mergeQueue == []
  }

  lemma DroppedIs(s: Record, proposals: map<Id, FileMap>, hashes: map<Id, map<Path, Digest>>, chosen: map<Id, string>)
    requires IsSolo(s, Scheduling.Succeeded, ["a"])
    ensures Dropped(s, proposals, hashes, chosen)
  {
    DoneRun(s, ["a"]);
    SoloWork();
    hide Sound, Scheduling.Next, Loaded, SchedulerSafety.WorkloadOf, Order, Solo;
    PersistedParts(s, Scheduling.Next(SOLO_WORK, Loaded(s), Scheduling.Tick), proposals, hashes, chosen);
    hide Persisted;
  }

  /** The editor done, its proposal waiting; a run of a newly built runtime leaves an empty queue behind. */
  lemma NewRuntimeDropsProposal(proposals: map<Id, FileMap>, hashes: map<Id, map<Path, Digest>>,
                                chosen: map<Id, string>)
    ensures IsSolo(SoloRecord(Scheduling.Succeeded, ["a"]), Scheduling.Succeeded, ["a"])
    ensures Dropped(SoloRecord(Scheduling.Succeeded, ["a"]), proposals, hashes, chosen)
  {
    SoloRecordIs(Scheduling.Succeeded, ["a"]);
    hide *;
    DroppedIs(SoloRecord(Scheduling.Succeeded, ["a"]), proposals, hashes, chosen);
  }

  /** A first run queues a proposal, its review takes it out, and a second run of the same object stores it again. */
  ghost predicate Returned(s: Record, proposals: map<Id, FileMap>, hashes: map<Id, map<Path, Digest>>,
                           chosen: map<Id, string>) {
    && SoloWorkload(s) && Scheduling.Shaped(SOLO_WORK, Loaded(s)) && Elements(SOLO_WORK.order) == SOLO_WORK.deps.Keys
    && var es := [Scheduling.Tick, Scheduling.Finish({"a"}, {"a"}), Scheduling.Tick];
    && var first := Scheduling.Replay(SOLO_WORK, Loaded(s), es);
    && var stored := Persisted(s, first, proposals, hashes, chosen);
    && first.phase == Scheduling.Returned && stored.mergeQueue == ["a"] && Sound(stored)
    && var reviewed := AfterReview(stored, "a", true, Some(0));
    && var second := Scheduling.Next(SOLO_WORK, first.(phase := Scheduling.AtTop), Scheduling.Tick);
    && reviewed.mergeQueue == [] && second.emitted == first.emitted
    && Persisted(reviewed, second, proposals, hashes, chosen).mergeQueue == ["a"]
  }

  /** The editor's whole run. */
  lemma SoloRun(s: Record)
    requires IsSolo(s, Scheduling.Pending, [])
    ensures Scheduling.Shaped(SOLO_WORK, Loaded(s)) && Elements(SOLO_WORK.order) == SOLO_WORK.deps.Keys
    ensures Scheduling.Replay(SOLO_WORK, Loaded(s), [Scheduling.Tick, Scheduling.Finish({"a"}, {"a"}), Scheduling.Tick])
      == Scheduling.Session(map["a" := Scheduling.Succeeded], {}, ["a"], {}, None, false, false, 2, Scheduling.Returned)
  {
    SoloLoaded(s, Scheduling.Pending, []);
    hide IsSolo, Loaded;
    PendingRun(Loaded(s));
  }

  lemma PendingRun(pending: Scheduling.Session)
    requires pending == Scheduling.Session(map["a" := Scheduling.Pending], {}, [], {}, None, false, false, 0,
                                           Scheduling.AtTop)
    ensures Scheduling.Shaped(SOLO_WORK, pending) && Elements(SOLO_WORK.order) == SOLO_WORK.deps.Keys
    ensures Scheduling.Replay(SOLO_WORK, pending, [Scheduling.Tick, Scheduling.Finish({"a"}, {"a"}), Scheduling.Tick])
      == Scheduling.Session(map["a" := Scheduling.Succeeded], {}, ["a"], {}, None, false, false, 2, Scheduling.Returned)
  {
    assert Elements(["a"]) == {"a"};
    PendingTick(pending);
    SoloFinish();
    DoneTick(Scheduling.Session(map["a" := Scheduling.Succeeded], {}, ["a"], {}, None, false, false, 2,
                                Scheduling.AtTop));
    hide *;
    ThreeEvents(pending, Scheduling.Tick, Scheduling.Finish({"a"}, {"a"}), Scheduling.Tick);
  }

  lemma StoredAgain(s: Record, first: Scheduling.Session, proposals: map<Id, FileMap>,
                    hashes: map<Id, map<Path, Digest>>,
                    chosen: map<Id, string>)
    requires Sound(s) && NodeIds(s.revision.graph) == {"a"}
    requires first
      == Scheduling.Session(map["a" := Scheduling.Succeeded], {}, ["a"], {}, None, false, false, 2, Scheduling.Returned)
    ensures var stored := Persisted(s, first, proposals, hashes, chosen);
      && stored.mergeQueue == ["a"] && Sound(stored)
      && (var reviewed := AfterReview(stored, "a", true, Some(0));
          reviewed.mergeQueue == [] && Persisted(reviewed, first, proposals, hashes, chosen).mergeQueue == ["a"])
  {
    hide Sound, NodeIds;
    PersistedParts(s, first, proposals, hashes, chosen);
    WriteBackSoundIff(s, first, proposals, hashes, chosen);
    hide Persisted;
    PersistedParts(AfterReview(Persisted(s, first, proposals, hashes, chosen), "a", true, Some(0)), first, proposals,
                   hashes,
                   chosen);
  }

  lemma ReturnedIs(s: Record, proposals: map<Id, FileMap>, hashes: map<Id, map<Path, Digest>>, chosen: map<Id, string>)
    requires IsSolo(s, Scheduling.Pending, [])
    ensures Returned(s, proposals, hashes, chosen)
  {
    SoloRun(s);
    SoloWork();
    SoloValid();
    hide Sound, Scheduling.Next, Scheduling.Replay, Loaded, SchedulerSafety.WorkloadOf, Order, Solo, NodeIds,
      TaskGraph.ValidGraph, TaskGraph.DependencyMap, Persisted, AfterReview, Elements;
    var first := Scheduling.Session(map["a" := Scheduling.Succeeded], {}, ["a"], {}, None, false, false, 2,
                                    Scheduling.Returned);
    DoneTick(first.(phase := Scheduling.AtTop));
    StoredAgain(s, first, proposals, hashes, chosen);
  }

  /**
   * The editor pending: a first run queues its proposal and is written back, the proposal is reviewed, and a second
   * run of the same object puts it back into the queue.
   */
  lemma SameRuntimeReturnsProposal(proposals: map<Id, FileMap>, hashes: map<Id, map<Path, Digest>>,
                                   chosen: map<Id, string>)
    ensures IsSolo(SoloRecord(Scheduling.Pending, []), Scheduling.Pending, [])
    ensures Returned(SoloRecord(Scheduling.Pending, []), proposals, hashes, chosen)
  {
    SoloRecordIs(Scheduling.Pending, []);
    hide *;
    ReturnedIs(SoloRecord(Scheduling.Pending, []), proposals, hashes, chosen);
  }

  lemma ThreeEvents(s: Scheduling.Session, a: Scheduling.Event, b: Scheduling.Event, c: Scheduling.Event)
    requires Scheduling.Shaped(SOLO_WORK, s) && Elements(SOLO_WORK.order) == SOLO_WORK.deps.Keys
    ensures Scheduling.Replay(SOLO_WORK, s, [a, b, c])
      == Scheduling.Next(SOLO_WORK, Scheduling.Next(SOLO_WORK, Scheduling.Next(SOLO_WORK, s, a), b), c)
  {
    assert Scheduling.Replay(SOLO_WORK, s, []) == s;
    hide *;
    Orchestration.ReplayAppend(SOLO_WORK, s, [], a);
    Orchestration.ReplayAppend(SOLO_WORK, s, [a], b);
    Orchestration.ReplayAppend(SOLO_WORK, s, [a, b], c);
    assert [] + [a] == [a] && [a] + [b] == [a, b] && [a, b] + [c] == [a, b, c];
  }
}
