/** The runtime that loads a persisted session, runs it, writes it back and reviews its merges. */
module OrchestrationRuntime {
  import opened Prelude
  import opened RepoPath
  import opened Files
  import opened Dependencies
  import opened SessionStore
  import Checkpoints
  import DispatchOrder
  import Journal = EventJournal
  import MergeHistory
  import MergeQueue
  import Orchestration
  import Scheduling
  import SchedulerCommands
  import SchedulerConfluence
  import SchedulerSafety
  import TaskGraph

  // ---- loading and persisting ----

  /** A node that was running when the process died is pending again. */
  function Reloaded(st: Scheduling.States): Scheduling.States {
    map n | n in st :: if st[n] == Scheduling.Running then Scheduling.Pending else st[n]
  }

  /** A stored step request is repeated on the new session, which journals it. */
  function LoadEvents(s: Record): nat { if s.stepRequested then 1 else 0 }

  /** The session the constructor prepares. */
  function Loaded(s: Record): Scheduling.Session {
    Scheduling.Session(Reloaded(s.nodeStates), {}, [], s.breakpoints,
      if s.stepRequested then Some(1) else None, false, false, LoadEvents(s), Scheduling.AtTop)
  }

  /** What a runtime starts from: the stored states, a running node being pending again, and the debug settings. */
  ghost predicate StartsAs(s: Record, session: Scheduling.Session) {
    && session.states.Keys == s.nodeStates.Keys
    && (forall n :: n in session.states ==>
          session.states[n] == if s.nodeStates[n] == Scheduling.Running then Scheduling.Pending else s.nodeStates[n])
    && session.running == {} && session.mergeQueue == [] && session.breakpoints == s.breakpoints
    && session.budget == (if s.stepRequested then Some(1) else None)
    && !session.paused && !session.cancelled && session.phase == Scheduling.AtTop
  }

  lemma LoadedStarts(s: Record)
    ensures StartsAs(s, Loaded(s))
  {
  }

  /** Hashes of every editor's claims at the moment the runtime is built. */
  function ClaimHashes(g: TaskGraph.TaskGraph, files: FileMap): map<Id, map<Path, Digest>> {
    var nodes := TaskGraph.ById(g.nodes);
    map n | n in nodes && nodes[n].Edits() :: HashPaths(files, nodes[n].writePaths)
  }

  predicate RecordsAttempt(st: Scheduling.NodeState) {
    st == Scheduling.Succeeded || st == Scheduling.Failed || st == Scheduling.Cancelled
  }

  /** The provider an attempt is recorded under: the one dispatched to, else the override, else none. */
  function ProviderFor(s: Record, chosen: map<Id, string>, n: Id): string {
    if n in chosen then chosen[n] else if n in s.overrides then s.overrides[n] else "unassigned"
  }

  /** The nodes a run records an attempt of: those that neither stayed blocked nor are still open. */
  function RecordedNodes(states: Scheduling.States): set<Id> {
    set n | n in states && RecordsAttempt(states[n])
  }

  /** The record with one more attempt, and its state, for each of the nodes. */
  function Noted(s: Record, nodes: set<Id>, states: Scheduling.States, chosen: map<Id, string>): Record
    requires nodes <= states.Keys
  {
    s.(attempts := NotedAttempts(s, nodes, states, chosen), nodeStates := NotedStates(s.nodeStates, nodes, states))
  }

  function NotedAttempts(s: Record, nodes: set<Id>, states: Scheduling.States, chosen: map<Id, string>)
    : map<Id, seq<Attempt>>
    requires nodes <= states.Keys
  {
    map n | n in s.attempts.Keys + nodes ::
      if n in nodes
      then AttemptsOf(s, n) + [Attempt(|AttemptsOf(s, n)| + 1, states[n], ProviderFor(s, chosen, n))]
      else s.attempts[n]
  }

  function NotedStates(st: Scheduling.States, nodes: set<Id>, states: Scheduling.States): Scheduling.States
    requires nodes <= states.Keys
  {
    map n | n in st.Keys + nodes :: if n in nodes then states[n] else st[n]
  }

  predicate AllSucceeded(states: Scheduling.States) {
    forall n :: n in states ==> states[n] == Scheduling.Succeeded
  }

  /** What is written last: the outcome of the run over whatever the record has become. */
  function Finished(s: Record, final: Scheduling.Session, proposals: map<Id, FileMap>,
                    hashes: map<Id, map<Path, Digest>>): Record {
    s.(status := if AllSucceeded(final.states) then Completed else Unsuccessful,
       nodeStates := final.states,
       mergeQueue := final.mergeQueue,
       proposals := proposals,
       originalHashes := hashes)
  }

  /** What `run` writes back: the final states, the new queue and proposals, and one attempt per finished node. */
  function Persisted(s: Record, final: Scheduling.Session, proposals: map<Id, FileMap>,
                     hashes: map<Id, map<Path, Digest>>, chosen: map<Id, string>): Record {
    Finished(Noted(s, RecordedNodes(final.states), final.states, chosen), final, proposals, hashes)
  }

  // ---- recording the attempts, one after another ----

  /** Where the recording stands: the stored record, the journal, and the error it raised. */
  datatype Recording = Recording(record: Record, log: EventLog, error: Option<StoreError>)

  function RecordOne(id: SessionId, r: Recording, node: Id, states: Scheduling.States,
                     chosen: map<Id, string>): Recording {
    if r.error.Some? || node !in states || !RecordsAttempt(states[node]) then r
    else
      match AttemptRecord(r.record, node, states[node], ProviderFor(r.record, chosen, node))
      case Failure(e) => r.(error := Some(e))
      case Success(next) =>
        Recording(next, Logged(r.log, id, "node_attempt_recorded"),
                  if Journal.Readable(r.log, id) then None else Some(JournalUnreadable))
  }

  /** The loop of `run` over the returned states, stopped by the first error. */
  function RecordAttempts(id: SessionId, s: Record, log: EventLog, ids: seq<Id>, states: Scheduling.States,
                          chosen: map<Id, string>): Recording
  {
    if ids == [] then Recording(s, log, None)
    else RecordOne(id, RecordAttempts(id, s, log, ids[..|ids| - 1], states, chosen), ids[|ids| - 1], states, chosen)
  }

  /** The recorded nodes among the given ones. */
  function RecordedIn(ids: seq<Id>, states: Scheduling.States): set<Id> {
    set n | n in ids && n in states && RecordsAttempt(states[n])
  }

  /** Every node to record is one of the stored ones, and the journal can be read, or there is no such node. */
  predicate CanRecord(id: SessionId, s: Record, log: EventLog, nodes: set<Id>) {
    nodes <= s.nodeStates.Keys && (nodes == {} || Journal.Readable(log, id))
  }

  /** Recording changes nothing of a record but its attempts and node states. */
  predicate SameButAttempts(s: Record, t: Record) {
    t == s.(attempts := t.attempts, nodeStates := t.nodeStates) && s.nodeStates.Keys == t.nodeStates.Keys
  }

  /** Recording goes through exactly when every node is known and the journal readable, and notes each node then. */
  lemma {:induction false} RecordAttemptsMeaning(id: SessionId, s: Record, log: EventLog, ids: seq<Id>,
                                                 states: Scheduling.States, chosen: map<Id, string>)
    requires NoDuplicates(ids)
    ensures
      var r := RecordAttempts(id, s, log, ids, states, chosen);
      var nodes := RecordedIn(ids, states);
      && SameButAttempts(s, r.record)
      && (r.error.None? <==> CanRecord(id, s, log, nodes))
      && (r.error.None? ==> r.record == Noted(s, nodes, states, chosen))
      && (Journal.Readable(r.log, id) <==> Journal.Readable(log, id))
  {
    if ids == [] {
      assert RecordedIn(ids, states) == {};
      assert NotedAttempts(s, {}, states, chosen) == s.attempts
          && NotedStates(s.nodeStates, {}, states) == s.nodeStates;
    } else {
      var init, last := ids[..|ids| - 1], ids[|ids| - 1];
      var r := RecordAttempts(id, s, log, init, states, chosen);
      RecordAttemptsMeaning(id, s, log, init, states, chosen);
      RecordedStep(ids, states);
      hide RecordedIn, RecordAttempts, Noted, AttemptRecord, CanRecord;
      RecordOneMeaning(id, s, log, r, RecordedIn(init, states), last, states, chosen);
    }
  }

  lemma RecordedStep(ids: seq<Id>, states: Scheduling.States)
    requires ids != []
    ensures
      var init, last := ids[..|ids| - 1], ids[|ids| - 1];
      && RecordedIn(ids, states) == RecordedIn(init, states)
           + (if last in states && RecordsAttempt(states[last]) then {last} else {})
      && RecordedIn(init, states) <= states.Keys
      && (NoDuplicates(ids) ==> last !in RecordedIn(init, states))
  {
    assert ids == ids[..|ids| - 1] + [ids[|ids| - 1]];
  }

  lemma RecordOneMeaning(id: SessionId, s: Record, log: EventLog, r: Recording, nodes: set<Id>, node: Id,
                         states: Scheduling.States, chosen: map<Id, string>)
    requires nodes <= states.Keys && node !in nodes
    requires SameButAttempts(s, r.record)
    requires r.error.None? <==> CanRecord(id, s, log, nodes)
    requires r.error.None? ==> r.record == Noted(s, nodes, states, chosen)
    requires Journal.Readable(r.log, id) <==> Journal.Readable(log, id)
    ensures
      var next := RecordOne(id, r, node, states, chosen);
      var more := nodes + (if node in states && RecordsAttempt(states[node]) then {node} else {});
      && SameButAttempts(s, next.record)
      && (next.error.None? <==> CanRecord(id, s, log, more))
      && (next.error.None? ==> next.record == Noted(s, more, states, chosen))
      && (Journal.Readable(next.log, id) <==> Journal.Readable(log, id))
  {
    LoggedReadable(r.log, id, "node_attempt_recorded");
    hide Journal.Readable, Noted, Logged, AttemptRecord, AppendAttempt, ProviderFor;
    if node in states && RecordsAttempt(states[node]) {
      AttemptCases(r.record, node, states[node], ProviderFor(r.record, chosen, node));
      if node in r.record.nodeStates { AppendShape(r.record, node, states[node], ProviderFor(r.record, chosen, node)); }
      if r.error.None? && node in s.nodeStates { NotedOneMore(s, nodes, node, states, chosen); }
    }
    assert nodes + {} == nodes;
  }

  lemma AppendShape(s: Record, node: Id, state: Scheduling.NodeState, provider: string)
    requires node in s.nodeStates
    ensures SameButAttempts(s, AppendAttempt(s, node, state, provider))
  {
  }

  lemma NotedOneMore(s: Record, nodes: set<Id>, node: Id, states: Scheduling.States, chosen: map<Id, string>)
    requires nodes <= states.Keys && node !in nodes && node in states
    ensures
      var t := Noted(s, nodes, states, chosen);
      AppendAttempt(t, node, states[node], ProviderFor(t, chosen, node)) == Noted(s, nodes + {node}, states, chosen)
  {
    var t := Noted(s, nodes, states, chosen);
    assert AttemptsOf(t, node) == AttemptsOf(s, node) && ProviderFor(t, chosen, node) == ProviderFor(s, chosen, node);
    hide AttemptsOf, ProviderFor, NotedAttempts, NotedStates;
    NotedAttemptsOneMore(s, nodes, node, states, chosen);
    NotedStatesOneMore(s.nodeStates, nodes, node, states);
  }

  lemma NotedAttemptsOneMore(s: Record, nodes: set<Id>, node: Id, states: Scheduling.States, chosen: map<Id, string>)
    requires nodes <= states.Keys && node !in nodes && node in states
    ensures
      var attempt := Attempt(|AttemptsOf(s, node)| + 1, states[node], ProviderFor(s, chosen, node));
      NotedAttempts(s, nodes, states, chosen)[node := AttemptsOf(s, node) + [attempt]]
        == NotedAttempts(s, nodes + {node}, states, chosen)
  {
    hide AttemptsOf, ProviderFor;
  }

  lemma NotedStatesOneMore(st: Scheduling.States, nodes: set<Id>, node: Id, states: Scheduling.States)
    requires nodes <= states.Keys && node in states
    ensures NotedStates(st, nodes, states)[node := states[node]] == NotedStates(st, nodes + {node}, states)
  {
  }

  /** The whole write-back of a finished run goes through. */
  predicate WritesBack(id: SessionId, s: Record, log: EventLog, states: Scheduling.States) {
    CanRecord(id, s, log, RecordedNodes(states))
  }

  /** Writing a run back over a record keeps that sound exactly when the run had the nodes the record has now. */
  lemma WriteBackSoundIff(s: Record, final: Scheduling.Session, proposals: map<Id, FileMap>,
                          hashes: map<Id, map<Path, Digest>>, chosen: map<Id, string>)
    requires Sound(s)
    ensures Sound(Persisted(s, final, proposals, hashes, chosen)) <==> final.states.Keys == NodeIds(s.revision.graph)
  {
    SoundFacts(s);
    hide TaskGraph.ValidGraph, Linked, NodeIds, Noted;
    var t := Noted(s, RecordedNodes(final.states), final.states, chosen);
    NotedKeeps(s, RecordedNodes(final.states), final.states, chosen);
  }

  lemma NotedKeeps(s: Record, nodes: set<Id>, states: Scheduling.States, chosen: map<Id, string>)
    requires nodes <= states.Keys
    ensures
      var t := Noted(s, nodes, states, chosen);
      t == s.(attempts := t.attempts, nodeStates := t.nodeStates)
  {
  }

  // ---- what a run keeps of the stored facts ----

  lemma LoadedIsStart(s: Record, w: Scheduling.Workload)
    requires Sound(s) && w.deps == TaskGraph.DependencyMap(s.revision.graph) && Scheduling.ValidWorkload(w)
    requires Scheduling.ClosedStates(w.deps, s.nodeStates)
    ensures SchedulerSafety.ValidStart(w, Loaded(s).states) && Scheduling.ClosedStates(w.deps, Loaded(s).states)
  {
    hide *;
    LoadedKeys(s);
    LoadedParts(s);
    ReloadedIsStart(w, s.nodeStates);
  }

  lemma ReloadedIsStart(w: Scheduling.Workload, st: Scheduling.States)
    requires st.Keys == w.deps.Keys && Scheduling.ClosedStates(w.deps, st)
    ensures SchedulerSafety.ValidStart(w, Reloaded(st)) && Scheduling.ClosedStates(w.deps, Reloaded(st))
  {
  }

  /**
   * Running a stored session, whatever happens during the run, keeps its succeeded nodes dependency-closed
   * and every blocked node justified.
   */
  lemma RunKeepsStoredFacts(s: Record, w: Scheduling.Workload, es: seq<Scheduling.Event>)
    requires Sound(s) && w.deps == TaskGraph.DependencyMap(s.revision.graph) && Scheduling.ValidWorkload(w)
    requires Scheduling.ClosedStates(w.deps, s.nodeStates) && BlockedJustified(w.deps, s.nodeStates)
    requires Scheduling.Shaped(w, Loaded(s))
    ensures
      var final := Scheduling.Replay(w, Loaded(s), es);
      Scheduling.ClosedStates(w.deps, final.states) && BlockedJustified(w.deps, final.states)
  {
    LoadedIsStart(s, w);
    SchedulerSafety.RunInv(w, Loaded(s), es);
    var start, final := Loaded(s).states, Scheduling.Replay(w, Loaded(s), es);
    SchedulerSafety.SucceededStaysClosed(w, start, final);
    hide Sound;
    InvKeepsBlocked(w, s.nodeStates, start, final);
  }

  lemma InvKeepsBlocked(w: Scheduling.Workload, stored: Scheduling.States, start: Scheduling.States,
                        s: Scheduling.Session)
    requires SchedulerSafety.Inv(w, start, s) && start == Reloaded(stored)
    requires Scheduling.ValidWorkload(w) && BlockedJustified(w.deps, stored)
    ensures BlockedJustified(w.deps, s.states)
  {
    assert s.states.Keys == start.Keys == stored.Keys == w.deps.Keys;
    forall n | n in s.states ensures SchedulerSafety.Justified(w, start, s, n) {
    }
    hide SchedulerSafety.Inv, Scheduling.ValidWorkload, SchedulerSafety.Justified;
    forall n | n in s.states && n in w.deps && s.states[n] == Scheduling.Blocked
      ensures exists d :: d in w.deps[n] && d in s.states && Scheduling.Bad(s.states[d])
    {
      if start[n] == Scheduling.Pending {
        NewlyBlocked(w, start, s, n);
      } else {
        StaysAsStored(w, start, s, n);
        var d :| d in w.deps[n] && d in stored && Scheduling.Bad(stored[d]);
        StaysAsStored(w, start, s, d);
      }
    }
  }

  lemma StaysAsStored(w: Scheduling.Workload, start: Scheduling.States, s: Scheduling.Session, n: Id)
    requires n in w.deps && n in start && n in s.states && SchedulerSafety.Justified(w, start, s, n)
    ensures start[n] != Scheduling.Pending ==> s.states[n] == start[n]
  {
  }

  lemma NewlyBlocked(w: Scheduling.Workload, start: Scheduling.States, s: Scheduling.Session, n: Id)
    requires n in w.deps && n in start && n in s.states && SchedulerSafety.Justified(w, start, s, n)
    requires start[n] == Scheduling.Pending && s.states[n] == Scheduling.Blocked
    ensures exists d :: d in w.deps[n] && d in s.states && Scheduling.Bad(s.states[d])
  {
  }

  /** Every waiting proposal belongs to a succeeded node. */
  predicate QueuedSucceeded(s: Record) {
    forall n :: n in s.mergeQueue ==> n in s.nodeStates && s.nodeStates[n] == Scheduling.Succeeded
  }

  /**
   * A run on a newly built runtime overwrites the stored queue: proposals still waiting for review are all
   * dropped, so they survive it exactly when none was waiting.
   */
  lemma SecondRunDropsWaitingProposals(s: Record, w: Scheduling.Workload, es: seq<Scheduling.Event>,
                                       proposals: map<Id, FileMap>, hashes: map<Id, map<Path, Digest>>,
                                       chosen: map<Id, string>)
    requires Sound(s) && w.deps == TaskGraph.DependencyMap(s.revision.graph) && Scheduling.ValidWorkload(w)
    requires Scheduling.ClosedStates(w.deps, s.nodeStates) && QueuedSucceeded(s)
    requires Scheduling.Shaped(w, Loaded(s))
    ensures
      var after := Persisted(s, Scheduling.Replay(w, Loaded(s), es), proposals, hashes, chosen);
      && (forall n :: n in s.mergeQueue ==> n !in after.mergeQueue)
      && ((forall n :: n in s.mergeQueue ==> n in after.mergeQueue) <==> s.mergeQueue == [])
      && QueuedSucceeded(after)
  {
    LoadedIsStart(s, w);
    SchedulerSafety.RunQueueInv(w, Loaded(s), es);
    PersistedParts(s, Scheduling.Replay(w, Loaded(s), es), proposals, hashes, chosen);
    hide *;
    assert Loaded(s).states == Reloaded(s.nodeStates) by { LoadedParts(s); }
    var final := Scheduling.Replay(w, Loaded(s), es);
    QueueReplaced(s, w, final, Persisted(s, final, proposals, hashes, chosen));
  }

  lemma LoadedParts(s: Record)
    ensures Loaded(s).states == Reloaded(s.nodeStates) && Loaded(s).mergeQueue == []
  {
  }

  lemma QueueReplaced(s: Record, w: Scheduling.Workload, final: Scheduling.Session, after: Record)
    requires QueuedSucceeded(s) && SchedulerSafety.QueueInv(w, Reloaded(s.nodeStates), final)
    requires after.mergeQueue == final.mergeQueue && after.nodeStates == final.states
    ensures forall n :: n in s.mergeQueue ==> n !in after.mergeQueue
    ensures (forall n :: n in s.mergeQueue ==> n in after.mergeQueue) <==> s.mergeQueue == []
    ensures QueuedSucceeded(after)
  {
    hide DependsOn;
    forall n | n in s.mergeQueue ensures n !in after.mergeQueue {
      assert Reloaded(s.nodeStates)[n] == Scheduling.Succeeded;
    }
    if s.mergeQueue != [] { assert s.mergeQueue[0] in s.mergeQueue; }
  }

  /** The record and journal as a finished run of the session finds them, its own events appended. */
  function Emitted(id: SessionId, log: EventLog, openedAt: nat, before: Scheduling.Session, after: Scheduling.Session)
    : EventLog
  {
    if after.emitted < before.emitted then log
    else log + Journal.Appended(id, openedAt + before.emitted, after.emitted - before.emitted)
  }

  /**
   * A second run of the same runtime object finds every node done. The attempts the first run recorded have left its
   * journal handle behind the file, so one command that journals an event spoils the file, the first attempt
   * recorded raises, and the queue is not stored. Without one the stored queue becomes the first run's again,
   * reviewed proposals included.
   */
  lemma SecondRunOfSameObject(id: SessionId, s: Record, log: EventLog, w: Scheduling.Workload, openedAt: nat,
                              first: Scheduling.Session, es: seq<Scheduling.Event>, reviewed: nat, ids: seq<Id>,
                              proposals: map<Id, FileMap>, hashes: map<Id, map<Path, Digest>>, chosen: map<Id, string>)
    requires Scheduling.ValidWorkload(w) && Scheduling.Shaped(w, first)
    requires first.phase == Scheduling.AtTop && first.running == {} && Scheduling.AllTerminal(first.states)
    requires reviewed <= |first.mergeQueue| && s.mergeQueue == first.mergeQueue[reviewed..]
    requires NoDuplicates(ids) && Elements(ids) == first.states.Keys
    requires RecordedNodes(first.states) != {} && first.states.Keys == s.nodeStates.Keys
    requires Journal.Readable(log, id) && |log| > openedAt + first.emitted
    ensures
      var again := Scheduling.Replay(w, first, es);
      && again.states == first.states && again.mergeQueue == first.mergeQueue
      && (WritesBack(id, s, Emitted(id, log, openedAt, first, again), again.states) <==> again.emitted == first.emitted)
      && (Persisted(s, again, proposals, hashes, chosen).mergeQueue == s.mergeQueue <==> reviewed == 0)
    ensures
      var again := Scheduling.Replay(w, first, es);
      var r := RecordAttempts(id, s, Emitted(id, log, openedAt, first, again), ids, again.states, chosen);
      again.emitted != first.emitted ==> r.error.Some? && r.record.mergeQueue == s.mergeQueue
  {
    NothingLeftToDo(w, first, es);
    hide Scheduling.Replay, Scheduling.ValidWorkload;
    ReturnedAgain(id, s, log, openedAt, first, Scheduling.Replay(w, first, es), ids, proposals, hashes, chosen);
    hide WritesBack, Emitted, RecordAttempts, Persisted, RecordedNodes;
  }

  lemma ReturnedAgain(id: SessionId, s: Record, log: EventLog, openedAt: nat, first: Scheduling.Session,
                      again: Scheduling.Session, ids: seq<Id>, proposals: map<Id, FileMap>,
                      hashes: map<Id, map<Path, Digest>>, chosen: map<Id, string>)
    requires NoDuplicates(ids) && Elements(ids) == first.states.Keys && again.states == first.states
    requires RecordedNodes(first.states) != {} && first.states.Keys == s.nodeStates.Keys
    requires Journal.Readable(log, id) && |log| > openedAt + first.emitted && first.emitted <= again.emitted
    ensures WritesBack(id, s, Emitted(id, log, openedAt, first, again), again.states) <==>
        again.emitted == first.emitted
    ensures Persisted(s, again, proposals, hashes, chosen).mergeQueue == again.mergeQueue
    ensures
      var r := RecordAttempts(id, s, Emitted(id, log, openedAt, first, again), ids, again.states, chosen);
      again.emitted != first.emitted ==> r.error.Some? && r.record.mergeQueue == s.mergeQueue
  {
    hide *;
    var now := Emitted(id, log, openedAt, first, again);
    AgainWritesBack(id, s, log, openedAt, first, again);
    RecordedAll(id, s, now, ids, again.states, chosen);
    RecordAttemptsMeaning(id, s, now, ids, again.states, chosen);
    SameQueue(s, RecordAttempts(id, s, now, ids, again.states, chosen).record);
    PersistedParts(s, again, proposals, hashes, chosen);
  }

  lemma SameQueue(s: Record, t: Record)
    requires SameButAttempts(s, t)
    ensures t.mergeQueue == s.mergeQueue
  {
  }

  lemma AgainWritesBack(id: SessionId, s: Record, log: EventLog, openedAt: nat, first: Scheduling.Session,
                        again: Scheduling.Session)
    requires again.states == first.states && RecordedNodes(first.states) != {}
    requires first.states.Keys == s.nodeStates.Keys
    requires Journal.Readable(log, id) && |log| > openedAt + first.emitted && first.emitted <= again.emitted
    ensures WritesBack(id, s, Emitted(id, log, openedAt, first, again), again.states) <==>
        again.emitted == first.emitted
  {
    hide Journal.Readable;
    Journal.AppendedReadable(log, id, openedAt + first.emitted, again.emitted - first.emitted);
  }

  lemma RecordedAll(id: SessionId, s: Record, log: EventLog, ids: seq<Id>, states: Scheduling.States,
                    chosen: map<Id, string>)
    requires NoDuplicates(ids) && Elements(ids) == states.Keys
    ensures RecordAttempts(id, s, log, ids, states, chosen).error.None? <==> WritesBack(id, s, log, states)
  {
    RecordAttemptsMeaning(id, s, log, ids, states, chosen);
    assert RecordedIn(ids, states) == RecordedNodes(states);
    hide RecordAttempts, Noted, CanRecord;
  }

  lemma {:induction false} NothingLeftToDo(w: Scheduling.Workload, s: Scheduling.Session, es: seq<Scheduling.Event>)
    requires Scheduling.ValidWorkload(w) && Scheduling.Shaped(w, s)
    requires s.running == {} && s.phase != Scheduling.Awaiting && Scheduling.AllTerminal(s.states)
    ensures
      var r := Scheduling.Replay(w, s, es);
      r.states == s.states && r.mergeQueue == s.mergeQueue && r.running == {} && r.phase != Scheduling.Awaiting
  {
    if es != [] {
      var before, e := es[..|es| - 1], es[|es| - 1];
      NothingLeftToDo(w, s, before);
      NothingToDispatch(w, Scheduling.Replay(w, s, before), e);
    }
  }

  lemma NothingToDispatch(w: Scheduling.Workload, s: Scheduling.Session, e: Scheduling.Event)
    requires Scheduling.ValidWorkload(w) && Scheduling.Shaped(w, s)
    requires s.running == {} && s.phase != Scheduling.Awaiting && Scheduling.AllTerminal(s.states)
    ensures
      var r := Scheduling.Next(w, s, e);
      r.states == s.states && r.mergeQueue == s.mergeQueue && r.running == {} && r.phase != Scheduling.Awaiting
  {
    if e.Tick? && Scheduling.Enabled(s, e) && !s.cancelled {
      SchedulerSafety.PassAdvances(w, s, 0);
      hide Scheduling.Pass;
      var p := Scheduling.Pass(w, s, 0);
      forall n | n in s.states ensures p.states[n] == s.states[n] { assert Scheduling.Moved(w, s, p, n); }
      assert Scheduling.NewlyRunning(s.states, p.states) == {};
    }
  }

  // ---- leaving "cancelled" ----

  /**
   * What can be done with a stored session: a store operation, or a run that has ended of a runtime built earlier,
   * `allowed` if the session it loaded was approved, finding the journal as `log`.
   */
  datatype Use =
    | Operate(op: Operation)
    | RunBack(allowed: bool, log: EventLog, ids: seq<Id>, final: Scheduling.Session, proposals: map<Id, FileMap>,
              hashes: map<Id, map<Path, Digest>>, chosen: map<Id, string>)

  ghost predicate ValidUse(use: Use) {
    use.RunBack? ==> NoDuplicates(use.ids) && Elements(use.ids) == use.final.states.Keys
  }

  /** The record the run leaves: written back, or with the attempts recorded before the error. */
  function AfterRun(id: SessionId, s: Record, log: EventLog, ids: seq<Id>, final: Scheduling.Session,
                    proposals: map<Id, FileMap>, hashes: map<Id, map<Path, Digest>>, chosen: map<Id, string>): Record
  {
    var r := RecordAttempts(id, s, log, ids, final.states, chosen);
    if r.error.None? then Finished(r.record, final, proposals, hashes) else r.record
  }

  ghost function AfterUse(id: SessionId, s: Record, use: Use): Record
    requires s.revision.WellFormed()
  {
    match use
    case Operate(op) => After(s, op)
    case RunBack(allowed, log, ids, final, proposals, hashes, chosen) =>
      if allowed then AfterRun(id, s, log, ids, final, proposals, hashes, chosen) else s
  }

  lemma AfterRunUnfolds(id: SessionId, s: Record, log: EventLog, ids: seq<Id>, final: Scheduling.Session,
                        proposals: map<Id, FileMap>, hashes: map<Id, map<Path, Digest>>, chosen: map<Id, string>,
                        sessions: map<SessionId, Record>)
    ensures
      var r := RecordAttempts(id, s, log, ids, final.states, chosen);
      var t := AfterRun(id, s, log, ids, final, proposals, hashes, chosen);
      if r.error.Some? then t == r.record
      else t == Finished(r.record, final, proposals, hashes) && sessions[id := r.record][id := t] == sessions[id := t]
  {
    hide RecordAttempts, Finished;
  }

  lemma AfterRunCases(id: SessionId, s: Record, log: EventLog, ids: seq<Id>, final: Scheduling.Session,
                      proposals: map<Id, FileMap>, hashes: map<Id, map<Path, Digest>>, chosen: map<Id, string>)
    requires NoDuplicates(ids) && Elements(ids) == final.states.Keys
    ensures
      var t := AfterRun(id, s, log, ids, final, proposals, hashes, chosen);
      if WritesBack(id, s, log, final.states) then t == Persisted(s, final, proposals, hashes, chosen)
      else SameButAttempts(s, t)
  {
    RecordAttemptsMeaning(id, s, log, ids, final.states, chosen);
    assert RecordedIn(ids, final.states) == RecordedNodes(final.states);
    hide RecordAttempts, Noted, CanRecord;
  }

  /**
   * A cancelled session is left exactly by a matching approval, a revision, a step, or a run that is written back:
   * of a runtime that loaded an approved session, whatever has become of the approval since.
   */
  lemma WaysOutOfCancelled(id: SessionId, s: Record, use: Use)
    requires s.revision.WellFormed() && s.status == CancelledSession && ValidUse(use)
    ensures AfterUse(id, s, use).status != CancelledSession <==>
      match use
      case Operate(op) => op == Approve(s.revision.Hash()) || op.Revise? || op == Debug(StepAction)
      case RunBack(allowed, log, _, final, _, _, _) => allowed && WritesBack(id, s, log, final.states)
  {
    match use
    case Operate(op) => CancelledIsNotTerminal(s, op);
    case RunBack(_, log, ids, final, proposals, hashes, chosen) =>
      AfterRunCases(id, s, log, ids, final, proposals, hashes, chosen);
      hide AfterRun, Noted, WritesBack;
  }

  /** Cancelling a stored session changes nothing for the runtimes built afterwards: approval and start are the same. */
  lemma CancelDoesNotReachTheRuntime(s: Record)
    requires s.revision.WellFormed()
    ensures
      var t := After(s, Transition(CancelledSession));
      && t.status == CancelledSession && Loaded(t) == Loaded(s) && t.revision == s.revision
      && (t.approvedHash == Some(t.revision.Hash()) <==> s.approvedHash == Some(s.revision.Hash()))
  {
    hide RetryStates;
    assert After(s, Transition(CancelledSession)) == s.(status := CancelledSession);
  }

  // ---- the runtime object ----

  datatype RuntimeError =
    | NoSession
    | JournalError
    | BadConcurrency
    | OutOfOrder
    | NoSuchNode
    | NoProposal
    | MergeError(error: MergeQueue.MergeError)

  /**
   * Refused without approval; still waiting when it is paused and no further command comes; stopped by an error
   * while its attempts were recorded; or written back.
   */
  datatype RunResult = Refused | StillWaiting | Raised(error: StoreError) | Ran

  class PersistedOrchestrationRuntime {
    const store: OrchestrationStore
    const sessionId: SessionId
    const repository: Checkpoints.Repository
    const checkpoints: Checkpoints.CheckpointStore
    const session: Orchestration.OrchestrationSession
    /** How many events the journal had when the session's handle was opened. */
    const openedAt: nat
    const originalHashes: map<Id, map<Path, Digest>>
    /** The repository when the runtime was built. */
    ghost const base: FileMap
    var proposals: map<Id, FileMap>

    ghost predicate Valid()
      reads this, store, checkpoints, session
    {
      && Attached()
      && session.Valid() && session.running == {}
      && SchedulerSafety.ValidStart(session.Work(), session.states)
      && proposals.Keys == Elements(session.mergeQueue)
    }

    ghost predicate Attached()
      reads this, store, checkpoints
    {
      && sessionId in store.sessions && store.journals.Keys == store.sessions.Keys
      && checkpoints.repository == repository && checkpoints.Valid()
      && originalHashes == ClaimHashes(session.revision.graph, base)
    }

    constructor (store: OrchestrationStore, sessionId: SessionId, repository: Checkpoints.Repository,
                 session: Orchestration.OrchestrationSession, openedAt: nat)
      requires sessionId in store.sessions && store.journals.Keys == store.sessions.Keys
      requires session.Valid() && session.running == {} && session.mergeQueue == []
      requires SchedulerSafety.ValidStart(session.Work(), session.states)
      ensures Valid() && this.store == store && this.sessionId == sessionId && this.repository == repository
      ensures this.session == session && this.openedAt == openedAt && base == repository.files
      ensures fresh(checkpoints) && proposals == map[]
    {
      this.store, this.sessionId, this.repository := store, sessionId, repository;
      this.checkpoints := new Checkpoints.CheckpointStore(repository);
      this.session, this.openedAt := session, openedAt;
      this.originalHashes := ClaimHashes(session.revision.graph, repository.files);
      this.base := repository.files;
      this.proposals := map[];
    }

    /**
     * Build a runtime from the stored record: its revision, approval, states, breakpoints and step request are
     * copied, and its journal handle opened, now.
     */
    static method Build(store: OrchestrationStore, sessionId: SessionId, repository: Checkpoints.Repository,
                        concurrency: int)
      returns (r: Result<PersistedOrchestrationRuntime, RuntimeError>)
      requires store.Valid()
      modifies store`journals
      ensures store.Valid()
      ensures r.Success? <==>
        && sessionId in store.sessions && Journal.Readable(old(store.journals)[sessionId], sessionId)
        && 1 <= concurrency <= 8
      ensures r.Failure? ==> store.journals == old(store.journals)
      ensures r.Success? ==>
        var s, log, runtime := store.sessions[sessionId], old(store.journals)[sessionId], r.value;
        && fresh(runtime) && fresh(runtime.session) && fresh(runtime.checkpoints) && runtime.Valid()
        && runtime.store == store && runtime.sessionId == sessionId && runtime.repository == repository
        && runtime.openedAt == |log| && runtime.base == repository.files
        && runtime.session.revision == s.revision && runtime.session.concurrency == concurrency
        && runtime.session.approvedHash == s.approvedHash
        && runtime.session.View(Scheduling.AtTop) == Loaded(s) && StartsAs(s, runtime.session.View(Scheduling.AtTop))
        && runtime.proposals == map[] && runtime.session.providers == map[]
        && store.journals == old(store.journals)[sessionId := log + Journal.Appended(sessionId, |log|, LoadEvents(s))]
    {
      hide StartsAs;
      hide Sound, ClaimHashes, Elements, TaskGraph.DependencyMap, SchedulerSafety.ValidStart, Reloaded,
        SchedulerSafety.WorkloadOf, TaskGraph.ValidGraph, Scheduling.ValidWorkload, Journal.Readable, Journal.Appended;
      if sessionId !in store.sessions {
        return Failure(NoSession);
      }
      var file := new Journal.JournalFile();
      file.events := store.journals[sessionId];
      var journal := Journal.Open(file, sessionId);
      if journal.Failure? {
        return Failure(JournalError);
      }
      if !(1 <= concurrency <= 8) {
        return Failure(BadConcurrency);
      }
      var openedAt := journal.value.sequence;
      LoadedKeys(store.sessions[sessionId]);
      var session := LoadSession(store.sessions[sessionId], concurrency);
      LoadedStarts(store.sessions[sessionId]);
      LoadedStates(store.sessions[sessionId], TaskGraph.DependencyMap(session.revision.graph));
      store.journals := store.journals[sessionId :=
        store.journals[sessionId] + Journal.Appended(sessionId, openedAt, session.emitted)];
      var runtime := new PersistedOrchestrationRuntime(store, sessionId, repository, session, openedAt);
      return Success(runtime);
    }

    /** The session object of a stored record. */
    static method LoadSession(state: Record, concurrency: nat) returns (session: Orchestration.OrchestrationSession)
      requires Sound(state) && 1 <= concurrency <= 8
      ensures fresh(session) && session.Valid()
      ensures session.View(Scheduling.AtTop) == Loaded(state)
      ensures session.revision == state.revision && session.concurrency == concurrency
      ensures session.approvedHash == state.approvedHash && session.providers == map[]
    {
      SoundFacts(state);
      hide Sound, TaskGraph.ValidGraph, Reloaded, SchedulerSafety.WorkloadOf, SchedulerSafety.ValidStart,
        Scheduling.ValidWorkload, TaskGraph.ById;
      LoadedStates(state, TaskGraph.DependencyMap(state.revision.graph));
      session := new Orchestration.OrchestrationSession(state.revision, concurrency);
      session.approvedHash := state.approvedHash;
      session.breakpoints := session.breakpoints + state.breakpoints;
      ghost var before := session.View(Scheduling.AtTop);
      if state.stepRequested {
        session.StepRun();
        assert session.View(Scheduling.AtTop) == Scheduling.Obey(before, Scheduling.StepOnce);
      }
      assert session.View(Scheduling.AtTop) == Loaded(state).(states := before.states);
      session.states := Reloaded(state.nodeStates);
    }

    /** A command given to the session while it does not run. */
    method Command(c: Scheduling.Command)
      requires Valid()
      modifies store`journals, session
      ensures Valid() && session.View(Scheduling.AtTop) == Scheduling.Obey(old(session.View(Scheduling.AtTop)), c)
      ensures session.approvedHash == old(session.approvedHash)
      ensures store.journals == old(store.journals)[sessionId :=
        Emitted(sessionId, old(store.journals)[sessionId], openedAt, old(session.View(Scheduling.AtTop)),
                session.View(Scheduling.AtTop))]
    {
      hide ClaimHashes, TaskGraph.ValidGraph, TaskGraph.DependencyMap, SchedulerSafety.ValidStart, Elements,
        Scheduling.Obey,
        Scheduling.ValidWorkload, Orchestration.EditorsOf, SchedulerSafety.WorkloadOf, Journal.Appended;
      var before := session.emitted;
      ghost var was := session.View(Scheduling.AtTop);
      ObeyShape(was, c);
      session.ObeyCommand(c);
      assert session.View(Scheduling.AtTop) == Scheduling.Obey(was, c);
      LogEmitted(before);
    }

    /** The events the session has emitted since, appended through its handle. */
    method LogEmitted(before: nat)
      requires sessionId in store.journals && before <= session.emitted
      modifies store`journals
      ensures store.journals == old(store.journals)[sessionId :=
        old(store.journals)[sessionId] + Journal.Appended(sessionId, openedAt + before, session.emitted - before)]
    {
      store.journals := store.journals[sessionId :=
        store.journals[sessionId] + Journal.Appended(sessionId, openedAt + before, session.emitted - before)];
    }

    /**
     * `run`: the session as it was loaded decides whether it dispatches, and what; the record is read again only
     * when it has returned. `good` are the nodes whose runner reports success, `workspaces` what their tasks left.
     */
    method Run(good: set<Id>, commands: seq<Scheduling.Command>, workspaces: Id -> FileMap)
      returns (result: RunResult, ghost es: seq<Scheduling.Event>)
      requires Valid()
      modifies this`proposals, store, session
      ensures result != StillWaiting ==> Valid()
      ensures old(AllSound(store.sessions)) && result != Ran ==> AllSound(store.sessions)
      ensures result == Refused <==> old(session.approvedHash) != Some(session.revision.Hash())
      ensures result == Refused ==> store.OnDisk() == old(store.OnDisk())
      ensures result == StillWaiting ==>
        && store.sessions == old(store.sessions) && session.paused
        && !(commands == [] && SchedulerConfluence.Undisturbed(old(session.View(Scheduling.AtTop))))
      ensures result == Ran || result.Raised? ==>
        RunEnded(sessionId, old(store.OnDisk()), store.sessions, openedAt, session.Work(),
                 old(session.View(Scheduling.AtTop)),
                 session.View(Scheduling.Returned), good, commands, es, IdsOf(session.revision.graph), proposals,
                 originalHashes, session.providers, result)
      ensures result == Ran || result.Raised? ==>
        && Retained(old(session.mergeQueue), old(proposals), session.mergeQueue, workspaces, proposals)
        && DispatchOrder.Billed(session.revision.graph, session.Work(), old(session.View(Scheduling.AtTop)),
                                old(session.providers), es, session.providers, session.dispatchIndex)
        && SchedulerCommands.CancelsObeyed(session.Work(), old(session.View(Scheduling.AtTop)), es)
      ensures result == Ran ==>
        WrittenOver(old(store.sessions)[sessionId], store.sessions[sessionId], session.View(Scheduling.Returned),
                    proposals, originalHashes, session.providers)
    {
      hide DispatchOrder.Billed, SchedulerCommands.CancelsObeyed, WrittenOver, Retained;
      hide AllSound, ClaimHashes, AfterRun, WritesBack, Outcome, RunEnded, Emitted, SchedulerConfluence.Undisturbed,
        TaskGraph.ValidGraph, SchedulerSafety.ValidStart, Elements, TaskGraph.DependencyMap, IdsOf,
        Scheduling.ValidWorkload;
      ghost var disk, start := store.OnDisk(), session.View(Scheduling.AtTop);
      var queued := session.mergeQueue;
      var outcome;
      outcome, es := RunLoaded(good, commands);
      if outcome.Failure? {
        return Refused, es;
      }
      if outcome.value.Waiting? {
        return StillWaiting, es;
      }
      ghost var kept := proposals;
      OldOrNew(queued, kept, session.mergeQueue);
      proposals := map n | n in session.mergeQueue ::
        if n in session.mergeQueue[|queued|..] then workspaces(n) else proposals[n];
      QueueKeys(session.mergeQueue, proposals);
      NewlyRetained(queued, kept, session.mergeQueue, workspaces, proposals);
      ghost var log := store.journals[sessionId];
      AfterRunWritten(sessionId, store.sessions[sessionId], log, IdsOf(session.revision.graph),
                      session.View(Scheduling.Returned), proposals, originalHashes, session.providers,
                      session.revision.graph);
      var error := WriteBack(store.sessions[sessionId], log);
      result := if error.Some? then Raised(error.value) else Ran;
      RunEndedIs(sessionId, disk, store.sessions, openedAt, session.Work(), start, session.View(Scheduling.Returned),
                 good, commands, es, IdsOf(session.revision.graph), proposals, originalHashes, session.providers,
                 result, log);
    }

    /**
     * A run, and then an approved, validated and uninterrupted review of a node it has queued. If that is merged, its
     * claims hold what the node's task left in its workspace; and it is merged if the node is the head of the queue,
     * the graph is still the stored one, and the claims are as they were when the runtime was built.
     */
    method RunThenReview(good: set<Id>, commands: seq<Scheduling.Command>, workspaces: Id -> FileMap, nodeId: Id,
                         ghost c: MergeHistory.RunContext)
      returns (result: RunResult, r: Result<Option<nat>, RuntimeError>)
      requires Valid()
      modifies this`proposals, store, session, repository, checkpoints
      ensures result == Ran ==>
        && |old(session.mergeQueue)| <= |session.mergeQueue|
        && (nodeId in session.mergeQueue[|old(session.mergeQueue)|..] ==>
              Brought(old(store.sessions)[sessionId].revision.graph, nodeId, workspaces, base, session.revision.graph,
                      session.mergeQueue, old(repository.files), repository.files, r))
    {
      hide Brought, RunEnded, Retained, WrittenOver, DispatchOrder.Billed, SchedulerCommands.CancelsObeyed, Applied,
        MergeHistory.Step, FromRun, AllSound, ClaimHashes, LedgerOf, ReviewNoted, AfterReview,
        SchedulerSafety.ValidStart, TaskGraph.ValidGraph, TaskGraph.ById, Journal.Readable, Elements;
      ghost var before, files, queued, held := store.sessions[sessionId], repository.files, session.mergeQueue,
        proposals;
      ghost var es;
      result, es := Run(good, commands, workspaces);
      r := Failure(NoProposal);
      if result != Ran {
        return;
      }
      ghost var s, saved, final := store.sessions[sessionId], checkpoints.saved, session.View(Scheduling.Returned);
      r := ReviewMerge(nodeId, true, true, Checkpoints.NoFault, c);
      WorkspaceBrought(before, s, final, proposals, originalHashes, session.providers, queued, held, workspaces,
                       nodeId, base, session.revision.graph, files, saved, r, repository.files, checkpoints.saved);
    }

    /** `await self.session.run(...)`, with the events it journals. */
    method RunLoaded(good: set<Id>, commands: seq<Scheduling.Command>)
      returns (r: Result<Orchestration.RunOutcome, Orchestration.SessionError>, ghost es: seq<Scheduling.Event>)
      requires Valid()
      modifies store`journals, session
      ensures Attached() && session.Valid() && session.Work() == old(session.Work())
      ensures r.Failure? <==> old(session.approvedHash) != Some(session.revision.Hash())
      ensures r.Failure? ==> Valid() && store.journals == old(store.journals)
      ensures r.Success? ==> store.journals == old(store.journals)[sessionId :=
        Emitted(sessionId, old(store.journals)[sessionId], openedAt, old(session.View(Scheduling.AtTop)),
                session.View(Scheduling.Returned))]
      ensures r.Success? && r.value.Waiting? ==>
        session.paused && !(commands == [] && SchedulerConfluence.Undisturbed(old(session.View(Scheduling.AtTop))))
      ensures r.Success? && r.value.Finished? ==>
        && Outcome(session.Work(), old(session.View(Scheduling.AtTop)), good, commands, es,
                   session.View(Scheduling.Returned))
        && session.running == {} && SchedulerSafety.ValidStart(session.Work(), session.states)
        && old(session.View(Scheduling.AtTop)).emitted <= session.emitted
        && old(session.mergeQueue) <= session.mergeQueue
        && DispatchOrder.Billed(session.revision.graph, session.Work(), old(session.View(Scheduling.AtTop)),
                                old(session.providers), es, session.providers, session.dispatchIndex)
        && SchedulerCommands.CancelsObeyed(session.Work(), old(session.View(Scheduling.AtTop)), es)
    {
      hide DispatchOrder.Billed, SchedulerCommands.CancelsObeyed;
      hide ClaimHashes, Orchestration.Accounted, Scheduling.Replay, Scheduling.AllTerminal, SchedulerConfluence.Verdict,
        SchedulerConfluence.Undisturbed, Scheduling.ClosedStates, SchedulerSafety.QueueInv, Scheduling.ValidWorkload,
        TaskGraph.ValidGraph, SchedulerSafety.WorkloadOf, SchedulerSafety.ValidStart, Elements, TaskGraph.DependencyMap,
        TaskGraph.ById, Order, Orchestration.EditorsOf, Journal.Appended;
      var before := session.emitted;
      r, es := session.Run(good, commands);
      if r.Success? {
        LogEmitted(before);
        if r.value.Finished? { TerminalIsStart(session.Work(), session.states); }
      }
    }

    /** The attempts first, since recording one rewrites the record; the outcome last. */
    method WriteBack(ghost s: Record, ghost log: EventLog) returns (error: Option<StoreError>)
      requires Attached() && session.Valid()
      requires s == store.sessions[sessionId] && log == store.journals[sessionId]
      modifies store
      ensures Attached()
      ensures old(AllSound(store.sessions)) && error.Some? ==> AllSound(store.sessions)
      ensures store.sessions == old(store.sessions)[sessionId :=
        AfterRun(sessionId, s, log, IdsOf(session.revision.graph), session.View(Scheduling.Returned), proposals,
                 originalHashes, session.providers)]
      ensures error.None? <==> WritesBack(sessionId, s, log, session.states)
    {
      GraphRecorded(sessionId, s, log, session.revision.graph, session.states, session.providers);
      AfterRunUnfolds(sessionId, s, log, IdsOf(session.revision.graph), session.View(Scheduling.Returned), proposals,
                      originalHashes, session.providers, store.sessions);
      hide RecordAttempts, WritesBack, AllSound, TaskGraph.ValidGraph, Finished, ClaimHashes, TaskGraph.DependencyMap,
        IdsOf, AfterRun;
      error := RecordAll(s, log);
      if error.None? {
        var final := Scheduling.Session(session.states, session.running, session.mergeQueue, session.breakpoints,
          session.dispatchBudget, session.paused, session.cancelled, session.emitted, Scheduling.Returned);
        store.sessions := store.sessions[sessionId :=
          Finished(store.sessions[sessionId], final, proposals, originalHashes)];
      }
    }

    /** One node of the loop. */
    method RecordNode(node: Id, ghost r: Recording) returns (error: Option<StoreError>)
      requires Attached() && node in session.states && r.error.None?
      requires r.record == store.sessions[sessionId] && r.log == store.journals[sessionId]
      modifies store
      ensures Attached()
      ensures old(AllSound(store.sessions)) ==> AllSound(store.sessions)
      ensures
        var next := RecordOne(sessionId, r, node, session.states, session.providers);
        && store.sessions == old(store.sessions)[sessionId := next.record] && error == next.error
        && store.journals == old(store.journals)[sessionId := next.log]
    {
      hide AllSound, AttemptRecord, Logged, Journal.Readable, ProviderFor, ClaimHashes;
      if !RecordsAttempt(session.states[node]) {
        return None;
      }
      var provider := ProviderFor(store.sessions[sessionId], session.providers, node);
      var recorded := store.RecordNodeAttempt(sessionId, node, session.states[node], provider);
      return if recorded.Failure? then Some(recorded.error) else None;
    }

    /** The loop over the returned states, in the order of the graph's nodes. */
    method RecordAll(ghost s: Record, ghost log: EventLog) returns (error: Option<StoreError>)
      requires Attached() && session.Valid()
      requires s == store.sessions[sessionId] && log == store.journals[sessionId]
      modifies store
      ensures Attached()
      ensures old(AllSound(store.sessions)) ==> AllSound(store.sessions)
      ensures
        var r := RecordAttempts(sessionId, s, log, IdsOf(session.revision.graph), session.states, session.providers);
        && store.sessions == old(store.sessions)[sessionId := r.record] && error == r.error
    {
      var nodes := session.revision.graph.nodes;
      ghost var ids := IdsOf(session.revision.graph);
      ghost var sessions, states, chosen := store.sessions, session.states, session.providers;
      RecordingStarts(sessionId, s, log, session.revision.graph, states, chosen);
      hide RecordAttempts, RecordOne, AllSound, TaskGraph.ValidGraph, ClaimHashes, TaskGraph.DependencyMap,
        TaskGraph.ById,
        IdsOf;
      ghost var r := Recording(s, log, None);
      for i := 0 to |nodes|
        invariant Attached() && (AllSound(sessions) ==> AllSound(store.sessions))
        invariant r.error.None? && r == RecordAttempts(sessionId, s, log, ids[..i], states, chosen)
        invariant store.sessions == sessions[sessionId := r.record] && store.journals[sessionId] == r.log
      {
        r := RecordStep(sessionId, s, log, ids, i, states, chosen, sessions);
        error := RecordNode(nodes[i].nodeId, RecordAttempts(sessionId, s, log, ids[..i], states, chosen));
        if error.Some? {
          return;
        }
      }
      return None;
    }

    /** Queue one proposal in a fresh merge queue and review it. */
    method ReviewProposal(node: TaskGraph.TaskNode, p: MergeQueue.MergeProposal, approved: bool, valid: bool,
                          fault: Checkpoints.Fault)
      returns (r: Result<Option<nat>, MergeQueue.MergeError>)
      requires Attached() && p.nodeId == node.nodeId && p.paths == node.writePaths
      modifies repository, checkpoints
      ensures Attached()
      ensures !(node.Edits() && MergeQueue.ValidProposal(p)) ==>
        && r.Failure? && !r.error.WriteFailed?
        && repository.files == old(repository.files) && checkpoints.saved == old(checkpoints.saved)
      ensures node.Edits() && MergeQueue.ValidProposal(p) ==>
        MergeQueue.Reviewed(MergeQueue.Review(p, MergeQueue.Default, false, approved, valid, fault),
                            old(repository.files), old(checkpoints.saved), r, repository.files, checkpoints.saved)
    {
      hide Sound, MergeQueue.Reviewed, ClaimHashes;
      var queue := new MergeQueue.SerializedMergeQueue(repository, checkpoints, MergeQueue.Default);
      var queued := queue.Enqueue(node, p.workspace, p.originalHashes);
      if queued.Failure? {
        return Failure(queued.error);
      }
      assert queue.queue == [p];
      r := queue.ReviewNext(approved, false, valid, fault);
    }

    /** Apply one retained proposal through the stale-hash and validation gates; a raised review persists nothing. */
    method ReviewMerge(nodeId: Id, approved: bool, valid: bool, fault: Checkpoints.Fault,
                       ghost c: MergeHistory.RunContext)
      returns (r: Result<Option<nat>, RuntimeError>)
      requires Attached()
      modifies store, repository, checkpoints
      ensures Attached() && (old(AllSound(store.sessions)) ==> AllSound(store.sessions))
      ensures r.Failure? && !r.error.JournalError? ==> store.OnDisk() == old(store.OnDisk())
      ensures Applied(old(store.sessions)[sessionId], nodeId, approved, valid, fault, old(repository.files),
                      old(checkpoints.saved), r, repository.files, checkpoints.saved)
      ensures
        var s, log := old(store.sessions)[sessionId], old(store.journals)[sessionId];
        r.Success? || r.error.JournalError? ==>
          && UpForReview(s, nodeId)
          && (r.Success? <==> Journal.Readable(log, sessionId))
          && (exists checkpoint: Option<nat> :: (r.Success? ==> r.value == checkpoint)
                && store.sessions == old(store.sessions)[sessionId := AfterReview(s, nodeId, approved, checkpoint)])
          && ReviewNoted(s, store.sessions[sessionId], nodeId, approved, r)
          && store.journals == old(store.journals)[sessionId := Logged(log, sessionId, ReviewEvent(approved))]
      ensures old(FromRun(store.sessions[sessionId], c)) ==> FromRun(store.sessions[sessionId], c)
      ensures old(FromRun(store.sessions[sessionId], c)) ==>
        LedgerOf(store.sessions[sessionId], repository.files)
          == MergeHistory.Step(c, old(LedgerOf(store.sessions[sessionId], repository.files)),
                               ReviewStep(nodeId, approved, valid, fault, r))
    {
      hide Sound, FromRun, MergeHistory.Step, Reviewable, MergeQueue.Passes, MergeQueue.Merged, MergeQueue.Broken,
        MergeQueue.ValidProposal, MergeQueue.Reviewed, AfterReview, ProposalIn, TaskGraph.ById, LedgerOf, ReviewNoted,
        Applied, ClaimHashes;
      var state := store.sessions[sessionId];
      ghost var before, saved := repository.files, checkpoints.saved;
      if state.mergeQueue == [] || state.mergeQueue[0] != nodeId {
        r := Failure(OutOfOrder);
        NotReviewed(state, c, before, nodeId, approved, valid);
        NotApplied(state, nodeId, approved, valid, fault, before, saved, OutOfOrder);
        return;
      }
      var nodes := TaskGraph.ById(state.revision.graph.nodes);
      if nodeId !in nodes {
        r := Failure(NoSuchNode);
        NotReviewed(state, c, before, nodeId, approved, valid);
        NotApplied(state, nodeId, approved, valid, fault, before, saved, NoSuchNode);
        return;
      }
      if nodeId !in state.proposals || nodeId !in state.originalHashes {
        r := Failure(NoProposal);
        NotReviewed(state, c, before, nodeId, approved, valid);
        NotApplied(state, nodeId, approved, valid, fault, before, saved, NoProposal);
        return;
      }
      r := ReviewHead(nodes[nodeId], nodeId, approved, valid, fault, c);
    }

    /** The proposal of the head: reviewed, and noted unless the review raises. */
    method ReviewHead(node: TaskGraph.TaskNode, nodeId: Id, approved: bool, valid: bool, fault: Checkpoints.Fault,
                      ghost c: MergeHistory.RunContext)
      returns (r: Result<Option<nat>, RuntimeError>)
      requires Attached() && UpForReview(store.sessions[sessionId], nodeId)
      requires node == TaskGraph.ById(store.sessions[sessionId].revision.graph.nodes)[nodeId]
      modifies store, repository, checkpoints
      ensures Attached() && (old(AllSound(store.sessions)) ==> AllSound(store.sessions))
      ensures r.Failure? && !r.error.JournalError? ==> store.OnDisk() == old(store.OnDisk())
      ensures Applied(old(store.sessions)[sessionId], nodeId, approved, valid, fault, old(repository.files),
                      old(checkpoints.saved), r, repository.files, checkpoints.saved)
      ensures
        var s, log := old(store.sessions)[sessionId], old(store.journals)[sessionId];
        r.Success? || r.error.JournalError? ==>
          && (r.Success? <==> Journal.Readable(log, sessionId))
          && (exists checkpoint: Option<nat> :: (r.Success? ==> r.value == checkpoint)
                && store.sessions == old(store.sessions)[sessionId := AfterReview(s, nodeId, approved, checkpoint)])
          && ReviewNoted(s, store.sessions[sessionId], nodeId, approved, r)
          && store.journals == old(store.journals)[sessionId := Logged(log, sessionId, ReviewEvent(approved))]
      ensures old(FromRun(store.sessions[sessionId], c)) ==> FromRun(store.sessions[sessionId], c)
      ensures old(FromRun(store.sessions[sessionId], c)) ==>
        LedgerOf(store.sessions[sessionId], repository.files)
          == MergeHistory.Step(c, old(LedgerOf(store.sessions[sessionId], repository.files)),
                               ReviewStep(nodeId, approved, valid, fault, r))
    {
      hide Sound, FromRun, MergeHistory.Step, Reviewable, MergeQueue.Passes, MergeQueue.Merged, MergeQueue.Broken,
        MergeQueue.ValidProposal, MergeQueue.Reviewed, AfterReview, ProposalIn, TaskGraph.ById, LedgerOf, ReviewNoted,
        Applied, ClaimHashes;
      var state := store.sessions[sessionId];
      ghost var before, saved := repository.files, checkpoints.saved;
      var proposal := ProposalIn(state, nodeId);
      ProposalParts(state, nodeId);
      var reviewed := ReviewProposal(node, proposal, approved, valid, fault);
      ReviewedHead(state, c, nodeId, approved, valid, fault, before, saved, reviewed, repository.files,
                   checkpoints.saved);
      if reviewed.Failure? {
        return Failure(MergeError(reviewed.error));
      }
      AfterReviewSound(state, nodeId, approved, reviewed.value);
      AfterReviewFromRun(state, nodeId, approved, reviewed.value, c);
      AfterReviewNoted(state, nodeId, approved, reviewed.value);
      store.sessions := store.sessions[sessionId := AfterReview(state, nodeId, approved, reviewed.value)];
      var logged := store.AppendEvent(sessionId, ReviewEvent(approved));
      return if logged then Success(reviewed.value) else Failure(JournalError);
    }
  }

  /** The ids in the order in which the session's state dictionary was filled. */
  function IdsOf(g: TaskGraph.TaskGraph): seq<Id> {
    seq(|g.nodes|, i requires 0 <= i < |g.nodes| => g.nodes[i].nodeId)
  }

  lemma IdsOfValid(g: TaskGraph.TaskGraph)
    requires TaskGraph.ValidGraph(g)
    ensures NoDuplicates(IdsOf(g)) && Elements(IdsOf(g)) == TaskGraph.DependencyMap(g).Keys
  {
    var nodes := TaskGraph.ById(g.nodes);
    forall n | n in nodes ensures n in Elements(IdsOf(g)) {
      var j :| 0 <= j < |g.nodes| && g.nodes[j] == nodes[n];
      assert IdsOf(g)[j] == n;
    }
    forall n | n in Elements(IdsOf(g)) ensures n in nodes {
      var j :| 0 <= j < |g.nodes| && IdsOf(g)[j] == n;
      assert g.nodes[j] in g.nodes;
    }
  }

  lemma RecordNext(id: SessionId, s: Record, log: EventLog, ids: seq<Id>, i: nat, states: Scheduling.States,
                   chosen: map<Id, string>)
    requires i < |ids|
    ensures RecordAttempts(id, s, log, ids[..i + 1], states, chosen)
      == RecordOne(id, RecordAttempts(id, s, log, ids[..i], states, chosen), ids[i], states, chosen)
  {
    assert ids[..i + 1][..i] == ids[..i];
    hide RecordOne;
  }

  lemma RecordStep(id: SessionId, s: Record, log: EventLog, ids: seq<Id>, i: nat, states: Scheduling.States,
                   chosen: map<Id, string>, sessions: map<SessionId, Record>)
    returns (next: Recording)
    requires i < |ids|
    ensures
      var r := RecordAttempts(id, s, log, ids[..i], states, chosen);
      && next == RecordAttempts(id, s, log, ids[..i + 1], states, chosen)
      && next == RecordOne(id, r, ids[i], states, chosen)
      && sessions[id := r.record][id := next.record] == sessions[id := next.record]
    ensures next.error.Some? ==> RecordAttempts(id, s, log, ids, states, chosen) == next
  {
    hide RecordAttempts, RecordOne;
    RecordNext(id, s, log, ids, i, states, chosen);
    next := RecordAttempts(id, s, log, ids[..i + 1], states, chosen);
    if next.error.Some? { ErrorSticks(id, s, log, ids, i + 1, states, chosen); }
  }

  lemma RecordingStarts(id: SessionId, s: Record, log: EventLog, g: TaskGraph.TaskGraph, states: Scheduling.States,
                        chosen: map<Id, string>)
    requires states.Keys == TaskGraph.DependencyMap(g).Keys
    ensures
      var ids := IdsOf(g);
      && RecordAttempts(id, s, log, ids[..0], states, chosen) == Recording(s, log, None)
      && |ids| == |g.nodes| && ids[..|g.nodes|] == ids
      && forall i :: 0 <= i < |ids| ==> ids[i] == g.nodes[i].nodeId && ids[i] in states
  {
    forall i | 0 <= i < |g.nodes| ensures g.nodes[i].nodeId in states { NodeInStates(g, i); }
  }

  lemma GraphRecorded(id: SessionId, s: Record, log: EventLog, g: TaskGraph.TaskGraph, states: Scheduling.States,
                      chosen: map<Id, string>)
    requires TaskGraph.ValidGraph(g) && states.Keys == TaskGraph.DependencyMap(g).Keys
    ensures RecordAttempts(id, s, log, IdsOf(g), states, chosen).error.None? <==> WritesBack(id, s, log, states)
  {
    hide *;
    IdsOfValid(g);
    RecordedAll(id, s, log, IdsOf(g), states, chosen);
  }

  lemma NodeInStates(g: TaskGraph.TaskGraph, i: nat)
    requires i < |g.nodes|
    ensures g.nodes[i].nodeId in TaskGraph.DependencyMap(g)
  {
    assert g.nodes[i] in g.nodes;
  }

  /** The first error of the recording is its last word. */
  lemma {:induction false} ErrorSticks(id: SessionId, s: Record, log: EventLog, ids: seq<Id>, k: nat,
                                       states: Scheduling.States, chosen: map<Id, string>)
    requires k <= |ids| && RecordAttempts(id, s, log, ids[..k], states, chosen).error.Some?
    ensures RecordAttempts(id, s, log, ids, states, chosen) == RecordAttempts(id, s, log, ids[..k], states, chosen)
  {
    if k == |ids| {
      assert ids[..k] == ids;
    } else {
      assert ids[..|ids| - 1][..k] == ids[..k];
      ErrorSticks(id, s, log, ids[..|ids| - 1], k, states, chosen);
    }
  }

  lemma ObeyShape(s: Scheduling.Session, c: Scheduling.Command)
    ensures var r := Scheduling.Obey(s, c);
      r.states == s.states && r.running == s.running && r.mergeQueue == s.mergeQueue && r.emitted >= s.emitted
  {
  }

  lemma TerminalIsStart(w: Scheduling.Workload, states: Scheduling.States)
    requires states.Keys == w.deps.Keys && Scheduling.AllTerminal(states)
    ensures SchedulerSafety.ValidStart(w, states)
  {
  }

  lemma LoadedKeys(s: Record)
    requires Sound(s)
    ensures s.nodeStates.Keys == TaskGraph.DependencyMap(s.revision.graph).Keys
  {
    SoundFacts(s);
  }

  lemma LoadedStates(s: Record, m: DepMap)
    requires s.nodeStates.Keys == m.Keys
    ensures Reloaded(s.nodeStates).Keys == m.Keys
    ensures forall w: Scheduling.Workload :: w.deps == m ==> SchedulerSafety.ValidStart(w, Reloaded(s.nodeStates))
  {
  }

  /** What a run of the session that ends guarantees, from where it stood. */
  ghost predicate Outcome(w: Scheduling.Workload, start: Scheduling.Session, good: set<Id>,
                          commands: seq<Scheduling.Command>, es: seq<Scheduling.Event>, final: Scheduling.Session)
  {
    && Scheduling.ValidWorkload(w) && Scheduling.Shaped(w, start)
    && Orchestration.Accounted(good, commands, es) && final == Scheduling.Replay(w, start, es)
    && Scheduling.AllTerminal(final.states) && final.running == {}
    && (!start.cancelled && Scheduling.Cancel !in commands ==>
          SchedulerConfluence.Verdict(w, start.states, good, final.states))
    && (start.mergeQueue == [] && Scheduling.ClosedStates(w.deps, start.states) ==>
          SchedulerSafety.QueueInv(w, start.states, final))
  }

  /** What a run that ended has made of the stored sessions. */
  ghost predicate RunEnded(id: SessionId, before: Disk, after: map<SessionId, Record>, openedAt: nat,
                           w: Scheduling.Workload, start: Scheduling.Session, final: Scheduling.Session, good: set<Id>,
                           commands: seq<Scheduling.Command>, es: seq<Scheduling.Event>, ids: seq<Id>,
                           proposals: map<Id, FileMap>, hashes: map<Id, map<Path, Digest>>, chosen: map<Id, string>,
                           result: RunResult)
    requires id in before.sessions && id in before.journals
  {
    var s, log := before.sessions[id], Emitted(id, before.journals[id], openedAt, start, final);
    && Outcome(w, start, good, commands, es, final)
    && after == before.sessions[id := AfterRun(id, s, log, ids, final, proposals, hashes, chosen)]
    && (result == Ran <==> WritesBack(id, s, log, final.states))
  }

  lemma RunEndedIs(id: SessionId, before: Disk, after: map<SessionId, Record>, openedAt: nat, w: Scheduling.Workload,
                   start: Scheduling.Session, final: Scheduling.Session, good: set<Id>,
                   commands: seq<Scheduling.Command>, es: seq<Scheduling.Event>, ids: seq<Id>,
                   proposals: map<Id, FileMap>, hashes: map<Id, map<Path, Digest>>, chosen: map<Id, string>,
                   result: RunResult, log: EventLog)
    requires id in before.sessions && id in before.journals && start.emitted <= final.emitted
    requires log == Emitted(id, before.journals[id], openedAt, start, final)
    requires Outcome(w, start, good, commands, es, final)
    requires after == before.sessions[id := AfterRun(id, before.sessions[id], log, ids, final, proposals, hashes,
                                                     chosen)]
    requires result == Ran <==> WritesBack(id, before.sessions[id], log, final.states)
    ensures RunEnded(id, before, after, openedAt, w, start, final, good, commands, es, ids, proposals, hashes, chosen,
                     result)
  {
    hide Outcome, AfterRun, WritesBack;
  }

  lemma ProposalParts(s: Record, n: Id)
    requires n in TaskGraph.ById(s.revision.graph.nodes) && n in s.proposals && n in s.originalHashes
    ensures ProposalIn(s, n).nodeId == n
    ensures ProposalIn(s, n).paths == TaskGraph.ById(s.revision.graph.nodes)[n].writePaths
  {
  }

  /** The node can be taken up for review: it is at the head and has a proposal. */
  predicate UpForReview(s: Record, n: Id) {
    && s.mergeQueue != [] && s.mergeQueue[0] == n && n in TaskGraph.ById(s.revision.graph.nodes)
    && n in s.proposals && n in s.originalHashes
  }

  function LedgerOf(s: Record, files: FileMap): MergeHistory.Ledger {
    MergeHistory.Ledger(files, s.mergeQueue)
  }

  /** The proposal may be applied: the node edits, its claims are allowed, and the hashes cover them. */
  predicate Offered(s: Record, n: Id) {
    UpForReview(s, n) && TaskGraph.ById(s.revision.graph.nodes)[n].Edits() && MergeQueue.ValidProposal(ProposalIn(s, n))
  }

  /**
   * What a review does to the repository and its checkpoints: nothing, unless the proposal at the head is approved,
   * validated and meets the content it was made against; then, if no write fails, every claimed path holds what the
   * retained workspace holds there.
   */
  ghost predicate Applied(s: Record, n: Id, approved: bool, valid: bool, fault: Checkpoints.Fault, files: FileMap,
                          saved: map<nat, Checkpoints.Saved>, r: Result<Option<nat>, RuntimeError>, after: FileMap,
                          kept: map<nat, Checkpoints.Saved>)
  {
    var cleared := Offered(s, n) && approved && valid && MergeQueue.AsRecorded(files, ProposalIn(s, n));
    && (after != files || kept != saved || (r.Success? && r.value.Some?) ==> cleared)
    && (cleared && !fault.WriteFails? ==>
          && HoldsWorkspace(s, n, files, after)
          && (r.Success? ==> r.value.Some?) && (r.Failure? ==> r.error.JournalError?))
  }

  /** The claims of the node hold what its retained workspace holds there, and nothing else has changed. */
  ghost predicate HoldsWorkspace(s: Record, n: Id, files: FileMap, after: FileMap)
    requires UpForReview(s, n)
  {
    var claims := TaskGraph.ById(s.revision.graph.nodes)[n].writePaths;
    && (forall k :: 0 <= k < |claims| ==> FileAt(after, claims[k]) == FileAt(s.proposals[n], claims[k]))
    && SameOutside(after, files, Elements(claims))
  }

  /** The review takes the head out of the queue and notes its outcome; nothing else of the record changes. */
  ghost predicate ReviewNoted(s: Record, t: Record, n: Id, approved: bool, r: Result<Option<nat>, RuntimeError>) {
    && s.mergeQueue != [] && t == s.(mergeQueue := s.mergeQueue[1..], outcomes := t.outcomes)
    && n in t.outcomes && t.outcomes[n].approved == approved
    && (r.Success? ==> t.outcomes[n].checkpoint == r.value)
    && forall m :: m != n ==> (m in t.outcomes <==> m in s.outcomes) && (m in s.outcomes && m in t.outcomes ==>
                                                                          t.outcomes[m] == s.outcomes[m])
  }

  lemma AfterReviewNoted(s: Record, n: Id, approved: bool, checkpoint: Option<nat>)
    requires s.mergeQueue != []
    ensures ReviewNoted(s, AfterReview(s, n, approved, checkpoint), n, approved, Success(checkpoint))
    ensures ReviewNoted(s, AfterReview(s, n, approved, checkpoint), n, approved, Failure(JournalError))
  {
  }

  lemma NotApplied(s: Record, n: Id, approved: bool, valid: bool, fault: Checkpoints.Fault, files: FileMap,
                   saved: map<nat, Checkpoints.Saved>, error: RuntimeError)
    requires !UpForReview(s, n)
    ensures Applied(s, n, approved, valid, fault, files, saved, Failure(error), files, saved)
  {
  }

  /** What the review of the head amounts to, for the files and for the serial history. */
  lemma ReviewedHead(s: Record, c: MergeHistory.RunContext, n: Id, approved: bool, valid: bool,
                     fault: Checkpoints.Fault, files: FileMap, saved: map<nat, Checkpoints.Saved>,
                     reviewed: Result<Option<nat>, MergeQueue.MergeError>, after: FileMap,
                     kept: map<nat, Checkpoints.Saved>)
    requires UpForReview(s, n)
    requires !Offered(s, n) ==>
      reviewed.Failure? && !reviewed.error.WriteFailed? && after == files && kept == saved
    requires Offered(s, n) ==>
      MergeQueue.Reviewed(MergeQueue.Review(ProposalIn(s, n), MergeQueue.Default, false, approved, valid, fault),
                          files, saved, reviewed, after, kept)
    ensures
      var r := if reviewed.Success? then Success(reviewed.value) else Failure(MergeError(reviewed.error));
      && Applied(s, n, approved, valid, fault, files, saved, r, after, kept)
      && (reviewed.Success? ==> Applied(s, n, approved, valid, fault, files, saved, Failure(JournalError), after, kept))
      && (reviewed.Failure? && FromRun(s, c) ==>
            MergeHistory.Step(c, LedgerOf(s, files), ReviewStep(n, approved, valid, fault, r)) == LedgerOf(s, after))
      && (reviewed.Success? && FromRun(s, c) ==>
            MergeHistory.Step(c, LedgerOf(s, files), MergeHistory.Review(n, approved, valid))
              == LedgerOf(AfterReview(s, n, approved, reviewed.value), after))
  {
    ProposalParts(s, n);
    HeadApplied(s, n, approved, valid, fault, files, saved, reviewed, after, kept);
    if Offered(s, n) {
      MergeQueue.ReviewedGates(
        MergeQueue.Review(ProposalIn(s, n), MergeQueue.Default, false, approved, valid, fault), files, saved, reviewed,
        after, kept);
    }
    hide FromRun, MergeHistory.Step, MergeQueue.Passes, MergeQueue.ValidProposal, MergeQueue.Merged, MergeQueue.Broken,
      MergeQueue.Reviewed, ProposalIn, AfterReview, LedgerOf, TaskGraph.ById, Applied, MergeQueue.AsRecorded,
      MergeQueue.Written;
    if reviewed.Success? {
      ReviewedStep(s, c, files, after, n, approved, valid, reviewed.value);
    } else if reviewed.error.WriteFailed? {
      InterruptedStep(s, c, files, n, valid, fault.at, fault.left);
    } else {
      RefusedStep(s, c, files, n, approved, valid);
    }
  }

  lemma HeadApplied(s: Record, n: Id, approved: bool, valid: bool, fault: Checkpoints.Fault, files: FileMap,
                    saved: map<nat, Checkpoints.Saved>, reviewed: Result<Option<nat>, MergeQueue.MergeError>,
                    after: FileMap, kept: map<nat, Checkpoints.Saved>)
    requires UpForReview(s, n)
    requires !Offered(s, n) ==>
      reviewed.Failure? && !reviewed.error.WriteFailed? && after == files && kept == saved
    requires Offered(s, n) ==>
      MergeQueue.Reviewed(MergeQueue.Review(ProposalIn(s, n), MergeQueue.Default, false, approved, valid, fault),
                          files, saved, reviewed, after, kept)
    ensures
      var r := if reviewed.Success? then Success(reviewed.value) else Failure(MergeError(reviewed.error));
      && Applied(s, n, approved, valid, fault, files, saved, r, after, kept)
      && (reviewed.Success? ==> Applied(s, n, approved, valid, fault, files, saved, Failure(JournalError), after, kept))
  {
    if Offered(s, n) {
      var p := ProposalIn(s, n);
      MergeQueue.ReviewedGates(MergeQueue.Review(p, MergeQueue.Default, false, approved, valid, fault), files, saved,
                               reviewed, after, kept);
      MergeQueue.MergedShape(files, p);
    }
    hide MergeQueue.Passes, MergeQueue.ValidProposal, MergeQueue.Merged, MergeQueue.Broken, MergeQueue.Reviewed,
      MergeQueue.AsRecorded, TaskGraph.ById, SameOutside, FileAt, NoDirectoryAt;
  }

  lemma NotReviewed(s: Record, c: MergeHistory.RunContext, files: FileMap, n: Id, approved: bool, valid: bool)
    requires !UpForReview(s, n)
    ensures FromRun(s, c) ==>
      MergeHistory.Step(c, LedgerOf(s, files), MergeHistory.Review(n, approved, valid)) == LedgerOf(s, files)
  {
    if FromRun(s, c) { ReviewCases(s, c, files, n, approved, valid); }
    hide FromRun, MergeHistory.Step;
  }

  lemma RefusedStep(s: Record, c: MergeHistory.RunContext, files: FileMap, n: Id, approved: bool, valid: bool)
    requires UpForReview(s, n)
    requires
      var p, edits := ProposalIn(s, n), TaskGraph.ById(s.revision.graph.nodes)[n].Edits();
      && !(edits && MergeQueue.ValidProposal(p) && MergeQueue.Passes(files, p, MergeQueue.Default, false, valid))
      && (edits && MergeQueue.ValidProposal(p) ==> approved)
    ensures FromRun(s, c) ==>
      MergeHistory.Step(c, LedgerOf(s, files), MergeHistory.Review(n, approved, valid)) == LedgerOf(s, files)
  {
    if FromRun(s, c) { ReviewCases(s, c, files, n, approved, valid); }
    hide FromRun, MergeHistory.Step, MergeQueue.Passes, MergeQueue.ValidProposal, MergeQueue.Merged;
  }

  /** The event of the serial history a review amounts to. */
  function ReviewStep(n: Id, approved: bool, valid: bool, fault: Checkpoints.Fault,
                      r: Result<Option<nat>, RuntimeError>): MergeHistory.Event
  {
    if r.Failure? && r.error.MergeError? && r.error.error.WriteFailed? && fault.WriteFails?
    then MergeHistory.Interrupted(n, valid, fault.at, fault.left)
    else MergeHistory.Review(n, approved, valid)
  }

  lemma InterruptedStep(s: Record, c: MergeHistory.RunContext, files: FileMap, n: Id, valid: bool, at: nat,
                        left: Option<Content>)
    requires UpForReview(s, n)
    requires
      var p := ProposalIn(s, n);
      && TaskGraph.ById(s.revision.graph.nodes)[n].Edits() && MergeQueue.ValidProposal(p) && at < |p.paths|
      && MergeQueue.Passes(files, p, MergeQueue.Default, false, valid)
    ensures FromRun(s, c) ==>
      MergeHistory.Step(c, LedgerOf(s, files), MergeHistory.Interrupted(n, valid, at, left))
        == LedgerOf(s, MergeQueue.Broken(files, ProposalIn(s, n), at, left))
  {
    hide MergeQueue.Passes, MergeQueue.Broken;
    if FromRun(s, c) {
      assert n in s.mergeQueue && Reviewable(s, n);
      assert MergeHistory.Recorded(c, n) && ProposalIn(s, n) == MergeHistory.ProposalOf(c, n);
    }
  }

  lemma ReviewedStep(s: Record, c: MergeHistory.RunContext, files: FileMap, after: FileMap, n: Id, approved: bool,
                     valid: bool, checkpoint: Option<nat>)
    requires UpForReview(s, n)
    requires
      var p, edits := ProposalIn(s, n), TaskGraph.ById(s.revision.graph.nodes)[n].Edits();
      && edits && MergeQueue.ValidProposal(p) && (checkpoint.None? <==> !approved)
      && (checkpoint.None? ==> after == files)
      && (checkpoint.Some? ==>
            MergeQueue.Passes(files, p, MergeQueue.Default, false, valid) && after == MergeQueue.Merged(files, p))
    ensures FromRun(s, c) ==>
      MergeHistory.Step(c, LedgerOf(s, files), MergeHistory.Review(n, approved, valid))
        == LedgerOf(AfterReview(s, n, approved, checkpoint), after)
  {
    if FromRun(s, c) { ReviewCases(s, c, files, n, approved, valid); }
    hide FromRun, MergeHistory.Step, MergeQueue.Passes, MergeQueue.ValidProposal, MergeQueue.Merged;
  }

  /**
   * The proposals a runtime holds: of what this run queued the workspace its task left, of what was queued before
   * the proposal it had.
   */
  ghost predicate Retained(queued: seq<Id>, before: map<Id, FileMap>, queue: seq<Id>, workspaces: Id -> FileMap,
                           after: map<Id, FileMap>) {
    && queued <= queue && after.Keys == Elements(queue)
    && (forall n :: n in queue[|queued|..] ==> n in after && after[n] == workspaces(n))
    && (forall n :: n in queued && n !in queue[|queued|..] ==> n in before && n in after && after[n] == before[n])
  }

  lemma OldOrNew(queued: seq<Id>, before: map<Id, FileMap>, queue: seq<Id>)
    requires queued <= queue && before.Keys == Elements(queued)
    ensures forall n :: n in queue ==> n in queue[|queued|..] || n in before
  {
    assert queue == queued + queue[|queued|..];
    forall n | n in queue ensures n in queue[|queued|..] || n in before {
      assert n in queued ==> n in Elements(queued);
    }
  }

  lemma NewlyRetained(queued: seq<Id>, before: map<Id, FileMap>, queue: seq<Id>, workspaces: Id -> FileMap,
                      after: map<Id, FileMap>)
    requires queued <= queue && before.Keys == Elements(queued)
    requires after.Keys == Elements(queue)
    requires forall n :: n in queue ==>
      n in queue[|queued|..] || n in before
    requires forall n :: n in queue ==> after[n] == if n in queue[|queued|..] then workspaces(n) else before[n]
    ensures Retained(queued, before, queue, workspaces, after)
  {
    assert queue == queued + queue[|queued|..];
  }

  /** The node may still be merged: it edits, its claims are allowed, and hold what they held in `base`. */
  predicate Untouched(g: TaskGraph.TaskGraph, n: Id, base: FileMap, files: FileMap) {
    var nodes := TaskGraph.ById(g.nodes);
    && n in nodes && nodes[n].Edits() && AllowedPaths(nodes[n].writePaths)
    && forall path :: path in nodes[n].writePaths ==>
        HashOf(files, path) == HashOf(base, path) && (path in files ==> files[path].File?)
  }

  /** What a review after a run has brought into the repository: what the task left, on the claims of the node. */
  ghost predicate Brought(stored: TaskGraph.TaskGraph, n: Id, workspaces: Id -> FileMap, base: FileMap,
                          loaded: TaskGraph.TaskGraph, queue: seq<Id>, files: FileMap, after: FileMap,
                          r: Result<Option<nat>, RuntimeError>)
  {
    && (r.Success? && r.value.Some? ==> OnClaims(stored, n, workspaces, files, after))
    && (after != files ==> OnClaims(stored, n, workspaces, files, after))
    && (queue != [] && queue[0] == n && stored == loaded && Untouched(loaded, n, base, files) ==>
          OnClaims(stored, n, workspaces, files, after) && (r.Failure? ==> r.error.JournalError?))
  }

  ghost predicate OnClaims(g: TaskGraph.TaskGraph, n: Id, workspaces: Id -> FileMap, files: FileMap, after: FileMap) {
    var nodes := TaskGraph.ById(g.nodes);
    && n in nodes
    && (forall k :: 0 <= k < |nodes[n].writePaths| ==>
          FileAt(after, nodes[n].writePaths[k]) == FileAt(workspaces(n), nodes[n].writePaths[k]))
    && SameOutside(after, files, Elements(nodes[n].writePaths))
  }

  lemma WorkspaceBrought(before: Record, s: Record, final: Scheduling.Session, proposals: map<Id, FileMap>,
                         hashes: map<Id, map<Path, Digest>>, chosen: map<Id, string>, queued: seq<Id>,
                         held: map<Id, FileMap>, workspaces: Id -> FileMap, n: Id, base: FileMap,
                         loaded: TaskGraph.TaskGraph, files: FileMap, saved: map<nat, Checkpoints.Saved>,
                         r: Result<Option<nat>, RuntimeError>, after: FileMap, kept: map<nat, Checkpoints.Saved>)
    requires WrittenOver(before, s, final, proposals, hashes, chosen)
    requires Retained(queued, held, final.mergeQueue, workspaces, proposals)
    requires hashes == ClaimHashes(loaded, base)
    requires Applied(s, n, true, true, Checkpoints.NoFault, files, saved, r, after, kept)
    ensures |queued| <= |final.mergeQueue|
    ensures n in final.mergeQueue[|queued|..] ==>
      Brought(before.revision.graph, n, workspaces, base, loaded, final.mergeQueue, files, after, r)
  {
    RetainedParts(queued, held, final.mergeQueue, workspaces, proposals);
    if n in final.mergeQueue[|queued|..] {
      assert proposals[n] == workspaces(n);
      StoredParts(before, s, final, proposals, hashes, chosen);
      AppliedParts(s, n, files, saved, r, after, kept);
      hide *;
      if s.mergeQueue != [] && s.mergeQueue[0] == n && s.revision.graph == loaded && Untouched(loaded, n, base, files) {
        UntouchedOffered(s, n, base, files);
      }
      if UpForReview(s, n) && HoldsWorkspace(s, n, files, after) { HeldOnClaims(s, n, workspaces, files, after); }
      BroughtIs(before.revision.graph, n, workspaces, base, loaded, final.mergeQueue, files, after, r);
    }
  }

  lemma RetainedParts(queued: seq<Id>, before: map<Id, FileMap>, queue: seq<Id>, workspaces: Id -> FileMap,
                      after: map<Id, FileMap>)
    requires Retained(queued, before, queue, workspaces, after)
    ensures queued <= queue && forall n :: n in queue[|queued|..] ==> n in after && after[n] == workspaces(n)
  {
  }

  lemma AppliedParts(s: Record, n: Id, files: FileMap, saved: map<nat, Checkpoints.Saved>,
                     r: Result<Option<nat>, RuntimeError>, after: FileMap, kept: map<nat, Checkpoints.Saved>)
    requires Applied(s, n, true, true, Checkpoints.NoFault, files, saved, r, after, kept)
    ensures
      var cleared := Offered(s, n) && MergeQueue.AsRecorded(files, ProposalIn(s, n));
      && (after != files || (r.Success? && r.value.Some?) ==> cleared)
      && (cleared ==> UpForReview(s, n) && HoldsWorkspace(s, n, files, after) && (r.Failure? ==> r.error.JournalError?))
  {
    hide HoldsWorkspace, MergeQueue.AsRecorded, MergeQueue.ValidProposal, TaskGraph.ById;
  }

  lemma HeldOnClaims(s: Record, n: Id, workspaces: Id -> FileMap, files: FileMap, after: FileMap)
    requires UpForReview(s, n) && HoldsWorkspace(s, n, files, after) && s.proposals[n] == workspaces(n)
    ensures OnClaims(s.revision.graph, n, workspaces, files, after)
  {
    hide TaskGraph.ById, FileAt, SameOutside, Elements;
  }

  lemma BroughtIs(stored: TaskGraph.TaskGraph, n: Id, workspaces: Id -> FileMap, base: FileMap,
                  loaded: TaskGraph.TaskGraph, queue: seq<Id>, files: FileMap, after: FileMap,
                  r: Result<Option<nat>, RuntimeError>)
    requires after != files || (r.Success? && r.value.Some?) ==> OnClaims(stored, n, workspaces, files, after)
    requires queue != [] && queue[0] == n && stored == loaded && Untouched(loaded, n, base, files) ==>
      OnClaims(stored, n, workspaces, files, after) && (r.Failure? ==> r.error.JournalError?)
    ensures Brought(stored, n, workspaces, base, loaded, queue, files, after, r)
  {
    hide OnClaims, Untouched;
  }

  lemma StoredParts(s: Record, t: Record, final: Scheduling.Session, proposals: map<Id, FileMap>,
                    hashes: map<Id, map<Path, Digest>>, chosen: map<Id, string>)
    requires WrittenOver(s, t, final, proposals, hashes, chosen)
    ensures t.revision == s.revision && t.mergeQueue == final.mergeQueue && t.proposals == proposals
    ensures t.originalHashes == hashes
  {
    hide OneMoreAttempt;
  }

  lemma UntouchedOffered(s: Record, n: Id, base: FileMap, files: FileMap)
    requires s.mergeQueue != [] && s.mergeQueue[0] == n && n in s.proposals
    requires s.originalHashes == ClaimHashes(s.revision.graph, base) && Untouched(s.revision.graph, n, base, files)
    ensures Offered(s, n) && MergeQueue.AsRecorded(files, ProposalIn(s, n))
  {
    hide TaskGraph.ById, AllowedPaths, HashOf;
    var paths := TaskGraph.ById(s.revision.graph.nodes)[n].writePaths;
    assert s.originalHashes[n] == HashPaths(base, paths);
    assert HashPaths(base, paths).Keys == Elements(paths);
  }

  /** The provider an attempt is noted under, field by field. */
  ghost predicate NotedUnder(s: Record, chosen: map<Id, string>, n: Id, provider: string) {
    && (n in chosen ==> provider == chosen[n])
    && (n !in chosen && n in s.overrides ==> provider == s.overrides[n])
    && (n !in chosen && n !in s.overrides ==> provider == "unassigned")
  }

  /**
   * What a finished run makes of the stored record: its states, status, queue, proposals and hashes, and one more
   * attempt of each node that succeeded, failed or was cancelled, under the provider it was dispatched to.
   */
  ghost predicate WrittenOver(s: Record, t: Record, final: Scheduling.Session, proposals: map<Id, FileMap>,
                              hashes: map<Id, map<Path, Digest>>, chosen: map<Id, string>) {
    && t == s.(status := t.status, nodeStates := final.states, mergeQueue := final.mergeQueue, proposals := proposals,
               originalHashes := hashes, attempts := t.attempts)
    && t.status in {Completed, Unsuccessful}
    && (t.status == Completed <==> forall n :: n in final.states ==> final.states[n] == Scheduling.Succeeded)
    && forall n ::
        if n in final.states && final.states[n] in {Scheduling.Succeeded, Scheduling.Failed, Scheduling.Cancelled}
        then OneMoreAttempt(s, t, n, final.states[n], chosen)
        else (n in t.attempts <==> n in s.attempts) && (n in t.attempts && n in s.attempts ==>
                                                          t.attempts[n] == s.attempts[n])
  }

  ghost predicate OneMoreAttempt(s: Record, t: Record, n: Id, state: Scheduling.NodeState, chosen: map<Id, string>) {
    var had := if n in s.attempts then s.attempts[n] else [];
    && n in t.attempts && |t.attempts[n]| == |had| + 1 && had <= t.attempts[n]
    && t.attempts[n][|had|].attempt == |had| + 1 && t.attempts[n][|had|].status == state
    && NotedUnder(s, chosen, n, t.attempts[n][|had|].provider)
  }

  lemma PersistedWritten(s: Record, final: Scheduling.Session, proposals: map<Id, FileMap>,
                         hashes: map<Id, map<Path, Digest>>, chosen: map<Id, string>)
    ensures WrittenOver(s, Persisted(s, final, proposals, hashes, chosen), final, proposals, hashes, chosen)
  {
    var t := Persisted(s, final, proposals, hashes, chosen);
    PersistedParts(s, final, proposals, hashes, chosen);
    NotedKeeps(s, RecordedNodes(final.states), final.states, chosen);
    forall n | n in final.states && final.states[n] in {Scheduling.Succeeded, Scheduling.Failed, Scheduling.Cancelled}
      ensures OneMoreAttempt(s, t, n, final.states[n], chosen)
    {
      assert RecordsAttempt(final.states[n]) && n in RecordedNodes(final.states);
    }
    forall n | !(n in final.states
                 && final.states[n] in {Scheduling.Succeeded, Scheduling.Failed, Scheduling.Cancelled})
      ensures n in t.attempts <==> n in s.attempts
      ensures n in t.attempts && n in s.attempts ==> t.attempts[n] == s.attempts[n]
    {
      assert n !in RecordedNodes(final.states);
    }
  }

  lemma AfterRunWritten(id: SessionId, s: Record, log: EventLog, ids: seq<Id>, final: Scheduling.Session,
                        proposals: map<Id, FileMap>, hashes: map<Id, map<Path, Digest>>, chosen: map<Id, string>,
                        g: TaskGraph.TaskGraph)
    requires TaskGraph.ValidGraph(g) && ids == IdsOf(g) && final.states.Keys == TaskGraph.DependencyMap(g).Keys
    ensures WritesBack(id, s, log, final.states) ==>
      WrittenOver(s, AfterRun(id, s, log, ids, final, proposals, hashes, chosen), final, proposals, hashes, chosen)
  {
    IdsOfValid(g);
    hide *;
    AfterRunCases(id, s, log, ids, final, proposals, hashes, chosen);
    PersistedWritten(s, final, proposals, hashes, chosen);
  }

  lemma QueueKeys(queue: seq<Id>, proposals: map<Id, FileMap>)
    requires forall n :: n in proposals <==> n in queue
    ensures proposals.Keys == Elements(queue)
  {
  }

  predicate Closed(s: Record) {
    Scheduling.ClosedStates(TaskGraph.DependencyMap(s.revision.graph), s.nodeStates)
  }

  /**
   * What is stored of a run that loaded `s` and was written over `now`: every node is done; unless cancelled, as the
   * verdict on the reloaded states says; the status is one of the two final ones, by whether all succeeded; and
   * neither revision nor approval has changed.
   */
  ghost predicate Ended(s: Record, now: Record, t: Record, concurrency: nat, good: set<Id>,
                        commands: seq<Scheduling.Command>)
  {
    && TaskGraph.ValidGraph(s.revision.graph) && 1 <= concurrency <= 8
    && t.revision == now.revision && t.approvedHash == now.approvedHash
    && Scheduling.AllTerminal(t.nodeStates)
    && (Scheduling.Cancel !in commands ==>
          (SchedulerSafety.WorkloadOfValid(s.revision.graph, concurrency);
           SchedulerConfluence.Verdict(SchedulerSafety.WorkloadOf(s.revision.graph, concurrency),
                                       Reloaded(s.nodeStates), good, t.nodeStates)))
    && t.status in {Completed, Unsuccessful}
    && (t.status == Completed <==> AllSucceeded(t.nodeStates))
  }

  /** The stored queue: this run's succeeded editors, once each, dependencies first. */
  ghost predicate Queued(s: Record, t: Record) {
    var nodes := TaskGraph.ById(s.revision.graph.nodes);
    && NoDuplicates(t.mergeQueue)
    && (forall n :: n in t.mergeQueue <==>
          n in nodes && nodes[n].Edits() && n in s.nodeStates && n in t.nodeStates
          && Reloaded(s.nodeStates)[n] == Scheduling.Pending && t.nodeStates[n] == Scheduling.Succeeded)
    && (forall i, j :: 0 <= i < j < |t.mergeQueue| ==>
          !DependsOn(TaskGraph.DependencyMap(s.revision.graph), t.mergeQueue[i], t.mergeQueue[j]))
  }

  /** What a run over this graph records for the later reviews. */
  function ContextOf(g: TaskGraph.TaskGraph, files: FileMap, proposals: map<Id, FileMap>): MergeHistory.RunContext {
    var nodes := TaskGraph.ById(g.nodes);
    MergeHistory.RunContext(files, map n | n in nodes && nodes[n].Edits() :: nodes[n].writePaths, proposals)
  }

  /**
   * A first run of a runtime that loaded `s`, written back over the record as it is by then: it ends as the loaded
   * record says, and if the graph is still the loaded one the stored queue can be reviewed against it.
   */
  lemma RunOfLoaded(s: Record, now: Record, concurrency: nat, good: set<Id>, commands: seq<Scheduling.Command>,
                    es: seq<Scheduling.Event>, final: Scheduling.Session, proposals: map<Id, FileMap>, base: FileMap,
                    chosen: map<Id, string>)
    requires Sound(s) && 1 <= concurrency <= 8
    requires Order(TaskGraph.DependencyMap(s.revision.graph)).Some?
    requires Outcome(SchedulerSafety.WorkloadOf(s.revision.graph, concurrency), Loaded(s), good, commands, es, final)
    requires proposals.Keys == Elements(final.mergeQueue)
    ensures
      var t := Persisted(now, final, proposals, ClaimHashes(s.revision.graph, base), chosen);
      && Ended(s, now, t, concurrency, good, commands)
      && (Closed(s) ==> Queued(s, t))
      && (Closed(s) && now.revision.graph == s.revision.graph ==>
          FromRun(t, ContextOf(s.revision.graph, base, proposals)))
  {
    var w := SchedulerSafety.WorkloadOf(s.revision.graph, concurrency);
    SchedulerSafety.WorkloadOfValid(s.revision.graph, concurrency);
    SoundFacts(s);
    if Closed(s) { LoadedIsStart(s, w); }
    hide Sound, TaskGraph.ValidGraph, ClaimHashes, Reloaded, SchedulerSafety.WorkloadOf, FromRun, Queued, Closed,
      Scheduling.AllTerminal, Noted, Scheduling.Replay, Orchestration.Accounted, Scheduling.ValidWorkload;
    var t := Persisted(now, final, proposals, ClaimHashes(s.revision.graph, base), chosen);
    PersistedParts(now, final, proposals, ClaimHashes(s.revision.graph, base), chosen);
    if Closed(s) {
      QueueInvQueued(s, w, final, concurrency, t);
      if now.revision.graph == s.revision.graph { QueuedFromRun(s, t, base); }
    }
  }

  lemma PersistedParts(s: Record, final: Scheduling.Session, proposals: map<Id, FileMap>,
                       hashes: map<Id, map<Path, Digest>>, chosen: map<Id, string>)
    ensures
      var t := Persisted(s, final, proposals, hashes, chosen);
      && t.revision == s.revision && t.approvedHash == s.approvedHash && t.nodeStates == final.states
      && t.mergeQueue == final.mergeQueue && t.originalHashes == hashes && t.proposals == proposals
      && t.status in {Completed, Unsuccessful}
      && (t.status == Completed <==> AllSucceeded(final.states))
  {
    hide Noted;
    NotedKeeps(s, RecordedNodes(final.states), final.states, chosen);
  }

  lemma QueueInvQueued(s: Record, w: Scheduling.Workload, final: Scheduling.Session, concurrency: nat, t: Record)
    requires Order(TaskGraph.DependencyMap(s.revision.graph)).Some?
        && w == SchedulerSafety.WorkloadOf(s.revision.graph, concurrency)
    requires SchedulerSafety.QueueInv(w, Reloaded(s.nodeStates), final)
    requires t.nodeStates == final.states && t.mergeQueue == final.mergeQueue
    ensures Queued(s, t)
  {
  }

  lemma QueuedFromRun(s: Record, t: Record, files: FileMap)
    requires Queued(s, t) && t.revision.graph == s.revision.graph
    requires t.proposals.Keys == Elements(t.mergeQueue) && t.originalHashes == ClaimHashes(s.revision.graph, files)
    ensures FromRun(t, ContextOf(s.revision.graph, files, t.proposals))
  {
    var c := ContextOf(s.revision.graph, files, t.proposals);
    forall n | n in t.mergeQueue
      ensures n in c.claims && n in t.proposals && n in t.originalHashes
      ensures c.claims[n] == TaskGraph.ById(s.revision.graph.nodes)[n].writePaths
      ensures MergeHistory.Recorded(c, n) <==> Reviewable(t, n)
      ensures t.proposals[n] == c.proposals[n] && t.originalHashes[n] == HashPaths(c.base, c.claims[n])
    {
      QueuedNode(s, t, files, n);
    }
    hide Queued, HashPaths, TaskGraph.ById, ContextOf, ClaimHashes, Reviewable, MergeHistory.Recorded;
  }

  lemma QueuedNode(s: Record, t: Record, files: FileMap, n: Id)
    requires Queued(s, t) && t.revision.graph == s.revision.graph && n in t.mergeQueue
    requires t.proposals.Keys == Elements(t.mergeQueue) && t.originalHashes == ClaimHashes(s.revision.graph, files)
    ensures
      var c := ContextOf(s.revision.graph, files, t.proposals);
      && n in c.claims && n in t.proposals && n in t.originalHashes && n in TaskGraph.ById(s.revision.graph.nodes)
      && c.claims[n] == TaskGraph.ById(s.revision.graph.nodes)[n].writePaths
      && t.proposals[n] == c.proposals[n] && t.originalHashes[n] == HashPaths(c.base, c.claims[n])
      && (MergeHistory.Recorded(c, n) <==> Reviewable(t, n))
  {
    QueuedIsEditor(s, t, n);
    assert n in Elements(t.mergeQueue);
    hide Queued, HashPaths, TaskGraph.ById, AllowedPaths, Elements;
  }

  lemma QueuedIsEditor(s: Record, t: Record, n: Id)
    requires Queued(s, t) && n in t.mergeQueue
    ensures var nodes := TaskGraph.ById(s.revision.graph.nodes);
      n in nodes && nodes[n].Edits()
  {
    hide TaskGraph.ById, DependsOn, Reloaded;
  }

  function AfterReview(s: Record, nodeId: Id, approved: bool, checkpoint: Option<nat>): Record
    requires s.mergeQueue != []
  {
    s.(mergeQueue := s.mergeQueue[1..], outcomes := s.outcomes[nodeId := MergeOutcome(approved, checkpoint)])
  }

  lemma AfterReviewSound(s: Record, nodeId: Id, approved: bool, checkpoint: Option<nat>)
    requires s.mergeQueue != []
    ensures Sound(s) ==> Sound(AfterReview(s, nodeId, approved, checkpoint))
  {
    hide Sound;
    if Sound(s) { SameCoreSound(s, AfterReview(s, nodeId, approved, checkpoint)); }
  }

  function ReviewEvent(approved: bool): string { if approved then "merge_applied" else "merge_rejected" }

  /** What is left of the queue still stems from the same run. */
  lemma AfterReviewFromRun(s: Record, nodeId: Id, approved: bool, checkpoint: Option<nat>, c: MergeHistory.RunContext)
    requires s.mergeQueue != []
    ensures FromRun(s, c) ==> FromRun(AfterReview(s, nodeId, approved, checkpoint), c)
  {
    var t := AfterReview(s, nodeId, approved, checkpoint);
    assert forall n :: n in t.mergeQueue ==> n in s.mergeQueue;
    assert forall n :: Reviewable(t, n) <==> Reviewable(s, n);
    hide HashPaths, MergeHistory.Recorded, Reviewable, TaskGraph.ById;
  }

  function ProposalIn(s: Record, n: Id): MergeQueue.MergeProposal
    requires n in TaskGraph.ById(s.revision.graph.nodes) && n in s.proposals && n in s.originalHashes
  {
    MergeQueue.MergeProposal(n, s.proposals[n], TaskGraph.ById(s.revision.graph.nodes)[n].writePaths,
                             s.originalHashes[n])
  }

  /** How a review of the stored record relates to the step of the recorded run. */
  lemma ReviewCases(s: Record, c: MergeHistory.RunContext, files: FileMap, n: Id, approved: bool, valid: bool)
    requires FromRun(s, c)
    ensures
      var l, e := MergeHistory.Ledger(files, s.mergeQueue), MergeHistory.Review(n, approved, valid);
      var r := MergeHistory.Step(c, l, e);
      if s.mergeQueue == [] || s.mergeQueue[0] != n || n !in TaskGraph.ById(s.revision.graph.nodes)
         || n !in s.proposals || n !in s.originalHashes then r == l
      else
        var p, edits := ProposalIn(s, n), TaskGraph.ById(s.revision.graph.nodes)[n].Edits();
        if !(edits && MergeQueue.ValidProposal(p)) then r == l
        else if !approved then r == l.(queue := s.mergeQueue[1..])
        else if MergeQueue.Passes(files, p, MergeQueue.Default, false, valid)
        then r == MergeHistory.Ledger(MergeQueue.Merged(files, p), s.mergeQueue[1..])
        else r == l
  {
    hide MergeQueue.Passes, MergeQueue.Merged;
    if s.mergeQueue != [] && s.mergeQueue[0] == n {
      assert n in s.mergeQueue;
      if n in TaskGraph.ById(s.revision.graph.nodes) && n in s.proposals && n in s.originalHashes {
        assert MergeHistory.Recorded(c, n) <==> Reviewable(s, n);
        if MergeHistory.Recorded(c, n) {
          assert ProposalIn(s, n) == MergeHistory.ProposalOf(c, n);
        }
      }
    }
  }

  /** The record's queue, proposals and hashes are the ones run `c` recorded for the current graph. */
  ghost predicate FromRun(s: Record, c: MergeHistory.RunContext) {
    && (forall n :: n in s.mergeQueue && n in NodeIds(s.revision.graph) ==>
          n in c.claims && c.claims[n] == TaskGraph.ById(s.revision.graph.nodes)[n].writePaths)
    && (forall n :: n in s.mergeQueue ==> (MergeHistory.Recorded(c, n) <==> Reviewable(s, n)))
    && (forall n :: n in s.mergeQueue && MergeHistory.Recorded(c, n) ==>
          s.proposals[n] == c.proposals[n] && s.originalHashes[n] == HashPaths(c.base, c.claims[n]))
  }

  predicate Reviewable(s: Record, n: Id) {
    var nodes := TaskGraph.ById(s.revision.graph.nodes);
    && n in nodes && n in s.proposals && n in s.originalHashes
    && nodes[n].Edits() && AllowedPaths(nodes[n].writePaths)
  }
}
