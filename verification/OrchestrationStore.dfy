/** The persisted session lifecycle: approval, transitions, revisions, retries and debug controls. */
module SessionStore {
  import opened Prelude
  import opened Dependencies
  import opened Files
  import opened RepoPath
  import Journal = EventJournal
  import Scheduling
  import SchedulerConfluence
  import SchedulerSafety
  import TaskGraph

  type SessionId = string

  datatype Status = AwaitingApproval | Approved | Paused | Active | CancelledSession | Completed | Unsuccessful

  datatype Attempt = Attempt(attempt: nat, status: Scheduling.NodeState, provider: string)

  datatype MergeOutcome = MergeOutcome(approved: bool, checkpoint: Option<nat>)

  /** The dictionary written to session.json. */
  datatype Record = Record(
    status: Status,
    approvedHash: Option<TaskGraph.RevisionHash>,
    revision: TaskGraph.GraphRevision,
    nodeStates: Scheduling.States,
    attempts: map<Id, seq<Attempt>>,
    overrides: map<Id, string>,
    breakpoints: set<Id>,
    stepRequested: bool,
    mergeQueue: seq<Id>,
    proposals: map<Id, FileMap>,
    originalHashes: map<Id, map<Path, Digest>>,
    outcomes: map<Id, MergeOutcome>)

  datatype StoreError =
    | UnknownSession
    | HashMismatch
    | InvalidTransition
    | NotApproved
    | TerminalSession
    | InvalidStatus
    | UnknownNode(node: Id)
    | NotRetryable(node: Id)
    | ProviderNotAllowed(provider: string)
    | JournalUnreadable

  datatype DebugAction = Break(node: Id) | ClearBreak(node: Id) | StepAction

  datatype Operation =
    | Approve(hash: TaskGraph.RevisionHash)
    | Transition(status: Status)
    | Revise(graph: TaskGraph.TaskGraph, reason: string)
    | RecordAttempt(node: Id, state: Scheduling.NodeState, provider: string)
    | Retry(node: Id, provider: string)
    | Debug(action: DebugAction)

  /** The type of the event an operation journals. */
  function EventOf(op: Operation): string {
    match op
    case Approve(_) => "graph_approved"
    case Transition(status) =>
      if status == Paused then "orchestration_paused"
      else if status == Active then "orchestration_running"
      else "orchestration_cancelled"
    case Revise(_, _) => "graph_revised"
    case RecordAttempt(_, _, _) => "node_attempt_recorded"
    case Retry(_, _) => "node_retry_requested"
    case Debug(action) =>
      match action
      case Break(_) => "orchestration_break"
      case ClearBreak(_) => "orchestration_clear_break"
      case StepAction => "orchestration_step"
  }

  function NodeIds(g: TaskGraph.TaskGraph): set<Id> {
    TaskGraph.ById(g.nodes).Keys
  }

  function Create(graph: TaskGraph.TaskGraph): Record {
    Record(
      AwaitingApproval, None, TaskGraph.GraphRevision(1, graph, None, "initial proposal"),
      map n | n in NodeIds(graph) :: Scheduling.Pending,
      map n | n in NodeIds(graph) :: [],
      map[], {}, false, [], map[], map[], map[])
  }

  /** A record nothing has happened to: a first revision that awaits approval, every node pending, nothing else. */
  predicate Unstarted(s: Record, graph: TaskGraph.TaskGraph) {
    && s.status == AwaitingApproval && s.approvedHash == None
    && s.revision.revision == 1 && s.revision.graph == graph && s.revision.parentHash == None
    && s.nodeStates.Keys == s.attempts.Keys == NodeIds(graph)
    && (forall n :: n in s.nodeStates ==> s.nodeStates[n] == Scheduling.Pending)
    && (forall n :: n in s.attempts ==> s.attempts[n] == [])
    && s.overrides == map[] && s.breakpoints == {} && !s.stepRequested
    && s.mergeQueue == [] && s.proposals == map[] && s.originalHashes == map[] && s.outcomes == map[]
  }

  lemma CreateUnstarted(graph: TaskGraph.TaskGraph)
    ensures Unstarted(Create(graph), graph)
  {
  }

  // ---- what each operation does to the record ----

  function ReviseRecord(s: Record, graph: TaskGraph.TaskGraph, reason: string): Record
    requires s.revision.WellFormed()
  {
    s.(status := AwaitingApproval,
       approvedHash := None,
       revision := s.revision.Revise(graph, reason),
       nodeStates := map n | n in NodeIds(graph) :: if n in s.nodeStates then s.nodeStates[n] else Scheduling.Pending,
       attempts := map n | n in NodeIds(graph) :: if n in s.attempts then s.attempts[n] else [])
  }

  /** The retried node and its blocked descendants become pending. */
  ghost function RetryStates(m: DepMap, st: Scheduling.States, node: Id): Scheduling.States {
    map n | n in st ::
      if n == node || (st[n] == Scheduling.Blocked && DependsOn(m, n, node)) then Scheduling.Pending else st[n]
  }

  function AttemptsOf(s: Record, node: Id): seq<Attempt> {
    if node in s.attempts then s.attempts[node] else []
  }

  function ApproveRecord(s: Record, hash: TaskGraph.RevisionHash): Result<Record, StoreError> {
    if hash != s.revision.Hash() then Failure(HashMismatch)
    else Success(s.(status := Approved, approvedHash := Some(hash)))
  }

  function TransitionRecord(s: Record, status: Status): Result<Record, StoreError> {
    if status !in {Paused, Active, CancelledSession} then Failure(InvalidTransition)
    else if status == Active && s.approvedHash != Some(s.revision.Hash()) then Failure(NotApproved)
    else if s.status == CancelledSession then Failure(TerminalSession)
    else Success(s.(status := status))
  }

  /** Attempts of a node are numbered from one; the node takes the attempt's state. */
  function AppendAttempt(s: Record, node: Id, state: Scheduling.NodeState, provider: string): Record {
    var attempts := AttemptsOf(s, node);
    s.(attempts := s.attempts[node := attempts + [Attempt(|attempts| + 1, state, provider)]],
       nodeStates := s.nodeStates[node := state])
  }

  function AttemptRecord(s: Record, node: Id, state: Scheduling.NodeState, provider: string)
    : Result<Record, StoreError>
  {
    if state == Scheduling.Pending || state == Scheduling.Blocked then Failure(InvalidStatus)
    else if node !in s.nodeStates then Failure(UnknownNode(node))
    else Success(AppendAttempt(s, node, state, provider))
  }

  ghost function RetryRecord(s: Record, node: Id, provider: string): Result<Record, StoreError> {
    if node !in s.nodeStates then Failure(UnknownNode(node))
    else if !Scheduling.Bad(s.nodeStates[node]) then Failure(NotRetryable(node))
    else if provider != "" && !ProviderAllowed(s.revision.graph, node, provider) then
      Failure(ProviderNotAllowed(provider))
    else Success(s.(
      nodeStates := RetryStates(TaskGraph.DependencyMap(s.revision.graph), s.nodeStates, node),
      overrides := if provider != "" then s.overrides[node := provider] else s.overrides))
  }

  function DebugRecord(s: Record, action: DebugAction): Result<Record, StoreError> {
    match action
    case Break(node) =>
      if node !in s.nodeStates then Failure(UnknownNode(node))
      else Success(s.(breakpoints := s.breakpoints + {node}))
    case ClearBreak(node) => Success(s.(breakpoints := s.breakpoints - {node}))
    case StepAction => Success(s.(stepRequested := true, status := Active))
  }

  ghost function Apply(s: Record, op: Operation): Result<Record, StoreError>
    requires s.revision.WellFormed()
  {
    match op
    case Approve(hash) => ApproveRecord(s, hash)
    case Transition(status) => TransitionRecord(s, status)
    case Revise(graph, reason) => Success(ReviseRecord(s, graph, reason))
    case RecordAttempt(node, state, provider) => AttemptRecord(s, node, state, provider)
    case Retry(node, provider) => RetryRecord(s, node, provider)
    case Debug(action) => DebugRecord(s, action)
  }

  predicate ProviderAllowed(g: TaskGraph.TaskGraph, node: Id, provider: string) {
    var nodes := TaskGraph.ById(g.nodes);
    node in nodes && provider in nodes[node].policy.providers
  }

  /** The record after an operation; one that raises changes nothing. */
  ghost function After(s: Record, op: Operation): Record
    requires s.revision.WellFormed()
  {
    match Apply(s, op)
    case Success(r) => r
    case Failure(_) => s
  }

  // ---- the store object ----

  type EventLog = seq<Journal.JournalEvent>

  /** Everything the store keeps on disk: session.json and events.jsonl of every session. */
  datatype Disk = Disk(sessions: map<SessionId, Record>, journals: map<SessionId, EventLog>)

  /** The log after an event of the store, which opens a journal of its own for it; an unreadable file stays. */
  function Logged(log: EventLog, id: SessionId, eventType: string): EventLog {
    if Journal.Readable(log, id) then log + [Journal.JournalEvent(|log| + 1, id, eventType)] else log
  }

  class OrchestrationStore {
    var sessions: map<SessionId, Record>
    var journals: map<SessionId, EventLog>

    constructor ()
      ensures sessions == map[] && journals == map[] && Valid()
    {
      sessions, journals := map[], map[];
    }

    ghost function OnDisk(): Disk
      reads this
    {
      Disk(sessions, journals)
    }

    ghost predicate Valid()
      reads this
    {
      journals.Keys == sessions.Keys && AllSound(sessions)
    }

    method CreateSession(id: SessionId, graph: TaskGraph.TaskGraph)
      requires Valid() && TaskGraph.ValidGraph(graph) && id !in sessions
      modifies this
      ensures Valid() && sessions == old(sessions)[id := Create(graph)]
      ensures journals == old(journals)[id := [Journal.JournalEvent(1, id, "graph_proposed")]]
      ensures Unstarted(sessions[id], graph)
    {
      CreateSound(graph);
      CreateUnstarted(graph);
      hide *;
      Insert(id, Create(graph));
    }

    method Insert(id: SessionId, state: Record)
      requires Valid() && Sound(state) && id !in sessions
      modifies this
      ensures Valid() && sessions == old(sessions)[id := state]
      ensures journals == old(journals)[id := [Journal.JournalEvent(1, id, "graph_proposed")]]
    {
      hide Sound, AllSound, Journal.Readable, Logged;
      WithSound(sessions, id, state);
      FirstEvent(journals, id, "graph_proposed");
      journals, sessions := journals[id := []], sessions[id := state];
      var _ := AppendEvent(id, "graph_proposed");
    }

    /** `self.journal(session_id).append(...)`: the journal is read back, and the event appended at its end. */
    method AppendEvent(id: SessionId, eventType: string) returns (ok: bool)
      requires id in journals
      modifies this`journals
      ensures ok <==> Journal.Readable(old(journals)[id], id)
      ensures journals == old(journals)[id := Logged(old(journals)[id], id, eventType)]
    {
      var file := new Journal.JournalFile();
      file.events := journals[id];
      var journal := Journal.Open(file, id);
      if journal.Failure? {
        return false;
      }
      var _ := journal.value.Append(eventType);
      journals := journals[id := file.events];
      return true;
    }

    /** Every operation writes the record first and journals it then; an unreadable journal raises in between. */
    method WriteAndLog(id: SessionId, state: Record, eventType: string) returns (r: Result<(), StoreError>)
      requires id in journals
      modifies this
      ensures Performed(old(OnDisk()), OnDisk(), id, eventType, Success(state), r)
      ensures old(Valid()) && Sound(state) ==> Valid()
      ensures old(AllSound(sessions)) && Sound(state) ==> AllSound(sessions)
      ensures old(journals.Keys == sessions.Keys) ==> journals.Keys == sessions.Keys
    {
      hide Sound;
      sessions := sessions[id := state];
      var ok := AppendEvent(id, eventType);
      return if ok then Success(()) else Failure(JournalUnreadable);
    }

    method ApproveSession(id: SessionId, hash: TaskGraph.RevisionHash) returns (r: Result<(), StoreError>)
      requires Valid()
      modifies this
      ensures Valid()
      ensures id !in old(sessions) ==> r.Failure? && OnDisk() == old(OnDisk())
      ensures id in old(sessions) ==>
        Performed(old(OnDisk()), OnDisk(), id, EventOf(Approve(hash)), ApproveRecord(old(sessions)[id], hash), r)
    {
      if id !in sessions { return Failure(UnknownSession); }
      var state := sessions[id];
      SoundFacts(state);
      hide Sound, TaskGraph.ValidGraph, RetryStates, AllSound, Performed;
      if hash != state.revision.Hash() {
        Refusal(OnDisk(), id, EventOf(Approve(hash)), HashMismatch);
        return Failure(HashMismatch);
      }
      state := state.(status := Approved, approvedHash := Some(hash));
      SameCoreSound(sessions[id], state);
      r := WriteAndLog(id, state, EventOf(Approve(hash)));
    }

    method TransitionSession(id: SessionId, status: Status) returns (r: Result<(), StoreError>)
      requires Valid()
      modifies this
      ensures Valid()
      ensures id !in old(sessions) ==> r.Failure? && OnDisk() == old(OnDisk())
      ensures id in old(sessions) ==>
        Performed(old(OnDisk()), OnDisk(), id, EventOf(Transition(status)),
                  TransitionRecord(old(sessions)[id], status), r)
    {
      if status != Paused && status != Active && status != CancelledSession {
        Refusal(OnDisk(), id, EventOf(Transition(status)), InvalidTransition);
        return Failure(InvalidTransition);
      }
      if id !in sessions { return Failure(UnknownSession); }
      var state := sessions[id];
      SoundFacts(state);
      hide Sound, TaskGraph.ValidGraph, RetryStates, AllSound, Performed;
      if status == Active && state.approvedHash != Some(state.revision.Hash()) {
        Refusal(OnDisk(), id, EventOf(Transition(status)), NotApproved);
        return Failure(NotApproved);
      }
      if state.status == CancelledSession {
        Refusal(OnDisk(), id, EventOf(Transition(status)), TerminalSession);
        return Failure(TerminalSession);
      }
      state := state.(status := status);
      SameCoreSound(sessions[id], state);
      r := WriteAndLog(id, state, EventOf(Transition(status)));
    }

    method ReviseSession(id: SessionId, graph: TaskGraph.TaskGraph, reason: string) returns (r: Result<(), StoreError>)
      requires Valid() && TaskGraph.ValidGraph(graph)
      modifies this
      ensures Valid()
      ensures id !in old(sessions) ==> r.Failure? && OnDisk() == old(OnDisk())
      ensures id in old(sessions) ==>
        Performed(old(OnDisk()), OnDisk(), id, EventOf(Revise(graph, reason)),
                  Success(ReviseRecord(old(sessions)[id], graph, reason)), r)
    {
      if id !in sessions { return Failure(UnknownSession); }
      var state := sessions[id];
      SoundFacts(state);
      hide Sound, TaskGraph.ValidGraph, RetryStates, AllSound, Performed;
      ReviseSound(state, graph, reason);
      r := WriteAndLog(id, ReviseRecord(state, graph, reason), EventOf(Revise(graph, reason)));
    }

    /** Needs no sound record: a run writes its attempts into whatever the session has become. */
    method RecordNodeAttempt(id: SessionId, node: Id, status: Scheduling.NodeState, provider: string)
      returns (r: Result<(), StoreError>)
      requires journals.Keys == sessions.Keys
      modifies this
      ensures old(AllSound(sessions)) ==> AllSound(sessions)
      ensures journals.Keys == sessions.Keys
      ensures id !in old(sessions) ==> r.Failure? && OnDisk() == old(OnDisk())
      ensures id in old(sessions) ==>
        Performed(old(OnDisk()), OnDisk(), id, EventOf(RecordAttempt(node, status, provider)),
                  AttemptRecord(old(sessions)[id], node, status, provider), r)
    {
      if status == Scheduling.Pending || status == Scheduling.Blocked { return Failure(InvalidStatus); }
      if id !in sessions { return Failure(UnknownSession); }
      var state := sessions[id];
      if AllSound(sessions) { AttemptSound(state, node, status, provider); }
      hide Sound, TaskGraph.ValidGraph, RetryStates, AllSound, Performed;
      AttemptCases(state, node, status, provider);
      hide AttemptRecord, AppendAttempt, Linked;
      if node !in state.nodeStates {
        Refusal(OnDisk(), id, EventOf(RecordAttempt(node, status, provider)), UnknownNode(node));
        return Failure(UnknownNode(node));
      }
      r := WriteAndLog(id, AppendAttempt(state, node, status, provider),
                       EventOf(RecordAttempt(node, status, provider)));
    }

    /** Make a failed, blocked or cancelled node pending again, and with it the blocked nodes that depend on it. */
    method RetryNode(id: SessionId, node: Id, provider: string) returns (r: Result<(), StoreError>)
      requires Valid()
      modifies this
      ensures Valid()
      ensures id !in old(sessions) ==> r.Failure? && OnDisk() == old(OnDisk())
      ensures id in old(sessions) ==>
        Performed(old(OnDisk()), OnDisk(), id, EventOf(Retry(node, provider)),
                  RetryRecord(old(sessions)[id], node, provider), r)
    {
      if id !in sessions { return Failure(UnknownSession); }
      var state := sessions[id];
      SoundFacts(state);
      hide Sound, TaskGraph.ValidGraph, RetryStates, AllSound, Performed;
      RetrySound(state, node, provider);
      if node !in state.nodeStates {
        Refusal(OnDisk(), id, EventOf(Retry(node, provider)), UnknownNode(node));
        return Failure(UnknownNode(node));
      }
      if !Scheduling.Bad(state.nodeStates[node]) {
        Refusal(OnDisk(), id, EventOf(Retry(node, provider)), NotRetryable(node));
        return Failure(NotRetryable(node));
      }
      var overrides := state.overrides;
      if provider != "" {
        if !ProviderAllowed(state.revision.graph, node, provider) {
          Refusal(OnDisk(), id, EventOf(Retry(node, provider)), ProviderNotAllowed(provider));
          return Failure(ProviderNotAllowed(provider));
        }
        overrides := overrides[node := provider];
      }
      var states := Unblock(state.revision.graph, state.nodeStates, node);
      r := WriteAndLog(id, state.(nodeStates := states, overrides := overrides), EventOf(Retry(node, provider)));
    }

    method DebugControl(id: SessionId, action: DebugAction) returns (r: Result<(), StoreError>)
      requires Valid()
      modifies this
      ensures Valid()
      ensures id !in old(sessions) ==> r.Failure? && OnDisk() == old(OnDisk())
      ensures id in old(sessions) ==>
        Performed(old(OnDisk()), OnDisk(), id, EventOf(Debug(action)), DebugRecord(old(sessions)[id], action), r)
    {
      if id !in sessions { return Failure(UnknownSession); }
      var state := sessions[id];
      SoundFacts(state);
      hide Sound, TaskGraph.ValidGraph, RetryStates, AllSound, Performed;
      DebugSound(state, action);
      match action {
        case Break(node) =>
          if node !in state.nodeStates {
            Refusal(OnDisk(), id, EventOf(Debug(action)), UnknownNode(node));
            return Failure(UnknownNode(node));
          }
          state := state.(breakpoints := state.breakpoints + {node});
        case ClearBreak(node) =>
          state := state.(breakpoints := state.breakpoints - {node});
        case StepAction =>
          state := state.(stepRequested := true, status := Active);
      }
      r := WriteAndLog(id, state, EventOf(Debug(action)));
    }
  }

  /** The loop of `retry` over the graph's nodes. */
  method Unblock(g: TaskGraph.TaskGraph, st: Scheduling.States, node: Id) returns (states: Scheduling.States)
    requires TaskGraph.ValidGraph(g) && node in st && st.Keys == NodeIds(g)
    ensures states == RetryStates(TaskGraph.DependencyMap(g), st, node)
  {
    hide *;
    ghost var m := TaskGraph.DependencyMap(g);
    UnblockEnds(g, m, st, node);
    states := st[node := Scheduling.Pending];
    for i := 0 to |g.nodes|
      invariant states == UnblockedUpTo(m, st, node, VisitedIds(g, i))
    {
      var candidate := g.nodes[i].nodeId;
      NodeAt(g, i);
      NextVisited(g, i);
      UnblockStep(m, st, node, VisitedIds(g, i), candidate);
      states := UnblockOne(g, states, candidate, node);
    }
    AllVisited(g);
  }

  method UnblockOne(g: TaskGraph.TaskGraph, states: Scheduling.States, candidate: Id, node: Id)
    returns (next: Scheduling.States)
    requires Known(TaskGraph.DependencyMap(g)) && candidate in TaskGraph.DependencyMap(g) && candidate in states
    ensures next == if DependsOn(TaskGraph.DependencyMap(g), candidate, node) && states[candidate] == Scheduling.Blocked
                    then states[candidate := Scheduling.Pending] else states
  {
    var depends := TaskGraph.FindDependency(g, candidate, node);
    next :=
      if depends && states[candidate] == Scheduling.Blocked then states[candidate := Scheduling.Pending] else states;
  }

  lemma NodeAt(g: TaskGraph.TaskGraph, i: nat)
    requires TaskGraph.ValidGraph(g) && i < |g.nodes|
    ensures g.nodes[i].nodeId in NodeIds(g) && g.nodes[i].nodeId in TaskGraph.DependencyMap(g)
    ensures Known(TaskGraph.DependencyMap(g))
  {
    assert g.nodes[i] in g.nodes;
  }

  lemma UnblockEnds(g: TaskGraph.TaskGraph, m: DepMap, st: Scheduling.States, node: Id)
    requires node in st && st.Keys == NodeIds(g)
    ensures st[node := Scheduling.Pending] == UnblockedUpTo(m, st, node, VisitedIds(g, 0))
    ensures UnblockedUpTo(m, st, node, NodeIds(g)) == RetryStates(m, st, node)
  {
    assert VisitedIds(g, 0) == {};
    hide *;
    UnblockedNone(m, st, node);
    UnblockedAll(m, st, node, NodeIds(g));
  }

  lemma UnblockedNone(m: DepMap, st: Scheduling.States, node: Id)
    requires node in st
    ensures UnblockedUpTo(m, st, node, {}) == st[node := Scheduling.Pending]
  {
    hide DependsOn;
  }

  lemma UnblockedAll(m: DepMap, st: Scheduling.States, node: Id, ids: set<Id>)
    requires st.Keys <= ids
    ensures UnblockedUpTo(m, st, node, ids) == RetryStates(m, st, node)
  {
    hide DependsOn;
  }

  lemma UnblockStep(m: DepMap, st: Scheduling.States, node: Id, visited: set<Id>, candidate: Id)
    requires candidate in st
    ensures
      var before, after := UnblockedUpTo(m, st, node, visited), UnblockedUpTo(m, st, node, visited + {candidate});
      candidate in before && after == if DependsOn(m, candidate, node) && before[candidate] == Scheduling.Blocked
               then before[candidate := Scheduling.Pending] else before
  {
    hide DependsOn;
  }

  /** The retried node and its blocked descendants among those already visited are pending. */
  ghost function UnblockedUpTo(m: DepMap, st: Scheduling.States, node: Id, visited: set<Id>): Scheduling.States {
    map n | n in st ::
      if n == node || (n in visited && st[n] == Scheduling.Blocked && DependsOn(m, n, node))
      then Scheduling.Pending else st[n]
  }

  /** The ids of the first `i` nodes of the tuple. */
  function VisitedIds(g: TaskGraph.TaskGraph, i: nat): set<Id>
    requires i <= |g.nodes|
  {
    set j | 0 <= j < i :: g.nodes[j].nodeId
  }

  lemma NextVisited(g: TaskGraph.TaskGraph, i: nat)
    requires i < |g.nodes|
    ensures VisitedIds(g, i + 1) == VisitedIds(g, i) + {g.nodes[i].nodeId}
  {
  }

  lemma AllVisited(g: TaskGraph.TaskGraph)
    ensures VisitedIds(g, |g.nodes|) == NodeIds(g)
  {
    var nodes := TaskGraph.ById(g.nodes);
    forall n | n in nodes ensures n in VisitedIds(g, |g.nodes|) {
      var j :| 0 <= j < |g.nodes| && g.nodes[j] == nodes[n];
    }
  }

  /**
   * A refused operation changes nothing. Any other writes its record and journals it; over an unreadable journal it
   * raises then, with the record written.
   */
  ghost predicate Performed(before: Disk, after: Disk, id: SessionId, eventType: string,
                            outcome: Result<Record, StoreError>, r: Result<(), StoreError>)
    requires id in before.journals
  {
    match outcome
    case Success(s) =>
      && after.sessions == before.sessions[id := s]
      && after.journals == before.journals[id := Logged(before.journals[id], id, eventType)]
      && r == if Journal.Readable(before.journals[id], id) then Success(()) else Failure(JournalUnreadable)
    case Failure(e) => r == Failure(e) && after == before
  }

  lemma Refusal(d: Disk, id: SessionId, eventType: string, error: StoreError)
    ensures id in d.journals ==> Performed(d, d, id, eventType, Failure(error), Failure(error))
  {
  }

  lemma FirstEvent(journals: map<SessionId, EventLog>, id: SessionId, eventType: string)
    ensures Journal.Readable([], id) && Logged([], id, eventType) == [Journal.JournalEvent(1, id, eventType)]
    ensures journals[id := []][id := Logged([], id, eventType)]
        == journals[id := [Journal.JournalEvent(1, id, eventType)]]
  {
  }

  lemma LoggedReadable(log: EventLog, id: SessionId, eventType: string)
    ensures Journal.Readable(Logged(log, id, eventType), id) <==> Journal.Readable(log, id)
  {
    Journal.AppendReadable(log, Journal.JournalEvent(|log| + 1, id, eventType), id);
  }

  // ---- the lifecycle invariant ----

  /** The chain of parent hashes counts down to the first revision. */
  predicate Linked(h: TaskGraph.RevisionHash) {
    match h.parentHash
    case None => h.revision == 1
    case Some(parent) => parent.revision == h.revision - 1 && Linked(parent)
  }

  ghost predicate Sound(s: Record) {
    && s.revision.WellFormed()
    && Linked(s.revision.Hash())
    && TaskGraph.ValidGraph(s.revision.graph)
    && s.nodeStates.Keys == NodeIds(s.revision.graph)
    && (s.approvedHash.Some? ==> s.approvedHash == Some(s.revision.Hash()))
  }

  ghost predicate AllSound(sessions: map<SessionId, Record>) {
    forall id :: id in sessions ==> Sound(sessions[id])
  }

  lemma WithSound(sessions: map<SessionId, Record>, id: SessionId, s: Record)
    requires AllSound(sessions) && Sound(s)
    ensures AllSound(sessions[id := s])
  {
    hide Sound;
  }

  ghost predicate ValidOperation(op: Operation) {
    op.Revise? ==> TaskGraph.ValidGraph(op.graph)
  }

  lemma CreateSound(graph: TaskGraph.TaskGraph)
    requires TaskGraph.ValidGraph(graph)
    ensures Sound(Create(graph))
  {
  }

  /** Fields the lifecycle does not constrain may change freely. */
  lemma SameCoreSound(s: Record, t: Record)
    requires Sound(s) && t.revision == s.revision && t.nodeStates.Keys == s.nodeStates.Keys
    requires t.approvedHash == s.approvedHash || t.approvedHash == Some(s.revision.Hash())
    ensures Sound(t)
  {
    hide TaskGraph.ValidGraph, Linked;
  }

  lemma ReviseSound(s: Record, graph: TaskGraph.TaskGraph, reason: string)
    requires Sound(s) && TaskGraph.ValidGraph(graph)
    ensures Sound(ReviseRecord(s, graph, reason))
  {
    hide TaskGraph.ValidGraph;
    var next := s.revision.Revise(graph, reason);
    assert Linked(next.Hash());
    assert ReviseRecord(s, graph, reason).nodeStates.Keys == NodeIds(graph);
  }

  /** Every operation keeps the lifecycle invariant and either keeps the revision or appends the next one. */
  lemma ApplySound(s: Record, op: Operation)
    requires Sound(s) && ValidOperation(op)
    ensures Sound(After(s, op))
    ensures After(s, op).revision == s.revision ||
      (After(s, op).revision.revision == s.revision.revision + 1
       && After(s, op).revision.parentHash == Some(s.revision.Hash()))
  {
    hide TaskGraph.ValidGraph, Linked, Sound, RetryStates;
    SoundFacts(s);
    match op
    case Revise(graph, reason) => ReviseSound(s, graph, reason);
    case Approve(hash) => if ApproveRecord(s, hash).Success? { SameCoreSound(s, ApproveRecord(s, hash).value); }
    case Transition(status) =>
      if TransitionRecord(s, status).Success? { SameCoreSound(s, TransitionRecord(s, status).value); }
    case RecordAttempt(node, state, provider) => AttemptSound(s, node, state, provider);
    case Retry(node, provider) => RetrySound(s, node, provider);
    case Debug(action) => DebugSound(s, action);
  }

  lemma DebugSound(s: Record, action: DebugAction)
    requires Sound(s)
    ensures DebugRecord(s, action).Success? ==>
      Sound(DebugRecord(s, action).value) && DebugRecord(s, action).value.revision == s.revision
  {
    hide Sound;
    match action
    case Break(node) => if node in s.nodeStates { SameCoreSound(s, DebugRecord(s, action).value); }
    case ClearBreak(_) => SameCoreSound(s, DebugRecord(s, action).value);
    case StepAction => SameCoreSound(s, DebugRecord(s, action).value);
  }

  lemma AttemptSound(s: Record, node: Id, state: Scheduling.NodeState, provider: string)
    requires Sound(s)
    ensures AttemptRecord(s, node, state, provider).Success? ==>
      Sound(AttemptRecord(s, node, state, provider).value)
          && AttemptRecord(s, node, state, provider).value.revision == s.revision
  {
    hide Sound;
    var r := AttemptRecord(s, node, state, provider);
    if r.Success? {
      assert r.value.nodeStates.Keys == s.nodeStates.Keys;
      SameCoreSound(s, r.value);
    }
  }

  lemma AttemptCases(s: Record, node: Id, state: Scheduling.NodeState, provider: string)
    requires state != Scheduling.Pending && state != Scheduling.Blocked
    ensures AttemptRecord(s, node, state, provider) ==
      if node in s.nodeStates then Success(AppendAttempt(s, node, state, provider)) else Failure(UnknownNode(node))
  {
    hide AppendAttempt;
  }

  lemma RetrySound(s: Record, node: Id, provider: string)
    requires Sound(s)
    ensures RetryRecord(s, node, provider).Success? ==>
      Sound(RetryRecord(s, node, provider).value) && RetryRecord(s, node, provider).value.revision == s.revision
  {
    RetryShape(TaskGraph.DependencyMap(s.revision.graph), s.nodeStates, node);
    hide Sound, RetryStates;
    var r := RetryRecord(s, node, provider);
    if r.Success? { SameCoreSound(s, r.value); }
  }

  lemma SoundFacts(s: Record)
    requires Sound(s)
    ensures s.revision.WellFormed() && Linked(s.revision.Hash())
    ensures s.approvedHash.Some? ==> s.approvedHash == Some(s.revision.Hash())
    ensures TaskGraph.ValidGraph(s.revision.graph) && s.nodeStates.Keys == NodeIds(s.revision.graph)
  {
  }

  lemma RetryShape(m: DepMap, st: Scheduling.States, node: Id)
    ensures RetryStates(m, st, node).Keys == st.Keys
  {
  }

  ghost function Lifecycle(s: Record, ops: seq<Operation>): (r: Record)
    requires Sound(s) && forall i :: 0 <= i < |ops| ==> ValidOperation(ops[i])
    ensures Sound(r)
  {
    if |ops| == 0 then s
    else
      var before := Lifecycle(s, ops[..|ops| - 1]);
      ApplySound(before, ops[|ops| - 1]);
      After(before, ops[|ops| - 1])
  }

  /** Approval is always of the current revision, and was given after the last revision. */
  lemma {:induction false} ApprovalIsCurrent(s: Record, ops: seq<Operation>)
    requires Sound(s) && s.approvedHash == None && forall i :: 0 <= i < |ops| ==> ValidOperation(ops[i])
    ensures
      var t := Lifecycle(s, ops);
      && Linked(t.revision.Hash())
      && (t.approvedHash.Some? ==> t.approvedHash == Some(t.revision.Hash()) && ApprovedSince(ops, t.revision.Hash()))
  {
    hide Sound, TaskGraph.ValidGraph, Linked;
    SoundFacts(Lifecycle(s, ops));
    if |ops| > 0 {
      var before, op := ops[..|ops| - 1], ops[|ops| - 1];
      ApprovalIsCurrent(s, before);
      SoundFacts(Lifecycle(s, before));
      ApprovalStep(Lifecycle(s, before), before, op);
      assert ops == before + [op];
    }
  }

  lemma ApprovalStep(s: Record, before: seq<Operation>, op: Operation)
    requires s.revision.WellFormed()
    requires s.approvedHash.Some? ==> ApprovedSince(before, s.revision.Hash())
    ensures
      var t := After(s, op);
      t.approvedHash.Some? ==> ApprovedSince(before + [op], t.revision.Hash())
  {
    hide RetryStates, ApprovedSince;
    var hash := s.revision.Hash();
    if op == Approve(hash) {
      ApprovedAt(before + [op], hash, |before|);
    } else if s.approvedHash.Some? && !op.Revise? {
      ApprovedStill(before, op, hash);
    }
  }

  lemma ApprovedStill(before: seq<Operation>, op: Operation, hash: TaskGraph.RevisionHash)
    requires ApprovedSince(before, hash) && !op.Revise?
    ensures ApprovedSince(before + [op], hash)
  {
    var i :| 0 <= i < |before| && before[i] == Approve(hash) && forall j :: i < j < |before| ==> !before[j].Revise?;
    ApprovedAt(before + [op], hash, i);
  }

  /** Some operation approved this hash and no later one revised the graph. */
  ghost predicate ApprovedSince(ops: seq<Operation>, hash: TaskGraph.RevisionHash) {
    exists i :: 0 <= i < |ops| && ops[i] == Approve(hash) && forall j :: i < j < |ops| ==> !ops[j].Revise?
  }

  lemma ApprovedAt(ops: seq<Operation>, hash: TaskGraph.RevisionHash, i: nat)
    requires i < |ops| && ops[i] == Approve(hash) && forall j :: i < j < |ops| ==> !ops[j].Revise?
    ensures ApprovedSince(ops, hash)
  {
  }

  /** Of the store's operations, a matching approval, a revision and a step leave a cancelled session, and no other. */
  lemma CancelledIsNotTerminal(s: Record, op: Operation)
    requires s.revision.WellFormed() && s.status == CancelledSession
    ensures After(s, op).status != CancelledSession <==>
      op == Approve(s.revision.Hash()) || op.Revise? || op == Debug(StepAction)
  {
    hide RetryStates;
    match op
    case Debug(action) => match action { case StepAction => case Break(_) => case ClearBreak(_) => }
    case _ =>
  }

  // ---- dependency facts about the node states ----

  /** Every blocked node has a failed, blocked or cancelled dependency. */
  predicate BlockedJustified(m: DepMap, st: Scheduling.States) {
    forall n :: n in st && n in m && st[n] == Scheduling.Blocked ==>
      exists d :: d in m[n] && d in st && Scheduling.Bad(st[d])
  }

  /** `retry` keeps both facts. */
  lemma RetryKeeps(m: DepMap, st: Scheduling.States, node: Id)
    requires Known(m) && st.Keys == m.Keys && node in st && Scheduling.Bad(st[node])
    requires BlockedJustified(m, st) && Scheduling.ClosedStates(m, st)
    ensures BlockedJustified(m, RetryStates(m, st, node)) && Scheduling.ClosedStates(m, RetryStates(m, st, node))
  {
    var after := RetryStates(m, st, node);
    forall n | n in after && after[n] == Scheduling.Blocked
      ensures exists d :: d in m[n] && d in after && Scheduling.Bad(after[d])
    {
      assert st[n] == Scheduling.Blocked && !DependsOn(m, n, node);
      var d :| d in m[n] && d in st && Scheduling.Bad(st[d]);
      DependsOnDirect(m, n, d);
      if d != node && DependsOn(m, d, node) { DependsOnTransitive(m, n, d, node); }
      assert after[d] == st[d];
    }
  }

  /** The node has a failed or cancelled ancestor besides the retried one. */
  ghost predicate OtherCause(m: DepMap, st: Scheduling.States, n: Id, node: Id) {
    exists a :: a in st && a != node && DependsOn(m, n, a) && st[a] in {Scheduling.Failed, Scheduling.Cancelled}
  }

  /** The reset the source's comment describes: of the descendants, those blocked solely by the retried node. */
  ghost function SolelyBlockedStates(m: DepMap, st: Scheduling.States, node: Id): Scheduling.States {
    map n | n in st ::
      if n == node || (st[n] == Scheduling.Blocked && DependsOn(m, n, node) && !OtherCause(m, st, n, node))
      then Scheduling.Pending else st[n]
  }

  /** `retry` does what its comment says exactly when no blocked descendant has another failed or cancelled ancestor. */
  lemma RetryIsSoleIff(m: DepMap, st: Scheduling.States, node: Id)
    ensures RetryStates(m, st, node) == SolelyBlockedStates(m, st, node) <==>
      forall n :: n in st && n != node && st[n] == Scheduling.Blocked && DependsOn(m, n, node) ==>
          !OtherCause(m, st, n, node)
  {
    hide DependsOn, OtherCause;
    var all, sole := RetryStates(m, st, node), SolelyBlockedStates(m, st, node);
    if all == sole {
      forall n | n in st && n != node && st[n] == Scheduling.Blocked && DependsOn(m, n, node)
        ensures !OtherCause(m, st, n, node)
      {
        assert all[n] == sole[n];
      }
    }
  }

  /** A reset node with another cause is blocked again by the next run that returns without a cancel. */
  lemma OtherCauseBlocksAgain(w: Scheduling.Workload, st: Scheduling.States, node: Id, n: Id, good: set<Id>,
                              final: Scheduling.States)
    requires Scheduling.ValidWorkload(w) && st.Keys == w.deps.Keys && Scheduling.ClosedStates(w.deps, st)
    requires n in st && n != node && st[n] == Scheduling.Blocked && DependsOn(w.deps, n, node)
    requires OtherCause(w.deps, st, n, node)
    requires node in st && Scheduling.Bad(st[node]) && BlockedJustified(w.deps, st)
    requires SchedulerSafety.ValidStart(w, st)
    requires SchedulerConfluence.Verdict(w, RetryStates(w.deps, st, node), good, final)
    ensures RetryStates(w.deps, st, node)[n] == Scheduling.Pending && final[n] == Scheduling.Blocked
  {
    var a :| a in st && a != node && DependsOn(w.deps, n, a) && st[a] in {Scheduling.Failed, Scheduling.Cancelled};
    RetryKeeps(w.deps, st, node);
    hide DependsOn;
    var after := RetryStates(w.deps, st, node);
    assert after[a] == st[a];
    SchedulerConfluence.BadAncestorBlocks(w, after, good, final, n, a);
  }

  /** Recording an attempt keeps succeeded nodes dependency-closed exactly under a condition on the neighbours. */
  lemma AttemptKeepsClosed(m: DepMap, st: Scheduling.States, node: Id, state: Scheduling.NodeState)
    requires Known(m) && Acyclic(m) && st.Keys == m.Keys && node in st && Scheduling.ClosedStates(m, st)
    ensures Scheduling.ClosedStates(m, st[node := state]) <==>
      if state == Scheduling.Succeeded then forall d :: d in m[node] ==> st[d] == Scheduling.Succeeded
      else forall n :: n in st && n != node && st[n] == Scheduling.Succeeded ==> node !in m[n]
  {
    if node in m[node] { DependsOnDirect(m, node, node); }
    var after := st[node := state];
    if state == Scheduling.Succeeded {
      if Scheduling.ClosedStates(m, after) {
        forall d | d in m[node] ensures st[d] == Scheduling.Succeeded {
          assert after[node] == Scheduling.Succeeded;
        }
      }
    } else if Scheduling.ClosedStates(m, after) {
      forall n | n in st && n != node && st[n] == Scheduling.Succeeded ensures node !in m[n] {
        assert after[n] == Scheduling.Succeeded;
      }
    }
  }

  /** Revising keeps succeeded nodes dependency-closed iff every dependency added to one has itself succeeded. */
  lemma ReviseKeepsClosed(s: Record, graph: TaskGraph.TaskGraph, reason: string)
    requires Sound(s) && TaskGraph.ValidGraph(graph)
    requires Scheduling.ClosedStates(TaskGraph.DependencyMap(s.revision.graph), s.nodeStates)
    ensures
      s.nodeStates.Keys == TaskGraph.DependencyMap(s.revision.graph).Keys
    ensures
      Scheduling.ClosedStates(TaskGraph.DependencyMap(graph), ReviseRecord(s, graph, reason).nodeStates) <==>
        AddedSucceeded(TaskGraph.DependencyMap(s.revision.graph), TaskGraph.DependencyMap(graph), s.nodeStates)
  {
    SoundFacts(s);
    assert Known(TaskGraph.DependencyMap(graph));
    hide Sound, TaskGraph.ValidGraph;
    var st := ReviseRecord(s, graph, reason).nodeStates;
    Carried(TaskGraph.DependencyMap(s.revision.graph), TaskGraph.DependencyMap(graph), s.nodeStates, st);
  }

  /** The same over bare relations: `st` carries the old states of kept nodes and starts new ones pending. */
  lemma Carried(before: DepMap, after: DepMap, old_: Scheduling.States, st: Scheduling.States)
    requires old_.Keys == before.Keys && st.Keys == after.Keys && Known(after)
    requires forall n :: n in st ==> st[n] == if n in old_ then old_[n] else Scheduling.Pending
    requires Scheduling.ClosedStates(before, old_)
    ensures Scheduling.ClosedStates(after, st) <==> AddedSucceeded(before, after, old_)
  {
    if Scheduling.ClosedStates(after, st) {
      forall n, d | n in before && n in after && old_[n] == Scheduling.Succeeded && d in after[n] && d !in before[n]
        ensures d in old_ && old_[d] == Scheduling.Succeeded
      {
        assert st[n] == Scheduling.Succeeded;
        assert st[d] == Scheduling.Succeeded;
      }
    }
    if AddedSucceeded(before, after, old_) {
      forall n, d | n in st && n in after && st[n] == Scheduling.Succeeded && d in after[n]
        ensures d in st && st[d] == Scheduling.Succeeded
      {
        assert n in old_ && old_[n] == Scheduling.Succeeded;
        assert d in old_ && old_[d] == Scheduling.Succeeded;
      }
    }
  }

  /** Every dependency a revision adds to a succeeded node has itself succeeded. */
  predicate AddedSucceeded(before: DepMap, after: DepMap, st: Scheduling.States)
    requires st.Keys == before.Keys
  {
    forall n, d :: n in before && n in after && st[n] == Scheduling.Succeeded && d in after[n] && d !in before[n] ==>
      d in st && st[d] == Scheduling.Succeeded
  }
}
