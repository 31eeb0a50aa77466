/** A runtime object beside its store: what happens to both between its construction and the end of its run. */
module RuntimeHistory {
  import opened Prelude
  import opened Dependencies
  import opened OrchestrationRuntime
  import opened SessionStore
  import Journal = EventJournal
  import Files
  import Paths = RepoPath
  import Scheduling
  import TaskGraph

  // ---------------------------------------------------------------- store operations after the runtime was built

  ghost predicate ValidOperations(ops: seq<Operation>) {
    forall i :: 0 <= i < |ops| ==> ValidOperation(ops[i])
  }

  predicate NoRevision(ops: seq<Operation>) {
    forall i :: 0 <= i < |ops| ==> !ops[i].Revise?
  }

  /** Revisions are counted, and nothing else changes the revision. */
  lemma {:induction false} RevisionCounts(s: Record, ops: seq<Operation>)
    requires Sound(s) && ValidOperations(ops)
    ensures
      var now := Lifecycle(s, ops);
      if NoRevision(ops) then now.revision == s.revision else now.revision.revision > s.revision.revision
  {
    if ops != [] {
      var init, op := ops[..|ops| - 1], ops[|ops| - 1];
      RevisionCounts(s, init);
      NoRevisionStep(ops);
      hide Sound, After, NoRevision;
      OnlyRevise(Lifecycle(s, init), op);
    }
  }

  lemma NoRevisionStep(ops: seq<Operation>)
    requires ops != []
    ensures var n := |ops| - 1;
      NoRevision(ops) <==> NoRevision(ops[..n]) && !ops[n].Revise?
  {
    assert ops == ops[..|ops| - 1] + [ops[|ops| - 1]];
  }

  lemma OnlyRevise(s: Record, op: Operation)
    requires Sound(s) && ValidOperation(op)
    ensures s.revision.WellFormed()
    ensures
      var t := After(s, op);
      if op.Revise? then t.revision.revision == s.revision.revision + 1 else t.revision == s.revision
  {
    SoundFacts(s);
    hide Sound, RetryStates, Linked, TaskGraph.ValidGraph, AttemptRecord, RetryRecord, DebugRecord;
    match op
    case RecordAttempt(node, state, provider) => AttemptSound(s, node, state, provider);
    case Retry(node, provider) => RetrySound(s, node, provider);
    case Debug(action) => DebugSound(s, action);
    case _ =>
  }

  lemma ApprovalKept(s: Record, op: Operation)
    requires s.revision.WellFormed() && !op.Revise? && s.approvedHash == Some(s.revision.Hash())
    ensures After(s, op).approvedHash == s.approvedHash
  {
    hide RetryStates, AttemptsOf, ProviderAllowed;
    match op
    case RecordAttempt(node, state, provider) =>
    case Retry(node, provider) =>
    case Debug(action) => match action { case Break(_) => case ClearBreak(_) => case StepAction => }
    case _ =>
  }

  /**
   * A runtime built from `s` dispatches iff `s` was approved, and dispatches the graph of `s`. By the time it runs
   * that is still the stored revision, and the stored approval still one of it, exactly when nothing was revised.
   */
  lemma DispatchedRevision(s: Record, ops: seq<Operation>)
    requires Sound(s) && ValidOperations(ops)
    ensures
      var now := Lifecycle(s, ops);
      && (now.revision == s.revision <==> NoRevision(ops))
      && (s.approvedHash == Some(s.revision.Hash()) ==>
            (now.approvedHash == Some(s.revision.Hash()) <==> NoRevision(ops)))
  {
    RevisionCounts(s, ops);
    SoundFacts(Lifecycle(s, ops));
    if NoRevision(ops) && s.approvedHash == Some(s.revision.Hash()) { ApprovalStays(s, ops); }
    hide Sound, Lifecycle, NoRevision, Linked, TaskGraph.ValidGraph;
  }

  lemma {:induction false} ApprovalStays(s: Record, ops: seq<Operation>)
    requires Sound(s) && ValidOperations(ops) && NoRevision(ops) && s.approvedHash == Some(s.revision.Hash())
    ensures Lifecycle(s, ops).approvedHash == s.approvedHash
  {
    if ops != [] {
      var init, op := ops[..|ops| - 1], ops[|ops| - 1];
      ApprovalStays(s, init);
      RevisionCounts(s, init);
      SoundFacts(Lifecycle(s, init));
      assert !op.Revise?;
      ApprovalKept(Lifecycle(s, init), op);
      hide Sound, After, NoRevision, Linked, TaskGraph.ValidGraph;
    }
  }

  /** The write-back keeps the record sound exactly when the last revision left the set of nodes as it was loaded. */
  lemma WriteBackKeepsSound(s: Record, ops: seq<Operation>, final: Scheduling.Session,
                            proposals: map<Id, Files.FileMap>,
                            hashes: map<Id, map<Paths.Path, Files.Digest>>, chosen: map<Id, string>)
    requires Sound(s) && ValidOperations(ops) && final.states.Keys == s.nodeStates.Keys
    ensures
      Sound(Persisted(Lifecycle(s, ops), final, proposals, hashes, chosen)) <==>
        NodeIds(Lifecycle(s, ops).revision.graph) == NodeIds(s.revision.graph)
    ensures NoRevision(ops) ==> Sound(Persisted(Lifecycle(s, ops), final, proposals, hashes, chosen))
  {
    WriteBackSoundIff(Lifecycle(s, ops), final, proposals, hashes, chosen);
    RevisionCounts(s, ops);
    SoundFacts(s);
    hide Sound, Lifecycle, Persisted, NodeIds, NoRevision;
  }

  // ---------------------------------------------------------------- everything that may happen, in any order

  /** An event of the runtime's session, an operation of the store, or a reviewed merge. */
  datatype Moment =
    | Scheduled(event: Scheduling.Event)
    | Called(op: Operation)
    | Reviewed(node: Id, approved: bool, checkpoint: Option<nat>)

  /** The stored record and journal, and the session of a runtime whose handle was opened after `openedAt` events. */
  datatype Life = Life(record: Record, log: EventLog, session: Scheduling.Session, openedAt: nat)

  ghost predicate Living(w: Scheduling.Workload, l: Life) {
    Sound(l.record) && Scheduling.Shaped(w, l.session) && Elements(w.order) == w.deps.Keys
  }

  ghost predicate ValidMoment(m: Moment) {
    m.Called? ==> ValidOperation(m.op)
  }

  /** The session appends through its own handle, wherever that stands; the store opens a new one for each event. */
  ghost function Lived(id: SessionId, w: Scheduling.Workload, l: Life, m: Moment): (r: Life)
    requires Living(w, l) && ValidMoment(m)
    ensures Living(w, r)
  {
    match m
    case Scheduled(e) =>
      var next := Scheduling.Next(w, l.session, e);
      l.(session := next, log := Emitted(id, l.log, l.openedAt, l.session, next))
    case Called(op) =>
      SoundFacts(l.record);
      ApplySound(l.record, op);
      if Apply(l.record, op).Success? then
        l.(record := Apply(l.record, op).value, log := Logged(l.log, id, EventOf(op)))
      else l
    case Reviewed(node, approved, checkpoint) =>
      if UpForReview(l.record, node) then
        AfterReviewSound(l.record, node, approved, checkpoint);
        l.(record := AfterReview(l.record, node, approved, checkpoint), log := Logged(l.log, id, ReviewEvent(approved)))
      else l
  }

  ghost predicate ValidMoments(ms: seq<Moment>) {
    forall i :: 0 <= i < |ms| ==> ValidMoment(ms[i])
  }

  ghost function LivedAll(id: SessionId, w: Scheduling.Workload, l: Life, ms: seq<Moment>): (r: Life)
    requires Living(w, l) && ValidMoments(ms)
    ensures Living(w, r)
  {
    if ms == [] then l else Lived(id, w, LivedAll(id, w, l, ms[..|ms| - 1]), ms[|ms| - 1])
  }

  /** The store writes its record and would journal it. */
  ghost predicate Stores(w: Scheduling.Workload, l: Life, m: Moment)
    requires Living(w, l) && ValidMoment(m)
  {
    match m
    case Scheduled(_) => false
    case Called(op) => SoundFacts(l.record); Apply(l.record, op).Success?
    case Reviewed(node, _, _) => UpForReview(l.record, node)
  }

  /** The session journals something. */
  ghost predicate Emits(w: Scheduling.Workload, l: Life, m: Moment)
    requires Living(w, l) && ValidMoment(m)
  {
    m.Scheduled? && Scheduling.Next(w, l.session, m.event).emitted > l.session.emitted
  }

  ghost predicate StoresAt(id: SessionId, w: Scheduling.Workload, l: Life, ms: seq<Moment>, i: nat)
    requires Living(w, l) && ValidMoments(ms) && i < |ms|
  {
    Stores(w, LivedAll(id, w, l, ms[..i]), ms[i])
  }

  ghost predicate EmitsAt(id: SessionId, w: Scheduling.Workload, l: Life, ms: seq<Moment>, j: nat)
    requires Living(w, l) && ValidMoments(ms) && j < |ms|
  {
    Emits(w, LivedAll(id, w, l, ms[..j]), ms[j])
  }

  /** The store has written nothing so far. */
  ghost predicate Undisturbed(id: SessionId, w: Scheduling.Workload, l: Life, ms: seq<Moment>)
    requires Living(w, l) && ValidMoments(ms)
  {
    forall i :: 0 <= i < |ms| ==> !StoresAt(id, w, l, ms, i)
  }

  /** The session journals nothing once the store has written anything. */
  ghost predicate NoLateEvent(id: SessionId, w: Scheduling.Workload, l: Life, ms: seq<Moment>)
    requires Living(w, l) && ValidMoments(ms)
  {
    forall i, j :: 0 <= i < j < |ms| && StoresAt(id, w, l, ms, i) ==> !EmitsAt(id, w, l, ms, j)
  }

  /** The handle stands at the end of a readable journal. */
  predicate AtEnd(id: SessionId, l: Life) {
    Journal.Readable(l.log, id) && |l.log| == l.openedAt + l.session.emitted
  }

  /** A runtime just built has its handle at the end. */
  lemma BuiltAtEnd(id: SessionId, s: Record, log: EventLog)
    requires Journal.Readable(log, id)
    ensures AtEnd(id, Life(s, log + Journal.Appended(id, |log|, LoadEvents(s)), Loaded(s), |log|))
  {
    Journal.AppendedReadable(log, id, |log|, LoadEvents(s));
  }

  lemma PrefixMoment(id: SessionId, w: Scheduling.Workload, l: Life, ms: seq<Moment>, i: nat)
    requires Living(w, l) && ValidMoments(ms) && i < |ms| - 1
    ensures ValidMoments(ms[..|ms| - 1])
    ensures StoresAt(id, w, l, ms, i) <==> StoresAt(id, w, l, ms[..|ms| - 1], i)
    ensures EmitsAt(id, w, l, ms, i) <==> EmitsAt(id, w, l, ms[..|ms| - 1], i)
  {
    assert ms[..|ms| - 1][..i] == ms[..i] && ms[..|ms| - 1][i] == ms[i];
    hide Living, Stores, Emits, LivedAll;
  }

  lemma PrefixUndisturbed(id: SessionId, w: Scheduling.Workload, l: Life, ms: seq<Moment>)
    requires Living(w, l) && ValidMoments(ms) && ms != []
    ensures
      var n := |ms| - 1;
      ValidMoments(ms[..n]) &&
      (Undisturbed(id, w, l, ms) <==> Undisturbed(id, w, l, ms[..n]) && !StoresAt(id, w, l, ms, n))
  {
    hide Living, StoresAt, EmitsAt;
    forall i | 0 <= i < |ms| - 1 ensures StoresAt(id, w, l, ms, i) <==> StoresAt(id, w, l, ms[..|ms| - 1], i) {
      PrefixMoment(id, w, l, ms, i);
    }
    if !Undisturbed(id, w, l, ms) {
      var i :| 0 <= i < |ms| && StoresAt(id, w, l, ms, i);
      assert i < |ms| - 1 ==> StoresAt(id, w, l, ms[..|ms| - 1], i);
    }
    if !Undisturbed(id, w, l, ms[..|ms| - 1]) {
      var i :| 0 <= i < |ms| - 1 && StoresAt(id, w, l, ms[..|ms| - 1], i);
      assert StoresAt(id, w, l, ms, i);
    }
  }

  lemma PrefixNoLate(id: SessionId, w: Scheduling.Workload, l: Life, ms: seq<Moment>)
    requires Living(w, l) && ValidMoments(ms) && ms != []
    ensures
      var n := |ms| - 1;
      ValidMoments(ms[..n]) &&
      (NoLateEvent(id, w, l, ms) <==>
         NoLateEvent(id, w, l, ms[..n]) && (EmitsAt(id, w, l, ms, n) ==> Undisturbed(id, w, l, ms[..n])))
  {
    hide Living, StoresAt, EmitsAt;
    var n := |ms| - 1;
    forall i | 0 <= i < n
      ensures StoresAt(id, w, l, ms, i) <==> StoresAt(id, w, l, ms[..n], i)
      ensures EmitsAt(id, w, l, ms, i) <==> EmitsAt(id, w, l, ms[..n], i)
    {
      PrefixMoment(id, w, l, ms, i);
    }
    if EmitsAt(id, w, l, ms, n) && !Undisturbed(id, w, l, ms[..n]) {
      var i :| 0 <= i < n && StoresAt(id, w, l, ms[..n], i);
      assert StoresAt(id, w, l, ms, i);
    }
  }

  /** One moment: what it does to the journal. */
  lemma MomentLog(id: SessionId, w: Scheduling.Workload, l: Life, m: Moment)
    requires Living(w, l) && ValidMoment(m)
    ensures
      var r := Lived(id, w, l, m);
      && r.openedAt == l.openedAt
      && (Journal.Readable(r.log, id) <==>
            Journal.Readable(l.log, id) && (Emits(w, l, m) ==> |l.log| == l.openedAt + l.session.emitted))
      && |r.log| == |l.log| + (r.session.emitted - l.session.emitted)
                    + (if Stores(w, l, m) && Journal.Readable(l.log, id) then 1 else 0)
      && (r.session.emitted > l.session.emitted <==> Emits(w, l, m)) && r.session.emitted >= l.session.emitted
  {
    hide Journal.Readable, Sound, RetryStates, Scheduling.Next, Apply;
    match m
    case Scheduled(e) =>
      var next := Scheduling.Next(w, l.session, e);
      Journal.AppendedReadable(l.log, id, l.openedAt + l.session.emitted, next.emitted - l.session.emitted);
    case Called(op) =>
      LoggedReadable(l.log, id, EventOf(op));
    case Reviewed(_, approved, _) =>
      LoggedReadable(l.log, id, ReviewEvent(approved));
  }

  /**
   * The journal of a runtime's session and of its store stays readable exactly when the session journals nothing
   * once the store has written anything since the runtime was built.
   */
  lemma {:induction false} ReadableIffNoLateEvent(id: SessionId, w: Scheduling.Workload, l: Life, ms: seq<Moment>)
    requires Living(w, l) && ValidMoments(ms) && AtEnd(id, l)
    ensures
      var r := LivedAll(id, w, l, ms);
      && r.openedAt == l.openedAt
      && (Journal.Readable(r.log, id) <==> NoLateEvent(id, w, l, ms))
      && (Journal.Readable(r.log, id) ==>
            |r.log| >= r.openedAt + r.session.emitted
            && (|r.log| == r.openedAt + r.session.emitted <==> Undisturbed(id, w, l, ms)))
  {
    if ms != [] {
      var n := |ms| - 1;
      PrefixUndisturbed(id, w, l, ms);
      PrefixNoLate(id, w, l, ms);
      ReadableIffNoLateEvent(id, w, l, ms[..n]);
      MomentLog(id, w, LivedAll(id, w, l, ms[..n]), ms[n]);
      hide Journal.Readable, Living, Lived, Stores, Emits, NoLateEvent, Undisturbed, ValidMoment;
    }
  }

  /**
   * A run is written back exactly when every node it has an attempt to record of is still stored, and, if there is
   * one, its session journalled nothing after the store's first write since the runtime was built.
   */
  lemma WrittenBackIff(id: SessionId, w: Scheduling.Workload, l: Life, ms: seq<Moment>)
    requires Living(w, l) && ValidMoments(ms) && AtEnd(id, l)
    ensures
      var r := LivedAll(id, w, l, ms);
      WritesBack(id, r.record, r.log, r.session.states) <==>
        && RecordedNodes(r.session.states) <= r.record.nodeStates.Keys
        && (RecordedNodes(r.session.states) == {} || NoLateEvent(id, w, l, ms))
  {
    ReadableIffNoLateEvent(id, w, l, ms);
    hide NoLateEvent, LivedAll, Living, RecordedNodes;
  }

  /**
   * A spoilt journal stays so whatever happens: store operations still write their records and then raise, and no
   * runtime is built.
   */
  lemma {:induction false} SpoiltForGood(id: SessionId, w: Scheduling.Workload, l: Life, ms: seq<Moment>, op: Operation)
    requires Living(w, l) && ValidMoments(ms) && ValidOperation(op) && !Journal.Readable(l.log, id)
    ensures !Journal.Readable(LivedAll(id, w, l, ms).log, id)
    ensures
      var r := LivedAll(id, w, l, ms);
      && r.record.revision.WellFormed()
      && Lived(id, w, r, Called(op)).record == After(r.record, op) && Lived(id, w, r, Called(op)).log == r.log
  {
    var r := LivedAll(id, w, l, ms);
    SoundFacts(r.record);
    if ms != [] {
      SpoiltForGood(id, w, l, ms[..|ms| - 1], op);
      MomentLog(id, w, LivedAll(id, w, l, ms[..|ms| - 1]), ms[|ms| - 1]);
    }
    hide Sound, Journal.Readable, RetryStates, Apply;
  }
}
