/** The scheduler of an approved graph as a state machine over its await points. */
module Scheduling {
  import opened Prelude
  import opened Dependencies

  datatype NodeState = Pending | Running | Succeeded | Failed | Blocked | Cancelled

  predicate Terminal(s: NodeState) {
    s != Pending && s != Running
  }

  /** A dependency in one of these states blocks its dependents. */
  predicate Bad(s: NodeState) {
    s == Failed || s == Blocked || s == Cancelled
  }

  /** What a run reads from the graph revision and its settings. */
  datatype Workload = Workload(deps: DepMap, order: seq<Id>, editors: set<Id>, limit: nat)

  predicate ValidWorkload(w: Workload) {
    && Known(w.deps)
    && Topological(w.deps, w.order)
    && w.editors <= w.deps.Keys
    && 1 <= w.limit <= 8
  }

  type States = map<Id, NodeState>

  /** Succeeded nodes have only succeeded dependencies. */
  predicate ClosedStates(m: DepMap, st: States) {
    forall n, d :: n in st && n in m && st[n] == Succeeded && d in m[n] ==> d in st && st[d] == Succeeded
  }

  /** Waiting for the pause event, waiting for a task to finish, or returned. */
  datatype Phase = AtTop | Awaiting | Returned

  /** `emitted` counts the events the session has appended to its journal. */
  datatype Session = Session(
    states: States,
    running: set<Id>,
    mergeQueue: seq<Id>,
    breakpoints: set<Id>,
    budget: Option<nat>,
    paused: bool,
    cancelled: bool,
    emitted: nat,
    phase: Phase)
  {
    function Emit(): Session { this.(emitted := emitted + 1) }
  }

  predicate Shaped(w: Workload, s: Session) {
    s.states.Keys == w.deps.Keys
  }

  // ---- user commands ----

  datatype Command =
    | Pause
    | Resume
    | Cancel
    | AddBreakpoint(node: Id)
    | RemoveBreakpoint(node: Id)
    | StepOnce

  function Obey(s: Session, c: Command): Session {
    match c
    case Pause => s.(paused := true).Emit()
    case Resume => s.(paused := false).Emit()
    case Cancel => s.(cancelled := true, paused := false).Emit()
    case AddBreakpoint(n) => if n in s.states then s.(breakpoints := s.breakpoints + {n}).Emit() else s
    case RemoveBreakpoint(n) => s.(breakpoints := s.breakpoints - {n}).Emit()
    case StepOnce => s.(budget := Some(1), paused := false).Emit()
  }

  // ---- one dispatch pass ----

  predicate HasBadDependency(w: Workload, st: States, n: Id)
    requires n in w.deps
  {
    exists d :: d in w.deps[n] && d in st && Bad(st[d])
  }

  predicate AllSucceeded(w: Workload, st: States, n: Id)
    requires n in w.deps
  {
    forall d :: d in w.deps[n] ==> d in st && st[d] == Succeeded
  }

  datatype Visit = Go(session: Session) | Stop(session: Session)

  function Block(s: Session, n: Id): (r: Session)
    requires n in s.states
    ensures r.states.Keys == s.states.Keys
  {
    s.(states := s.states[n := Blocked]).Emit()
  }

  function Start(s: Session, n: Id): (r: Session)
    requires n in s.states && s.budget != Some(0)
    ensures r.states.Keys == s.states.Keys
  {
    s.(states := s.states[n := Running],
       running := s.running + {n},
       budget := if s.budget.Some? then Some(s.budget.value - 1) else None).Emit()
  }

  /** The body of the dispatch loop for one node; `Stop` is its `break`. */
  function VisitNode(w: Workload, s: Session, n: Id): (v: Visit)
    requires Shaped(w, s) && n in w.deps
    ensures Shaped(w, v.session) && s.emitted <= v.session.emitted
  {
    if |s.running| >= w.limit then Stop(s)
    else if s.states[n] != Pending then Go(s)
    else if n in s.breakpoints && s.budget.None? then Stop(s.(paused := true).Emit())
    else if s.budget == Some(0) then Stop(s.(paused := true))
    else if HasBadDependency(w, s.states, n) then Go(Block(s, n))
    else if !AllSucceeded(w, s.states, n) then Go(s)
    else Go(Start(s, n))
  }

  function Pass(w: Workload, s: Session, from: nat): (r: Session)
    requires Shaped(w, s) && Elements(w.order) == w.deps.Keys && from <= |w.order|
    ensures Shaped(w, r) && s.emitted <= r.emitted
    decreases |w.order| - from
  {
    if from == |w.order| then s
    else
      assert w.order[from] in Elements(w.order);
      match VisitNode(w, s, w.order[from])
      case Stop(r) => r
      case Go(r) => Pass(w, r, from + 1)
  }

  // ---- events and runs ----

  predicate AllTerminal(st: States) {
    forall n :: n in st ==> Terminal(st[n])
  }

  function AfterCancel(s: Session): Session {
    s.(states := map n | n in s.states :: if Terminal(s.states[n]) then s.states[n] else Cancelled,
       running := {},
       phase := Returned)
  }

  function AfterPass(s: Session): Session {
    if s.running != {} then s.(phase := Awaiting)
    else if AllTerminal(s.states) then s.(phase := Returned)
    else s
  }

  /** The finished tasks in dispatch order, as the completion loop visits them. */
  function InOrder(order: seq<Id>, chosen: set<Id>): (r: seq<Id>) {
    if |order| == 0 then []
    else (if order[0] in chosen then [order[0]] else []) + InOrder(order[1..], chosen)
  }

  function Collect(w: Workload, s: Session, done: set<Id>, ok: set<Id>): Session {
    s.(states := map n | n in s.states :: if n in done then (if n in ok then Succeeded else Failed) else s.states[n],
       running := s.running - done,
       mergeQueue := s.mergeQueue + InOrder(w.order, done * ok * w.editors),
       emitted := s.emitted + |InOrder(w.order, done)|,
       phase := AtTop)
  }

  /** A user command, the scheduler getting a turn, or some running tasks finishing (`ok` of them well). */
  datatype Event = User(command: Command) | Tick | Finish(done: set<Id>, ok: set<Id>)

  predicate Enabled(s: Session, e: Event) {
    match e
    case User(_) => true
    case Tick => s.phase == AtTop && !s.paused
    case Finish(done, ok) => s.phase == Awaiting && done != {} && done <= s.running
  }

  /** The effect of an event; one that is not enabled changes nothing. */
  function Next(w: Workload, s: Session, e: Event): (r: Session)
    requires Shaped(w, s) && Elements(w.order) == w.deps.Keys
    ensures Shaped(w, r) && s.emitted <= r.emitted
  {
    if !Enabled(s, e) then s
    else match e
      case User(c) => Obey(s, c)
      case Tick => if s.cancelled then AfterCancel(s) else AfterPass(Pass(w, s, 0))
      case Finish(done, ok) => Collect(w, s, done, ok)
  }

  /** The session after a list of events. */
  function Replay(w: Workload, s: Session, es: seq<Event>): (r: Session)
    requires Shaped(w, s) && Elements(w.order) == w.deps.Keys
    ensures Shaped(w, r) && s.emitted <= r.emitted
  {
    if |es| == 0 then s else Next(w, Replay(w, s, es[..|es| - 1]), es[|es| - 1])
  }

  function Fresh(w: Workload, start: States): Session {
    Session(start, {}, [], {}, None, false, false, 0, AtTop)
  }

  // ---- what one pass may do ----

  function NewlyRunning(before: States, after: States): set<Id>
    requires before.Keys == after.Keys
  {
    set n | n in before && before[n] == Pending && after[n] == Running
  }

  ghost predicate InSync(s: Session) {
    forall n :: n in s.running <==> n in s.states && s.states[n] == Running
  }

  /** Everything a (part of a) pass guarantees about the session it leaves. */
  ghost predicate Advances(w: Workload, s: Session, r: Session) {
    && Shaped(w, s) && Shaped(w, r)
    && r.mergeQueue == s.mergeQueue && r.breakpoints == s.breakpoints
    && r.cancelled == s.cancelled && r.phase == s.phase
    && (s.paused ==> r.paused)
    && (forall n :: n in s.states ==> Moved(w, s, r, n))
    && s.running <= r.running
    && r.running == s.running + NewlyRunning(s.states, r.states)
    && |r.running| <= (if |s.running| < w.limit then w.limit else |s.running|)
    && (s.budget.None? <==> r.budget.None?)
    && (s.budget.Some? ==> |r.running| - |s.running| == s.budget.value - r.budget.value)
  }

  /** A node stays, starts with all dependencies succeeded, or is blocked by a bad one. */
  ghost predicate Moved(w: Workload, s: Session, r: Session, n: Id)
    requires n in w.deps && n in s.states && n in r.states
  {
    || r.states[n] == s.states[n]
    || (s.states[n] == Pending && r.states[n] == Running && AllSucceeded(w, r.states, n)
        && (n !in s.breakpoints || s.budget.Some?) && s.budget != Some(0))
    || (s.states[n] == Pending && r.states[n] == Blocked && HasBadDependency(w, r.states, n)
        && (n !in s.breakpoints || s.budget.Some?) && s.budget != Some(0))
  }
}
