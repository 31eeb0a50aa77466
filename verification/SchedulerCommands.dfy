/** What a user command does to the rest of a run, told by the events alone. */
module SchedulerCommands {
  import opened Prelude
  import opened Dependencies
  import opened Scheduling
  import opened SchedulerControls
  import opened SchedulerSafety
  import SchedulerConfluence

  // ---- what one event changes of the user's settings ----

  lemma PassSettings(w: Workload, s: Session)
    requires ValidWorkload(w) && Shaped(w, s) && InSync(s)
    ensures Elements(w.order) == w.deps.Keys
    ensures
      var p := Pass(w, s, 0);
      && InSync(p) && p.cancelled == s.cancelled && p.breakpoints == s.breakpoints && p.phase == s.phase
      && (s.budget.None? <==> p.budget.None?)
  {
    PassAdvances(w, s, 0);
    hide Pass, Moved;
  }

  lemma NextInSync(w: Workload, s: Session, e: Event)
    requires ValidWorkload(w) && Shaped(w, s) && InSync(s)
    ensures Elements(w.order) == w.deps.Keys && InSync(Next(w, s, e))
  {
    hide *;
    OrderKeys(w);
    NextIs(w, s, e);
    if Enabled(s, e) {
      match e
      case User(c) => SyncedCommand(s, c);
      case Tick =>
        PassSettings(w, s);
        SyncedEnd(Pass(w, s, 0));
        SyncedEnd(s);
      case Finish(done, ok) =>
        FinishAllowed(s, done, ok);
        SyncedCollect(w, s, done, ok);
    }
  }

  lemma FinishAllowed(s: Session, done: set<Id>, ok: set<Id>)
    ensures Enabled(s, Finish(done, ok)) <==> s.phase == Awaiting && done != {} && done <= s.running
  {
  }

  lemma SyncedCommand(s: Session, c: Command)
    requires InSync(s)
    ensures InSync(Obey(s, c))
  {
  }

  lemma SyncedEnd(s: Session)
    requires InSync(s)
    ensures InSync(AfterPass(s)) && InSync(AfterCancel(s))
  {
  }

  lemma SyncedCollect(w: Workload, s: Session, done: set<Id>, ok: set<Id>)
    requires InSync(s) && done <= s.running
    ensures InSync(Collect(w, s, done, ok))
  {
    hide InOrder;
  }

  /** Only the user cancels, sets and clears breakpoints, and grants steps. */
  lemma NextSettings(w: Workload, s: Session, e: Event)
    requires ValidWorkload(w) && Shaped(w, s) && InSync(s)
    ensures Elements(w.order) == w.deps.Keys
    ensures
      var r := Next(w, s, e);
      && (r.cancelled <==> s.cancelled || e == User(Cancel))
      && (forall n :: n in r.breakpoints <==>
            (n in s.breakpoints && e != User(RemoveBreakpoint(n))) || (e == User(AddBreakpoint(n)) && n in w.deps))
      && (s.budget.None? && e != User(StepOnce) ==> r.budget.None?)
  {
    PassSettings(w, s);
    hide Pass, ValidWorkload, InSync, Elements;
    match e
    case User(c) => CommandSettings(w, s, c);
    case Tick =>
    case Finish(_, _) => hide InOrder;
  }

  lemma CommandSettings(w: Workload, s: Session, c: Command)
    requires Shaped(w, s) && Elements(w.order) == w.deps.Keys
    ensures
      var r := Next(w, s, User(c));
      && (r.cancelled <==> s.cancelled || c == Cancel)
      && (forall n :: n in r.breakpoints <==>
            (n in s.breakpoints && c != RemoveBreakpoint(n)) || (c == AddBreakpoint(n) && n in w.deps))
      && (s.budget.None? && c != StepOnce ==> r.budget.None?)
  {
    hide Pass, Elements;
  }

  lemma ReplayLast(w: Workload, s: Session, es: seq<Event>, j: nat)
    requires Shaped(w, s) && Elements(w.order) == w.deps.Keys && j < |es|
    ensures Replay(w, s, es[..j + 1]) == Next(w, Replay(w, s, es[..j]), es[j])
  {
    assert es[..j + 1][..j] == es[..j];
  }

  lemma {:induction false} ReplayInSync(w: Workload, s: Session, es: seq<Event>)
    requires ValidWorkload(w) && Shaped(w, s) && InSync(s)
    ensures Elements(w.order) == w.deps.Keys && InSync(Replay(w, s, es))
  {
    if es != [] {
      ReplayInSync(w, s, es[..|es| - 1]);
      hide InSync, Next, ValidWorkload;
      NextInSync(w, Replay(w, s, es[..|es| - 1]), es[|es| - 1]);
    }
  }

  /** A session is cancelled from the first cancel on, and never otherwise. */
  lemma {:induction false} CancelledIff(w: Workload, s: Session, es: seq<Event>)
    requires ValidWorkload(w) && Shaped(w, s) && InSync(s)
    ensures Elements(w.order) == w.deps.Keys
    ensures Replay(w, s, es).cancelled <==> s.cancelled || User(Cancel) in es
  {
    if es != [] {
      var init, last := es[..|es| - 1], es[|es| - 1];
      CancelledIff(w, s, init);
      ReplayInSync(w, s, init);
      hide InSync, Next, ValidWorkload;
      NextSettings(w, Replay(w, s, init), last);
      assert es == init + [last];
    }
  }

  /** The node's breakpoint was set, or there from the start, and has not been cleared since. */
  ghost predicate Held(w: Workload, s: Session, es: seq<Event>, n: Id) {
    || (n in s.breakpoints && User(RemoveBreakpoint(n)) !in es)
    || exists i :: 0 <= i < |es| && SetAt(w, es, n, i)
  }

  ghost predicate SetAt(w: Workload, es: seq<Event>, n: Id, i: nat)
    requires i < |es|
  {
    es[i] == User(AddBreakpoint(n)) && n in w.deps && User(RemoveBreakpoint(n)) !in es[i + 1..]
  }

  /** A node has a breakpoint exactly when one was set for it and has not been cleared since. */
  lemma {:induction false} BreakpointsIff(w: Workload, s: Session, es: seq<Event>, n: Id)
    requires ValidWorkload(w) && Shaped(w, s) && InSync(s)
    ensures Elements(w.order) == w.deps.Keys
    ensures n in Replay(w, s, es).breakpoints <==> Held(w, s, es, n)
  {
    if es != [] {
      var init, last := es[..|es| - 1], es[|es| - 1];
      BreakpointsIff(w, s, init, n);
      ReplayInSync(w, s, init);
      hide InSync, Next, ValidWorkload, Held;
      NextSettings(w, Replay(w, s, init), last);
      HeldStep(w, s, init, last, n);
      assert es == init + [last];
    }
  }

  lemma HeldStep(w: Workload, s: Session, es: seq<Event>, e: Event, n: Id)
    ensures Held(w, s, es + [e], n) <==>
      (Held(w, s, es, n) && e != User(RemoveBreakpoint(n))) || (e == User(AddBreakpoint(n)) && n in w.deps)
  {
    var more := es + [e];
    forall i | 0 <= i < |es| ensures SetAt(w, more, n, i) <==> SetAt(w, es, n, i) && e != User(RemoveBreakpoint(n)) {
      assert more[i + 1..] == es[i + 1..] + [e];
    }
    assert SetAt(w, more, n, |es|) <==> e == User(AddBreakpoint(n)) && n in w.deps;
  }

  // ---- cancel ----

  /**
   * After a cancel no event dispatches anything, and the next turn returns with exactly the unfinished nodes
   * cancelled.
   */
  lemma CancelStops(w: Workload, s: Session, es: seq<Event>, i: nat, j: nat)
    requires ValidWorkload(w) && Shaped(w, s) && InSync(s)
    requires i < j < |es| && es[i] == User(Cancel)
    ensures Elements(w.order) == w.deps.Keys
    ensures
      var before, after := Replay(w, s, es[..j]), Replay(w, s, es[..j + 1]);
      && DispatchedBy(w, before, es[j]) == {}
      && (es[j] == Tick && before.phase == AtTop && !before.paused ==>
            && after.phase == Returned
            && forall n :: n in before.states ==>
                after.states[n] == (if Terminal(before.states[n]) then before.states[n] else Cancelled))
  {
    CancelledIff(w, s, es[..j]);
    ReplayInSync(w, s, es[..j]);
    assert es[..j][i] == User(Cancel);
    ReplayLast(w, s, es, j);
    CancelledRunStops(w, Replay(w, s, es[..j]), es[j]);
    hide Replay, Next, ValidWorkload, InSync;
  }

  /**
   * Where a run stands, compared with the node states at its cancel: what was pending stays so and is cancelled at
   * the end, what was running finishes or is cancelled at the end, and nothing else changes.
   */
  ghost predicate GivenUp(atCancel: States, r: Session) {
    && r.states.Keys == atCancel.Keys
    && forall n :: n in atCancel ==>
        match atCancel[n]
        case Pending => r.states[n] == if r.phase == Returned then Cancelled else Pending
        case Running =>
          r.states[n] in {Succeeded, Failed} || r.states[n] == if r.phase == Returned then Cancelled else Running
        case _ => r.states[n] == atCancel[n]
  }

  lemma GivenUpStep(w: Workload, atCancel: States, s: Session, e: Event)
    requires ValidWorkload(w) && Shaped(w, s) && InSync(s) && s.cancelled && GivenUp(atCancel, s)
    ensures Elements(w.order) == w.deps.Keys && GivenUp(atCancel, Next(w, s, e))
  {
    assert Elements(w.order) == w.deps.Keys;
    hide Pass, ValidWorkload;
  }

  lemma {:induction false} CancelGivesUp(w: Workload, s: Session, es: seq<Event>, i: nat)
    requires ValidWorkload(w) && ValidStart(w, s.states) && s.running == {} && s.phase == AtTop
    requires i < |es| && es[i] == User(Cancel)
    ensures Shaped(w, s) && Elements(w.order) == w.deps.Keys
    ensures GivenUp(Replay(w, s, es[..i]).states, Replay(w, s, es))
  {
    var n := |es| - 1;
    RunInv(w, s, es[..n]);
    if n == i {
      CancelStands(w, s.states, Replay(w, s, es[..n]));
    } else {
      assert es[..n][..i] == es[..i];
      CancelGivesUp(w, s, es[..n], i);
      CancelledIff(w, s, es[..n]);
      assert es[..n][i] == User(Cancel);
      hide Next, GivenUp, ValidWorkload, ValidStart;
      GivenUpStep(w, Replay(w, s, es[..i]).states, Replay(w, s, es[..n]), es[n]);
    }
  }

  lemma CancelStands(w: Workload, start: States, s: Session)
    requires Inv(w, start, s) && Elements(w.order) == w.deps.Keys
    ensures GivenUp(s.states, Next(w, s, User(Cancel)))
  {
    hide Justified;
  }

  /** Every cancel among the events was obeyed, whatever came after it. */
  ghost predicate CancelsObeyed(w: Workload, s: Session, es: seq<Event>)
    requires Shaped(w, s) && Elements(w.order) == w.deps.Keys
  {
    forall i :: 0 <= i < |es| && es[i] == User(Cancel) ==>
      && GivenUp(Replay(w, s, es[..i]).states, Replay(w, s, es))
      && forall j :: i < j < |es| ==> DispatchedBy(w, Replay(w, s, es[..j]), es[j]) == {}
  }

  lemma CancelsAreObeyed(w: Workload, s: Session, es: seq<Event>)
    requires ValidWorkload(w) && ValidStart(w, s.states) && s.running == {} && s.phase == AtTop
    ensures Shaped(w, s) && Elements(w.order) == w.deps.Keys && CancelsObeyed(w, s, es)
  {
    assert Shaped(w, s) && InSync(s) && Elements(w.order) == w.deps.Keys;
    hide ValidWorkload, ValidStart, Replay, GivenUp, DispatchedBy, InSync;
    forall i | 0 <= i < |es| && es[i] == User(Cancel)
      ensures GivenUp(Replay(w, s, es[..i]).states, Replay(w, s, es))
      ensures forall j :: i < j < |es| ==> DispatchedBy(w, Replay(w, s, es[..j]), es[j]) == {}
    {
      CancelGivesUp(w, s, es, i);
      forall j | i < j < |es| ensures DispatchedBy(w, Replay(w, s, es[..j]), es[j]) == {} {
        CancelStops(w, s, es, i, j);
      }
    }
  }

  // ---- pause and resume ----

  /** The commands that set the loop going again. */
  predicate Unpauses(e: Event) { e == User(Resume) || e == User(Cancel) || e == User(StepOnce) }

  /** After a command the loop can take a turn exactly when it stands at its top and is not, or no longer, paused. */
  lemma TurnAfterCommand(w: Workload, s: Session, c: Command)
    requires Shaped(w, s) && Elements(w.order) == w.deps.Keys
    ensures Enabled(Next(w, s, User(c)), Tick) <==>
      s.phase == AtTop && c != Pause && (Unpauses(User(c)) || !s.paused)
  {
  }

  lemma StaysPaused(w: Workload, s: Session, e: Event)
    requires Shaped(w, s) && Elements(w.order) == w.deps.Keys && s.paused && !Unpauses(e)
    ensures Next(w, s, e).paused && DispatchedBy(w, s, e) == {} && (e == Tick ==> Next(w, s, e) == s)
  {
    hide Pass, InOrder;
  }

  lemma {:induction false} PausedSince(w: Workload, s: Session, es: seq<Event>, i: nat)
    requires Shaped(w, s) && Elements(w.order) == w.deps.Keys
    requires i < |es| && es[i] == User(Pause) && forall k :: i < k < |es| ==> !Unpauses(es[k])
    ensures Replay(w, s, es).paused
  {
    var n := |es| - 1;
    if n == i {
      hide Pass;
    } else {
      PausedSince(w, s, es[..n], i);
      hide Next;
      StaysPaused(w, Replay(w, s, es[..n]), es[n]);
    }
  }

  /** A paused run dispatches nothing, and its turns change nothing, until it is resumed, stepped or cancelled. */
  lemma PauseHolds(w: Workload, s: Session, es: seq<Event>, i: nat, j: nat)
    requires Shaped(w, s) && Elements(w.order) == w.deps.Keys
    requires i < j < |es| && es[i] == User(Pause) && forall k :: i < k <= j ==> !Unpauses(es[k])
    ensures
      var before := Replay(w, s, es[..j]);
      DispatchedBy(w, before, es[j]) == {} && (es[j] == Tick ==> Replay(w, s, es[..j + 1]) == before)
  {
    PausedSince(w, s, es[..j], i);
    ReplayLast(w, s, es, j);
    hide Replay, Next;
    StaysPaused(w, Replay(w, s, es[..j]), es[j]);
  }

  // ---- breakpoints ----

  /** Without a granted step nothing with a breakpoint is dispatched. */
  lemma BreakpointBlocks(w: Workload, s: Session, e: Event, n: Id)
    requires ValidWorkload(w) && Shaped(w, s) && InSync(s) && n in s.breakpoints && s.budget.None?
    ensures Elements(w.order) == w.deps.Keys && n !in DispatchedBy(w, s, e)
  {
    OrderKeys(w);
    OnlyTicksDispatch(w, s, e);
    PassAdvances(w, s, 0);
    NoneStarted(w, s, Pass(w, s, 0), n);
    if Enabled(s, Tick) && !s.cancelled { TickDispatches(w, s); }
    hide ValidWorkload, InSync, Pass, NewlyRunning;
  }

  lemma NoneStarted(w: Workload, s: Session, p: Session, n: Id)
    requires Advances(w, s, p) && n in s.breakpoints && s.budget.None?
    ensures n !in NewlyRunning(s.states, p.states)
  {
    if n in s.states { assert Moved(w, s, p, n); }
    hide AllSucceeded, HasBadDependency;
  }

  lemma {:induction false} NoStepGranted(w: Workload, s: Session, es: seq<Event>)
    requires ValidWorkload(w) && Shaped(w, s) && InSync(s) && s.budget.None? && User(StepOnce) !in es
    ensures Elements(w.order) == w.deps.Keys && Replay(w, s, es).budget.None?
  {
    if es != [] {
      var init, last := es[..|es| - 1], es[|es| - 1];
      assert last in es && forall e :: e in init ==> e in es;
      NoStepGranted(w, s, init);
      ReplayInSync(w, s, init);
      hide InSync, Next, ValidWorkload;
      NextSettings(w, Replay(w, s, init), last);
    }
  }

  /** A breakpoint holds its node, however often the run is resumed, until it is cleared or a step is granted. */
  lemma BreakpointHolds(w: Workload, s: Session, es: seq<Event>, n: Id, i: nat, j: nat)
    requires ValidWorkload(w) && Shaped(w, s) && InSync(s) && s.budget.None? && n in w.deps
    requires i < j < |es| && es[i] == User(AddBreakpoint(n))
    requires User(RemoveBreakpoint(n)) !in es[i + 1..j] && User(StepOnce) !in es[..j]
    ensures Elements(w.order) == w.deps.Keys && n !in DispatchedBy(w, Replay(w, s, es[..j]), es[j])
  {
    assert SetAt(w, es[..j], n, i) by { assert es[..j][i + 1..] == es[i + 1..j]; }
    BreakpointsIff(w, s, es[..j], n);
    NoStepGranted(w, s, es[..j]);
    ReplayInSync(w, s, es[..j]);
    hide InSync, Replay, ValidWorkload, SetAt;
    BreakpointBlocks(w, Replay(w, s, es[..j]), es[j], n);
  }

  lemma {:induction false} PassStopsBefore(w: Workload, s: Session, k: nat, a: nat, b: nat)
    requires ValidWorkload(w) && Shaped(w, s) && s.budget.None?
    requires k <= a < b < |w.order| && w.order[a] in s.states && w.order[b] in s.states
    requires s.states[w.order[a]] == Pending && w.order[a] in s.breakpoints
    ensures Elements(w.order) == w.deps.Keys
    ensures
      var p := Pass(w, s, k);
      p.states[w.order[b]] == s.states[w.order[b]] && (|p.running| < w.limit ==> p.paused)
    decreases a - k
  {
    hide *;
    OrderApart(w, k, b);
    if k != a { OrderApart(w, k, a); }
    SchedulerConfluence.PassUnfolds(w, s, k);
    VisitElsewhere(w, s, w.order[k]);
    if k != a && VisitNode(w, s, w.order[k]).Go? {
      PassStopsBefore(w, VisitNode(w, s, w.order[k]).session, k + 1, a, b);
    }
  }

  lemma OrderApart(w: Workload, i: nat, j: nat)
    requires ValidWorkload(w) && i < j < |w.order|
    ensures w.order[i] != w.order[j]
  {
  }

  lemma VisitElsewhere(w: Workload, s: Session, n: Id)
    requires Shaped(w, s) && n in w.deps && s.budget.None?
    ensures
      var v := VisitNode(w, s, n);
      && v.session.breakpoints == s.breakpoints && v.session.budget.None? && v.session.states.Keys == s.states.Keys
      && (forall m :: m in s.states && m != n ==> v.session.states[m] == s.states[m])
      && (v.Stop? ==> v.session.states == s.states && (|v.session.running| < w.limit ==> v.session.paused))
      && (n in s.breakpoints && s.states[n] == Pending ==> v.Stop?)
  {
    hide HasBadDependency, AllSucceeded;
  }

  /** A turn that comes to a breakpoint goes no further in the order, and pauses the run unless it is full. */
  lemma BreakpointStopsTurn(w: Workload, s: Session, a: nat, b: nat)
    requires ValidWorkload(w) && Shaped(w, s) && s.budget.None? && Enabled(s, Tick) && !s.cancelled
    requires a < b < |w.order| && w.order[a] in s.states && w.order[b] in s.states
    requires s.states[w.order[a]] == Pending && w.order[a] in s.breakpoints
    ensures Elements(w.order) == w.deps.Keys
    ensures w.order[b] !in DispatchedBy(w, s, Tick)
    ensures |Next(w, s, Tick).running| < w.limit ==> Next(w, s, Tick).paused
  {
    PassStopsBefore(w, s, 0, a, b);
    hide Pass, ValidWorkload;
  }

  // ---- the journal ----

  /** The nodes whose state differs. */
  function Changed(before: States, after: States): set<Id>
    requires before.Keys == after.Keys
  {
    set n | n in before && before[n] != after[n]
  }

  /** One event for each state that differs, and one for a breakpoint hit. */
  predicate Tallied(s: Session, p: Session) {
    && s.states.Keys == p.states.Keys
    && p.emitted == s.emitted + |Changed(s.states, p.states)| + (if s.budget.None? && p.paused then 1 else 0)
  }

  lemma {:induction false} PassEmits(w: Workload, s: Session, k: nat)
    requires ValidWorkload(w) && Shaped(w, s) && InSync(s) && !s.paused && k <= |w.order|
    ensures Elements(w.order) == w.deps.Keys && Tallied(s, Pass(w, s, k))
    decreases |w.order| - k
  {
    OrderKeys(w);
    hide *;
    SchedulerConfluence.PassUnfolds(w, s, k);
    if k == |w.order| {
      NoneTallied(s);
    } else {
      var v := VisitNode(w, s, w.order[k]);
      VisitEmits(w, s, w.order[k]);
      VisitAdvances(w, s, w.order[k]);
      if v.Go? {
        PassEmits(w, v.session, k + 1);
        PassAdvances(w, v.session, k + 1);
        TallyJoined(w, s, v.session, Pass(w, v.session, k + 1), w.order[k]);
      }
    }
  }

  lemma NoneTallied(s: Session)
    requires !s.paused
    ensures Tallied(s, s)
  {
    NoneChanged(s.states);
    hide Changed;
  }

  lemma TallyMeans(s: Session, p: Session)
    requires Tallied(s, p)
    ensures s.states.Keys == p.states.Keys
    ensures p.emitted - s.emitted == |Changed(s.states, p.states)| + (if s.budget.None? && p.paused then 1 else 0)
  {
  }

  lemma TallyJoined(w: Workload, s: Session, t: Session, p: Session, n: Id)
    requires Shaped(w, s) && Shaped(w, t) && Advances(w, t, p) && Tallied(s, t) && Tallied(t, p)
    requires !t.paused && (s.budget.None? <==> t.budget.None?) && OneStarted(s, t, n)
    ensures Tallied(s, p)
  {
    ChangedOnce(w, s, t, p, n);
    hide Changed, Advances, OneStarted;
  }

  /** Nothing changed, or just this node, which is pending no more. */
  predicate OneStarted(s: Session, t: Session, n: Id)
    requires s.states.Keys == t.states.Keys
  {
    || Changed(s.states, t.states) == {}
    || (n in t.states && Changed(s.states, t.states) == {n} && t.states[n] != Pending)
  }

  lemma NoneChanged(states: States)
    ensures Changed(states, states) == {}
  {
  }

  lemma VisitEmits(w: Workload, s: Session, n: Id)
    requires Shaped(w, s) && n in w.deps && !s.paused
    ensures
      var v := VisitNode(w, s, n);
      && Tallied(s, v.session) && OneStarted(s, v.session, n)
      && (v.Go? ==> !v.session.paused && (s.budget.None? <==> v.session.budget.None?))
  {
    hide HasBadDependency, AllSucceeded;
    var v := VisitNode(w, s, n);
    if v.session.states != s.states {
      assert Changed(s.states, v.session.states) == {n};
    } else {
      assert Changed(s.states, v.session.states) == {};
    }
  }

  lemma ChangedOnce(w: Workload, s: Session, t: Session, p: Session, n: Id)
    requires Shaped(w, s) && Shaped(w, t) && Advances(w, t, p) && OneStarted(s, t, n)
    ensures |Changed(s.states, p.states)| == |Changed(s.states, t.states)| + |Changed(t.states, p.states)|
  {
    forall m | m in t.states ensures t.states[m] != Pending ==> p.states[m] == t.states[m] { assert Moved(w, t, p, m); }
    var one, more := Changed(s.states, t.states), Changed(t.states, p.states);
    assert one !! more;
    assert Changed(s.states, p.states) == one + more;
  }

  /**
   * What the session journals: one event for each command but a breakpoint for no node, for each node dispatched or
   * blocked, for a breakpoint hit, and for each finished task; and nothing when a cancelled run returns.
   */
  lemma JournalCounts(w: Workload, s: Session, e: Event)
    requires ValidWorkload(w) && Shaped(w, s) && InSync(s)
    ensures Elements(w.order) == w.deps.Keys
    ensures
      var r := Next(w, s, e);
      r.emitted - s.emitted ==
        if !Enabled(s, e) then 0
        else
          match e
          case User(c) => if c.AddBreakpoint? && c.node !in s.states then 0 else 1
          case Finish(done, _) => |done|
          case Tick =>
            if s.cancelled then 0
            else |Changed(s.states, r.states)| + (if s.budget.None? && r.paused then 1 else 0)
  {
    hide *;
    OrderKeys(w);
    NextIs(w, s, e);
    if Enabled(s, e) {
      match e
      case User(c) => CommandEmits(s, c);
      case Tick =>
        TickAllowed(s);
        PassEmits(w, s, 0);
        TallyMeans(s, Pass(w, s, 0));
        EndEmits(s);
        EndEmits(Pass(w, s, 0));
      case Finish(done, ok) =>
        FinishAllowed(s, done, ok);
        InOrderSize(w, s, done);
        CollectEmits(w, s, done, ok);
    }
  }

  lemma TickAllowed(s: Session)
    ensures Enabled(s, Tick) <==> s.phase == AtTop && !s.paused
  {
  }

  lemma CommandEmits(s: Session, c: Command)
    ensures Obey(s, c).emitted == s.emitted + (if c.AddBreakpoint? && c.node !in s.states then 0 else 1)
  {
  }

  lemma EndEmits(s: Session)
    ensures AfterCancel(s).emitted == s.emitted
    ensures
      var r := AfterPass(s);
      r.emitted == s.emitted && r.states == s.states && r.paused == s.paused
  {
  }

  lemma CollectEmits(w: Workload, s: Session, done: set<Id>, ok: set<Id>)
    ensures Collect(w, s, done, ok).emitted == s.emitted + |InOrder(w.order, done)|
  {
  }

  lemma InOrderSize(w: Workload, s: Session, done: set<Id>)
    requires ValidWorkload(w) && Shaped(w, s) && InSync(s) && done <= s.running
    ensures |InOrder(w.order, done)| == |done|
  {
    InOrderMembers(w.order, done);
    var batch := InOrder(w.order, done);
    forall n | n in done ensures n in w.order {
      assert n in Elements(w.order);
    }
    assert Elements(batch) == done;
    DistinctSize(batch);
  }
}
