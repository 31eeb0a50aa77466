/** What pause, breakpoints, single-step and cancel guarantee, and what they do not. */
module SchedulerControls {
  import opened Prelude
  import opened Dependencies
  import opened Scheduling
  import opened SchedulerSafety
  import SchedulerConfluence

  /** The nodes an event dispatches. */
  function DispatchedBy(w: Workload, s: Session, e: Event): set<Id>
    requires Shaped(w, s) && Elements(w.order) == w.deps.Keys
  {
    NewlyRunning(s.states, Next(w, s, e).states)
  }

  lemma OnlyTicksDispatch(w: Workload, s: Session, e: Event)
    requires ValidWorkload(w) && Shaped(w, s) && InSync(s)
    ensures DispatchedBy(w, s, e) != {} ==> e == Tick && !s.paused && !s.cancelled && s.phase == AtTop
  {
    hide Pass;
    if n :| n in DispatchedBy(w, s, e) {
      match e
      case User(c) =>
      case Tick =>
      case Finish(done, ok) =>
    }
  }

  /** Every node in the set may be dispatched from `s`, together, within the bound and the granted steps. */
  ghost predicate MayDispatch(w: Workload, s: Session, started: set<Id>)
  {
    && (forall n :: n in started ==>
          n in w.deps && n in s.states && s.states[n] == Pending && AllSucceeded(w, s.states, n))
    && (forall n :: n in started && n in s.breakpoints ==> s.budget.Some?)
    && |s.running| + |started| <= w.limit
    && (s.budget.Some? ==> |started| <= s.budget.value)
  }

  /**
   * Every dispatched node was pending with all dependencies succeeded, was not held by a breakpoint unless a
   * step was granted, and each dispatch used up one granted step.
   */
  lemma DispatchRules(w: Workload, s: Session, e: Event)
    requires ValidWorkload(w) && Shaped(w, s) && InSync(s) && |s.running| <= w.limit
    ensures MayDispatch(w, s, DispatchedBy(w, s, e))
    ensures DispatchedBy(w, s, e) != {} ==> e == Tick && !s.paused && !s.cancelled && s.phase == AtTop
    ensures s.budget.Some? && e == Tick ==> Next(w, s, e).budget == Some(s.budget.value - |DispatchedBy(w, s, e)|)
  {
    hide *;
    OrderKeys(w);
    OnlyTicksDispatch(w, s, e);
    if e == Tick && Enabled(s, Tick) && !s.cancelled {
      PassRules(w, s);
      TickDispatches(w, s);
    } else {
      NothingDispatched(w, s, e);
    }
  }

  lemma OrderKeys(w: Workload)
    requires ValidWorkload(w)
    ensures Elements(w.order) == w.deps.Keys
  {
  }

  lemma TickDispatches(w: Workload, s: Session)
    requires Shaped(w, s) && Elements(w.order) == w.deps.Keys && Enabled(s, Tick) && !s.cancelled
    ensures DispatchedBy(w, s, Tick) == NewlyRunning(s.states, Pass(w, s, 0).states)
    ensures Next(w, s, Tick).budget == Pass(w, s, 0).budget
  {
    hide Pass;
  }

  lemma NothingDispatched(w: Workload, s: Session, e: Event)
    requires Shaped(w, s) && Elements(w.order) == w.deps.Keys && |s.running| <= w.limit
    requires !(e == Tick && Enabled(s, Tick) && !s.cancelled)
    ensures DispatchedBy(w, s, e) == {} && MayDispatch(w, s, {})
    ensures e == Tick ==> Next(w, s, e).budget == s.budget
  {
    hide Pass;
  }

  lemma PassRules(w: Workload, s: Session)
    requires ValidWorkload(w) && Shaped(w, s) && InSync(s) && |s.running| <= w.limit
    ensures
      var p := Pass(w, s, 0);
      var started := NewlyRunning(s.states, p.states);
      MayDispatch(w, s, started) && (s.budget.Some? ==> p.budget == Some(s.budget.value - |started|))
  {
    assert Known(w.deps);
    hide Pass, Advances, InSync, NewlyRunning, AllSucceeded, ValidWorkload, Known;
    PassAdvances(w, s, 0);
    AdvancesShape(w, s, Pass(w, s, 0));
    hide Shaped;
    var p := Pass(w, s, 0);
    var started := NewlyRunning(s.states, p.states);
    PassCounts(w, s, p);
    assert forall n :: n in started ==> n in s.states && s.states[n] == Pending
        by { StartedWerePending(s.states, p.states); }
    forall n | n in started ensures AllSucceeded(w, s.states, n) && (n in s.breakpoints ==> s.budget.Some?) {
      StartedWhenReady(w, s, p, n);
    }
  }

  lemma AdvancesShape(w: Workload, s: Session, p: Session)
    requires Advances(w, s, p)
    ensures Elements(w.order) == w.deps.Keys ==> s.states.Keys == p.states.Keys == w.deps.Keys
    ensures s.states.Keys == p.states.Keys == w.deps.Keys
  {
  }

  lemma StartedWerePending(before: States, after: States)
    requires before.Keys == after.Keys
    ensures forall n :: n in NewlyRunning(before, after) ==> n in before && before[n] == Pending
  {
  }

  lemma PassCounts(w: Workload, s: Session, p: Session)
    requires Advances(w, s, p) && InSync(s) && |s.running| <= w.limit
    ensures
      var started := NewlyRunning(s.states, p.states);
      && |s.running| + |started| <= w.limit
      && (s.budget.Some? ==> |started| <= s.budget.value && p.budget == Some(s.budget.value - |started|))
  {
    hide Moved;
    var started := NewlyRunning(s.states, p.states);
    assert started !! s.running;
    assert |p.running| == |s.running| + |started|;
    SubsetSize(s.running, p.running);
  }

  lemma StartedWhenReady(w: Workload, s: Session, p: Session, n: Id)
    requires Known(w.deps) && Advances(w, s, p) && n in NewlyRunning(s.states, p.states)
    ensures AllSucceeded(w, s.states, n) && (n in s.breakpoints ==> s.budget.Some?)
  {
    assert Moved(w, s, p, n);
    forall d | d in w.deps[n] ensures d in s.states && s.states[d] == Succeeded {
      assert Moved(w, s, p, d);
    }
  }

  /** The node could be dispatched now. */
  predicate Ready(w: Workload, st: States, n: Id) {
    n in w.deps && n in st && st[n] == Pending && AllSucceeded(w, st, n)
  }

  /** With room and a granted step, a pass that still comes to a ready node dispatches one. */
  lemma {:induction false} PassStartsOne(w: Workload, s: Session, k: nat, i: nat)
    requires ValidWorkload(w) && Shaped(w, s) && InSync(s) && |s.running| < w.limit
    requires s.budget.Some? && s.budget.value > 0
    requires k <= i < |w.order| && Ready(w, s.states, w.order[i])
    ensures Elements(w.order) == w.deps.Keys
    ensures NewlyRunning(s.states, Pass(w, s, k).states) != {}
    decreases i - k
  {
    hide Pass, VisitNode, ValidWorkload, Advances, InSync, NewlyRunning, Elements, AllSucceeded;
    SchedulerConfluence.PassUnfolds(w, s, k);
    var v := VisitNode(w, s, w.order[k]);
    VisitAdvances(w, s, w.order[k]);
    if Ready(w, s.states, w.order[k]) {
      VisitReady(w, s, w.order[k]);
      PassAdvances(w, v.session, k + 1);
      StaysStarted(w, s, v.session, Pass(w, v.session, k + 1), w.order[k]);
    } else {
      assert k != i;
      VisitUnready(w, s, k, i);
      PassStartsOne(w, v.session, k + 1, i);
      StartedLater(s.states, v.session.states, Pass(w, v.session, k + 1).states);
    }
  }

  lemma VisitReady(w: Workload, s: Session, n: Id)
    requires Shaped(w, s) && |s.running| < w.limit && s.budget.Some? && s.budget.value > 0 && Ready(w, s.states, n)
    ensures VisitNode(w, s, n).Go? && n in VisitNode(w, s, n).session.running
  {
  }

  lemma VisitUnready(w: Workload, s: Session, k: nat, i: nat)
    requires ValidWorkload(w) && Shaped(w, s) && |s.running| < w.limit && s.budget.Some? && s.budget.value > 0
    requires k < i < |w.order| && w.order[k] in w.deps && !Ready(w, s.states, w.order[k])
        && Ready(w, s.states, w.order[i])
    ensures
      var v := VisitNode(w, s, w.order[k]);
      && v.Go? && v.session.running == s.running && v.session.budget == s.budget
      && Ready(w, v.session.states, w.order[i])
      && forall n :: n in s.states && v.session.states[n] == Pending ==> s.states[n] == Pending
  {
    SchedulerConfluence.LaterIsNoDependency(w, k, i);
  }

  lemma StaysStarted(w: Workload, s: Session, t: Session, r: Session, n: Id)
    requires Shaped(w, s) && Advances(w, t, r) && InSync(r) && n in t.running && n in s.states && s.states[n] == Pending
    ensures NewlyRunning(s.states, r.states) != {}
  {
    assert n in r.running;
    assert n in NewlyRunning(s.states, r.states);
  }

  lemma StartedLater(s: States, t: States, r: States)
    requires s.Keys == t.Keys == r.Keys && NewlyRunning(t, r) != {}
    requires forall n :: n in s && t[n] == Pending ==> s[n] == Pending
    ensures NewlyRunning(s, r) != {}
  {
    var n :| n in NewlyRunning(t, r);
    assert n in NewlyRunning(s, r);
  }

  /**
   * After `step()` the next turn dispatches at most one node, and one exactly when the loop is at its top, there is
   * room and some node is ready; the step is used up then.
   */
  lemma StepDispatchesOne(w: Workload, s: Session)
    requires ValidWorkload(w) && Shaped(w, s) && InSync(s) && |s.running| <= w.limit
    ensures
      var granted := Obey(s, StepOnce);
      var started := DispatchedBy(w, granted, Tick);
      && |started| <= 1
      && (|started| == 1 <==>
            s.phase == AtTop && !s.cancelled && |s.running| < w.limit && exists n :: Ready(w, s.states, n))
      && (|started| == 1 ==> Next(w, granted, Tick).budget == Some(0))
  {
    var granted := Obey(s, StepOnce);
    var started := DispatchedBy(w, granted, Tick);
    DispatchRules(w, granted, Tick);
    hide Pass, InOrder;
    hide ValidWorkload, InSync, MayDispatch;
    if s.phase == AtTop && !s.cancelled && |s.running| < w.limit && exists n :: Ready(w, s.states, n) {
      ReadyIsStarted(w, s);
    }
    if |started| == 1 { StartedHadRoom(w, s, started); }
  }

  lemma ReadyIsStarted(w: Workload, s: Session)
    requires ValidWorkload(w) && Shaped(w, s) && InSync(s) && |s.running| < w.limit
    requires s.phase == AtTop && !s.cancelled && exists n :: Ready(w, s.states, n)
    ensures |DispatchedBy(w, Obey(s, StepOnce), Tick)| == 1
    ensures Next(w, Obey(s, StepOnce), Tick).budget == Some(0)
  {
    hide *;
    var n :| Ready(w, s.states, n);
    var i := PlaceOf(w, s, n);
    var granted := Obey(s, StepOnce);
    GrantedFacts(w, s);
    DispatchRules(w, granted, Tick);
    PassStartsOne(w, granted, 0, i);
    TickDispatches(w, granted);
    MayStartOne(w, granted, DispatchedBy(w, granted, Tick));
  }

  lemma PlaceOf(w: Workload, s: Session, n: Id) returns (i: nat)
    requires ValidWorkload(w) && Shaped(w, s) && Ready(w, s.states, n)
    ensures i < |w.order| && w.order[i] == n
  {
    assert n in Elements(w.order);
    i :| 0 <= i < |w.order| && w.order[i] == n;
  }

  lemma GrantedFacts(w: Workload, s: Session)
    requires ValidWorkload(w) && Shaped(w, s) && InSync(s)
    ensures var granted := Obey(s, StepOnce);
      && Elements(w.order) == w.deps.Keys && Shaped(w, granted) && InSync(granted) && granted.states == s.states
      && granted.running == s.running && granted.budget == Some(1) && granted.cancelled == s.cancelled
      && (s.phase == AtTop ==> Enabled(granted, Tick))
  {
  }

  lemma MayStartOne(w: Workload, s: Session, started: set<Id>)
    requires MayDispatch(w, s, started) && s.budget == Some(1) && started != {}
    ensures |started| == 1
  {
    var n :| n in started;
    assert {n} <= started && |{n}| == 1;
    SubsetSize({n}, started);
    hide Ready, AllSucceeded;
  }

  lemma StartedHadRoom(w: Workload, s: Session, started: set<Id>)
    requires ValidWorkload(w) && Shaped(w, s) && InSync(s) && |s.running| <= w.limit
    requires started == DispatchedBy(w, Obey(s, StepOnce), Tick) && |started| == 1
    ensures s.phase == AtTop && !s.cancelled && |s.running| < w.limit && exists n :: Ready(w, s.states, n)
  {
    hide Pass, InOrder, ValidWorkload, InSync, DispatchedBy, Shaped, MayDispatch;
    var granted := Obey(s, StepOnce);
    GrantedShape(w, s);
    DispatchRules(w, granted, Tick);
    RoomToStart(w, granted, started);
    MayDispatchReady(w, granted, started);
  }

  lemma GrantedShape(w: Workload, s: Session)
    requires ValidWorkload(w) && Shaped(w, s) && InSync(s)
    ensures Shaped(w, Obey(s, StepOnce)) && InSync(Obey(s, StepOnce))
    ensures Elements(w.order) == w.deps.Keys
  {
  }

  lemma MayDispatchReady(w: Workload, s: Session, started: set<Id>)
    requires Shaped(w, s) && MayDispatch(w, s, started) && started != {}
    ensures exists n :: Ready(w, s.states, n)
  {
    var n :| n in started;
    assert Ready(w, s.states, n);
  }

  lemma RoomToStart(w: Workload, s: Session, started: set<Id>)
    requires MayDispatch(w, s, started) && started != {}
    ensures |s.running| < w.limit
  {
    var n :| n in started;
    assert {n} <= started;
    SubsetSize({n}, started);
  }

  lemma {:induction false} PassPauses(w: Workload, s: Session, k: nat, i: nat)
    requires ValidWorkload(w) && Shaped(w, s) && |s.running| < w.limit && s.budget == Some(0)
    requires k <= i < |w.order| && w.order[i] in s.states && s.states[w.order[i]] == Pending
    ensures Elements(w.order) == w.deps.Keys && Pass(w, s, k).paused
    decreases i - k
  {
    SchedulerConfluence.PassUnfolds(w, s, k);
    if s.states[w.order[k]] != Pending { PassPauses(w, s, k + 1, i); }
  }

  /** Once the step is used up, the next turn that has room and a pending node pauses the run. */
  lemma UsedStepPauses(w: Workload, s: Session, n: Id)
    requires ValidWorkload(w) && Shaped(w, s) && InSync(s) && s.budget == Some(0)
    requires Enabled(s, Tick) && !s.cancelled && |s.running| < w.limit && n in s.states && s.states[n] == Pending
    ensures Next(w, s, Tick).paused && DispatchedBy(w, s, Tick) == {}
  {
    assert n in Elements(w.order);
    var i :| 0 <= i < |w.order| && w.order[i] == n;
    PassPauses(w, s, 0, i);
    ExhaustedStepStays(w, s, Tick);
    hide Pass;
  }

  /** A used-up step stays used up: without another `step()`, `resume()` included, nothing is dispatched again. */
  lemma ExhaustedStepStays(w: Workload, s: Session, e: Event)
    requires ValidWorkload(w) && Shaped(w, s) && InSync(s) && s.budget == Some(0) && e != User(StepOnce)
    ensures Next(w, s, e).budget == Some(0) && DispatchedBy(w, s, e) == {}
    ensures InSync(Next(w, s, e))
  {
    hide *;
    OrderKeys(w);
    if e == Tick && Enabled(s, e) && !s.cancelled {
      ExhaustedTick(w, s);
    } else {
      ExhaustedOther(w, s, e);
    }
  }

  lemma ExhaustedTick(w: Workload, s: Session)
    requires ValidWorkload(w) && Shaped(w, s) && InSync(s) && s.budget == Some(0)
    requires Enabled(s, Tick) && !s.cancelled && Elements(w.order) == w.deps.Keys
    ensures Next(w, s, Tick).budget == Some(0) && DispatchedBy(w, s, Tick) == {} && InSync(Next(w, s, Tick))
  {
    ExhaustedPass(w, s);
    hide Pass, ValidWorkload, Elements;
  }

  lemma ExhaustedOther(w: Workload, s: Session, e: Event)
    requires Shaped(w, s) && InSync(s) && s.budget == Some(0) && e != User(StepOnce)
    requires Elements(w.order) == w.deps.Keys && !(e == Tick && Enabled(s, e) && !s.cancelled)
    ensures Next(w, s, e).budget == Some(0) && DispatchedBy(w, s, e) == {} && InSync(Next(w, s, e))
  {
    hide Pass, Elements;
  }

  lemma ExhaustedPass(w: Workload, s: Session)
    requires ValidWorkload(w) && Shaped(w, s) && InSync(s) && s.budget == Some(0)
    ensures
      var p := Pass(w, s, 0);
      p.states == s.states && p.running == s.running && p.budget == s.budget
  {
    PassAdvances(w, s, 0);
    hide Pass;
    var p := Pass(w, s, 0);
    forall n | n in s.states ensures p.states[n] == s.states[n] { assert Moved(w, s, p, n); }
    assert NewlyRunning(s.states, p.states) == {};
  }

  lemma {:induction false} StepThenResumeNeverDispatches(w: Workload, s: Session, es: seq<Event>)
    requires ValidWorkload(w) && Shaped(w, s) && InSync(s) && s.budget == Some(0)
    requires forall i :: 0 <= i < |es| ==> es[i] != User(StepOnce)
    ensures
      var r := Replay(w, s, es);
      r.budget == Some(0) && InSync(r) && r.running <= s.running
  {
    if |es| > 0 {
      var before, e := Replay(w, s, es[..|es| - 1]), es[|es| - 1];
      StepThenResumeNeverDispatches(w, s, es[..|es| - 1]);
      ExhaustedStepStays(w, before, e);
      RunningGrowsByDispatch(w, before, e);
    }
  }

  lemma RunningGrowsByDispatch(w: Workload, s: Session, e: Event)
    requires ValidWorkload(w) && Shaped(w, s) && InSync(s) && DispatchedBy(w, s, e) == {}
    ensures Next(w, s, e).running <= s.running
  {
    hide *;
    OrderKeys(w);
    if Enabled(s, e) && e == Tick && !s.cancelled {
      PassAdvances(w, s, 0);
      TickDispatches(w, s);
      PassRunning(w, s, Pass(w, s, 0));
      TickRunning(w, s);
    } else {
      OtherRunning(w, s, e);
    }
  }

  lemma TickRunning(w: Workload, s: Session)
    requires Shaped(w, s) && Elements(w.order) == w.deps.Keys && Enabled(s, Tick) && !s.cancelled
    ensures Next(w, s, Tick).running == Pass(w, s, 0).running
  {
    hide Pass, Shaped, Elements;
  }

  lemma OtherRunning(w: Workload, s: Session, e: Event)
    requires Shaped(w, s) && Elements(w.order) == w.deps.Keys && !(Enabled(s, e) && e == Tick && !s.cancelled)
    ensures Next(w, s, e).running <= s.running
  {
    hide Pass, Shaped, Elements, InOrder;
  }

  lemma PassRunning(w: Workload, s: Session, p: Session)
    requires Advances(w, s, p)
    ensures s.states.Keys == p.states.Keys && p.running == s.running + NewlyRunning(s.states, p.states)
  {
    hide Moved;
  }

  /** A cancelled run dispatches nothing more; its next turn returns with every open node cancelled. */
  lemma CancelledRunStops(w: Workload, s: Session, e: Event)
    requires ValidWorkload(w) && Shaped(w, s) && InSync(s) && s.cancelled
    ensures Next(w, s, e).cancelled && DispatchedBy(w, s, e) == {}
    ensures Enabled(s, e) && e == Tick ==>
      && Next(w, s, e).phase == Returned
      && forall n :: n in s.states ==>
          Next(w, s, e).states[n] == (if Terminal(s.states[n]) then s.states[n] else Cancelled)
  {
    OnlyTicksDispatch(w, s, e);
  }
}
