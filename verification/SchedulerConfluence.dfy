/** Every order of completions ends in the same states, and an undisturbed run always ends. */
module SchedulerConfluence {
  import opened Prelude
  import opened Dependencies
  import opened Scheduling
  import opened SchedulerSafety

  // ---- the verdict: final states as a function of the start and the runner outcomes ----

  /** The final state of one pending node, given those of its dependencies. */
  function FinalState(w: Workload, good: set<Id>, f: States, n: Id): NodeState
    requires n in w.deps
  {
    if HasBadDependency(w, f, n) then Blocked
    else if n in good then Succeeded
    else Failed
  }

  ghost predicate Verdict(w: Workload, start: States, good: set<Id>, f: States) {
    && f.Keys == w.deps.Keys == start.Keys
    && forall n :: n in f ==> f[n] == (if start[n] != Pending then start[n] else FinalState(w, good, f, n))
  }

  /** The verdict is unique. */
  lemma {:induction false} VerdictUniqueUpTo(w: Workload, start: States, good: set<Id>, f: States, h: States, k: nat)
    requires ValidWorkload(w) && k <= |w.order|
    requires Verdict(w, start, good, f) && Verdict(w, start, good, h)
    ensures forall x :: x in w.order[..k] ==> x in f && x in h && f[x] == h[x]
  {
    if k > 0 {
      VerdictUniqueUpTo(w, start, good, f, h, k - 1);
      var n := w.order[k - 1];
      assert w.order[..k] == w.order[..k - 1] + [n];
      assert n in Elements(w.order);
      assert forall d :: d in w.deps[n] ==> d in w.order[..k - 1];
      assert HasBadDependency(w, f, n) <==> HasBadDependency(w, h, n);
    }
  }

  lemma VerdictUnique(w: Workload, start: States, good: set<Id>, f: States, h: States)
    requires ValidWorkload(w) && Verdict(w, start, good, f) && Verdict(w, start, good, h)
    ensures f == h
  {
    VerdictUniqueUpTo(w, start, good, f, h, |w.order|);
    assert w.order[..|w.order|] == w.order;
    forall n | n in f ensures f[n] == h[n] { assert n in Elements(w.order); }
  }

  /** For a fresh start: succeeded, failed and blocked in terms of the dependencies and the runner. */
  lemma VerdictMeaning(w: Workload, start: States, good: set<Id>, f: States, n: Id)
    requires ValidWorkload(w) && Verdict(w, start, good, f) && n in f
    requires forall x :: x in start ==> start[x] == Pending
    ensures f[n] == Succeeded <==> AllSucceeded(w, f, n) && n in good
    ensures f[n] == Failed <==> AllSucceeded(w, f, n) && n !in good
    ensures f[n] == Blocked <==> !AllSucceeded(w, f, n)
  {
    if !HasBadDependency(w, f, n) {
      forall d | d in w.deps[n] ensures f[d] == Succeeded {
        assert f[d] == FinalState(w, good, f, d);
      }
    }
  }

  // ---- outcomes along a run ----

  /** The completion events report exactly the outcomes in `good`. */
  predicate Honest(good: set<Id>, e: Event) {
    e.Finish? ==> e.done * e.ok == e.done * good
  }

  predicate NoCancel(e: Event) {
    e != User(Cancel)
  }

  /** Nodes this run finished carry the outcome in `good`. */
  predicate Reported(start: States, good: set<Id>, s: Session) {
    forall n :: n in s.states && n in start && start[n] == Pending ==>
      && (s.states[n] == Succeeded ==> n in good)
      && (s.states[n] == Failed ==> n !in good)
  }

  lemma PassReports(w: Workload, start: States, good: set<Id>, s: Session)
    requires ValidWorkload(w) && Shaped(w, s) && InSync(s) && Reported(start, good, s)
    ensures Reported(start, good, AfterPass(Pass(w, s, 0)))
  {
    assert Elements(w.order) == w.deps.Keys;
    hide Pass, InSync, Reported, ValidWorkload;
    PassMoves(w, s);
    MovesKeepReported(start, good, s, AfterPass(Pass(w, s, 0)));
  }

  lemma MovesKeepReported(start: States, good: set<Id>, s: Session, r: Session)
    requires Reported(start, good, s) && r.states.Keys == s.states.Keys
    requires forall n :: n in s.states ==>
      r.states[n] == s.states[n] || (s.states[n] == Pending && r.states[n] in {Running, Blocked})
    ensures Reported(start, good, r)
  {
  }

  lemma CollectReports(w: Workload, start: States, good: set<Id>, s: Session, done: set<Id>, ok: set<Id>)
    requires Reported(start, good, s) && done * ok == done * good
    ensures Reported(start, good, Collect(w, s, done, ok))
  {
    hide InOrder;
    var r := Collect(w, s, done, ok);
    forall n | n in r.states && n in start && start[n] == Pending
      ensures r.states[n] == Succeeded ==> n in good
      ensures r.states[n] == Failed ==> n !in good
    {
      assert n in done ==> (n in done * ok <==> n in done * good);
    }
  }

  lemma EventKeepsReported(w: Workload, start: States, good: set<Id>, s: Session, e: Event)
    requires ValidWorkload(w) && Inv(w, start, s) && Reported(start, good, s) && Honest(good, e)
    ensures Reported(start, good, Next(w, s, e))
  {
    hide Justified, Pass, InOrder;
    if Enabled(s, e) {
      match e
      case User(c) =>
      case Tick => if !s.cancelled { PassReports(w, start, good, s); }
      case Finish(done, ok) => CollectReports(w, start, good, s, done, ok);
    }
  }

  lemma {:induction false} RunReported(w: Workload, s: Session, good: set<Id>, es: seq<Event>)
    requires ValidWorkload(w) && ValidStart(w, s.states) && s.running == {} && s.phase == AtTop && !s.cancelled
    requires forall i :: 0 <= i < |es| ==> Honest(good, es[i])
    ensures Reported(s.states, good, Replay(w, s, es))
  {
    if |es| > 0 {
      hide Inv, Next, Reported;
      RunReported(w, s, good, es[..|es| - 1]);
      RunInv(w, s, es[..|es| - 1]);
      EventKeepsReported(w, s.states, good, Replay(w, s, es[..|es| - 1]), es[|es| - 1]);
    }
  }

  lemma EventKeepsUncancelled(w: Workload, s: Session, e: Event)
    requires ValidWorkload(w) && Shaped(w, s) && InSync(s) && !s.cancelled && NoCancel(e)
    ensures !Next(w, s, e).cancelled
  {
    if Enabled(s, e) && e.Tick? { PassKeepsCancelled(w, s); }
    hide Pass, ValidWorkload, InSync, InOrder;
  }

  lemma PassKeepsCancelled(w: Workload, s: Session)
    requires ValidWorkload(w) && Shaped(w, s) && InSync(s)
    ensures Pass(w, s, 0).cancelled == s.cancelled
  {
    PassAdvances(w, s, 0);
    hide Pass, ValidWorkload, InSync;
  }

  lemma {:induction false} RunUncancelled(w: Workload, s: Session, es: seq<Event>)
    requires ValidWorkload(w) && ValidStart(w, s.states) && s.running == {} && s.phase == AtTop && !s.cancelled
    requires forall i :: 0 <= i < |es| ==> NoCancel(es[i])
    ensures !Replay(w, s, es).cancelled
  {
    if |es| > 0 {
      RunUncancelled(w, s, es[..|es| - 1]);
      RunInv(w, s, es[..|es| - 1]);
      EventKeepsUncancelled(w, Replay(w, s, es[..|es| - 1]), es[|es| - 1]);
    }
  }

  lemma JustifiedIsFinal(w: Workload, start: States, good: set<Id>, s: Session, n: Id)
    requires ValidWorkload(w) && ValidStart(w, start) && Inv(w, start, s) && Reported(start, good, s)
    requires s.phase == Returned && !s.cancelled && n in s.states && start[n] == Pending
    ensures s.states[n] == FinalState(w, good, s.states, n)
  {
    assert Justified(w, start, s, n);
  }

  /**
   * Confluence: any run without a cancel that returns, whatever its concurrency, pauses, steps, breakpoints
   * and completion order, ends with the verdict.
   */
  lemma Confluence(w: Workload, s: Session, good: set<Id>, es: seq<Event>)
    requires ValidWorkload(w) && ValidStart(w, s.states) && s.running == {} && s.phase == AtTop && !s.cancelled
    requires forall i :: 0 <= i < |es| ==> Honest(good, es[i]) && NoCancel(es[i])
    requires Replay(w, s, es).phase == Returned
    ensures Verdict(w, s.states, good, Replay(w, s, es).states)
  {
    RunInv(w, s, es);
    RunReported(w, s, good, es);
    RunUncancelled(w, s, es);
    var r := Replay(w, s, es);
    forall n | n in r.states
      ensures r.states[n] == (if s.states[n] != Pending then s.states[n] else FinalState(w, good, r.states, n))
    {
      assert Justified(w, s.states, r, n);
      if s.states[n] == Pending { JustifiedIsFinal(w, s.states, good, r, n); }
    }
  }

  lemma VerdictIgnoresOrder(v: Workload, w: Workload, start: States, good: set<Id>, f: States)
    requires v.deps == w.deps && Verdict(v, start, good, f)
    ensures Verdict(w, start, good, f)
  {
    forall n | n in w.deps ensures FinalState(w, good, f, n) == FinalState(v, good, f, n) {
      assert HasBadDependency(w, f, n) <==> HasBadDependency(v, f, n);
    }
  }

  /** Two such runs of the same graph, under different limits and schedules, end in the same states. */
  lemma SameOutcome(w: Workload, v: Workload, s: Session, t: Session, good: set<Id>, es: seq<Event>, fs: seq<Event>)
    requires ValidWorkload(w) && ValidWorkload(v) && w.deps == v.deps
    requires ValidStart(w, s.states) && s.states == t.states
    requires s.running == t.running == {} && s.phase == t.phase == AtTop && !s.cancelled && !t.cancelled
    requires forall i :: 0 <= i < |es| ==> Honest(good, es[i]) && NoCancel(es[i])
    requires forall i :: 0 <= i < |fs| ==> Honest(good, fs[i]) && NoCancel(fs[i])
    requires Replay(w, s, es).phase == Returned && Replay(v, t, fs).phase == Returned
    ensures Replay(w, s, es).states == Replay(v, t, fs).states
  {
    Confluence(w, s, good, es);
    Confluence(v, t, good, fs);
    var f, h := Replay(w, s, es).states, Replay(v, t, fs).states;
    VerdictIgnoresOrder(v, w, s.states, good, h);
    hide Verdict, Replay;
    VerdictUnique(w, s.states, good, f, h);
  }

  lemma {:induction false} ClosedChain(m: DepMap, st: States, p: seq<Id>)
    requires ClosedStates(m, st) && Chain(m, p) && p[0] in st && st[p[0]] == Succeeded
    ensures p[|p| - 1] in st && st[p[|p| - 1]] == Succeeded
  {
    if |p| > 1 {
      assert Chain(m, p[1..]);
      ClosedChain(m, st, p[1..]);
    }
  }

  lemma {:induction false} BadChain(w: Workload, start: States, good: set<Id>, f: States, p: seq<Id>)
    requires ValidWorkload(w) && ClosedStates(w.deps, start) && Verdict(w, start, good, f)
    requires ValidStart(w, start) && Chain(w.deps, p) && p[0] in start
    requires p[|p| - 1] in start && Bad(start[p[|p| - 1]])
    ensures Bad(f[p[0]]) && (start[p[0]] == Pending ==> f[p[0]] == Blocked)
  {
    if |p| > 1 {
      assert Chain(w.deps, p[1..]);
      BadChain(w, start, good, f, p[1..]);
      if start[p[0]] == Succeeded { ClosedChain(w.deps, start, p); }
    }
  }

  /** A pending node with a bad ancestor ends blocked, whatever its other dependencies do. */
  lemma BadAncestorBlocks(w: Workload, start: States, good: set<Id>, f: States, n: Id, a: Id)
    requires ValidWorkload(w) && ClosedStates(w.deps, start) && Verdict(w, start, good, f)
    requires n in start && start[n] == Pending && a in start && Bad(start[a]) && DependsOn(w.deps, n, a)
    requires ValidStart(w, start)
    ensures f[n] == Blocked
  {
    var p :| |p| >= 2 && Chain(w.deps, p) && p[0] == n && p[|p| - 1] == a;
    BadChain(w, start, good, f, p);
  }

  // ---- progress and termination of an undisturbed run ----

  predicate Undisturbed(s: Session) {
    s.breakpoints == {} && s.budget.None? && !s.paused && !s.cancelled
  }

  /** A pending node that still waits for a dependency. */
  predicate Waits(w: Workload, st: States, n: Id)
    requires n in w.deps
  {
    exists d :: d in w.deps[n] && d in st && !Terminal(st[d])
  }

  predicate PrefixWaits(w: Workload, st: States, k: nat)
    requires k <= |w.order| && Elements(w.order) == w.deps.Keys
  {
    forall i :: 0 <= i < k ==> WaitsAt(w, st, i)
  }

  predicate WaitsAt(w: Workload, st: States, i: nat)
    requires i < |w.order| && Elements(w.order) == w.deps.Keys
  {
    var n := w.order[i];
    assert n in Elements(w.order);
    n in st && (st[n] == Pending ==> Waits(w, st, n))
  }

  lemma LaterIsNoDependency(w: Workload, i: nat, k: nat)
    requires ValidWorkload(w) && i < k < |w.order|
    ensures w.order[i] in w.deps && w.order[i] != w.order[k] && w.order[k] !in w.deps[w.order[i]]
  {
    assert w.order[i] in Elements(w.order);
    assert w.order[k] !in w.order[..i];
  }

  /** Visiting position `k` leaves position `k` waiting or decided, and earlier positions as they were. */
  lemma VisitWaits(w: Workload, s: Session, k: nat)
    requires ValidWorkload(w) && Shaped(w, s) && k < |w.order| && |s.running| < w.limit
    requires PrefixWaits(w, s.states, k)
    ensures w.order[k] in w.deps
    ensures
      var v := VisitNode(w, s, w.order[k]);
      && (v.Stop? ==> v.session.paused)
      && (v.Go? ==> PrefixWaits(w, v.session.states, k + 1))
      && (Undisturbed(s) ==> v.Go? && Undisturbed(v.session))
  {
    var n := w.order[k];
    assert n in Elements(w.order);
    if VisitNode(w, s, n).Stop? { return; }
    var r := VisitNode(w, s, n).session;
    forall i | 0 <= i < k + 1 ensures WaitsAt(w, r.states, i) {
      if i < k {
        assert WaitsAt(w, s.states, i);
        LaterIsNoDependency(w, i, k);
      } else if r.states[n] == Pending {
        assert !HasBadDependency(w, s.states, n) && !AllSucceeded(w, s.states, n);
      }
    }
  }

  lemma {:induction false} PassWaits(w: Workload, s: Session, k: nat)
    requires ValidWorkload(w) && Shaped(w, s) && InSync(s) && k <= |w.order|
    requires PrefixWaits(w, s.states, k)
    ensures
      var r := Pass(w, s, k);
      && (Undisturbed(s) ==> Undisturbed(r))
      && (r.paused || |r.running| >= w.limit || PrefixWaits(w, r.states, |w.order|))
    decreases |w.order| - k
  {
    hide *;
    PassUnfolds(w, s, k);
    if k < |w.order| && |s.running| < w.limit {
      VisitWaits(w, s, k);
      VisitAdvances(w, s, w.order[k]);
      if VisitNode(w, s, w.order[k]).Go? {
        PassWaits(w, VisitNode(w, s, w.order[k]).session, k + 1);
      }
    }
  }

  lemma PassUnfolds(w: Workload, s: Session, k: nat)
    requires ValidWorkload(w) && Shaped(w, s) && k <= |w.order|
    ensures Elements(w.order) == w.deps.Keys
    ensures k == |w.order| || |s.running| >= w.limit ==> Pass(w, s, k) == s
    ensures k < |w.order| ==> w.order[k] in w.deps && w.deps[w.order[k]] <= w.deps.Keys
    ensures k < |w.order| && VisitNode(w, s, w.order[k]).Go? ==>
      Pass(w, s, k) == Pass(w, VisitNode(w, s, w.order[k]).session, k + 1)
    ensures k < |w.order| && VisitNode(w, s, w.order[k]).Stop? ==>
      Pass(w, s, k) == VisitNode(w, s, w.order[k]).session
  {
    hide InSync, HasBadDependency, AllSucceeded, Block, Start;
    if k < |w.order| { assert w.order[k] in Elements(w.order); }
  }

  /** With nothing running and every pending node waiting, nothing is pending. */
  lemma {:induction false} NothingPending(w: Workload, s: Session, k: nat)
    requires ValidWorkload(w) && Shaped(w, s) && InSync(s) && s.running == {} && k <= |w.order|
    requires PrefixWaits(w, s.states, |w.order|)
    ensures forall x :: x in w.order[..k] ==> x in s.states && Terminal(s.states[x])
  {
    if k > 0 {
      NothingPending(w, s, k - 1);
      var n := w.order[k - 1];
      assert w.order[..k] == w.order[..k - 1] + [n];
      assert WaitsAt(w, s.states, k - 1);
      assert forall d :: d in w.deps[n] ==> d in w.order[..k - 1];
    }
  }

  /** A pass leaves a task running, pauses, or leaves every node decided. */
  lemma PassProgress(w: Workload, s: Session)
    requires ValidWorkload(w) && Shaped(w, s) && InSync(s)
    ensures
      var p := Pass(w, s, 0);
      && (p.running != {} || p.paused || AllTerminal(p.states))
      && (Undisturbed(s) ==> Undisturbed(p))
  {
    PassAdvances(w, s, 0);
    PassWaits(w, s, 0);
    var p := Pass(w, s, 0);
    if p.running == {} && !p.paused {
      NothingPending(w, p, |w.order|);
      assert w.order[..|w.order|] == w.order;
      forall n | n in p.states ensures Terminal(p.states[n]) { assert n in Elements(w.order); }
    }
  }

  /**
   * A turn never spins: it leaves a task running, returns with every node decided, or pauses; an undisturbed one
   * does not pause.
   */
  lemma TickProgress(w: Workload, s: Session)
    requires ValidWorkload(w) && Shaped(w, s) && InSync(s) && !s.cancelled && s.phase == AtTop && !s.paused
    ensures
      var r := Next(w, s, Tick);
      && (r.phase == Awaiting ==> r.running != {})
      && (r.phase == Returned ==> r.running == {} && AllTerminal(r.states))
      && (r.phase == AtTop ==> r.running == {} && r.paused)
      && (Undisturbed(s) ==> Undisturbed(r) && r.phase != AtTop)
  {
    PassProgress(w, s);
    PassAdvances(w, s, 0);
    hide Pass, ValidWorkload;
  }

  function Unfinished(st: States): set<Id> {
    set n | n in st && !Terminal(st[n])
  }

  /** Falls with every effective turn or completion of an undisturbed run. */
  function Rank(s: Session): nat {
    if s.phase == Returned then 0
    else 2 * |Unfinished(s.states)| + (if s.phase == AtTop then 1 else 0)
  }

  lemma TickLowersRank(w: Workload, s: Session)
    requires ValidWorkload(w) && Shaped(w, s) && InSync(s) && !s.cancelled && s.phase == AtTop && !s.paused
    ensures
      var r := Next(w, s, Tick);
      if r.phase == AtTop then r.paused && Rank(r) <= Rank(s) else Rank(r) < Rank(s)
  {
    TickProgress(w, s);
    PassMoves(w, s);
    hide Pass, ValidWorkload;
    var p := Pass(w, s, 0);
    assert Unfinished(p.states) <= Unfinished(s.states);
    SubsetSize(Unfinished(p.states), Unfinished(s.states));
  }

  lemma FinishLowersRank(w: Workload, s: Session, done: set<Id>, ok: set<Id>)
    requires Shaped(w, s) && InSync(s) && Enabled(s, Finish(done, ok))
    ensures Rank(Collect(w, s, done, ok)) < Rank(s)
  {
    var r := Collect(w, s, done, ok);
    var n :| n in done;
    assert n in Unfinished(s.states) && n !in Unfinished(r.states);
    SubsetSize(Unfinished(r.states), Unfinished(s.states) - {n});
    assert |Unfinished(s.states) - {n}| == |Unfinished(s.states)| - 1;
  }

  /** Each event of the list is a scheduler turn or a completion, and takes effect when it comes. */
  predicate Effective(w: Workload, s: Session, es: seq<Event>)
    requires Shaped(w, s) && Elements(w.order) == w.deps.Keys
  {
    |es| == 0 ||
    (var before, e := es[..|es| - 1], es[|es| - 1];
     Effective(w, s, before) && !e.User? && Enabled(Replay(w, s, before), e))
  }

  /** An undisturbed run makes at most 2n + 1 effective steps, and before it returns a next one exists. */
  lemma {:induction false} Terminates(w: Workload, s: Session, es: seq<Event>)
    requires ValidWorkload(w) && ValidStart(w, s.states) && s.running == {} && s.phase == AtTop && Undisturbed(s)
    requires Effective(w, s, es)
    ensures
      var r := Replay(w, s, es);
      && Undisturbed(r)
      && |es| + Rank(r) <= 2 * |w.deps| + 1
      && (r.phase != Returned ==> Enabled(r, Tick) || Enabled(r, Finish(r.running, {})))
  {
    RunInv(w, s, es);
    if |es| == 0 {
      SubsetSize(Unfinished(s.states), w.deps.Keys);
    } else {
      var before, e := es[..|es| - 1], es[|es| - 1];
      Terminates(w, s, before);
      RunInv(w, s, before);
      hide Inv, Next;
      StepLowersRank(w, s.states, Replay(w, s, before), e);
    }
    if Replay(w, s, es).phase != Returned { NotStuck(w, s.states, Replay(w, s, es)); }
  }

  lemma NotStuck(w: Workload, start: States, s: Session)
    requires Inv(w, start, s) && Undisturbed(s) && s.phase != Returned
    ensures Enabled(s, Tick) || Enabled(s, Finish(s.running, {}))
  {
  }

  lemma StepLowersRank(w: Workload, start: States, s: Session, e: Event)
    requires ValidWorkload(w) && Inv(w, start, s) && Undisturbed(s) && Enabled(s, e) && !e.User?
    ensures Undisturbed(Next(w, s, e)) && Rank(Next(w, s, e)) < Rank(s)
  {
    hide Justified, Pass;
    match e
    case Tick =>
      TickLowersRank(w, s);
      TickProgress(w, s);
    case Finish(done, ok) => FinishLowersRank(w, s, done, ok);
  }
}
