/** What every run of the scheduler keeps: bounds, dependency order, write exclusion, merge order. */
module SchedulerSafety {
  import opened Prelude
  import opened Dependencies
  import opened Scheduling
  import opened RepoPath
  import TaskGraph

  // ---- one pass ----

  lemma SameAdvances(w: Workload, s: Session, r: Session)
    requires Shaped(w, s) && r == s.(paused := r.paused, emitted := r.emitted) && (s.paused ==> r.paused)
    ensures Advances(w, s, r)
  {
    assert NewlyRunning(s.states, r.states) == {};
  }

  lemma BlockAdvances(w: Workload, s: Session, n: Id)
    requires Shaped(w, s) && InSync(s) && n in w.deps
    requires s.states[n] == Pending && (n !in s.breakpoints || s.budget.Some?) && s.budget != Some(0)
    requires HasBadDependency(w, s.states, n)
    ensures
      var r := Block(s, n);
      Advances(w, s, r) && InSync(r)
  {
    var r := Block(s, n);
    assert NewlyRunning(s.states, r.states) == {};
    var d :| d in w.deps[n] && d in s.states && Bad(s.states[d]);
    assert Bad(r.states[d]);
  }

  lemma DispatchAdvances(w: Workload, s: Session, n: Id)
    requires Shaped(w, s) && InSync(s) && n in w.deps && |s.running| < w.limit
    requires s.states[n] == Pending && (n !in s.breakpoints || s.budget.Some?) && s.budget != Some(0)
    requires AllSucceeded(w, s.states, n)
    ensures
      var r := VisitNode(w, s, n).session;
      Advances(w, s, r) && InSync(r)
  {
    var r := VisitNode(w, s, n).session;
    assert !HasBadDependency(w, s.states, n);
    assert r.states == s.states[n := Running] && r.running == s.running + {n};
    assert NewlyRunning(s.states, r.states) == {n};
    assert n !in s.running;
    forall m | m in s.states ensures Moved(w, s, r, m) {
      if m == n { assert AllSucceeded(w, r.states, n); }
    }
  }

  lemma VisitAdvances(w: Workload, s: Session, n: Id)
    requires Shaped(w, s) && InSync(s) && n in w.deps
    ensures
      var r := VisitNode(w, s, n).session;
      Advances(w, s, r) && InSync(r)
  {
    var r := VisitNode(w, s, n).session;
    if r.states == s.states {
      SameAdvances(w, s, r);
    } else if HasBadDependency(w, s.states, n) {
      BlockAdvances(w, s, n);
    } else {
      DispatchAdvances(w, s, n);
    }
  }

  lemma MovedCompose(w: Workload, s: Session, t: Session, r: Session, n: Id)
    requires Advances(w, s, t) && Advances(w, t, r) && n in s.states
    ensures Moved(w, s, r, n)
  {
    assert Moved(w, s, t, n) && Moved(w, t, r, n);
    forall d | d in w.deps[n] && d in t.states && Terminal(t.states[d]) ensures r.states[d] == t.states[d] {
      assert Moved(w, t, r, d);
    }
  }

  lemma AdvancesCompose(w: Workload, s: Session, t: Session, r: Session)
    requires Advances(w, s, t) && Advances(w, t, r)
    ensures Advances(w, s, r)
  {
    forall n | n in s.states ensures Moved(w, s, r, n) { MovedCompose(w, s, t, r, n); }
    assert NewlyRunning(s.states, r.states) == NewlyRunning(s.states, t.states) + NewlyRunning(t.states, r.states) by {
      forall n | n in s.states
        ensures n in NewlyRunning(s.states, r.states) <==>
                n in NewlyRunning(s.states, t.states) + NewlyRunning(t.states, r.states)
      {
        assert Moved(w, s, t, n) && Moved(w, t, r, n);
      }
    }
  }

  lemma {:induction false} PassAdvances(w: Workload, s: Session, from: nat)
    requires ValidWorkload(w) && Shaped(w, s) && InSync(s) && from <= |w.order|
    ensures Advances(w, s, Pass(w, s, from)) && InSync(Pass(w, s, from))
    decreases |w.order| - from
  {
    hide Advances, InSync, VisitNode;
    if from == |w.order| {
      SameAdvances(w, s, s);
    } else {
      assert w.order[from] in Elements(w.order);
      VisitAdvances(w, s, w.order[from]);
      match VisitNode(w, s, w.order[from])
      case Stop(r) =>
        assert Pass(w, s, from) == r;
      case Go(t) =>
        var r := Pass(w, t, from + 1);
        assert Pass(w, s, from) == r;
        PassAdvances(w, t, from + 1);
        AdvancesCompose(w, s, t, r);
    }
  }

  // ---- the invariant of every run ----

  /** What a run may start from: a reloaded session has no running node. */
  predicate ValidStart(w: Workload, start: States) {
    && start.Keys == w.deps.Keys
    && forall n :: n in start ==> start[n] != Running
  }

  /** How node `n` may stand when the run started from `start`. */
  predicate Justified(w: Workload, start: States, s: Session, n: Id)
    requires n in w.deps && n in start && n in s.states
  {
    if start[n] != Pending then s.states[n] == start[n]
    else match s.states[n]
      case Pending => true
      case Running => AllSucceeded(w, s.states, n)
      case Succeeded => AllSucceeded(w, s.states, n)
      case Failed => AllSucceeded(w, s.states, n)
      case Blocked => HasBadDependency(w, s.states, n)
      case Cancelled => s.cancelled && s.phase == Returned
  }

  ghost predicate Inv(w: Workload, start: States, s: Session) {
    && Shaped(w, s)
    && start.Keys == w.deps.Keys
    && InSync(s)
    && |s.running| <= w.limit
    && (forall n :: n in s.states ==> Justified(w, start, s, n))
    && (s.phase == Returned ==> AllTerminal(s.states))
    && (s.phase == Awaiting ==> s.running != {})
  }

  lemma StartInv(w: Workload, s: Session)
    requires ValidWorkload(w) && ValidStart(w, s.states)
    requires s.running == {} && s.phase == AtTop
    ensures Inv(w, s.states, s)
  {
  }

  /** Nodes that are done keep their state and those of their dependencies that are done. */
  lemma AdvanceKeepsTerminal(w: Workload, s: Session, r: Session, n: Id)
    requires Advances(w, s, r) && n in s.states && Terminal(s.states[n])
    ensures r.states[n] == s.states[n]
  {
    assert Moved(w, s, r, n);
  }

  lemma AdvanceKeepsJustified(w: Workload, start: States, s: Session, r: Session, n: Id)
    requires ValidStart(w, start) && Advances(w, s, r) && s.phase != Returned
    requires n in s.states && Justified(w, start, s, n)
    ensures Justified(w, start, r, n)
  {
    assert Moved(w, s, r, n);
    hide Advances;
    forall d | d in w.deps[n] && d in s.states && Terminal(s.states[d]) ensures r.states[d] == s.states[d] {
      AdvanceKeepsTerminal(w, s, r, d);
    }
  }

  lemma PassKeepsInv(w: Workload, start: States, s: Session)
    requires ValidWorkload(w) && ValidStart(w, start) && Inv(w, start, s) && s.phase == AtTop
    ensures Inv(w, start, AfterPass(Pass(w, s, 0)))
  {
    assert Shaped(w, s) && InSync(s) && Elements(w.order) == w.deps.Keys;
    hide *;
    PassAdvances(w, s, 0);
    AdvanceKeepsInv(w, start, s, Pass(w, s, 0));
  }

  lemma AdvanceKeepsInv(w: Workload, start: States, s: Session, p: Session)
    requires ValidWorkload(w) && ValidStart(w, start) && Inv(w, start, s) && s.phase == AtTop
    requires Advances(w, s, p) && InSync(p)
    ensures Inv(w, start, AfterPass(p))
  {
    hide Justified, Moved, ValidWorkload, ValidStart;
    AdvanceKeepsAllJustified(w, start, s, p, AfterPass(p));
  }

  lemma AdvanceKeepsAllJustified(w: Workload, start: States, s: Session, p: Session, r: Session)
    requires ValidStart(w, start) && Inv(w, start, s) && s.phase == AtTop && Advances(w, s, p)
    requires r.states == p.states && r.cancelled == p.cancelled
    ensures forall n :: n in r.states ==> Justified(w, start, r, n)
  {
    hide Justified, Moved;
    forall n | n in r.states ensures Justified(w, start, r, n) {
      AdvanceKeepsJustified(w, start, s, p, n);
      SamePlaceJustified(w, start, p, r, n);
    }
  }

  lemma SamePlaceJustified(w: Workload, start: States, p: Session, r: Session, n: Id)
    requires n in w.deps && n in start && n in p.states && Justified(w, start, p, n)
    requires r.states == p.states && r.cancelled == p.cancelled && (r.phase == p.phase || p.phase == AtTop)
    ensures Justified(w, start, r, n)
  {
  }

  lemma TickKeepsInv(w: Workload, start: States, s: Session)
    requires ValidWorkload(w) && ValidStart(w, start) && Inv(w, start, s)
    ensures Inv(w, start, Next(w, s, Tick))
  {
    if Enabled(s, Tick) {
      if s.cancelled {
        CancelKeepsInv(w, start, s);
      } else {
        PassKeepsInv(w, start, s);
      }
    }
  }

  lemma CancelKeepsInv(w: Workload, start: States, s: Session)
    requires ValidWorkload(w) && ValidStart(w, start) && Inv(w, start, s)
    requires s.cancelled && s.phase != Returned
    ensures Inv(w, start, AfterCancel(s))
  {
    hide Justified;
    var r := AfterCancel(s);
    forall n | n in r.states ensures Justified(w, start, r, n) { CancelKeepsJustified(w, start, s, n); }
  }

  lemma CancelKeepsJustified(w: Workload, start: States, s: Session, n: Id)
    requires ValidStart(w, start) && Shaped(w, s) && n in s.states && Justified(w, start, s, n)
    requires s.cancelled && s.phase != Returned
    ensures Justified(w, start, AfterCancel(s), n)
  {
    var r := AfterCancel(s);
    assert forall d :: d in w.deps[n] && d in s.states && Terminal(s.states[d]) ==> r.states[d] == s.states[d];
  }

  lemma CollectKeepsInv(w: Workload, start: States, s: Session, done: set<Id>, ok: set<Id>)
    requires ValidWorkload(w) && ValidStart(w, start) && Inv(w, start, s)
    requires Enabled(s, Finish(done, ok))
    ensures Inv(w, start, Collect(w, s, done, ok))
  {
    hide Justified, InOrder, ValidWorkload, ValidStart;
    var r := Collect(w, s, done, ok);
    SubsetSize(r.running, s.running);
    CollectKeepsShape(w, s, done, ok);
    hide Collect, Shaped, InSync;
    forall n | n in r.states ensures Justified(w, start, r, n) {
      CollectKeepsJustified(w, start, s, done, ok, n);
    }
  }

  lemma CollectKeepsShape(w: Workload, s: Session, done: set<Id>, ok: set<Id>)
    requires Shaped(w, s) && InSync(s) && done <= s.running
    ensures var r := Collect(w, s, done, ok);
      Shaped(w, r) && InSync(r) && r.running <= s.running && r.phase == AtTop
  {
    hide InOrder;
  }

  lemma CollectKeepsJustified(w: Workload, start: States, s: Session, done: set<Id>, ok: set<Id>, n: Id)
    requires ValidWorkload(w) && ValidStart(w, start) && Inv(w, start, s)
    requires done <= s.running && n in s.states && s.phase == Awaiting
    ensures Justified(w, start, Collect(w, s, done, ok), n)
  {
    var r := Collect(w, s, done, ok);
    assert Justified(w, start, s, n);
    assert forall d :: d in w.deps[n] && d in s.states && Terminal(s.states[d]) ==> r.states[d] == s.states[d];
  }

  lemma CommandKeepsInv(w: Workload, start: States, s: Session, c: Command)
    requires ValidWorkload(w) && Inv(w, start, s)
    ensures Inv(w, start, Obey(s, c))
  {
    hide Justified;
    var r := Obey(s, c);
    forall n | n in r.states ensures Justified(w, start, r, n) { CommandKeepsJustified(w, start, s, c, n); }
  }

  lemma CommandKeepsJustified(w: Workload, start: States, s: Session, c: Command, n: Id)
    requires n in w.deps && n in start && n in s.states && Justified(w, start, s, n)
    ensures Justified(w, start, Obey(s, c), n)
  {
  }

  /** The invariant holds after any list of events: any interleaving of commands, turns and completions. */
  lemma {:induction false} RunInv(w: Workload, s: Session, es: seq<Event>)
    requires ValidWorkload(w) && ValidStart(w, s.states) && s.running == {} && s.phase == AtTop
    ensures Inv(w, s.states, Replay(w, s, es))
  {
    if |es| == 0 {
      StartInv(w, s);
    } else {
      var before, e := Replay(w, s, es[..|es| - 1]), es[|es| - 1];
      RunInv(w, s, es[..|es| - 1]);
      if Enabled(before, e) {
        match e
        case User(c) => CommandKeepsInv(w, s.states, before, c);
        case Tick => TickKeepsInv(w, s.states, before);
        case Finish(done, ok) => CollectKeepsInv(w, s.states, before, done, ok);
      }
    }
  }

  // ---- dependencies of running and succeeded nodes ----

  lemma SucceededStaysClosed(w: Workload, start: States, s: Session)
    requires ValidWorkload(w) && ValidStart(w, start) && Inv(w, start, s) && ClosedStates(w.deps, start)
    ensures ClosedStates(w.deps, s.states)
  {
    forall n, d | n in s.states && n in w.deps && s.states[n] == Succeeded && d in w.deps[n]
      ensures d in s.states && s.states[d] == Succeeded
    {
      assert Justified(w, start, s, n);
      if start[n] != Pending { assert Justified(w, start, s, d); }
    }
  }

  /** Every direct or indirect dependency of a running or succeeded node has succeeded. */
  lemma AncestorsSucceeded(w: Workload, start: States, s: Session, n: Id, a: Id)
    requires ValidWorkload(w) && ValidStart(w, start) && Inv(w, start, s) && ClosedStates(w.deps, start)
    requires n in s.states && s.states[n] in {Running, Succeeded} && DependsOn(w.deps, n, a)
    ensures a in s.states && s.states[a] == Succeeded
  {
    assert n in w.deps && Known(w.deps) && s.states.Keys == w.deps.Keys;
    hide Known, Inv, ValidWorkload, ValidStart, DependsOn, ClosedStates;
    SucceededStaysClosed(w, start, s);
    DependsOnFirstStep(w.deps, n, a);
    var c :| c in w.deps[n] && (c == a || DependsOn(w.deps, c, a));
    DirectSucceeded(w, start, s, n, c);
    if c != a { ChainSucceeded(w.deps, s.states, c, a); }
  }

  lemma DirectSucceeded(w: Workload, start: States, s: Session, n: Id, d: Id)
    requires ValidWorkload(w) && ValidStart(w, start) && Inv(w, start, s) && ClosedStates(w.deps, start)
    requires n in s.states && n in w.deps && d in w.deps[n] && s.states[n] in {Running, Succeeded}
    ensures d in s.states && s.states[d] == Succeeded
  {
    assert Justified(w, start, s, n);
    hide DependsOn;
    if start[n] != Pending { assert Justified(w, start, s, d); }
  }

  lemma ChainSucceeded(m: DepMap, st: States, n: Id, a: Id)
    requires st.Keys == m.Keys && ClosedStates(m, st) && DependsOn(m, n, a)
    requires n in st && st[n] == Succeeded
    ensures a in st && st[a] == Succeeded
  {
    var closed := set x | x in st && st[x] == Succeeded;
    var p :| |p| >= 2 && Chain(m, p) && p[0] == n && p[|p| - 1] == a;
    ClosedUnderChains(m, closed, p);
  }

  // ---- write exclusion ----

  function WorkloadOf(g: TaskGraph.TaskGraph, limit: nat): Workload
    requires Order(TaskGraph.DependencyMap(g)).Some?
  {
    var nodes := TaskGraph.ById(g.nodes);
    Workload(TaskGraph.DependencyMap(g), Order(TaskGraph.DependencyMap(g)).value,
             (set id | id in nodes && nodes[id].Edits()), limit)
  }

  lemma WorkloadOfValid(g: TaskGraph.TaskGraph, limit: nat)
    requires TaskGraph.ValidGraph(g) && 1 <= limit <= 8
    ensures Order(TaskGraph.DependencyMap(g)).Some? && ValidWorkload(WorkloadOf(g, limit))
  {
    OrderExistsIffAcyclic(TaskGraph.DependencyMap(g));
    OrderIsTopological(TaskGraph.DependencyMap(g));
  }

  /** Two different nodes of a valid graph with overlapping claims are ordered by a chain. */
  lemma OverlapIsOrdered(g: TaskGraph.TaskGraph, a: Id, b: Id)
    requires TaskGraph.ValidGraph(g) && a != b
    requires a in TaskGraph.ById(g.nodes) && b in TaskGraph.ById(g.nodes)
    requires ClaimsOverlap(TaskGraph.ById(g.nodes)[a].writePaths, TaskGraph.ById(g.nodes)[b].writePaths)
    ensures TaskGraph.Ordered(g, a, b)
  {
    hide *;
    var i := IndexOf(g, a);
    var j := IndexOf(g, b);
    OverlapAt(g, i, j);
  }

  lemma OverlapAt(g: TaskGraph.TaskGraph, i: nat, j: nat)
    requires TaskGraph.ValidGraph(g) && i < |g.nodes| && j < |g.nodes| && i != j
    requires ClaimsOverlap(g.nodes[i].writePaths, g.nodes[j].writePaths)
    ensures TaskGraph.Ordered(g, g.nodes[i].nodeId, g.nodes[j].nodeId)
  {
    hide *;
    if i < j {
      ConflictOrdered(g, i, j);
    } else {
      ClaimsOverlapSymmetric(g.nodes[i].writePaths, g.nodes[j].writePaths);
      ConflictOrdered(g, j, i);
      OrderedSymmetric(g, g.nodes[i].nodeId, g.nodes[j].nodeId);
    }
  }

  lemma IndexOf(g: TaskGraph.TaskGraph, id: Id) returns (i: nat)
    requires id in TaskGraph.ById(g.nodes)
    ensures i < |g.nodes| && g.nodes[i] == TaskGraph.ById(g.nodes)[id] && g.nodes[i].nodeId == id
  {
    hide TaskGraph.ById;
    assert TaskGraph.ById(g.nodes)[id] in g.nodes;
    i :| 0 <= i < |g.nodes| && g.nodes[i] == TaskGraph.ById(g.nodes)[id];
  }

  lemma ConflictOrdered(g: TaskGraph.TaskGraph, i: nat, j: nat)
    requires TaskGraph.ValidGraph(g) && i < j < |g.nodes|
    requires ClaimsOverlap(g.nodes[i].writePaths, g.nodes[j].writePaths)
    ensures TaskGraph.Ordered(g, g.nodes[i].nodeId, g.nodes[j].nodeId)
  {
    assert TaskGraph.ConflictsOrdered(g);
    hide ClaimsOverlap, TaskGraph.Ordered, Acyclic, Known;
    assert TaskGraph.PairOrdered(g, i, j);
  }

  lemma OrderedSymmetric(g: TaskGraph.TaskGraph, a: Id, b: Id)
    ensures TaskGraph.Ordered(g, a, b) <==> TaskGraph.Ordered(g, b, a)
  {
    hide DependsOn, TaskGraph.DependencyMap;
  }

  lemma ClaimsOverlapSymmetric(left: seq<Path>, right: seq<Path>)
    requires ClaimsOverlap(left, right)
    ensures ClaimsOverlap(right, left)
  {
    var a, b :| a in left && b in right && PathsOverlap(a, b);
    assert PathsOverlap(b, a);
  }

  lemma ExclusiveWhenRunning(w: Workload, start: States, s: Session, a: Id, b: Id)
    requires ValidWorkload(w) && ValidStart(w, start) && ClosedStates(w.deps, start) && Inv(w, start, s)
    requires a in s.running && b in s.running
    ensures !DependsOn(w.deps, a, b)
  {
    if DependsOn(w.deps, a, b) { AncestorsSucceeded(w, start, s, a, b); }
  }

  lemma ExclusiveClaims(g: TaskGraph.TaskGraph, w: Workload, start: States, s: Session, a: Id, b: Id)
    requires TaskGraph.ValidGraph(g) && w.deps == TaskGraph.DependencyMap(g)
    requires ValidWorkload(w) && ValidStart(w, start) && ClosedStates(w.deps, start) && Inv(w, start, s)
    requires a in s.running && b in s.running && a != b
    ensures a in TaskGraph.ById(g.nodes) && b in TaskGraph.ById(g.nodes)
    ensures !ClaimsOverlap(TaskGraph.ById(g.nodes)[a].writePaths, TaskGraph.ById(g.nodes)[b].writePaths)
  {
    ExclusiveWhenRunning(w, start, s, a, b);
    ExclusiveWhenRunning(w, start, s, b, a);
    if ClaimsOverlap(TaskGraph.ById(g.nodes)[a].writePaths, TaskGraph.ById(g.nodes)[b].writePaths) {
      OverlapIsOrdered(g, a, b);
    }
  }

  /** No two different nodes of the set claim overlapping paths. */
  ghost predicate ExclusiveSet(g: TaskGraph.TaskGraph, nodes: set<Id>) {
    && nodes <= TaskGraph.ById(g.nodes).Keys
    && forall a, b :: a in nodes && b in nodes && a != b ==>
         !ClaimsOverlap(TaskGraph.ById(g.nodes)[a].writePaths, TaskGraph.ById(g.nodes)[b].writePaths)
  }

  lemma InvExclusive(g: TaskGraph.TaskGraph, w: Workload, start: States, s: Session)
    requires TaskGraph.ValidGraph(g) && w.deps == TaskGraph.DependencyMap(g)
    requires ValidWorkload(w) && ValidStart(w, start) && ClosedStates(w.deps, start) && Inv(w, start, s)
    ensures ExclusiveSet(g, s.running)
  {
    forall a, b | a in s.running && b in s.running && a != b
      ensures !ClaimsOverlap(TaskGraph.ById(g.nodes)[a].writePaths, TaskGraph.ById(g.nodes)[b].writePaths)
    {
      ExclusiveClaims(g, w, start, s, a, b);
    }
  }

  /**
   * In every reachable state the running set matches the RUNNING states, respects the bound, and
   * no two running nodes claim overlapping paths.
   */
  lemma WriteExclusion(g: TaskGraph.TaskGraph, w: Workload, s: Session, es: seq<Event>)
    requires TaskGraph.ValidGraph(g) && ValidWorkload(w) && w.deps == TaskGraph.DependencyMap(g)
    requires ValidStart(w, s.states) && ClosedStates(w.deps, s.states)
    requires s.running == {} && s.phase == AtTop
    ensures InSync(Replay(w, s, es)) && |Replay(w, s, es).running| <= w.limit
    ensures ExclusiveSet(g, Replay(w, s, es).running)
  {
    RunInv(w, s, es);
    InvExclusive(g, w, s.states, Replay(w, s, es));
  }

  // ---- the merge queue ----

  lemma {:induction false} InOrderMembers(order: seq<Id>, chosen: set<Id>)
    requires NoDuplicates(order)
    ensures forall x :: x in InOrder(order, chosen) <==> x in order && x in chosen
    ensures NoDuplicates(InOrder(order, chosen))
  {
    if |order| > 0 {
      assert NoDuplicates(order[1..]);
      InOrderMembers(order[1..], chosen);
      assert order == [order[0]] + order[1..];
      assert order[0] !in order[1..];
    }
  }

  /** The queue holds this run's succeeded editors once each, dependencies before dependents. */
  ghost predicate QueueInv(w: Workload, start: States, s: Session) {
    && Shaped(w, s) && start.Keys == w.deps.Keys
    && NoDuplicates(s.mergeQueue)
    && (forall n :: n in s.mergeQueue <==>
          n in w.editors && n in s.states && start[n] == Pending && s.states[n] == Succeeded)
    && (forall i, j :: 0 <= i < j < |s.mergeQueue| ==> !DependsOn(w.deps, s.mergeQueue[i], s.mergeQueue[j]))
  }

  lemma SameSucceededKeepsQueue(w: Workload, start: States, s: Session, r: Session)
    requires QueueInv(w, start, s) && Shaped(w, r) && r.mergeQueue == s.mergeQueue
    requires forall n :: n in s.states ==> (r.states[n] == Succeeded <==> s.states[n] == Succeeded)
    ensures QueueInv(w, start, r)
  {
  }

  lemma CollectKeepsQueue(w: Workload, start: States, s: Session, done: set<Id>, ok: set<Id>)
    requires ValidWorkload(w) && ValidStart(w, start) && ClosedStates(w.deps, start)
    requires Inv(w, start, s) && QueueInv(w, start, s) && Enabled(s, Finish(done, ok))
    ensures QueueInv(w, start, Collect(w, s, done, ok))
  {
    var r := Collect(w, s, done, ok);
    var chosen := done * ok * w.editors;
    var batch := InOrder(w.order, chosen);
    InOrderMembers(w.order, chosen);
    assert forall x :: x in w.deps ==> x in Elements(w.order);
    var old_ := s.mergeQueue;
    forall n | n in done ensures n in s.states && s.states[n] == Running && start[n] == Pending {
      assert Justified(w, start, s, n);
    }
    forall n ensures n in old_ + batch <==>
      n in w.editors && n in r.states && start[n] == Pending && r.states[n] == Succeeded
    {
      assert n in old_ + batch <==> n in old_ || n in batch;
    }
    assert Elements(old_) !! Elements(batch);
    ConcatNoDuplicates(old_, batch);
    BatchInOrder(w, start, s, old_, batch);
  }

  /** What is still running is no ancestor of what has succeeded or is running. */
  lemma BatchInOrder(w: Workload, start: States, s: Session, old_: seq<Id>, batch: seq<Id>)
    requires ValidWorkload(w) && ValidStart(w, start) && ClosedStates(w.deps, start) && Inv(w, start, s)
    requires forall n :: n in old_ ==> n in s.states && s.states[n] == Succeeded
    requires forall n :: n in batch ==> n in s.states && s.states[n] == Running
    requires forall i, j :: 0 <= i < j < |old_| ==> !DependsOn(w.deps, old_[i], old_[j])
    ensures forall i, j :: 0 <= i < j < |old_ + batch| ==> !DependsOn(w.deps, (old_ + batch)[i], (old_ + batch)[j])
  {
    hide *;
    var all := old_ + batch;
    forall i, j | 0 <= i < j < |all| ensures !DependsOn(w.deps, all[i], all[j]) {
      if j >= |old_| {
        assert all[j] == batch[j - |old_|] && all[j] in batch;
        assert all[i] in old_ || all[i] in batch;
        if DependsOn(w.deps, all[i], all[j]) { AncestorsSucceeded(w, start, s, all[i], all[j]); }
      }
    }
  }

  /** A pass leaves the queue alone and only starts or blocks pending nodes. */
  lemma PassMoves(w: Workload, s: Session)
    requires ValidWorkload(w) && Shaped(w, s) && InSync(s)
    ensures
      var p := Pass(w, s, 0);
      && p.mergeQueue == s.mergeQueue
      && forall n :: n in s.states ==>
           p.states[n] == s.states[n] || (s.states[n] == Pending && p.states[n] in {Running, Blocked})
  {
    PassAdvances(w, s, 0);
    hide Pass;
    var p := Pass(w, s, 0);
    forall n | n in s.states
      ensures p.states[n] == s.states[n] || (s.states[n] == Pending && p.states[n] in {Running, Blocked})
    {
      assert Moved(w, s, p, n);
    }
  }

  lemma TickKeepsQueue(w: Workload, start: States, s: Session)
    requires ValidWorkload(w) && Shaped(w, s) && InSync(s) && QueueInv(w, start, s) && Enabled(s, Tick)
    requires Elements(w.order) == w.deps.Keys
    ensures QueueInv(w, start, Next(w, s, Tick))
  {
    hide QueueInv, ValidWorkload, Pass, Known, InSync, Elements;
    if s.cancelled {
      SameSucceededKeepsQueue(w, start, s, AfterCancel(s));
    } else {
      PassMoves(w, s);
      SameSucceededKeepsQueue(w, start, s, AfterPass(Pass(w, s, 0)));
    }
  }

  lemma StartQueueInv(w: Workload, s: Session)
    requires ValidWorkload(w) && ValidStart(w, s.states) && s.mergeQueue == []
    ensures QueueInv(w, s.states, s)
  {
  }

  lemma EventKeepsQueue(w: Workload, start: States, s: Session, e: Event)
    requires ValidWorkload(w) && ValidStart(w, start) && ClosedStates(w.deps, start)
    requires Inv(w, start, s) && QueueInv(w, start, s)
    ensures QueueInv(w, start, Next(w, s, e))
  {
    assert Shaped(w, s) && InSync(s) && Elements(w.order) == w.deps.Keys;
    hide *;
    NextIs(w, s, e);
    if Enabled(s, e) {
      match e
      case User(c) => ObeyKeepsQueue(w, start, s, c);
      case Tick => TickKeepsQueue(w, start, s);
      case Finish(done, ok) => CollectKeepsQueue(w, start, s, done, ok);
    }
  }

  /** A run only adds to the queue, at its end. */
  lemma {:induction false} QueueGrows(w: Workload, s: Session, es: seq<Event>)
    requires ValidWorkload(w) && Shaped(w, s) && InSync(s)
    requires ValidStart(w, s.states) && s.running == {} && s.phase == AtTop
    ensures Elements(w.order) == w.deps.Keys && s.mergeQueue <= Replay(w, s, es).mergeQueue
  {
    assert Elements(w.order) == w.deps.Keys;
    hide ValidWorkload, ValidStart, Next, Inv;
    if es != [] {
      var before, e := Replay(w, s, es[..|es| - 1]), es[|es| - 1];
      QueueGrows(w, s, es[..|es| - 1]);
      RunInv(w, s, es[..|es| - 1]);
      InvShaped(w, s.states, before);
      QueueStep(w, before, e);
    }
  }

  lemma InvShaped(w: Workload, start: States, s: Session)
    requires Inv(w, start, s)
    ensures Shaped(w, s) && InSync(s)
  {
    hide Justified;
  }

  lemma QueueStep(w: Workload, s: Session, e: Event)
    requires ValidWorkload(w) && Shaped(w, s) && InSync(s)
    ensures Elements(w.order) == w.deps.Keys && s.mergeQueue <= Next(w, s, e).mergeQueue
  {
    assert Elements(w.order) == w.deps.Keys;
    hide *;
    NextIs(w, s, e);
    PassMoves(w, s);
    if Enabled(s, e) {
      match e
      case User(c) => QueueKept(s, c);
      case Tick =>
        EndKeepsQueue(s);
        EndKeepsQueue(Pass(w, s, 0));
      case Finish(done, ok) => CollectAddsQueue(w, s, done, ok);
    }
  }

  lemma QueueKept(s: Session, c: Command)
    ensures Obey(s, c).mergeQueue == s.mergeQueue
  {
  }

  lemma EndKeepsQueue(s: Session)
    ensures AfterCancel(s).mergeQueue == s.mergeQueue && AfterPass(s).mergeQueue == s.mergeQueue
  {
  }

  lemma CollectAddsQueue(w: Workload, s: Session, done: set<Id>, ok: set<Id>)
    ensures s.mergeQueue <= Collect(w, s, done, ok).mergeQueue
  {
    hide InOrder;
  }

  lemma NextIs(w: Workload, s: Session, e: Event)
    requires Shaped(w, s) && Elements(w.order) == w.deps.Keys
    ensures !Enabled(s, e) ==> Next(w, s, e) == s
    ensures e.User? ==> Enabled(s, e) && Next(w, s, e) == Obey(s, e.command)
    ensures e.Finish? && Enabled(s, e) ==> Next(w, s, e) == Collect(w, s, e.done, e.ok)
    ensures e.Tick? && Enabled(s, e) ==>
      Next(w, s, e) == if s.cancelled then AfterCancel(s) else AfterPass(Pass(w, s, 0))
  {
    hide Pass, Collect, Obey, AfterCancel, AfterPass;
  }

  lemma ObeyKeepsQueue(w: Workload, start: States, s: Session, c: Command)
    requires QueueInv(w, start, s) && Shaped(w, s)
    ensures QueueInv(w, start, Obey(s, c))
  {
    hide QueueInv;
    SameSucceededKeepsQueue(w, start, s, Obey(s, c));
  }

  lemma {:induction false} RunQueueInv(w: Workload, s: Session, es: seq<Event>)
    requires ValidWorkload(w) && ValidStart(w, s.states) && ClosedStates(w.deps, s.states)
    requires s.running == {} && s.phase == AtTop && s.mergeQueue == []
    ensures QueueInv(w, s.states, Replay(w, s, es))
  {
    assert Shaped(w, s) && Elements(w.order) == w.deps.Keys;
    hide QueueInv, Inv, ValidWorkload, ValidStart, ClosedStates, Next;
    if |es| == 0 {
      StartQueueInv(w, s);
    } else {
      RunQueueInv(w, s, es[..|es| - 1]);
      RunInv(w, s, es[..|es| - 1]);
      EventKeepsQueue(w, s.states, Replay(w, s, es[..|es| - 1]), es[|es| - 1]);
    }
  }

  /** Wherever one listed node depends on another, it comes later. */
  ghost predicate DependenciesFirst(m: DepMap, queue: seq<Id>) {
    forall i, j :: 0 <= i < |queue| && 0 <= j < |queue| && DependsOn(m, queue[j], queue[i]) ==> i < j
  }

  /** For a fresh session: exactly the succeeded editors, once each, in a linear extension of the dependencies. */
  lemma MergeOrder(w: Workload, s: Session, es: seq<Event>)
    requires ValidWorkload(w) && s.states.Keys == w.deps.Keys
    requires s == Fresh(w, s.states) && forall n :: n in s.states ==> s.states[n] == Pending
    ensures
      var now := Replay(w, s, es);
      && NoDuplicates(now.mergeQueue)
      && (forall n :: n in now.mergeQueue <==> n in w.editors && now.states[n] == Succeeded)
      && DependenciesFirst(w.deps, now.mergeQueue)
  {
    var now := Replay(w, s, es);
    RunQueueInv(w, s, es);
    assert now.states.Keys == w.deps.Keys;
    assert w.editors <= w.deps.Keys;
    TopologicalIsAcyclic(w.deps, w.order);
  }
}
