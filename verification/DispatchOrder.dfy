/** The order in which a run dispatches its nodes, and the provider each of them gets for it. */
module DispatchOrder {
  import opened Prelude
  import opened Dependencies
  import opened Scheduling
  import opened SchedulerControls
  import Providers
  import SchedulerCommands
  import SchedulerSafety
  import TaskGraph

  /** The nodes that start between two node states, in dispatch order. */
  function Started(w: Workload, before: States, after: States): seq<Id>
    requires before.Keys == after.Keys
  {
    InOrder(w.order, NewlyRunning(before, after))
  }

  /** The nodes a run has dispatched, in the order in which it did. */
  function Dispatched(w: Workload, s: Session, es: seq<Event>): seq<Id>
    requires Shaped(w, s) && Elements(w.order) == w.deps.Keys
  {
    if es == [] then []
    else
      var n := |es| - 1;
      var before := Replay(w, s, es[..n]);
      Dispatched(w, s, es[..n]) + Started(w, before.states, Next(w, before, es[n]).states)
  }

  lemma DispatchedStep(w: Workload, s: Session, es: seq<Event>, e: Event)
    requires Shaped(w, s) && Elements(w.order) == w.deps.Keys
    ensures
      var before := Replay(w, s, es);
      && Dispatched(w, s, es + [e])
           == Dispatched(w, s, es) + Started(w, before.states, Next(w, before, e).states)
      && (DispatchedBy(w, before, e) == {} ==> Dispatched(w, s, es + [e]) == Dispatched(w, s, es))
  {
    assert (es + [e])[..|es|] == es;
    hide Next, Replay;
    InOrderNone(w.order);
  }

  lemma {:induction false} InOrderNone(order: seq<Id>)
    ensures InOrder(order, {}) == []
  {
    if order != [] { InOrderNone(order[1..]); }
  }

  // ---- every node at most once ----

  /** `d` is what was dispatched on the way from `start` to `now`. */
  ghost predicate Tracks(start: States, d: seq<Id>, now: States) {
    && NoDuplicates(d) && start.Keys == now.Keys
    && (forall n :: n in d ==>
          n in start && start[n] == Pending && now[n] in {Running, Succeeded, Failed, Cancelled})
    && (forall n :: n in start && start[n] != Pending ==> now[n] != Pending)
    && (forall n :: n in start && n !in d && start[n] == Pending ==> now[n] in {Pending, Blocked, Cancelled})
  }

  /** What one event does to the states. */
  lemma StatesMove(w: Workload, s: Session, e: Event, n: Id)
    requires ValidWorkload(w) && Shaped(w, s) && InSync(s) && n in s.states
    ensures Elements(w.order) == w.deps.Keys
    ensures
      var after := Next(w, s, e).states;
      && n in after
      && (s.states[n] != Pending ==>
            after[n] == s.states[n] || (s.states[n] == Running && after[n] in {Succeeded, Failed, Cancelled}))
      && (s.states[n] == Pending ==> after[n] in {Pending, Running, Blocked, Cancelled})
      && (n in NewlyRunning(s.states, after) <==> s.states[n] == Pending && after[n] == Running)
  {
    OrderKeys(w);
    assert Next(w, s, e).states.Keys == s.states.Keys;
    hide *;
    SchedulerSafety.NextIs(w, s, e);
    StartedMeans(s, Next(w, s, e), n);
    if Enabled(s, e) {
      match e
      case User(c) => SameStates(s, c);
      case Tick =>
        SchedulerSafety.PassAdvances(w, s, 0);
        PassMove(w, s, Pass(w, s, 0), n);
        EndMove(s, n);
        SchedulerCommands.EndEmits(Pass(w, s, 0));
      case Finish(done, ok) =>
        SchedulerCommands.FinishAllowed(s, done, ok);
        CollectMove(w, s, done, ok, n);
    }
  }

  lemma StartedMeans(s: Session, r: Session, n: Id)
    requires s.states.Keys == r.states.Keys && n in s.states
    ensures n in NewlyRunning(s.states, r.states) <==> s.states[n] == Pending && r.states[n] == Running
  {
  }

  lemma SameStates(s: Session, c: Command)
    ensures Obey(s, c).states == s.states
  {
  }

  lemma PassMove(w: Workload, s: Session, p: Session, n: Id)
    requires Advances(w, s, p) && n in s.states
    ensures n in p.states
    ensures p.states[n] == s.states[n] || (s.states[n] == Pending && p.states[n] in {Running, Blocked})
  {
    assert Moved(w, s, p, n);
    hide AllSucceeded, HasBadDependency;
  }

  lemma EndMove(s: Session, n: Id)
    requires n in s.states
    ensures var r := AfterCancel(s);
      n in r.states && (r.states[n] == s.states[n] || (s.states[n] in {Pending, Running} && r.states[n] == Cancelled))
  {
  }

  lemma CollectMove(w: Workload, s: Session, done: set<Id>, ok: set<Id>, n: Id)
    requires InSync(s) && done <= s.running && n in s.states
    ensures var r := Collect(w, s, done, ok);
      n in r.states && (r.states[n] == s.states[n] || (s.states[n] == Running && r.states[n] in {Succeeded, Failed}))
  {
    hide InOrder;
  }

  lemma TracksStep(w: Workload, start: States, d: seq<Id>, s: Session, e: Event)
    requires ValidWorkload(w) && Shaped(w, s) && InSync(s) && Tracks(start, d, s.states)
    ensures Elements(w.order) == w.deps.Keys
    ensures
      var after := Next(w, s, e).states;
      Tracks(start, d + Started(w, s.states, after), after)
  {
    OrderKeys(w);
    var after := Next(w, s, e).states;
    var anew := NewlyRunning(s.states, after);
    assert NoDuplicates(w.order);
    SchedulerSafety.InOrderMembers(w.order, anew);
    forall n | n in anew ensures n in w.order { assert n in Elements(w.order); }
    hide Next, InSync, ValidWorkload, InOrder;
    forall n | n in s.states
      ensures s.states[n] != Pending ==>
        after[n] == s.states[n] || (s.states[n] == Running && after[n] in {Succeeded, Failed, Cancelled})
      ensures s.states[n] == Pending ==> after[n] in {Pending, Running, Blocked, Cancelled}
      ensures n in anew <==> s.states[n] == Pending && after[n] == Running
    {
      StatesMove(w, s, e, n);
    }
    TracksMore(start, d, s.states, InOrder(w.order, anew), after);
  }

  lemma TracksMore(start: States, d: seq<Id>, now: States, more: seq<Id>, after: States)
    requires Tracks(start, d, now) && NoDuplicates(more) && now.Keys == after.Keys
    requires forall n :: n in more <==> n in now && now[n] == Pending && after[n] == Running
    requires forall n :: n in now && now[n] != Pending ==>
      after[n] == now[n] || (now[n] == Running && after[n] in {Succeeded, Failed, Cancelled})
    requires forall n :: n in now && now[n] == Pending ==> after[n] in {Pending, Running, Blocked, Cancelled}
    ensures Tracks(start, d + more, after)
  {
    assert Elements(d) !! Elements(more);
    ConcatNoDuplicates(d, more);
    forall n | n in d + more
      ensures n in start && start[n] == Pending && after[n] in {Running, Succeeded, Failed, Cancelled}
    {
      assert n in d || n in more;
    }
    forall n | n in start && n !in d + more && start[n] == Pending ensures after[n] in {Pending, Blocked, Cancelled} {
      assert n !in d && n !in more && n in now;
    }
  }

  /**
   * A run dispatches each node at most once, and has dispatched exactly the pending ones that are running, finished,
   * or were cancelled while they ran.
   */
  lemma {:induction false} DispatchedOnce(w: Workload, s: Session, es: seq<Event>)
    requires ValidWorkload(w) && Shaped(w, s) && InSync(s)
    ensures Elements(w.order) == w.deps.Keys
    ensures Tracks(s.states, Dispatched(w, s, es), Replay(w, s, es).states)
  {
    if es != [] {
      var init := es[..|es| - 1];
      DispatchedOnce(w, s, init);
      SchedulerCommands.ReplayInSync(w, s, init);
      hide InSync, Next, ValidWorkload, Tracks, Started;
      TracksStep(w, s.states, Dispatched(w, s, init), Replay(w, s, init), es[|es| - 1]);
    }
  }

  // ---- granted steps ----

  lemma StartedSize(w: Workload, before: States, after: States)
    requires ValidWorkload(w) && before.Keys == after.Keys == w.deps.Keys
    ensures |Started(w, before, after)| == |NewlyRunning(before, after)|
  {
    var anew := NewlyRunning(before, after);
    SchedulerSafety.InOrderMembers(w.order, anew);
    forall n | n in anew ensures n in w.order { assert n in Elements(w.order); }
    assert Elements(InOrder(w.order, anew)) == anew;
    DistinctSize(InOrder(w.order, anew));
  }

  /** Once steps are being counted, a run without another one dispatches what was granted and no more. */
  lemma {:induction false} StepsBound(w: Workload, s: Session, es: seq<Event>)
    requires ValidWorkload(w) && SchedulerSafety.ValidStart(w, s.states) && s.running == {} && s.phase == AtTop
    requires s.budget.Some? && User(StepOnce) !in es
    ensures Shaped(w, s) && Elements(w.order) == w.deps.Keys
    ensures
      var left := Replay(w, s, es).budget;
      left.Some? && |Dispatched(w, s, es)| + left.value == s.budget.value
  {
    assert Shaped(w, s) && Elements(w.order) == w.deps.Keys;
    if es != [] {
      var init, last := es[..|es| - 1], es[|es| - 1];
      assert last in es && forall e :: e in init ==> e in es;
      StepsBound(w, s, init);
      SchedulerSafety.RunInv(w, s, init);
      BoundedInv(w, s.states, Replay(w, s, init));
      hide *;
      StepSpent(w, Replay(w, s, init), last);
      SpentMore(w, s, es);
    }
  }

  lemma BoundedInv(w: Workload, start: States, s: Session)
    requires SchedulerSafety.Inv(w, start, s)
    ensures Shaped(w, s) && InSync(s) && |s.running| <= w.limit
  {
    hide SchedulerSafety.Justified;
  }

  lemma SpentMore(w: Workload, s: Session, es: seq<Event>)
    requires Shaped(w, s) && Elements(w.order) == w.deps.Keys && es != []
    ensures
      var n := |es| - 1;
      var before := Replay(w, s, es[..n]);
      && Replay(w, s, es) == Next(w, before, es[n])
      && |Dispatched(w, s, es)|
           == |Dispatched(w, s, es[..n])| + |Started(w, before.states, Next(w, before, es[n]).states)|
  {
    hide Next, Started;
  }

  lemma StepSpent(w: Workload, s: Session, e: Event)
    requires ValidWorkload(w) && Shaped(w, s) && InSync(s) && |s.running| <= w.limit
    requires s.budget.Some? && e != User(StepOnce)
    ensures Elements(w.order) == w.deps.Keys
    ensures
      var r := Next(w, s, e);
      && r.states.Keys == s.states.Keys && r.budget.Some?
      && |Started(w, s.states, r.states)| + r.budget.value == s.budget.value
  {
    OrderKeys(w);
    DispatchRules(w, s, e);
    StartedSize(w, s.states, Next(w, s, e).states);
    hide ValidWorkload, InSync, Pass, Started, NewlyRunning, MayDispatch;
    if e.User? { CommandSpends(s, e.command); }
    if e.Finish? { hide InOrder; }
    if e != Tick { NoneDispatched(w, s, e); }
  }

  lemma CommandSpends(s: Session, c: Command)
    ensures c != StepOnce ==> Obey(s, c).budget == s.budget
  {
  }

  lemma NoneDispatched(w: Workload, s: Session, e: Event)
    requires Shaped(w, s) && Elements(w.order) == w.deps.Keys && DispatchedBy(w, s, e) == {}
    ensures Next(w, s, e).states.Keys == s.states.Keys && |NewlyRunning(s.states, Next(w, s, e).states)| == 0
  {
    hide Next;
  }

  // ---- one position of the dispatch loop ----

  lemma {:induction false} InOrderSplit(a: seq<Id>, b: seq<Id>, chosen: set<Id>)
    ensures InOrder(a + b, chosen) == InOrder(a, chosen) + InOrder(b, chosen)
  {
    if a == [] {
      assert a + b == b;
    } else {
      assert (a + b)[1..] == a[1..] + b;
      InOrderSplit(a[1..], b, chosen);
    }
  }

  lemma {:induction false} InOrderSame(order: seq<Id>, one: set<Id>, other: set<Id>)
    requires forall n :: n in order ==> (n in one <==> n in other)
    ensures InOrder(order, one) == InOrder(order, other)
  {
    if order != [] { InOrderSame(order[1..], one, other); }
  }

  /** One more chosen node, none of the others standing after it. */
  lemma InOrderNext(order: seq<Id>, chosen: set<Id>, i: nat)
    requires NoDuplicates(order) && i < |order| && forall n :: n in chosen ==> n in order[..i]
    ensures InOrder(order, chosen + {order[i]}) == InOrder(order, chosen) + [order[i]]
  {
    assert order == order[..i] + ([order[i]] + order[i + 1..]);
    hide *;
    InOrderInsert(order[..i], order[i], order[i + 1..], chosen);
  }

  lemma InOrderInsert(front: seq<Id>, x: Id, rest: seq<Id>, chosen: set<Id>)
    requires NoDuplicates(front + ([x] + rest)) && forall n :: n in chosen ==> n in front
    ensures InOrder(front + ([x] + rest), chosen + {x}) == InOrder(front + ([x] + rest), chosen) + [x]
  {
    hide *;
    DistinctParts(front, [x] + rest);
    DistinctParts([x], rest);
    assert x in [x] && x in [x] + rest && forall n :: n in rest ==> n in [x] + rest;
    InOrderSplit(front, [x] + rest, chosen);
    InOrderSplit(front, [x] + rest, chosen + {x});
    InOrderSame(front, chosen, chosen + {x});
    InOrderFirst(x, rest, chosen);
    InOrderFirst(x, rest, chosen + {x});
    assert InOrder(front, chosen) + [] == InOrder(front, chosen);
  }

  lemma InOrderFirst(x: Id, rest: seq<Id>, chosen: set<Id>)
    requires forall n :: n in rest ==> n !in chosen
    ensures InOrder([x] + rest, chosen) == if x in chosen then [x] else []
  {
    assert ([x] + rest)[1..] == rest;
    InOrderSame(rest, chosen, {});
    InOrderNone(rest);
  }

  /** The states of the nodes from position i on are as they were when the loop began. */
  predicate Ahead(w: Workload, start: States, now: States, i: nat) {
    forall j :: i <= j < |w.order| && w.order[j] in start && w.order[j] in now ==> now[w.order[j]] == start[w.order[j]]
  }

  /** Visiting one node starts that node or none. */
  lemma VisitStarted(w: Workload, start: States, s: Session, i: nat)
    requires NoDuplicates(w.order) && Elements(w.order) == w.deps.Keys && i < |w.order| && w.order[i] in w.deps
    requires Shaped(w, s) && start.Keys == s.states.Keys && Ahead(w, start, s.states, i)
    ensures
      var n, after := w.order[i], VisitNode(w, s, w.order[i]).session.states;
      && after.Keys == s.states.Keys && Ahead(w, start, after, i + 1)
      && n !in Started(w, start, s.states)
      && Started(w, start, after)
           == Started(w, start, s.states) + (if s.states[n] == Pending && after[n] == Running then [n] else [])
  {
    var n, after := w.order[i], VisitNode(w, s, w.order[i]).session.states;
    VisitOne(w, s, n);
    hide VisitNode;
    var chosen := NewlyRunning(start, s.states);
    forall m | m in chosen ensures m in w.order[..i] { Behind(w, start, s.states, i, m); }
    SchedulerSafety.InOrderMembers(w.order, chosen);
    assert start[n] == s.states[n];
    if s.states[n] == Pending && after[n] == Running {
      assert NewlyRunning(start, after) == chosen + {n};
      InOrderNext(w.order, chosen, i);
    } else {
      assert NewlyRunning(start, after) == chosen;
    }
    assert n !in chosen;
  }

  lemma Behind(w: Workload, start: States, now: States, i: nat, n: Id)
    requires Elements(w.order) == w.deps.Keys && start.Keys == now.Keys == w.deps.Keys && i <= |w.order|
    requires Ahead(w, start, now, i) && n in NewlyRunning(start, now)
    ensures n in w.order[..i]
  {
    assert n in Elements(w.order);
    var j :| 0 <= j < |w.order| && w.order[j] == n;
    assert j < i;
    assert w.order[..i][j] == n;
  }

  lemma VisitOne(w: Workload, s: Session, n: Id)
    requires Shaped(w, s) && n in w.deps
    ensures
      var after := VisitNode(w, s, n).session.states;
      && after.Keys == s.states.Keys
      && (forall m :: m in s.states && m != n ==> after[m] == s.states[m])
      && (s.states[n] != Pending ==> after[n] == s.states[n])
  {
    hide HasBadDependency, AllSucceeded;
  }

  // ---- providers ----

  /**
   * The nodes of `d` got consecutive dispatch indexes from `from` on, each the provider its own policy gives for
   * its index; the other entries are as before.
   */
  ghost predicate Assigned(g: TaskGraph.TaskGraph, before: map<Id, string>, from: nat, d: seq<Id>,
                           after: map<Id, string>)
  {
    var nodes := TaskGraph.ById(g.nodes);
    && (forall k :: 0 <= k < |d| ==>
          && d[k] in nodes && d[k] in after
          && after[d[k]] == Providers.ProviderOf(nodes[d[k]].policy, from + k))
    && (forall n :: n !in d ==> (n in after <==> n in before) && (n in before && n in after ==> after[n] == before[n]))
  }

  lemma AssignedNone(g: TaskGraph.TaskGraph, before: map<Id, string>, from: nat)
    ensures Assigned(g, before, from, [], before)
  {
  }

  lemma AssignedOne(g: TaskGraph.TaskGraph, before: map<Id, string>, from: nat, d: seq<Id>, now: map<Id, string>, n: Id)
    requires Assigned(g, before, from, d, now) && n !in d && n in TaskGraph.ById(g.nodes)
    ensures
      var policy := TaskGraph.ById(g.nodes)[n].policy;
      Assigned(g, before, from, d + [n], now[n := Providers.ProviderOf(policy, from + |d|)])
  {
    hide TaskGraph.ById, Providers.ProviderOf;
    var nodes := TaskGraph.ById(g.nodes);
    var after := now[n := Providers.ProviderOf(nodes[n].policy, from + |d|)];
    forall k | 0 <= k < |d + [n]|
      ensures (d + [n])[k] in nodes && (d + [n])[k] in after
      ensures after[(d + [n])[k]] == Providers.ProviderOf(nodes[(d + [n])[k]].policy, from + k)
    {
      if k < |d| { assert d[k] in d && d[k] != n; }
    }
    assert n in d + [n];
  }

  lemma AssignedMore(g: TaskGraph.TaskGraph, before: map<Id, string>, d: seq<Id>, now: map<Id, string>,
                     more: seq<Id>, after: map<Id, string>)
    requires Assigned(g, before, 0, d, now) && Assigned(g, now, |d|, more, after) && NoDuplicates(d + more)
    ensures Assigned(g, before, 0, d + more, after)
  {
    hide TaskGraph.ById, Providers.ProviderOf;
    var nodes, all := TaskGraph.ById(g.nodes), d + more;
    DistinctParts(d, more);
    forall k | 0 <= k < |all|
      ensures all[k] in nodes && all[k] in after
      ensures after[all[k]] == Providers.ProviderOf(nodes[all[k]].policy, k)
    {
      if k < |d| {
        assert d[k] in d && d[k] !in more;
      } else {
        assert all[k] == more[k - |d|];
      }
    }
  }

  /** What a run has done to the providers so far: its k-th dispatched node has the provider of index k. */
  ghost predicate Billed(g: TaskGraph.TaskGraph, w: Workload, start: Session, before: map<Id, string>,
                         es: seq<Event>, providers: map<Id, string>, index: nat)
  {
    && Shaped(w, start) && Elements(w.order) == w.deps.Keys
    && NoDuplicates(Dispatched(w, start, es))
    && index == |Dispatched(w, start, es)|
    && Assigned(g, before, 0, Dispatched(w, start, es), providers)
  }

  lemma BilledStart(g: TaskGraph.TaskGraph, w: Workload, start: Session, before: map<Id, string>)
    requires Shaped(w, start) && Elements(w.order) == w.deps.Keys
    ensures Billed(g, w, start, before, [], before, 0)
  {
    AssignedNone(g, before, 0);
  }

  /** An event that dispatches nothing costs nothing. */
  lemma BilledQuiet(g: TaskGraph.TaskGraph, w: Workload, start: Session, before: map<Id, string>, es: seq<Event>,
                    providers: map<Id, string>, index: nat, e: Event)
    requires Billed(g, w, start, before, es, providers, index)
    requires DispatchedBy(w, Replay(w, start, es), e) == {}
    ensures Billed(g, w, start, before, es + [e], providers, index)
  {
    DispatchedStep(w, start, es, e);
    hide Dispatched, Assigned;
  }

  /** A turn bills the nodes it starts, in the order in which it comes to them. */
  lemma BilledTurn(g: TaskGraph.TaskGraph, w: Workload, start: Session, before: map<Id, string>, es: seq<Event>,
                   providers: map<Id, string>, index: nat, after: map<Id, string>)
    requires Billed(g, w, start, before, es, providers, index)
    requires ValidWorkload(w) && InSync(start)
    requires
      var s := Replay(w, start, es);
      && Enabled(s, Tick) && !s.cancelled
      && Assigned(g, providers, index, Started(w, s.states, Pass(w, s, 0).states), after)
    ensures
      var s := Replay(w, start, es);
      Billed(g, w, start, before, es + [Tick], after, index + |Started(w, s.states, Pass(w, s, 0).states)|)
  {
    hide *;
    BilledParts(g, w, start, before, es, providers, index);
    var s := Replay(w, start, es);
    DispatchedOnce(w, start, es + [Tick]);
    DispatchedStep(w, start, es, Tick);
    TurnStates(w, s);
    var d, more := Dispatched(w, start, es), Started(w, s.states, Pass(w, s, 0).states);
    TracksDistinct(start.states, d + more, Replay(w, start, es + [Tick]).states);
    AssignedMore(g, before, d, providers, more, after);
    BilledIs(g, w, start, before, es + [Tick], after, index + |more|);
  }

  lemma TurnStates(w: Workload, s: Session)
    requires Shaped(w, s) && Elements(w.order) == w.deps.Keys && Enabled(s, Tick) && !s.cancelled
    ensures Next(w, s, Tick).states == Pass(w, s, 0).states && Pass(w, s, 0).states.Keys == s.states.Keys
  {
    hide Pass, Elements;
  }

  lemma TracksDistinct(start: States, d: seq<Id>, now: States)
    requires Tracks(start, d, now)
    ensures NoDuplicates(d)
  {
  }

  lemma BilledParts(g: TaskGraph.TaskGraph, w: Workload, start: Session, before: map<Id, string>,
                    es: seq<Event>, providers: map<Id, string>, index: nat)
    requires Billed(g, w, start, before, es, providers, index)
    ensures Shaped(w, start) && Elements(w.order) == w.deps.Keys && index == |Dispatched(w, start, es)|
    ensures Assigned(g, before, 0, Dispatched(w, start, es), providers)
  {
  }

  lemma BilledIs(g: TaskGraph.TaskGraph, w: Workload, start: Session, before: map<Id, string>,
                 es: seq<Event>, providers: map<Id, string>, index: nat)
    requires Shaped(w, start) && Elements(w.order) == w.deps.Keys && NoDuplicates(Dispatched(w, start, es))
    requires index == |Dispatched(w, start, es)| && Assigned(g, before, 0, Dispatched(w, start, es), providers)
    ensures Billed(g, w, start, before, es, providers, index)
  {
  }
}
