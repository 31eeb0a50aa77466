/** Dependency relations, their chains, and the layered order built by repeatedly removing ready nodes. */
module Dependencies {
  import opened Prelude
  import opened Ordering

  type Id = string
  type DepMap = map<Id, set<Id>>

  predicate Known(m: DepMap) {
    forall n :: n in m ==> m[n] <= m.Keys
  }

  /** Consecutive elements are a node followed by one of its dependencies. */
  predicate Chain(m: DepMap, p: seq<Id>) {
    && |p| > 0
    && forall i :: 0 <= i < |p| - 1 ==> p[i] in m && p[i + 1] in m[p[i]]
  }

  /** A non-empty chain leads from `a` to `b`. */
  ghost predicate DependsOn(m: DepMap, a: Id, b: Id) {
    exists p :: |p| >= 2 && Chain(m, p) && p[0] == a && p[|p| - 1] == b
  }

  ghost predicate Acyclic(m: DepMap) {
    forall n :: !DependsOn(m, n, n)
  }

  lemma ChainJoin(m: DepMap, p: seq<Id>, q: seq<Id>)
    requires Chain(m, p) && Chain(m, q) && p[|p| - 1] == q[0]
    ensures Chain(m, p + q[1..])
    ensures (p + q[1..])[|p| + |q| - 2] == q[|q| - 1]
  {
  }

  lemma DependsOnDirect(m: DepMap, a: Id, b: Id)
    requires a in m && b in m[a]
    ensures DependsOn(m, a, b)
  {
    var p := [a, b];
    assert Chain(m, p) && p[0] == a && p[|p| - 1] == b;
  }

  lemma DependsOnTransitive(m: DepMap, a: Id, b: Id, c: Id)
    requires DependsOn(m, a, b) && DependsOn(m, b, c)
    ensures DependsOn(m, a, c)
  {
    var p :| |p| >= 2 && Chain(m, p) && p[0] == a && p[|p| - 1] == b;
    var q :| |q| >= 2 && Chain(m, q) && q[0] == b && q[|q| - 1] == c;
    ChainJoin(m, p, q);
    var r := p + q[1..];
    assert |r| >= 2 && r[0] == a && r[|r| - 1] == c;
  }

  /** A chain either is one edge or starts with an edge into a shorter chain. */
  lemma DependsOnFirstStep(m: DepMap, a: Id, b: Id)
    requires DependsOn(m, a, b)
    ensures a in m && exists c :: c in m[a] && (c == b || DependsOn(m, c, b))
  {
    var p :| |p| >= 2 && Chain(m, p) && p[0] == a && p[|p| - 1] == b;
    var q := p[1..];
    assert p[1] in m[p[0]];
    if |p| > 2 {
      assert Chain(m, q) by {
        forall i | 0 <= i < |q| - 1 ensures q[i] in m && q[i + 1] in m[q[i]] {
          assert p[i + 1] in m && p[i + 2] in m[p[i + 1]];
        }
      }
      assert |q| >= 2 && q[0] == p[1] && q[|q| - 1] == b;
      assert DependsOn(m, p[1], b);
    }
  }

  /** A set of nodes closed under direct dependencies is closed under chains. */
  lemma {:induction false} ClosedUnderChains(m: DepMap, closed: set<Id>, p: seq<Id>)
    requires forall n :: n in closed && n in m ==> m[n] <= closed
    requires Chain(m, p) && p[0] in closed
    ensures p[|p| - 1] in closed
  {
    if |p| > 1 {
      var q := p[1..];
      assert Chain(m, q) by {
        forall i | 0 <= i < |q| - 1 ensures q[i] in m && q[i + 1] in m[q[i]] {
          assert p[i + 1] in m && p[i + 2] in m[p[i + 1]];
        }
      }
      assert p[0] in m && p[1] in m[p[0]];
      ClosedUnderChains(m, closed, q);
    }
  }

  // ---- peeling off the ready nodes ----

  function Ready(m: DepMap): set<Id> {
    set n | n in m && m[n] == {}
  }

  function Peel(m: DepMap): DepMap {
    map n | n in m && n !in Ready(m) :: m[n] - Ready(m)
  }

  lemma PeelShrinks(m: DepMap)
    requires Ready(m) != {}
    ensures |Peel(m)| < |m|
  {
    assert Peel(m).Keys == m.Keys - Ready(m);
    SubsetSize(Peel(m).Keys, m.Keys);
  }

  /** The ready sets in the order they are removed, or None when a remainder has no ready node. */
  function Layers(m: DepMap): Option<seq<set<Id>>>
    decreases |m|
  {
    if m == map[] then Some([])
    else if Ready(m) == {} then None
    else
      PeelShrinks(m);
      match Layers(Peel(m))
      case None => None
      case Some(rest) => Some([Ready(m)] + rest)
  }

  function Flatten(layers: seq<set<Id>>): seq<Id> {
    if |layers| == 0 then [] else SortSet(layers[0]) + Flatten(layers[1..])
  }

  function Order(m: DepMap): Option<seq<Id>> {
    match Layers(m)
    case None => None
    case Some(layers) => Some(Flatten(layers))
  }

  lemma OrderUnfold(m: DepMap)
    requires m != map[] && Ready(m) != {}
    ensures Order(m).Some? <==> Order(Peel(m)).Some?
    ensures Order(m).Some? ==> Order(m).value == SortSet(Ready(m)) + Order(Peel(m)).value
  {
    PeelShrinks(m);
    if Layers(Peel(m)).Some? {
      var rest := Layers(Peel(m)).value;
      assert ([Ready(m)] + rest)[1..] == rest;
    }
  }

  /** Every node of `m` once, each after all its dependencies. */
  predicate Topological(m: DepMap, o: seq<Id>) {
    && NoDuplicates(o)
    && Elements(o) == m.Keys
    && forall i, d :: 0 <= i < |o| && o[i] in m && d in m[o[i]] ==> d in o[..i]
  }

  /** Putting the ready nodes before an order of the rest gives an order of the whole. */
  lemma PrependReady(m: DepMap, head: seq<Id>, tail: seq<Id>)
    requires Known(m) && Topological(Peel(m), tail)
    requires NoDuplicates(head) && Elements(head) == Ready(m)
    ensures Topological(m, head + tail)
  {
    var o := head + tail;
    assert Peel(m).Keys == m.Keys - Ready(m);
    ConcatNoDuplicates(head, tail);
    assert forall i :: 0 <= i < |head| ==> head[i] in Elements(head);
    forall i, d | 0 <= i < |o| && o[i] in m && d in m[o[i]] ensures d in o[..i] {
      if i >= |head| { PrependDependencies(m, head, tail, i - |head|, d); }
    }
  }

  lemma PrependDependencies(m: DepMap, head: seq<Id>, tail: seq<Id>, k: nat, d: Id)
    requires Topological(Peel(m), tail) && k < |tail| && tail[k] in m && d in m[tail[k]]
    requires Elements(head) == Ready(m)
    ensures d in (head + tail)[..|head| + k]
  {
    assert (head + tail)[..|head| + k] == head + tail[..k];
    assert tail[k] in Elements(tail);
    if d in Ready(m) {
      assert d in Elements(head);
    } else {
      assert d in Peel(m)[tail[k]];
    }
  }

  lemma {:induction false} OrderIsTopological(m: DepMap)
    requires Known(m) && Order(m).Some?
    ensures Topological(m, Order(m).value)
    decreases |m|
  {
    if m != map[] {
      PeelShrinks(m);
      OrderUnfold(m);
      OrderIsTopological(Peel(m));
      var head := SortSet(Ready(m));
      SortedDistinct(head);
      assert Elements(head) == Ready(m);
      PrependReady(m, head, Order(Peel(m)).value);
    }
  }

  /** Along a chain the position in a topological order strictly falls. */
  lemma {:induction false} ChainDescends(m: DepMap, o: seq<Id>, p: seq<Id>, start: nat)
    requires Topological(m, o) && Chain(m, p)
    requires start < |o| && o[start] == p[0]
    ensures |p| > 1 ==> p[|p| - 1] in o[..start]
  {
    if |p| > 1 {
      assert p[1] in m[p[0]];
      assert p[1] in o[..start];
      var j :| 0 <= j < start && o[j] == p[1];
      var q := p[1..];
      assert Chain(m, q) by {
        forall i | 0 <= i < |q| - 1 ensures q[i] in m && q[i + 1] in m[q[i]] {
          assert p[i + 1] in m && p[i + 2] in m[p[i + 1]];
        }
      }
      ChainDescends(m, o, q, j);
      if |q| > 1 { assert o[..j] == o[..start][..j]; }
    }
  }

  lemma TopologicalIsAcyclic(m: DepMap, o: seq<Id>)
    requires Topological(m, o)
    ensures Acyclic(m)
  {
    forall n ensures !DependsOn(m, n, n) {
      if DependsOn(m, n, n) {
        var p :| |p| >= 2 && Chain(m, p) && p[0] == n && p[|p| - 1] == n;
        assert p[0] in m;
        assert n in Elements(o);
        var i :| 0 <= i < |o| && o[i] == n;
        ChainDescends(m, o, p, i);
        assert false;
      }
    }
  }

  // ---- a stuck remainder contains a cycle ----

  lemma {:induction false} LongChain(m: DepMap, start: Id, length: nat) returns (p: seq<Id>)
    requires Known(m) && Ready(m) == {} && start in m && length > 0
    ensures Chain(m, p) && |p| == length && p[0] == start
    ensures forall x :: x in p ==> x in m.Keys
    decreases length
  {
    if length == 1 {
      p := [start];
    } else {
      assert start !in Ready(m);
      var next :| next in m[start];
      var q := LongChain(m, next, length - 1);
      p := [start] + q;
    }
  }

  lemma StuckHasCycle(m: DepMap)
    requires Known(m) && m != map[] && Ready(m) == {}
    ensures !Acyclic(m)
  {
    var start :| start in m;
    var p := LongChain(m, start, |m| + 1);
    Pigeonhole(p, m.Keys);
    var i, j :| 0 <= i < j < |p| && p[i] == p[j];
    var cycle := p[i..j + 1];
    assert Chain(m, cycle) by {
      forall k | 0 <= k < |cycle| - 1 ensures cycle[k] in m && cycle[k + 1] in m[cycle[k]] {
        assert p[i + k] in m && p[i + k + 1] in m[p[i + k]];
      }
    }
    assert cycle[0] == cycle[|cycle| - 1];
    assert DependsOn(m, p[i], p[i]);
  }

  lemma PeeledCycle(m: DepMap)
    requires !Acyclic(Peel(m))
    ensures !Acyclic(m)
  {
    var n :| DependsOn(Peel(m), n, n);
    var p :| |p| >= 2 && Chain(Peel(m), p) && p[0] == n && p[|p| - 1] == n;
    assert Chain(m, p);
    assert DependsOn(m, n, n);
  }

  lemma {:induction false} NoOrderHasCycle(m: DepMap)
    requires Known(m) && Order(m).None?
    ensures !Acyclic(m)
    decreases |m|
  {
    if Ready(m) == {} {
      StuckHasCycle(m);
    } else {
      PeelShrinks(m);
      OrderUnfold(m);
      NoOrderHasCycle(Peel(m));
      PeeledCycle(m);
    }
  }

  /** An order is found exactly for the acyclic relations. */
  lemma OrderExistsIffAcyclic(m: DepMap)
    requires Known(m)
    ensures Order(m).Some? <==> Acyclic(m)
  {
    if Order(m).Some? {
      OrderIsTopological(m);
      TopologicalIsAcyclic(m, Order(m).value);
    } else {
      NoOrderHasCycle(m);
    }
  }

  // ---- layers are longest chains ----

  /** The number of the layer that removes `n`. */
  function Depth(m: DepMap, n: Id): nat
    requires Layers(m).Some? && n in m
    decreases |m|
  {
    if n in Ready(m) then 0
    else
      PeelShrinks(m);
      1 + Depth(Peel(m), n)
  }

  lemma ChainEdge(m: DepMap, p: seq<Id>)
    requires Chain(m, p) && |p| > 1
    ensures p[0] in m && m[p[0]] != {}
  {
    assert p[1] in m[p[0]];
  }

  lemma ReadyChain(m: DepMap, p: seq<Id>)
    requires Chain(m, p) && p[0] in Ready(m)
    ensures |p| == 1
  {
    if |p| > 1 { ChainEdge(m, p); }
  }

  lemma {:induction false} ChainsAreShort(m: DepMap, p: seq<Id>)
    requires Known(m) && Layers(m).Some?
    requires Chain(m, p) && p[0] in m
    ensures |p| <= Depth(m, p[0]) + 1
    decreases |m|
  {
    var n := p[0];
    if n in Ready(m) {
      ReadyChain(m, p);
    } else {
      PeelShrinks(m);
      var q := if p[|p| - 1] in Ready(m) then p[..|p| - 1] else p;
      forall i | 0 <= i < |p| - 1 ensures p[i] in m && p[i] !in Ready(m) {
        assert p[i + 1] in m[p[i]];
      }
      assert Chain(Peel(m), q);
      ChainsAreShort(Peel(m), q);
    }
  }

  lemma {:induction false} LongestChain(m: DepMap, n: Id) returns (p: seq<Id>)
    requires Known(m) && Layers(m).Some? && n in m
    ensures Chain(m, p) && p[0] == n && |p| == Depth(m, n) + 1
    decreases |m|
  {
    if n in Ready(m) {
      p := [n];
    } else {
      PeelShrinks(m);
      var peeled := Peel(m);
      var q := LongestChain(peeled, n);
      var x := q[|q| - 1];
      assert x in peeled by {
        if |q| > 1 { assert q[|q| - 1] in peeled[q[|q| - 2]]; }
      }
      assert peeled[x] == {} by {
        if y :| y in peeled[x] {
          ChainsAreShort(peeled, q + [y]);
          assert false;
        }
      }
      assert m[x] != {};
      var d :| d in m[x];
      p := q + [d];
      assert Chain(m, q);
    }
  }

  /** A node's layer is the number of edges of its longest dependency chain. */
  lemma DepthIsLongestChain(m: DepMap, n: Id)
    requires Known(m) && Layers(m).Some? && n in m
    ensures exists p :: Chain(m, p) && p[0] == n && |p| == Depth(m, n) + 1
    ensures forall p :: Chain(m, p) && p[0] == n ==> |p| <= Depth(m, n) + 1
  {
    var q := LongestChain(m, n);
    forall p | Chain(m, p) && p[0] == n ensures |p| <= Depth(m, n) + 1 {
      ChainsAreShort(m, p);
    }
  }

  /** `a` comes before `b`: an earlier layer, or the same layer and a smaller id. */
  predicate Before(m: DepMap, a: Id, b: Id)
    requires Layers(m).Some?
  {
    && a in m && b in m
    && (Depth(m, a) < Depth(m, b) || (Depth(m, a) == Depth(m, b) && Less(a, b)))
  }

  lemma BeforeInPeeled(m: DepMap, a: Id, b: Id)
    requires m != map[] && Ready(m) != {} && Layers(m).Some?
    requires a in Peel(m) && b in Peel(m)
    ensures Layers(Peel(m)).Some?
    ensures Before(Peel(m), a, b) ==> Before(m, a, b)
  {
    PeelShrinks(m);
  }

  predicate SortedByDepth(m: DepMap, o: seq<Id>)
    requires Layers(m).Some?
  {
    && Elements(o) <= m.Keys
    && forall i, j :: 0 <= i < j < |o| ==> Before(m, o[i], o[j])
  }

  /** The order lists nodes by layer, and by id within a layer. */
  lemma {:induction false} OrderSortedByDepth(m: DepMap)
    requires Known(m) && Order(m).Some?
    ensures SortedByDepth(m, Order(m).value)
    decreases |m|
  {
    if m != map[] {
      PeelShrinks(m);
      OrderUnfold(m);
      OrderSortedByDepth(Peel(m));
      assert Elements(SortSet(Ready(m))) == Ready(m);
      PrependLayer(m, SortSet(Ready(m)), Order(Peel(m)).value);
    }
  }

  lemma PrependLayer(m: DepMap, head: seq<Id>, tail: seq<Id>)
    requires m != map[] && Ready(m) != {} && Layers(m).Some? && Layers(Peel(m)).Some?
    requires Sorted(head) && Elements(head) == Ready(m)
    requires SortedByDepth(Peel(m), tail)
    ensures SortedByDepth(m, head + tail)
  {
    var o := head + tail;
    assert Elements(o) == Elements(head) + Elements(tail);
    forall i, j | 0 <= i < j < |o| ensures Before(m, o[i], o[j]) {
      if i >= |head| {
        assert Before(Peel(m), tail[i - |head|], tail[j - |head|]);
        BeforeInPeeled(m, o[i], o[j]);
      } else if j >= |head| {
        assert head[i] in Elements(head) && tail[j - |head|] in Elements(tail);
        ReadyFirst(m, o[i], o[j]);
      } else {
        assert head[i] in Elements(head) && head[j] in Elements(head);
        ReadyTogether(m, o[i], o[j]);
      }
    }
  }

  lemma ReadyFirst(m: DepMap, a: Id, b: Id)
    requires Layers(m).Some? && a in Ready(m) && b in Peel(m)
    ensures Before(m, a, b)
  {
  }

  lemma ReadyTogether(m: DepMap, a: Id, b: Id)
    requires Layers(m).Some? && a in Ready(m) && b in Ready(m) && Less(a, b)
    ensures Before(m, a, b)
  {
  }
}
