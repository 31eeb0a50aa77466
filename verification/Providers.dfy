/** Provider schedules: the per-node weighted policy and the session-wide mod-100 split. */
module Providers {
  import opened Prelude

  // ---- counting picks over windows of consecutive call indexes ----

  /** How many of `f(from), ..., f(from + length - 1)` equal `pick`. */
  function CountPicks(f: int -> int, from: int, length: nat, pick: int): nat {
    if length == 0 then 0
    else CountPicks(f, from, length - 1, pick) + (if f(from + length - 1) == pick then 1 else 0)
  }

  lemma {:induction false} CountSplit(f: int -> int, from: int, a: nat, b: nat, pick: int)
    ensures CountPicks(f, from, a + b, pick) == CountPicks(f, from, a, pick) + CountPicks(f, from + a, b, pick)
  {
    if b > 0 {
      CountSplit(f, from, a, b - 1, pick);
      assert from + (a + b) - 1 == (from + a) + b - 1;
      assert CountPicks(f, from, a + b, pick)
          == CountPicks(f, from, a + (b - 1), pick) + (if f(from + (a + b) - 1) == pick then 1 else 0);
    }
  }

  ghost predicate Periodic(f: int -> int, period: nat) {
    forall i :: f(i + period) == f(i)
  }

  /** Every full period of a periodic schedule holds the same number of each pick. */
  lemma {:induction false} PeriodShift(f: int -> int, period: nat, from: nat, pick: int)
    requires Periodic(f, period) && period > 0
    ensures CountPicks(f, from, period, pick) == CountPicks(f, 0, period, pick)
  {
    if from > 0 {
      PeriodShift(f, period, from - 1, pick);
      CountSplit(f, from - 1, 1, period, pick);
      CountSplit(f, from - 1, period, 1, pick);
      assert f(from - 1 + period) == f(from - 1);
      assert CountPicks(f, from - 1, 1, pick) == CountPicks(f, from - 1 + period, 1, pick) by {
        assert CountPicks(f, from - 1, 0, pick) == CountPicks(f, from - 1 + period, 0, pick) == 0;
      }
    }
  }

  lemma CountBounded(f: int -> int, from: int, length: nat, pick: int)
    ensures CountPicks(f, from, length, pick) <= length
  {
  }

  lemma {:induction false} CountPeriods(f: int -> int, period: nat, from: nat, cycles: nat, rest: nat, pick: int)
    requires Periodic(f, period) && period > 0
    ensures CountPicks(f, from, cycles * period + rest, pick)
         == cycles * CountPicks(f, 0, period, pick) + CountPicks(f, from, rest, pick)
  {
    var full := CountPicks(f, 0, period, pick);
    if cycles > 0 {
      CountPeriods(f, period, from, cycles - 1, rest, pick);
      MulStep(cycles, period);
      MulStep(cycles, full);
      OneMorePeriod(f, period, from, (cycles - 1) * period + rest, pick);
    }
  }

  lemma OneMorePeriod(f: int -> int, period: nat, from: nat, body: nat, pick: int)
    requires Periodic(f, period) && period > 0
    ensures CountPicks(f, from, body + period, pick)
         == CountPicks(f, from, body, pick) + CountPicks(f, 0, period, pick)
  {
    CountSplit(f, from, body, period, pick);
    PeriodShift(f, period, from + body, pick);
  }

  lemma MulStep(c: nat, x: nat)
    requires c > 0
    ensures c * x == (c - 1) * x + x
    ensures (c - 1) * x >= 0
  {
  }

  // ---- ProviderPolicy ----

  datatype ProviderPolicy = ProviderPolicy(providers: seq<string>, weights: seq<int>)

  predicate Blank(name: string) {
    name == "" || (name[0] in " \t\n\r" && Blank(name[1..]))
  }

  predicate ValidPolicy(p: ProviderPolicy) {
    && |p.providers| > 0
    && |p.providers| == |p.weights|
    && (forall i :: 0 <= i < |p.providers| ==> !Blank(p.providers[i]))
    && (forall i :: 0 <= i < |p.weights| ==> p.weights[i] > 0)
  }

  /** A policy is checked when it is built; the default has qwen alone. */
  type Policy = p: ProviderPolicy | ValidPolicy(p) witness ProviderPolicy(["qwen"], [1])

  function Sum(weights: seq<int>): int {
    if |weights| == 0 then 0 else weights[0] + Sum(weights[1..])
  }

  lemma {:induction false} SumPositive(weights: seq<int>)
    requires forall i :: 0 <= i < |weights| ==> weights[i] > 0
    ensures Sum(weights) >= |weights|
  {
    if |weights| > 0 { SumPositive(weights[1..]); }
  }

  /** The entry whose block of the cumulative weights holds `position`. */
  function EntryFor(weights: seq<int>, position: int): int {
    if |weights| == 0 then 0
    else if position < weights[0] then 0
    else 1 + EntryFor(weights[1..], position - weights[0])
  }

  lemma {:induction false} EntryForInRange(weights: seq<int>, position: int)
    requires forall i :: 0 <= i < |weights| ==> weights[i] > 0
    requires 0 <= position < Sum(weights)
    ensures 0 <= EntryFor(weights, position) < |weights|
  {
    if position >= weights[0] { EntryForInRange(weights[1..], position - weights[0]); }
  }

  /** The provider a policy gives a dispatch index. */
  function ProviderOf(p: Policy, dispatchIndex: int): string {
    SumPositive(p.weights);
    EntryForInRange(p.weights, dispatchIndex % Sum(p.weights));
    p.providers[EntryFor(p.weights, dispatchIndex % Sum(p.weights))]
  }

  /** The loop of `provider_at`: walk the weights, subtracting until the position fits. */
  method ProviderAt(p: ProviderPolicy, dispatchIndex: int) returns (entry: nat, provider: string)
    requires ValidPolicy(p)
    ensures entry < |p.providers| && provider == p.providers[entry]
    ensures Sum(p.weights) > 0 && entry == EntryFor(p.weights, dispatchIndex % Sum(p.weights))
  {
    SumPositive(p.weights);
    var position := dispatchIndex % Sum(p.weights);
    EntryForInRange(p.weights, position);
    entry := 0;
    while position >= p.weights[entry]
      invariant 0 <= entry < |p.weights|
      invariant EntryFor(p.weights, dispatchIndex % Sum(p.weights)) == entry + EntryFor(p.weights[entry..], position)
      invariant 0 <= position < Sum(p.weights[entry..])
    {
      assert p.weights[entry..][1..] == p.weights[entry + 1..];
      position := position - p.weights[entry];
      entry := entry + 1;
    }
    provider := p.providers[entry];
  }

  function Blocks(weights: seq<int>): int -> int {
    position => EntryFor(weights, position)
  }

  /** The first index of a window of block positions picked for entry `e` and how many there are. */
  lemma {:induction false} BlockCount(weights: seq<int>, e: int, k: nat)
    requires forall i :: 0 <= i < |weights| ==> weights[i] > 0
    requires 0 <= e < |weights| && k <= Sum(weights)
    ensures
      var before := Sum(weights[..e]);
      CountPicks(Blocks(weights), 0, k, e)
        == if k <= before then 0 else if k <= before + weights[e] then k - before else weights[e]
  {
    SumPositive(weights[..e]);
    if k > 0 {
      BlockCount(weights, e, k - 1);
      EntryBlock(weights, e, k - 1);
      assert Blocks(weights)(0 + k - 1) == EntryFor(weights, k - 1);
    }
  }

  lemma {:induction false} EntryBlock(weights: seq<int>, e: int, position: int)
    requires forall i :: 0 <= i < |weights| ==> weights[i] > 0
    requires 0 <= e < |weights| && 0 <= position < Sum(weights)
    ensures Sum(weights[..e]) >= 0
    ensures EntryFor(weights, position) == e <==> Sum(weights[..e]) <= position < Sum(weights[..e]) + weights[e]
  {
    SumPositive(weights[..e]);
    if e > 0 {
      assert weights[..e][1..] == weights[1..][..e - 1];
      SumPositive(weights[1..][..e - 1]);
      if position >= weights[0] { EntryBlock(weights[1..], e - 1, position - weights[0]); }
    } else if position >= weights[0] {
      EntryForInRange(weights[1..], position - weights[0]);
    }
  }

  lemma {:induction false} SumTake(weights: seq<int>, e: int)
    requires forall i :: 0 <= i < |weights| ==> weights[i] > 0
    requires 0 <= e < |weights|
    ensures Sum(weights[..e]) + weights[e] <= Sum(weights)
  {
    if e == 0 {
      SumPositive(weights[1..]);
    } else {
      SumTake(weights[1..], e - 1);
      assert weights[..e][1..] == weights[1..][..e - 1];
    }
  }

  /** The entry `provider_at` picks at a dispatch index. */
  function Dispatched(p: ProviderPolicy): int -> int
    requires ValidPolicy(p)
  {
    SumPositive(p.weights);
    index => EntryFor(p.weights, index % Sum(p.weights))
  }

  lemma {:induction false} SameOnPrefix(f: int -> int, g: int -> int, length: nat, pick: int)
    requires forall i :: 0 <= i < length ==> f(i) == g(i)
    ensures CountPicks(f, 0, length, pick) == CountPicks(g, 0, length, pick)
  {
    if length > 0 { SameOnPrefix(f, g, length - 1, pick); }
  }

  lemma ModPeriod(index: int, period: nat)
    requires period > 0
    ensures (index + period) % period == index % period
  {
    var a, b := index / period, (index + period) / period;
    var r, t := index % period, (index + period) % period;
    assert index == a * period + r && index + period == b * period + t;
    var d := b - a - 1;
    assert d * period == b * period - a * period - period;
    MultipleGap(d, period);
  }

  lemma MultipleGap(d: int, period: nat)
    ensures d >= 1 ==> d * period >= period
    ensures d <= -1 ==> d * period <= 0 - period
  {
  }

  /** Any `sum(weights)` consecutive dispatch indexes select entry `e` exactly `weights[e]` times. */
  lemma PolicyShares(p: ProviderPolicy, from: nat, e: int)
    requires ValidPolicy(p) && 0 <= e < |p.weights|
    ensures Sum(p.weights) > 0
    ensures CountPicks(Dispatched(p), from, Sum(p.weights), e) == p.weights[e]
  {
    SumPositive(p.weights);
    var period := Sum(p.weights);
    DispatchPeriodic(p);
    PeriodShift(Dispatched(p), period, from, e);
    FirstPeriod(p);
    SameOnPrefix(Dispatched(p), Blocks(p.weights), period, e);
    BlockCount(p.weights, e, period);
    SumTake(p.weights, e);
    SumPositive(p.weights[..e]);
  }

  lemma DispatchPeriodic(p: ProviderPolicy)
    requires ValidPolicy(p)
    ensures Sum(p.weights) > 0 && Periodic(Dispatched(p), Sum(p.weights))
  {
    SumPositive(p.weights);
    var f, period := Dispatched(p), Sum(p.weights);
    forall i ensures f(i + period) == f(i) { ModPeriod(i, period); }
  }

  lemma FirstPeriod(p: ProviderPolicy)
    requires ValidPolicy(p)
    ensures forall i :: 0 <= i < Sum(p.weights) ==> Dispatched(p)(i) == Blocks(p.weights)(i)
  {
    SumPositive(p.weights);
  }
}
