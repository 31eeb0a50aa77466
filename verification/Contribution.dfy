/** The session-wide contribution split, its schedule, and the telemetry of what was called. */
module Contribution {
  import opened Prelude
  import Providers

  datatype Provider = Qwen | Api

  datatype ContributionSplit = ContributionSplit(qwen: int, api: int)

  predicate ValidSplit(s: ContributionSplit) {
    s.qwen >= 0 && s.api >= 0 && s.qwen + s.api == 100
  }

  const STRIDE := 37
  const STRIDE_INVERSE := 73

  /** `phase` is the session digest; only its residue matters. */
  datatype WeightedSchedule = WeightedSchedule(split: ContributionSplit, phase: nat) {
    function ProviderAt(callIndex: nat): Provider {
      if Slot(phase)(callIndex) < split.qwen then Qwen else Api
    }

    function Sequence(length: int): (r: seq<Provider>)
      ensures |r| == if length < 0 then 0 else length
      ensures forall i :: 0 <= i < |r| ==> r[i] == ProviderAt(i)
    {
      seq(if length < 0 then 0 else length, i requires i >= 0 => ProviderAt(i))
    }
  }

  function Slot(phase: nat): int -> int {
    index => (phase % 100 + index * STRIDE) % 100
  }

  /** 1 for a call the schedule gives to qwen, 0 for one it gives to the API. */
  function QwenPick(phase: nat, share: int): int -> int {
    index => if Slot(phase)(index) < share then 1 else 0
  }

  lemma Residue(x: int, k: int, r: int)
    requires x == 100 * k + r && 0 <= r < 100
    ensures x % 100 == r
  {
  }

  /** The stride is invertible mod 100, so a residue fixes the index. */
  lemma SlotIndex(phase: nat, index: int, slot: int)
    requires 0 <= index < 100 && 0 <= slot < 100
    ensures Slot(phase)(index) == slot <==> index == (STRIDE_INVERSE * (slot - phase % 100)) % 100
  {
    var p := phase % 100;
    var x, y := p + index * 37, 73 * (slot - p);
    if x % 100 == slot {
      var k := x / 100;
      assert x == 100 * k + slot;
      Residue(y, 27 * index - 73 * k, index);
    }
    if y % 100 == index {
      var k := y / 100;
      assert y == 100 * k + index;
      Residue(x, 27 * (slot - p) - 37 * k, slot);
    }
  }

  /** Raising the share by one adds exactly the indexes whose slot is the old share. */
  lemma {:induction false} RaiseShare(phase: nat, share: nat, length: nat)
    requires share < 100 && length <= 100
    ensures
      var hit := (STRIDE_INVERSE * (share - phase % 100)) % 100;
      Providers.CountPicks(QwenPick(phase, share + 1), 0, length, 1)
        == Providers.CountPicks(QwenPick(phase, share), 0, length, 1) + (if hit < length then 1 else 0)
  {
    if length > 0 {
      RaiseShare(phase, share, length - 1);
      SlotIndex(phase, length - 1, share);
    }
  }

  lemma {:induction false} ZeroShare(phase: nat, length: nat)
    ensures Providers.CountPicks(QwenPick(phase, 0), 0, length, 1) == 0
  {
    if length > 0 {
      ZeroShare(phase, length - 1);
      assert 0 <= Slot(phase)(0 + length - 1);
    }
  }

  lemma {:induction false} FirstHundred(phase: nat, share: nat)
    requires share <= 100
    ensures Providers.CountPicks(QwenPick(phase, share), 0, 100, 1) == share
  {
    if share == 0 {
      ZeroShare(phase, 100);
    } else {
      FirstHundred(phase, share - 1);
      RaiseShare(phase, share - 1, 100);
    }
  }

  lemma PickPeriodic(phase: nat, share: int)
    ensures Providers.Periodic(QwenPick(phase, share), 100)
  {
    var f := QwenPick(phase, share);
    forall i ensures f(i + 100) == f(i) {
      var x := phase % 100 + i * 37;
      Residue(x + 3700, x / 100 + 37, x % 100);
      assert Slot(phase)(i + 100) == Slot(phase)(i);
    }
  }

  lemma Shares(split: ContributionSplit)
    requires ValidSplit(split)
    ensures 0 <= split.qwen <= 100 && split.api == 100 - split.qwen
  {
  }

  lemma ExactPicks(s: WeightedSchedule, from: nat)
    requires ValidSplit(s.split)
    ensures Providers.CountPicks(QwenPick(s.phase, s.split.qwen), from, 100, 1) == s.split.qwen
  {
    PickPeriodic(s.phase, s.split.qwen);
    Providers.PeriodShift(QwenPick(s.phase, s.split.qwen), 100, from, 1);
    FirstHundred(s.phase, s.split.qwen);
  }

  function Min(a: int, b: int): int { if a < b then a else b }
  function Max(a: int, b: int): int { if a < b then b else a }

  /** Any 100 consecutive calls contain exactly `split.qwen` qwen picks and `split.api` API picks. */
  lemma ExactShare(s: WeightedSchedule, from: nat)
    requires ValidSplit(s.split)
    ensures CallsTo(s, Qwen, from, 100) == s.split.qwen && CallsTo(s, Api, from, 100) == s.split.api
  {
    ExactPicks(s, from);
    CallsAreCounted(s, from, 100);
  }

  /** A consequence of the exact share alone: whole hundreds are exact, and a rest cannot exceed either share. */
  lemma ShareBounds(s: WeightedSchedule, from: nat, hundreds: nat, rest: nat)
    requires ValidSplit(s.split) && rest < 100
    ensures
      var count := CallsTo(s, Qwen, from, hundreds * 100 + rest);
      hundreds * s.split.qwen + Max(0, rest - s.split.api) <= count
        <= hundreds * s.split.qwen + Min(rest, s.split.qwen)
  {
    hide *;
    Shares(s.split);
    PickPeriodic(s.phase, s.split.qwen);
    FirstHundred(s.phase, s.split.qwen);
    CallsAreCounted(s, from, hundreds * 100 + rest);
    Providers.CountPeriods(QwenPick(s.phase, s.split.qwen), 100, from, hundreds, rest, 1);
    PartialWindow(s, from, rest);
  }

  lemma PartialWindow(s: WeightedSchedule, from: nat, rest: nat)
    requires ValidSplit(s.split) && rest <= 100
    ensures
      Max(0, rest - s.split.api)
        <= Providers.CountPicks(QwenPick(s.phase, s.split.qwen), from, rest, 1)
        <= Min(rest, s.split.qwen)
  {
    var f := QwenPick(s.phase, s.split.qwen);
    ExactPicks(s, from);
    Providers.CountSplit(f, from, rest, 100 - rest, 1);
    Providers.CountBounded(f, from, rest, 1);
    Providers.CountBounded(f, from + rest, 100 - rest, 1);
  }

  /** The picks counted above are the schedule's own answers. */
  lemma PickIsProvider(s: WeightedSchedule, callIndex: nat)
    ensures QwenPick(s.phase, s.split.qwen)(callIndex) == 1 <==> s.ProviderAt(callIndex) == Qwen
  {
  }

  // ---- how far any stretch of calls can be from the exact proportion ----

  /** How many of `length` calls from `from` on the schedule gives to the provider. */
  function CallsTo(s: WeightedSchedule, provider: Provider, from: nat, length: nat): nat {
    if length == 0 then 0
    else CallsTo(s, provider, from, length - 1) + (if s.ProviderAt(from + length - 1) == provider then 1 else 0)
  }

  lemma {:induction false} CallsAreCounted(s: WeightedSchedule, from: nat, length: nat)
    ensures CallsTo(s, Qwen, from, length) == Providers.CountPicks(QwenPick(s.phase, s.split.qwen), from, length, 1)
    ensures CallsTo(s, Qwen, from, length) + CallsTo(s, Api, from, length) == length
  {
    if length > 0 {
      CallsAreCounted(s, from, length - 1);
      PickIsProvider(s, from + length - 1);
    }
  }

  /** The index of the call that hits a slot, by the inverse stride. */
  function HitIndex(slot: int): int { STRIDE_INVERSE * slot % 100 }

  /** Twice the sum of the hit indexes of `length` slots from `from` on, less what an even spread gives. */
  function Excess(from: int, length: nat): int {
    if length == 0 then 0 else Excess(from, length - 1) + 2 * HitIndex(from + length - 1) - 99
  }

  lemma {:induction false} ExcessJoin(from: int, a: nat, b: nat)
    ensures Excess(from, a + b) == Excess(from, a) + Excess(from + a, b)
  {
    if b > 0 { ExcessJoin(from, a, b - 1); }
  }

  lemma {:induction false} ExcessPeriodic(from: int, length: nat)
    ensures Excess(from + 100, length) == Excess(from, length)
  {
    if length > 0 {
      ExcessPeriodic(from, length - 1);
      var x := STRIDE_INVERSE * (from + length - 1);
      Residue(x + 7300, x / 100 + 73, x % 100);
    }
  }

  predicate LowUpTo(n: nat) {
    forall x: nat :: x < n ==> -155 <= Excess(0, x) <= 85
  }

  /** Four steps of the walk, each within the band. */
  lemma FourSteps(x: nat, f: int, a: int, b: int, c: int)
    requires LowUpTo(x) && Excess(0, x) == f
    requires -155 <= f <= 85 && -155 <= a <= 85 && -155 <= b <= 85 && -155 <= c <= 85
    requires a == f + 2 * (73 * x % 100) - 99
    requires b == a + 2 * (73 * (x + 1) % 100) - 99
    requires c == b + 2 * (73 * (x + 2) % 100) - 99
    ensures LowUpTo(x + 4) && Excess(0, x + 4) == c + 2 * (73 * (x + 3) % 100) - 99
  {
    assert Excess(0, x + 1) == a;
    assert Excess(0, x + 2) == b;
    assert Excess(0, x + 3) == c;
  }

  lemma WalkStarts()
    ensures LowUpTo(0) && Excess(0, 0) == 0
  {
  }

  lemma WalkFirstHalf()
    ensures LowUpTo(48) && Excess(0, 48) == -64
  {
    hide LowUpTo, Excess, HitIndex;
    WalkStarts();
    FourSteps(0, 0, -99, -52, -59);
    FourSteps(4, -120, -35, -4, -27);
    FourSteps(8, -104, -35, -20, -59);
    FourSteps(12, -152, -99, -100, -155);
    FourSteps(16, -64, -27, -44, -115);
    FourSteps(20, -40, -19, -52, -139);
    FourSteps(24, -80, -75, -124, -27);
    FourSteps(28, 16, 5, -60, 21);
    FourSteps(32, 48, 21, -60, 5);
    FourSteps(36, 16, -27, -124, -75);
    FourSteps(40, -80, -139, -52, -19);
    FourSteps(44, -40, -115, -44, -27);
  }

  /** Once round the hundred slots the walk stays within a band of 240 and comes back to where it started. */
  lemma WalkOnce()
    ensures LowUpTo(100) && Excess(0, 100) == 0
  {
    hide LowUpTo, Excess, HitIndex;
    WalkFirstHalf();
    FourSteps(48, -64, -155, -100, -99);
    FourSteps(52, -152, -59, -20, -35);
    FourSteps(56, -104, -27, -4, -35);
    FourSteps(60, -120, -59, -52, -99);
    FourSteps(64, 0, 45, 36, -27);
    FourSteps(68, 56, 85, 60, -19);
    FourSteps(72, 48, 61, 20, -75);
    FourSteps(76, -24, -27, -84, 5);
    FourSteps(80, 40, 21, -52, 21);
    FourSteps(84, 40, 5, -84, -27);
    FourSteps(88, -24, -75, 20, 61);
    FourSteps(92, 48, -19, 60, 85);
    FourSteps(96, 56, -27, 36, 45);
  }

  lemma {:induction false} ExcessBounded(from: int, length: nat)
    requires length <= 100
    ensures -240 <= Excess(from, length) <= 240
    decreases if from < 0 then -from else from
  {
    if from < 0 {
      ExcessPeriodic(from, length);
      if from < -50 { ExcessBounded(from + 100, length); } else { ExcessInPlace(from + 100, length); }
    } else if from >= 100 {
      ExcessPeriodic(from - 100, length);
      ExcessBounded(from - 100, length);
    } else {
      ExcessInPlace(from, length);
    }
  }

  lemma ExcessInPlace(from: nat, length: nat)
    requires from < 100 && length <= 100
    ensures -240 <= Excess(from, length) <= 240
  {
    WalkOnce();
    if from + length <= 100 {
      ExcessJoin(0, from, length);
      assert from + length < 100 ==> -155 <= Excess(0, from + length) <= 85;
    } else {
      var left := 100 - from;
      ExcessJoin(0, from, left);
      ExcessJoin(from, left, length - left);
      ExcessPeriodic(0, length - left);
    }
  }

  /** The first n calls: a hundred times the count less the exact proportion is a difference of two such walks. */
  lemma {:induction false} CountAsWalks(phase: nat, share: nat, n: nat)
    requires share <= 100 && n <= 100
    ensures
      var p := phase % 100;
      2 * (100 * Providers.CountPicks(QwenPick(phase, share), 0, n, 1) - n * share)
        == Excess(-p - 37 * n, share) - Excess(-p, share)
  {
    if share == 0 {
      ZeroShare(phase, n);
    } else {
      CountAsWalks(phase, share - 1, n);
      RaiseShare(phase, share - 1, n);
      HitShift(share - 1 - phase % 100, n);
      assert n * share == n * (share - 1) + n;
      assert -(phase % 100) - 37 * n + (share - 1) == share - 1 - phase % 100 - 37 * n;
    }
  }

  /** Shifting a slot back by 37n moves its hit index back by n, round the hundred. */
  lemma HitShift(slot: int, n: nat)
    requires n <= 100
    ensures HitIndex(slot - 37 * n) == HitIndex(slot) - n + (if HitIndex(slot) < n then 100 else 0)
  {
    var y := HitIndex(slot);
    var k := STRIDE_INVERSE * slot / 100;
    var r := y - n + (if y < n then 100 else 0);
    Residue(STRIDE_INVERSE * (slot - 37 * n), k - 27 * n - (if y < n then 1 else 0), r);
  }

  lemma {:induction false} ShiftPhase(phase: nat, share: int, from: nat, n: nat)
    ensures Providers.CountPicks(QwenPick(phase, share), from, n, 1)
         == Providers.CountPicks(QwenPick(phase + from * STRIDE, share), 0, n, 1)
  {
    if n > 0 {
      ShiftPhase(phase, share, from, n - 1);
      var i := n - 1;
      SamePhase(phase, from, i);
    }
  }

  lemma SamePhase(phase: nat, from: nat, i: nat)
    ensures Slot(phase)(from + i) == Slot(phase + from * STRIDE)(0 + i)
  {
    var a, q := phase + from * STRIDE, phase / 100;
    var k := a / 100;
    assert a == 100 * k + a % 100 && phase == 100 * q + phase % 100;
    var z := phase % 100 + (from + i) * 37;
    assert a % 100 + i * 37 == z - 100 * (k - q);
    Residue(a % 100 + i * 37, z / 100 - (k - q), z % 100);
  }

  lemma FirstCallsDiscrepancy(phase: nat, share: nat, n: nat)
    requires share <= 100 && n <= 100
    ensures -240 <= 100 * Providers.CountPicks(QwenPick(phase, share), 0, n, 1) - n * share <= 240
  {
    hide *;
    CountAsWalks(phase, share, n);
    ExcessBounded(-(phase % 100) - 37 * n, share);
    ExcessBounded(-(phase % 100), share);
  }

  /** Any stretch of at most a hundred calls is the first calls of the schedule at another phase. */
  lemma ShortStretch(phase: nat, share: nat, from: nat, n: nat)
    requires share <= 100 && n <= 100
    ensures -240 <= 100 * Providers.CountPicks(QwenPick(phase, share), from, n, 1) - n * share <= 240
  {
    hide Providers.CountPicks, QwenPick;
    ShiftPhase(phase, share, from, n);
    FirstCallsDiscrepancy(phase + from * STRIDE, share, n);
  }

  /**
   * However long the stretch and wherever it starts, the count stays within 2.4 calls of the exact proportion:
   * the stride of 37 spreads the calls evenly, which a mere 100-call period would not.
   */
  lemma ShareDiscrepancy(s: WeightedSchedule, from: nat, length: nat)
    requires ValidSplit(s.split)
    ensures -240 <= 100 * CallsTo(s, Qwen, from, length) - length * s.split.qwen <= 240
  {
    hide *;
    Shares(s.split);
    var share := s.split.qwen;
    var f := QwenPick(s.phase, share);
    var hundreds, rest := length / 100, length % 100;
    CallsAreCounted(s, from, length);
    PickPeriodic(s.phase, share);
    FirstHundred(s.phase, share);
    Providers.CountPeriods(f, 100, from, hundreds, rest, 1);
    ShortStretch(s.phase, share, from, rest);
    Proportion(hundreds, rest, share, Providers.CountPicks(f, from, rest, 1));
  }

  lemma Proportion(hundreds: nat, rest: nat, share: nat, count: nat)
    ensures 100 * (hundreds * share + count) - (hundreds * 100 + rest) * share == 100 * count - rest * share
  {
  }

  // ---- telemetry ----

  datatype Deviation = Deviation(scheduled: Provider, actual: Provider, reason: string)

  /** The recorded calls whose provider differs from the scheduled one, oldest first. */
  function Mismatches(scheduled: seq<Provider>, actual: seq<Provider>): seq<(Provider, Provider)>
    requires |scheduled| == |actual|
  {
    if |scheduled| == 0 then []
    else
      var n := |scheduled| - 1;
      Mismatches(scheduled[..n], actual[..n])
        + (if scheduled[n] != actual[n] then [(scheduled[n], actual[n])] else [])
  }

  function Pairs(deviations: seq<Deviation>): seq<(Provider, Provider)> {
    seq(|deviations|, i requires 0 <= i < |deviations| => (deviations[i].scheduled, deviations[i].actual))
  }

  class ContributionTelemetry {
    var scheduled: seq<Provider>
    var actual: seq<Provider>
    var deviations: seq<Deviation>

    constructor ()
      ensures scheduled == [] && actual == [] && deviations == []
    {
      scheduled, actual, deviations := [], [], [];
    }

    /** Every deviation has been recorded with its reason, in call order. */
    ghost predicate Explained()
      reads this
    {
      && |scheduled| == |actual|
      && Pairs(deviations) == Mismatches(scheduled, actual)
      && forall d :: d in deviations ==> d.reason != ""
    }

    /** `accepted` is false where the source raises; the two call lists have grown even then. */
    method Record(planned: Provider, used: Provider, reason: string) returns (accepted: bool)
      requires |scheduled| == |actual|
      modifies this
      ensures scheduled == old(scheduled) + [planned] && actual == old(actual) + [used]
      ensures accepted <==> planned == used || reason != ""
      ensures accepted && old(Explained()) ==> Explained()
      ensures !accepted ==> deviations == old(deviations) && (old(Explained()) ==> !Explained())
    {
      scheduled := scheduled + [planned];
      actual := actual + [used];
      assert scheduled[..|scheduled| - 1] == old(scheduled) && actual[..|actual| - 1] == old(actual);
      if used != planned {
        if reason == "" {
          assert old(Explained()) ==> |Mismatches(scheduled, actual)| == |Pairs(deviations)| + 1;
          return false;
        }
        ghost var before := deviations;
        deviations := deviations + [Deviation(planned, used, reason)];
        assert Pairs(deviations) == Pairs(before) + [(planned, used)];
      }
      return true;
    }

    /** The controller records the provider the schedule names, so its list is always the schedule's own. */
    method CallScheduled(schedule: WeightedSchedule) returns (provider: Provider)
      requires Explained() && deviations == []
      requires scheduled == schedule.Sequence(|scheduled|)
      modifies this
      ensures provider == schedule.ProviderAt(|old(scheduled)|)
      ensures Explained() && deviations == [] && actual == scheduled
      ensures |scheduled| == |old(scheduled)| + 1 && scheduled == schedule.Sequence(|scheduled|)
    {
      provider := schedule.ProviderAt(|scheduled|);
      NoMismatchesMeansEqual(scheduled, actual);
      var accepted := Record(provider, provider, "");
      EqualMeansNoMismatches(scheduled);
      assert |deviations| == |Pairs(deviations)| == 0;
    }
  }

  lemma {:induction false} NoMismatchesMeansEqual(scheduled: seq<Provider>, actual: seq<Provider>)
    requires |scheduled| == |actual| && Mismatches(scheduled, actual) == []
    ensures scheduled == actual
  {
    if |scheduled| > 0 {
      var n := |scheduled| - 1;
      NoMismatchesMeansEqual(scheduled[..n], actual[..n]);
      assert scheduled == scheduled[..n] + [scheduled[n]] && actual == actual[..n] + [actual[n]];
    }
  }

  lemma {:induction false} EqualMeansNoMismatches(scheduled: seq<Provider>)
    ensures Mismatches(scheduled, scheduled) == []
  {
    if |scheduled| > 0 { EqualMeansNoMismatches(scheduled[..|scheduled| - 1]); }
  }
}
