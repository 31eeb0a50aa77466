/** Any sequence of merge reviews of one run, with edits from outside in between. */
module MergeHistory {
  import opened Prelude
  import opened RepoPath
  import opened Files
  import opened Dependencies
  import MergeQueue

  /** What one run recorded: the files when it started, each editor's claims, and its proposal. */
  datatype RunContext = RunContext(base: FileMap, claims: map<Id, seq<Path>>, proposals: map<Id, FileMap>)

  predicate Recorded(c: RunContext, n: Id) {
    n in c.claims && n in c.proposals && (forall i :: 0 <= i < |c.claims[n]| ==> Canonical(c.claims[n][i]))
  }

  function ProposalOf(c: RunContext, n: Id): MergeQueue.MergeProposal
    requires Recorded(c, n)
  {
    MergeQueue.MergeProposal(n, c.proposals[n], c.claims[n], HashPaths(c.base, c.claims[n]))
  }

  datatype Ledger = Ledger(files: FileMap, queue: seq<Id>)

  /** A review; an approved review whose write fails at one path, leaving something there; or an edit from outside. */
  datatype Event =
    | Review(node: Id, approved: bool, valid: bool)
    | Interrupted(node: Id, valid: bool, at: nat, left: Option<Content>)
    | OutsideEdit(path: Path, content: Option<Content>)

  /** An approved review starts to write its proposal: it is the head of the queue and passes every gate. */
  predicate Admits(c: RunContext, l: Ledger, node: Id, valid: bool) {
    && l.queue != [] && l.queue[0] == node
    && Recorded(c, node)
    && MergeQueue.Passes(l.files, ProposalOf(c, node), MergeQueue.Default, false, valid)
  }

  /** The review writes its whole proposal. */
  predicate Applies(c: RunContext, l: Ledger, e: Event) {
    e.Review? && e.approved && Admits(c, l, e.node, e.valid)
  }

  /** The review writes a part of its proposal. */
  predicate Breaks(c: RunContext, l: Ledger, e: Event) {
    e.Interrupted? && Admits(c, l, e.node, e.valid) && e.at < |c.claims[e.node]|
  }

  /** A refused proposal leaves the queue; one that is stale, rejected or interrupted stays at its head. */
  function Step(c: RunContext, l: Ledger, e: Event): Ledger {
    match e
    case OutsideEdit(path, content) => l.(files := Put(l.files, path, content))
    case Review(node, approved, valid) =>
      if l.queue == [] || l.queue[0] != node || !Recorded(c, node) then l
      else if !approved then l.(queue := l.queue[1..])
      else if Applies(c, l, e) then Ledger(MergeQueue.Merged(l.files, ProposalOf(c, node)), l.queue[1..])
      else l
    case Interrupted(node, _, at, left) =>
      if Breaks(c, l, e) then l.(files := MergeQueue.Broken(l.files, ProposalOf(c, node), at, left)) else l
  }

  function Run(c: RunContext, l: Ledger, es: seq<Event>): Ledger {
    if |es| == 0 then l else Step(c, Run(c, l, es[..|es| - 1]), es[|es| - 1])
  }

  // ---- serial replay ----

  datatype Write =
    | Merge(node: Id)
    | Part(node: Id, at: nat, left: Option<Content>)
    | Edit(path: Path, content: Option<Content>)

  /** What an event writes, if anything. */
  function WriteOf(c: RunContext, l: Ledger, e: Event): seq<Write> {
    if e.OutsideEdit? then [Edit(e.path, e.content)]
    else if Applies(c, l, e) then [Merge(e.node)]
    else if Breaks(c, l, e) then [Part(e.node, e.at, e.left)]
    else []
  }

  /** The writes a sequence of events performs. */
  function Log(c: RunContext, l: Ledger, es: seq<Event>): seq<Write> {
    if |es| == 0 then []
    else
      var before, e := Run(c, l, es[..|es| - 1]), es[|es| - 1];
      Log(c, l, es[..|es| - 1]) + WriteOf(c, before, e)
  }

  function WriteOne(c: RunContext, files: FileMap, w: Write): FileMap {
    match w
    case Edit(path, content) => Put(files, path, content)
    case Merge(node) => if Recorded(c, node) then MergeQueue.Merged(files, ProposalOf(c, node)) else files
    case Part(node, at, left) =>
      if Recorded(c, node) && at < |c.claims[node]|
      then MergeQueue.Broken(files, ProposalOf(c, node), at, left) else files
  }

  function Redo(c: RunContext, files: FileMap, log: seq<Write>): FileMap {
    if |log| == 0 then files else WriteOne(c, Redo(c, files, log[..|log| - 1]), log[|log| - 1])
  }

  /** Each merge of the log, interrupted or not, found when its turn came exactly the content it was made against. */
  predicate EachFresh(c: RunContext, files: FileMap, log: seq<Write>) {
    |log| == 0 ||
    (var before, w := log[..|log| - 1], log[|log| - 1];
     EachFresh(c, files, before) &&
     (!w.Edit? ==> Recorded(c, w.node) && MergeQueue.Fresh(Redo(c, files, before), ProposalOf(c, w.node))))
  }

  /** The merged nodes of a log, in order. */
  function MergedNodes(log: seq<Write>): seq<Id> {
    if |log| == 0 then []
    else MergedNodes(log[..|log| - 1]) + (if log[|log| - 1].Merge? then [log[|log| - 1].node] else [])
  }

  /** `part` arises from `whole` by leaving elements out. */
  predicate Subsequence(part: seq<Id>, whole: seq<Id>) {
    if |part| == 0 then true
    else if |whole| == 0 then false
    else if part[|part| - 1] == whole[|whole| - 1] then Subsequence(part[..|part| - 1], whole[..|whole| - 1])
    else Subsequence(part, whole[..|whole| - 1])
  }

  lemma {:induction false} SubsequenceMore(part: seq<Id>, whole: seq<Id>, more: Id)
    requires Subsequence(part, whole)
    ensures Subsequence(part, whole + [more])
    ensures Subsequence(part + [more], whole + [more])
  {
    assert (whole + [more])[..|whole|] == whole;
    assert (part + [more])[..|part|] == part;
    if |part| > 0 && part[|part| - 1] == more {
      SubsequenceDrop(part, whole);
    }
  }

  lemma {:induction false} SubsequenceDrop(part: seq<Id>, whole: seq<Id>)
    requires Subsequence(part, whole) && |part| > 0
    ensures Subsequence(part[..|part| - 1], whole)
  {
    var init := part[..|part| - 1];
    if part[|part| - 1] == whole[|whole| - 1] {
      assert Subsequence(init, whole[..|whole| - 1]);
      if |init| > 0 && init[|init| - 1] == whole[|whole| - 1] {
        SubsequenceDrop(init, whole[..|whole| - 1]);
      }
    } else {
      SubsequenceDrop(part, whole[..|whole| - 1]);
      if |init| > 0 && init[|init| - 1] == whole[|whole| - 1] {
        SubsequenceDrop(init, whole[..|whole| - 1]);
      }
    }
  }

  /**
   * `r` is the sequential replay of exactly the writes in `log`; every replayed merge meets the content it
   * recorded; merges happen in queue order, and what is left of the queue is a suffix.
   */
  predicate Serial(c: RunContext, l: Ledger, r: Ledger, log: seq<Write>) {
    && r.files == Redo(c, l.files, log)
    && EachFresh(c, l.files, log)
    && |r.queue| <= |l.queue| && r.queue == l.queue[|l.queue| - |r.queue|..]
    && Subsequence(MergedNodes(log), l.queue[..|l.queue| - |r.queue|])
  }

  lemma {:induction false} SerialReplay(c: RunContext, l: Ledger, es: seq<Event>)
    ensures Serial(c, l, Run(c, l, es), Log(c, l, es))
  {
    if |es| > 0 {
      hide MergeQueue.Passes, MergeQueue.Merged, Put, Step, Serial, Applies, WriteOf;
      SerialReplay(c, l, es[..|es| - 1]);
      SerialStep(c, l, es[..|es| - 1], es[|es| - 1]);
    }
  }

  lemma SerialStep(c: RunContext, l: Ledger, es: seq<Event>, e: Event)
    requires Serial(c, l, Run(c, l, es), Log(c, l, es))
    ensures
      var before := Run(c, l, es);
      var log := Log(c, l, es) + WriteOf(c, before, e);
      Serial(c, l, Step(c, before, e), log)
  {
    hide MergeQueue.Passes, MergeQueue.Merged, Put, Step, Redo, EachFresh, MergedNodes, Subsequence, Applies, WriteOf,
      Run, Log;
    LogStep(c, l, es, e);
    QueueStep(c, l.queue, Run(c, l, es), e, MergedNodes(Log(c, l, es)));
  }

  lemma LogStep(c: RunContext, l: Ledger, es: seq<Event>, e: Event)
    requires Run(c, l, es).files == Redo(c, l.files, Log(c, l, es)) && EachFresh(c, l.files, Log(c, l, es))
    ensures
      var before := Run(c, l, es);
      var log := Log(c, l, es) + WriteOf(c, before, e);
      && Step(c, before, e).files == Redo(c, l.files, log)
      && EachFresh(c, l.files, log)
      && MergedNodes(log) == MergedNodes(Log(c, l, es)) + (if Applies(c, before, e) then [e.node] else [])
  {
    hide MergeQueue.Merged, MergeQueue.Broken, Put, MergeQueue.Fresh;
    var before, log := Run(c, l, es), Log(c, l, es);
    var writes := WriteOf(c, before, e);
    WriteStep(c, before, e);
    if writes == [] {
      assert log + [] == log;
    } else {
      assert (log + writes)[..|log|] == log && (log + writes)[|log|] == writes[0];
    }
    assert MergedNodes(log) + [] == MergedNodes(log);
    hide Step, WriteOf, WriteOne, Applies, Breaks, Run, Log;
  }

  /** An event does what it writes, and a merge it writes is fresh. */
  lemma WriteStep(c: RunContext, l: Ledger, e: Event)
    ensures var writes := WriteOf(c, l, e);
      && |writes| <= 1
      && (writes == [] ==> Step(c, l, e).files == l.files && !Applies(c, l, e))
      && (writes != [] ==>
            && Step(c, l, e).files == WriteOne(c, l.files, writes[0])
            && (!writes[0].Edit? ==>
                  Recorded(c, writes[0].node) && MergeQueue.Fresh(l.files, ProposalOf(c, writes[0].node)))
            && (writes[0].Merge? <==> Applies(c, l, e)) && (writes[0].Merge? ==> writes[0].node == e.node))
  {
    hide MergeQueue.Merged, MergeQueue.Broken, Put, MergeQueue.Fresh, Recorded;
  }

  lemma QueueStep(c: RunContext, whole: seq<Id>, l: Ledger, e: Event, merged: seq<Id>)
    requires |l.queue| <= |whole| && l.queue == whole[|whole| - |l.queue|..]
    requires Subsequence(merged, whole[..|whole| - |l.queue|])
    ensures
      var r := Step(c, l, e);
      && |r.queue| <= |whole| && r.queue == whole[|whole| - |r.queue|..]
      && Subsequence(merged + (if Applies(c, l, e) then [e.node] else []), whole[..|whole| - |r.queue|])
  {
    hide MergeQueue.Passes;
    var r := Step(c, l, e);
    var k := |whole| - |l.queue|;
    if r.queue != l.queue {
      assert whole[..k + 1] == whole[..k] + [e.node];
      SubsequenceMore(merged, whole[..k], e.node);
    }
    assert merged + [] == merged;
  }

  // ---- where the writes come from ----

  /** A merge comes from an approved and validated review, a part of one from an interrupted validated review. */
  predicate Caused(w: Write, e: Event) {
    match w
    case Merge(node) => e == Review(node, true, true)
    case Part(node, at, left) => e == Interrupted(node, true, at, left)
    case Edit(path, content) => e == OutsideEdit(path, content)
  }

  lemma WriteCaused(c: RunContext, l: Ledger, e: Event)
    ensures |WriteOf(c, l, e)| <= 1
    ensures WriteOf(c, l, e) != [] ==> Caused(WriteOf(c, l, e)[0], e)
  {
    hide MergeQueue.Fresh, NoDirectoryAt, Recorded;
  }

  /** Event i performs the write at position k of the log. */
  ghost predicate WrittenAt(c: RunContext, l: Ledger, es: seq<Event>, k: nat, i: nat)
    requires k < |Log(c, l, es)| && i < |es|
  {
    Log(c, l, es[..i]) == Log(c, l, es)[..k] && Caused(Log(c, l, es)[k], es[i])
  }

  /** Every write comes from its own event, and none from a review that was not validated or not approved. */
  lemma {:induction false} WritesAreCaused(c: RunContext, l: Ledger, es: seq<Event>, k: nat)
    requires k < |Log(c, l, es)|
    ensures exists i :: 0 <= i < |es| && WrittenAt(c, l, es, k, i)
  {
    var n := |es| - 1;
    var init, log := Log(c, l, es[..n]), Log(c, l, es);
    WriteCaused(c, Run(c, l, es[..n]), es[n]);
    hide Log, WriteOf, Run, Caused;
    LogUnfolds(c, l, es);
    if k < |init| {
      WritesAreCaused(c, l, es[..n], k);
      var i :| 0 <= i < n && WrittenAt(c, l, es[..n], k, i);
      assert es[..n][..i] == es[..i] && init[..k] == log[..k];
      assert WrittenAt(c, l, es, k, i);
    } else {
      assert WrittenAt(c, l, es, k, n) by { assert log[..k] == init; }
    }
  }

  lemma LogUnfolds(c: RunContext, l: Ledger, es: seq<Event>)
    requires es != []
    ensures
      var n := |es| - 1;
      Log(c, l, es) == Log(c, l, es[..n]) + WriteOf(c, Run(c, l, es[..n]), es[n])
  {
  }

  // ---- what a single step may touch ----

  /** A review, even an interrupted one, changes a path only if it is claimed and still has its recorded content. */
  lemma ReviewTouches(c: RunContext, l: Ledger, e: Event, p: Path)
    requires !e.OutsideEdit?
    requires FileAt(Step(c, l, e).files, p) != FileAt(l.files, p)
    ensures (Applies(c, l, e) || Breaks(c, l, e)) && p in c.claims[e.node] && HashOf(l.files, p) == HashOf(c.base, p)
  {
    var n := e.node;
    assert Applies(c, l, e) || Breaks(c, l, e);
    if Applies(c, l, e) {
      MergeQueue.MergedShape(l.files, ProposalOf(c, n));
    } else {
      MergeQueue.BrokenShape(l.files, ProposalOf(c, n), e.at, e.left);
    }
    assert ProposalOf(c, n).originalHashes[p] == HashOf(c.base, p);
  }

  /** An edit made from outside to a path is never overwritten by a later merge. */
  lemma OutsideEditSurvives(c: RunContext, l: Ledger, e: Event, p: Path)
    requires !e.OutsideEdit? && HashOf(l.files, p) != HashOf(c.base, p)
    ensures FileAt(Step(c, l, e).files, p) == FileAt(l.files, p)
  {
    if FileAt(Step(c, l, e).files, p) != FileAt(l.files, p) { ReviewTouches(c, l, e, p); }
  }

  /**
   * An interrupted proposal can still be merged exactly when the paths written so far, the failing one included,
   * have their recorded content again; then merging it does what the uninterrupted merge would have done.
   */
  lemma InterruptedMergesIff(c: RunContext, l: Ledger, e: Event)
    requires Breaks(c, l, e)
    ensures
      var r := Step(c, l, e);
      && r.queue == l.queue
      && (Admits(c, r, e.node, true) <==>
            forall k :: 0 <= k <= e.at ==> HashOf(r.files, c.claims[e.node][k]) == HashOf(c.base, c.claims[e.node][k]))
      && MergeQueue.Merged(r.files, ProposalOf(c, e.node)) == MergeQueue.Merged(l.files, ProposalOf(c, e.node))
  {
    var p, paths := ProposalOf(c, e.node), c.claims[e.node];
    var r := Step(c, l, e);
    MergeQueue.BrokenShape(l.files, p, e.at, e.left);
    MergeQueue.BrokenMerged(l.files, p, e.at, e.left);
    forall path | path in p.originalHashes ensures path in paths {
    }
    forall k | 0 <= k <= e.at
      ensures paths[k] in p.originalHashes && p.originalHashes[paths[k]] == HashOf(c.base, paths[k])
    {
    }
    if forall k :: 0 <= k <= e.at ==> HashOf(r.files, paths[k]) == HashOf(c.base, paths[k]) {
      forall path | path in p.originalHashes ensures HashOf(r.files, path) == p.originalHashes[path] {
        if path !in paths[..e.at + 1] { assert HashOf(r.files, path) == HashOf(l.files, path); }
      }
    }
    hide MergeQueue.Broken, MergeQueue.Merged, HashOf, NoDirectoryAt;
  }

  predicate Edits(e: Event, p: Path) {
    e.OutsideEdit? && e.path == p
  }

  /** A path no queued node claims keeps its content through any reviews. */
  lemma {:induction false} UnclaimedUnchanged(c: RunContext, l: Ledger, es: seq<Event>, p: Path)
    requires forall n :: n in l.queue && n in c.claims ==> p !in c.claims[n]
    requires forall i :: 0 <= i < |es| ==> !Edits(es[i], p)
    ensures FileAt(Run(c, l, es).files, p) == FileAt(l.files, p)
  {
    if |es| > 0 {
      var es', e := es[..|es| - 1], es[|es| - 1];
      UnclaimedUnchanged(c, l, es', p);
      SerialReplay(c, l, es');
      var before := Run(c, l, es');
      if !e.OutsideEdit? {
        assert Applies(c, before, e) || Breaks(c, before, e) ==> e.node in l.queue by {
          if Applies(c, before, e) || Breaks(c, before, e) { assert before.queue[0] in l.queue; }
        }
        if FileAt(Step(c, before, e).files, p) != FileAt(before.files, p) { ReviewTouches(c, before, e, p); }
      } else {
        assert !Edits(e, p);
      }
    }
  }

  /** How often the content at a path changes over the events. */
  function Changes(c: RunContext, l: Ledger, es: seq<Event>, p: Path): nat {
    if |es| == 0 then 0
    else
      var before := Run(c, l, es[..|es| - 1]);
      Changes(c, l, es[..|es| - 1], p) +
        (if FileAt(Step(c, before, es[|es| - 1]).files, p) != FileAt(before.files, p) then 1 else 0)
  }

  /** Without outside edits a path changes content at most once across all reviews of a run. */
  lemma {:induction false} ChangesAtMostOnce(c: RunContext, l: Ledger, es: seq<Event>, p: Path)
    requires forall i :: 0 <= i < |es| ==> !Edits(es[i], p)
    ensures Changes(c, l, es, p) <= 1
    ensures Changes(c, l, es, p) == 1 ==> HashOf(Run(c, l, es).files, p) != HashOf(c.base, p)
  {
    if |es| > 0 {
      var es', e := es[..|es| - 1], es[|es| - 1];
      ChangesAtMostOnce(c, l, es', p);
      var before := Run(c, l, es');
      if FileAt(Step(c, before, e).files, p) != FileAt(before.files, p) {
        assert !Edits(e, p);
        if !e.OutsideEdit? { ReviewTouches(c, before, e, p); }
      }
    }
  }
}
