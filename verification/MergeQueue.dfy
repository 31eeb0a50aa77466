/** Serialised, reviewed application of workspace proposals. */
module MergeQueue {
  import opened Prelude
  import opened RepoPath
  import opened Files
  import opened Checkpoints
  import Dependencies
  import TaskGraph

  datatype MergeProposal = MergeProposal(
    nodeId: Dependencies.Id,
    workspace: FileMap,
    paths: seq<Path>,
    originalHashes: map<Path, Digest>)

  datatype PermissionMode = Default | AcceptEdits | Plan | DontAsk

  datatype PermissionDecision = PermissionDecision(allowed: bool, approvalRequired: bool)

  /** `PermissionEvaluator.evaluate` for the capability "write". */
  function EvaluateWrite(mode: PermissionMode, allowlisted: bool): PermissionDecision {
    match mode
    case Plan => PermissionDecision(false, false)
    case DontAsk => PermissionDecision(allowlisted, false)
    case AcceptEdits => PermissionDecision(true, false)
    case Default => PermissionDecision(false, true)
  }

  datatype MergeError =
    | EmptyQueue
    | ReadOnlyNode
    | UnsafePath(path: string)
    | HashesDoNotCoverClaims
    | PermissionDenied
    | Stale(path: Path)
    | ValidationRejected
    | NoCheckpoint(error: CheckpointError)
    | WriteFailed(checkpoint: nat)

  predicate ValidProposal(p: MergeProposal) {
    && AllowedPaths(p.paths)
    && p.originalHashes.Keys == Elements(p.paths)
  }

  /** Every claimed path still has the content the proposal was made against. */
  predicate Fresh(files: FileMap, p: MergeProposal) {
    forall path :: path in p.originalHashes ==> HashOf(files, path) == p.originalHashes[path]
  }

  predicate Permitted(mode: PermissionMode, allowlisted: bool) {
    var d := EvaluateWrite(mode, allowlisted);
    d.allowed || d.approvalRequired
  }

  /** Every claimed path holds what the proposal was made against, as a regular file or not at all. */
  predicate AsRecorded(files: FileMap, p: MergeProposal) {
    forall path :: path in p.paths ==>
      path in p.originalHashes && HashOf(files, path) == p.originalHashes[path] && (path in files ==> files[path].File?)
  }

  /** The first `count` claimed paths hold what the workspace holds there. */
  predicate Written(files: FileMap, p: MergeProposal, count: nat)
    requires count <= |p.paths|
  {
    forall k :: 0 <= k < count ==> FileAt(files, p.paths[k]) == FileAt(p.workspace, p.paths[k])
  }

  /** A write that failed at one path: that path holds what was left there, those before it are written. */
  predicate PartWritten(files: FileMap, p: MergeProposal, at: nat, left: Option<Content>)
    requires at < |p.paths|
  {
    && FileAt(files, p.paths[at]) == left
    && forall k :: 0 <= k < at && p.paths[k] != p.paths[at] ==>
        FileAt(files, p.paths[k]) == FileAt(p.workspace, p.paths[k])
  }

  /** The repository after the proposal has been written. */
  function Merged(files: FileMap, p: MergeProposal): FileMap {
    Overlay(files, Elements(p.paths), p.workspace)
  }

  /** The repository after a write that failed at one path, with whatever that left there. */
  function Broken(files: FileMap, p: MergeProposal, at: nat, left: Option<Content>): FileMap
    requires at < |p.paths|
  {
    Put(Overlay(files, Elements(p.paths[..at]), p.workspace), p.paths[at], left)
  }

  /** An approved proposal passes every gate before the write loop. */
  predicate Passes(files: FileMap, p: MergeProposal, mode: PermissionMode, allowlisted: bool, valid: bool) {
    Permitted(mode, allowlisted) && Fresh(files, p) && valid && NoDirectoryAt(files, Elements(p.paths))
  }

  /** Who reviews what: the head of the queue, the answers given, and what the operating system does. */
  datatype Review = Review(proposal: MergeProposal, mode: PermissionMode, allowlisted: bool, approved: bool,
                           valid: bool, fault: Fault)
  {
    /** Approval, trusted validation, permission and freshness, one by one. */
    predicate Cleared(files: FileMap) {
      approved && valid && mode != Plan && (mode == DontAsk ==> allowlisted) && AsRecorded(files, proposal)
    }
  }

  /**
   * Exactly an approved, validated, permitted and fresh proposal is written, after a checkpoint of what it replaces;
   * in every other case files and checkpoints are as before.
   */
  ghost predicate Reviewed(v: Review, files: FileMap, saved: map<nat, Saved>, r: Result<Option<nat>, MergeError>,
                           after: FileMap, kept: map<nat, Saved>)
  {
    var p := v.proposal;
    match r
    case Success(None) => !v.approved && after == files && kept == saved
    case Success(Some(id)) =>
      && v.Cleared(files) && Checkpointed(saved, kept, id, files, p)
      && after == Merged(files, p) && Written(after, p, |p.paths|)
    case Failure(WriteFailed(id)) =>
      && v.Cleared(files) && Checkpointed(saved, kept, id, files, p)
      && v.fault.WriteFails? && v.fault.at < |p.paths|
      && after == Broken(files, p, v.fault.at, v.fault.left) && PartWritten(after, p, v.fault.at, v.fault.left)
    case Failure(_) => v.approved && !v.Cleared(files) && after == files && kept == saved
  }

  predicate Checkpointed(saved: map<nat, Saved>, kept: map<nat, Saved>, id: nat, files: FileMap, p: MergeProposal) {
    id !in saved && kept == saved[id := Snapshot(files, Elements(p.paths))]
  }

  class SerializedMergeQueue {
    const repository: Repository
    const checkpoints: CheckpointStore
    const mode: PermissionMode
    var queue: seq<MergeProposal>

    constructor (repository: Repository, checkpoints: CheckpointStore, mode: PermissionMode)
      requires checkpoints.repository == repository
      ensures this.repository == repository && this.checkpoints == checkpoints && this.mode == mode
      ensures queue == []
    {
      this.repository, this.checkpoints, this.mode := repository, checkpoints, mode;
      queue := [];
    }

    ghost predicate Valid()
      reads this, checkpoints
    {
      && checkpoints.repository == repository
      && checkpoints.Valid()
      && forall i :: 0 <= i < |queue| ==> ValidProposal(queue[i])
    }

    method Enqueue(node: TaskGraph.TaskNode, workspace: FileMap, originalHashes: map<Path, Digest>)
      returns (r: Result<(), MergeError>)
      requires Valid()
      modifies this`queue
      ensures Valid()
      ensures r.Success? <==>
        node.Edits() && AllowedPaths(node.writePaths) && originalHashes.Keys == Elements(node.writePaths)
      ensures r.Failure? ==> !r.error.WriteFailed?
      ensures queue == old(queue) +
        (if r.Success? then [MergeProposal(node.nodeId, workspace, node.writePaths, originalHashes)] else [])
    {
      if !node.Edits() {
        return Failure(ReadOnlyNode);
      }
      var bad := FirstBadPath(node.writePaths);
      if bad.Some? {
        return Failure(UnsafePath(bad.value));
      }
      if Elements(node.writePaths) != originalHashes.Keys {
        return Failure(HashesDoNotCoverClaims);
      }
      queue := queue + [MergeProposal(node.nodeId, workspace, node.writePaths, originalHashes)];
      return Success(());
    }

    /**
     * Review the oldest proposal. Only an approved proposal that passes every gate changes the repository,
     * and then a checkpoint of its paths has been taken first.
     */
    method ReviewNext(approved: bool, allowlisted: bool, valid: bool, fault: Fault)
      returns (r: Result<Option<nat>, MergeError>)
      requires Valid()
      modifies this`queue, checkpoints, repository
      ensures Valid()
      ensures old(queue) == [] ==>
        && r == Failure(EmptyQueue) && queue == []
        && repository.files == old(repository.files) && checkpoints.saved == old(checkpoints.saved)
      ensures old(queue) != [] ==>
        && queue == old(queue)[1..]
        && Reviewed(Review(old(queue)[0], mode, allowlisted, approved, valid, fault), old(repository.files),
                    old(checkpoints.saved), r, repository.files, checkpoints.saved)
    {
      if queue == [] {
        return Failure(EmptyQueue);
      }
      var proposal := queue[0];
      queue := queue[1..];
      if !approved {
        return Success(None);
      }
      hide Reviewed, ValidProposal;
      r := ReviewApproved(proposal, allowlisted, valid, fault);
    }

    /** The gates of an approved review, in order, and then the checkpoint and the write. */
    method ReviewApproved(proposal: MergeProposal, allowlisted: bool, valid: bool, fault: Fault)
      returns (r: Result<Option<nat>, MergeError>)
      requires checkpoints.repository == repository && checkpoints.Valid() && ValidProposal(proposal)
      modifies checkpoints, repository
      ensures checkpoints.Valid()
      ensures Reviewed(Review(proposal, mode, allowlisted, true, valid, fault), old(repository.files),
                       old(checkpoints.saved), r, repository.files, checkpoints.saved)
    {
      ghost var v := Review(proposal, mode, allowlisted, true, valid, fault);
      ghost var before, saved := repository.files, checkpoints.saved;
      GatesMean(v, before);
      NormalizedCanonical(repository.root, proposal.paths);
      hide Reviewed, Passes, Overlay, Snapshot, SameOutside, NoDirectoryAt, Elements, Merged, AsRecorded, Written,
        Broken, PartWritten, Accepted, Normalized, Fresh, Checkpointed, ValidProposal;
      var decision := EvaluateWrite(mode, allowlisted);
      if !decision.allowed && !decision.approvalRequired {
        r := Failure(PermissionDenied);
        RefusedReview(v, before, saved, PermissionDenied);
        return;
      }
      var stale := FirstStale(proposal);
      if stale.Some? {
        r := Failure(Stale(stale.value));
        RefusedReview(v, before, saved, Stale(stale.value));
        return;
      }
      if !valid {
        r := Failure(ValidationRejected);
        RefusedReview(v, before, saved, ValidationRejected);
        return;
      }
      var checkpoint := checkpoints.Create(proposal.paths);
      if checkpoint.Failure? {
        r := Failure(NoCheckpoint(checkpoint.error));
        RefusedReview(v, before, saved, NoCheckpoint(checkpoint.error));
        return;
      }
      var complete := WriteProposal(proposal, fault);
      if !complete {
        BrokenReview(v, before, saved, checkpoint.value);
        return Failure(WriteFailed(checkpoint.value));
      }
      WrittenReview(v, before, saved, checkpoint.value);
      return Success(Some(checkpoint.value));
    }

    /** The stale loop over the recorded hashes; a dictionary, so in no particular order. */
    method FirstStale(p: MergeProposal) returns (stale: Option<Path>)
      requires ValidProposal(p)
      ensures stale.None? <==> Fresh(repository.files, p)
      ensures stale.Some? ==>
        stale.value in p.originalHashes && HashOf(repository.files, stale.value) != p.originalHashes[stale.value]
    {
      for i := 0 to |p.paths|
        invariant forall j :: 0 <= j < i ==> HashOf(repository.files, p.paths[j]) == p.originalHashes[p.paths[j]]
      {
        var path := p.paths[i];
        assert path in Elements(p.paths);
        if HashOf(repository.files, path) != p.originalHashes[path] {
          return Some(path);
        }
      }
      assert forall path :: path in p.originalHashes ==> path in Elements(p.paths);
      return None;
    }

    /** Copy each claimed file that the workspace has, remove each one it lacks. */
    method WriteProposal(p: MergeProposal, fault: Fault) returns (complete: bool)
      requires NoDirectoryAt(repository.files, Elements(p.paths))
      modifies repository
      ensures SameOutside(repository.files, old(repository.files), Elements(p.paths))
      ensures NoDirectoryAt(repository.files, Elements(p.paths))
      ensures complete ==> repository.files == Merged(old(repository.files), p)
      ensures !complete ==>
        && fault.WriteFails? && fault.at < |p.paths|
        && repository.files == Broken(old(repository.files), p, fault.at, fault.left)
    {
      ghost var before := repository.files;
      OverlayNothing(before, p.workspace);
      assert p.paths[..0] == [] && Elements(p.paths[..0]) == {};
      hide Overlay, Put, SameOutside, NoDirectoryAt, Elements, Merged;
      for i := 0 to |p.paths|
        invariant repository.files == Overlay(before, Elements(p.paths[..i]), p.workspace)
      {
        var path := p.paths[i];
        NextWrite(before, p, i, fault);
        if IsFile(p.workspace, path) || path in repository.files {
          if fault.WriteFails? && fault.at == i {
            repository.files := Put(repository.files, path, fault.left);
            return false;
          }
          repository.files := Put(repository.files, path, FileAt(p.workspace, path));
        }
      }
      assert p.paths[..|p.paths|] == p.paths;
      MergedShape(before, p);
      MergedIsOverlay(before, p);
      return true;
    }

    /**
     * Merging and then rewinding is the identity: wherever the write loop stopped, restoring the checkpoint
     * it took gives back exactly the repository from before the review.
     */
    method MergeThenRewind(allowlisted: bool, valid: bool, fault: Fault) returns (rewound: bool)
      requires Valid() && queue != []
      modifies this`queue, checkpoints, repository
      ensures repository.files == old(repository.files)
      ensures rewound <==> Passes(old(repository.files), old(queue)[0], mode, allowlisted, valid)
    {
      ghost var before, saved, paths := repository.files, checkpoints.saved, Elements(queue[0].paths);
      ghost var v := Review(queue[0], mode, allowlisted, true, valid, fault);
      ClaimsArePlain(queue[0]);
      GatesMean(v, before);
      PassedHasNoDirectory(before, queue[0], mode, allowlisted, valid);
      hide Overlay, Snapshot, SameOutside, NoDirectoryAt, Passes, Restorable, Merged, Canonical, Plain, ValidProposal,
        Reviewed, Broken, AsRecorded;
      var r := ReviewNext(true, allowlisted, valid, fault);
      ReviewRewinds(v, before, saved, r, repository.files, checkpoints.saved);
      var checkpoint: nat;
      match r {
        case Success(Some(id)) => checkpoint := id;
        case Failure(WriteFailed(id)) => checkpoint := id;
        case _ => return false;
      }
      checkpoints.Rewind(checkpoint, before, paths);
      return true;
    }
  }

  /** What a review has written stays within the claims, and its checkpoint has what was there before. */
  lemma ReviewRewinds(v: Review, files: FileMap, saved: map<nat, Saved>, r: Result<Option<nat>, MergeError>,
                      after: FileMap, kept: map<nat, Saved>)
    requires Reviewed(v, files, saved, r, after, kept) && v.approved
    ensures v.Cleared(files) <==> (r.Success? && r.value.Some?) || (r.Failure? && r.error.WriteFailed?)
    ensures !v.Cleared(files) ==> after == files
    ensures v.Cleared(files) && NoDirectoryAt(files, Elements(v.proposal.paths)) ==>
      var id := if r.Success? then r.value.value else r.error.checkpoint;
      && id in kept && kept[id] == Snapshot(files, Elements(v.proposal.paths))
      && SameOutside(after, files, Elements(v.proposal.paths))
      && NoDirectoryAt(after, Elements(v.proposal.paths))
  {
    MergedShape(files, v.proposal);
    if r.Failure? && r.error.WriteFailed? { BrokenShape(files, v.proposal, v.fault.at, v.fault.left); }
    hide Merged, Broken, Snapshot, Written, PartWritten, AsRecorded, SameOutside, NoDirectoryAt;
  }

  lemma ClaimsArePlain(p: MergeProposal)
    requires ValidProposal(p)
    ensures forall path :: path in Elements(p.paths) ==> Plain(path)
  {
    forall path | path in Elements(p.paths) ensures Plain(path) {
      assert Canonical(path);
      CanonicalIsPlain(path);
    }
  }

  lemma MergedIsOverlay(files: FileMap, p: MergeProposal)
    ensures Merged(files, p) == Overlay(files, Elements(p.paths), p.workspace)
  {
  }

  /** One more path written as planned, or left with whatever a failure put there. */
  lemma NextWrite(before: FileMap, p: MergeProposal, i: nat, fault: Fault)
    requires i < |p.paths| && NoDirectoryAt(before, Elements(p.paths))
    ensures
      var now, path := Overlay(before, Elements(p.paths[..i]), p.workspace), p.paths[i];
      var next := Overlay(before, Elements(p.paths[..i + 1]), p.workspace);
      && Put(now, path, FileAt(p.workspace, path)) == next
      && (!IsFile(p.workspace, path) && path !in now ==> now == next)
      && (fault.WriteFails? ==>
            var broken := Put(now, path, fault.left);
            SameOutside(broken, before, Elements(p.paths)) && NoDirectoryAt(broken, Elements(p.paths)))
  {
    var path, done := p.paths[i], Elements(p.paths[..i]);
    assert Elements(p.paths[..i + 1]) == done + {path} by {
      assert p.paths[..i + 1] == p.paths[..i] + [path];
    }
    assert done <= Elements(p.paths) && path in Elements(p.paths);
    hide Elements;
    OverlayStep(before, done, path, p.workspace);
    if fault.WriteFails? { BrokenStep(before, Elements(p.paths), done, path, p.workspace, fault.left); }
  }

  lemma BrokenStep(before: FileMap, paths: set<Path>, done: set<Path>, path: Path, source: FileMap,
                   left: Option<Content>)
    requires done <= paths && path in paths && NoDirectoryAt(before, paths)
    ensures var broken := Put(Overlay(before, done, source), path, left);
      SameOutside(broken, before, paths) && NoDirectoryAt(broken, paths)
  {
    OverlayShape(before, done, source);
  }

  /** A broken write stays within its paths, and among them those up to the failing one. */
  lemma BrokenShape(files: FileMap, p: MergeProposal, at: nat, left: Option<Content>)
    requires at < |p.paths|
    ensures SameOutside(Broken(files, p, at, left), files, Elements(p.paths[..at + 1]))
    ensures SameOutside(Broken(files, p, at, left), files, Elements(p.paths))
    ensures forall path :: path !in p.paths[..at + 1] ==>
        HashOf(Broken(files, p, at, left), path) == HashOf(files, path)
    ensures NoDirectoryAt(files, Elements(p.paths)) ==> NoDirectoryAt(Broken(files, p, at, left), Elements(p.paths))
  {
    OverlayShape(files, Elements(p.paths[..at]), p.workspace);
    assert p.paths[..at + 1] == p.paths[..at] + [p.paths[at]];
    assert p.paths[at] in p.paths;
    assert forall path :: path in p.paths[..at] ==> path in p.paths;
  }

  /** Writing the whole proposal over a broken write leaves nothing of it. */
  lemma BrokenMerged(files: FileMap, p: MergeProposal, at: nat, left: Option<Content>)
    requires at < |p.paths|
    ensures Merged(Broken(files, p, at, left), p) == Merged(files, p)
  {
    BrokenShape(files, p, at, left);
    hide Broken;
    var broken := Broken(files, p, at, left);
    assert forall path :: path in broken.Keys + files.Keys && path !in Elements(p.paths) ==>
      path in broken && path in files && broken[path] == files[path];
  }

  /** The source's gates are the ones named in `Cleared`. */
  lemma GatesMean(v: Review, files: FileMap)
    requires ValidProposal(v.proposal) && v.approved
    ensures v.Cleared(files) <==> Passes(files, v.proposal, v.mode, v.allowlisted, v.valid)
    ensures Passes(files, v.proposal, v.mode, v.allowlisted, v.valid) <==>
      && (EvaluateWrite(v.mode, v.allowlisted).allowed || EvaluateWrite(v.mode, v.allowlisted).approvalRequired)
      && Fresh(files, v.proposal) && v.valid && NoDirectoryAt(files, Elements(v.proposal.paths))
  {
    var p := v.proposal;
    assert Elements(p.paths) == p.originalHashes.Keys;
    if AsRecorded(files, p) {
      forall path | path in p.originalHashes ensures HashOf(files, path) == p.originalHashes[path] {
        assert path in Elements(p.paths);
      }
    }
    forall path | path in p.paths ensures path in Elements(p.paths) {
    }
    hide HashOf, AllowedPaths;
  }

  lemma RefusedReview(v: Review, files: FileMap, saved: map<nat, Saved>, error: MergeError)
    requires v.approved && !v.Cleared(files) && !error.WriteFailed?
    ensures Reviewed(v, files, saved, Failure(error), files, saved)
  {
    hide AsRecorded;
  }

  lemma WrittenReview(v: Review, files: FileMap, saved: map<nat, Saved>, id: nat)
    requires v.Cleared(files) && id !in saved
    ensures Reviewed(v, files, saved, Success(Some(id)), Merged(files, v.proposal),
                     saved[id := Snapshot(files, Elements(v.proposal.paths))])
  {
    MergedContent(files, v.proposal);
    hide Merged, Written, Snapshot, AsRecorded;
  }

  lemma BrokenReview(v: Review, files: FileMap, saved: map<nat, Saved>, id: nat)
    requires v.Cleared(files) && id !in saved && v.fault.WriteFails? && v.fault.at < |v.proposal.paths|
    ensures Reviewed(v, files, saved, Failure(WriteFailed(id)), Broken(files, v.proposal, v.fault.at, v.fault.left),
                     saved[id := Snapshot(files, Elements(v.proposal.paths))])
  {
    BrokenContent(files, v.proposal, v.fault.at, v.fault.left);
    hide Broken, PartWritten, Snapshot, AsRecorded;
  }

  /** The outcome of a review in terms of the gates as one condition. */
  lemma ReviewedGates(v: Review, files: FileMap, saved: map<nat, Saved>, r: Result<Option<nat>, MergeError>,
                      after: FileMap, kept: map<nat, Saved>)
    requires Reviewed(v, files, saved, r, after, kept) && ValidProposal(v.proposal)
    ensures r == Success(None) <==> !v.approved
    ensures r == Success(None) || (r.Failure? && !r.error.WriteFailed?) ==> after == files && kept == saved
    ensures (r.Success? && r.value.Some?) || (r.Failure? && r.error.WriteFailed?) ==>
      v.Cleared(files) && Passes(files, v.proposal, v.mode, v.allowlisted, v.valid)
    ensures r.Success? && r.value.Some? ==>
      after == Merged(files, v.proposal) && Written(after, v.proposal, |v.proposal.paths|)
    ensures r.Failure? && r.error.WriteFailed? ==>
      && v.fault.WriteFails? && v.fault.at < |v.proposal.paths|
      && after == Broken(files, v.proposal, v.fault.at, v.fault.left)
    ensures r.Failure? && !r.error.WriteFailed? ==>
      v.approved && !v.Cleared(files) && !Passes(files, v.proposal, v.mode, v.allowlisted, v.valid)
  {
    if v.approved { GatesMean(v, files); }
    hide Passes, AsRecorded, Written, PartWritten, Merged, Broken, Checkpointed, ValidProposal, Fresh, EvaluateWrite;
  }

  lemma MergedContent(files: FileMap, p: MergeProposal)
    ensures Written(Merged(files, p), p, |p.paths|)
  {
    forall k | 0 <= k < |p.paths| ensures FileAt(Merged(files, p), p.paths[k]) == FileAt(p.workspace, p.paths[k]) {
      assert p.paths[k] in Elements(p.paths);
    }
  }

  lemma BrokenContent(files: FileMap, p: MergeProposal, at: nat, left: Option<Content>)
    requires at < |p.paths|
    ensures PartWritten(Broken(files, p, at, left), p, at, left)
  {
    forall k | 0 <= k < at && p.paths[k] != p.paths[at]
      ensures FileAt(Broken(files, p, at, left), p.paths[k]) == FileAt(p.workspace, p.paths[k])
    {
      assert p.paths[..at][k] == p.paths[k] && p.paths[k] in Elements(p.paths[..at]);
    }
  }

  lemma PassedHasNoDirectory(files: FileMap, p: MergeProposal, mode: PermissionMode, allowlisted: bool, valid: bool)
    ensures Passes(files, p, mode, allowlisted, valid) ==> NoDirectoryAt(files, Elements(p.paths))
  {
  }

  lemma MergedShape(files: FileMap, p: MergeProposal)
    ensures SameOutside(Merged(files, p), files, Elements(p.paths))
    ensures NoDirectoryAt(Merged(files, p), Elements(p.paths))
  {
    OverlayShape(files, Elements(p.paths), p.workspace);
  }
}
