/** Subagent workspaces copied from the repository, and the merge of their reviewed changes. */
module Subagents {
  import opened Prelude
  import opened RepoPath
  import opened Files
  import opened Ordering
  import opened Utf8
  import Checkpoints

  const IGNORED := {".git", "artifacts", "target", "__pycache__", ".pytest_cache"}

  /** `shutil.ignore_patterns` drops a name at any depth. */
  predicate Ignored(p: Path) {
    exists part :: part in Split(p) && part in IGNORED
  }

  function Copied(files: FileMap): FileMap {
    map p | p in files && !Ignored(p) :: files[p]
  }

  /** The contents are texts: files are read and written in text mode. */
  datatype SubagentDiff = SubagentDiff(
    changedPaths: seq<Path>,
    contents: map<Path, Option<string>>,
    originalHashes: map<Path, Digest>)

  datatype DiffFailure = NotActive | NotText(path: Path)

  datatype MergeFailure = SharedWorkspaceChanged(path: Path) | NotAFile(path: Path)

  /** What `diff` produces: each changed path once, with its new content and the digest it replaces. */
  predicate WellFormed(d: SubagentDiff) {
    && NoDuplicates(d.changedPaths)
    && d.contents.Keys == Elements(d.changedPaths)
    && d.originalHashes.Keys == Elements(d.changedPaths)
  }

  /** The paths whose regular file differs between the two maps. */
  predicate Differs(baseline: FileMap, current: FileMap, p: Path) {
    FileAt(baseline, p) != FileAt(current, p)
  }

  /** The text read from the path; None when there is no file, or its bytes are no text. */
  function TextAt(files: FileMap, p: Path): Option<string> {
    if IsFile(files, p) then ReadText(files[p].content) else None
  }

  /** There is no file, or its bytes can be read as text. */
  predicate Legible(files: FileMap, p: Path) {
    IsFile(files, p) ==> ReadText(files[p].content).Some?
  }

  /** What writing the text back puts at the path. */
  function Bytes(text: Option<string>): Option<Content> {
    if text.None? then None else Some(Encode(text.value))
  }

  /** The proposal lists exactly the differing paths, each with its new text and its old digest. */
  ghost predicate IsDiff(d: SubagentDiff, baseline: FileMap, current: FileMap) {
    && WellFormed(d)
    && (forall p :: p in d.contents <==> Differs(baseline, current, p))
    && (forall p :: p in d.contents ==>
         Legible(current, p) && d.contents[p] == TextAt(current, p) && d.originalHashes[p] == HashOf(baseline, p))
  }

  predicate Fresh(files: FileMap, d: SubagentDiff) {
    forall p :: p in d.originalHashes ==> HashOf(files, p) == d.originalHashes[p]
  }

  /** The new files of the proposal; a removed path is absent. */
  function Target(d: SubagentDiff): FileMap {
    map p | p in d.contents && d.contents[p].Some? :: File(Encode(d.contents[p].value))
  }

  /** How many paths can be written before one that is a directory. */
  function Writable(files: FileMap, paths: seq<Path>): (n: nat)
    ensures n <= |paths|
    ensures NoDirectoryAt(files, Elements(paths[..n]))
    ensures n < |paths| ==> paths[n] in files && files[paths[n]].Directory?
  {
    if paths == [] || (paths[0] in files && files[paths[0]].Directory?) then 0
    else
      var rest := Writable(files, paths[1..]);
      assert Elements(paths[..rest + 1]) == {paths[0]} + Elements(paths[1..][..rest]) by {
        assert paths[..rest + 1] == [paths[0]] + paths[1..][..rest];
      }
      rest + 1
  }

  /** The repository after an approved merge, refused or not. */
  function AfterMerge(files: FileMap, d: SubagentDiff): FileMap
  {
    if Fresh(files, d) then Overlay(files, Elements(d.changedPaths[..Writable(files, d.changedPaths)]), Target(d))
    else files
  }

  /** The approved merge goes through. */
  predicate Merges(files: FileMap, d: SubagentDiff) {
    Fresh(files, d) && NoDirectoryAt(files, Elements(d.changedPaths))
  }

  class IsolatedSubagentWorkspace {
    const repository: Checkpoints.Repository
    var workspace: Option<FileMap>
    /** The digests of the copied files are their contents. */
    var baseline: FileMap

    constructor (repository: Checkpoints.Repository)
      ensures this.repository == repository && workspace == None && baseline == map[]
    {
      this.repository, workspace, baseline := repository, None, map[];
    }

    method Enter()
      modifies this
      ensures workspace == Some(Copied(repository.files)) && baseline == Copied(repository.files)
    {
      workspace := Some(Copied(repository.files));
      baseline := Copied(repository.files);
    }

    method Exit()
      modifies this`workspace
      ensures workspace == None
    {
      workspace := None;
    }

    /** Raises when the workspace is not active, and at a changed file that cannot be read as text. */
    method Diff() returns (r: Result<SubagentDiff, DiffFailure>)
      ensures r.Success? <==>
        workspace.Some? && forall p :: Differs(baseline, workspace.value, p) ==> Legible(workspace.value, p)
      ensures r == Failure(NotActive) <==> workspace.None?
      ensures r.Success? ==>
        var d := r.value;
        Sorted(d.changedPaths) && IsDiff(d, baseline, workspace.value)
    {
      if workspace.None? {
        return Failure(NotActive);
      }
      var current := workspace.value;
      var changed := SortSet(set p | p in baseline.Keys + current.Keys && Differs(baseline, current, p));
      SortedDistinct(changed);
      assert forall p :: p in changed <==> Differs(baseline, current, p);
      var contents := ReadTexts(current, changed);
      if contents.Failure? {
        return Failure(contents.error);
      }
      DiffOf(baseline, current, changed, contents.value);
      return Success(SubagentDiff(changed, contents.value, map p | p in changed :: HashOf(baseline, p)));
    }

    /** The text of every path, or the first that has none. */
    method ReadTexts(current: FileMap, paths: seq<Path>) returns (r: Result<map<Path, Option<string>>, DiffFailure>)
      ensures r.Success? <==> forall p :: p in paths ==> Legible(current, p)
      ensures r.Success? ==> r.value == map p | p in paths :: TextAt(current, p)
      ensures r.Failure? ==> r.error.NotText? && r.error.path in paths && !Legible(current, r.error.path)
    {
      hide ReadText;
      var contents: map<Path, Option<string>> := map[];
      for i := 0 to |paths|
        invariant forall j :: 0 <= j < i ==> Legible(current, paths[j])
        invariant contents == map p | p in paths[..i] :: TextAt(current, p)
      {
        if IsFile(current, paths[i]) && ReadText(current[paths[i]].content).None? {
          assert paths[i] in paths && !Legible(current, paths[i]);
          return Failure(NotText(paths[i]));
        }
        assert paths[..i + 1] == paths[..i] + [paths[i]];
        contents := contents[paths[i] := TextAt(current, paths[i])];
      }
      assert paths[..|paths|] == paths;
      return Success(contents);
    }

    /**
     * Every digest is compared before anything is written. What then still stops the loop is a directory where
     * a file is to be written: its digest is "missing" too.
     */
    method MergeReviewed(d: SubagentDiff, approved: bool) returns (r: Result<bool, MergeFailure>)
      requires WellFormed(d)
      modifies repository
      ensures r == Success(false) <==> !approved
      ensures r == Success(true) <==> approved && Merges(old(repository.files), d)
      ensures r.Failure? && r.error.SharedWorkspaceChanged? <==> approved && !Fresh(old(repository.files), d)
      ensures repository.files == if approved then AfterMerge(old(repository.files), d) else old(repository.files)
    {
      if !approved {
        return Success(false);
      }
      var paths := d.changedPaths;
      for i := 0 to |paths|
        invariant forall j :: 0 <= j < i ==> HashOf(repository.files, paths[j]) == d.originalHashes[paths[j]]
      {
        assert paths[i] in Elements(paths);
        if HashOf(repository.files, paths[i]) != d.originalHashes[paths[i]] {
          return Failure(SharedWorkspaceChanged(paths[i]));
        }
      }
      assert forall p :: p in d.originalHashes ==> p in Elements(paths);
      ghost var stop := Writable(repository.files, paths);
      OverlayNothing(repository.files, Target(d));
      assert Elements(paths[..0]) == {};
      for i := 0 to |paths|
        invariant i <= stop
        invariant repository.files == Overlay(old(repository.files), Elements(paths[..i]), Target(d))
      {
        NextPath(old(repository.files), d, i);
        if paths[i] in repository.files && repository.files[paths[i]].Directory? {
          return Failure(NotAFile(paths[i]));
        }
        repository.files := Put(repository.files, paths[i], Bytes(d.contents[paths[i]]));
      }
      assert paths[..|paths|] == paths;
      return Success(true);
    }
  }

  lemma DiffOf(baseline: FileMap, current: FileMap, changed: seq<Path>, contents: map<Path, Option<string>>)
    requires NoDuplicates(changed) && contents == map p | p in changed :: TextAt(current, p)
    requires forall p :: p in changed <==> Differs(baseline, current, p)
    requires forall p :: p in changed ==> Legible(current, p)
    ensures IsDiff(SubagentDiff(changed, contents, map p | p in changed :: HashOf(baseline, p)), baseline, current)
  {
    hide ReadText;
  }

  lemma NextPath(files: FileMap, d: SubagentDiff, i: nat)
    requires WellFormed(d) && i < |d.changedPaths| && i <= Writable(files, d.changedPaths)
    ensures var paths := d.changedPaths;
      var p, done := paths[i], Overlay(files, Elements(paths[..i]), Target(d));
      && p in d.contents
      && (p in done && done[p].Directory? <==> i == Writable(files, paths))
      && (i == Writable(files, paths) ==> !NoDirectoryAt(files, Elements(paths)))
      && Put(done, p, Bytes(d.contents[p])) == Overlay(files, Elements(paths[..i + 1]), Target(d))
  {
    var paths := d.changedPaths;
    var p := paths[i];
    assert p in Elements(paths) && p !in Elements(paths[..i]);
    assert Elements(paths[..i + 1]) == Elements(paths[..i]) + {p};
    OverlayStep(files, Elements(paths[..i]), p, Target(d));
    assert FileAt(Target(d), p) == Bytes(d.contents[p]);
    var n := Writable(files, paths);
    if i < n {
      assert paths[..n][i] == p;
    }
  }

  // ---------------------------------------------------------------- what a merge means

  lemma MergedIsOverlay(files: FileMap, d: SubagentDiff)
    requires WellFormed(d) && Merges(files, d)
    ensures AfterMerge(files, d) == Overlay(files, d.contents.Keys, Target(d))
  {
    assert d.changedPaths[..|d.changedPaths|] == d.changedPaths;
  }

  /** The repository still has, as a regular file or not at all, what the copy had at the path. */
  predicate Agrees(files: FileMap, baseline: FileMap, p: Path) {
    FileAt(files, p) == FileAt(baseline, p) && (p in files ==> files[p].File?)
  }

  /** The workspace's file as its text is written: with a line feed for every carriage return. */
  function Written(workspace: FileMap, p: Path): Option<Content> {
    Bytes(TextAt(workspace, p))
  }

  function ThreeWayValue(files: FileMap, baseline: FileMap, workspace: FileMap, p: Path): Option<Content> {
    if Differs(baseline, workspace, p) then Written(workspace, p) else FileAt(files, p)
  }

  predicate HoldsReturn(files: FileMap, p: Path) {
    IsFile(files, p) && RETURN in files[p].content
  }

  lemma WrittenIff(workspace: FileMap, p: Path)
    requires Legible(workspace, p)
    ensures Written(workspace, p) == FileAt(workspace, p) <==> !HoldsReturn(workspace, p)
  {
    if IsFile(workspace, p) { RewrittenIff(workspace[p].content); }
    hide Encode, ReadText;
  }

  /** A merge gives the repository the workspace's own content exactly when no changed file holds a carriage return. */
  lemma WorkspaceWinsIff(files: FileMap, d: SubagentDiff, baseline: FileMap, workspace: FileMap)
    requires IsDiff(d, baseline, workspace) && Merges(files, d)
    ensures (forall p :: Differs(baseline, workspace, p) ==>
             FileAt(AfterMerge(files, d), p) == FileAt(workspace, p)) <==>
      (forall p :: Differs(baseline, workspace, p) ==> !HoldsReturn(workspace, p))
  {
    ThreeWay(files, d, baseline, workspace);
    forall p | Differs(baseline, workspace, p)
      ensures FileAt(AfterMerge(files, d), p) == FileAt(workspace, p) <==> !HoldsReturn(workspace, p)
    {
      assert p in d.contents;
      WrittenIff(workspace, p);
    }
    hide *;
  }

  /**
   * The three-way law: the merge goes through exactly when the repository still agrees with the copy on every
   * path the workspace changed, and then the workspace's text is on those paths and the repository as it was
   * everywhere else.
   */
  lemma ThreeWay(files: FileMap, d: SubagentDiff, baseline: FileMap, workspace: FileMap)
    requires IsDiff(d, baseline, workspace)
    ensures Merges(files, d) <==> forall p :: Differs(baseline, workspace, p) ==> Agrees(files, baseline, p)
    ensures Merges(files, d) ==>
      forall p :: FileAt(AfterMerge(files, d), p) == ThreeWayValue(files, baseline, workspace, p)
    ensures SameOutside(AfterMerge(files, d), files, d.contents.Keys)
  {
    AgreesMeaning(files, d, baseline, workspace);
    OverlayStaysInside(files, d);
    hide *;
    if Merges(files, d) {
      forall p ensures FileAt(AfterMerge(files, d), p) == ThreeWayValue(files, baseline, workspace, p) {
        MergedAt(files, d, baseline, workspace, p);
      }
    }
  }

  lemma OverlayStaysInside(files: FileMap, d: SubagentDiff)
    requires WellFormed(d)
    ensures SameOutside(AfterMerge(files, d), files, d.contents.Keys)
  {
    var written := Elements(d.changedPaths[..Writable(files, d.changedPaths)]);
    assert written <= d.contents.Keys;
    OverlayShape(files, written, Target(d));
  }

  lemma OverlayAt(files: FileMap, paths: set<Path>, source: FileMap, p: Path)
    ensures FileAt(Overlay(files, paths, source), p) == FileAt(if p in paths then source else files, p)
  {
  }

  lemma TargetAt(d: SubagentDiff, baseline: FileMap, workspace: FileMap, p: Path)
    requires IsDiff(d, baseline, workspace)
    ensures p in d.contents.Keys <==> Differs(baseline, workspace, p)
    ensures p in d.contents.Keys ==> FileAt(Target(d), p) == Written(workspace, p)
  {
  }

  lemma MergedAt(files: FileMap, d: SubagentDiff, baseline: FileMap, workspace: FileMap, p: Path)
    requires IsDiff(d, baseline, workspace) && Merges(files, d)
    ensures FileAt(AfterMerge(files, d), p) == ThreeWayValue(files, baseline, workspace, p)
  {
    MergedIsOverlay(files, d);
    OverlayAt(files, d.contents.Keys, Target(d), p);
    TargetAt(d, baseline, workspace, p);
    hide AfterMerge, Merges, Overlay, IsDiff, FileAt, Target, Differs, Written;
  }

  lemma AgreesMeaning(files: FileMap, d: SubagentDiff, baseline: FileMap, workspace: FileMap)
    requires IsDiff(d, baseline, workspace)
    ensures Merges(files, d) <==> forall p :: Differs(baseline, workspace, p) ==> Agrees(files, baseline, p)
  {
    forall p | p in d.originalHashes
      ensures HashOf(files, p) == d.originalHashes[p] <==> FileAt(files, p) == FileAt(baseline, p)
    {
    }
    hide HashOf, FileAt;
    assert d.contents.Keys == d.originalHashes.Keys == Elements(d.changedPaths);
    if forall p :: Differs(baseline, workspace, p) ==> Agrees(files, baseline, p) {
      forall p | p in d.originalHashes ensures HashOf(files, p) == d.originalHashes[p] {
        assert p in d.contents;
      }
    }
  }

  /** Proposals for different paths commute: content, success and refusal do not depend on the order. */
  lemma DisjointCommute(files: FileMap, a: SubagentDiff, b: SubagentDiff)
    requires WellFormed(a) && WellFormed(b)
    requires a.contents.Keys !! b.contents.Keys
    ensures AfterMerge(AfterMerge(files, a), b) == AfterMerge(AfterMerge(files, b), a)
    ensures Merges(AfterMerge(files, a), b) <==> Merges(files, b)
    ensures Merges(AfterMerge(files, b), a) <==> Merges(files, a)
  {
    hide *;
    Unaffected(files, a, b);
    Unaffected(files, b, a);
    var m, n := Writable(files, a.changedPaths), Writable(files, b.changedPaths);
    var x, y := Elements(a.changedPaths[..m]), Elements(b.changedPaths[..n]);
    WrittenInside(a, m);
    WrittenInside(b, n);
    OverlaysCommute(files, x, Target(a), y, Target(b));
    MergeUnfolds(files, a);
    MergeUnfolds(files, b);
    MergeUnfolds(AfterMerge(files, a), b);
    MergeUnfolds(AfterMerge(files, b), a);
  }

  lemma WrittenInside(d: SubagentDiff, n: nat)
    requires WellFormed(d) && n <= |d.changedPaths|
    ensures Elements(d.changedPaths[..n]) <= d.contents.Keys
  {
    assert forall p :: p in d.changedPaths[..n] ==> p in d.changedPaths;
  }

  lemma MergeUnfolds(files: FileMap, d: SubagentDiff)
    ensures AfterMerge(files, d) ==
      (if Fresh(files, d) then Overlay(files, Elements(d.changedPaths[..Writable(files, d.changedPaths)]), Target(d))
       else files)
  {
  }

  lemma OverlaysCommute(files: FileMap, x: set<Path>, a: FileMap, y: set<Path>, b: FileMap)
    requires x !! y
    ensures Overlay(Overlay(files, x, a), y, b) == Overlay(Overlay(files, y, b), x, a)
  {
  }

  /** What a merge does to its own paths depends on nothing a disjoint merge changes. */
  lemma Unaffected(files: FileMap, a: SubagentDiff, b: SubagentDiff)
    requires WellFormed(a) && WellFormed(b)
    requires a.contents.Keys !! b.contents.Keys
    ensures Merges(AfterMerge(files, a), b) <==> Merges(files, b)
    ensures Fresh(AfterMerge(files, a), b) <==> Fresh(files, b)
    ensures Writable(AfterMerge(files, a), b.changedPaths) == Writable(files, b.changedPaths)
  {
    var after := AfterMerge(files, a);
    OverlayStaysInside(files, a);
    SameAway(after, files, a.contents.Keys, b.contents.Keys);
    hide AfterMerge;
    SameMerge(after, files, b);
    hide Merges, Fresh, Writable, WellFormed;
  }

  lemma SameMerge(a: FileMap, b: FileMap, d: SubagentDiff)
    requires WellFormed(d)
    requires forall p :: p in d.contents.Keys ==> (p in a <==> p in b) && (p in b ==> a[p] == b[p])
    ensures (Merges(a, d) <==> Merges(b, d)) && (Fresh(a, d) <==> Fresh(b, d))
    ensures Writable(a, d.changedPaths) == Writable(b, d.changedPaths)
  {
    assert Elements(d.changedPaths) == d.contents.Keys == d.originalHashes.Keys;
    hide Writable, Elements;
    SameWritable(a, b, d.changedPaths);
    assert forall p :: p in d.originalHashes ==> HashOf(a, p) == HashOf(b, p);
  }

  lemma SameAway(a: FileMap, b: FileMap, inside: set<Path>, away: set<Path>)
    requires SameOutside(a, b, inside) && inside !! away
    ensures forall p :: p in away ==> (p in a <==> p in b) && (p in b ==> a[p] == b[p])
  {
    forall p | p in away ensures (p in a <==> p in b) && (p in b ==> a[p] == b[p]) {
      assert p !in inside;
    }
  }

  lemma {:induction false} SameWritable(a: FileMap, b: FileMap, paths: seq<Path>)
    requires forall p :: p in Elements(paths) ==> (p in a <==> p in b) && (p in b ==> a[p] == b[p])
    ensures Writable(a, paths) == Writable(b, paths)
  {
    if paths != [] {
      assert paths[0] in Elements(paths);
      assert forall p :: p in Elements(paths[1..]) ==> p in Elements(paths);
      SameWritable(a, b, paths[1..]);
    }
  }

  /**
   * Of two subagents started from the same copy, the second is still fresh after the first has merged exactly when
   * the first wrote the copy's own content on every path both changed, and the repository has it on the others.
   */
  lemma SecondWriterFreshIff(files: FileMap, a: SubagentDiff, b: SubagentDiff, baseline: FileMap,
                             first: FileMap, second: FileMap)
    requires IsDiff(a, baseline, first) && IsDiff(b, baseline, second) && Merges(files, a)
    ensures Fresh(AfterMerge(files, a), b) <==>
      forall p :: Differs(baseline, second, p) ==>
        FileAt(baseline, p) == if Differs(baseline, first, p) then Written(first, p) else FileAt(files, p)
  {
    ThreeWay(files, a, baseline, first);
    var after := AfterMerge(files, a);
    forall p | Differs(baseline, second, p)
      ensures p in b.originalHashes
      ensures HashOf(after, p) == b.originalHashes[p] <==>
        FileAt(baseline, p) == if Differs(baseline, first, p) then Written(first, p) else FileAt(files, p)
    {
      assert p in b.contents;
      assert FileAt(after, p) == ThreeWayValue(files, baseline, first, p);
    }
    assert forall p :: p in b.originalHashes ==> p in b.contents;
    hide AfterMerge, Merges, Written, ThreeWayValue;
  }

  /** A path the first really changed keeps the second from merging. */
  lemma SecondWriterRefused(files: FileMap, a: SubagentDiff, b: SubagentDiff, baseline: FileMap,
                            first: FileMap, second: FileMap, p: Path)
    requires IsDiff(a, baseline, first) && IsDiff(b, baseline, second) && Merges(files, a)
    requires Differs(baseline, first, p) && Differs(baseline, second, p) && Written(first, p) != FileAt(baseline, p)
    ensures !Fresh(AfterMerge(files, a), b) && !Merges(AfterMerge(files, a), b)
  {
    hide AfterMerge, IsDiff, Written, FileAt;
    SecondWriterFreshIff(files, a, b, baseline, first, second);
  }

  lemma StoppedAt(files: FileMap, d: SubagentDiff, baseline: FileMap, workspace: FileMap, k: nat)
    requires IsDiff(d, baseline, workspace) && Fresh(files, d) && k < Writable(files, d.changedPaths)
    ensures d.changedPaths[k] in Elements(d.changedPaths[..Writable(files, d.changedPaths)])
    ensures FileAt(AfterMerge(files, d), d.changedPaths[k]) == Written(workspace, d.changedPaths[k])
    ensures FileAt(Target(d), d.changedPaths[k]) == Written(workspace, d.changedPaths[k])
  {
    var paths, n := d.changedPaths, Writable(files, d.changedPaths);
    assert paths[..n][k] == paths[k];
    assert paths[k] in Elements(paths);
    OverlayAt(files, Elements(paths[..n]), Target(d), paths[k]);
    TargetAt(d, baseline, workspace, paths[k]);
    hide Overlay, Target, FileAt, Written, Writable;
  }

  /** A stopped merge left the repository alone exactly when what it wrote up to the directory was there already. */
  lemma StoppedMergeWrote(files: FileMap, d: SubagentDiff, baseline: FileMap, workspace: FileMap)
    requires IsDiff(d, baseline, workspace)
    requires Fresh(files, d) && !Merges(files, d)
    ensures AfterMerge(files, d) == files <==>
      forall k :: 0 <= k < Writable(files, d.changedPaths) ==>
        Written(workspace, d.changedPaths[k]) == FileAt(files, d.changedPaths[k])
  {
    hide *;
    var n := Writable(files, d.changedPaths);
    forall k | 0 <= k < n
      ensures FileAt(AfterMerge(files, d), d.changedPaths[k]) == Written(workspace, d.changedPaths[k])
    {
      StoppedAt(files, d, baseline, workspace, k);
    }
    if forall k :: 0 <= k < n ==> Written(workspace, d.changedPaths[k]) == FileAt(files, d.changedPaths[k]) {
      NothingWritten(files, d, baseline, workspace);
    }
  }

  lemma NothingWritten(files: FileMap, d: SubagentDiff, baseline: FileMap, workspace: FileMap)
    requires IsDiff(d, baseline, workspace) && Fresh(files, d)
    requires forall k :: 0 <= k < Writable(files, d.changedPaths) ==>
      Written(workspace, d.changedPaths[k]) == FileAt(files, d.changedPaths[k])
    ensures AfterMerge(files, d) == files
  {
    var n := Writable(files, d.changedPaths);
    var written := Elements(d.changedPaths[..n]);
    forall p | p in written ensures FileAt(Target(d), p) == FileAt(files, p) {
      var k :| 0 <= k < n && d.changedPaths[..n][k] == p;
      StoppedAt(files, d, baseline, workspace, k);
    }
    MergeUnfolds(files, d);
    hide *;
    OverlaySame(files, written, Target(d));
  }

  lemma OverlaySame(files: FileMap, paths: set<Path>, source: FileMap)
    requires forall p :: p in paths ==> FileAt(source, p) == FileAt(files, p)
    requires NoDirectoryAt(files, paths)
    ensures Overlay(files, paths, source) == files
  {
    assert forall p :: p in paths ==> (p in files <==> IsFile(source, p));
    assert forall p :: p in paths && p in files ==> source[p] == files[p];
  }

  /**
   * A proposal made from the repository as it is merges into it exactly when the workspace has no file where the
   * copy left something out: a file or directory under an ignored name, or a directory.
   */
  lemma UntouchedMergesIff(files: FileMap, d: SubagentDiff, workspace: FileMap)
    requires IsDiff(d, Copied(files), workspace)
    ensures Merges(files, d) <==>
      forall p :: p in files && (Ignored(p) || files[p].Directory?) ==> !IsFile(workspace, p)
  {
    AgreesMeaning(files, d, Copied(files), workspace);
    hide Merges, Ignored, IsDiff;
    forall p
      ensures Differs(Copied(files), workspace, p) && !Agrees(files, Copied(files), p) <==>
        p in files && (Ignored(p) || files[p].Directory?) && IsFile(workspace, p)
    {
      assert p in Copied(files) <==> p in files && !Ignored(p);
    }
  }

  /** A file under an ignored name is not in the copy: a workspace that makes one can never merge over it. */
  lemma IgnoredNeverMerges(files: FileMap, d: SubagentDiff, workspace: FileMap, p: Path)
    requires IsDiff(d, Copied(files), workspace)
    requires Ignored(p) && IsFile(files, p) && IsFile(workspace, p)
    ensures !Fresh(files, d) && !Merges(files, d)
  {
    assert p !in Copied(files);
    assert Differs(Copied(files), workspace, p);
    assert p in d.originalHashes;
  }
}
