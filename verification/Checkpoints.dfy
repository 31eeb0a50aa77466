/** Content checkpoints and the transactional rewind. */
module Checkpoints {
  import opened Prelude
  import opened RepoPath
  import opened Files
  import Ordering

  class Repository {
    const root: Root
    var files: FileMap

    constructor (root: Root, files: FileMap)
      ensures this.root == root && this.files == files
    {
      this.root, this.files := root, files;
    }
  }

  datatype Checkpoint = Checkpoint(changedPaths: seq<Path>, contentHashes: map<Path, Digest>)

  /** The metadata file and the content directory of one checkpoint. */
  datatype Saved = Saved(meta: Checkpoint, content: FileMap)

  datatype CheckpointError =
    | BadPath(path: string)
    | NotRegularFile(path: Path)
    | UnknownCheckpoint
    | MissingHash(path: Path)
    | UnexpectedContent(path: Path)
    | HashMismatch(path: Path)
    | OsError

  /** Where the operating system fails, and what it leaves at the path being written. */
  datatype Fault = NoFault | BackupFails(at: nat) | WriteFails(at: nat, left: Option<Content>)

  /** Every path leads into the repository. */
  predicate Accepted(root: Root, paths: seq<string>) {
    forall i :: 0 <= i < |paths| ==> RelativePath(root, paths[i]).Some?
  }

  /** The set of repository paths named, each spelling normalised. */
  function Normalized(root: Root, paths: seq<string>): set<Path> {
    set p | p in paths && RelativePath(root, p).Some? :: RelativePath(root, p).value
  }

  lemma NormalizedCanonical(root: Root, paths: seq<Path>)
    requires AllowedPaths(paths)
    ensures Accepted(root, paths) && Normalized(root, paths) == Elements(paths)
  {
    forall i | 0 <= i < |paths| ensures RelativePath(root, paths[i]) == Some(paths[i]) {
      CanonicalIsPlain(paths[i]);
      UnchangedIsPlain(root, paths[i]);
    }
    hide RelativePath, Canonical;
  }

  /** The checkpoint of the given paths. */
  function Snapshot(files: FileMap, paths: set<Path>): Saved {
    SnapshotOf(files, Ordering.SortSet(paths))
  }

  function SnapshotOf(files: FileMap, paths: seq<Path>): Saved {
    Saved(
      Checkpoint(paths, map p | p in Elements(paths) :: HashOf(files, p)),
      map p | p in Elements(paths) && IsFile(files, p) :: files[p])
  }

  /** What `restore` checks about one listed path before it writes anything. */
  predicate PathRestorable(saved: Saved, files: FileMap, p: Path) {
    && Plain(p)
    && p in saved.meta.contentHashes
    && HashOf(saved.content, p) == saved.meta.contentHashes[p]
    && (saved.meta.contentHashes[p] == Missing ==> p !in saved.content)
    && (p in files ==> files[p].File?)
  }

  predicate Restorable(saved: Saved, files: FileMap) {
    forall i :: 0 <= i < |saved.meta.changedPaths| ==> PathRestorable(saved, files, saved.meta.changedPaths[i])
  }

  class CheckpointStore {
    const repository: Repository
    var saved: map<nat, Saved>
    var nextId: nat

    constructor (repository: Repository)
      ensures this.repository == repository && saved == map[] && Valid()
    {
      this.repository := repository;
      saved, nextId := map[], 0;
    }

    /** Identifiers not yet issued are unused. */
    ghost predicate Valid()
      reads this
    {
      forall id :: id in saved ==> id < nextId
    }

    /** Copy every listed file; the repository is only read. */
    method Create(paths: seq<string>) returns (r: Result<nat, CheckpointError>)
      requires Valid()
      modifies this
      ensures Valid()
      ensures r.Success? <==>
        Accepted(repository.root, paths) && NoDirectoryAt(repository.files, Normalized(repository.root, paths))
      ensures r.Success? ==>
        && r.value !in old(saved)
        && saved == old(saved)[r.value := Snapshot(repository.files, Normalized(repository.root, paths))]
      ensures r.Failure? ==> saved == old(saved) && (r.error.BadPath? || r.error.NotRegularFile?)
    {
      var id := nextId;
      nextId := nextId + 1;
      var names := RelativePaths(paths);
      if names.Failure? {
        return Failure(names.error);
      }
      var safePaths := Ordering.SortSet(names.value);
      assert Elements(safePaths) == names.value;
      var copied := CopyFiles(safePaths);
      if copied.Failure? {
        return Failure(copied.error);
      }
      saved := saved[id := copied.value];
      return Success(id);
    }

    method RelativePaths(paths: seq<string>) returns (r: Result<set<Path>, CheckpointError>)
      ensures r.Success? <==> Accepted(repository.root, paths)
      ensures r.Success? ==> r.value == Normalized(repository.root, paths)
      ensures r.Failure? ==> r.error.BadPath?
    {
      hide RelativePath;
      var names: set<Path> := {};
      for i := 0 to |paths|
        invariant Accepted(repository.root, paths[..i])
        invariant names == Normalized(repository.root, paths[..i])
      {
        var name := RelativePath(repository.root, paths[i]);
        if name.None? {
          return Failure(BadPath(paths[i]));
        }
        assert paths[..i + 1] == paths[..i] + [paths[i]];
        names := names + {name.value};
      }
      assert paths[..|paths|] == paths;
      return Success(names);
    }

    /** The loop that hashes and copies each path into the checkpoint's own directory. */
    method CopyFiles(paths: seq<Path>) returns (r: Result<Saved, CheckpointError>)
      ensures r.Success? <==> NoDirectoryAt(repository.files, Elements(paths))
      ensures r.Success? ==> r.value == SnapshotOf(repository.files, paths)
      ensures r.Failure? ==> r.error.NotRegularFile?
    {
      var hashes: map<Path, Digest> := map[];
      var content: FileMap := map[];
      for i := 0 to |paths|
        invariant NoDirectoryAt(repository.files, Elements(paths[..i]))
        invariant hashes == map p | p in Elements(paths[..i]) :: HashOf(repository.files, p)
        invariant content == map p | p in Elements(paths[..i]) && IsFile(repository.files, p) :: repository.files[p]
      {
        var p := paths[i];
        assert Elements(paths[..i + 1]) == Elements(paths[..i]) + {p} by {
          assert paths[..i + 1] == paths[..i] + [p];
        }
        if IsFile(repository.files, p) {
          content := content[p := repository.files[p]];
          hashes := hashes[p := Sha256(repository.files[p].content)];
        } else if p !in repository.files {
          hashes := hashes[p := Missing];
        } else {
          assert p in Elements(paths);
          return Failure(NotRegularFile(p));
        }
      }
      assert paths[..|paths|] == paths;
      return Success(Saved(Checkpoint(paths, hashes), content));
    }

    /** Validate everything, back up every destination, write, and roll back if a write fails. */
    method Restore(id: nat, fault: Fault) returns (r: Result<Checkpoint, CheckpointError>)
      modifies repository
      ensures r.Failure? ==> repository.files == old(repository.files)
      ensures r.Success? ==> id in saved && Restorable(saved[id], old(repository.files)) && r.value == saved[id].meta
      ensures r.Success? ==>
        repository.files == Overlay(old(repository.files), Elements(saved[id].meta.changedPaths), saved[id].content)
      ensures r.Success? ==> forall p :: p in saved[id].meta.changedPaths ==>
        p in saved[id].meta.contentHashes && HashOf(repository.files, p) == saved[id].meta.contentHashes[p]
      ensures id in saved && Restorable(saved[id], old(repository.files)) && fault == NoFault ==> r.Success?
      ensures r.Failure? && id in saved && Restorable(saved[id], old(repository.files)) ==> r.error == OsError
    {
      if id !in saved {
        return Failure(UnknownCheckpoint);
      }
      var meta, content := saved[id].meta, saved[id].content;
      var problem := Check(saved[id]);
      if problem.Some? {
        return Failure(problem.value);
      }
      var backup := BackUp(meta.changedPaths, fault);
      if backup.Failure? {
        return Failure(OsError);
      }
      var complete := WriteAll(meta.changedPaths, content, fault);
      if !complete {
        RollBack(meta.changedPaths, backup.value);
        SameEverywhere(repository.files, old(repository.files), Elements(meta.changedPaths));
        return Failure(OsError);
      }
      RestoredHashes(saved[id], old(repository.files));
      return Success(meta);
    }

    /** Restoring a snapshot after changes to its own paths only gives back the snapshotted repository. */
    method Rewind(id: nat, ghost before: FileMap, ghost paths: set<Path>)
      requires id in saved && saved[id] == Snapshot(before, paths)
      requires forall p :: p in paths ==> Plain(p)
      requires NoDirectoryAt(before, paths) && NoDirectoryAt(repository.files, paths)
      requires SameOutside(repository.files, before, paths)
      modifies repository
      ensures repository.files == before
    {
      SnapshotRestorable(before, paths, repository.files);
      RewindIsIdentity(before, paths, repository.files);
      hide *;
      var restored := Restore(id, NoFault);
    }

    method Check(s: Saved) returns (problem: Option<CheckpointError>)
      ensures problem.None? <==> Restorable(s, repository.files)
      ensures problem.Some? ==> !problem.value.OsError?
    {
      for i := 0 to |s.meta.changedPaths|
        invariant forall j :: 0 <= j < i ==> PathRestorable(s, repository.files, s.meta.changedPaths[j])
      {
        problem := CheckOne(s, s.meta.changedPaths[i]);
        if problem.Some? {
          return;
        }
      }
      return None;
    }

    method CheckOne(s: Saved, p: Path) returns (problem: Option<CheckpointError>)
      ensures problem.None? <==> PathRestorable(s, repository.files, p)
      ensures problem.Some? ==> !problem.value.OsError?
    {
      UnchangedIsPlain(repository.root, p);
      if RelativePath(repository.root, p) != Some(p) {
        return Some(BadPath(p));
      }
      if p !in s.meta.contentHashes {
        return Some(MissingHash(p));
      }
      var expected := s.meta.contentHashes[p];
      if expected == Missing {
        if p in s.content {
          return Some(UnexpectedContent(p));
        }
      } else if !IsFile(s.content, p) || Sha256(s.content[p].content) != expected {
        return Some(HashMismatch(p));
      }
      if p in repository.files && !repository.files[p].File? {
        return Some(NotRegularFile(p));
      }
      return None;
    }

    /** Copies of the destinations that exist; nothing is written to the repository. */
    method BackUp(paths: seq<Path>, fault: Fault) returns (backup: Result<map<Path, Content>, CheckpointError>)
      ensures backup.Success? ==>
        backup.value == map p | p in Elements(paths) && IsFile(repository.files, p) :: repository.files[p].content
      ensures backup.Failure? ==> fault.BackupFails?
    {
      var copies: map<Path, Content> := map[];
      for i := 0 to |paths|
        invariant
          copies == map p | p in Elements(paths[..i]) && IsFile(repository.files, p) :: repository.files[p].content
      {
        var p := paths[i];
        assert Elements(paths[..i + 1]) == Elements(paths[..i]) + {p} by {
          assert paths[..i + 1] == paths[..i] + [p];
        }
        if IsFile(repository.files, p) {
          if fault == BackupFails(i) {
            return Failure(OsError);
          }
          copies := copies[p := repository.files[p].content];
        }
      }
      assert paths[..|paths|] == paths;
      return Success(copies);
    }

    /** The write loop; an interrupted write may leave anything at its own path. */
    method WriteAll(paths: seq<Path>, content: FileMap, fault: Fault) returns (complete: bool)
      modifies repository
      ensures SameOutside(repository.files, old(repository.files), Elements(paths))
      ensures complete ==> repository.files == Overlay(old(repository.files), Elements(paths), content)
      ensures !complete ==> fault.WriteFails?
    {
      OverlayNothing(repository.files, content);
      assert Elements(paths[..0]) == {};
      for i := 0 to |paths|
        invariant repository.files == Overlay(old(repository.files), Elements(paths[..i]), content)
      {
        var p := paths[i];
        assert Elements(paths[..i + 1]) == Elements(paths[..i]) + {p} by {
          assert paths[..i + 1] == paths[..i] + [p];
        }
        OverlayStep(old(repository.files), Elements(paths[..i]), p, content);
        OverlayShape(old(repository.files), Elements(paths[..i]), content);
        if IsFile(content, p) || p in repository.files {
          if fault.WriteFails? && fault.at == i {
            repository.files := Put(repository.files, p, fault.left);
            return false;
          }
          repository.files := Put(repository.files, p, FileAt(content, p));
        }
      }
      assert paths[..|paths|] == paths;
      OverlayShape(old(repository.files), Elements(paths), content);
      return true;
    }

    /** Undo from the backups: existing files get their content back, new ones are removed. */
    method RollBack(paths: seq<Path>, backup: map<Path, Content>)
      modifies repository
      ensures SameOutside(repository.files, old(repository.files), Elements(paths))
      ensures forall p :: p in paths ==>
        (p in repository.files <==> p in backup) && (p in backup ==> repository.files[p] == File(backup[p]))
    {
      for i := 0 to |paths|
        invariant SameOutside(repository.files, old(repository.files), Elements(paths))
        invariant forall p :: p in paths[..i] ==>
          (p in repository.files <==> p in backup) && (p in backup ==> repository.files[p] == File(backup[p]))
      {
        var p := paths[i];
        assert p in Elements(paths);
        if p in backup {
          repository.files := repository.files[p := File(backup[p])];
        } else if p in repository.files {
          repository.files := repository.files - {p};
        }
      }
    }
  }

  /** What the checks let through has the recorded digests once it is written. */
  lemma RestoredHashes(s: Saved, files: FileMap)
    requires Restorable(s, files)
    ensures
      var after := Overlay(files, Elements(s.meta.changedPaths), s.content);
      forall p :: p in s.meta.changedPaths ==>
        p in s.meta.contentHashes && HashOf(after, p) == s.meta.contentHashes[p]
  {
    forall p | p in s.meta.changedPaths
      ensures p in s.meta.contentHashes
      ensures HashOf(Overlay(files, Elements(s.meta.changedPaths), s.content), p) == s.meta.contentHashes[p]
    {
      assert PathRestorable(s, files, p);
    }
    hide Plain;
  }

  /** A snapshot can be restored over any state that has no directory at its paths. */
  lemma SnapshotRestorable(before: FileMap, paths: set<Path>, now: FileMap)
    requires forall p :: p in paths ==> Plain(p)
    requires NoDirectoryAt(now, paths)
    ensures Restorable(Snapshot(before, paths), now)
  {
  }

  /** Restoring a snapshot over a state that changed only at its paths gives back the snapshotted state. */
  lemma RewindIsIdentity(before: FileMap, paths: set<Path>, now: FileMap)
    requires NoDirectoryAt(before, paths) && SameOutside(now, before, paths)
    ensures
      var s := Snapshot(before, paths);
      Overlay(now, Elements(s.meta.changedPaths), s.content) == before
  {
    var s := Snapshot(before, paths);
    assert Elements(s.meta.changedPaths) == paths;
    hide Ordering.SortSet;
    BackToBefore(before, paths, now, s.content);
  }

  lemma BackToBefore(before: FileMap, paths: set<Path>, now: FileMap, content: FileMap)
    requires NoDirectoryAt(before, paths) && SameOutside(now, before, paths)
    requires content == map p | p in paths && IsFile(before, p) :: before[p]
    ensures Overlay(now, paths, content) == before
  {
    OverlayShape(now, paths, content);
    var after := Overlay(now, paths, content);
    assert SameOutside(after, before, paths);
    assert SameOn(after, before, paths);
    SameEverywhere(after, before, paths);
  }
}
