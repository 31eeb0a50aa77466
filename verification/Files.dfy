/** The repository as a map from paths to what is there, and digests of its files. */
module Files {
  import opened Prelude
  import opened RepoPath
  import opened Utf8

  type Content = seq<Byte>

  datatype Entry = File(content: Content) | Directory

  type FileMap = map<Path, Entry>

  /** A collision-free digest is its content; a path without a regular file has the digest "missing". */
  datatype Digest = Missing | Sha256(content: Content)

  predicate IsFile(files: FileMap, p: Path) {
    p in files && files[p].File?
  }

  function HashOf(files: FileMap, p: Path): Digest {
    if IsFile(files, p) then Sha256(files[p].content) else Missing
  }

  function HashPaths(files: FileMap, paths: seq<Path>): map<Path, Digest> {
    map p | p in paths :: HashOf(files, p)
  }

  /** Write a file, or remove whatever is at the path. */
  function Put(files: FileMap, p: Path, content: Option<Content>): FileMap {
    if content.Some? then files[p := File(content.value)] else files - {p}
  }

  function FileAt(files: FileMap, p: Path): Option<Content> {
    if IsFile(files, p) then Some(files[p].content) else None
  }

  /** `files` with the given paths taken from the regular files of `source`. */
  function Overlay(files: FileMap, paths: set<Path>, source: FileMap): FileMap {
    map p | p in files.Keys + paths && (if p in paths then IsFile(source, p) else p in files)
      :: if p in paths then source[p] else files[p]
  }

  /** The maps agree on every path outside the set. */
  predicate SameOutside(a: FileMap, b: FileMap, paths: set<Path>) {
    forall p :: p in a.Keys + b.Keys && p !in paths ==> p in a && p in b && a[p] == b[p]
  }

  /** The maps agree on every path of the set. */
  predicate SameOn(a: FileMap, b: FileMap, paths: set<Path>) {
    forall p :: p in paths ==> (p in a <==> p in b) && (p in a ==> a[p] == b[p])
  }

  predicate NoDirectoryAt(files: FileMap, paths: set<Path>) {
    forall p :: p in paths && p in files ==> files[p].File?
  }

  lemma SameEverywhere(a: FileMap, b: FileMap, paths: set<Path>)
    requires SameOutside(a, b, paths) && SameOn(a, b, paths)
    ensures a == b
  {
    assert forall p :: p in a.Keys + b.Keys ==> p in a && p in b && a[p] == b[p];
  }

  lemma OverlayStep(files: FileMap, paths: set<Path>, p: Path, source: FileMap)
    ensures Put(Overlay(files, paths, source), p, FileAt(source, p)) == Overlay(files, paths + {p}, source)
  {
  }

  lemma OverlayNothing(files: FileMap, source: FileMap)
    ensures Overlay(files, {}, source) == files
  {
  }

  lemma OverlayShape(files: FileMap, paths: set<Path>, source: FileMap)
    ensures SameOutside(Overlay(files, paths, source), files, paths)
    ensures NoDirectoryAt(source, paths) ==> SameOn(Overlay(files, paths, source), source, paths)
  {
  }
}
