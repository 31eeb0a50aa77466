/** Repository-relative paths: canonicalisation, and overlap of write claims. */
module RepoPath {
  import opened Prelude

  type Path = string

  datatype PathError = Unsafe | NotCanonical

  // ---- splitting and joining on '/' ----

  function Split(s: string): (parts: seq<string>)
    ensures |parts| > 0
    ensures forall i :: 0 <= i < |parts| ==> '/' !in parts[i]
  {
    if s == "" then [""]
    else
      var rest := Split(s[1..]);
      if s[0] == '/' then [""] + rest else [[s[0]] + rest[0]] + rest[1..]
  }

  function Join(parts: seq<string>): string {
    if |parts| == 0 then ""
    else if |parts| == 1 then parts[0]
    else parts[0] + "/" + Join(parts[1..])
  }

  lemma {:induction false} JoinSplit(s: string)
    ensures Join(Split(s)) == s
  {
    if s != "" {
      JoinSplit(s[1..]);
      var rest := Split(s[1..]);
      if s[0] == '/' {
        assert Split(s)[1..] == rest;
      } else if |rest| > 1 {
        assert Split(s)[1..] == rest[1..];
      }
    }
  }

  lemma {:induction false} SplitJoinPair(a: string, b: string)
    ensures Split(a + "/" + b) == Split(a) + Split(b)
  {
    var whole := a + "/" + b;
    if a == "" {
      assert whole[1..] == b;
    } else {
      SplitJoinPair(a[1..], b);
      assert whole[1..] == a[1..] + "/" + b && whole[0] == a[0];
      var x, y := Split(a[1..]), Split(b);
      ConcatHead(x, y);
      if a[0] == '/' {
        ConcatAssociative([""], x, y);
      } else {
        ConcatAssociative([[a[0]] + x[0]], x[1..], y);
      }
    }
  }

  lemma {:induction false} SplitOfPlain(s: string)
    requires '/' !in s
    ensures Split(s) == [s]
  {
    if s != "" {
      assert '/' !in s[1..];
      SplitOfPlain(s[1..]);
      assert s == [s[0]] + s[1..];
    }
  }

  lemma {:induction false} JoinConcat(a: seq<string>, b: seq<string>)
    requires |a| > 0 && |b| > 0
    ensures Join(a + b) == Join(a) + "/" + Join(b)
  {
    if |a| == 1 {
      assert (a + b)[1..] == b;
    } else {
      JoinConcat(a[1..], b);
      assert (a + b)[1..] == a[1..] + b;
      assert Join(a + b) == a[0] + "/" + (Join(a[1..]) + "/" + Join(b));
    }
  }

  lemma {:induction false} SplitJoin(parts: seq<string>)
    requires |parts| > 0
    requires forall i :: 0 <= i < |parts| ==> '/' !in parts[i]
    ensures Split(Join(parts)) == parts
  {
    SplitOfPlain(parts[0]);
    if |parts| > 1 {
      SplitJoin(parts[1..]);
      SplitJoinPair(parts[0], Join(parts[1..]));
      assert parts == [parts[0]] + parts[1..];
    }
  }

  // ---- posixpath.normpath and safe_repo_path ----

  function NormComponents(parts: seq<string>, absolute: bool, kept: seq<string>): seq<string> {
    if |parts| == 0 then kept
    else
      var part := parts[0];
      if part == "" || part == "." then NormComponents(parts[1..], absolute, kept)
      else if part != ".." || (!absolute && |kept| == 0) || (|kept| > 0 && kept[|kept| - 1] == "..") then
        NormComponents(parts[1..], absolute, kept + [part])
      else if |kept| > 0 then NormComponents(parts[1..], absolute, kept[..|kept| - 1])
      else NormComponents(parts[1..], absolute, kept)
  }

  predicate StartsWith(s: string, prefix: string) {
    prefix <= s
  }

  function NormPath(value: string): string {
    if value == "" then "."
    else
      var absolute := StartsWith(value, "/");
      var slashes := if StartsWith(value, "//") && !StartsWith(value, "///") then "//"
                     else if absolute then "/" else "";
      var joined := slashes + Join(NormComponents(Split(value), absolute, []));
      if joined == "" then "." else joined
  }

  /** `PurePosixPath(value).parts` without the root. */
  function PathParts(parts: seq<string>): seq<string> {
    if |parts| == 0 then []
    else if parts[0] == "" || parts[0] == "." then PathParts(parts[1..])
    else [parts[0]] + PathParts(parts[1..])
  }

  function SafeRepoPath(value: string): Result<Path, PathError> {
    if value == "" || '\\' in value || '\0' in value then Failure(Unsafe)
    else
      var normalized := NormPath(value);
      if StartsWith(value, "/") || normalized == "" || normalized == "." || normalized == ".."
         || StartsWith(normalized, "../") then Failure(Unsafe)
      else
        var parts := PathParts(Split(value));
        if normalized != value || "" in parts || "." in parts || ".." in parts then Failure(NotCanonical)
        else Success(normalized)
  }

  // ---- what an accepted path is ----

  predicate PlainComponent(part: string) {
    part != "" && part != "." && part != ".." && '/' !in part && '\0' !in part
  }

  predicate CleanComponent(part: string) {
    PlainComponent(part) && '\\' !in part
  }

  /** A non-empty list of ordinary names joined by single slashes. */
  predicate Canonical(value: Path) {
    forall i :: 0 <= i < |Split(value)| ==> CleanComponent(Split(value)[i])
  }

  /** What `NormComponents` keeps: leading "..", then ordinary names. */
  predicate Reduced(kept: seq<string>) {
    && (forall i :: 0 <= i < |kept| ==> kept[i] != "" && kept[i] != "." && '/' !in kept[i])
    && (forall i :: 0 < i < |kept| && kept[i] == ".." ==> kept[i - 1] == "..")
  }

  lemma {:induction false} NormComponentsReduced(parts: seq<string>, kept: seq<string>)
    requires forall i :: 0 <= i < |parts| ==> '/' !in parts[i]
    requires Reduced(kept)
    ensures Reduced(NormComponents(parts, false, kept))
  {
    if |parts| > 0 {
      var part := parts[0];
      if part == "" || part == "." {
        NormComponentsReduced(parts[1..], kept);
      } else if part != ".." || |kept| == 0 || kept[|kept| - 1] == ".." {
        NormComponentsReduced(parts[1..], kept + [part]);
      } else {
        NormComponentsReduced(parts[1..], kept[..|kept| - 1]);
      }
    }
  }

  lemma {:induction false} NormComponentsOfClean(parts: seq<string>, kept: seq<string>)
    requires forall i :: 0 <= i < |parts| ==> CleanComponent(parts[i])
    ensures NormComponents(parts, false, kept) == kept + parts
  {
    if |parts| > 0 {
      NormComponentsOfClean(parts[1..], kept + [parts[0]]);
      assert kept + parts == kept + [parts[0]] + parts[1..];
    }
  }

  lemma {:induction false} ReducedFirst(kept: seq<string>, i: nat)
    requires Reduced(kept) && i < |kept| && kept[i] == ".."
    ensures kept[0] == ".."
  {
    if i > 0 { ReducedFirst(kept, i - 1); }
  }

  lemma {:induction false} PathPartsOfPlain(parts: seq<string>)
    requires forall i :: 0 <= i < |parts| ==> PlainComponent(parts[i])
    ensures PathParts(parts) == parts
  {
    if |parts| > 0 { PathPartsOfPlain(parts[1..]); }
  }

  lemma {:induction false} CharsOfParts(s: string, c: char)
    requires c != '/'
    ensures c in s <==> exists i :: 0 <= i < |Split(s)| && c in Split(s)[i]
  {
    if s != "" {
      CharsOfParts(s[1..], c);
      var parts, rest := Split(s), Split(s[1..]);
      if s[0] == '/' {
        assert forall i :: 0 < i < |parts| ==> parts[i] == rest[i - 1];
        assert forall i :: 0 <= i < |rest| ==> rest[i] == parts[i + 1];
      } else {
        assert forall i :: 0 < i < |parts| ==> parts[i] == rest[i];
        assert forall x :: x in parts[0] <==> x == s[0] || x in rest[0];
        assert s == [s[0]] + s[1..];
      }
    }
  }

  lemma SplitOfUpward(value: string)
    requires StartsWith(value, "../")
    ensures Split(value)[0] == ".."
  {
    assert value == ".." + "/" + value[3..];
    SplitJoinPair("..", value[3..]);
    SplitOfPlain("..");
  }

  lemma SafePathIsCanonical(value: string)
    requires SafeRepoPath(value).Success?
    ensures Canonical(value)
  {
    var kept := NormComponents(Split(value), false, []);
    NormComponentsReduced(Split(value), []);
    assert Join(kept) == value;
    assert |kept| > 0;
    SplitJoin(kept);
    if |kept| > 1 { assert StartsWith(value, kept[0] + "/"); }
    assert kept[0] != "..";
    forall i | 0 <= i < |kept| ensures CleanComponent(kept[i]) {
      if kept[i] == ".." { ReducedFirst(kept, i); }
      CharsOfParts(value, '\\');
      CharsOfParts(value, '\0');
    }
  }

  lemma CanonicalPathIsSafe(value: string)
    requires Canonical(value)
    ensures SafeRepoPath(value) == Success(value)
  {
    var parts := Split(value);
    JoinSplit(value);
    NormComponentsOfClean(parts, []);
    PathPartsOfPlain(parts);
    CharsOfParts(value, '\\');
    CharsOfParts(value, '\0');
    assert [] + parts == parts;
    assert value != "" && value != "." && value != ".." by {
      assert Split("") == [""];
      SplitOfPlain(".");
      SplitOfPlain("..");
      assert CleanComponent(parts[0]);
    }
    assert CleanComponent(parts[0]);
    assert !StartsWith(value, "../") by {
      if StartsWith(value, "../") { SplitOfUpward(value); }
    }
  }

  /** `safe_repo_path` accepts exactly the canonical paths and returns them unchanged. */
  lemma SafeRepoPathMeaning(value: string)
    ensures SafeRepoPath(value).Success? <==> Canonical(value)
    ensures SafeRepoPath(value).Success? ==> SafeRepoPath(value).value == value
  {
    if SafeRepoPath(value).Success? { SafePathIsCanonical(value); }
    if Canonical(value) { CanonicalPathIsSafe(value); }
  }

  predicate AllowedPaths(paths: seq<string>) {
    forall i :: 0 <= i < |paths| ==> Canonical(paths[i])
  }

  method CheckPath(path: string) returns (ok: bool)
    ensures ok <==> Canonical(path)
  {
    SafeRepoPathMeaning(path);
    ok := SafeRepoPath(path).Success?;
  }

  /** The first path that is not canonical. */
  method FirstBadPath(paths: seq<string>) returns (bad: Option<string>)
    ensures bad.None? <==> AllowedPaths(paths)
    ensures bad.Some? ==> exists i: nat :: IsFirstBad(paths, i) && bad.value == paths[i]
  {
    for i := 0 to |paths|
      invariant AllowedPaths(paths[..i])
    {
      var allowed := CheckPath(paths[i]);
      if !allowed {
        assert IsFirstBad(paths, i);
        return Some(paths[i]);
      }
    }
    assert paths[..|paths|] == paths;
    return None;
  }

  predicate IsFirstBad(paths: seq<string>, i: nat) {
    i < |paths| && !Canonical(paths[i]) && AllowedPaths(paths[..i])
  }

  // ---- paths inside a repository at an absolute place ----

  /** The components of the repository's resolved absolute path. */
  type Root = r: seq<string> | forall i :: 0 <= i < |r| ==> PlainComponent(r[i])

  /** A relative path of plain components; unlike a canonical one it may hold backslashes. */
  predicate Plain(value: Path) {
    forall i :: 0 <= i < |Split(value)| ==> PlainComponent(Split(value)[i])
  }

  /** `Path(path).as_posix()` of a relative path. */
  function AsPosix(path: string): string {
    var parts := PathParts(Split(path));
    if parts == [] then "." else Join(parts)
  }

  /** `CheckpointStore._relative_path`: resolve, refuse what leaves the repository, and refuse "..". */
  function RelativePath(root: Root, path: string): Option<Path> {
    if '\0' in path then None
    else
      var absolute := StartsWith(path, "/");
      var resolved := NormComponents(if absolute then Split(path) else root + Split(path), true, []);
      if !(root < resolved) then None
      else
        var normalized := Join(resolved[|root|..]);
        if !absolute && normalized != AsPosix(path) then None else Some(normalized)
  }

  lemma {:induction false} AbsoluteIsPlain(parts: seq<string>, kept: seq<string>)
    requires forall i :: 0 <= i < |parts| ==> '/' !in parts[i] && '\0' !in parts[i]
    requires forall i :: 0 <= i < |kept| ==> PlainComponent(kept[i])
    ensures forall i :: 0 <= i < |NormComponents(parts, true, kept)| ==>
        PlainComponent(NormComponents(parts, true, kept)[i])
  {
    if |parts| > 0 {
      var part := parts[0];
      AbsoluteIsPlain(parts[1..],
        if part == "" || part == "." || (part == ".." && kept == []) then kept
        else if part == ".." then kept[..|kept| - 1] else kept + [part]);
    }
  }

  lemma {:induction false} NothingGoesUp(parts: seq<string>, kept: seq<string>)
    requires ".." !in parts
    ensures NormComponents(parts, true, kept) == kept + PathParts(parts)
  {
    if |parts| > 0 {
      var part := parts[0];
      if part == "" || part == "." {
        NothingGoesUp(parts[1..], kept);
      } else {
        NothingGoesUp(parts[1..], kept + [part]);
        assert kept + [part] + PathParts(parts[1..]) == kept + ([part] + PathParts(parts[1..]));
      }
    }
  }

  lemma {:induction false} BelowRoot(root: seq<string>, parts: seq<string>, kept: seq<string>)
    requires forall i :: 0 <= i < |root| ==> PlainComponent(root[i])
    ensures NormComponents(root + parts, true, kept) == NormComponents(parts, true, kept + root)
  {
    if root == [] {
      assert root + parts == parts && kept + root == kept;
    } else {
      assert (root + parts)[0] == root[0] && (root + parts)[1..] == root[1..] + parts;
      BelowRoot(root[1..], parts, kept + [root[0]]);
      assert kept + [root[0]] + root[1..] == kept + root;
    }
  }

  lemma {:induction false} PathPartsShape(parts: seq<string>)
    requires forall i :: 0 <= i < |parts| ==> '/' !in parts[i]
    ensures forall i :: 0 <= i < |PathParts(parts)| ==> '/' !in PathParts(parts)[i]
    ensures ".." in PathParts(parts) <==> ".." in parts
  {
    if |parts| > 0 {
      PathPartsShape(parts[1..]);
      assert parts == [parts[0]] + parts[1..];
    }
  }

  /** What a path is resolved to inside the repository: plain, whatever it looked like. */
  lemma ResolvedIsPlain(root: Root, path: string)
    requires RelativePath(root, path).Some?
    ensures Plain(RelativePath(root, path).value)
  {
    var parts := if StartsWith(path, "/") then Split(path) else root + Split(path);
    forall i | 0 <= i < |Split(path)| ensures '\0' !in Split(path)[i] { CharsOfParts(path, '\0'); }
    AbsoluteIsPlain(parts, []);
    var tail := NormComponents(parts, true, [])[|root|..];
    SplitJoin(tail);
  }

  /** A relative path is accepted iff it has a component and none goes up; the spelling is normalised. */
  lemma RelativePathMeaning(root: Root, path: string)
    requires !StartsWith(path, "/") && '\0' !in path
    ensures
      var parts := PathParts(Split(path));
      RelativePath(root, path) == if parts != [] && ".." !in parts then Some(Join(parts)) else None
  {
    var parts := PathParts(Split(path));
    PathPartsShape(Split(path));
    BelowRoot(root, Split(path), []);
    assert [] + root == root;
    var resolved := NormComponents(Split(path), true, root);
    if ".." !in parts {
      NothingGoesUp(Split(path), root);
      assert resolved[|root|..] == parts;
    } else if root < resolved && Join(resolved[|root|..]) == AsPosix(path) {
      ResolvedIsPlain(root, path);
      SplitJoin(parts);
    }
  }

  /** The paths the checkpoint store keeps as they are: exactly the plain ones. */
  lemma UnchangedIsPlain(root: Root, path: string)
    ensures RelativePath(root, path) == Some(path) <==> Plain(path)
  {
    if RelativePath(root, path) == Some(path) { ResolvedIsPlain(root, path); }
    if Plain(path) {
      var parts := Split(path);
      CharsOfParts(path, '\0');
      JoinSplit(path);
      PathPartsOfPlain(parts);
      assert PlainComponent(parts[0]);
      RelativePathMeaning(root, path);
    }
  }

  lemma CanonicalIsPlain(path: string)
    requires Canonical(path)
    ensures Plain(path)
  {
  }

  // ---- claims ----

  function RStripSlash(s: string): string {
    if |s| > 0 && s[|s| - 1] == '/' then RStripSlash(s[..|s| - 1]) else s
  }

  predicate PathsOverlap(a: Path, b: Path) {
    a == b || StartsWith(a, RStripSlash(b) + "/") || StartsWith(b, RStripSlash(a) + "/")
  }

  predicate ClaimsOverlap(left: seq<Path>, right: seq<Path>) {
    exists a, b :: a in left && b in right && PathsOverlap(a, b)
  }

  lemma SplitOfTrailing(a: string)
    requires |a| > 0 && a[|a| - 1] == '/'
    ensures Split(a)[|Split(a)| - 1] == ""
  {
    assert a == a[..|a| - 1] + "/" + "";
    SplitJoinPair(a[..|a| - 1], "");
    assert Split("") == [""];
  }

  lemma CanonicalHasNoTrailingSlash(a: Path)
    requires Canonical(a)
    ensures RStripSlash(a) == a
  {
    var parts := Split(a);
    assert CleanComponent(parts[|parts| - 1]);
    if |a| > 0 && a[|a| - 1] == '/' { SplitOfTrailing(a); }
  }

  lemma StrictPrefixMeaning(a: Path, b: Path)
    requires Canonical(a) && Canonical(b)
    ensures StartsWith(b, a + "/") <==> Split(a) < Split(b)
  {
    if StartsWith(b, a + "/") {
      var rest := b[|a| + 1..];
      assert b == a + "/" + rest;
      SplitJoinPair(a, rest);
    }
    if Split(a) < Split(b) {
      var tail := Split(b)[|Split(a)|..];
      assert Split(b) == Split(a) + tail;
      JoinConcat(Split(a), tail);
      JoinSplit(a);
      JoinSplit(b);
      assert b == a + "/" + Join(tail);
    }
  }

  /** On accepted paths the string test is exactly "one path is the other or an ancestor directory of it". */
  lemma PathsOverlapMeaning(a: Path, b: Path)
    requires Canonical(a) && Canonical(b)
    ensures PathsOverlap(a, b) <==> Split(a) <= Split(b) || Split(b) <= Split(a)
  {
    CanonicalHasNoTrailingSlash(a);
    CanonicalHasNoTrailingSlash(b);
    StrictPrefixMeaning(a, b);
    StrictPrefixMeaning(b, a);
    SplitInjective(a, b);
    var x, y := Split(a), Split(b);
    assert x <= y <==> x == y || x < y;
    assert y <= x <==> x == y || y < x;
  }

  lemma SplitInjective(a: string, b: string)
    ensures a == b <==> Split(a) == Split(b)
  {
    JoinSplit(a);
    JoinSplit(b);
  }
}
