/**
  The pieces of the build orchestrator `compile` that carry logic of their own:
  the cache-location walk and lockfile path handed to the remote-import plugin,
  the choice of entry file, and the final drain of the in-memory output store
  into the artifact map.
*/
module EdgeCompile {
  import opened MemoryFs

  datatype Option<T> = None | Some(value: T)

  // ---------------------------------------------------------------------------
  // Host paths and the shape of the host tree
  // ---------------------------------------------------------------------------

  /** An absolute host path as its segments; the root directory is `[]`. */
  type Dir = seq<string>

  /** `Path::parent`: the path without its last segment; the root has none. */
  function Parent(d: Dir): (p: Option<Dir>)
    ensures p.None? <==> d == []
    ensures p.Some? ==> |p.value| == |d| - 1 && p.value == d[..|d| - 1]
  {
    if d == [] then None else Some(d[..|d| - 1])
  }

  datatype FileKind = RegularFile | Directory | OtherKind

  /** What `std::fs::metadata` answers: an error (missing, unreadable) or the
      kind of the entry after following symbolic links. */
  datatype Metadata = MetadataError | MetadataOk(kind: FileKind)

  /** The host tree as far as the walk sees it: for each directory, the metadata
      of `<directory>/package.json`. */
  type ManifestProbe = Dir -> Metadata

  /** The walk stops at `d` when its `package.json` exists and is a regular file. */
  predicate HasManifest(probe: ManifestProbe, d: Dir)
  {
    probe(d).MetadataOk? && probe(d).kind == RegularFile
  }

  // ---------------------------------------------------------------------------
  // Specification of the cache-location walk
  // ---------------------------------------------------------------------------

  /** The directory the upward walk from `dir` stops at, or None once it has tested
      the root without success. */
  function FindProjectRoot(probe: ManifestProbe, dir: Dir): Option<Dir>
    decreases |dir|
  {
    if HasManifest(probe, dir) then Some(dir)
    else match Parent(dir)
      case None => None
      case Some(parent) => FindProjectRoot(probe, parent)
  }

  /** The directories whose `package.json` the walk from `dir` tests, in order. */
  function Probed(probe: ManifestProbe, dir: Dir): seq<Dir>
    decreases |dir|
  {
    if HasManifest(probe, dir) then [dir]
    else match Parent(dir)
      case None => [dir]
      case Some(parent) => [dir] + Probed(probe, parent)
  }

  /** The base the walk leaves in `dir`: the project root, or `<cwd>/.cache/webpack`. */
  function ProjectBase(probe: ManifestProbe, cwd: Dir): Dir
  {
    match FindProjectRoot(probe, cwd)
    case Some(root) => root
    case None => cwd + [".cache", "webpack"]
  }

  /** The suffix chosen by the `pnp` environment variable; unset reads as "". */
  function ModeSuffix(pnp: Option<string>): seq<string>
  {
    var mode := if pnp.Some? then pnp.value else "";
    if mode == "1" then [".pnp", ".cache", "webpack"]
    else if mode == "3" then [".yarn", ".cache", "webpack"]
    else ["node_modules", ".cache", "webpack"]
  }

  /** The cache directory: the base followed by the mode suffix, found base or fallback alike. */
  function CacheDir(probe: ManifestProbe, cwd: Dir, pnp: Option<string>): Dir
  {
    ProjectBase(probe, cwd) + ModeSuffix(pnp)
  }

  /** Segments joined as `/s1/s2/...` (no leading slash for `[]`). */
  function JoinSegments(d: Dir): string
    decreases |d|
  {
    if d == [] then "" else JoinSegments(d[..|d| - 1]) + ("/" + d[|d| - 1])
  }

  /** The text of an absolute path (`to_string_lossy` of a Unix path). */
  function Render(d: Dir): string
  {
    if d == [] then "/" else JoinSegments(d)
  }

  datatype CacheLocation = CacheLocation(cacheLocation: string, lockfileLocation: string)

  /** The pair handed to the remote-import plugin. */
  function Resolve(probe: ManifestProbe, cwd: Dir, pnp: Option<string>): CacheLocation
  {
    var cache := Render(CacheDir(probe, cwd, pnp));
    CacheLocation(cache, cache + "/lockfile.json")
  }

  // ---------------------------------------------------------------------------
  // The walk as the orchestrator runs it
  // ---------------------------------------------------------------------------

  /** The loop in `compile`: `cwd` stands for the current directory, `probe` for
      `std::fs::metadata`, `pnp` for the environment variable of that name. */
  method ResolveCacheLocation(cwd: Dir, probe: ManifestProbe, pnp: Option<string>)
    returns (loc: CacheLocation, ghost tested: seq<Dir>)
    ensures loc == Resolve(probe, cwd, pnp)
    ensures loc.lockfileLocation == loc.cacheLocation + "/lockfile.json"
    ensures tested == Probed(probe, cwd)
  {
    var dir := cwd;
    tested := [];
    while true
      invariant FindProjectRoot(probe, dir) == FindProjectRoot(probe, cwd)
      invariant tested + Probed(probe, dir) == Probed(probe, cwd)
      decreases |dir|
    {
      var metadata := probe(dir);
      var before := tested;
      tested := tested + [dir];
      if metadata.MetadataOk? && metadata.kind == RegularFile {
        break;
      }
      var parent := Parent(dir);
      if parent.None? {
        dir := cwd + [".cache", "webpack"];
        break;
      }
      assert Probed(probe, dir) == [dir] + Probed(probe, parent.value);
      assert before + ([dir] + Probed(probe, parent.value)) == tested + Probed(probe, parent.value);
      dir := parent.value;
    }
    var cache := Render(dir + ModeSuffix(pnp));
    loc := CacheLocation(cache, cache + "/lockfile.json");
  }

  // ---------------------------------------------------------------------------
  // Properties of the walk
  // ---------------------------------------------------------------------------

  /** First match wins: the walk stops at the longest prefix of `dir` (the nearest
      ancestor, `dir` itself included) whose `package.json` is a regular file, and
      it finds nothing exactly when no such prefix exists. */
  lemma {:induction false} ProjectRootIsNearestManifest(probe: ManifestProbe, dir: Dir)
    ensures FindProjectRoot(probe, dir).Some? ==>
              var root := FindProjectRoot(probe, dir).value;
              |root| <= |dir| && root == dir[..|root|] && HasManifest(probe, root) &&
              forall k :: |root| < k <= |dir| ==> !HasManifest(probe, dir[..k])
    ensures FindProjectRoot(probe, dir).None? <==>
              forall k :: 0 <= k <= |dir| ==> !HasManifest(probe, dir[..k])
  {
    assert dir[..|dir|] == dir;
    if HasManifest(probe, dir) {
    } else if dir == [] {
    } else {
      var parent := dir[..|dir| - 1];
      ProjectRootIsNearestManifest(probe, parent);
      assert forall k :: 0 <= k <= |parent| ==> parent[..k] == dir[..k];
    }
  }

  /** The walk tests `dir` first and then each successive parent, at most `|dir| + 1`
      directories in all; every directory it passes has no regular `package.json`, and
      the last one tested is the root found, or the root directory when none is. */
  lemma {:induction false} WalkVisitsAncestorsInOrder(probe: ManifestProbe, dir: Dir)
    ensures 1 <= |Probed(probe, dir)| <= |dir| + 1
    ensures forall i :: 0 <= i < |Probed(probe, dir)| ==> Probed(probe, dir)[i] == dir[..|dir| - i]
    ensures forall i :: 0 <= i < |Probed(probe, dir)| - 1 ==> !HasManifest(probe, Probed(probe, dir)[i])
    ensures var last := Probed(probe, dir)[|Probed(probe, dir)| - 1];
            FindProjectRoot(probe, dir) == if HasManifest(probe, last) then Some(last) else None
    ensures FindProjectRoot(probe, dir).None? ==> Probed(probe, dir)[|Probed(probe, dir)| - 1] == []
  {
    if HasManifest(probe, dir) || dir == [] {
      assert dir[..|dir|] == dir;
    } else {
      var parent := dir[..|dir| - 1];
      WalkVisitsAncestorsInOrder(probe, parent);
      var rest := Probed(probe, parent);
      assert Probed(probe, dir) == [dir] + rest;
      forall i | 0 <= i < |Probed(probe, dir)|
        ensures Probed(probe, dir)[i] == dir[..|dir| - i]
      {
        if i == 0 {
          assert dir[..|dir|] == dir;
        } else {
          assert Probed(probe, dir)[i] == rest[i - 1] == parent[..|parent| - (i - 1)];
        }
      }
    }
  }

  /** A `package.json` that exists but is not a regular file (a directory, say) does
      not stop the walk: it goes on to the parent. */
  lemma NonRegularManifestDoesNotStop(probe: ManifestProbe, dir: Dir, kind: FileKind)
    requires dir != []
    requires kind != RegularFile
    requires probe(dir) == MetadataOk(kind)
    ensures FindProjectRoot(probe, dir) == FindProjectRoot(probe, dir[..|dir| - 1])
  {
  }

  /** When no directory up to the root qualifies, the base is `<cwd>/.cache/webpack`
      and the mode suffix is still appended to it. */
  lemma FallbackKeepsModeSuffix(probe: ManifestProbe, cwd: Dir, pnp: Option<string>)
    requires forall k :: 0 <= k <= |cwd| ==> !HasManifest(probe, cwd[..k])
    ensures CacheDir(probe, cwd, pnp) == cwd + [".cache", "webpack"] + ModeSuffix(pnp)
    ensures |CacheDir(probe, cwd, pnp)| == |cwd| + 5
  {
    ProjectRootIsNearestManifest(probe, cwd);
  }

  /** The mode suffix: "1" selects `.pnp`, "3" selects `.yarn`, any other value and
      an unset variable select `node_modules`; the tail is `.cache/webpack` in every case. */
  lemma ModeSuffixChoices(pnp: Option<string>)
    ensures |ModeSuffix(pnp)| == 3 && ModeSuffix(pnp)[1..] == [".cache", "webpack"]
    ensures pnp == Some("1") <==> ModeSuffix(pnp)[0] == ".pnp"
    ensures pnp == Some("3") <==> ModeSuffix(pnp)[0] == ".yarn"
    ensures pnp != Some("1") && pnp != Some("3") <==> ModeSuffix(pnp)[0] == "node_modules"
  {
  }

  /** Appending a segment to a non-root path appends `/segment` to its text. */
  lemma RenderAppend(d: Dir, segment: string)
    requires d != []
    ensures Render(d + [segment]) == Render(d) + ("/" + segment)
  {
    assert (d + [segment])[..|d|] == d;
  }

  /** The lockfile is the file `lockfile.json` inside the cache directory. */
  lemma LockfileInsideCacheDir(probe: ManifestProbe, cwd: Dir, pnp: Option<string>)
    ensures Resolve(probe, cwd, pnp).lockfileLocation == Render(CacheDir(probe, cwd, pnp) + ["lockfile.json"])
    ensures Resolve(probe, cwd, pnp).cacheLocation == Render(CacheDir(probe, cwd, pnp))
  {
    RenderAppend(CacheDir(probe, cwd, pnp), "lockfile.json");
    assert "/" + "lockfile.json" == "/lockfile.json";
  }

  /** The walk reads only the ancestors of the start directory. */
  lemma {:induction false} FindProjectRootReadsOnlyAncestors(p1: ManifestProbe, p2: ManifestProbe, dir: Dir)
    requires forall k :: 0 <= k <= |dir| ==> p1(dir[..k]) == p2(dir[..k])
    ensures FindProjectRoot(p1, dir) == FindProjectRoot(p2, dir)
  {
    assert dir[..|dir|] == dir;
    if dir != [] {
      var parent := dir[..|dir| - 1];
      assert forall k :: 0 <= k <= |parent| ==> parent[..k] == dir[..k];
      FindProjectRootReadsOnlyAncestors(p1, p2, parent);
    }
  }

  /** The cache and lockfile locations depend only on the start directory, on where
      `package.json` files sit along its ancestry, and on the mode value. */
  lemma ResolveDependsOnlyOnAncestry(p1: ManifestProbe, p2: ManifestProbe, cwd: Dir, pnp: Option<string>)
    requires forall k :: 0 <= k <= |cwd| ==> p1(cwd[..k]) == p2(cwd[..k])
    ensures Resolve(p1, cwd, pnp) == Resolve(p2, cwd, pnp)
  {
    FindProjectRootReadsOnlyAncestors(p1, p2, cwd);
  }

  // ---------------------------------------------------------------------------
  // Worked cases: `package.json` at /proj, walk started in /proj/sub/deep
  // ---------------------------------------------------------------------------

  /** The tree with one regular `package.json`, in `/proj`. */
  function ProjTree(d: Dir): Metadata
  {
    if d == ["proj"] then MetadataOk(RegularFile) else MetadataError
  }

  /** From `/proj/sub/deep` the walk tests `/proj/sub/deep` and `/proj/sub`, then stops at `/proj`. */
  lemma ProjRootFromDeep()
    ensures FindProjectRoot(ProjTree, ["proj", "sub", "deep"]) == Some(["proj"])
  {
    var cwd := ["proj", "sub", "deep"];
    assert cwd[..2] == ["proj", "sub"];
    assert !HasManifest(ProjTree, cwd);
    assert FindProjectRoot(ProjTree, cwd) == FindProjectRoot(ProjTree, ["proj", "sub"]);
    assert ["proj", "sub"][..1] == ["proj"];
    assert !HasManifest(ProjTree, ["proj", "sub"]);
    assert FindProjectRoot(ProjTree, ["proj", "sub"]) == FindProjectRoot(ProjTree, ["proj"]);
    assert HasManifest(ProjTree, ["proj"]);
  }

  /** `/proj/node_modules/.cache` is the text of its three segments. */
  lemma RenderThreeSegments()
    ensures Render(["proj", "node_modules", ".cache"]) == "/proj/node_modules/.cache"
  {
    RenderTwoSegments();
    RenderAppend(["proj", "node_modules"], ".cache");
    assert ["proj", "node_modules"] + [".cache"] == ["proj", "node_modules", ".cache"];
    assert "/proj/node_modules" + ("/" + ".cache") == "/proj/node_modules/.cache";
  }

  /** `/proj/node_modules/.cache/webpack` is the text of its four segments. */
  lemma RenderFourSegments()
    ensures Render(["proj", "node_modules", ".cache", "webpack"]) == "/proj/node_modules/.cache/webpack"
  {
    RenderThreeSegments();
    RenderAppend(["proj", "node_modules", ".cache"], "webpack");
    assert ["proj", "node_modules", ".cache"] + ["webpack"] == ["proj", "node_modules", ".cache", "webpack"];
    assert "/proj/node_modules/.cache" + ("/" + "webpack") == "/proj/node_modules/.cache/webpack";
  }

  /** Mode unset: the cache is `/proj/node_modules/.cache/webpack` and the lockfile
      `/proj/node_modules/.cache/webpack/lockfile.json`. */
  lemma ExampleProjectDefaultMode()
    ensures CacheDir(ProjTree, ["proj", "sub", "deep"], None) == ["proj", "node_modules", ".cache", "webpack"]
    ensures Resolve(ProjTree, ["proj", "sub", "deep"], None).cacheLocation == "/proj/node_modules/.cache/webpack"
    ensures Resolve(ProjTree, ["proj", "sub", "deep"], None).lockfileLocation
            == "/proj/node_modules/.cache/webpack/lockfile.json"
  {
    ProjRootFromDeep();
    RenderFourSegments();
    assert "/proj/node_modules/.cache/webpack" + "/lockfile.json" == "/proj/node_modules/.cache/webpack/lockfile.json";
  }

  /** Mode "1": the cache is `/proj/.pnp/.cache/webpack`. */
  lemma ExampleProjectPnpMode()
    ensures CacheDir(ProjTree, ["proj", "sub", "deep"], Some("1")) == ["proj", ".pnp", ".cache", "webpack"]
  {
    ProjRootFromDeep();
  }

  /** No `package.json` anywhere above `/tmp`: the cache is
      `/tmp/.cache/webpack/node_modules/.cache/webpack`. */
  lemma ExampleNoManifest()
    ensures CacheDir((d: Dir) => MetadataError, ["tmp"], None)
            == ["tmp", ".cache", "webpack", "node_modules", ".cache", "webpack"]
  {
    var none := (d: Dir) => MetadataError;
    assert ["tmp"][..0] == [];
    assert FindProjectRoot(none, ["tmp"]) == None;
  }

  /** The text of a path: `/proj/node_modules` for `["proj", "node_modules"]`. */
  lemma RenderTwoSegments()
    ensures Render(["proj", "node_modules"]) == "/proj/node_modules"
  {
    var d := ["proj", "node_modules"];
    assert d[..1] == ["proj"];
    assert ["proj"][..0] == [];
    assert JoinSegments(["proj"]) == "" + ("/" + "proj");
    assert "" + ("/" + "proj") == "/proj";
    assert JoinSegments(d) == JoinSegments(["proj"]) + ("/" + "node_modules");
    assert "/proj" + ("/" + "node_modules") == "/proj/node_modules";
  }

  // ---------------------------------------------------------------------------
  // Entry selection and artifact drain
  // ---------------------------------------------------------------------------

  /** The entry handed to the entry plugin: the caller's entry unless it is absent or
      empty, in which case `defaultEntry`, the canonical path of the bundled fixture. */
  function SelectEntry(networkEntry: Option<string>, defaultEntry: string): (entry: string)
    ensures networkEntry == None || networkEntry == Some("") ==> entry == defaultEntry
    ensures networkEntry.Some? && networkEntry.value != "" ==> entry == networkEntry.value
    ensures defaultEntry != "" ==> entry != ""
  {
    match networkEntry
    case Some(e) => if e != "" then e else defaultEntry
    case None => defaultEntry
  }

  /** The artifact map: every file key of the store as text with its stored bytes.
      Directory entries do not appear. */
  function Drain(store: Store): (artifacts: map<string, seq<byte>>)
    ensures forall p :: p in store.files ==> p in artifacts && artifacts[p] == store.files[p]
    ensures forall t :: t in artifacts ==> Canonical(t) && t in store.files
  {
    map t: string | t in store.files :: store.files[t]
  }

  /** Directory entries never reach the artifact map. */
  lemma DrainIgnoresDirectories(store: Store, dir: FsPath)
    ensures Drain(store.InsertDirectory(dir)) == Drain(store)
    ensures Drain(store.RemoveDirectory(dir)) == Drain(store)
  {
  }

  /** What a write stores is what the drain reports for that path. */
  lemma DrainAfterWrite(store: Store, file: FsPath, data: seq<byte>)
    ensures Drain(store.Write(file, data)) == Drain(store)[file := data]
  {
  }

  /** The orchestrator's round trip: `mockFs` is the fresh store, `outputFilesystem` its
      clone, and a further clone of that one is handed to the pipeline, which writes one
      output through it. The drain through `outputFilesystem` reports exactly that output. */
  method OutputThroughCloneIsDrained(file: FsPath, data: seq<byte>) returns (artifacts: map<string, seq<byte>>)
    ensures artifacts == map[file := data]
  {
    var mockFs := new MockFileSystem();
    var outputFilesystem := mockFs;
    var pipelineOutput := outputFilesystem;
    var _ := pipelineOutput.AsyncWrite(file, data);
    artifacts := Drain(outputFilesystem.Snapshot());
    DrainAfterWrite(EmptyStore, file, data);
    assert Drain(EmptyStore) == map[];
  }
}
