# In-memory filesystem backend and cache-location resolver, in Dafny

This project models two pieces of an I/O layer for a module bundler (rspack driven from Rust).

**`MockFileSystem`** is the in-memory storage backend (`memory_fs.dfy`, module `MemoryFs`).
Its state is two maps shared by every clone of the handle:
- `files` maps a path to the file's bytes;
- `directories` maps a path to unit and is used as a set.

Each operation is one insert, remove or lookup on one of the two maps. `create_dir`, `create_dir_all`, `write` and `read` exist as a blocking call and as a suspending call. `remove_file` and `remove_dir_all` exist only as suspending calls (`src/memory_fs.rs:119-139`). The class `MemoryFs.MockFileSystem` has these two maps as fields. Its `Snapshot()` is the state as a `Store` value. The member functions of `Store` specify every operation once. Where both exist, the blocking method and its suspending twin carry the same contract on `Snapshot()`, so they have the same result and the same effect. Clones of a handle are one object reference.

**The orchestrator `compile`** is modelled only in the parts that have logic of their own (`edge_compile.dfy`, module `EdgeCompile`):
- **The cache-location walk.** It starts in the working directory and walks up, the start first, to the first directory whose `package.json` is a regular file. If the root is passed without a match, the base is `<start>/.cache/webpack`. The mode suffix picked by the `pnp` variable is then appended in every case. The lockfile is `<cache>/lockfile.json`. The loop is the method `ResolveCacheLocation`. The functions `FindProjectRoot`, `CacheDir` and `Resolve` specify it, and lemmas prove first-match-wins, the visiting order and bound, the fallback, locality and worked cases.
- **Entry selection.** An absent or empty entry selects the default fixture entry.
- **The artifact drain.** It turns the `files` map into a map keyed by the path text.

Host paths in the walk are sequences of segments, and the root is `[]`. The host tree is a function giving the metadata of `<dir>/package.json` for every directory. The working directory and the `pnp` variable are parameters. Paths in the in-memory store are `PathBuf` keys in the source, which compare and hash by components: `a/b`, `a/b/`, `a//b` and `a/./b` are one key. The model's key type `FsPath` admits only the canonical spelling of each path (predicate `Canonical`: no doubled `/`, no trailing `/`, no `.` segment after the first), so two keys are one entry exactly when they are equal.

Two behaviours of the code worth stating outright:
- **Fallback suffix.** With no `package.json` anywhere, the fallback base `<start>/.cache/webpack` still gets the mode suffix: the code overwrites the walk variable with that path and then appends the suffix in every case (`src/edge_compile.rs:196`, `201-207`). So the cache is `<start>/.cache/webpack/node_modules/.cache/webpack` (lemmas `FallbackKeepsModeSuffix` and `ExampleNoManifest`).
- **Idempotent deletion.** Only the in-memory backend's deletions are idempotent (`src/memory_fs.rs:119-139`). The real-disk backend passes the host's NotFound through (`src/system_fs.rs:88`, `97`); it is not part of this model.

## Model

| member | source | states |
|---|---|---|
| `MemoryFs.Store.InsertDirectory` | src/memory_fs.rs:35-49 | creating a directory records exactly that key, leaves every other directory key and the whole `files` map as they were, and checks no parent |
| `MemoryFs.Store.Write` | src/memory_fs.rs:51-57 | after a write, reading the path gives exactly the bytes written; every other path reads as before; the directory set is unchanged (no parent is created or required) |
| `MemoryFs.Store.RemoveFile` | src/memory_fs.rs:119-128 | after removal the path reads as NotFound; every other path reads as before; directories are unchanged |
| `MemoryFs.Store.RemoveDirectory` | src/memory_fs.rs:130-139 | removal drops exactly the key `dir` from the directory set; `files` and all other directory keys are unchanged |
| `MemoryFs.ReadAbsentIsNotFound` | src/memory_fs.rs:73-81 | reading a path absent from `files` fails with NotFound |
| `MemoryFs.EmptyStoreReadsNothing` | src/memory_fs.rs:25-31 | a new backend has no files (every read is NotFound) and no directories |
| `MemoryFs.WriteReplacesWholesale` | src/memory_fs.rs:54-55 | a second write to a path replaces the first entirely: the state equals a single write of the second content |
| `MemoryFs.WritesToDistinctPathsCommute` | src/memory_fs.rs:107-117 | writes to two distinct paths give the same state in either order and both contents stay readable (no lost update) |
| `MemoryFs.InsertDirectoryIdempotent` | src/memory_fs.rs:43-49 | creating the same directory twice has the effect of creating it once |
| `MemoryFs.RemoveFileAbsentIsNoOp` | src/memory_fs.rs:123-127 | removing an absent file leaves the state unchanged, and removing twice equals removing once |
| `MemoryFs.RemoveDirectoryAbsentIsNoOp` | src/memory_fs.rs:134-138 | removing an absent directory key leaves the state unchanged, and removing twice equals removing once |
| `MemoryFs.RemoveDirectoryKeepsEntriesBelow` | src/memory_fs.rs:130-139 | `remove_dir_all(d)` is not recursive: for a plain name (no `/`, not `.`), a file at `d/name` reads the same afterwards and a nested directory key `d/name` is present afterwards exactly when it was before |
| `MemoryFs.OneSpellingPerKey` | src/memory_fs.rs:20-21 | keys compare by components: a doubled `/`, a trailing `/` and an inner `.` segment are not key spellings, while a leading `.` and `..` segments are |
| `MemoryFs.MockFileSystem.constructor` | src/memory_fs.rs:25-31 | a new handle starts with both maps empty |
| `MemoryFs.MockFileSystem.CreateDir` | src/memory_fs.rs:35-41 | blocking `create_dir` always returns Ok and adds the key to the directory set (`InsertDirectory`); only `directories` is modified |
| `MemoryFs.MockFileSystem.CreateDirAll` | src/memory_fs.rs:43-49 | blocking `create_dir_all` has exactly the same result and effect as `create_dir` |
| `MemoryFs.MockFileSystem.Write` | src/memory_fs.rs:51-57 | blocking `write` always returns Ok and updates the state as `Store.Write`; only `files` is modified |
| `MemoryFs.MockFileSystem.Read` | src/memory_fs.rs:73-81 | blocking `read` returns the stored bytes, or NotFound when absent, and changes nothing |
| `MemoryFs.MockFileSystem.AsyncCreateDir` | src/memory_fs.rs:85-94 | suspending `create_dir`: same result and same state change as the blocking one |
| `MemoryFs.MockFileSystem.AsyncCreateDirAll` | src/memory_fs.rs:96-105 | suspending `create_dir_all`: same result and same state change as the blocking one |
| `MemoryFs.MockFileSystem.AsyncWrite` | src/memory_fs.rs:107-117 | suspending `write`: same result and same state change as the blocking one |
| `MemoryFs.MockFileSystem.AsyncRemoveFile` | src/memory_fs.rs:119-128 | `remove_file` always returns Ok and updates the state as `Store.RemoveFile` |
| `MemoryFs.MockFileSystem.AsyncRemoveDirAll` | src/memory_fs.rs:130-139 | `remove_dir_all` always returns Ok and updates the state as `Store.RemoveDirectory` |
| `MemoryFs.MockFileSystem.AsyncRead` | src/memory_fs.rs:143-154 | suspending `read`: same result as the blocking one, no state change |
| `MemoryFs.WriteThenReadThroughClone` | src/memory_fs.rs:18-22 | a blocking write through one clone is read back exactly through another clone, whichever style the read uses |
| `EdgeCompile.Parent` | src/edge_compile.rs:194-199 | the parent drops the last segment; only the root has none |
| `EdgeCompile.ResolveCacheLocation` | src/edge_compile.rs:185-212 | the loop's cache location is the text of `CacheDir` and the lockfile is that text followed by `/lockfile.json`; the directories the loop tests, in order, are exactly `Probed`, so `WalkVisitsAncestorsInOrder` describes the loop itself |
| `EdgeCompile.ProjectRootIsNearestManifest` | src/edge_compile.rs:187-199 | first match wins: the base is the nearest ancestor (start included) whose `package.json` is a regular file; nothing is found exactly when no ancestor up to the root has one |
| `EdgeCompile.WalkVisitsAncestorsInOrder` | src/edge_compile.rs:188-200 | the walk (the loop's tested directories, by `ResolveCacheLocation`) tests the start, then each successive parent, at most depth+1 directories, all non-matching but the last; it ends at the root found or at the filesystem root |
| `EdgeCompile.NonRegularManifestDoesNotStop` | src/edge_compile.rs:189-193 | a `package.json` that exists but is not a regular file does not stop the walk |
| `EdgeCompile.FallbackKeepsModeSuffix` | src/edge_compile.rs:194-207 | with no qualifying ancestor the cache directory is `<start>/.cache/webpack` followed by the mode suffix (five segments added) |
| `EdgeCompile.ModeSuffixChoices` | src/edge_compile.rs:201-207 | mode "1" selects `.pnp`, mode "3" `.yarn`, anything else or unset `node_modules`, each followed by `.cache/webpack` |
| `EdgeCompile.RenderAppend` | src/edge_compile.rs:208-212 | appending a segment to a non-root path appends `/segment` to its text |
| `EdgeCompile.RenderTwoSegments` | src/edge_compile.rs:208-209 | a path renders as its segments each preceded by `/`: `["proj", "node_modules"]` is `/proj/node_modules` |
| `EdgeCompile.RenderThreeSegments` | src/edge_compile.rs:208-209 | `["proj", "node_modules", ".cache"]` is `/proj/node_modules/.cache` |
| `EdgeCompile.RenderFourSegments` | src/edge_compile.rs:208-209 | `["proj", "node_modules", ".cache", "webpack"]` is `/proj/node_modules/.cache/webpack` |
| `EdgeCompile.LockfileInsideCacheDir` | src/edge_compile.rs:212 | the lockfile is the path `lockfile.json` inside the cache directory |
| `EdgeCompile.FindProjectRootReadsOnlyAncestors` | src/edge_compile.rs:187-199 | two host trees that agree on the start's ancestors give the same walk result |
| `EdgeCompile.ResolveDependsOnlyOnAncestry` | src/edge_compile.rs:185-212 | cache and lockfile depend only on the start directory, the `package.json` placement along its ancestry and the mode |
| `EdgeCompile.ExampleProjectDefaultMode` | src/edge_compile.rs:185-212 | `package.json` in `/proj`, start `/proj/sub/deep`, mode unset: the cache directory has the segments of `/proj/node_modules/.cache/webpack`, the cache location is the text `/proj/node_modules/.cache/webpack` and the lockfile the text `/proj/node_modules/.cache/webpack/lockfile.json` |
| `EdgeCompile.ExampleProjectPnpMode` | src/edge_compile.rs:201-202 | same tree with mode "1": the cache directory is `/proj/.pnp/.cache/webpack` |
| `EdgeCompile.ExampleNoManifest` | src/edge_compile.rs:194-207 | no `package.json` above `/tmp`: the cache directory is `/tmp/.cache/webpack/node_modules/.cache/webpack` |
| `EdgeCompile.SelectEntry` | src/edge_compile.rs:41-53 | an absent or empty entry selects the default entry; a non-empty one is used verbatim; the result is non-empty when the default is |
| `EdgeCompile.Drain` | src/edge_compile.rs:247-251 | the artifact map has exactly the text of each file key, each mapped to its stored bytes, and nothing else |
| `EdgeCompile.DrainIgnoresDirectories` | src/edge_compile.rs:247-251 | creating or removing directory entries never changes the artifact map |
| `EdgeCompile.DrainAfterWrite` | src/edge_compile.rs:247-251 | after a write, the artifact map is the previous one with that path's text mapped to the written bytes |
| `EdgeCompile.OutputThroughCloneIsDrained` | src/edge_compile.rs:32-33 | `mock_fs` is fresh, `output_filesystem` is its clone (line 33), the pipeline gets a further clone (line 239) and writes one output through it; the drain through `output_filesystem` (line 247) is exactly that output |

## Left out

- `MockFileSystem::metadata`, `symlink_metadata` and `canonicalize` are not modelled. They only panic (`unimplemented!()`).
- Locking and concurrency are not modelled: the reader/writer locks, blocking versus awaited acquisition, `Arc` ownership and cancellation. Operations are sequential calls on one object, so each one is atomic.
- Debug and progress logging (`dbg!`, `println!`) is not modelled.
- Error values carry only their kind. The blocking read fails with a `std::io::Error`; the suspending read wraps that error in the library's own error type. Both carry NotFound, and the message text is not modelled.
- Path keys are text, so the model has no non-UTF-8 paths. The blocking read accepts any host path, and such a path can only miss.
- `to_string_lossy` in the drain is the key's text. Write keys come from UTF-8 paths, so no two keys can collide.
- `MemoryFs.Store.Write`, `MemoryFs.RemoveDirectoryKeepsEntriesBelow` and `EdgeCompile.Drain` take keys in their canonical spelling only. A caller passing another spelling (`dist//main.js` for `dist/main.js`) is not modelled. In the source it reaches the same entry, and the drain reports the spelling of that entry's first insertion.
- `EdgeCompile.Render` gives the Unix form of an absolute path. Windows prefixes and separators are not modelled.
- The working directory, the `pnp` variable and the host tree are parameters. A `pnp` value that is not valid Unicode reads as unset, as `unwrap_or_default` makes it.
- The compiler options, the plugins and the remote-import plugin's settings (`src/edge_compile.rs:56-183`, `214-245`) are not modelled. The settings are the allowed origins, frozen, upgrade and proxy. All of them are configuration handed to an external pipeline whose code is not part of this model. The build itself is external too: `OutputThroughCloneIsDrained` stands for its output with a single write.
- Creating `dist` on the real disk and canonicalising the fixture path (`src/edge_compile.rs:36-40`, `46-49`) are not modelled. The default entry is a parameter of `SelectEntry`.
- `src/system_fs.rs`, the real-disk backend, is not part of this model. It only delegates to the host filesystem.
- `src/http_io.rs`, the network client, is not part of this model. It only wraps the network.
