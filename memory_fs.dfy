/**
  The in-memory filesystem backend `MockFileSystem`.

  Its state is two shared maps: `files`, from a path key to the file's bytes, and
  `directories`, from a path key to unit, which is used as a set. Every operation is
  a single insert, remove or lookup on one of them. `create_dir`, `create_dir_all`,
  `write` and `read` exist twice, once blocking and once suspending; both act on the
  same store, so each pair has the same contract here. `remove_file` and
  `remove_dir_all` exist only as suspending calls.
*/
module MemoryFs {

  /** One byte of file content. */
  newtype byte = x: int | 0 <= x < 256

  /** The one spelling of a path among all those that name the same key: keys are
      compared component by component, so a doubled `/`, a trailing `/` and a `.`
      segment after the first are not part of the key. A leading `.` and `..`
      segments are components and stay. */
  predicate Canonical(t: string)
  {
    && (forall i :: 0 < i < |t| && t[i] == '/' ==> t[i - 1] != '/')
    && (|t| > 1 ==> t[|t| - 1] != '/')
    && (forall i :: 0 < i < |t| && t[i] == '.' && t[i - 1] == '/' ==> i + 1 < |t| && t[i + 1] != '/')
  }

  /** A path key in its canonical spelling, so two keys name the same entry exactly
      when they are equal. */
  type FsPath = t: string | Canonical(t) witness ""

  /** A doubled `/`, a trailing `/` and an inner `.` segment spell a key that has a
      shorter spelling, so none of them is a key here; a leading `.` is a component. */
  lemma OneSpellingPerKey()
    ensures !Canonical("a//b") && !Canonical("a/b/") && !Canonical("a/./b") && !Canonical("d/.")
    ensures Canonical("a/b") && Canonical("./a") && Canonical("/") && Canonical("a/../b")
  {
    assert "a//b"[2] == '/' && "a//b"[1] == '/';
    assert "a/./b"[2] == '.' && "a/./b"[1] == '/' && "a/./b"[3] == '/';
    assert "d/."[2] == '.' && "d/."[1] == '/';
  }

  /** `Path::join` of one plain name (no separator, not `.`) onto a key. */
  function Join(dir: FsPath, name: string): (child: FsPath)
    requires name != "" && '/' !in name && name != "."
    ensures |child| > |dir| && |child| >= |name| && child[|child| - |name|..] == name
    ensures dir != "" ==> child[..|dir|] == dir
  {
    if dir == "" then name
    else if dir == "/" then "/" + name
    else dir + "/" + name
  }

  /** The only error kind the in-memory backend raises. */
  datatype ErrorKind = NotFound

  datatype IoResult<T> = Ok(value: T) | Err(kind: ErrorKind)

  /** The value held behind every handle: the `files` map and the key set of the
      `directories` map. Each operation of the backend is one member function. */
  datatype Store = Store(files: map<FsPath, seq<byte>>, directories: set<FsPath>) {

    /** A lookup in `files`. An absent key fails with NotFound. */
    function Read(file: FsPath): IoResult<seq<byte>>
    {
      if file in files then Ok(files[file]) else Err(NotFound)
    }

    /** `create_dir` and `create_dir_all`: record exactly `dir` as a directory.
        No parent is checked or created, and `files` is left alone. */
    function InsertDirectory(dir: FsPath): (s: Store)
      ensures s.files == files
      ensures dir in s.directories
      ensures forall q :: q != dir ==> (q in s.directories <==> q in directories)
    {
      Store(files, directories + {dir})
    }

    /** `write`: the content at `file` becomes `data` wholesale. No directory entry
        is checked or created, and every other file keeps its content. */
    function Write(file: FsPath, data: seq<byte>): (s: Store)
      ensures s.Read(file) == Ok(data)
      ensures forall q :: q != file ==> s.Read(q) == Read(q)
      ensures s.directories == directories
    {
      Store(files[file := data], directories)
    }

    /** `remove_file`: afterwards `file` reads as NotFound; nothing else changes. */
    function RemoveFile(file: FsPath): (s: Store)
      ensures s.Read(file) == Err(NotFound)
      ensures forall q :: q != file ==> s.Read(q) == Read(q)
      ensures s.directories == directories
    {
      Store(files - {file}, directories)
    }

    /** `remove_dir_all`: drops only the exact key `dir` from `directories`.
        Files stored under `dir` and nested directory keys stay. */
    function RemoveDirectory(dir: FsPath): (s: Store)
      ensures s.files == files
      ensures dir !in s.directories
      ensures forall q :: q != dir ==> (q in s.directories <==> q in directories)
    {
      Store(files, directories - {dir})
    }
  }

  /** The empty store a new handle starts with. */
  const EmptyStore := Store(map[], {})

  /** Reading a key that was never written fails with NotFound. */
  lemma ReadAbsentIsNotFound(s: Store, file: FsPath)
    requires file !in s.files
    ensures s.Read(file) == Err(NotFound)
  {
  }

  /** Reading through a fresh handle finds nothing. */
  lemma EmptyStoreReadsNothing(file: FsPath)
    ensures EmptyStore.Read(file) == Err(NotFound)
    ensures EmptyStore.directories == {}
  {
  }

  /** Writing twice to one path keeps only the second content: writes replace, never patch. */
  lemma WriteReplacesWholesale(s: Store, file: FsPath, first: seq<byte>, second: seq<byte>)
    ensures s.Write(file, first).Write(file, second) == s.Write(file, second)
  {
    assert s.Write(file, first).Write(file, second).files == s.Write(file, second).files;
  }

  /** Writes to distinct paths do not disturb each other: in either order both are readable
      and the resulting stores are the same (no lost update). */
  lemma WritesToDistinctPathsCommute(s: Store, p: FsPath, a: seq<byte>, q: FsPath, b: seq<byte>)
    requires p != q
    ensures s.Write(p, a).Write(q, b) == s.Write(q, b).Write(p, a)
    ensures s.Write(p, a).Write(q, b).Read(p) == Ok(a)
    ensures s.Write(p, a).Write(q, b).Read(q) == Ok(b)
  {
    assert s.Write(p, a).Write(q, b).files == s.Write(q, b).Write(p, a).files;
  }

  /** Creating a directory a second time changes nothing. */
  lemma InsertDirectoryIdempotent(s: Store, dir: FsPath)
    ensures s.InsertDirectory(dir).InsertDirectory(dir) == s.InsertDirectory(dir)
  {
    assert s.InsertDirectory(dir).InsertDirectory(dir).directories == s.InsertDirectory(dir).directories;
  }

  /** Removing an absent file is a no-op, so a second removal is too. */
  lemma RemoveFileAbsentIsNoOp(s: Store, file: FsPath)
    ensures file !in s.files ==> s.RemoveFile(file) == s
    ensures s.RemoveFile(file).RemoveFile(file) == s.RemoveFile(file)
  {
    if file !in s.files {
      assert s.RemoveFile(file).files == s.files;
    }
    assert s.RemoveFile(file).RemoveFile(file).files == s.RemoveFile(file).files;
  }

  /** Removing an absent directory key is a no-op, so a second removal is too. */
  lemma RemoveDirectoryAbsentIsNoOp(s: Store, dir: FsPath)
    ensures dir !in s.directories ==> s.RemoveDirectory(dir) == s
    ensures s.RemoveDirectory(dir).RemoveDirectory(dir) == s.RemoveDirectory(dir)
  {
    if dir !in s.directories {
      assert s.RemoveDirectory(dir).directories == s.directories;
    }
    assert s.RemoveDirectory(dir).RemoveDirectory(dir).directories == s.RemoveDirectory(dir).directories;
  }

  /** `remove_dir_all` is not recursive: a file whose key lies under the directory's key,
      and a nested directory key, both survive it. */
  lemma RemoveDirectoryKeepsEntriesBelow(s: Store, dir: FsPath, name: string)
    requires name != "" && '/' !in name && name != "."
    ensures s.RemoveDirectory(dir).Read(Join(dir, name)) == s.Read(Join(dir, name))
    ensures Join(dir, name) in s.directories <==> Join(dir, name) in s.RemoveDirectory(dir).directories
  {
    assert Join(dir, name) != dir;
  }

  /**
    A handle on the shared store. Every clone of a handle in the source shares one
    store; here clones are the same object reference.
  */
  class MockFileSystem {
    var files: map<FsPath, seq<byte>>
    var directories: set<FsPath>

    /** The current state as a value. */
    function Snapshot(): Store
      reads this
    {
      Store(files, directories)
    }

    /** `MockFileSystem::new`: both maps start empty. */
    constructor ()
      ensures Snapshot() == EmptyStore
    {
      files := map[];
      directories := {};
    }

    // Blocking operations (the synchronous writable and readable capabilities).

    method CreateDir(dir: FsPath) returns (r: IoResult<()>)
      modifies this`directories
      ensures r == Ok(())
      ensures Snapshot() == old(Snapshot()).InsertDirectory(dir)
    {
      directories := directories + {dir};
      r := Ok(());
    }

    method CreateDirAll(dir: FsPath) returns (r: IoResult<()>)
      modifies this`directories
      ensures r == Ok(())
      ensures Snapshot() == old(Snapshot()).InsertDirectory(dir)
    {
      directories := directories + {dir};
      r := Ok(());
    }

    method Write(file: FsPath, data: seq<byte>) returns (r: IoResult<()>)
      modifies this`files
      ensures r == Ok(())
      ensures Snapshot() == old(Snapshot()).Write(file, data)
    {
      files := files[file := data];
      r := Ok(());
    }

    /** A lookup that leaves the store as it was (no modifies clause). */
    method Read(file: FsPath) returns (r: IoResult<seq<byte>>)
      ensures r == Snapshot().Read(file)
    {
      if file in files {
        r := Ok(files[file]);
      } else {
        r := Err(NotFound);
      }
    }

    // Suspending operations (the asynchronous writable and readable capabilities).

    method AsyncCreateDir(dir: FsPath) returns (r: IoResult<()>)
      modifies this`directories
      ensures r == Ok(())
      ensures Snapshot() == old(Snapshot()).InsertDirectory(dir)
    {
      directories := directories + {dir};
      r := Ok(());
    }

    method AsyncCreateDirAll(dir: FsPath) returns (r: IoResult<()>)
      modifies this`directories
      ensures r == Ok(())
      ensures Snapshot() == old(Snapshot()).InsertDirectory(dir)
    {
      directories := directories + {dir};
      r := Ok(());
    }

    method AsyncWrite(file: FsPath, data: seq<byte>) returns (r: IoResult<()>)
      modifies this`files
      ensures r == Ok(())
      ensures Snapshot() == old(Snapshot()).Write(file, data)
    {
      files := files[file := data];
      r := Ok(());
    }

    method AsyncRemoveFile(file: FsPath) returns (r: IoResult<()>)
      modifies this`files
      ensures r == Ok(())
      ensures Snapshot() == old(Snapshot()).RemoveFile(file)
    {
      files := files - {file};
      r := Ok(());
    }

    method AsyncRemoveDirAll(dir: FsPath) returns (r: IoResult<()>)
      modifies this`directories
      ensures r == Ok(())
      ensures Snapshot() == old(Snapshot()).RemoveDirectory(dir)
    {
      directories := directories - {dir};
      r := Ok(());
    }

    method AsyncRead(file: FsPath) returns (r: IoResult<seq<byte>>)
      ensures r == Snapshot().Read(file)
    {
      if file in files {
        r := Ok(files[file]);
      } else {
        r := Err(NotFound);
      }
    }
  }

  /** A write through one clone is read back, byte for byte, through another clone, whichever
      call style each side uses; the round trip leaves every other entry as it was. */
  method WriteThenReadThroughClone(handle: MockFileSystem, file: FsPath, data: seq<byte>, suspending: bool)
    returns (r: IoResult<seq<byte>>)
    modifies handle
    ensures r == Ok(data)
    ensures handle.Snapshot() == old(handle.Snapshot()).Write(file, data)
  {
    var clone := handle;
    var _ := clone.Write(file, data);
    if suspending {
      r := handle.AsyncRead(file);
    } else {
      r := handle.Read(file);
    }
  }
}
