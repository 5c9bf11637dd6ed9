/** The filesystem the installer reads and changes, as a map from path to entry, and the
    shelljs / fs calls it makes on it. */
module Files {
  import opened Common

  newtype byte = x: int | 0 <= x < 256

  datatype Node = Directory | File(mode: nat, contents: seq<byte>)

  type Entries = map<string, Node>

  /** 0o755, what the installer gives the driver binary. */
  const ExecutableMode: nat := 493
  /** 0o644, the mode fs.openSync gives a file it creates (0o666 under the usual umask of 0o022). */
  const NewFileMode: nat := 420

  /** `path` is `root` or lies below it. */
  predicate Within(path: string, root: string) {
    path == root || StartsWith(path, root + "/")
  }

  /** A path below `root + "/" + name` is below `root`. */
  lemma WithinJoined(path: string, root: string, name: string)
    requires Within(path, root + "/" + name)
    ensures Within(path, root) && path != root
  {
    var child := root + "/" + name;
    assert child[..|root + "/"|] == root + "/";
    if path != child {
      assert path[..|child + "/"|] == child + "/";
      assert path[..|root + "/"|] == (child + "/")[..|root + "/"|];
    }
  }

  /** `shell.rm('-rf', root)`: the entry at `root` and everything below it are gone. */
  function RemoveTree(fs: Entries, root: string): (r: Entries)
    ensures forall p :: p in r <==> p in fs && !Within(p, root)
    ensures forall p :: p in r ==> r[p] == fs[p]
  {
    map p | p in fs && !Within(p, root) :: fs[p]
  }

  /** `shell.rm(path)`: removes a file; a directory or a missing path is reported by shelljs and left. */
  function RemoveFile(fs: Entries, path: string): (r: Entries)
    ensures path in fs && fs[path].File? ==> path !in r
    ensures !(path in fs && fs[path].File?) ==> r == fs
    ensures forall p :: p != path ==> (p in r <==> p in fs)
    ensures forall p :: p in r ==> p in fs && r[p] == fs[p]
  {
    if path in fs && fs[path].File? then fs - {path} else fs
  }

  /** The proper ancestors of a path: its prefixes that end just before a "/". */
  function Ancestors(path: string): set<string> {
    set i | 0 < i < |path| && path[i] == '/' :: path[..i]
  }

  /** Some ancestor of `path` is a file, so no directory can be created below it. */
  ghost predicate BlockedByFile(fs: Entries, path: string) {
    exists a :: a in Ancestors(path) && a in fs && fs[a].File?
  }

  /** `shell.mkdir('-p', path)`: creates the missing directories on the way to `path`; an existing
      `path` (of any kind) or a file in the way leaves everything as it was. Nothing present changes. */
  function MakeDirs(fs: Entries, path: string): (r: Entries)
    ensures forall p :: p in fs ==> p in r && r[p] == fs[p]
    ensures forall p :: p in r && p !in fs ==> r[p] == Directory && (p == path || p in Ancestors(path))
    ensures (path in fs || !BlockedByFile(fs, path)) ==> path in r
    ensures path !in fs && !BlockedByFile(fs, path) ==> forall a :: a in Ancestors(path) ==> a in r
    ensures (path in fs || BlockedByFile(fs, path)) ==> r == fs
  {
    if path in fs then fs
    else if exists a :: a in Ancestors(path) && a in fs && fs[a].File? then fs
    else map p | p in fs.Keys + Ancestors(path) + {path} :: if p in fs then fs[p] else Directory
  }

  /** fs.openSync(path, 'w') can create or truncate `path`: its directory exists and it is not a directory. */
  predicate CanCreate(fs: Entries, dir: string, path: string) {
    dir in fs && fs[dir].Directory? && !(path in fs && fs[path].Directory?)
  }

  /** An opened file starts empty and keeps the mode of the file it truncated. */
  function Truncated(fs: Entries, path: string): Node {
    if path in fs && fs[path].File? then File(fs[path].mode, []) else File(NewFileMode, [])
  }

  /** fs.chmodSync: fails on a missing path; a directory carries no mode here, so it changes nothing. */
  function Chmod(fs: Entries, path: string, mode: nat): (r: Option<Entries>)
    ensures r.Some? <==> path in fs
    ensures r.Some? && fs[path].File? ==> r.value == fs[path := File(mode, fs[path].contents)]
    ensures r.Some? && fs[path].Directory? ==> r.value == fs
  {
    if path !in fs then None
    else match fs[path]
      case Directory => Some(fs)
      case File(_, contents) => Some(fs[path := File(mode, contents)])
  }

  /** The filesystem as the installer changes it in place. */
  class FileSystem {
    var entries: Entries

    constructor (entries: Entries)
      ensures this.entries == entries
    {
      this.entries := entries;
    }

    /** `shell.test('-e', path)`. */
    function Exists(path: string): bool
      reads this
    {
      path in entries
    }

    method RemoveRecursively(path: string)
      modifies this
      ensures entries == RemoveTree(old(entries), path)
    {
      entries := RemoveTree(entries, path);
    }

    method Remove(path: string)
      modifies this
      ensures entries == RemoveFile(old(entries), path)
    {
      entries := RemoveFile(entries, path);
    }

    method MakeDirectories(path: string)
      modifies this
      ensures entries == MakeDirs(old(entries), path)
    {
      entries := MakeDirs(entries, path);
    }

    /** fs.openSync(path, 'w') for a path inside `dir`. */
    method OpenForWrite(dir: string, path: string) returns (created: bool)
      modifies this
      ensures created == CanCreate(old(entries), dir, path)
      ensures entries == if created then old(entries)[path := Truncated(old(entries), path)] else old(entries)
    {
      created := CanCreate(entries, dir, path);
      if created {
        entries := entries[path := Truncated(entries, path)];
      }
    }

    /** fs.writeSync at the current position of a file opened for writing: the data goes at its end. */
    method Append(path: string, data: seq<byte>)
      requires path in entries && entries[path].File?
      modifies this
      ensures entries == old(entries)[path := File(old(entries)[path].mode, old(entries)[path].contents + data)]
    {
      entries := entries[path := File(entries[path].mode, entries[path].contents + data)];
    }

    /** An archive extractor placing a file. */
    method Put(path: string, node: Node)
      modifies this
      ensures entries == old(entries)[path := node]
    {
      entries := entries[path := node];
    }

    method ChangeMode(path: string, mode: nat) returns (ok: bool)
      modifies this
      ensures ok == (path in old(entries))
      ensures entries == if ok then Chmod(old(entries), path, mode).value else old(entries)
    {
      var r := Chmod(entries, path, mode);
      ok := r.Some?;
      if ok {
        entries := r.value;
      }
    }
  }
}
