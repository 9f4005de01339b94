/**
 * The slice of the file system the playlist code touches: `os.makedirs`,
 * `open(path, "w")`, `os.listdir`, `os.path.isfile` and `write`.
 *
 * A state holds the regular files with their contents, the directories, and
 * for each directory that can be listed the names `os.listdir` returns, in
 * the order it returns them. Failures the state cannot explain (permissions,
 * a missing parent directory, a full disk) are an explicit `fails` flag.
 */
module Files {
  import opened Wrappers

  datatype FsState = FsState(
    files: map<string, string>,
    dirs: set<string>,
    listings: map<string, seq<string>>)

  /** `os.makedirs(path, exist_ok=True)` raises on the empty path and when a regular file is in the way. */
  predicate CanMakeDirs(s: FsState, path: string)
  {
    path != "" && path !in s.files
  }

  /** The directory exists afterwards; a new one lists as empty. */
  function MakeDirsOn(s: FsState, path: string): FsState
  {
    s.(dirs := s.dirs + {path},
       listings := if path in s.listings then s.listings else s.listings[path := []])
  }

  /** `open(path, "w")` raises on a directory. */
  predicate CanOpen(s: FsState, path: string)
  {
    path !in s.dirs
  }

  /** Opening for writing creates the file or empties it. */
  function TruncateOn(s: FsState, path: string): FsState
  {
    s.(files := s.files[path := ""])
  }

  /** `write(text)` on an open file adds `text` at its end. */
  function AppendOn(s: FsState, path: string, text: string): FsState
    requires path in s.files
  {
    s.(files := s.files[path := s.files[path] + text])
  }

  /** Appending changes the one file, by exactly the text written, and nothing else. */
  lemma AppendOnlyGrows(s: FsState, path: string, text: string)
    requires path in s.files
    ensures AppendOn(s, path, text).files.Keys == s.files.Keys
    ensures AppendOn(s, path, text).files[path][..|s.files[path]|] == s.files[path]
    ensures forall q :: q in s.files && q != path ==> AppendOn(s, path, text).files[q] == s.files[q]
    ensures AppendOn(s, path, text).dirs == s.dirs && AppendOn(s, path, text).listings == s.listings
  {
  }

  /** Making a directory that exists changes nothing. */
  lemma MakeDirsIdempotent(s: FsState, path: string)
    ensures MakeDirsOn(MakeDirsOn(s, path), path) == MakeDirsOn(s, path)
    ensures path in s.dirs && path in s.listings ==> MakeDirsOn(s, path) == s
  {
  }

  /** The file system, updated in place by the calls the playlist code makes. */
  class FileStore {
    var files: map<string, string>
    var dirs: set<string>
    var listings: map<string, seq<string>>

    function State(): FsState
      reads this
    {
      FsState(files, dirs, listings)
    }

    constructor (s: FsState)
      ensures State() == s
    {
      files := s.files;
      dirs := s.dirs;
      listings := s.listings;
    }

    /** `os.makedirs(path, exist_ok=True)`; `ok` is false when it raises. */
    method MakeDirs(path: string, fails: bool) returns (ok: bool)
      modifies this
      ensures ok <==> !fails && CanMakeDirs(old(State()), path)
      ensures State() == if ok then MakeDirsOn(old(State()), path) else old(State())
    {
      if fails || path == "" || path in files {
        return false;
      }
      dirs := dirs + {path};
      if path !in listings {
        listings := listings[path := []];
      }
      ok := true;
    }

    /** `open(path, "w")`; `ok` is false when it raises. */
    method OpenForWriting(path: string, fails: bool) returns (ok: bool)
      modifies this
      ensures ok <==> !fails && CanOpen(old(State()), path)
      ensures State() == if ok then TruncateOn(old(State()), path) else old(State())
    {
      if fails || path in dirs {
        return false;
      }
      files := files[path := ""];
      ok := true;
    }

    /** `os.listdir(path)`; `None` when it raises. */
    method ListDir(path: string) returns (r: Option<seq<string>>)
      ensures r.Some? <==> path in State().listings
      ensures r.Some? ==> r.value == State().listings[path]
    {
      if path in listings {
        r := Some(listings[path]);
      } else {
        r := None;
      }
    }

    /** `os.path.isfile(path)` */
    method IsFile(path: string) returns (b: bool)
      ensures b <==> path in State().files
    {
      b := path in files;
    }

    /** `write(text)` on the open file `path`. */
    method Write(path: string, text: string)
      requires path in files
      modifies this
      ensures State() == AppendOn(old(State()), path, text)
    {
      files := files[path := files[path] + text];
    }
  }
}
