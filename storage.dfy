/** The file system as the downloader sees it: which paths exist, and what
    the files it reads back hold. Directories are paths without contents. */
module Storage {
  import opened Text
  import opened Tags

  /** What a regular file holds: subtitle text, raw bytes (the cover image),
      or a media container with its tag block. A FLAC block keeps its
      comments and the list of embedded pictures. */
  datatype FileData = TextFile(text: string) | Binary(bytes: seq<bv8>)
                    | Mp4File(atoms: map<string, Mp4Value>)
                    | FlacFile(comments: map<string, string>, pictures: seq<seq<bv8>>)

  /** Why a download task stopped short. `PathIsFile` is a path that has to
      be a directory naming a regular file: `os.makedirs` raises
      `FileExistsError` and `open` inside it raises `NotADirectoryError`.
      `PathIsDirectory` is a file opened for writing that is an existing
      directory: `open` raises `IsADirectoryError`. */
  datatype Failure = StreamFailed | NotMp4 | NotFlac | NoEncoderAtom | NoDirectory
                   | PathIsFile | PathIsDirectory

  /** How a download task ended: skipped because its path exists, finished,
      returned early after a failure, or raised an exception. */
  datatype Outcome = Skipped | Completed | Failed(failure: Failure) | Raised(failure: Failure)

  /** The outcome of the external stream tool (yt-dlp or ffmpeg), given
      rather than computed: its exit code and the files it left behind. */
  datatype Fetch = Fetch(code: int, written: map<string, FileData>)

  class Disk {
    /** Every existing path, file or directory, as it was created. */
    var files: set<string>
    /** The existing paths that are directories. */
    var dirs: set<string>
    /** The contents of the regular files. */
    var contents: map<string, FileData>

    ghost predicate Valid()
      reads this
    {
      contents.Keys <= files && dirs <= files
    }

    /** What `os.path.exists(path)` sees: a path that was created, or a
        directory named with trailing slashes. */
    predicate Present(path: string)
      reads this
    {
      path in files || (EndsWith(path, "/") && RStripChar(path, '/') in dirs)
    }

    /** An existing path that is not a directory, named with or without
        trailing slashes: `os.makedirs` cannot create it and `open` cannot
        create a file inside it. */
    predicate NonDirectory(path: string)
      reads this
    {
      (path in files && path !in dirs) ||
      (EndsWith(path, "/") && RStripChar(path, '/') in files && RStripChar(path, '/') !in dirs)
    }

    /** For a path without a trailing slash, existing means created and
        being no directory means being a regular file. */
    lemma PlainPathStatus(path: string)
      requires !EndsWith(path, "/")
      ensures Present(path) <==> path in files
      ensures NonDirectory(path) <==> path in files && path !in dirs
    {
    }

    constructor (existing: set<string>, directories: set<string>)
      requires directories <= existing
      ensures Valid() && files == existing && dirs == directories && contents == map[]
    {
      files := existing;
      dirs := directories;
      contents := map[];
    }

    /** `os.path.exists(path)`. */
    method Exists(path: string) returns (b: bool)
      ensures b <==> Present(path)
    {
      b := path in files || (EndsWith(path, "/") && RStripChar(path, '/') in dirs);
    }

    /** `os.makedirs(path, exist_ok=True)`, for the leaf directory: `ok` is
        false when it raises because `path` is a regular file, and then
        nothing changes. */
    method MakeDirs(path: string) returns (ok: bool)
      requires Valid()
      modifies this
      ensures Valid()
      ensures ok <==> !old(NonDirectory(path))
      ensures ok ==> files == old(files) + {path} && dirs == old(dirs) + {path} && contents == old(contents)
      ensures !ok ==> files == old(files) && dirs == old(dirs) && contents == old(contents)
    {
      ok := !NonDirectory(path);
      if ok {
        files := files + {path};
        dirs := dirs + {path};
      }
    }

    /** Opening `path` for writing and writing `data` to it: `ok` is false
        when opening raises because `path` is a directory, and then nothing
        changes. */
    method Write(path: string, data: FileData) returns (ok: bool)
      requires Valid()
      modifies this
      ensures Valid()
      ensures ok <==> path !in old(dirs)
      ensures ok ==> files == old(files) + {path} && dirs == old(dirs) && contents == old(contents)[path := data]
      ensures !ok ==> files == old(files) && dirs == old(dirs) && contents == old(contents)
    {
      ok := path !in dirs;
      if ok {
        files := files + {path};
        contents := contents[path := data];
      }
    }

    /** `open(os.path.join(dir, name), "wb")` and a write of `data`: `ok` is
        false when opening raises, because `dir` is a regular file or the
        joined path is a directory, and then nothing changes. */
    method WriteIn(dir: string, name: string, data: FileData) returns (path: string, ok: bool)
      requires Valid()
      modifies this
      ensures Valid() && path == PathJoin(dir, name)
      ensures ok <==> !old(NonDirectory(dir)) && path !in old(dirs)
      ensures ok ==> files == old(files) + {path} && dirs == old(dirs) && contents == old(contents)[path := data]
      ensures !ok ==> files == old(files) && dirs == old(dirs) && contents == old(contents)
    {
      path := PathJoin(dir, name);
      ok := !NonDirectory(dir) && path !in dirs;
      if ok {
        files := files + {path};
        contents := contents[path := data];
      }
    }

    /** What the external stream tool leaves on disk. */
    method ApplyFetch(f: Fetch)
      requires Valid()
      modifies this
      ensures Valid()
      ensures files == old(files) + f.written.Keys && dirs == old(dirs) && contents == old(contents) + f.written
    {
      files := files + f.written.Keys;
      contents := contents + f.written;
    }
  }
}
