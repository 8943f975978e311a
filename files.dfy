/** The filesystem as the core sees it: which paths are regular files and
    which are directories, what reading and parsing each file gives, and what
    `glob.glob` returns for each pattern. */
module Files {
  import opened PyValue

  /** What opening and parsing a file gives: the parser's document, or an
      exception from the read or the parse. */
  datatype Doc = Parsed(value: Value) | Unreadable

  datatype FileSystem = FileSystem(
    files: map<string, Doc>,
    dirs: set<string>,
    globs: map<string, seq<string>>)
  {
    /** `os.path.isfile` */
    predicate IsFile(path: string) { path in files }

    /** `os.path.isdir` */
    predicate IsDir(path: string) { path in dirs }

    /** `os.path.exists` */
    predicate Exists(path: string) { IsFile(path) || IsDir(path) }

    /** Read and parse `path`; a missing file fails like any unreadable one. */
    function Load(path: string): Doc {
      if path in files then files[path] else Unreadable
    }

    /** `glob.glob(pattern)`, in whatever order the filesystem lists matches. */
    function Glob(pattern: string): seq<string> {
      if pattern in globs then globs[pattern] else []
    }
  }
}
