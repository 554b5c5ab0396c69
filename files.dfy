/**
 * The project directory the scripts write into: a map from path to
 * contents and modification time, and the set of directories that exist.
 * `open(path, 'w')` replaces the whole file (no append, no temporary file).
 */
module Files {
  import opened PyJson

  /** A path relative to the project root: its directory ("" for the root) and its name. */
  datatype Path = Path(dir: string, name: string)

  const FeedbackPath := Path("", "AGENT_FEEDBACK.md")
  const VscodeDir := ".vscode"
  const WebhookStatusPath := Path(VscodeDir, "webhook_status.json")
  const NotificationPath := Path(VscodeDir, "amp_notification.md")

  /** What a file holds: Markdown text, or the JSON value `json.dump` wrote. */
  datatype Contents = Doc(text: string) | JsonDoc(value: Json)

  /** A file's contents and the time (in seconds) it was last written. */
  datatype FileEntry = FileEntry(contents: Contents, mtime: real)

  /** A snapshot of the project directory. */
  datatype Disk = Disk(files: map<Path, FileEntry>, dirs: set<string>) {

    /** `open(p, 'w')` succeeds when the file's directory exists; the root always does. */
    predicate CanWrite(p: Path)
    {
      p.dir == "" || p.dir in dirs
    }

    /** The snapshot after `open(p, 'w').write(...)` at time `now`; unchanged when the open fails. */
    function Write(p: Path, c: Contents, now: real): (d: Disk)
      ensures d.dirs == dirs
      ensures CanWrite(p) ==> d.files == files[p := FileEntry(c, now)]
      ensures !CanWrite(p) ==> d == this
    {
      if CanWrite(p) then Disk(files[p := FileEntry(c, now)], dirs) else this
    }

    /** The snapshot after `os.makedirs(dir, exist_ok=True)`. */
    function MakeDirs(dir: string): Disk
    {
      Disk(files, dirs + {dir})
    }
  }

  /** The file system itself, which the scripts change in place. */
  class FileSystem {
    var files: map<Path, FileEntry>
    var dirs: set<string>

    function State(): Disk
      reads this
    {
      Disk(files, dirs)
    }

    constructor (d: Disk)
      ensures State() == d
    {
      files := d.files;
      dirs := d.dirs;
    }

    /** `open(p, 'w').write(c)`; `ok` is false when the open raises. */
    method Write(p: Path, c: Contents, now: real) returns (ok: bool)
      modifies this
      ensures ok == old(State()).CanWrite(p)
      ensures State() == old(State()).Write(p, c, now)
    {
      ok := p.dir == "" || p.dir in dirs;
      if ok {
        files := files[p := FileEntry(c, now)];
      }
    }

    /** `os.makedirs(dir, exist_ok=True)`. */
    method MakeDirs(dir: string)
      modifies this
      ensures State() == old(State()).MakeDirs(dir)
    {
      dirs := dirs + {dir};
    }
  }
}
