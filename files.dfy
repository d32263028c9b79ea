/** The file system the core reads and writes, as a map from paths to text
    plus a set of directories. Which paths refuse to be created is fixed when
    the file system is made (`readOnly`): it stands for permissions, read-only
    mounts and the like. */
module Files {
  import opened Wrappers
  import opened Errors

  type Path = string

  /** `dir / name` for a pathlib path (no normalisation of ".." or "//"). */
  function JoinPath(dir: Path, name: string): Path {
    dir + "/" + name
  }

  /** The observable state: regular files with their text, and directories. */
  datatype Disk = Disk(files: map<Path, string>, dirs: set<Path>) {

    /** No path is both a file and a directory. */
    predicate Valid() {
      forall p :: p in files ==> p !in dirs
    }

    /** Every ancestor of a directory is a directory, as on a real file
        system. */
    predicate DirsClosed() {
      forall q, i :: q in dirs && 0 < i < |q| && q[i] == '/' ==> q[..i] in dirs
    }

    /** `Path(p).exists()`. */
    predicate Exists(p: Path) {
      p in files || p in dirs
    }

    /** `Path(p).read_text()`: None when `p` is missing or a directory. */
    function Read(p: Path): (r: Option<string>)
      ensures r.Some? <==> p in files
      ensures r.Some? ==> r.value == files[p]
    {
      if p in files then Some(files[p]) else None
    }

    /** Opening `p` for writing, or writing it whole, succeeds unless `p` is
        read-only or a directory. */
    predicate CanWrite(readOnly: set<Path>, p: Path) {
      p !in readOnly && p !in dirs
    }

    /** `Path(p).write_text(content)`: None when the write raises. */
    function Write(readOnly: set<Path>, p: Path, content: string): (r: Option<Disk>)
      ensures r.Some? <==> CanWrite(readOnly, p)
      ensures r.Some? ==> r.value.files == files[p := content] && r.value.dirs == dirs
      ensures r.Some? && Valid() ==> r.value.Valid()
    {
      if CanWrite(readOnly, p) then Some(Disk(files[p := content], dirs)) else None
    }

    /** `Path(p).mkdir(parents=True, exist_ok=True)`: succeeds at once on an
        existing directory; otherwise creates `p` and every missing ancestor
        in `Chain(p)`, and raises when one of them is a file (FileExistsError
        for `p`, NotADirectoryError above it) or is missing and read-only. */
    function Mkdir(readOnly: set<Path>, p: Path): (r: Option<Disk>)
      ensures p in dirs ==> r == Some(this)
      ensures r.Some? <==>
        p in dirs
        || (p !in files && (p in dirs || p !in readOnly)
            && forall i :: 0 < i < |p| && p[i] == '/' ==>
                 p[..i] !in files && (p[..i] in dirs || p[..i] !in readOnly))
      ensures r.Some? ==> r.value.files == files && dirs <= r.value.dirs && p in r.value.dirs
      ensures r.Some? ==> forall i :: 0 < i < |p| && p[i] == '/' && p !in dirs ==> p[..i] in r.value.dirs
      ensures r.Some? ==> forall q :: q in r.value.dirs && q !in dirs ==> q in Chain(p)
      ensures r.Some? && Valid() ==> r.value.Valid()
      ensures r.Some? && DirsClosed() ==> r.value.DirsClosed()
    {
      if p in dirs then Some(this)
      else if forall q :: q in Chain(p) ==> q !in files && (q in dirs || q !in readOnly) then
        ChainHolds(p);
        ChainClosed(p);
        Some(Disk(files, dirs + Chain(p)))
      else
        ChainHolds(p);
        None
    }
  }

  /** The directories `mkdir(parents=True)` on `p` may create: `p` and each
      proper prefix of it that ends just before a "/". */
  function Chain(p: Path): set<Path> {
    {p} + set i | 0 < i < |p| && p[i] == '/' :: p[..i]
  }

  /** The members of `Chain(p)`, one by one. */
  lemma ChainHolds(p: Path)
    ensures p in Chain(p)
    ensures forall i :: 0 < i < |p| && p[i] == '/' ==> p[..i] in Chain(p)
    ensures forall q :: q in Chain(p) ==> q == p || exists i :: 0 < i < |p| && p[i] == '/' && q == p[..i]
  {
  }

  /** A prefix of a member of `Chain(p)` that ends before a "/" is a member
      too. */
  lemma ChainClosed(p: Path)
    ensures forall q, i :: q in Chain(p) && 0 < i < |q| && q[i] == '/' ==> q[..i] in Chain(p)
  {
    ChainHolds(p);
    forall q, i | q in Chain(p) && 0 < i < |q| && q[i] == '/'
      ensures q[..i] in Chain(p)
    {
      if q != p {
        var j :| 0 < j < |p| && p[j] == '/' && q == p[..j];
        assert q[..i] == p[..i] && p[i] == q[i];
      }
    }
  }

  /** After making `p` every ancestor of it exists, however deep it lies. */
  lemma MkdirMakesParents(d: Disk, readOnly: set<Path>, p: Path, i: nat)
    requires 0 < i < |p| && p[i] == '/'
    requires d.Mkdir(readOnly, p).Some? && d.Valid() && d.DirsClosed()
    ensures d.Mkdir(readOnly, p).value.Exists(p[..i]) && d.Mkdir(readOnly, p).value.Valid()
  {
  }

  /** A file anywhere above `p` makes `mkdir(parents=True)` raise, unless
      `p` is already a directory. */
  lemma MkdirUnderFile(d: Disk, readOnly: set<Path>, p: Path, i: nat)
    requires 0 < i < |p| && p[i] == '/' && p[..i] in d.files && p !in d.dirs
    ensures d.Mkdir(readOnly, p).None?
  {
  }

  /** The case `Dockerfile/sub` with a file `Dockerfile`. */
  lemma MkdirUnderFileExample(text: string)
    ensures Disk(map["Dockerfile" := text], {}).Mkdir({}, "Dockerfile/sub").None?
  {
    assert "Dockerfile/sub"[..10] == "Dockerfile";
    MkdirUnderFile(Disk(map["Dockerfile" := text], {}), {}, "Dockerfile/sub", 10);
  }

  /** The disk after an operation, and what the operation returned or raised. */
  datatype Step<T> = Step(disk: Disk, result: Result<T, Error>)

  class FileSystem {
    var files: map<Path, string>
    var dirs: set<Path>
    const readOnly: set<Path>

    constructor (disk: Disk, readOnly: set<Path>)
      ensures State() == disk && this.readOnly == readOnly
    {
      files := disk.files;
      dirs := disk.dirs;
      this.readOnly := readOnly;
    }

    function State(): Disk
      reads this
    {
      Disk(files, dirs)
    }

    predicate Exists(p: Path)
      reads this
    {
      State().Exists(p)
    }

    /** Writes `content` to `p` whole; `ok` is false when that raises. */
    method WriteText(p: Path, content: string) returns (ok: bool)
      modifies this
      ensures ok == old(State()).CanWrite(readOnly, p)
      ensures State() == if ok then old(State()).Write(readOnly, p, content).value else old(State())
    {
      ok := State().CanWrite(readOnly, p);
      if ok {
        files := files[p := content];
      }
    }

    /** Writes `text` at the end of a file that is open for writing. */
    method Append(p: Path, text: string)
      requires p in files
      modifies this
      ensures State() == Disk(old(files)[p := old(files)[p] + text], old(dirs))
    {
      files := files[p := files[p] + text];
    }

    /** `mkdir(parents=True, exist_ok=True)`; `ok` is false when it raises. */
    method Mkdir(p: Path) returns (ok: bool)
      modifies this
      ensures ok == old(State()).Mkdir(readOnly, p).Some?
      ensures State() == if ok then old(State()).Mkdir(readOnly, p).value else old(State())
    {
      ok := State().Mkdir(readOnly, p).Some?;
      if ok && p !in dirs {
        dirs := dirs + Chain(p);
      }
    }
  }
}
