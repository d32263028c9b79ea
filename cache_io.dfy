/** Saving a command's result into the cache directory: an entry directory
    named by the first eight hex digits of a digest of `command|cwd`, holding
    `stdout.txt`, `stderr.txt` and `meta.json`. */
module CacheIo {
  import opened Wrappers
  import opened Text
  import opened Json
  import opened Files
  import opened Schema

  predicate IsHexDigit(c: char) {
    '0' <= c <= '9' || 'a' <= c <= 'f'
  }

  /** What `hashlib.sha256(...).hexdigest()` returns. */
  type HexDigest = s: string | |s| == 64 && forall i :: 0 <= i < |s| ==> IsHexDigit(s[i])
    witness seq(64, _ => '0')

  /** The text the entry name is derived from. */
  function CacheKey(command: string, cwd: string): string {
    command + "|" + cwd
  }

  /** The entry name: the digest of the key cut to eight characters. */
  function EntryName(sha256: string -> HexDigest, command: string, cwd: string): (name: string)
    ensures |name| == 8 && forall i :: 0 <= i < 8 ==> IsHexDigit(name[i])
    ensures name == sha256(CacheKey(command, cwd))[..8]
  {
    sha256(CacheKey(command, cwd))[..8]
  }

  function EntryDir(cacheDir: Path, sha256: string -> HexDigest, c: CommandResult): Path {
    JoinPath(cacheDir, EntryName(sha256, c.command, c.cwd))
  }

  /** The key does not identify the pair: a `|` inside the command can move
      between the two halves, so two different commands share one entry. */
  lemma CacheKeyCollides(sha256: string -> HexDigest)
    ensures ("a|b", "c") != ("a", "b|c")
    ensures CacheKey("a|b", "c") == CacheKey("a", "b|c")
    ensures EntryName(sha256, "a|b", "c") == EntryName(sha256, "a", "b|c")
  {
    assert CacheKey("a|b", "c") == "a|b|c" == CacheKey("a", "b|c");
  }

  /** Without `|` in the commands, the key does identify the pair. */
  lemma CacheKeyInjective(c1: string, w1: string, c2: string, w2: string)
    requires '|' !in c1 && '|' !in c2
    requires CacheKey(c1, w1) == CacheKey(c2, w2)
    ensures c1 == c2 && w1 == w2
  {
    var k := CacheKey(c1, w1);
    assert forall i :: 0 <= i < |c1| ==> k[i] != '|';
    assert forall i :: 0 <= i < |c2| ==> k[i] != '|';
    assert k[|c1|] == '|' && k[|c2|] == '|';
    assert c1 == k[..|c1|] == c2;
    assert w1 == k[|c1| + 1..] == w2;
  }

  /** `model_dump()` of a result: every field by its Python name. */
  function DumpResult(c: CommandResult): map<string, Json> {
    map["exit_code" := JInt(c.exitCode), "stdout" := JStr(c.stdout), "stderr" := JStr(c.stderr),
        "success" := JBool(c.success), "command" := JStr(c.command), "cwd" := JStr(c.cwd)]
  }

  /** The `meta.json` document: the dump without the two streams. */
  function Meta(c: CommandResult): (m: map<string, Json>)
    ensures m.Keys == {"exit_code", "success", "command", "cwd"}
    ensures m["exit_code"] == JInt(c.exitCode) && m["success"] == JBool(c.success)
    ensures m["command"] == JStr(c.command) && m["cwd"] == JStr(c.cwd)
  {
    DumpResult(c) - {"stdout", "stderr"}
  }

  /** The three files of an entry. */
  function StdoutFile(dir: Path): Path { JoinPath(dir, "stdout.txt") }
  function StderrFile(dir: Path): Path { JoinPath(dir, "stderr.txt") }
  function MetaFile(dir: Path): Path { JoinPath(dir, "meta.json") }

  /** What `save_exec_output` leaves on disk, and whether it completed.
      Each step runs only if the previous one succeeded; a failure is
      reported and swallowed. */
  datatype Saved = Saved(disk: Disk, complete: bool)

  function SaveExecOutput(d: Disk, readOnly: set<Path>, cacheDir: Path, sha256: string -> HexDigest,
                          dumps: Json -> string, c: CommandResult): Saved
  {
    var dir := EntryDir(cacheDir, sha256, c);
    match d.Mkdir(readOnly, dir)
    case None => Saved(d, false)
    case Some(d1) =>
      match d1.Write(readOnly, StdoutFile(dir), c.stdout)
      case None => Saved(d1, false)
      case Some(d2) =>
        match d2.Write(readOnly, StderrFile(dir), c.stderr)
        case None => Saved(d2, false)
        case Some(d3) =>
          match d3.Write(readOnly, MetaFile(dir), dumps(JObject(Meta(c))))
          case None => Saved(d3, false)
          case Some(d4) => Saved(d4, true)
  }

  method SaveExecOutputOn(fs: FileSystem, cacheDir: Path, sha256: string -> HexDigest,
                          dumps: Json -> string, c: CommandResult) returns (complete: bool)
    modifies fs
    ensures Saved(fs.State(), complete)
         == SaveExecOutput(old(fs.State()), fs.readOnly, cacheDir, sha256, dumps, c)
  {
    var dir := EntryDir(cacheDir, sha256, c);
    complete := fs.Mkdir(dir);
    if !complete { return; }
    complete := fs.WriteText(StdoutFile(dir), c.stdout);
    if !complete { return; }
    complete := fs.WriteText(StderrFile(dir), c.stderr);
    if !complete { return; }
    complete := fs.WriteText(MetaFile(dir), dumps(JObject(Meta(c))));
  }

  /** A completed save holds exactly the two streams and the metadata. */
  lemma SaveContents(d: Disk, readOnly: set<Path>, cacheDir: Path, sha256: string -> HexDigest,
                     dumps: Json -> string, c: CommandResult)
    ensures var s := SaveExecOutput(d, readOnly, cacheDir, sha256, dumps, c);
      var dir := EntryDir(cacheDir, sha256, c);
      s.complete ==>
        s.disk.files == d.files[StdoutFile(dir) := c.stdout][StderrFile(dir) := c.stderr]
                                [MetaFile(dir) := dumps(JObject(Meta(c)))]
        && d.dirs <= s.disk.dirs && dir in s.disk.dirs
        && forall q :: q in s.disk.dirs && q !in d.dirs ==> q in Chain(dir)
  {
  }

  /** The save succeeds exactly when the entry directory can be made and
      none of the three files is read-only or a directory. */
  lemma SaveCompleteIff(d: Disk, readOnly: set<Path>, cacheDir: Path, sha256: string -> HexDigest,
                        dumps: Json -> string, c: CommandResult)
    ensures var dir := EntryDir(cacheDir, sha256, c);
      SaveExecOutput(d, readOnly, cacheDir, sha256, dumps, c).complete <==>
        d.Mkdir(readOnly, dir).Some?
        && forall f :: f in {StdoutFile(dir), StderrFile(dir), MetaFile(dir)} ==>
             f !in readOnly && f !in d.dirs
  {
    EntryPathsDistinct(EntryDir(cacheDir, sha256, c));
    ChainHolds(EntryDir(cacheDir, sha256, c));
  }

  /** Nothing outside the entry's three files changes, complete or not. */
  lemma SaveFrame(d: Disk, readOnly: set<Path>, cacheDir: Path, sha256: string -> HexDigest,
                  dumps: Json -> string, c: CommandResult, q: Path)
    requires var dir := EntryDir(cacheDir, sha256, c);
      q != StdoutFile(dir) && q != StderrFile(dir) && q != MetaFile(dir)
    ensures var s := SaveExecOutput(d, readOnly, cacheDir, sha256, dumps, c);
      (q in s.disk.files <==> q in d.files) && (q in d.files ==> s.disk.files[q] == d.files[q])
  {
  }

  /** The entry directory and its three files are four different paths. */
  lemma EntryPathsDistinct(dir: Path)
    ensures StdoutFile(dir) != dir && StderrFile(dir) != dir && MetaFile(dir) != dir
    ensures StdoutFile(dir) != StderrFile(dir) && StdoutFile(dir) != MetaFile(dir)
    ensures StderrFile(dir) != MetaFile(dir)
  {
    assert |StdoutFile(dir)| > |dir| && |StderrFile(dir)| > |dir| && |MetaFile(dir)| > |dir|;
    assert StdoutFile(dir)[|dir| + 4] != StderrFile(dir)[|dir| + 4];
    assert StdoutFile(dir)[|dir| + 1] != MetaFile(dir)[|dir| + 1];
    assert StderrFile(dir)[|dir| + 1] != MetaFile(dir)[|dir| + 1];
  }

  /** Writing a file with the text it already holds changes nothing. */
  lemma RewriteSame(d: Disk, readOnly: set<Path>, p: Path, content: string)
    requires d.CanWrite(readOnly, p) && p in d.files && d.files[p] == content
    ensures d.Write(readOnly, p, content) == Some(d)
  {
    assert d.files[p := content] == d.files;
  }

  /** Files are overwritten, not appended to: saving twice is saving once. */
  lemma SaveIdempotent(d: Disk, readOnly: set<Path>, cacheDir: Path, sha256: string -> HexDigest,
                       dumps: Json -> string, c: CommandResult)
    ensures var once := SaveExecOutput(d, readOnly, cacheDir, sha256, dumps, c);
      SaveExecOutput(once.disk, readOnly, cacheDir, sha256, dumps, c) == once
  {
    var dir := EntryDir(cacheDir, sha256, c);
    var out, err, meta := StdoutFile(dir), StderrFile(dir), MetaFile(dir);
    var m := dumps(JObject(Meta(c)));
    EntryPathsDistinct(dir);
    if d.Mkdir(readOnly, dir).Some? {
      var d1 := d.Mkdir(readOnly, dir).value;
      assert d1.Mkdir(readOnly, dir) == Some(d1);
      if d1.Write(readOnly, out, c.stdout).Some? {
        var d2 := d1.Write(readOnly, out, c.stdout).value;
        assert d2.Mkdir(readOnly, dir) == Some(d2);
        RewriteSame(d2, readOnly, out, c.stdout);
        if d2.Write(readOnly, err, c.stderr).Some? {
          var d3 := d2.Write(readOnly, err, c.stderr).value;
          assert d3.Mkdir(readOnly, dir) == Some(d3);
          RewriteSame(d3, readOnly, out, c.stdout);
          RewriteSame(d3, readOnly, err, c.stderr);
          if d3.Write(readOnly, meta, m).Some? {
            var d4 := d3.Write(readOnly, meta, m).value;
            assert d4.Mkdir(readOnly, dir) == Some(d4);
            RewriteSame(d4, readOnly, out, c.stdout);
            RewriteSame(d4, readOnly, err, c.stderr);
            RewriteSame(d4, readOnly, meta, m);
          }
        }
      }
    }
  }
}
