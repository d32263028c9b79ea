/** The user's configuration file `~/.config/fix-compile/config.json`: a JSON
    object read whole, changed as a map, and written back whole. The home
    directory, the environment and the JSON library are parameters. */
module ConfigManager {
  import opened Wrappers
  import opened Errors
  import opened Files
  import opened Json
  import opened Text

  function ConfigDir(home: Path): Path {
    JoinPath(JoinPath(home, ".config"), "fix-compile")
  }

  function ConfigFile(home: Path): Path {
    JoinPath(ConfigDir(home), "config.json")
  }

  lemma FileIsNotDir(home: Path)
    ensures ConfigFile(home) != ConfigDir(home)
  {
    assert |ConfigFile(home)| > |ConfigDir(home)|;
  }

  /** `ensure_config_dir()`: an error of `mkdir` propagates. */
  function EnsureConfigDir(d: Disk, readOnly: set<Path>, home: Path): Result<Disk, Error> {
    match d.Mkdir(readOnly, ConfigDir(home))
    case Some(d1) => Ok(d1)
    case None => Err(Raised("cannot create " + ConfigDir(home)))
  }

  /** What `json.loads` of the file gives: the document as it is, whatever
      its type, or `{}` when the text does not decode. */
  function Decoded(codec: Codec, text: string): Json {
    match codec.loads(text)
    case Some(doc) => doc
    case None => JObject(map[])
  }

  /** `load_config_file()`: the decoded file, or `{}` when it is missing,
      unreadable or undecodable. */
  function Load(d: Disk, readOnly: set<Path>, codec: Codec, home: Path): Step<Json> {
    match EnsureConfigDir(d, readOnly, home)
    case Err(e) => Step(d, Err(e))
    case Ok(d1) =>
      if !d1.Exists(ConfigFile(home)) then Step(d1, Ok(JObject(map[])))
      else match d1.Read(ConfigFile(home))
        case None => Step(d1, Ok(JObject(map[])))
        case Some(text) => Step(d1, Ok(Decoded(codec, text)))
  }

  /** `save_config_file(config)`: an error of the write propagates. */
  function Save(d: Disk, readOnly: set<Path>, codec: Codec, home: Path, config: map<string, Json>): Step<()> {
    match EnsureConfigDir(d, readOnly, home)
    case Err(e) => Step(d, Err(e))
    case Ok(d1) =>
      match d1.Write(readOnly, ConfigFile(home), codec.dumps(JObject(config)))
      case None => Step(d1, Err(Raised("cannot write " + ConfigFile(home))))
      case Some(d2) => Step(d2, Ok(()))
  }

  // ------------------------------------------------------------------
  // Python's operators on the loaded document
  // ------------------------------------------------------------------

  /** The name Python gives the type of a decoded document. */
  function TypeName(doc: Json): string {
    match doc
    case JNull => "NoneType"
    case JBool(_) => "bool"
    case JInt(_) => "int"
    case JStr(_) => "str"
    case JArray(_) => "list"
    case JObject(_) => "dict"
  }

  /** A document that `in` cannot search. */
  predicate IsScalar(doc: Json) {
    doc.JNull? || doc.JBool? || doc.JInt?
  }

  /** `key in doc`: a key of an object, an element of a list, a substring
      of a string; any other value raises. */
  function HasKey(doc: Json, key: string): Result<bool, Error> {
    match doc
    case JObject(m) => Ok(key in m)
    case JArray(items) => Ok(JStr(key) in items)
    case JStr(text) => Ok(Contains(text, key))
    case _ => Err(TypeError("argument of type '" + TypeName(doc) + "' is not iterable"))
  }

  const ListIndexMessage: string := "list indices must be integers or slices, not str"

  /** `doc[key]`: only an object holding the key yields a value. */
  function Lookup(doc: Json, key: string): Result<Json, Error> {
    match doc
    case JObject(m) => if key in m then Ok(m[key]) else Err(Raised("KeyError: " + key))
    case JArray(_) => Err(TypeError(ListIndexMessage))
    case JStr(_) => Err(TypeError("string indices must be integers, not 'str'"))
    case _ => Err(TypeError("'" + TypeName(doc) + "' object is not subscriptable"))
  }

  /** What `doc[key] = value` raises on a document that is not an object. */
  function AssignError(doc: Json): Error {
    if doc.JArray? then TypeError(ListIndexMessage)
    else TypeError("'" + TypeName(doc) + "' object does not support item assignment")
  }

  /** What `del doc[key]` raises on a document that is not an object. */
  function DeletionError(doc: Json): Error {
    if doc.JArray? then TypeError(ListIndexMessage)
    else TypeError("'" + TypeName(doc) + "' object doesn't support item deletion")
  }

  /** `os.getenv(env_var)` when `env_var` is a non-empty name, else None. */
  function EnvValue(getenv: string -> Option<string>, envVar: Option<string>): Option<Json> {
    if envVar.Some? && envVar.value != "" && getenv(envVar.value).Some? then Some(JStr(getenv(envVar.value).value))
    else None
  }

  // ------------------------------------------------------------------
  // The operations
  // ------------------------------------------------------------------

  /** `get_config_value(key, env_var)`: the file first, then the variable
      named by a non-empty `env_var`, else nothing. */
  function Get(d: Disk, readOnly: set<Path>, codec: Codec, home: Path, getenv: string -> Option<string>,
               key: string, envVar: Option<string>): Step<Option<Json>>
  {
    var l := Load(d, readOnly, codec, home);
    match l.result
    case Err(e) => Step(l.disk, Err(e))
    case Ok(doc) =>
      match HasKey(doc, key)
      case Err(e) => Step(l.disk, Err(e))
      case Ok(found) =>
        if found then
          match Lookup(doc, key)
          case Ok(v) => Step(l.disk, Ok(Some(v)))
          case Err(e) => Step(l.disk, Err(e))
        else Step(l.disk, Ok(EnvValue(getenv, envVar)))
  }

  /** `set_config_value(key, value)`. */
  function Set(d: Disk, readOnly: set<Path>, codec: Codec, home: Path, key: string, value: string): Step<()> {
    var l := Load(d, readOnly, codec, home);
    match l.result
    case Err(e) => Step(l.disk, Err(e))
    case Ok(doc) =>
      match doc
      case JObject(m) => Save(l.disk, readOnly, codec, home, m[key := JStr(value)])
      case _ => Step(l.disk, Err(AssignError(doc)))
  }

  /** `delete_config_value(key)`: the file is rewritten only when the key
      was there. */
  function Delete(d: Disk, readOnly: set<Path>, codec: Codec, home: Path, key: string): Step<()> {
    var l := Load(d, readOnly, codec, home);
    match l.result
    case Err(e) => Step(l.disk, Err(e))
    case Ok(doc) =>
      match HasKey(doc, key)
      case Err(e) => Step(l.disk, Err(e))
      case Ok(found) =>
        if !found then Step(l.disk, Ok(()))
        else match doc
          case JObject(m) => Save(l.disk, readOnly, codec, home, m - {key})
          case _ => Step(l.disk, Err(DeletionError(doc)))
  }

  const ValidKeys: set<string> :=
    {"OPENAI_API_BASE", "OPENAI_API_KEY", "EXECUTOR_MODEL", "FIXER_MODEL",
     "LOG_LEVEL", "MAX_TOKENS", "TIMEOUT"}

  /** `validate_config_key(key)`: membership in the seven names, exactly. */
  predicate ValidateConfigKey(key: string) {
    key in ValidKeys
  }

  // ------------------------------------------------------------------
  // On the file system
  // ------------------------------------------------------------------

  method LoadConfigFile(fs: FileSystem, codec: Codec, home: Path) returns (r: Result<Json, Error>)
    modifies fs
    ensures Step(fs.State(), r) == Load(old(fs.State()), fs.readOnly, codec, home)
  {
    var ok := fs.Mkdir(ConfigDir(home));
    if !ok {
      return Err(Raised("cannot create " + ConfigDir(home)));
    }
    var file := ConfigFile(home);
    if !fs.Exists(file) || file !in fs.files {
      return Ok(JObject(map[]));
    }
    r := Ok(Decoded(codec, fs.files[file]));
  }

  method SaveConfigFile(fs: FileSystem, codec: Codec, home: Path, config: map<string, Json>)
    returns (r: Result<(), Error>)
    modifies fs
    ensures Step(fs.State(), r) == Save(old(fs.State()), fs.readOnly, codec, home, config)
  {
    var ok := fs.Mkdir(ConfigDir(home));
    if !ok {
      return Err(Raised("cannot create " + ConfigDir(home)));
    }
    ok := fs.WriteText(ConfigFile(home), codec.dumps(JObject(config)));
    r := if ok then Ok(()) else Err(Raised("cannot write " + ConfigFile(home)));
  }

  method SetConfigValue(fs: FileSystem, codec: Codec, home: Path, key: string, value: string)
    returns (r: Result<(), Error>)
    modifies fs
    ensures Step(fs.State(), r) == Set(old(fs.State()), fs.readOnly, codec, home, key, value)
  {
    var config := LoadConfigFile(fs, codec, home);
    if config.Err? {
      return Err(config.error);
    }
    if !config.value.JObject? {
      return Err(AssignError(config.value));
    }
    var updated := config.value.fields[key := JStr(value)];
    r := SaveConfigFile(fs, codec, home, updated);
  }

  method DeleteConfigValue(fs: FileSystem, codec: Codec, home: Path, key: string)
    returns (r: Result<(), Error>)
    modifies fs
    ensures Step(fs.State(), r) == Delete(old(fs.State()), fs.readOnly, codec, home, key)
  {
    var config := LoadConfigFile(fs, codec, home);
    if config.Err? {
      return Err(config.error);
    }
    var found := HasKey(config.value, key);
    if found.Err? {
      return Err(found.error);
    }
    if !found.value {
      return Ok(());
    }
    if !config.value.JObject? {
      return Err(DeletionError(config.value));
    }
    r := SaveConfigFile(fs, codec, home, config.value.fields - {key});
  }

  // ------------------------------------------------------------------
  // Properties
  // ------------------------------------------------------------------

  /** A missing, unreadable or undecodable file loads as `{}`. */
  lemma LoadEmpty(d: Disk, readOnly: set<Path>, codec: Codec, home: Path)
    requires EnsureConfigDir(d, readOnly, home).Ok?
    requires var d1 := EnsureConfigDir(d, readOnly, home).value;
      ConfigFile(home) !in d1.files || codec.loads(d1.files[ConfigFile(home)]).None?
    ensures Load(d, readOnly, codec, home).result == Ok(JObject(map[]))
  {
  }

  /** A file that decodes loads as its document, whether or not that is an
      object: nothing checks the type. */
  lemma LoadKeepsDocument(d: Disk, readOnly: set<Path>, codec: Codec, home: Path, doc: Json)
    requires EnsureConfigDir(d, readOnly, home).Ok?
    requires var d1 := EnsureConfigDir(d, readOnly, home).value;
      ConfigFile(home) in d1.files && codec.loads(d1.files[ConfigFile(home)]) == Some(doc)
    ensures Load(d, readOnly, codec, home).result == Ok(doc)
  {
  }

  /** Loading leaves every file as it was. */
  lemma LoadWritesNothing(d: Disk, readOnly: set<Path>, codec: Codec, home: Path)
    ensures Load(d, readOnly, codec, home).disk.files == d.files
  {
  }

  /** A key the file holds is returned whatever the environment says. */
  lemma FileBeatsEnv(d: Disk, readOnly: set<Path>, codec: Codec, home: Path, key: string,
                     getenv: string -> Option<string>, envVar: Option<string>,
                     getenv': string -> Option<string>, envVar': Option<string>)
    requires var l := Load(d, readOnly, codec, home);
      l.result.Ok? && l.result.value.JObject? && key in l.result.value.fields
    ensures var l := Load(d, readOnly, codec, home);
      var g := Get(d, readOnly, codec, home, getenv, key, envVar);
      g == Get(d, readOnly, codec, home, getenv', key, envVar')
      && g.result == Ok(Some(l.result.value.fields[key]))
  {
  }

  /** `in` and `[]` on the loaded document: an object answers, a list or a
      string holding the key raises on the lookup, and a number, a boolean
      or null raises on the test. Every error is a TypeError. */
  lemma GetRaisesIff(d: Disk, readOnly: set<Path>, codec: Codec, home: Path,
                     getenv: string -> Option<string>, key: string, envVar: Option<string>)
    requires Load(d, readOnly, codec, home).result.Ok?
    ensures var doc := Load(d, readOnly, codec, home).result.value;
      var g := Get(d, readOnly, codec, home, getenv, key, envVar);
      (g.result.Err? <==> IsScalar(doc) || (doc.JArray? && JStr(key) in doc.items)
                           || (doc.JStr? && Contains(doc.s, key)))
      && (g.result.Err? ==> g.result.error.TypeError?)
      && g.disk.files == d.files
  {
  }

  /** A save that completes leaves that configuration to be loaded, when
      the JSON library reads back what it writes. */
  lemma SaveThenLoad(d: Disk, readOnly: set<Path>, codec: Codec, home: Path, config: map<string, Json>)
    requires codec.RoundTrips(JObject(config))
    ensures var s := Save(d, readOnly, codec, home, config);
      s.result.Ok? ==> Load(s.disk, readOnly, codec, home) == Step(s.disk, Ok(JObject(config)))
  {
    var s := Save(d, readOnly, codec, home, config);
    if s.result.Ok? {
      FileIsNotDir(home);
      assert s.disk.Mkdir(readOnly, ConfigDir(home)) == Some(s.disk);
    }
  }

  /** The configuration a set writes: the loaded object with the key bound. */
  predicate SetWritable(d: Disk, readOnly: set<Path>, codec: Codec, home: Path, key: string, value: string) {
    var l := Load(d, readOnly, codec, home);
    l.result.Ok? && l.result.value.JObject? ==> codec.RoundTrips(JObject(l.result.value.fields[key := JStr(value)]))
  }

  /** A set succeeds only on an object, and afterwards the file loads as
      before with that one key bound to the value. */
  lemma SetThenLoad(d: Disk, readOnly: set<Path>, codec: Codec, home: Path, key: string, value: string)
    requires SetWritable(d, readOnly, codec, home, key, value)
    ensures var l := Load(d, readOnly, codec, home);
      var s := Set(d, readOnly, codec, home, key, value);
      s.result.Ok? ==>
        l.result.Ok? && l.result.value.JObject?
        && Load(s.disk, readOnly, codec, home).result == Ok(JObject(l.result.value.fields[key := JStr(value)]))
  {
    var l := Load(d, readOnly, codec, home);
    if l.result.Ok? && l.result.value.JObject? {
      SaveThenLoad(l.disk, readOnly, codec, home, l.result.value.fields[key := JStr(value)]);
    }
  }

  /** After a set, getting the key gives the value, whatever the
      environment holds: the file comes first. */
  lemma SetThenGet(d: Disk, readOnly: set<Path>, codec: Codec, home: Path, key: string, value: string,
                   getenv: string -> Option<string>, envVar: Option<string>)
    requires SetWritable(d, readOnly, codec, home, key, value)
    ensures var s := Set(d, readOnly, codec, home, key, value);
      s.result.Ok? ==> Get(s.disk, readOnly, codec, home, getenv, key, envVar) == Step(s.disk, Ok(Some(JStr(value))))
  {
    var l := Load(d, readOnly, codec, home);
    var s := Set(d, readOnly, codec, home, key, value);
    if s.result.Ok? {
      SetThenLoad(d, readOnly, codec, home, key, value);
      SaveThenLoad(l.disk, readOnly, codec, home, l.result.value.fields[key := JStr(value)]);
      assert Load(s.disk, readOnly, codec, home) == Step(s.disk, Ok(JObject(l.result.value.fields[key := JStr(value)])));
    }
  }

  /** On a document that is not an object, set raises a TypeError and
      writes nothing. */
  lemma SetNonObjectRaises(d: Disk, readOnly: set<Path>, codec: Codec, home: Path, key: string, value: string)
    requires var l := Load(d, readOnly, codec, home); l.result.Ok? && !l.result.value.JObject?
    ensures var s := Set(d, readOnly, codec, home, key, value);
      s.result.Err? && s.result.error.TypeError? && s.disk.files == d.files
  {
  }

  /** The configuration a delete writes: the loaded object without the key. */
  predicate DeleteWritable(d: Disk, readOnly: set<Path>, codec: Codec, home: Path, key: string) {
    var l := Load(d, readOnly, codec, home);
    l.result.Ok? && l.result.value.JObject? ==> codec.RoundTrips(JObject(l.result.value.fields - {key}))
  }

  /** After deleting a key the file loads as before without it. */
  lemma DeleteThenLoad(d: Disk, readOnly: set<Path>, codec: Codec, home: Path, key: string)
    requires DeleteWritable(d, readOnly, codec, home, key)
    ensures var l := Load(d, readOnly, codec, home);
      var s := Delete(d, readOnly, codec, home, key);
      s.result.Ok? && l.result.Ok? && l.result.value.JObject? && key in l.result.value.fields ==>
        Load(s.disk, readOnly, codec, home).result == Ok(JObject(l.result.value.fields - {key}))
  {
    var l := Load(d, readOnly, codec, home);
    if l.result.Ok? && l.result.value.JObject? && key in l.result.value.fields {
      SaveThenLoad(l.disk, readOnly, codec, home, l.result.value.fields - {key});
    }
  }

  /** After deleting a key from an object, getting it falls back to the
      environment variable. */
  lemma DeleteThenGet(d: Disk, readOnly: set<Path>, codec: Codec, home: Path, key: string,
                      getenv: string -> Option<string>, envVar: Option<string>)
    requires DeleteWritable(d, readOnly, codec, home, key)
    requires var l := Load(d, readOnly, codec, home); l.result.Ok? && l.result.value.JObject?
    ensures var s := Delete(d, readOnly, codec, home, key);
      s.result.Ok? ==> Get(s.disk, readOnly, codec, home, getenv, key, envVar).result == Ok(EnvValue(getenv, envVar))
  {
    var l := Load(d, readOnly, codec, home);
    var s := Delete(d, readOnly, codec, home, key);
    if s.result.Ok? && key in l.result.value.fields {
      DeleteThenLoad(d, readOnly, codec, home, key);
    }
  }

  /** Deleting a key the document does not hold writes nothing. */
  lemma DeleteAbsentWritesNothing(d: Disk, readOnly: set<Path>, codec: Codec, home: Path, key: string)
    ensures var l := Load(d, readOnly, codec, home);
      l.result.Ok? && HasKey(l.result.value, key) == Ok(false) ==>
        Delete(d, readOnly, codec, home, key) == Step(l.disk, Ok(()))
  {
  }

  /** Delete raises exactly where Python does: on a number, a boolean or
      null, and on a list or string that holds the key; always a TypeError,
      and nothing is written. */
  lemma DeleteRaisesIff(d: Disk, readOnly: set<Path>, codec: Codec, home: Path, key: string)
    requires var l := Load(d, readOnly, codec, home); l.result.Ok? && !l.result.value.JObject?
    ensures var doc := Load(d, readOnly, codec, home).result.value;
      var s := Delete(d, readOnly, codec, home, key);
      (s.result.Err? <==> IsScalar(doc) || (doc.JArray? && JStr(key) in doc.items)
                           || (doc.JStr? && Contains(doc.s, key)))
      && (s.result.Err? ==> s.result.error.TypeError?)
      && s.disk.files == d.files
  {
  }

  /** Both changes touch no file but the configuration file. */
  lemma ChangesFrame(d: Disk, readOnly: set<Path>, codec: Codec, home: Path, key: string, value: string, q: Path)
    requires q != ConfigFile(home)
    ensures var s := Set(d, readOnly, codec, home, key, value);
      (q in s.disk.files <==> q in d.files) && (q in d.files ==> s.disk.files[q] == d.files[q])
    ensures var s := Delete(d, readOnly, codec, home, key);
      (q in s.disk.files <==> q in d.files) && (q in d.files ==> s.disk.files[q] == d.files[q])
  {
  }

  /** The names are compared exactly: a lower-case spelling is refused. */
  lemma ValidKeysExact()
    ensures |ValidKeys| == 7
    ensures ValidateConfigKey("OPENAI_API_KEY") && !ValidateConfigKey("openai_api_key")
  {
  }
}
