/** The configuration-resolution sequence that runs when the backend package
    is imported, as a function of the process's starting state and of what
    the host (file system and environment) answers. Precedence, lowest to
    highest: compiled-in defaults, the JSON config file, `KERAS_BACKEND`. */
module Resolution {
  import opened Json

  /** The assertions at which importing the package can stop. */
  datatype Check = FileFloatx | FileEpsilon | FileBackend | FileImageDataFormat | EnvBackend

  /** Why importing the package raised. */
  datatype Error =
    | AssertionError(at: Check)   // an `assert` found a value outside its domain
    | TypeError(at: Check)        // an unhashable value was looked up in a set
    | ConfigUnreadable            // opening or reading the existing file raised an OSError
    | ConfigNotADict              // the file parsed, but not to an object: `.get` raises AttributeError
    | SeedWriteError              // creating or writing the seed file raised an OSError
    | UnknownBackend              // the ValueError of the final dispatch

  datatype Result<T> = Success(value: T) | Failure(error: Error)

  /** Outcome of one check. */
  datatype Outcome = Pass | Fail(error: Error)

  /** The backend module whose names get bound into the package. */
  datatype Engine = Theano | TensorFlow

  const FloatxDomain: set<string> := {"float16", "float32", "float64"}
  const BackendDomain: set<string> := {"theano", "tensorflow"}
  const ImageDataFormatDomain: set<string> := {"channels_last", "channels_first"}
  const DefaultBackend: string := "tensorflow"
  const TmpDir: string := "/tmp"

  /** The process-wide numeric state behind floatx(), epsilon() and image_data_format(). */
  datatype Settings = Settings(floatx: Value, epsilon: Value, imageDataFormat: Value)

  /** The four configuration fields: the settings together with `_BACKEND`. */
  datatype Config = Config(floatx: Value, epsilon: Value, backend: Value, imageDataFormat: Value)

  /** The state of the common module before the package is imported. */
  const DefaultSettings: Settings :=
    Settings(Str("float32"), Float(0.0000001), Str("channels_last"))

  /** What reading an existing config file gives. */
  datatype Read =
    | Unreadable          // open() or read() raised an OSError
    | Malformed           // json.load raised a ValueError
    | Parsed(doc: Value)  // json.load returned this value

  /** The host as the sequence observes it. */
  datatype Host = Host(
    home: string,                 // os.path.expanduser('~')
    homeWritable: bool,           // os.access(home, os.W_OK)
    tmpWritable: bool,            // os.access('/tmp', os.W_OK)
    kerasDirExists: bool,         // os.path.exists(<base>/.keras)
    makedirsSucceeds: bool,       // os.makedirs(<base>/.keras) does not raise
    configFile: Option<Read>,     // None when the config path does not exist
    configCreatable: bool,        // open(path, 'w') and write succeed once the directory exists
    kerasBackend: Option<string>) // os.environ.get('KERAS_BACKEND')

  /** Everything the sequence leaves behind: the path it used, the final
      settings and `_BACKEND`, the seed record it wrote (if any), and either
      the backend module bound or the exception raised. */
  datatype Run = Run(configPath: string, state: Config, seed: Option<Config>, result: Result<Engine>)

  predicate ValidConfig(c: Config)
  {
    StrIn(c.floatx, FloatxDomain) && c.epsilon.Float? &&
    StrIn(c.backend, BackendDomain) && StrIn(c.imageDataFormat, ImageDataFormatDomain)
  }

  predicate ValidSettings(s: Settings)
  {
    StrIn(s.floatx, FloatxDomain) && s.epsilon.Float? && StrIn(s.imageDataFormat, ImageDataFormatDomain)
  }

  function StartConfig(s: Settings): Config
  {
    Config(s.floatx, s.epsilon, Str(DefaultBackend), s.imageDataFormat)
  }

  function SettingsOf(c: Config): Settings
  {
    Settings(c.floatx, c.epsilon, c.imageDataFormat)
  }

  function EngineName(e: Engine): string
  {
    match e
    case Theano => "theano"
    case TensorFlow => "tensorflow"
  }

  // ---------------------------------------------------------------------
  // Paths
  // ---------------------------------------------------------------------

  /** posixpath.join of two components: an absolute second component
      replaces the first; otherwise at most one separator is added between
      them (see `Properties.PathJoinParts`). */
  function PathJoin(a: string, b: string): (r: string)
    ensures |b| > 0 && b[0] == '/' ==> r == b
    ensures !(|b| > 0 && b[0] == '/') ==> |a| + |b| <= |r| <= |a| + |b| + 1
  {
    if |b| > 0 && b[0] == '/' then b
    else if a == [] || a[|a| - 1] == '/' then a + b
    else a + "/" + b
  }

  /** The home directory when it is writable, else /tmp. */
  function BaseDir(h: Host): (base: string)
    ensures h.homeWritable ==> base == h.home
    ensures !h.homeWritable ==> base == "/tmp"
  {
    if h.homeWritable then h.home else TmpDir
  }

  function KerasDir(base: string): string
  {
    PathJoin(base, ".keras")
  }

  function ConfigPath(base: string): string
  {
    PathJoin(KerasDir(base), "keras.json")
  }

  // ---------------------------------------------------------------------
  // Checks
  // ---------------------------------------------------------------------

  /** `assert v in domain`: unhashable values raise TypeError first. */
  function CheckIn(at: Check, v: Value, domain: set<string>): (o: Outcome)
    ensures o.Pass? <==> StrIn(v, domain)
    ensures o.Fail? ==> o.error == (if Hashable(v) then AssertionError(at) else TypeError(at))
  {
    if !Hashable(v) then Fail(TypeError(at))
    else if StrIn(v, domain) then Pass
    else Fail(AssertionError(at))
  }

  /** `assert isinstance(v, float)`: an integer JSON number fails too. */
  function CheckFloat(at: Check, v: Value): (o: Outcome)
    ensures o.Pass? <==> v.Float?
    ensures o.Fail? ==> o.error == AssertionError(at)
  {
    if v.Float? then Pass else Fail(AssertionError(at))
  }

  // ---------------------------------------------------------------------
  // The config-file layer
  // ---------------------------------------------------------------------

  /** Each key of the document, or the current value when the key is absent,
      checked in the source's order; the first failing check decides the error.
      Nothing is returned (nothing is set) unless all four pass. */
  function Overlay(cur: Config, d: seq<(string, Value)>): (r: Result<Config>)
    ensures r.Success? ==> ValidConfig(r.value)
    ensures r.Failure? ==> r.error.AssertionError? || r.error.TypeError?
  {
    var floatx := Get(d, "floatx", cur.floatx);
    var epsilon := Get(d, "epsilon", cur.epsilon);
    var backend := Get(d, "backend", cur.backend);
    var format := Get(d, "image_data_format", cur.imageDataFormat);
    var c1 := CheckIn(FileFloatx, floatx, FloatxDomain);
    var c2 := CheckFloat(FileEpsilon, epsilon);
    var c3 := CheckIn(FileBackend, backend, BackendDomain);
    var c4 := CheckIn(FileImageDataFormat, format, ImageDataFormatDomain);
    if c1.Fail? then Failure(c1.error)
    else if c2.Fail? then Failure(c2.error)
    else if c3.Fail? then Failure(c3.error)
    else if c4.Fail? then Failure(c4.error)
    else Success(Config(floatx, epsilon, backend, format))
  }

  /** Reading an existing config file: a parse error counts as an empty
      object; an OSError or a non-object document aborts. */
  function FileLayer(cur: Config, read: Read): (r: Result<Config>)
    ensures r.Success? ==> ValidConfig(r.value)
  {
    match read
    case Unreadable => Failure(ConfigUnreadable)
    case Malformed => Overlay(cur, [])
    case Parsed(doc) => if doc.Dict? then Overlay(cur, doc.members) else Failure(ConfigNotADict)
  }

  // ---------------------------------------------------------------------
  // Seed file and dispatch
  // ---------------------------------------------------------------------

  /** The seed file is attempted when the base directory is writable and no
      config file exists. */
  function SeedAttempted(h: Host): (attempted: bool)
    ensures attempted ==> h.configFile.None?
    ensures h.configFile.None? && h.homeWritable ==> attempted
    ensures h.configFile.None? && !h.homeWritable && h.tmpWritable ==> attempted
    ensures !h.homeWritable && !h.tmpWritable ==> !attempted
  {
    (h.homeWritable || h.tmpWritable) && h.configFile.None?
  }

  /** Only a failing makedirs is swallowed; open(path, 'w') then fails unless
      the directory is there. */
  function SeedWriteSucceeds(h: Host): (ok: bool)
    ensures !h.configCreatable ==> !ok
    ensures !h.kerasDirExists && !h.makedirsSucceeds ==> !ok
    ensures h.kerasDirExists && h.configCreatable ==> ok
    ensures !h.kerasDirExists && h.makedirsSucceeds && h.configCreatable ==> ok
  {
    (h.kerasDirExists || h.makedirsSucceeds) && h.configCreatable
  }

  /** The final branch on `_BACKEND`. */
  function Dispatch(backend: Value): (r: Result<Engine>)
    ensures r.Success? <==> StrIn(backend, BackendDomain)
    ensures r.Success? ==> backend == Str(EngineName(r.value))
    ensures r.Failure? ==> r.error == UnknownBackend
  {
    if backend == Str("theano") then Success(Theano)
    else if backend == Str("tensorflow") then Success(TensorFlow)
    else Failure(UnknownBackend)
  }

  // ---------------------------------------------------------------------
  // The whole sequence
  // ---------------------------------------------------------------------

  /** The environment layer and the dispatch, once the file layer and the
      seed write are done; `c` is the state they left. */
  function EnvLayer(path: string, c: Config, seed: Option<Config>, env: Option<string>): (run: Run)
    ensures run.configPath == path && run.seed == seed
    ensures SettingsOf(run.state) == SettingsOf(c)
    ensures run.result.Success? ==> run.state.backend == Str(EngineName(run.result.value))
    ensures env.Some? && run.result.Success? ==> run.state.backend == Str(env.value)
    ensures env.None? ==> run.state == c && run.result == Dispatch(c.backend)
    ensures env.Some? && env.value !in BackendDomain ==>
              run.state == c && run.result == Failure(AssertionError(EnvBackend))
    ensures env.Some? && env.value in BackendDomain ==>
              run.state == c.(backend := Str(env.value)) && run.result.Success?
  {
    match env
    case Some(name) =>
      var check := CheckIn(EnvBackend, Str(name), BackendDomain);
      if check.Fail? then Run(path, c, seed, Failure(check.error))
      else Run(path, c.(backend := Str(name)), seed, Dispatch(Str(name)))
    case None =>
      Run(path, c, seed, Dispatch(c.backend))
  }

  /** Importing the package, from the common module's state `s`. */
  function Resolve(s: Settings, h: Host): (run: Run)
    ensures run.configPath == ConfigPath(BaseDir(h))
    ensures run.result.Success? ==> StrIn(run.state.backend, BackendDomain)
  {
    var path := ConfigPath(BaseDir(h));
    var start := StartConfig(s);
    var file := if h.configFile.Some? then FileLayer(start, h.configFile.value) else Success(start);
    if file.Failure? then Run(path, start, None, Failure(file.error))
    else
      var c := file.value;
      if SeedAttempted(h) && !SeedWriteSucceeds(h) then Run(path, c, None, Failure(SeedWriteError))
      else EnvLayer(path, c, if SeedAttempted(h) then Some(c) else None, h.kerasBackend)
  }

  /** The seed record as json.dumps receives it, keys in insertion order:
      an object of four members with distinct keys, each holding its field. */
  function SeedDocument(c: Config): (doc: Value)
    ensures doc.Dict? && |doc.members| == 4
    ensures forall i, j :: 0 <= i < j < |doc.members| ==> doc.members[i].0 != doc.members[j].0
    ensures doc.members[0] == ("floatx", c.floatx) && doc.members[1] == ("epsilon", c.epsilon)
    ensures doc.members[2] == ("backend", c.backend)
    ensures doc.members[3] == ("image_data_format", c.imageDataFormat)
  {
    Dict([("floatx", c.floatx), ("epsilon", c.epsilon),
          ("backend", c.backend), ("image_data_format", c.imageDataFormat)])
  }
}
