/** The backend package as the importing process sees it: the common
    module's settings, the package's globals, and what the import leaves
    behind on disk and in the namespace. `Import` performs the module-level
    statements one by one and is proved to agree with `Resolution.Resolve`. */
module Package {
  import opened Json
  import opened Resolution

  class BackendPackage {
    // State of the common module, read by floatx(), epsilon(), image_data_format().
    var floatx: Value
    var epsilon: Value
    var imageDataFormat: Value

    // Globals of the package.
    var kerasBaseDir: string
    var kerasDir: string
    var configPath: string
    var backendName: Value            // `_BACKEND`

    // Effects outside the process state.
    var seedFile: Option<Config>      // the record the seed write left at configPath
    var bound: Option<Engine>         // the backend module whose names were imported

    /** The process before the package is imported: the common module holds
        its defaults and nothing is bound yet. */
    constructor ()
      ensures CommonSettings() == DefaultSettings
      ensures seedFile.None? && bound.None?
    {
      floatx, epsilon, imageDataFormat :=
        DefaultSettings.floatx, DefaultSettings.epsilon, DefaultSettings.imageDataFormat;
      kerasBaseDir, kerasDir, configPath := "", "", "";
      backendName := Null;
      seedFile, bound := None, None;
    }

    function CommonSettings(): Settings
      reads this
    {
      Settings(floatx, epsilon, imageDataFormat)
    }

    /** The four configuration fields as they stand. */
    function Current(): Config
      reads this
    {
      Config(floatx, epsilon, backendName, imageDataFormat)
    }

    /** A successful import has bound the module that `_BACKEND` names. */
    predicate Imported()
      reads this
    {
      bound.Some? && backendName == Str(EngineName(bound.value))
    }

    method SetFloatx(v: Value)
      modifies this`floatx
      ensures floatx == v
    {
      floatx := v;
    }

    method SetEpsilon(v: Value)
      modifies this`epsilon
      ensures epsilon == v
    {
      epsilon := v;
    }

    method SetImageDataFormat(v: Value)
      modifies this`imageDataFormat
      ensures imageDataFormat == v
    {
      imageDataFormat := v;
    }

    /** Lines choosing the base directory and the config path. */
    method ChooseConfigPath(h: Host)
      modifies this`kerasBaseDir, this`kerasDir, this`configPath
      ensures kerasBaseDir == BaseDir(h) && kerasDir == KerasDir(kerasBaseDir)
      ensures configPath == ConfigPath(kerasBaseDir)
    {
      kerasBaseDir := h.home;
      if !h.homeWritable {
        kerasBaseDir := TmpDir;
      }
      kerasDir := PathJoin(kerasBaseDir, ".keras");
      configPath := PathJoin(kerasDir, "keras.json");
    }

    /** The existing config file overlays the current values. Every check
        runs before the first setter, so a failure changes nothing. */
    method ReadConfig(read: Read) returns (outcome: Outcome)
      modifies this`floatx, this`epsilon, this`imageDataFormat, this`backendName
      ensures var r := FileLayer(old(Current()), read);
              if r.Success? then outcome.Pass? && Current() == r.value
              else outcome == Fail(r.error) && Current() == old(Current())
    {
      var config: seq<(string, Value)>;
      match read {
        case Unreadable =>
          return Fail(ConfigUnreadable);
        case Malformed =>
          config := [];
        case Parsed(doc) =>
          if !doc.Dict? {
            return Fail(ConfigNotADict);
          }
          config := doc.members;
      }
      var newFloatx := Get(config, "floatx", floatx);
      outcome := CheckIn(FileFloatx, newFloatx, FloatxDomain);
      if outcome.Fail? {
        return;
      }
      var newEpsilon := Get(config, "epsilon", epsilon);
      outcome := CheckFloat(FileEpsilon, newEpsilon);
      if outcome.Fail? {
        return;
      }
      var newBackend := Get(config, "backend", backendName);
      outcome := CheckIn(FileBackend, newBackend, BackendDomain);
      if outcome.Fail? {
        return;
      }
      var newFormat := Get(config, "image_data_format", imageDataFormat);
      outcome := CheckIn(FileImageDataFormat, newFormat, ImageDataFormatDomain);
      if outcome.Fail? {
        return;
      }
      SetFloatx(newFloatx);
      SetEpsilon(newEpsilon);
      SetImageDataFormat(newFormat);
      backendName := newBackend;
    }

    /** Writing the seed file when the base directory is writable and no
        config file exists; only a failing makedirs is swallowed. */
    method SaveConfig(h: Host) returns (outcome: Outcome)
      modifies this`seedFile
      ensures outcome.Pass? <==> !(SeedAttempted(h) && !SeedWriteSucceeds(h))
      ensures outcome.Fail? ==> outcome.error == SeedWriteError
      ensures seedFile == (if SeedAttempted(h) && SeedWriteSucceeds(h) then Some(Current()) else old(seedFile))
    {
      outcome := Pass;
      // os.access(kerasBaseDir, W_OK): the home directory was found writable
      // already, or the base is /tmp.
      var baseWritable := h.homeWritable || h.tmpWritable;
      if baseWritable {
        var dirReady := h.kerasDirExists;
        if !dirReady {
          // an OSError from os.makedirs is swallowed
          dirReady := h.makedirsSucceeds;
        }
        if h.configFile.None? {
          if !(dirReady && h.configCreatable) {
            return Fail(SeedWriteError);
          }
          seedFile := Some(Current());
        }
      }
    }

    /** KERAS_BACKEND replaces `_BACKEND` after the same domain check. */
    method ApplyEnvironment(env: Option<string>) returns (outcome: Outcome)
      modifies this`backendName
      ensures env.None? ==> outcome.Pass? && backendName == old(backendName)
      ensures env.Some? ==> var check := CheckIn(EnvBackend, Str(env.value), BackendDomain);
                            outcome == check &&
                            backendName == (if check.Pass? then Str(env.value) else old(backendName))
    {
      outcome := Pass;
      if env.Some? {
        var name := Str(env.value);
        outcome := CheckIn(EnvBackend, name, BackendDomain);
        if outcome.Fail? {
          return;
        }
        backendName := name;
      }
    }

    /** The module-level statements of the package, run once when it is
        first imported; a `Failure` is the exception that stops the import. */
    method Import(h: Host) returns (result: Result<Engine>)
      requires bound.None?
      modifies this
      ensures var run := Resolve(old(CommonSettings()), h);
              result == run.result && Current() == run.state && configPath == run.configPath &&
              seedFile == (if run.seed.Some? then run.seed else old(seedFile))
      ensures kerasBaseDir == BaseDir(h) && kerasDir == KerasDir(kerasBaseDir)
      ensures result.Success? <==> Imported()
      ensures result.Failure? ==> bound.None?
    {
      ChooseConfigPath(h);
      backendName := Str(DefaultBackend);
      assert Current() == StartConfig(old(CommonSettings()));

      if h.configFile.Some? {
        var outcome := ReadConfig(h.configFile.value);
        if outcome.Fail? {
          return Failure(outcome.error);
        }
      }

      var outcome := SaveConfig(h);
      if outcome.Fail? {
        return Failure(outcome.error);
      }

      outcome := ApplyEnvironment(h.kerasBackend);
      if outcome.Fail? {
        return Failure(outcome.error);
      }

      if backendName == Str("theano") {
        bound := Some(Theano);
        result := Success(Theano);
      } else if backendName == Str("tensorflow") {
        bound := Some(TensorFlow);
        result := Success(TensorFlow);
      } else {
        result := Failure(UnknownBackend);
      }
    }

    /** backend(): the name of the backend in use. */
    method Backend() returns (name: Value)
      ensures name == backendName
      ensures Imported() ==> StrIn(name, BackendDomain) && name == Str(EngineName(bound.value))
    {
      name := backendName;
    }
  }
}
